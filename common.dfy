/** Small shared datatypes: optional values, results, HTTP errors as the
    services raise them (FastAPI's HTTPException), and the two sequence
    slicings the services use (Python's `s[:n]`, SQL's OFFSET/LIMIT). */
module Common {

  datatype Option<+T> = None | Some(value: T) {
    function GetOr(default: T): T {
      match this
      case Some(v) => v
      case None => default
    }
  }

  /** A computation that either returns a value or fails with an error value. */
  datatype Result<+T, +E> = Ok(value: T) | Err(error: E)

  /** HTTPException(status_code, detail). */
  datatype HttpError = HttpError(status: int, detail: string)

  const BAD_REQUEST := 400
  const FORBIDDEN := 403
  const NOT_FOUND := 404
  const SERVER_ERROR := 500

  /** A reply from another service over HTTP, or a transport-level failure
      (connection refused, timeout): what an httpx call returns or raises. */
  datatype Reply<+B> = Response(status: nat, body: B) | TransportError(message: string)

  /** A JSON value stored in a `metadata` column, as far as the services write them. */
  datatype MetaValue = Str(s: string) | Int(i: int)

  type Metadata = map<string, MetaValue>

  /** `m[k] == v`, with `k` present. */
  predicate HasEntry(m: Metadata, k: string, v: MetaValue) {
    k in m && m[k] == v
  }

  /** An embedding vector. */
  type Vector = seq<real>

  function Min(a: int, b: int): int { if a <= b then a else b }

  /** Python's `s[:n]` for a non-negative `n`. */
  function Take<T>(s: seq<T>, n: nat): (r: seq<T>)
    ensures |r| == Min(n, |s|)
    ensures r <= s
    ensures n >= |s| ==> r == s
  {
    if n >= |s| then s else s[..n]
  }

  /** Python's `s[:n]` for any integer `n`: a negative `n` drops that many
      elements from the end. */
  function SliceTo<T>(s: seq<T>, n: int): (r: seq<T>)
    ensures r <= s
    ensures n >= 0 ==> r == Take(s, n)
    ensures n < 0 ==> |r| == (if |s| + n >= 0 then |s| + n else 0)
  {
    if n >= 0 then Take(s, n) else if |s| + n >= 0 then s[..|s| + n] else []
  }

  /** No element occurs twice. */
  predicate Distinct<T(==)>(s: seq<T>) {
    forall i, j :: 0 <= i < j < |s| ==> s[i] != s[j]
  }

  /** SQL `LIMIT limit OFFSET offset` over an already ordered row sequence. */
  function Page<T>(s: seq<T>, offset: nat, limit: nat): (r: seq<T>)
    ensures |r| <= limit
    ensures |r| == Min(limit, if offset <= |s| then |s| - offset else 0)
    ensures forall i :: 0 <= i < |r| ==> offset + i < |s| && r[i] == s[offset + i]
  {
    if offset >= |s| then [] else Take(s[offset..], limit)
  }

  /** The database's refusal of a negative row count, as PostgreSQL words it;
      the OFFSET clause is evaluated before the LIMIT clause. */
  function RowCountError(limit: int, offset: int): (r: Option<string>)
    ensures r.None? <==> limit >= 0 && offset >= 0
    ensures offset < 0 ==> r == Some("OFFSET must not be negative")
    ensures offset >= 0 && limit < 0 ==> r == Some("LIMIT must not be negative")
  {
    if offset < 0 then Some("OFFSET must not be negative")
    else if limit < 0 then Some("LIMIT must not be negative")
    else None
  }
}
