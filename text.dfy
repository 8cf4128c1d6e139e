/** String operations the services rely on, written out over `seq<char>`:
    whitespace as Python's `str.isspace` and JavaScript's `String.prototype.trim`
    see it, `strip`, `split()`, `join`, `lower` and decimal rendering. */
module Text {

  /** Python's `str.isspace` (the characters `str.split()` and `str.strip()` drop). */
  predicate IsPySpace(c: char) {
    c == ' ' || c == '\t' || c == '\n' || c == '\r' || c == '\U{000B}' || c == '\U{000C}'
    || ('\U{001C}' <= c <= '\U{001F}') || c == '\U{0085}' || c == '\U{00A0}' || c == '\U{1680}'
    || ('\U{2000}' <= c <= '\U{200A}') || c == '\U{2028}' || c == '\U{2029}'
    || c == '\U{202F}' || c == '\U{205F}' || c == '\U{3000}'
  }

  /** The characters JavaScript's `trim()` removes (WhiteSpace and LineTerminator). */
  predicate IsJsSpace(c: char) {
    c == ' ' || c == '\t' || c == '\n' || c == '\r' || c == '\U{000B}' || c == '\U{000C}'
    || c == '\U{00A0}' || c == '\U{FEFF}' || c == '\U{1680}'
    || ('\U{2000}' <= c <= '\U{200A}') || c == '\U{2028}' || c == '\U{2029}'
    || c == '\U{202F}' || c == '\U{205F}' || c == '\U{3000}'
  }

  /** `not s.strip()` in Python. */
  predicate IsBlank(s: string) {
    forall i :: 0 <= i < |s| ==> IsPySpace(s[i])
  }

  /** `!s.trim()` in JavaScript. */
  predicate IsJsBlank(s: string) {
    forall i :: 0 <= i < |s| ==> IsJsSpace(s[i])
  }

  predicate NoSpace(s: string) {
    forall i :: 0 <= i < |s| ==> !IsPySpace(s[i])
  }

  /** A token of `str.split()`: non-empty and free of whitespace. */
  predicate IsWord(s: string) {
    |s| > 0 && NoSpace(s)
  }

  /** A concatenation is blank exactly when both parts are. */
  lemma BlankConcat(a: string, b: string)
    ensures IsBlank(a + b) <==> IsBlank(a) && IsBlank(b)
  {
    if IsBlank(a) && IsBlank(b) {
      forall i | 0 <= i < |a + b| ensures IsPySpace((a + b)[i]) {
        if i >= |a| {
          assert (a + b)[i] == b[i - |a|];
        }
      }
    }
    if IsBlank(a + b) {
      forall i | 0 <= i < |a| ensures IsPySpace(a[i]) {
        assert (a + b)[i] == a[i];
      }
      forall i | 0 <= i < |b| ensures IsPySpace(b[i]) {
        assert (a + b)[|a| + i] == b[i];
      }
    }
  }

  /** The first index at or after `k` that does not hold whitespace, or |s|. */
  function LeftStart(s: string, k: nat): (n: nat)
    requires k <= |s|
    ensures k <= n <= |s|
    ensures forall i :: k <= i < n ==> IsPySpace(s[i])
    ensures n < |s| ==> !IsPySpace(s[n])
    decreases |s| - k
  {
    if k == |s| || !IsPySpace(s[k]) then k else LeftStart(s, k + 1)
  }

  /** One past the last index before `k` that does not hold whitespace, or 0. */
  function RightEnd(s: string, k: nat): (n: nat)
    requires k <= |s|
    ensures n <= k
    ensures forall i :: n <= i < k ==> IsPySpace(s[i])
    ensures n > 0 ==> !IsPySpace(s[n - 1])
  {
    if k == 0 || !IsPySpace(s[k - 1]) then k else RightEnd(s, k - 1)
  }

  /** Python's `s.lstrip()`. */
  function StripLeft(s: string): (r: string)
    ensures |r| <= |s| && r == s[|s| - |r|..]
    ensures r == [] <==> IsBlank(s)
    ensures r != [] ==> !IsPySpace(r[0])
    ensures IsBlank(s[..|s| - |r|])
  {
    s[LeftStart(s, 0)..]
  }

  /** Python's `s.rstrip()`. */
  function StripRight(s: string): (r: string)
    ensures |r| <= |s| && r == s[..|r|]
    ensures r == [] <==> IsBlank(s)
    ensures r != [] ==> !IsPySpace(r[|r| - 1])
    ensures IsBlank(s[|r|..])
  {
    s[..RightEnd(s, |s|)]
  }

  /** Python's `s.strip()`. */
  function Strip(s: string): (r: string)
    ensures r == [] <==> IsBlank(s)
    ensures r != [] ==> !IsPySpace(r[0]) && !IsPySpace(r[|r| - 1])
    ensures |r| <= |s|
    ensures exists i, j :: 0 <= i <= j <= |s| && r == s[i..j] && IsBlank(s[..i]) && IsBlank(s[j..])
  {
    var l := StripLeft(s);
    var r := StripRight(l);
    var i := |s| - |l|;
    var j := i + |r|;
    assert s == s[..i] + l;
    BlankConcat(s[..i], l);
    assert r != [] ==> r[0] == l[0];
    assert r == s[i..j];
    assert s[j..] == l[|r|..];
    r
  }

  /** `sep.join(parts)`. */
  function Join(parts: seq<string>, sep: string): string {
    if |parts| == 0 then ""
    else if |parts| == 1 then parts[0]
    else parts[0] + sep + Join(parts[1..], sep)
  }

  function Concat(parts: seq<string>): string {
    if |parts| == 0 then "" else parts[0] + Concat(parts[1..])
  }

  /** `c * n` for a one-character string. */
  function Repeat(c: char, n: nat): (r: string)
    ensures |r| == n && forall i :: 0 <= i < n ==> r[i] == c
  {
    if n == 0 then "" else [c] + Repeat(c, n - 1)
  }

  function Digit(d: nat): char
    requires d < 10
  {
    "0123456789"[d]
  }

  /** `str(n)` for a natural number. */
  function NatToString(n: nat): (r: string)
    ensures |r| > 0
    ensures forall i :: 0 <= i < |r| ==> '0' <= r[i] <= '9'
  {
    if n < 10 then [Digit(n)] else NatToString(n / 10) + [Digit(n % 10)]
  }

  function LowerChar(c: char): char {
    if 'A' <= c <= 'Z' then (c as int + 32) as char else c
  }

  /** `s.lower()`, on the ASCII letters. */
  function Lower(s: string): (r: string)
    ensures |r| == |s|
    ensures forall i :: 0 <= i < |s| ==> r[i] == LowerChar(s[i])
  {
    if |s| == 0 then "" else [LowerChar(s[0])] + Lower(s[1..])
  }

  predicate StartsWith(s: string, prefix: string) {
    |prefix| <= |s| && s[..|prefix|] == prefix
  }

  predicate EndsWith(s: string, suffix: string) {
    |suffix| <= |s| && s[|s| - |suffix|..] == suffix
  }

  /** Python's `str.split()` with no separator: the maximal runs of
      non-whitespace characters, `cur` being the run read so far. */
  function SplitFrom(s: string, cur: string): seq<string>
    decreases |s|
  {
    if |s| == 0 then (if cur == [] then [] else [cur])
    else if IsPySpace(s[0]) then
      (if cur == [] then SplitFrom(s[1..], []) else [cur] + SplitFrom(s[1..], []))
    else SplitFrom(s[1..], cur + [s[0]])
  }

  function Split(s: string): seq<string> {
    SplitFrom(s, [])
  }

  /** The characters of `s` that are not whitespace, in order. */
  function RemoveSpaces(s: string): string {
    if |s| == 0 then "" else (if IsPySpace(s[0]) then "" else [s[0]]) + RemoveSpaces(s[1..])
  }

  lemma {:induction false} SplitFromWords(s: string, cur: string)
    requires NoSpace(cur)
    ensures forall t :: t in SplitFrom(s, cur) ==> IsWord(t)
    decreases |s|
  {
    if |s| == 0 {
    } else if IsPySpace(s[0]) {
      SplitFromWords(s[1..], []);
    } else {
      SplitFromWords(s[1..], cur + [s[0]]);
    }
  }

  lemma {:induction false} SplitFromConcat(s: string, cur: string)
    ensures Concat(SplitFrom(s, cur)) == cur + RemoveSpaces(s)
    decreases |s|
  {
    if |s| == 0 {
      if cur != [] {
        assert Concat([cur]) == cur + Concat([]);
      }
    } else if IsPySpace(s[0]) {
      SplitFromConcat(s[1..], []);
      if cur != [] {
        var rest := SplitFrom(s[1..], []);
        assert ([cur] + rest)[1..] == rest;
      }
    } else {
      SplitFromConcat(s[1..], cur + [s[0]]);
    }
  }

  lemma {:induction false} SplitFromEmpty(s: string, cur: string)
    ensures SplitFrom(s, cur) == [] <==> cur == [] && IsBlank(s)
    decreases |s|
  {
    if |s| == 0 {
    } else if IsPySpace(s[0]) {
      SplitFromEmpty(s[1..], []);
      if cur == [] && IsBlank(s[1..]) {
        assert IsBlank(s);
      }
      if IsBlank(s) {
        assert IsBlank(s[1..]);
      }
    } else {
      assert !IsBlank(s);
      SplitFromEmpty(s[1..], cur + [s[0]]);
    }
  }

  /** Every token of `str.split()` is a non-empty, whitespace-free word, the
      tokens together hold exactly the non-whitespace characters in order,
      and there are none exactly when the input is blank. */
  lemma SplitWords(s: string)
    ensures forall t :: t in Split(s) ==> IsWord(t)
    ensures Concat(Split(s)) == RemoveSpaces(s)
    ensures Split(s) == [] <==> IsBlank(s)
  {
    SplitFromWords(s, []);
    SplitFromConcat(s, []);
    SplitFromEmpty(s, []);
  }

  lemma {:induction false} SplitFromWord(w: string, rest: string, cur: string)
    requires NoSpace(w)
    ensures SplitFrom(w + rest, cur) == SplitFrom(rest, cur + w)
    decreases |w|
  {
    if |w| == 0 {
      assert w + rest == rest;
      assert cur + w == cur;
    } else {
      assert (w + rest)[0] == w[0];
      assert (w + rest)[1..] == w[1..] + rest;
      SplitFromWord(w[1..], rest, cur + [w[0]]);
      assert cur + [w[0]] + w[1..] == cur + w;
    }
  }

  /** `str.split()` undoes `" ".join` on words: splitting a space-joined
      list of words gives the list back. */
  lemma {:induction false} SplitJoin(ts: seq<string>)
    requires forall t :: t in ts ==> IsWord(t)
    ensures Split(Join(ts, " ")) == ts
    decreases |ts|
  {
    if |ts| > 0 {
      assert ts[0] in ts;
    }
    if |ts| == 0 {
    } else if |ts| == 1 {
      SplitFromWord(ts[0], "", []);
      assert ts[0] + "" == ts[0];
      assert [] + ts[0] == ts[0];
    } else {
      var rest := Join(ts[1..], " ");
      assert Join(ts, " ") == ts[0] + (" " + rest);
      SplitFromWord(ts[0], " " + rest, []);
      assert [] + ts[0] == ts[0];
      assert (" " + rest)[1..] == rest;
      SplitJoin(ts[1..]);
      assert ts == [ts[0]] + ts[1..];
    }
  }

  /** `sep.join(parts)` begins with the first `i` parts joined, a separator
      unless `i` is 0, and then part `i`: the parts appear in order. */
  lemma {:induction false} JoinPrefix(parts: seq<string>, sep: string, i: nat)
    requires i < |parts|
    ensures StartsWith(Join(parts, sep), Join(parts[..i], sep) + (if i == 0 then "" else sep) + parts[i])
  {
    if i == 0 {
      assert Join(parts, sep) == parts[0] + Join(parts, sep)[|parts[0]|..];
    } else {
      var tail := parts[1..];
      JoinPrefix(tail, sep, i - 1);
      assert tail[i - 1] == parts[i];
      assert Join(parts, sep) == parts[0] + sep + Join(tail, sep);
      if i == 1 {
        assert Join(parts[..1], sep) == parts[0];
      } else {
        assert parts[..i][1..] == tail[..i - 1];
        assert Join(parts[..i], sep) == parts[0] + sep + Join(tail[..i - 1], sep);
      }
    }
  }

  /** A string keeps its prefixes when something is appended to it. */
  lemma StartsWithExtend(s: string, t: string, p: string)
    requires StartsWith(s, p)
    ensures StartsWith(s + t, p)
  {
    assert (s + t)[..|p|] == s[..|p|];
  }

  /** A prefix `a + b + c` of `mid` stays a prefix after the same head. */
  lemma StartsWithAfter(head: string, mid: string, a: string, b: string, c: string)
    requires StartsWith(mid, a + b + c)
    ensures StartsWith(head + mid, head + a + b + c)
  {
    assert (head + mid)[..|head + a + b + c|] == head + mid[..|a + b + c|];
  }

  /** `sep.join` of non-empty parts is empty only for no parts. */
  lemma JoinEmpty(parts: seq<string>, sep: string)
    requires forall t :: t in parts ==> |t| > 0
    ensures Join(parts, sep) == "" <==> parts == []
  {
    if |parts| > 0 {
      assert parts[0] in parts;
    }
  }
}
