/** Hybrid search (services/knowledge/services/search.py): a full-text query
    and a vector-similarity query over one user's chunks, merged by chunk id
    into one list ranked by a weighted sum of the two scores.

    The two SQL queries are modelled over a snapshot of the tables. What
    PostgreSQL computes inside them is a parameter: `rank(text, tsquery)` is
    `ts_rank` when the chunk matches the query and None otherwise,
    `parses(tsquery)` says whether `to_tsquery` accepts the query text, and
    `dist(a, b)` is pgvector's cosine distance, None when the dimensions
    differ. Rows with equal scores keep their table order. */
module Search {
  import opened Common
  import opened Text
  import opened Sorting
  import opened KnowledgeModels
  import opened Embedder

  const RETRIEVAL_TOP_K: int := 50
  const RERANK_TOP_K: nat := 10
  const BM25_WEIGHT: real := 0.5

  /** A row of the full-text query. */
  datatype KeywordHit = KeywordHit(chunkId: string, docId: string, text: string, metadata: Metadata, bm25Score: real)

  /** A row of the vector query. */
  datatype VectorHit = VectorHit(chunkId: string, docId: string, text: string, metadata: Metadata, vectorScore: real)

  /** An entry of the merge dictionary before the combined score is added. */
  datatype Merged = Merged(chunkId: string, docId: string, text: string, metadata: Metadata, bm25Score: real, vectorScore: real)

  /** A ranked search result. */
  datatype Hit = Hit(chunkId: string, docId: string, text: string, metadata: Metadata, bm25Score: real, vectorScore: real, score: real)

  function Bm25Key(h: KeywordHit): real { h.bm25Score }
  function SimilarityKey(h: VectorHit): real { h.vectorScore }
  function ScoreKey(h: Hit): real { h.score }

  // ---------------------------------------------------------------------
  // The full-text query

  /** `" & ".join(query.split())`: the words of the query, AND-ed. */
  function KeywordQuery(query: string): string {
    Join(Split(query), " & ")
  }

  /** The query text is empty exactly when the query is blank, and otherwise
      consists of the query's words separated by `" & "`. */
  lemma KeywordQueryWords(query: string)
    ensures KeywordQuery(query) == "" <==> IsBlank(query)
    ensures forall t :: t in Split(query) ==> IsWord(t)
    ensures Concat(Split(query)) == RemoveSpaces(query)
  {
    SplitWords(query);
    JoinEmpty(Split(query), " & ");
  }

  /** The user's chunks that match the query, as rows, in table order. */
  function KeywordCandidates(chunks: seq<Chunk>, userId: string, q: string, rank: (string, string) -> Option<real>): (r: seq<KeywordHit>)
    ensures |r| <= |chunks|
  {
    if |chunks| == 0 then []
    else
      var c := chunks[0];
      var rest := KeywordCandidates(chunks[1..], userId, q, rank);
      if c.userId == userId && rank(c.text, q).Some? then
        [KeywordHit(c.id, c.docId, c.text, c.metadata, rank(c.text, q).value)] + rest
      else rest
  }

  /** The full-text statement fails: its limit is negative or `to_tsquery`
      rejects the query text. */
  predicate KeywordFails(query: string, topK: int, parses: string -> bool) {
    topK < 0 || !parses(KeywordQuery(query))
  }

  /** `_bm25_search`: `ORDER BY score DESC LIMIT top_k`; a failing query
      (a negative limit, a query text `to_tsquery` rejects) yields no rows. */
  function KeywordSearch(chunks: seq<Chunk>, query: string, userId: string, topK: int,
                         parses: string -> bool, rank: (string, string) -> Option<real>): seq<KeywordHit>
  {
    var q := KeywordQuery(query);
    if KeywordFails(query, topK, parses) then []
    else Take(SortDesc(KeywordCandidates(chunks, userId, q, rank), Bm25Key), topK)
  }

  lemma {:induction false} KeywordCandidatesFrom(chunks: seq<Chunk>, userId: string, q: string, rank: (string, string) -> Option<real>)
    ensures forall h :: h in KeywordCandidates(chunks, userId, q, rank) ==>
      exists c :: c in chunks && c.id == h.chunkId && c.userId == userId && c.docId == h.docId
        && c.text == h.text && rank(c.text, q) == Some(h.bm25Score)
    ensures forall c :: c in chunks && c.userId == userId && rank(c.text, q).Some? ==>
      KeywordHit(c.id, c.docId, c.text, c.metadata, rank(c.text, q).value) in KeywordCandidates(chunks, userId, q, rank)
    decreases |chunks|
  {
    if |chunks| > 0 {
      KeywordCandidatesFrom(chunks[1..], userId, q, rank);
      assert chunks == [chunks[0]] + chunks[1..];
    }
  }

  /** Every full-text result is a matching chunk of the user carrying its
      rank; there are at most `top_k`, best first; when the statement
      succeeds they are the `top_k` best-ranked candidates, and when fewer
      than `top_k` come back, every matching chunk of the user is among them. */
  lemma KeywordSearchSound(chunks: seq<Chunk>, query: string, userId: string, topK: int,
                           parses: string -> bool, rank: (string, string) -> Option<real>)
    ensures var r := KeywordSearch(chunks, query, userId, topK, parses, rank);
      (topK >= 0 ==> |r| <= topK)
      && SortedDesc(r, Bm25Key)
      && (forall h :: h in r ==>
            exists c :: c in chunks && c.id == h.chunkId && c.userId == userId
              && rank(c.text, KeywordQuery(query)) == Some(h.bm25Score))
      && (0 <= |r| < topK && parses(KeywordQuery(query)) ==>
            forall c :: c in chunks && c.userId == userId && rank(c.text, KeywordQuery(query)).Some? ==>
              KeywordHit(c.id, c.docId, c.text, c.metadata, rank(c.text, KeywordQuery(query)).value) in r)
    ensures var r := KeywordSearch(chunks, query, userId, topK, parses, rank);
      var cands := KeywordCandidates(chunks, userId, KeywordQuery(query), rank);
      !KeywordFails(query, topK, parses) ==>
        multiset(r) <= multiset(cands)
        && (|r| < topK ==> multiset(r) == multiset(cands))
        && (forall x, y :: x in multiset(cands) - multiset(r) && y in r ==> Bm25Key(x) <= Bm25Key(y))
  {
    var q := KeywordQuery(query);
    var cands := KeywordCandidates(chunks, userId, q, rank);
    KeywordCandidatesFrom(chunks, userId, q, rank);
    var r := KeywordSearch(chunks, query, userId, topK, parses, rank);
    if topK >= 0 && parses(q) {
      var t := SortDesc(cands, Bm25Key);
      assert r == Take(t, topK);
      TopK(cands, Bm25Key, topK);
      forall h | h in r ensures h in cands {
        assert h in t;
        assert h in multiset(t);
      }
      if |r| < topK {
        assert r == t;
        forall h | h in cands ensures h in r {
          assert h in multiset(cands);
        }
      }
    }
  }

  // ---------------------------------------------------------------------
  // The vector query

  /** The join of the user's embeddings with their chunks, each row carrying
      the similarity `1 - distance`; None when a distance cannot be computed. */
  function VectorCandidates(embs: seq<EmbeddingRow>, chunks: seq<Chunk>, userId: string, qv: Vector,
                            dist: (Vector, Vector) -> Option<real>): Option<seq<VectorHit>>
  {
    if |embs| == 0 then Some([])
    else
      var e := embs[0];
      match VectorCandidates(embs[1..], chunks, userId, qv, dist)
      case None => None
      case Some(rest) =>
        if e.userId != userId then Some(rest)
        else match dist(e.vector, qv)
          case None => None
          case Some(d) => Some(JoinChunks(e, chunks, 1.0 - d) + rest)
  }

  /** `JOIN knowledge.chunks c ON c.id = e.chunk_id` for one embedding. */
  function JoinChunks(e: EmbeddingRow, chunks: seq<Chunk>, sim: real): (r: seq<VectorHit>)
    ensures forall h :: h in r ==> (h.chunkId == e.chunkId && h.docId == e.docId && h.vectorScore == sim
      && exists c :: c in chunks && c.id == e.chunkId && c.text == h.text)
  {
    if |chunks| == 0 then []
    else
      var c := chunks[0];
      var rest := JoinChunks(e, chunks[1..], sim);
      if c.id == e.chunkId then [VectorHit(e.chunkId, e.docId, c.text, c.metadata, sim)] + rest else rest
  }

  /** `_vector_search`: `ORDER BY distance LIMIT top_k`, that is, by
      descending similarity; a failing query yields no rows. */
  function VectorSearch(embs: seq<EmbeddingRow>, chunks: seq<Chunk>, qv: Vector, userId: string, topK: int,
                        dist: (Vector, Vector) -> Option<real>): seq<VectorHit>
  {
    match VectorCandidates(embs, chunks, userId, qv, dist)
    case None => []
    case Some(cands) => if topK < 0 then [] else Take(SortDesc(cands, SimilarityKey), topK)
  }

  lemma {:induction false} VectorCandidatesFrom(embs: seq<EmbeddingRow>, chunks: seq<Chunk>, userId: string, qv: Vector,
                                                dist: (Vector, Vector) -> Option<real>)
    ensures VectorCandidates(embs, chunks, userId, qv, dist).Some? ==>
      forall h :: h in VectorCandidates(embs, chunks, userId, qv, dist).value ==>
        exists e :: e in embs && e.userId == userId && e.chunkId == h.chunkId && dist(e.vector, qv) == Some(1.0 - h.vectorScore)
    decreases |embs|
  {
    if |embs| > 0 {
      VectorCandidatesFrom(embs[1..], chunks, userId, qv, dist);
      var e := embs[0];
      var rc := VectorCandidates(embs[1..], chunks, userId, qv, dist);
      if rc.Some? && e.userId == userId && dist(e.vector, qv).Some? {
        var d := dist(e.vector, qv).value;
        forall h | h in JoinChunks(e, chunks, 1.0 - d) + rc.value
          ensures exists e' :: e' in embs && e'.userId == userId && e'.chunkId == h.chunkId && dist(e'.vector, qv) == Some(1.0 - h.vectorScore)
        {
          if h in JoinChunks(e, chunks, 1.0 - d) {
            assert e in embs && dist(e.vector, qv) == Some(1.0 - h.vectorScore);
          } else {
            var e' :| e' in embs[1..] && e'.userId == userId && e'.chunkId == h.chunkId && dist(e'.vector, qv) == Some(1.0 - h.vectorScore);
            assert e' in embs;
          }
        }
      }
    }
  }

  /** Every vector result comes from an embedding of the user, its score is
      one minus the distance; there are at most `top_k`, most similar first;
      when the statement succeeds they are the `top_k` most similar
      candidates, and all of them when there are fewer. */
  lemma VectorSearchSound(embs: seq<EmbeddingRow>, chunks: seq<Chunk>, qv: Vector, userId: string, topK: int,
                          dist: (Vector, Vector) -> Option<real>)
    ensures var r := VectorSearch(embs, chunks, qv, userId, topK, dist);
      (topK >= 0 ==> |r| <= topK)
      && SortedDesc(r, SimilarityKey)
      && (forall h :: h in r ==>
            exists e :: e in embs && e.userId == userId && e.chunkId == h.chunkId
              && dist(e.vector, qv) == Some(1.0 - h.vectorScore))
    ensures var r := VectorSearch(embs, chunks, qv, userId, topK, dist);
      var vc := VectorCandidates(embs, chunks, userId, qv, dist);
      vc.Some? && topK >= 0 ==>
        multiset(r) <= multiset(vc.value)
        && (|r| < topK ==> multiset(r) == multiset(vc.value))
        && (forall x, y :: x in multiset(vc.value) - multiset(r) && y in r ==> SimilarityKey(x) <= SimilarityKey(y))
  {
    VectorCandidatesFrom(embs, chunks, userId, qv, dist);
    var vc := VectorCandidates(embs, chunks, userId, qv, dist);
    if vc.Some? && topK >= 0 {
      var t := SortDesc(vc.value, SimilarityKey);
      TopK(vc.value, SimilarityKey, topK);
      if |Take(t, topK)| < topK {
        assert Take(t, topK) == t;
      }
      forall h | h in Take(t, topK) ensures h in vc.value {
        assert h in t;
        assert h in multiset(t);
      }
    }
  }

  // ---------------------------------------------------------------------
  // The merge, declaratively

  function KwIds(kw: seq<KeywordHit>): (r: seq<string>)
    ensures |r| == |kw| && forall i :: 0 <= i < |kw| ==> r[i] == kw[i].chunkId
  {
    if |kw| == 0 then [] else KwIds(kw[..|kw| - 1]) + [kw[|kw| - 1].chunkId]
  }

  function VecIds(vec: seq<VectorHit>): (r: seq<string>)
    ensures |r| == |vec| && forall i :: 0 <= i < |vec| ==> r[i] == vec[i].chunkId
  {
    if |vec| == 0 then [] else VecIds(vec[..|vec| - 1]) + [vec[|vec| - 1].chunkId]
  }

  /** The distinct elements in order of first occurrence: the key order of a
      Python dictionary filled from `ids`. */
  function Dedup(ids: seq<string>): (r: seq<string>)
    ensures forall x :: x in r <==> x in ids
    ensures Distinct(r)
  {
    if |ids| == 0 then []
    else
      var d := Dedup(ids[..|ids| - 1]);
      assert forall x :: x in ids <==> x in ids[..|ids| - 1] || x == ids[|ids| - 1] by {
        assert ids == ids[..|ids| - 1] + [ids[|ids| - 1]];
      }
      if ids[|ids| - 1] in d then d else d + [ids[|ids| - 1]]
  }

  /** The last full-text row for a chunk id (later rows overwrite earlier ones). */
  function LastKw(kw: seq<KeywordHit>, id: string): (r: Option<KeywordHit>)
    ensures r.Some? <==> id in KwIds(kw)
    ensures r.Some? ==> r.value in kw && r.value.chunkId == id
  {
    if |kw| == 0 then None
    else if kw[|kw| - 1].chunkId == id then Some(kw[|kw| - 1])
    else
      var r := LastKw(kw[..|kw| - 1], id);
      assert KwIds(kw) == KwIds(kw[..|kw| - 1]) + [kw[|kw| - 1].chunkId];
      r
  }

  /** The last vector row for a chunk id: it sets the vector score. */
  function LastVec(vec: seq<VectorHit>, id: string): (r: Option<VectorHit>)
    ensures r.Some? <==> id in VecIds(vec)
    ensures r.Some? ==> r.value in vec && r.value.chunkId == id
  {
    if |vec| == 0 then None
    else if vec[|vec| - 1].chunkId == id then Some(vec[|vec| - 1])
    else
      var r := LastVec(vec[..|vec| - 1], id);
      assert VecIds(vec) == VecIds(vec[..|vec| - 1]) + [vec[|vec| - 1].chunkId];
      r
  }

  /** The first vector row for a chunk id: its fields are kept when the chunk
      had no full-text row. */
  function FirstVec(vec: seq<VectorHit>, id: string): (r: Option<VectorHit>)
    ensures r.Some? <==> id in VecIds(vec)
    ensures r.Some? ==> r.value in vec && r.value.chunkId == id
  {
    if |vec| == 0 then None
    else
      var r := FirstVec(vec[..|vec| - 1], id);
      assert VecIds(vec) == VecIds(vec[..|vec| - 1]) + [vec[|vec| - 1].chunkId];
      if r.Some? then r
      else if vec[|vec| - 1].chunkId == id then Some(vec[|vec| - 1])
      else None
  }

  /** The merge dictionary's entry for a chunk id, if any. */
  function RefMerged(kw: seq<KeywordHit>, vec: seq<VectorHit>, id: string): (r: Option<Merged>)
    ensures r.Some? <==> id in KwIds(kw) || id in VecIds(vec)
    ensures r.Some? ==> r.value.chunkId == id
  {
    match LastKw(kw, id)
    case Some(h) =>
      var vs := match LastVec(vec, id) case Some(v) => v.vectorScore case None => 0.0;
      Some(Merged(h.chunkId, h.docId, h.text, h.metadata, h.bm25Score, vs))
    case None =>
      match FirstVec(vec, id)
      case None => None
      case Some(v) => Some(Merged(v.chunkId, v.docId, v.text, v.metadata, 0.0, LastVec(vec, id).GetOr(v).vectorScore))
  }

  /** The combined score `w * bm25 + (1 - w) * vector`. */
  function Scored(m: Merged): Hit {
    Hit(m.chunkId, m.docId, m.text, m.metadata, m.bm25Score, m.vectorScore,
        BM25_WEIGHT * m.bm25Score + (1.0 - BM25_WEIGHT) * m.vectorScore)
  }

  /** The scored entry for a chunk id, as a list of zero or one. */
  function EntryFor(kw: seq<KeywordHit>, vec: seq<VectorHit>, id: string): seq<Hit> {
    var m := RefMerged(kw, vec, id);
    if m.Some? then [Scored(m.value)] else []
  }

  function Entries(kw: seq<KeywordHit>, vec: seq<VectorHit>, ids: seq<string>): seq<Hit> {
    if |ids| == 0 then []
    else Entries(kw, vec, ids[..|ids| - 1]) + EntryFor(kw, vec, ids[|ids| - 1])
  }

  function Unscored(h: Hit): Merged {
    Merged(h.chunkId, h.docId, h.text, h.metadata, h.bm25Score, h.vectorScore)
  }

  function ChunkIdOf(h: Hit): string { h.chunkId }

  /** `merged.values()` after scoring, in the dictionary's order. */
  function Combined(kw: seq<KeywordHit>, vec: seq<VectorHit>): seq<Hit> {
    Entries(kw, vec, Dedup(KwIds(kw) + VecIds(vec)))
  }

  /** `sorted(merged.values(), key=score, reverse=True)[:top_k]`. */
  function RankedMerge(kw: seq<KeywordHit>, vec: seq<VectorHit>, topK: int): seq<Hit> {
    SliceTo(SortDesc(Combined(kw, vec), ScoreKey), topK)
  }

  function HitIds(hs: seq<Hit>): (r: seq<string>)
    ensures |r| == |hs| && forall i :: 0 <= i < |hs| ==> r[i] == hs[i].chunkId
  {
    if |hs| == 0 then [] else HitIds(hs[..|hs| - 1]) + [hs[|hs| - 1].chunkId]
  }

  lemma {:induction false} EntriesIds(kw: seq<KeywordHit>, vec: seq<VectorHit>, ids: seq<string>)
    requires forall x :: x in ids ==> x in KwIds(kw) + VecIds(vec)
    ensures HitIds(Entries(kw, vec, ids)) == ids
    decreases |ids|
  {
    if |ids| > 0 {
      var id := ids[|ids| - 1];
      var pre := ids[..|ids| - 1];
      assert ids == pre + [id];
      assert id in ids;
      EntriesIds(kw, vec, pre);
      var m := RefMerged(kw, vec, id);
      var es := Entries(kw, vec, pre);
      var e := Scored(m.value);
      assert EntryFor(kw, vec, id) == [e];
      assert Entries(kw, vec, ids) == es + [e];
      assert (es + [e])[..|es|] == es;
    }
  }

  lemma {:induction false} EntriesValues(kw: seq<KeywordHit>, vec: seq<VectorHit>, ids: seq<string>)
    ensures forall h :: h in Entries(kw, vec, ids) ==>
      (RefMerged(kw, vec, h.chunkId) == Some(Unscored(h)) && h == Scored(Unscored(h)))
    decreases |ids|
  {
    if |ids| > 0 {
      EntriesValues(kw, vec, ids[..|ids| - 1]);
    }
  }

  /** The merged list holds exactly one entry per chunk id returned by
      either query, in order of first appearance (full-text rows first), and
      every entry carries the last full-text score and the last vector score
      for its chunk (0.0 when that query did not return it), the fields of
      its last full-text row or else of its first vector row, and the
      weighted sum of the two scores. */
  lemma CombinedSpec(kw: seq<KeywordHit>, vec: seq<VectorHit>)
    ensures HitIds(Combined(kw, vec)) == Dedup(KwIds(kw) + VecIds(vec))
    ensures Distinct(HitIds(Combined(kw, vec)))
    ensures forall id :: id in HitIds(Combined(kw, vec)) <==> id in KwIds(kw) || id in VecIds(vec)
    ensures forall h :: h in Combined(kw, vec) ==>
      h.score == BM25_WEIGHT * h.bm25Score + (1.0 - BM25_WEIGHT) * h.vectorScore
      && h.bm25Score == (if h.chunkId in KwIds(kw) then LastKw(kw, h.chunkId).value.bm25Score else 0.0)
      && h.vectorScore == (if h.chunkId in VecIds(vec) then LastVec(vec, h.chunkId).value.vectorScore else 0.0)
      && (h.chunkId in KwIds(kw) ==> h.docId == LastKw(kw, h.chunkId).value.docId && h.text == LastKw(kw, h.chunkId).value.text)
      && (h.chunkId !in KwIds(kw) ==> h.docId == FirstVec(vec, h.chunkId).value.docId && h.text == FirstVec(vec, h.chunkId).value.text)
      && (h.chunkId in KwIds(kw) ==> h.metadata == LastKw(kw, h.chunkId).value.metadata)
      && (h.chunkId !in KwIds(kw) ==> h.metadata == FirstVec(vec, h.chunkId).value.metadata)
  {
    var ids := Dedup(KwIds(kw) + VecIds(vec));
    EntriesIds(kw, vec, ids);
    EntriesValues(kw, vec, ids);
  }

  /** The ranked merge: at most `top_k` entries (all of them when there are
      fewer), one per chunk, best combined score first, drawn from the
      merged list, and no merged entry left out scores above one kept. */
  lemma RankedMergeSpec(kw: seq<KeywordHit>, vec: seq<VectorHit>, topK: nat)
    ensures var r := RankedMerge(kw, vec, topK);
      |r| == Min(topK, |Dedup(KwIds(kw) + VecIds(vec))|)
      && SortedDesc(r, ScoreKey)
      && Distinct(HitIds(r))
      && multiset(r) <= multiset(Combined(kw, vec))
      && (forall x, y :: x in multiset(Combined(kw, vec)) - multiset(r) && y in r ==> x.score <= y.score)
  {
    CombinedSpec(kw, vec);
    var c := Combined(kw, vec);
    var t := SortDesc(c, ScoreKey);
    TopK(c, ScoreKey, topK);
    HitIdsDistinct(c);
    SortDistinct(c, ScoreKey, ChunkIdOf);
    PrefixKeeps(Take(t, topK), t, ScoreKey, ChunkIdOf);
    HitIdsDistinct(Take(t, topK));
  }

  lemma HitIdsDistinct(hs: seq<Hit>)
    ensures Distinct(HitIds(hs)) <==> DistinctBy(hs, ChunkIdOf)
  {
  }

  // ---------------------------------------------------------------------
  // The merge as the source computes it

  function Lookup(m: map<string, Merged>, id: string): Option<Merged> {
    if id in m then Some(m[id]) else None
  }

  lemma KwStep(kw: seq<KeywordHit>, i: nat, x: string)
    requires i < |kw|
    ensures LastKw(kw[..i + 1], x) == if x == kw[i].chunkId then Some(kw[i]) else LastKw(kw[..i], x)
    ensures KwIds(kw[..i + 1]) == KwIds(kw[..i]) + [kw[i].chunkId]
  {
    assert kw[..i + 1][..i] == kw[..i];
  }

  lemma VecStep(vec: seq<VectorHit>, j: nat, x: string)
    requires j < |vec|
    ensures LastVec(vec[..j + 1], x) == if x == vec[j].chunkId then Some(vec[j]) else LastVec(vec[..j], x)
    ensures FirstVec(vec[..j + 1], x) == if FirstVec(vec[..j], x).None? && x == vec[j].chunkId then Some(vec[j]) else FirstVec(vec[..j], x)
    ensures VecIds(vec[..j + 1]) == VecIds(vec[..j]) + [vec[j].chunkId]
  {
    assert vec[..j + 1][..j] == vec[..j];
  }

  lemma DedupStep(ids: seq<string>, x: string)
    ensures Dedup(ids + [x]) == if x in ids then Dedup(ids) else Dedup(ids) + [x]
  {
    assert (ids + [x])[..|ids|] == ids;
  }

  lemma EntriesStep(kw: seq<KeywordHit>, vec: seq<VectorHit>, ids: seq<string>, k: nat)
    requires k < |ids|
    ensures Entries(kw, vec, ids[..k + 1]) == Entries(kw, vec, ids[..k]) + EntryFor(kw, vec, ids[k])
  {
    assert ids[..k + 1][..k] == ids[..k];
  }

  /** The merge dictionary and its key order agree with the reference after
      reading the rows `kw` and `vec`. */
  ghost predicate Filled(merged: map<string, Merged>, order: seq<string>, kw: seq<KeywordHit>, vec: seq<VectorHit>) {
    (forall x :: Lookup(merged, x) == RefMerged(kw, vec, x))
    && order == Dedup(KwIds(kw) + VecIds(vec))
  }

  lemma KwFillStep(kw: seq<KeywordHit>, i: nat, merged: map<string, Merged>, order: seq<string>)
    requires i < |kw| && Filled(merged, order, kw[..i], [])
    ensures var h := kw[i];
      Filled(merged[h.chunkId := Merged(h.chunkId, h.docId, h.text, h.metadata, h.bm25Score, 0.0)],
             if h.chunkId in merged then order else order + [h.chunkId], kw[..i + 1], [])
  {
    var h := kw[i];
    var m := merged[h.chunkId := Merged(h.chunkId, h.docId, h.text, h.metadata, h.bm25Score, 0.0)];
    assert LastVec([], h.chunkId) == None;
    forall x ensures Lookup(m, x) == RefMerged(kw[..i + 1], [], x) {
      KwStep(kw, i, x);
      if x != h.chunkId {
        assert Lookup(m, x) == Lookup(merged, x);
      }
    }
    KwStep(kw, i, h.chunkId);
    assert VecIds([]) == [];
    assert KwIds(kw[..i + 1]) + VecIds([]) == KwIds(kw[..i]) + [h.chunkId];
    assert KwIds(kw[..i]) + VecIds([]) == KwIds(kw[..i]);
    DedupStep(KwIds(kw[..i]), h.chunkId);
    assert Lookup(merged, h.chunkId) == RefMerged(kw[..i], [], h.chunkId);
  }

  lemma VecFillStep(kw: seq<KeywordHit>, vec: seq<VectorHit>, j: nat, merged: map<string, Merged>, order: seq<string>)
    requires j < |vec| && Filled(merged, order, kw, vec[..j])
    ensures var v := vec[j];
      Filled(if v.chunkId in merged then merged[v.chunkId := merged[v.chunkId].(vectorScore := v.vectorScore)]
             else merged[v.chunkId := Merged(v.chunkId, v.docId, v.text, v.metadata, 0.0, v.vectorScore)],
             if v.chunkId in merged then order else order + [v.chunkId], kw, vec[..j + 1])
  {
    var v := vec[j];
    var m := if v.chunkId in merged then merged[v.chunkId := merged[v.chunkId].(vectorScore := v.vectorScore)]
             else merged[v.chunkId := Merged(v.chunkId, v.docId, v.text, v.metadata, 0.0, v.vectorScore)];
    forall x ensures Lookup(m, x) == RefMerged(kw, vec[..j + 1], x) {
      VecStep(vec, j, x);
      assert Lookup(merged, x) == RefMerged(kw, vec[..j], x);
      if x != v.chunkId {
        assert Lookup(m, x) == Lookup(merged, x);
      }
    }
    VecStep(vec, j, v.chunkId);
    assert KwIds(kw) + VecIds(vec[..j + 1]) == (KwIds(kw) + VecIds(vec[..j])) + [v.chunkId];
    DedupStep(KwIds(kw) + VecIds(vec[..j]), v.chunkId);
    assert Lookup(merged, v.chunkId) == RefMerged(kw, vec[..j], v.chunkId);
  }

  /** `_merge_results`: a dictionary keyed by chunk id is filled from the
      full-text rows, then updated or extended from the vector rows; every
      entry gets its combined score; the entries are sorted by it, best
      first, and the first `top_k` returned. */
  method MergeResults(kw: seq<KeywordHit>, vec: seq<VectorHit>, topK: int) returns (r: seq<Hit>)
    ensures r == RankedMerge(kw, vec, topK)
  {
    var merged: map<string, Merged> := map[];
    var order: seq<string> := [];
    assert KwIds(kw[..0]) + VecIds([]) == [];
    var i := 0;
    while i < |kw|
      invariant 0 <= i <= |kw|
      invariant Filled(merged, order, kw[..i], [])
    {
      var h := kw[i];
      KwFillStep(kw, i, merged, order);
      if h.chunkId !in merged {
        order := order + [h.chunkId];
      }
      merged := merged[h.chunkId := Merged(h.chunkId, h.docId, h.text, h.metadata, h.bm25Score, 0.0)];
      i := i + 1;
    }
    assert kw[..i] == kw && vec[..0] == [];
    var j := 0;
    while j < |vec|
      invariant 0 <= j <= |vec|
      invariant Filled(merged, order, kw, vec[..j])
    {
      var v := vec[j];
      VecFillStep(kw, vec, j, merged, order);
      if v.chunkId in merged {
        merged := merged[v.chunkId := merged[v.chunkId].(vectorScore := v.vectorScore)];
      } else {
        order := order + [v.chunkId];
        merged := merged[v.chunkId := Merged(v.chunkId, v.docId, v.text, v.metadata, 0.0, v.vectorScore)];
      }
      j := j + 1;
    }
    assert vec[..j] == vec;
    var ranked: seq<Hit> := [];
    var k := 0;
    while k < |order|
      invariant 0 <= k <= |order|
      invariant ranked == Entries(kw, vec, order[..k])
    {
      var id := order[k];
      assert id in order;
      assert Lookup(merged, id) == RefMerged(kw, vec, id);
      EntriesStep(kw, vec, order, k);
      ranked := ranked + [Scored(merged[id])];
      k := k + 1;
    }
    assert order[..k] == order;
    r := SliceTo(SortDesc(ranked, ScoreKey), topK);
  }

  // ---------------------------------------------------------------------
  // The search

  /** `search`: embeds the query (a failure, or a reply without vectors,
      raises), runs both queries with `top_k` (default 50), merges them and
      returns the first ten of the merged ranking. Both statements run in the
      request's one transaction, and the full-text one swallows its error
      without a rollback, so once it has failed PostgreSQL refuses the vector
      statement too and that query also yields no rows. */
  method HybridSearch(query: string, userId: string, topK: Option<int>,
                      chunks: seq<Chunk>, embs: seq<EmbeddingRow>,
                      post: seq<string> -> Reply<EmbedBody>,
                      parses: string -> bool, rank: (string, string) -> Option<real>,
                      dist: (Vector, Vector) -> Option<real>)
    returns (r: Result<seq<Hit>, string>)
    ensures r == SearchSpec(query, userId, topK, chunks, embs, post, parses, rank, dist)
  {
    var k := topK.GetOr(RETRIEVAL_TOP_K);
    var embedded, _ := EmbedTexts([query], post);
    if embedded.Err? {
      return Err(embedded.error);
    }
    if |embedded.value| == 0 {
      return Err("list index out of range");
    }
    var qv := embedded.value[0];
    var kw := KeywordSearch(chunks, query, userId, k, parses, rank);
    var vec := if KeywordFails(query, k, parses) then [] else VectorSearch(embs, chunks, qv, userId, k, dist);
    var merged := MergeResults(kw, vec, k);
    r := Ok(Take(merged, RERANK_TOP_K));
  }

  function SearchSpec(query: string, userId: string, topK: Option<int>,
                      chunks: seq<Chunk>, embs: seq<EmbeddingRow>,
                      post: seq<string> -> Reply<EmbedBody>,
                      parses: string -> bool, rank: (string, string) -> Option<real>,
                      dist: (Vector, Vector) -> Option<real>): Result<seq<Hit>, string>
  {
    var k := topK.GetOr(RETRIEVAL_TOP_K);
    match EmbedAll(Batches([query]), post)
    case Err(e) => Err(e)
    case Ok(vs) =>
      if |vs| == 0 then Err("list index out of range")
      else
        var kw := KeywordSearch(chunks, query, userId, k, parses, rank);
        var vec := if KeywordFails(query, k, parses) then [] else VectorSearch(embs, chunks, vs[0], userId, k, dist);
        Ok(Take(RankedMerge(kw, vec, k), RERANK_TOP_K))
  }

  /** Every entry of the ranked merge is for a chunk id one of the two
      queries returned. */
  lemma RankedMergeFrom(kw: seq<KeywordHit>, vec: seq<VectorHit>, topK: int)
    ensures forall h :: h in RankedMerge(kw, vec, topK) ==> h.chunkId in KwIds(kw) || h.chunkId in VecIds(vec)
  {
    CombinedSpec(kw, vec);
    var c := Combined(kw, vec);
    var t := SortDesc(c, ScoreKey);
    forall h | h in RankedMerge(kw, vec, topK) ensures h.chunkId in KwIds(kw) || h.chunkId in VecIds(vec) {
      assert h in t;
      assert h in multiset(t);
      assert h in c;
      var i :| 0 <= i < |c| && c[i] == h;
      assert HitIds(c)[i] == h.chunkId;
    }
  }

  lemma SingleBatch(query: string)
    ensures Batches([query]) == [[query]]
  {
    assert [query][1..] == [] && [query][..1] == [query];
  }

  /** The ranked merge is ordered by score and holds each chunk once,
      whatever the sign of `top_k`: it is a prefix of the sorted merge. */
  lemma MergeOrdered(kw: seq<KeywordHit>, vec: seq<VectorHit>, k: int)
    ensures SortedDesc(RankedMerge(kw, vec, k), ScoreKey) && DistinctBy(RankedMerge(kw, vec, k), ChunkIdOf)
  {
    var c := Combined(kw, vec);
    var t := SortDesc(c, ScoreKey);
    CombinedDistinct(kw, vec);
    HitIdsDistinct(c);
    SortDistinct(c, ScoreKey, ChunkIdOf);
    PrefixKeeps(RankedMerge(kw, vec, k), t, ScoreKey, ChunkIdOf);
  }

  lemma CombinedDistinct(kw: seq<KeywordHit>, vec: seq<VectorHit>)
    ensures Distinct(HitIds(Combined(kw, vec)))
  {
    CombinedSpec(kw, vec);
  }

  lemma MergeOfNothing(k: int)
    ensures RankedMerge([], [], k) == []
  {
    assert KwIds([]) + VecIds([]) == [];
    CombinedSpec([], []);
  }

  /** The first ten of the ranked merge. */
  lemma TopTen(kw: seq<KeywordHit>, vec: seq<VectorHit>, k: int)
    ensures var r := Take(RankedMerge(kw, vec, k), RERANK_TOP_K);
      |r| <= RERANK_TOP_K
      && SortedDesc(r, ScoreKey)
      && Distinct(HitIds(r))
      && (forall h :: h in r ==> h.chunkId in KwIds(kw) || h.chunkId in VecIds(vec))
      && (kw == [] && vec == [] ==> r == [])
  {
    var m := RankedMerge(kw, vec, k);
    RankedMergeFrom(kw, vec, k);
    MergeOrdered(kw, vec, k);
    PrefixKeeps(Take(m, RERANK_TOP_K), m, ScoreKey, ChunkIdOf);
    HitIdsDistinct(Take(m, RERANK_TOP_K));
    if kw == [] && vec == [] {
      MergeOfNothing(k);
    }
  }

  /** A search returns at most ten results, one per chunk, best combined
      score first, each a chunk the user's full-text or vector query
      returned; a negative `top_k`, or a query text `to_tsquery` rejects,
      makes both queries fail and the result empty. */
  lemma SearchSpecProps(query: string, userId: string, topK: Option<int>,
                        chunks: seq<Chunk>, embs: seq<EmbeddingRow>,
                        post: seq<string> -> Reply<EmbedBody>,
                        parses: string -> bool, rank: (string, string) -> Option<real>,
                        dist: (Vector, Vector) -> Option<real>)
    ensures var r := SearchSpec(query, userId, topK, chunks, embs, post, parses, rank, dist);
      r.Ok? ==>
        |r.value| <= RERANK_TOP_K
        && SortedDesc(r.value, ScoreKey)
        && Distinct(HitIds(r.value))
        && (forall h :: h in r.value ==>
              (exists c :: c in chunks && c.id == h.chunkId && c.userId == userId)
              || (exists e :: e in embs && e.chunkId == h.chunkId && e.userId == userId))
        && (topK.Some? && topK.value < 0 ==> r.value == [])
        && (!parses(KeywordQuery(query)) ==> r.value == [])
  {
    var k := topK.GetOr(RETRIEVAL_TOP_K);
    var r := SearchSpec(query, userId, topK, chunks, embs, post, parses, rank, dist);
    if r.Ok? {
      var vs := EmbedAll(Batches([query]), post).value;
      var kw := KeywordSearch(chunks, query, userId, k, parses, rank);
      var vec := if KeywordFails(query, k, parses) then [] else VectorSearch(embs, chunks, vs[0], userId, k, dist);
      KeywordSearchSound(chunks, query, userId, k, parses, rank);
      VectorSearchSound(embs, chunks, vs[0], userId, k, dist);
      assert KeywordFails(query, k, parses) ==> kw == [] && vec == [];
      MergedProps(kw, vec, k, chunks, embs, userId);
      if KeywordFails(query, k, parses) {
        MergeOfNothing(k);
      }
    }
  }

  /** The properties of the reply, given what the two queries return. */
  lemma MergedProps(kw: seq<KeywordHit>, vec: seq<VectorHit>, k: int, chunks: seq<Chunk>, embs: seq<EmbeddingRow>,
                    userId: string)
    requires forall h :: h in kw ==> exists c :: c in chunks && c.id == h.chunkId && c.userId == userId
    requires forall h :: h in vec ==> exists e :: e in embs && e.userId == userId && e.chunkId == h.chunkId
    requires k < 0 ==> kw == [] && vec == []
    ensures var r := Take(RankedMerge(kw, vec, k), RERANK_TOP_K);
      |r| <= RERANK_TOP_K
      && SortedDesc(r, ScoreKey)
      && Distinct(HitIds(r))
      && (forall h :: h in r ==>
            (exists c :: c in chunks && c.id == h.chunkId && c.userId == userId)
            || (exists e :: e in embs && e.chunkId == h.chunkId && e.userId == userId))
      && (k < 0 ==> r == [])
  {
    TopTen(kw, vec, k);
    HitsFromQueries(kw, vec, chunks, embs, userId, Take(RankedMerge(kw, vec, k), RERANK_TOP_K));
  }

  /** Hits whose ids come from the two queries belong to the user's chunks
      or embeddings. */
  lemma HitsFromQueries(kw: seq<KeywordHit>, vec: seq<VectorHit>, chunks: seq<Chunk>, embs: seq<EmbeddingRow>,
                        userId: string, hits: seq<Hit>)
    requires forall h :: h in kw ==> exists c :: c in chunks && c.id == h.chunkId && c.userId == userId
    requires forall h :: h in vec ==> exists e :: e in embs && e.userId == userId && e.chunkId == h.chunkId
    requires forall h :: h in hits ==> h.chunkId in KwIds(kw) || h.chunkId in VecIds(vec)
    ensures forall h :: h in hits ==>
      (exists c :: c in chunks && c.id == h.chunkId && c.userId == userId)
      || (exists e :: e in embs && e.chunkId == h.chunkId && e.userId == userId)
  {
    forall h | h in hits
      ensures (exists c :: c in chunks && c.id == h.chunkId && c.userId == userId)
              || (exists e :: e in embs && e.chunkId == h.chunkId && e.userId == userId)
    {
      if h.chunkId in KwIds(kw) {
        var a :| 0 <= a < |kw| && KwIds(kw)[a] == h.chunkId;
        assert kw[a] in kw;
      } else {
        var b :| 0 <= b < |vec| && VecIds(vec)[b] == h.chunkId;
        assert vec[b] in vec;
      }
    }
  }
}
