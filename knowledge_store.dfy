/** The knowledge schema as both services use it (services/knowledge/main.py
    and services/api/routers/admin.py): the document, chunk and embedding
    tables, held as sequences in insertion order, and the object store the
    knowledge service writes raw files and cleaned text to. */
module KnowledgeStore {
  import opened Common
  import opened KnowledgeModels
  import opened Sorting

  type Bytes = seq<bv8>

  /** What an object holds: the uploaded bytes, or the UTF-8 encoding of a text. */
  datatype Body = RawBytes(bytes: Bytes) | Utf8Text(text: string)

  datatype StoredObject = StoredObject(contentType: string, body: Body)

  function DocIds(docs: seq<Document>): (r: seq<string>)
    ensures |r| == |docs| && forall i :: 0 <= i < |docs| ==> r[i] == docs[i].id
  {
    if |docs| == 0 then [] else DocIds(docs[..|docs| - 1]) + [docs[|docs| - 1].id]
  }

  function ChunkIds(chunks: seq<Chunk>): (r: seq<string>)
    ensures |r| == |chunks| && forall i :: 0 <= i < |chunks| ==> r[i] == chunks[i].id
  {
    if |chunks| == 0 then [] else ChunkIds(chunks[..|chunks| - 1]) + [chunks[|chunks| - 1].id]
  }

  function EmbeddingIds(embs: seq<EmbeddingRow>): (r: seq<string>)
    ensures |r| == |embs| && forall i :: 0 <= i < |embs| ==> r[i] == embs[i].id
  {
    if |embs| == 0 then [] else EmbeddingIds(embs[..|embs| - 1]) + [embs[|embs| - 1].id]
  }

  function EmbeddedChunkIds(embs: seq<EmbeddingRow>): (r: seq<string>)
    ensures |r| == |embs| && forall i :: 0 <= i < |embs| ==> r[i] == embs[i].chunkId
  {
    if |embs| == 0 then [] else EmbeddedChunkIds(embs[..|embs| - 1]) + [embs[|embs| - 1].chunkId]
  }

  /** New key values that violate no uniqueness constraint: distinct among
      themselves and absent from the table. */
  predicate FreshKeys(keys: seq<string>, existing: seq<string>) {
    Distinct(keys) && forall i :: 0 <= i < |keys| ==> keys[i] !in existing
  }

  /** Appending fresh keys keeps a key column free of duplicates. */
  lemma DistinctAppend(a: seq<string>, b: seq<string>)
    requires Distinct(a) && FreshKeys(b, a)
    ensures Distinct(a + b)
  {
    var c := a + b;
    forall i, j | 0 <= i < j < |c| ensures c[i] != c[j] {
      if j >= |a| && i < |a| {
        assert c[j] == b[j - |a|];
        assert c[i] in a;
      }
    }
  }

  /** `Document.id == doc_id and Document.user_id == user_id`, first match. */
  function FindOwned(docs: seq<Document>, docId: string, userId: string): (r: Option<Document>)
    ensures r.Some? <==> exists i :: 0 <= i < |docs| && docs[i].id == docId && docs[i].userId == userId
    ensures r.Some? ==> r.value in docs && r.value.id == docId && r.value.userId == userId
  {
    if |docs| == 0 then None
    else if docs[0].id == docId && docs[0].userId == userId then Some(docs[0])
    else
      var r := FindOwned(docs[1..], docId, userId);
      assert forall i :: 1 <= i < |docs| ==> docs[i] == docs[1..][i - 1];
      r
  }

  /** With unique ids, the match is the one document with that id. */
  lemma FindOwnedUnique(docs: seq<Document>, docId: string, userId: string, k: nat)
    requires Distinct(DocIds(docs))
    requires k < |docs| && docs[k].id == docId && docs[k].userId == userId
    ensures FindOwned(docs, docId, userId) == Some(docs[k])
  {
    var r := FindOwned(docs, docId, userId);
    var i :| 0 <= i < |docs| && docs[i] == r.value;
    assert DocIds(docs)[i] == DocIds(docs)[k];
  }

  /** The rows of `chunks` belonging to document `docId`. */
  function ChunksOf(chunks: seq<Chunk>, docId: string): (r: seq<Chunk>)
    ensures forall c :: c in r <==> c in chunks && c.docId == docId
    ensures r == [] <==> forall c :: c in chunks ==> c.docId != docId
    ensures |r| <= |chunks|
  {
    if |chunks| == 0 then []
    else
      var last := chunks[|chunks| - 1];
      var front := chunks[..|chunks| - 1];
      assert chunks == front + [last];
      ChunksOf(front, docId) + (if last.docId == docId then [last] else [])
  }

  /** `count(Chunk.id)` over the outer join for one document. */
  function ChunkCount(chunks: seq<Chunk>, docId: string): nat {
    |ChunksOf(chunks, docId)|
  }

  /** `Document.user_id == user_id`, in table order. */
  function OwnedBy(docs: seq<Document>, userId: string): (r: seq<Document>)
    ensures forall d :: d in r <==> d in docs && d.userId == userId
    ensures |r| <= |docs|
  {
    if |docs| == 0 then []
    else
      var last := docs[|docs| - 1];
      var front := docs[..|docs| - 1];
      assert docs == front + [last];
      OwnedBy(front, userId) + (if last.userId == userId then [last] else [])
  }

  /** The sort key of `order_by(Document.created_at.desc())`. */
  function CreatedKey(d: Document): real { d.createdAt as real }

  /** `order_by(Document.created_at.desc()).limit(limit).offset(offset)`
      over the selected documents. */
  function Listing(selected: seq<Document>, offset: nat, limit: nat): seq<Document> {
    Page(SortDesc(selected, CreatedKey), offset, limit)
  }

  /** A listing shows at most `limit` of the selected documents, newest
      first, and the ones skipped by the offset are not older than those
      shown. */
  lemma ListingProps(selected: seq<Document>, offset: nat, limit: nat)
    ensures |Listing(selected, offset, limit)| <= limit
    ensures forall d :: d in Listing(selected, offset, limit) ==> d in selected
    ensures forall i, j :: 0 <= i < j < |Listing(selected, offset, limit)| ==>
      Listing(selected, offset, limit)[i].createdAt >= Listing(selected, offset, limit)[j].createdAt
    ensures offset < |selected| && limit > 0 ==> Listing(selected, offset, limit) != []
    ensures forall k, j :: 0 <= k < offset && k < |SortDesc(selected, CreatedKey)| && 0 <= j < |Listing(selected, offset, limit)| ==>
      SortDesc(selected, CreatedKey)[k].createdAt >= Listing(selected, offset, limit)[j].createdAt
  {
    var t := SortDesc(selected, CreatedKey);
    var r := Listing(selected, offset, limit);
    forall d | d in r ensures d in selected {
      var i :| 0 <= i < |r| && r[i] == d;
      assert t[offset + i] == d;
      assert d in multiset(t);
    }
    forall i, j | 0 <= i < j < |r| ensures r[i].createdAt >= r[j].createdAt {
      assert r[i] == t[offset + i] && r[j] == t[offset + j];
      assert CreatedKey(t[offset + i]) >= CreatedKey(t[offset + j]);
    }
    forall k, j | 0 <= k < offset && k < |t| && 0 <= j < |r| ensures t[k].createdAt >= r[j].createdAt {
      assert r[j] == t[offset + j];
      assert CreatedKey(t[k]) >= CreatedKey(t[offset + j]);
    }
  }

  /** One entry of a document listing. */
  datatype DocSummary = DocSummary(id: string, filename: string, contentType: string, status: string,
                                   createdAt: int, chunkCount: nat)

  function Summary(d: Document, chunks: seq<Chunk>): DocSummary {
    DocSummary(d.id, d.filename, d.contentType, d.status, d.createdAt, ChunkCount(chunks, d.id))
  }

  function SummariesOf(rows: seq<Document>, chunks: seq<Chunk>): seq<DocSummary> {
    seq(|rows|, i requires 0 <= i < |rows| => Summary(rows[i], chunks))
  }

  /** The loop over `(doc, chunk_count)` rows that builds a listing. */
  method Summarize(rows: seq<Document>, chunks: seq<Chunk>) returns (r: seq<DocSummary>)
    ensures |r| == |rows|
    ensures forall i :: 0 <= i < |rows| ==>
      r[i].id == rows[i].id && r[i].status == rows[i].status && r[i].createdAt == rows[i].createdAt
      && r[i].chunkCount == |ChunksOf(chunks, rows[i].id)|
    ensures r == SummariesOf(rows, chunks)
  {
    r := [];
    var i := 0;
    while i < |rows|
      invariant 0 <= i <= |rows|
      invariant r == SummariesOf(rows[..i], chunks)
    {
      assert rows[..i + 1][..i] == rows[..i];
      r := r + [Summary(rows[i], chunks)];
      i := i + 1;
    }
    assert rows[..i] == rows;
  }

  /** The three knowledge tables. */
  class Database {
    var docs: seq<Document>
    var chunks: seq<Chunk>
    var embeddings: seq<EmbeddingRow>

    /** The declared constraints: primary keys on all three tables, and the
        unique `chunk_id` column of the embeddings. */
    ghost predicate Valid()
      reads this
    {
      Distinct(DocIds(docs)) && Distinct(ChunkIds(chunks))
      && Distinct(EmbeddingIds(embeddings)) && Distinct(EmbeddedChunkIds(embeddings))
    }

    constructor ()
      ensures docs == [] && chunks == [] && embeddings == []
      ensures Valid()
    {
      docs := [];
      chunks := [];
      embeddings := [];
    }
  }

  /** The S3 bucket: objects by key. */
  class ObjectStore {
    var objects: map<string, StoredObject>

    constructor ()
      ensures objects == map[]
    {
      objects := map[];
    }

    /** `put_object`; `failure` is the error the call raises, if any. */
    method Put(key: string, obj: StoredObject, failure: Option<string>) returns (r: Option<string>)
      modifies this
      ensures r == failure
      ensures failure.None? ==> objects == old(objects)[key := obj]
      ensures failure.Some? ==> objects == old(objects)
    {
      if failure.None? {
        objects := objects[key := obj];
      }
      r := failure;
    }
  }
}
