/** The admin router (services/api/routers/admin.py): knowledge management
    over the knowledge tables, open only to users whose `is_admin` column is
    exactly the string "true". Every document route works on the caller's
    own documents. */
module Admin {
  import opened Common
  import opened Sorting
  import opened KnowledgeModels
  import opened KnowledgeStore

  /** The fields of the `users` row the router reads. */
  datatype User = User(id: string, email: string, isAdmin: string)

  const ADMIN_REQUIRED := HttpError(FORBIDDEN, "Admin access required")
  const DOC_NOT_FOUND := HttpError(NOT_FOUND, "Document not found")
  const DELETED := "Document deleted successfully"
  const KNOWLEDGE_INGEST_URL := "http://knowledge-service:8081/ingest/url"

  /** `get_admin_user`: the caller passes only with `is_admin == "true"`. */
  function AdminGate(user: User): (r: Result<User, HttpError>)
    ensures r.Ok? <==> user.isAdmin == "true"
    ensures r.Ok? ==> r.value == user
    ensures r.Err? ==> r.error == ADMIN_REQUIRED
  {
    if user.isAdmin != "true" then Err(ADMIN_REQUIRED) else Ok(user)
  }

  /** Spellings that look like "true" are still refused. */
  lemma GateIsExact(user: User)
    requires user.isAdmin in ["True", "TRUE", "1", "yes", " true", ""]
    ensures AdminGate(user) == Err(ADMIN_REQUIRED)
  {
  }

  // ---------------------------------------------------------------------
  // Listing and lookup

  /** `DocumentListResponse`. */
  datatype DocumentList = DocumentList(documents: seq<DocSummary>, total: nat, limit: int, offset: int)

  /** `list_documents`: the admin's own documents, newest first, paged, with
      their chunk counts and the number of all their documents. A database
      error is reported as "Failed to list documents: " and its text. */
  method ListDocuments(db: Database, user: User, limit: int, offset: int) returns (r: Result<DocumentList, HttpError>)
    ensures user.isAdmin != "true" ==> r == Err(ADMIN_REQUIRED)
    ensures user.isAdmin == "true" && RowCountError(limit, offset).Some? ==>
      r == Err(HttpError(SERVER_ERROR, "Failed to list documents: " + RowCountError(limit, offset).value))
    ensures user.isAdmin == "true" && limit >= 0 && offset >= 0 ==>
      var own := OwnedBy(db.docs, user.id);
      r == Ok(DocumentList(SummariesOf(Listing(own, offset, limit), db.chunks), |own|, limit, offset))
  {
    var gate := AdminGate(user);
    if gate.Err? {
      return Err(gate.error);
    }
    var refused := RowCountError(limit, offset);
    if refused.Some? {
      return Err(HttpError(SERVER_ERROR, "Failed to list documents: " + refused.value));
    }
    var own := OwnedBy(db.docs, user.id);
    var rows := Listing(own, offset, limit);
    var documents := Summarize(rows, db.chunks);
    r := Ok(DocumentList(documents, |own|, limit, offset));
  }

  /** Every document the admin listing shows is the admin's own. */
  lemma ListedAreOwn(docs: seq<Document>, userId: string, offset: nat, limit: nat)
    ensures forall d :: d in Listing(OwnedBy(docs, userId), offset, limit) ==> d in docs && d.userId == userId
  {
    ListingProps(OwnedBy(docs, userId), offset, limit);
  }

  /** The reply of `get_document`. */
  datatype DocumentDetail = DocumentDetail(id: string, filename: string, contentType: string, status: string,
                                           rawPath: string, cleanPath: string, metadata: Metadata,
                                           createdAt: int, updatedAt: int)

  function Detail(d: Document): DocumentDetail {
    DocumentDetail(d.id, d.filename, d.contentType, d.status, d.rawPath, d.cleanPath, d.metadata, d.createdAt, d.updatedAt)
  }

  /** The ownership check every document route starts with: the gate, then
      404 unless a document has this id and this owner. */
  function OwnedDocument(docs: seq<Document>, user: User, docId: string): (r: Result<Document, HttpError>)
    ensures user.isAdmin != "true" ==> r == Err(ADMIN_REQUIRED)
    ensures user.isAdmin == "true" ==>
      (r.Ok? <==> exists i :: 0 <= i < |docs| && docs[i].id == docId && docs[i].userId == user.id)
    ensures user.isAdmin == "true" && r.Err? ==> r.error == DOC_NOT_FOUND
    ensures r.Ok? ==> r.value in docs && r.value.id == docId && r.value.userId == user.id
  {
    if AdminGate(user).Err? then Err(ADMIN_REQUIRED)
    else match FindOwned(docs, docId, user.id)
      case None => Err(DOC_NOT_FOUND)
      case Some(d) => Ok(d)
  }

  /** `get_document`: the details of the admin's own document. */
  function GetDocument(db: Database, user: User, docId: string): (r: Result<DocumentDetail, HttpError>)
    reads db
    ensures OwnedDocument(db.docs, user, docId).Err? ==> r == Err(OwnedDocument(db.docs, user, docId).error)
    ensures r.Ok? ==> exists d :: d in db.docs && d.id == docId && d.userId == user.id && r.value == Detail(d)
  {
    match OwnedDocument(db.docs, user, docId)
    case Err(e) => Err(e)
    case Ok(d) => Ok(Detail(d))
  }

  /** With unique ids the details are those of the one document with the id. */
  lemma GetDocumentUnique(db: Database, user: User, k: nat)
    requires db.Valid() && user.isAdmin == "true"
    requires k < |db.docs| && db.docs[k].userId == user.id
    ensures GetDocument(db, user, db.docs[k].id) == Ok(Detail(db.docs[k]))
  {
    FindOwnedUnique(db.docs, db.docs[k].id, user.id, k);
  }

  /** `ChunkResponse`. */
  datatype ChunkView = ChunkView(id: string, text: string, position: int, metadata: Metadata)

  /** The sort key of `order_by(Chunk.position)`, ascending. */
  function PositionKey(c: Chunk): real { -(c.position as real) }

  function Views(chunks: seq<Chunk>): (r: seq<ChunkView>)
    ensures |r| == |chunks|
    ensures forall i :: 0 <= i < |chunks| ==> r[i] == ChunkView(chunks[i].id, chunks[i].text, chunks[i].position, chunks[i].metadata)
  {
    if |chunks| == 0 then []
    else
      var c := chunks[|chunks| - 1];
      Views(chunks[..|chunks| - 1]) + [ChunkView(c.id, c.text, c.position, c.metadata)]
  }

  /** The response fields of one chunk. */
  function ViewOf(c: Chunk): ChunkView {
    ChunkView(c.id, c.text, c.position, c.metadata)
  }

  /** The chunks of one document in position order. */
  function OrderedChunks(chunks: seq<Chunk>, docId: string): seq<Chunk> {
    SortDesc(ChunksOf(chunks, docId), PositionKey)
  }

  /** `get_document_chunks`: the admin's own document's chunks, by position. */
  function GetDocumentChunks(db: Database, user: User, docId: string): (r: Result<seq<ChunkView>, HttpError>)
    reads db
    ensures OwnedDocument(db.docs, user, docId).Err? ==> r == Err(OwnedDocument(db.docs, user, docId).error)
    ensures OwnedDocument(db.docs, user, docId).Ok? ==> r == Ok(Views(OrderedChunks(db.chunks, docId)))
  {
    match OwnedDocument(db.docs, user, docId)
    case Err(e) => Err(e)
    case Ok(_) => Ok(Views(OrderedChunks(db.chunks, docId)))
  }

  /** The chunk listing holds every chunk of the document once each, ordered
      by position, with the stored fields. */
  lemma ChunkListingProps(chunks: seq<Chunk>, docId: string)
    ensures |Views(OrderedChunks(chunks, docId))| == ChunkCount(chunks, docId)
    ensures multiset(OrderedChunks(chunks, docId)) == multiset(ChunksOf(chunks, docId))
    ensures forall i :: 0 <= i < |OrderedChunks(chunks, docId)| ==>
      Views(OrderedChunks(chunks, docId))[i] == ViewOf(OrderedChunks(chunks, docId)[i])
    ensures forall i, j :: 0 <= i < j < |Views(OrderedChunks(chunks, docId))| ==>
      Views(OrderedChunks(chunks, docId))[i].position <= Views(OrderedChunks(chunks, docId))[j].position
    ensures forall v :: v in Views(OrderedChunks(chunks, docId)) ==>
      exists c :: c in chunks && c.docId == docId && v == ChunkView(c.id, c.text, c.position, c.metadata)
  {
    var t := OrderedChunks(chunks, docId);
    ChunkOrder(t);
    ChunkProvenance(t, chunks, docId);
  }

  /** Views of chunks sorted by `PositionKey` are in position order. */
  lemma ChunkOrder(t: seq<Chunk>)
    requires SortedDesc(t, PositionKey)
    ensures forall i, j :: 0 <= i < j < |Views(t)| ==> Views(t)[i].position <= Views(t)[j].position
  {
    var vs := Views(t);
    forall i, j | 0 <= i < j < |vs| ensures vs[i].position <= vs[j].position {
      assert PositionKey(t[i]) >= PositionKey(t[j]);
    }
  }

  /** Every view of a permutation of the document's chunks shows one of them. */
  lemma ChunkProvenance(t: seq<Chunk>, chunks: seq<Chunk>, docId: string)
    requires multiset(t) == multiset(ChunksOf(chunks, docId))
    ensures forall v :: v in Views(t) ==>
      exists c :: c in chunks && c.docId == docId && v == ChunkView(c.id, c.text, c.position, c.metadata)
  {
    var vs := Views(t);
    forall v | v in vs
      ensures exists c :: c in chunks && c.docId == docId && v == ChunkView(c.id, c.text, c.position, c.metadata)
    {
      var i :| 0 <= i < |vs| && vs[i] == v;
      var c := t[i];
      assert c in multiset(t);
      assert c in ChunksOf(chunks, docId);
      assert c in chunks && c.docId == docId && v == ChunkView(c.id, c.text, c.position, c.metadata);
    }
  }

  /** `reprocess_document`: nothing is changed yet; the reply says
      processing. */
  datatype ReprocessReply = ReprocessReply(message: string, docId: string, status: string)

  function ReprocessDocument(db: Database, user: User, docId: string): (r: Result<ReprocessReply, HttpError>)
    reads db
    ensures OwnedDocument(db.docs, user, docId).Err? ==> r == Err(OwnedDocument(db.docs, user, docId).error)
    ensures OwnedDocument(db.docs, user, docId).Ok? ==>
      r == Ok(ReprocessReply("Document reprocessing started", docId, "processing"))
  {
    match OwnedDocument(db.docs, user, docId)
    case Err(e) => Err(e)
    case Ok(_) => Ok(ReprocessReply("Document reprocessing started", docId, "processing"))
  }

  // ---------------------------------------------------------------------
  // Cascading delete

  /** The rows of `s` that `keep` accepts, in order. */
  function Filter<T(!new)>(s: seq<T>, keep: T -> bool): (r: seq<T>)
    ensures forall x :: x in r <==> x in s && keep(x)
    ensures |r| <= |s|
  {
    if |s| == 0 then []
    else
      var last := s[|s| - 1];
      var front := s[..|s| - 1];
      assert s == front + [last];
      Filter(front, keep) + (if keep(last) then [last] else [])
  }

  /** Filtering keeps a key column free of duplicates. */
  lemma {:induction false} FilterDistinct<T(!new), K>(s: seq<T>, keep: T -> bool, key: T -> K)
    requires DistinctBy(s, key)
    ensures DistinctBy(Filter(s, keep), key)
    decreases |s|
  {
    if |s| > 0 {
      var last := s[|s| - 1];
      var front := s[..|s| - 1];
      assert DistinctBy(front, key) by {
        forall i, j | 0 <= i < j < |front| ensures key(front[i]) != key(front[j]) {
          assert front[i] == s[i] && front[j] == s[j];
        }
      }
      FilterDistinct(front, keep, key);
      var f := Filter(front, keep);
      forall y | y in f ensures key(y) != key(last) {
        var i :| 0 <= i < |front| && front[i] == y;
        assert s[i] == y;
      }
      var r := f + (if keep(last) then [last] else []);
      forall i, j | 0 <= i < j < |r| ensures key(r[i]) != key(r[j]) {
        if j == |f| {
          assert r[i] in f;
        }
      }
    }
  }

  /** A filter that accepts every row changes nothing. */
  lemma {:induction false} FilterKeepsAll<T(!new)>(s: seq<T>, keep: T -> bool)
    requires forall i :: 0 <= i < |s| ==> keep(s[i])
    ensures Filter(s, keep) == s
    decreases |s|
  {
    if |s| > 0 {
      var front := s[..|s| - 1];
      var last := s[|s| - 1];
      assert s == front + [last];
      assert forall i :: 0 <= i < |front| ==> front[i] == s[i];
      FilterKeepsAll(front, keep);
      assert Filter(s, keep) == Filter(front, keep) + [last];
    }
  }

  function DocKey(d: Document): string { d.id }
  function ChunkKey(c: Chunk): string { c.id }
  function EmbeddingKey(e: EmbeddingRow): string { e.id }
  function EmbeddedChunk(e: EmbeddingRow): string { e.chunkId }

  /** The rows each of the three deletes spares. */
  function KeepDoc(docId: string): Document -> bool { (d: Document) => d.id != docId }
  function KeepChunk(docId: string): Chunk -> bool { (c: Chunk) => c.docId != docId }
  function KeepEmbedding(doomed: seq<string>): EmbeddingRow -> bool { (e: EmbeddingRow) => e.chunkId !in doomed }

  /** The three knowledge tables at one moment. */
  datatype Tables = Tables(docs: seq<Document>, chunks: seq<Chunk>, embeddings: seq<EmbeddingRow>)

  /** The declared key constraints, as `Database.Valid` states them. */
  ghost predicate TablesValid(t: Tables) {
    Distinct(DocIds(t.docs)) && Distinct(ChunkIds(t.chunks))
    && Distinct(EmbeddingIds(t.embeddings)) && Distinct(EmbeddedChunkIds(t.embeddings))
  }

  /** Every embedding points at a stored chunk. */
  ghost predicate EmbeddingsReferenceChunks(t: Tables) {
    forall e :: e in t.embeddings ==> e.chunkId in ChunkIds(t.chunks)
  }

  /** `delete_document` after the ownership check: the embeddings of the
      document's chunks, then its chunks, then the document go. Nothing
      else is removed and nothing is changed. */
  function CascadeDelete(t: Tables, docId: string): (r: Tables)
    ensures forall d :: d in r.docs <==> d in t.docs && d.id != docId
    ensures forall c :: c in r.chunks <==> c in t.chunks && c.docId != docId
    ensures forall e :: e in r.embeddings <==>
      e in t.embeddings && e.chunkId !in ChunkIds(ChunksOf(t.chunks, docId))
  {
    var doomed := ChunkIds(ChunksOf(t.chunks, docId));
    Tables(Filter(t.docs, KeepDoc(docId)),
           Filter(t.chunks, KeepChunk(docId)),
           Filter(t.embeddings, KeepEmbedding(doomed)))
  }

  lemma DocIdsDistinct(docs: seq<Document>)
    ensures Distinct(DocIds(docs)) <==> DistinctBy(docs, DocKey)
  {
    var ids := DocIds(docs);
    assert forall i :: 0 <= i < |docs| ==> ids[i] == DocKey(docs[i]);
  }

  lemma ChunkIdsDistinct(chunks: seq<Chunk>)
    ensures Distinct(ChunkIds(chunks)) <==> DistinctBy(chunks, ChunkKey)
  {
    var ids := ChunkIds(chunks);
    assert forall i :: 0 <= i < |chunks| ==> ids[i] == ChunkKey(chunks[i]);
  }

  lemma EmbeddingIdsDistinct(embs: seq<EmbeddingRow>)
    ensures Distinct(EmbeddingIds(embs)) <==> DistinctBy(embs, EmbeddingKey)
    ensures Distinct(EmbeddedChunkIds(embs)) <==> DistinctBy(embs, EmbeddedChunk)
  {
    var ids := EmbeddingIds(embs);
    var cids := EmbeddedChunkIds(embs);
    assert forall i :: 0 <= i < |embs| ==> ids[i] == EmbeddingKey(embs[i]);
    assert forall i :: 0 <= i < |embs| ==> cids[i] == EmbeddedChunk(embs[i]);
  }

  /** The delete keeps every key constraint. */
  lemma CascadeKeepsValid(t: Tables, docId: string)
    requires TablesValid(t)
    ensures TablesValid(CascadeDelete(t, docId))
  {
    var r := CascadeDelete(t, docId);
    var doomed := ChunkIds(ChunksOf(t.chunks, docId));
    DocIdsDistinct(t.docs);
    DocIdsDistinct(r.docs);
    FilterDistinct(t.docs, KeepDoc(docId), DocKey);
    ChunkIdsDistinct(t.chunks);
    ChunkIdsDistinct(r.chunks);
    FilterDistinct(t.chunks, KeepChunk(docId), ChunkKey);
    EmbeddingIdsDistinct(t.embeddings);
    EmbeddingIdsDistinct(r.embeddings);
    FilterDistinct(t.embeddings, KeepEmbedding(doomed), EmbeddingKey);
    FilterDistinct(t.embeddings, KeepEmbedding(doomed), EmbeddedChunk);
  }

  /** A chunk of the document is among the ids the delete dooms. */
  lemma DoomedChunk(chunks: seq<Chunk>, docId: string, c: Chunk)
    ensures c in chunks && c.docId == docId ==> c.id in ChunkIds(ChunksOf(chunks, docId))
  {
    var own := ChunksOf(chunks, docId);
    if c in chunks && c.docId == docId {
      var j :| 0 <= j < |own| && own[j] == c;
      assert ChunkIds(own)[j] == c.id;
    }
  }

  /** No embedding is left pointing at a deleted chunk. */
  lemma CascadeKeepsReferences(t: Tables, docId: string)
    requires EmbeddingsReferenceChunks(t)
    ensures EmbeddingsReferenceChunks(CascadeDelete(t, docId))
  {
    var r := CascadeDelete(t, docId);
    forall e | e in r.embeddings ensures e.chunkId in ChunkIds(r.chunks) {
      var ids := ChunkIds(t.chunks);
      var i :| 0 <= i < |ids| && ids[i] == e.chunkId;
      var c := t.chunks[i];
      DoomedChunk(t.chunks, docId, c);
      assert c in r.chunks;
      var k :| 0 <= k < |r.chunks| && r.chunks[k] == c;
      assert ChunkIds(r.chunks)[k] == e.chunkId;
    }
  }

  /** Deleting a document leaves none of its rows behind. */
  lemma CascadeRemovesAll(t: Tables, docId: string)
    ensures forall d :: d in CascadeDelete(t, docId).docs ==> d.id != docId
    ensures ChunksOf(CascadeDelete(t, docId).chunks, docId) == []
    ensures forall e :: e in CascadeDelete(t, docId).embeddings ==>
      forall c :: c in t.chunks && c.id == e.chunkId ==> c.docId != docId
  {
    var r := CascadeDelete(t, docId);
    forall e, c | e in r.embeddings && c in t.chunks && c.id == e.chunkId ensures c.docId != docId {
      DoomedChunk(t.chunks, docId, c);
    }
  }

  /** `delete_document`: 403 or 404 change nothing; otherwise the cascade,
      in one transaction. */
  method DeleteDocument(db: Database, user: User, docId: string) returns (r: Result<string, HttpError>)
    requires db.Valid()
    modifies db
    ensures db.Valid()
    ensures OwnedDocument(old(db.docs), user, docId).Err? ==>
      r == Err(OwnedDocument(old(db.docs), user, docId).error)
      && db.docs == old(db.docs) && db.chunks == old(db.chunks) && db.embeddings == old(db.embeddings)
    ensures OwnedDocument(old(db.docs), user, docId).Ok? ==>
      r == Ok(DELETED)
      && Tables(db.docs, db.chunks, db.embeddings) == CascadeDelete(Tables(old(db.docs), old(db.chunks), old(db.embeddings)), docId)
  {
    var found := OwnedDocument(db.docs, user, docId);
    if found.Err? {
      return Err(found.error);
    }
    var before := Tables(db.docs, db.chunks, db.embeddings);
    var doomed := ChunkIds(ChunksOf(db.chunks, docId));
    if doomed != [] {
      db.embeddings := Filter(db.embeddings, KeepEmbedding(doomed));
    } else {
      FilterKeepsAll(db.embeddings, KeepEmbedding(doomed));
    }
    db.chunks := Filter(db.chunks, KeepChunk(docId));
    db.docs := Filter(db.docs, KeepDoc(docId));
    CascadeKeepsValid(before, docId);
    r := Ok(DELETED);
  }

  /** `delete_document` after the ownership check, as written: the name
      `sql_delete` is bound only by the import inside `if chunk_ids:`, so for
      a document without chunks the chunk delete raises, the `except` rolls
      back and answers 500. `unbound` is the text of that error. */
  function DeleteAsWritten(t: Tables, docId: string, unbound: string): (r: Result<Tables, HttpError>)
    ensures r.Err? <==> ChunksOf(t.chunks, docId) == []
    ensures r.Err? ==> r.error == HttpError(SERVER_ERROR, "Failed to delete document: " + unbound)
    ensures r.Ok? ==> r.value == CascadeDelete(t, docId)
  {
    if ChunksOf(t.chunks, docId) == [] then Err(HttpError(SERVER_ERROR, "Failed to delete document: " + unbound))
    else Ok(CascadeDelete(t, docId))
  }

  /** A document without chunks (one whose text split into no pieces) is
      never deleted as written, though the cascade would remove it. */
  lemma ChunklessDeleteFails(d: Document, unbound: string)
    ensures DeleteAsWritten(Tables([d], [], []), d.id, unbound).Err?
    ensures d in Tables([d], [], []).docs && CascadeDelete(Tables([d], [], []), d.id).docs == []
  {
    var left := CascadeDelete(Tables([d], [], []), d.id).docs;
    assert |left| == 0;
  }

  // ---------------------------------------------------------------------
  // URL ingest

  /** The body the knowledge service's `/ingest/url` answers with: a JSON
      object and its `doc_id`, or a body `.json()` and `.get` fail on. */
  datatype IngestBody = Undecodable(reason: string) | IngestJson(docId: Option<string>)

  /** `{"url": ..., "content": ..., "content_type": ..., "user_id": ...}`. */
  datatype UrlIngestRequest = UrlIngestRequest(url: string, content: string, contentType: string, userId: string)

  datatype UrlIngestReply = UrlIngestReply(message: string, docId: Option<string>, status: string)

  /** `raise_for_status` lets only 2xx through. */
  predicate Success(status: nat) { 200 <= status < 300 }

  /** `ingest_url`: fetch the page, forward its text. Failures of the two
      HTTP calls (transport errors and non-2xx statuses) become 400 "Failed
      to fetch URL: ..."; a reply body that cannot be read becomes 500
      "Failed to ingest URL: ...". `statusError(status, url)` is the text of
      the error `raise_for_status` raises. */
  function IngestUrl(user: User, url: string, contentType: string,
                     fetch: string -> Reply<string>,
                     forward: UrlIngestRequest -> Reply<IngestBody>,
                     statusError: (nat, string) -> string): (r: Result<UrlIngestReply, HttpError>)
    ensures user.isAdmin != "true" ==> r == Err(ADMIN_REQUIRED)
    ensures user.isAdmin == "true" && fetch(url).TransportError? ==>
      r == Err(HttpError(BAD_REQUEST, "Failed to fetch URL: " + fetch(url).message))
    ensures user.isAdmin == "true" && fetch(url).Response? && !Success(fetch(url).status) ==>
      r == Err(HttpError(BAD_REQUEST, "Failed to fetch URL: " + statusError(fetch(url).status, url)))
    ensures user.isAdmin == "true" && fetch(url).Response? && Success(fetch(url).status) ==>
      var reply := forward(UrlIngestRequest(url, fetch(url).body, contentType, user.id));
      (reply.TransportError? ==> r == Err(HttpError(BAD_REQUEST, "Failed to fetch URL: " + reply.message)))
      && (reply.Response? && !Success(reply.status) ==>
            r == Err(HttpError(BAD_REQUEST, "Failed to fetch URL: " + statusError(reply.status, KNOWLEDGE_INGEST_URL))))
      && (reply.Response? && Success(reply.status) && reply.body.Undecodable? ==>
            r == Err(HttpError(SERVER_ERROR, "Failed to ingest URL: " + reply.body.reason)))
      && (reply.Response? && Success(reply.status) && reply.body.IngestJson? ==>
            r == Ok(UrlIngestReply("URL content ingested successfully", reply.body.docId, "processing")))
  {
    if AdminGate(user).Err? then Err(ADMIN_REQUIRED)
    else
      var page := fetch(url);
      if page.TransportError? then Err(HttpError(BAD_REQUEST, "Failed to fetch URL: " + page.message))
      else if !Success(page.status) then Err(HttpError(BAD_REQUEST, "Failed to fetch URL: " + statusError(page.status, url)))
      else
        var reply := forward(UrlIngestRequest(url, page.body, contentType, user.id));
        if reply.TransportError? then Err(HttpError(BAD_REQUEST, "Failed to fetch URL: " + reply.message))
        else if !Success(reply.status) then
          Err(HttpError(BAD_REQUEST, "Failed to fetch URL: " + statusError(reply.status, KNOWLEDGE_INGEST_URL)))
        else match reply.body
          case Undecodable(reason) => Err(HttpError(SERVER_ERROR, "Failed to ingest URL: " + reason))
          case IngestJson(docId) => Ok(UrlIngestReply("URL content ingested successfully", docId, "processing"))
  }

  /** An admin's URL ingest fails with 500 exactly when both calls succeeded
      and the reply could not be read; every other failure is 400. */
  lemma IngestUrlStatus(user: User, url: string, contentType: string,
                        fetch: string -> Reply<string>,
                        forward: UrlIngestRequest -> Reply<IngestBody>,
                        statusError: (nat, string) -> string)
    requires user.isAdmin == "true"
    ensures var r := IngestUrl(user, url, contentType, fetch, forward, statusError);
      r.Err? ==> r.error.status in {BAD_REQUEST, SERVER_ERROR}
    ensures var r := IngestUrl(user, url, contentType, fetch, forward, statusError);
      r.Err? && r.error.status == SERVER_ERROR <==>
        fetch(url).Response? && Success(fetch(url).status)
        && var reply := forward(UrlIngestRequest(url, fetch(url).body, contentType, user.id));
           reply.Response? && Success(reply.status) && reply.body.Undecodable?
  {
  }
}
