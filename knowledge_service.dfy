/** The knowledge service's endpoints (services/knowledge/main.py): file and
    URL ingestion through the document status lifecycle, the document list,
    the status lookup and the search response. A database transaction is
    modelled by building the new rows locally and appending them to the
    tables only at the commit, so a rollback leaves the tables as they were. */
module KnowledgeService {
  import opened Common
  import opened Text
  import opened KnowledgeModels
  import opened KnowledgeStore
  import opened Parser
  import opened Chunker
  import opened Embedder
  import opened Sorting
  import opened Search

  /** PostgreSQL's message for a duplicate primary or unique key, without the
      wrapping SQLAlchemy adds to the exception's text. */
  const DUPLICATE_KEY := "duplicate key value violates unique constraint"

  // ---------------------------------------------------------------------
  // Paths

  /** `raw/{user_id}/{doc_id}/{filename}`. */
  function RawPath(userId: string, docId: string, filename: string): (r: string)
    ensures StartsWith(r, "raw/") && EndsWith(r, "/" + filename)
  {
    var r := "raw/" + userId + "/" + docId + "/" + filename;
    assert r[..4] == "raw/";
    assert r[|r| - |"/" + filename|..] == "/" + filename;
    r
  }

  /** `clean/{user_id}/{doc_id}/content.md`. */
  function CleanPath(userId: string, docId: string): (r: string)
    ensures StartsWith(r, "clean/") && EndsWith(r, "/content.md")
  {
    var r := "clean/" + userId + "/" + docId + "/content.md";
    assert r[..6] == "clean/";
    assert r[|r| - 11..] == "/content.md";
    r
  }

  /** The raw and the cleaned object of any two ingests never share a key. */
  lemma RawNeverClean(u: string, d: string, f: string, u2: string, d2: string)
    ensures RawPath(u, d, f) != CleanPath(u2, d2)
  {
    assert RawPath(u, d, f)[0] == 'r';
    assert CleanPath(u2, d2)[0] == 'c';
  }

  // ---------------------------------------------------------------------
  // Chunk and embedding rows

  /** The chunk rows for the annotated pieces: position and metadata from the
      chunker, id `chunkId(i)` for the i-th. */
  function ChunkRecords(drafts: seq<ChunkDraft>, docId: string, userId: string, chunkId: nat -> string, now: int): seq<Chunk> {
    seq(|drafts|, i requires 0 <= i < |drafts| =>
      Chunk(chunkId(i), docId, userId, drafts[i].text, drafts[i].position, drafts[i].metadata, now))
  }

  /** `[c.text for c in chunk_records]`. */
  function Texts(records: seq<Chunk>): seq<string> {
    seq(|records|, i requires 0 <= i < |records| => records[i].text)
  }

  /** `zip(chunk_records, embeddings)`: pairs up to the shorter length. */
  function ZipEmbeddings(records: seq<Chunk>, vectors: seq<Vector>, embId: nat -> string,
                         docId: string, userId: string, now: int): seq<EmbeddingRow> {
    seq(Min(|records|, |vectors|), i requires 0 <= i < Min(|records|, |vectors|) =>
      EmbeddingRow(embId(i), records[i].id, vectors[i], docId, userId, now))
  }

  /** The width of the `vector` column (`Vector(1024)`). */
  const EMBEDDING_DIM: nat := 1024

  /** The index of the first embedding row whose vector does not fit the column. */
  function FirstWrongDimension(embs: seq<EmbeddingRow>): (r: Option<nat>)
    ensures r.None? <==> forall i :: 0 <= i < |embs| ==> |embs[i].vector| == EMBEDDING_DIM
    ensures r.Some? ==>
      r.value < |embs| && |embs[r.value].vector| != EMBEDDING_DIM
      && forall j :: 0 <= j < r.value ==> |embs[j].vector| == EMBEDDING_DIM
  {
    if |embs| == 0 then None
    else if |embs[0].vector| != EMBEDDING_DIM then Some(0)
    else
      var r := FirstWrongDimension(embs[1..]);
      assert forall i :: 1 <= i < |embs| ==> embs[i] == embs[1..][i - 1];
      if r.None? then None else Some(r.value + 1)
  }

  /** pgvector's message for a vector of `n` values in a 1024-dimension
      column, without SQLAlchemy's wrapping. */
  function DimensionError(n: nat): string {
    "expected 1024 dimensions, not " + NatToString(n)
  }

  /** The rows an ingest adds to the chunk and embedding tables. */
  datatype Stored = Stored(chunks: seq<Chunk>, embeddings: seq<EmbeddingRow>)

  /** Chunk the text, flush the chunk rows, embed their texts and add one
      embedding row per (chunk, vector) pair, against the existing rows. At
      the commit a vector that does not have 1024 values is refused before
      any embedding row reaches the database. */
  function StoreSpec(existing: seq<Chunk>, existingEmbs: seq<EmbeddingRow>, docId: string, userId: string,
                     text: string, metadata: Metadata, split: string -> seq<string>,
                     post: seq<string> -> Reply<EmbedBody>, chunkId: nat -> string, embId: nat -> string,
                     now: int): Result<Stored, string>
  {
    var records := ChunkRecords(Annotated(split(text), metadata), docId, userId, chunkId, now);
    if !FreshKeys(ChunkIds(records), ChunkIds(existing)) then Err(DUPLICATE_KEY)
    else
      var e := EmbedAll(Batches(Texts(records)), post);
      if e.Err? then Err(e.error)
      else
        var embs := ZipEmbeddings(records, e.value, embId, docId, userId, now);
        var wrong := FirstWrongDimension(embs);
        if wrong.Some? then Err(DimensionError(|embs[wrong.value].vector|))
        else if !FreshKeys(EmbeddingIds(embs), EmbeddingIds(existingEmbs))
           || !FreshKeys(EmbeddedChunkIds(embs), EmbeddedChunkIds(existingEmbs))
        then Err(DUPLICATE_KEY)
        else Ok(Stored(records, embs))
  }

  /** The stored chunks are the splitter's pieces in order, at positions
      0..n-1, with the chunker's metadata; embedding i belongs to chunk i and
      holds vector i of the concatenated batch results, for as many pairs as
      both lists have; the new keys clash with no existing one. */
  lemma StoreSpecProps(existing: seq<Chunk>, existingEmbs: seq<EmbeddingRow>, docId: string, userId: string,
                       text: string, metadata: Metadata, split: string -> seq<string>,
                       post: seq<string> -> Reply<EmbedBody>, chunkId: nat -> string, embId: nat -> string, now: int)
    ensures var r := StoreSpec(existing, existingEmbs, docId, userId, text, metadata, split, post, chunkId, embId, now);
      var pieces := split(text);
      r.Ok? ==>
        |r.value.chunks| == |pieces|
        && (forall i :: 0 <= i < |pieces| ==>
              r.value.chunks[i] == Chunk(chunkId(i), docId, userId, pieces[i], i, ChunkMetadata(metadata, i, |pieces|), now))
        && EmbedAll(Batches(pieces), post).Ok?
        && |r.value.embeddings| == Min(|pieces|, |EmbedAll(Batches(pieces), post).value|)
        && (forall i :: 0 <= i < |r.value.embeddings| ==>
              r.value.embeddings[i].chunkId == r.value.chunks[i].id
              && r.value.embeddings[i].vector == EmbedAll(Batches(pieces), post).value[i]
              && r.value.embeddings[i].docId == docId && r.value.embeddings[i].userId == userId)
        && FreshKeys(ChunkIds(r.value.chunks), ChunkIds(existing))
        && FreshKeys(EmbeddingIds(r.value.embeddings), EmbeddingIds(existingEmbs))
        && FreshKeys(EmbeddedChunkIds(r.value.embeddings), EmbeddedChunkIds(existingEmbs))
        && (forall i :: 0 <= i < |r.value.embeddings| ==> |r.value.embeddings[i].vector| == EMBEDDING_DIM)
  {
    var pieces := split(text);
    var records := ChunkRecords(Annotated(pieces, metadata), docId, userId, chunkId, now);
    RecordsShape(pieces, metadata, docId, userId, chunkId, now);
    var e := EmbedAll(Batches(pieces), post);
    if e.Ok? {
      ZipShape(records, e.value, embId, docId, userId, now);
    }
  }

  /** A reply whose vector for some stored chunk does not have 1024 values
      fails the ingest with the conversion's error. */
  lemma WrongDimensionFails(existing: seq<Chunk>, existingEmbs: seq<EmbeddingRow>, docId: string, userId: string,
                            text: string, metadata: Metadata, split: string -> seq<string>,
                            post: seq<string> -> Reply<EmbedBody>, chunkId: nat -> string, embId: nat -> string,
                            now: int, k: nat)
    requires var pieces := split(text);
      FreshKeys(ChunkIds(ChunkRecords(Annotated(pieces, metadata), docId, userId, chunkId, now)), ChunkIds(existing))
      && EmbedAll(Batches(pieces), post).Ok?
      && k < |pieces| && k < |EmbedAll(Batches(pieces), post).value|
      && |EmbedAll(Batches(pieces), post).value[k]| != EMBEDDING_DIM
    ensures StoreSpec(existing, existingEmbs, docId, userId, text, metadata, split, post, chunkId, embId, now).Err?
  {
    var pieces := split(text);
    var records := ChunkRecords(Annotated(pieces, metadata), docId, userId, chunkId, now);
    RecordsShape(pieces, metadata, docId, userId, chunkId, now);
    var vs := EmbedAll(Batches(pieces), post).value;
    ZipShape(records, vs, embId, docId, userId, now);
    var embs := ZipEmbeddings(records, vs, embId, docId, userId, now);
    assert |embs[k].vector| != EMBEDDING_DIM;
  }

  /** Chunk row i holds piece i at position i, and the texts embedded are the pieces. */
  lemma RecordsShape(pieces: seq<string>, metadata: Metadata, docId: string, userId: string,
                     chunkId: nat -> string, now: int)
    ensures var records := ChunkRecords(Annotated(pieces, metadata), docId, userId, chunkId, now);
      |records| == |pieces|
      && (forall i :: 0 <= i < |pieces| ==>
            records[i] == Chunk(chunkId(i), docId, userId, pieces[i], i, ChunkMetadata(metadata, i, |pieces|), now))
      && Texts(records) == pieces
  {
    var records := ChunkRecords(Annotated(pieces, metadata), docId, userId, chunkId, now);
    assert Texts(records) == pieces;
  }

  /** Embedding row i pairs chunk row i with vector i. */
  lemma ZipShape(records: seq<Chunk>, vectors: seq<Vector>, embId: nat -> string, docId: string, userId: string, now: int)
    ensures var embs := ZipEmbeddings(records, vectors, embId, docId, userId, now);
      |embs| == Min(|records|, |vectors|)
      && forall i :: 0 <= i < |embs| ==>
           embs[i].chunkId == records[i].id && embs[i].vector == vectors[i]
           && embs[i].docId == docId && embs[i].userId == userId
  {
  }

  /** The chunk rows `ingest_document` and `ingest_url` add, then the
      embedding rows; the tables themselves are not changed here. */
  method ChunkAndEmbed(db: Database, docId: string, userId: string, text: string, metadata: Metadata,
                       split: string -> seq<string>, post: seq<string> -> Reply<EmbedBody>,
                       chunkId: nat -> string, embId: nat -> string, now: int)
    returns (r: Result<Stored, string>)
    ensures r == StoreSpec(db.chunks, db.embeddings, docId, userId, text, metadata, split, post, chunkId, embId, now)
  {
    var drafts := Chunker.Chunk(split(text), metadata);
    var records := BuildRecords(drafts, docId, userId, chunkId, now);
    if !FreshKeys(ChunkIds(records), ChunkIds(db.chunks)) {
      return Err(DUPLICATE_KEY);
    }
    var embedded, _ := EmbedTexts(Texts(records), post);
    if embedded.Err? {
      return Err(embedded.error);
    }
    var embs := PairEmbeddings(records, embedded.value, embId, docId, userId, now);
    var wrong := FirstWrongDimension(embs);
    if wrong.Some? {
      return Err(DimensionError(|embs[wrong.value].vector|));
    }
    if !FreshKeys(EmbeddingIds(embs), EmbeddingIds(db.embeddings))
       || !FreshKeys(EmbeddedChunkIds(embs), EmbeddedChunkIds(db.embeddings)) {
      return Err(DUPLICATE_KEY);
    }
    r := Ok(Stored(records, embs));
  }

  /** The loop that turns the chunker's output into chunk rows. */
  method BuildRecords(drafts: seq<ChunkDraft>, docId: string, userId: string, chunkId: nat -> string, now: int)
    returns (records: seq<Chunk>)
    ensures records == ChunkRecords(drafts, docId, userId, chunkId, now)
  {
    records := [];
    var i := 0;
    while i < |drafts|
      invariant 0 <= i <= |drafts|
      invariant |records| == i
      invariant forall j :: 0 <= j < i ==>
        records[j] == Chunk(chunkId(j), docId, userId, drafts[j].text, drafts[j].position, drafts[j].metadata, now)
    {
      records := records + [Chunk(chunkId(i), docId, userId, drafts[i].text, drafts[i].position, drafts[i].metadata, now)];
      i := i + 1;
    }
  }

  /** The loop over `zip(chunk_records, embeddings)` that adds embedding rows. */
  method PairEmbeddings(records: seq<Chunk>, vectors: seq<Vector>, embId: nat -> string,
                        docId: string, userId: string, now: int)
    returns (embs: seq<EmbeddingRow>)
    ensures embs == ZipEmbeddings(records, vectors, embId, docId, userId, now)
  {
    embs := [];
    var i := 0;
    while i < |records| && i < |vectors|
      invariant 0 <= i <= Min(|records|, |vectors|)
      invariant |embs| == i
      invariant forall j :: 0 <= j < i ==>
        embs[j] == EmbeddingRow(embId(j), records[j].id, vectors[j], docId, userId, now)
    {
      embs := embs + [EmbeddingRow(embId(i), records[i].id, vectors[i], docId, userId, now)];
      i := i + 1;
    }
  }

  // ---------------------------------------------------------------------
  // Document rows

  /** After the rollback: the committed document with this id, if any, is
      marked failed with the error message. */
  function MarkFailed(docs: seq<Document>, docId: string, message: string, now: int): (r: seq<Document>)
    ensures |r| == |docs| && DocIds(r) == DocIds(docs)
    ensures forall i :: 0 <= i < |docs| && docs[i].id != docId ==> r[i] == docs[i]
    ensures forall i :: 0 <= i < |docs| && docs[i].id == docId ==>
      r[i] == docs[i].(status := "failed", errorMessage := Some(message), updatedAt := now)
    ensures docId !in DocIds(docs) ==> r == docs
  {
    var r := seq(|docs|, i requires 0 <= i < |docs| =>
      if docs[i].id == docId then docs[i].(status := "failed", errorMessage := Some(message), updatedAt := now)
      else docs[i]);
    assert DocIds(r) == DocIds(docs);
    r
  }

  lemma DocIdsAppend(a: seq<Document>, b: seq<Document>)
    ensures DocIds(a + b) == DocIds(a) + DocIds(b)
  {
    assert forall i :: 0 <= i < |a + b| ==> DocIds(a + b)[i] == (DocIds(a) + DocIds(b))[i];
  }

  lemma StoredIdsAppend(c1: seq<Chunk>, c2: seq<Chunk>, e1: seq<EmbeddingRow>, e2: seq<EmbeddingRow>)
    ensures ChunkIds(c1 + c2) == ChunkIds(c1) + ChunkIds(c2)
    ensures EmbeddingIds(e1 + e2) == EmbeddingIds(e1) + EmbeddingIds(e2)
    ensures EmbeddedChunkIds(e1 + e2) == EmbeddedChunkIds(e1) + EmbeddedChunkIds(e2)
  {
    ChunkIdsAppend(c1, c2);
    EmbeddingIdsAppend(e1, e2);
    EmbeddedIdsAppend(e1, e2);
  }

  lemma ChunkIdsAppend(a: seq<Chunk>, b: seq<Chunk>)
    ensures ChunkIds(a + b) == ChunkIds(a) + ChunkIds(b)
  {
    assert forall i :: 0 <= i < |a + b| ==> ChunkIds(a + b)[i] == (ChunkIds(a) + ChunkIds(b))[i];
  }

  lemma EmbeddingIdsAppend(a: seq<EmbeddingRow>, b: seq<EmbeddingRow>)
    ensures EmbeddingIds(a + b) == EmbeddingIds(a) + EmbeddingIds(b)
  {
    assert forall i :: 0 <= i < |a + b| ==> EmbeddingIds(a + b)[i] == (EmbeddingIds(a) + EmbeddingIds(b))[i];
  }

  lemma EmbeddedIdsAppend(a: seq<EmbeddingRow>, b: seq<EmbeddingRow>)
    ensures EmbeddedChunkIds(a + b) == EmbeddedChunkIds(a) + EmbeddedChunkIds(b)
  {
    assert forall i :: 0 <= i < |a + b| ==> EmbeddedChunkIds(a + b)[i] == (EmbeddedChunkIds(a) + EmbeddedChunkIds(b))[i];
  }

  /** The commit of a successful ingest: one new document and the stored rows. */
  method Commit(db: Database, doc: Document, stored: Stored)
    requires db.Valid()
    requires doc.id !in DocIds(db.docs)
    requires FreshKeys(ChunkIds(stored.chunks), ChunkIds(db.chunks))
    requires FreshKeys(EmbeddingIds(stored.embeddings), EmbeddingIds(db.embeddings))
    requires FreshKeys(EmbeddedChunkIds(stored.embeddings), EmbeddedChunkIds(db.embeddings))
    modifies db
    ensures db.Valid()
    ensures db.docs == old(db.docs) + [doc]
    ensures db.chunks == old(db.chunks) + stored.chunks
    ensures db.embeddings == old(db.embeddings) + stored.embeddings
  {
    DocIdsAppend(db.docs, [doc]);
    StoredIdsAppend(db.chunks, stored.chunks, db.embeddings, stored.embeddings);
    DistinctAppend(DocIds(db.docs), [doc.id]);
    DistinctAppend(ChunkIds(db.chunks), ChunkIds(stored.chunks));
    DistinctAppend(EmbeddingIds(db.embeddings), EmbeddingIds(stored.embeddings));
    DistinctAppend(EmbeddedChunkIds(db.embeddings), EmbeddedChunkIds(stored.embeddings));
    db.docs := db.docs + [doc];
    db.chunks := db.chunks + stored.chunks;
    db.embeddings := db.embeddings + stored.embeddings;
  }

  /** The `except` branch of `ingest_document`: roll back, mark an already
      committed document with this id failed, and raise 500. */
  method FailIngest(db: Database, docId: string, message: string, now: int) returns (r: Result<IngestReply, HttpError>)
    requires db.Valid()
    modifies db
    ensures db.Valid()
    ensures r == Err(HttpError(SERVER_ERROR, message))
    ensures db.docs == MarkFailed(old(db.docs), docId, message, now)
    ensures db.chunks == old(db.chunks) && db.embeddings == old(db.embeddings)
  {
    db.docs := MarkFailed(db.docs, docId, message, now);
    r := Err(HttpError(SERVER_ERROR, message));
  }

  /** The database part both ingests share: add the document row and flush
      it (a duplicate id is refused), add its chunk and embedding rows, and
      commit it as ready. On a failure nothing is written. The result is the
      number of chunk rows. */
  method StoreDocument(db: Database, doc: Document, text: string, split: string -> seq<string>,
                       post: seq<string> -> Reply<EmbedBody>, chunkId: nat -> string, embId: nat -> string, now: int)
    returns (r: Result<nat, string>)
    requires db.Valid()
    modifies db
    ensures db.Valid()
    ensures var stored := StoreSpec(old(db.chunks), old(db.embeddings), doc.id, doc.userId, text, doc.metadata,
                                    split, post, chunkId, embId, now);
      (r.Ok? <==> doc.id !in DocIds(old(db.docs)) && stored.Ok?)
      && (r.Ok? ==>
        stored.Ok? && r.value == |stored.value.chunks|
        && db.docs == old(db.docs) + [doc.(status := "ready", progress := 100)]
        && db.chunks == old(db.chunks) + stored.value.chunks
        && db.embeddings == old(db.embeddings) + stored.value.embeddings)
      && (r.Err? ==>
        db.docs == old(db.docs) && db.chunks == old(db.chunks) && db.embeddings == old(db.embeddings)
        && r.error == (if doc.id in DocIds(old(db.docs)) then DUPLICATE_KEY else stored.error))
  {
    if doc.id in DocIds(db.docs) {
      return Err(DUPLICATE_KEY);
    }
    var stored := ChunkAndEmbed(db, doc.id, doc.userId, text, doc.metadata, split, post, chunkId, embId, now);
    if stored.Err? {
      return Err(stored.error);
    }
    StoreSpecProps(db.chunks, db.embeddings, doc.id, doc.userId, text, doc.metadata,
                   split, post, chunkId, embId, now);
    Commit(db, doc.(status := "ready", progress := 100), stored.value);
    r := Ok(|stored.value.chunks|);
  }

  // ---------------------------------------------------------------------
  // Ingestion

  /** The uploaded file: its bytes, declared content type and name. */
  datatype Upload = Upload(content: Bytes, contentType: string, filename: string)

  datatype IngestReply = IngestReply(docId: string, filename: string, status: string, chunks: nat, message: string)

  /** `ingest_document`. `lib` is what the parsing libraries read from the
      file, `split` the text splitter, `post` the embedding call,
      `putFailure(key)` the error a `put_object` of that key raises, and
      `chunkId(i)` / `embId(i)` the generated ids of the i-th new rows. */
  method IngestDocument(db: Database, s3: ObjectStore, upload: Upload, userId: string, docId: string,
                        lib: LibraryOutputs, split: string -> seq<string>, post: seq<string> -> Reply<EmbedBody>,
                        putFailure: string -> Option<string>, chunkId: nat -> string, embId: nat -> string, now: int)
    returns (r: Result<IngestReply, HttpError>)
    requires db.Valid()
    modifies db, s3
    ensures db.Valid()
    ensures var parsed := ParseSpec(upload.contentType, upload.filename, lib);
      (parsed.Err? ==>
        r == Err(HttpError(SERVER_ERROR, parsed.error)) && s3.objects == old(s3.objects)
        && db.docs == MarkFailed(old(db.docs), docId, parsed.error, now)
        && db.chunks == old(db.chunks) && db.embeddings == old(db.embeddings))
      && (parsed.Ok? ==> UploadStored(old(db.docs), old(db.chunks), old(db.embeddings), old(s3.objects),
                                      db.docs, db.chunks, db.embeddings, s3.objects,
                                      upload, userId, docId, parsed.value, split, post, putFailure, chunkId, embId, now, r))
  {
    var parsed := Parse(upload.contentType, upload.filename, lib);
    if parsed.Err? {
      r := FailIngest(db, docId, parsed.error, now);
      return;
    }
    r := StoreUpload(db, s3, upload, userId, docId, parsed.value, split, post, putFailure, chunkId, embId, now);
  }

  /** What `ingest_document` leaves behind once the file is parsed into
      `parsed`: it succeeds exactly when both objects are written, the id is
      new and the rows can be stored; then the document is ready with its
      rows and both objects, and otherwise the tables are rolled back, a
      committed document with this id is marked failed and 500 is raised.
      Only the raw and the cleaned key of the object store can change. */
  ghost predicate UploadStored(docs: seq<Document>, chunks: seq<Chunk>, embs: seq<EmbeddingRow>,
                               objects: map<string, StoredObject>,
                               docs': seq<Document>, chunks': seq<Chunk>, embs': seq<EmbeddingRow>,
                               objects': map<string, StoredObject>,
                               upload: Upload, userId: string, docId: string, parsed: ParsedDoc,
                               split: string -> seq<string>, post: seq<string> -> Reply<EmbedBody>,
                               putFailure: string -> Option<string>, chunkId: nat -> string, embId: nat -> string,
                               now: int, r: Result<IngestReply, HttpError>)
  {
    var raw := RawPath(userId, docId, upload.filename);
    var clean := CleanPath(userId, docId);
    var stored := StoreSpec(chunks, embs, docId, userId, parsed.text, parsed.metadata, split, post, chunkId, embId, now);
    (r.Ok? <==> putFailure(raw).None? && putFailure(clean).None? && docId !in DocIds(docs) && stored.Ok?)
    && (r.Ok? ==>
      stored.Ok?
      && docs' == docs + [Document(docId, userId, upload.filename, upload.contentType, raw, clean,
                                   "ready", 100, None, parsed.metadata, now, now)]
      && chunks' == chunks + stored.value.chunks
      && embs' == embs + stored.value.embeddings
      && objects' == objects[raw := StoredObject(upload.contentType, RawBytes(upload.content))]
                            [clean := StoredObject("text/markdown", Utf8Text(parsed.text))]
      && r.value == IngestReply(docId, upload.filename, "ready", |stored.value.chunks|, "Document processed successfully"))
    && (r.Err? ==>
      r.error.status == SERVER_ERROR
      && docs' == MarkFailed(docs, docId, r.error.detail, now)
      && chunks' == chunks && embs' == embs)
    && objects' - {raw, clean} == objects - {raw, clean}
  }

  /** Writing a key in `ks` leaves the objects outside `ks` as they were. */
  lemma PutOutside(m: map<string, StoredObject>, k: string, v: StoredObject, ks: set<string>)
    requires k in ks
    ensures m[k := v] - ks == m - ks
  {
  }

  /** `ingest_document` after the parse: write both objects, then the rows. */
  method StoreUpload(db: Database, s3: ObjectStore, upload: Upload, userId: string, docId: string, parsed: ParsedDoc,
                     split: string -> seq<string>, post: seq<string> -> Reply<EmbedBody>,
                     putFailure: string -> Option<string>, chunkId: nat -> string, embId: nat -> string, now: int)
    returns (r: Result<IngestReply, HttpError>)
    requires db.Valid()
    modifies db, s3
    ensures db.Valid()
    ensures UploadStored(old(db.docs), old(db.chunks), old(db.embeddings), old(s3.objects),
                         db.docs, db.chunks, db.embeddings, s3.objects,
                         upload, userId, docId, parsed, split, post, putFailure, chunkId, embId, now, r)
  {
    var raw := RawPath(userId, docId, upload.filename);
    var clean := CleanPath(userId, docId);
    RawNeverClean(userId, docId, upload.filename, userId, docId);
    // The `try` block; the first error raised is handled once, below.
    ghost var before := s3.objects;
    PutOutside(before, raw, StoredObject(upload.contentType, RawBytes(upload.content)), {raw, clean});
    var error := s3.Put(raw, StoredObject(upload.contentType, RawBytes(upload.content)), putFailure(raw));
    if error.None? {
      PutOutside(s3.objects, clean, StoredObject("text/markdown", Utf8Text(parsed.text)), {raw, clean});
      error := s3.Put(clean, StoredObject("text/markdown", Utf8Text(parsed.text)), putFailure(clean));
      if error.None? {
        var doc := Document(docId, userId, upload.filename, upload.contentType, raw, clean,
                            "processing", 0, None, parsed.metadata, now, now);
        var count := StoreDocument(db, doc, parsed.text, split, post, chunkId, embId, now);
        if count.Ok? {
          return Ok(IngestReply(docId, upload.filename, "ready", count.value, "Document processed successfully"));
        }
        error := Some(count.error);
      }
    }
    r := FailIngest(db, docId, error.value, now);
  }

  /** `url.split("/")[-1]`: the text after the last '/'. */
  function UrlTail(url: string): (r: string)
    ensures |r| <= |url| && r == url[|url| - |r|..] && '/' !in r
  {
    if |url| == 0 || url[|url| - 1] == '/' then ""
    else
      var t := UrlTail(url[..|url| - 1]);
      assert url[..|url| - 1][|url| - 1 - |t|..] + [url[|url| - 1]] == url[|url| - |t| - 1..];
      t + [url[|url| - 1]]
  }

  /** `metadata.get("title", fallback)` for the document's file name. */
  function TitleOr(metadata: Metadata, fallback: string): string {
    if "title" in metadata && metadata["title"].Str? then metadata["title"].s else fallback
  }

  /** The page metadata always holds the title, so the file name of a URL
      document is its title (possibly empty) and never the URL's tail. */
  lemma UrlFilenameIsTitle(view: HtmlView, url: string, title: string, fallback: string)
    ensures TitleOr(HtmlMetadata(view, url, title), fallback) == title
  {
    HtmlMetadataSpec(view, url, title);
  }

  /** `parse_html` on what BeautifulSoup read, or its failure. */
  function PageDoc(page: Result<HtmlView, string>, url: string): Result<ParsedDoc, string> {
    if page.Err? then Err(page.error)
    else
      var title := HtmlTitle(page.value);
      if title.Err? then Err(title.error) else Ok(HtmlDoc(page.value, url, title.value))
  }

  /** `ingest_url`: like `ingest_document` for an HTML page already fetched,
      under a generated `docId`, with the page title as file name and the
      address as raw path; there is no raw object and a failure is only
      rolled back. `page` is what BeautifulSoup reads from the content. */
  method IngestUrl(db: Database, s3: ObjectStore, url: string, contentType: string, userId: string, docId: string,
                   page: Result<HtmlView, string>, split: string -> seq<string>, post: seq<string> -> Reply<EmbedBody>,
                   putFailure: string -> Option<string>, chunkId: nat -> string, embId: nat -> string, now: int)
    returns (r: Result<IngestReply, HttpError>)
    requires db.Valid()
    modifies db, s3
    ensures db.Valid()
    ensures var parsed := PageDoc(page, url);
      var clean := CleanPath(userId, docId);
      (r.Ok? <==>
        parsed.Ok? && putFailure(clean).None? && docId !in DocIds(old(db.docs))
        && StoreSpec(old(db.chunks), old(db.embeddings), docId, userId, parsed.value.text, parsed.value.metadata,
                     split, post, chunkId, embId, now).Ok?)
      && (r.Ok? && parsed.Ok? ==>
        var title := HtmlTitle(page.value).value;
        var stored := StoreSpec(old(db.chunks), old(db.embeddings), docId, userId, parsed.value.text,
                                parsed.value.metadata, split, post, chunkId, embId, now);
        stored.Ok?
        && db.docs == old(db.docs) + [Document(docId, userId, title, contentType, url, clean,
                                               "ready", 100, None, parsed.value.metadata, now, now)]
        && db.chunks == old(db.chunks) + stored.value.chunks
        && db.embeddings == old(db.embeddings) + stored.value.embeddings
        && s3.objects == old(s3.objects)[clean := StoredObject("text/markdown", Utf8Text(parsed.value.text))]
        && r.value == IngestReply(docId, title, "ready", |stored.value.chunks|, "URL content processed successfully"))
      && s3.objects - {clean} == old(s3.objects) - {clean}
    ensures r.Err? ==>
      r.error.status == SERVER_ERROR
      && db.docs == old(db.docs) && db.chunks == old(db.chunks) && db.embeddings == old(db.embeddings)
  {
    if page.Err? {
      return Err(HttpError(SERVER_ERROR, page.error));
    }
    var parsed := ParseHtml(page.value, url);
    if parsed.Err? {
      return Err(HttpError(SERVER_ERROR, parsed.error));
    }
    var clean := CleanPath(userId, docId);
    PutOutside(s3.objects, clean, StoredObject("text/markdown", Utf8Text(parsed.value.text)), {clean});
    var failure := s3.Put(clean, StoredObject("text/markdown", Utf8Text(parsed.value.text)), putFailure(clean));
    if failure.Some? {
      return Err(HttpError(SERVER_ERROR, failure.value));
    }
    UrlFilenameIsTitle(page.value, url, HtmlTitle(page.value).value, UrlTail(url));
    var filename := TitleOr(parsed.value.metadata, UrlTail(url));
    var doc := Document(docId, userId, filename, contentType, url, clean,
                        "processing", 0, None, parsed.value.metadata, now, now);
    var count := StoreDocument(db, doc, parsed.value.text, split, post, chunkId, embId, now);
    if count.Err? {
      return Err(HttpError(SERVER_ERROR, count.error));
    }
    r := Ok(IngestReply(docId, filename, "ready", count.value, "URL content processed successfully"));
  }

  // ---------------------------------------------------------------------
  // Listing and status

  /** The documents `list_documents` covers: all of them for "all" and
      "admin", otherwise the user's own. */
  function Visible(docs: seq<Document>, userId: string): (r: seq<Document>)
    ensures userId in ["all", "admin"] ==> r == docs
    ensures userId !in ["all", "admin"] ==> forall d :: d in r <==> d in docs && d.userId == userId
  {
    if userId in ["all", "admin"] then docs else OwnedBy(docs, userId)
  }

  datatype DocList = DocList(documents: seq<DocSummary>, total: nat, limit: int, offset: int)

  /** `list_documents`: newest first, paged, with the total before paging.
      A negative limit or offset is refused by the database. */
  method ListDocuments(db: Database, limit: int, offset: int, userId: string) returns (r: Result<DocList, HttpError>)
    ensures RowCountError(limit, offset).Some? ==> r == Err(HttpError(SERVER_ERROR, RowCountError(limit, offset).value))
    ensures limit >= 0 && offset >= 0 ==>
      var vis := Visible(db.docs, userId);
      r == Ok(DocList(SummariesOf(Listing(vis, offset, limit), db.chunks), |vis|, limit, offset))
  {
    var refused := RowCountError(limit, offset);
    if refused.Some? {
      return Err(HttpError(SERVER_ERROR, refused.value));
    }
    var vis := Visible(db.docs, userId);
    var rows := Listing(vis, offset, limit);
    var documents := Summarize(rows, db.chunks);
    r := Ok(DocList(documents, |vis|, limit, offset));
  }

  /** The text of the error a use of the unimported name `func` raises. */
  const FUNC_UNDEFINED := "name 'func' is not defined"

  /** `list_documents` as written: the module imports `select` from
      SQLAlchemy but not `func`, so building either query raises before any
      SQL runs, whatever the arguments, and the `except` answers 500. */
  function ListDocumentsAsWritten(docs: seq<Document>, limit: int, offset: int, userId: string): (r: Result<DocList, HttpError>)
    ensures r.Err? && r.error.status == SERVER_ERROR
  {
    Err(HttpError(SERVER_ERROR, FUNC_UNDEFINED))
  }

  /** The owner of a single document is refused a listing as written,
      though the intended listing shows them that document. */
  lemma ListingNeverAnswers(d: Document)
    ensures ListDocumentsAsWritten([d], 1, 0, d.userId).Err?
    ensures Listing(Visible([d], d.userId), 0, 1) == [d]
  {
    assert OwnedBy([d], d.userId) == [d] by {
      assert [d][..0] == [];
    }
    assert SortDesc([d], CreatedKey) == [d] by {
      assert [d][1..] == [];
    }
  }

  datatype StatusReply = StatusReply(docId: string, filename: string, status: string, progress: int, errorMessage: Option<string>)

  /** `get_document_status`: 404 unless a document has both this id and
      this owner. */
  function DocumentStatus(docs: seq<Document>, docId: string, userId: string): (r: Result<StatusReply, HttpError>)
    ensures r.Err? <==> !exists i :: 0 <= i < |docs| && docs[i].id == docId && docs[i].userId == userId
    ensures r.Err? ==> r.error == HttpError(NOT_FOUND, "Document not found")
    ensures r.Ok? ==>
      exists d :: d in docs && d.id == docId && d.userId == userId
        && r.value == StatusReply(d.id, d.filename, d.status, d.progress, d.errorMessage)
  {
    match FindOwned(docs, docId, userId)
    case None => Err(HttpError(NOT_FOUND, "Document not found"))
    case Some(d) => Ok(StatusReply(d.id, d.filename, d.status, d.progress, d.errorMessage))
  }

  /** A document just committed by an ingest reports ready, at 100%, with
      no error. */
  lemma StatusAfterIngest(docs: seq<Document>, d: Document)
    requires Distinct(DocIds(docs + [d]))
    requires d.status == "ready" && d.progress == 100 && d.errorMessage.None?
    ensures DocumentStatus(docs + [d], d.id, d.userId) == Ok(StatusReply(d.id, d.filename, "ready", 100, None))
  {
    FindOwnedUnique(docs + [d], d.id, d.userId, |docs|);
  }

  /** A committed document whose re-ingest failed reports failed, with the
      error message, to its owner. */
  lemma StatusAfterFailure(docs: seq<Document>, k: nat, message: string, now: int)
    requires Distinct(DocIds(docs)) && k < |docs|
    ensures DocumentStatus(MarkFailed(docs, docs[k].id, message, now), docs[k].id, docs[k].userId)
      == Ok(StatusReply(docs[k].id, docs[k].filename, "failed", docs[k].progress, Some(message)))
  {
    var m := MarkFailed(docs, docs[k].id, message, now);
    FindOwnedUnique(m, docs[k].id, docs[k].userId, k);
  }

  // ---------------------------------------------------------------------
  // Search response

  datatype ChunkResponse = ChunkResponse(docId: string, chunkId: string, text: string, source: string, score: real)
  datatype SearchResponse = SearchResponse(chunks: seq<ChunkResponse>, total: nat)

  /** `metadata.get("source", "Unknown")`, which the response model only
      accepts as a string. */
  function SourceOf(metadata: Metadata): (r: Result<string, string>)
    ensures "source" !in metadata ==> r == Ok("Unknown")
    ensures "source" in metadata && metadata["source"].Str? ==> r == Ok(metadata["source"].s)
    ensures r.Err? <==> "source" in metadata && metadata["source"].Int?
  {
    if "source" !in metadata then Ok("Unknown")
    else match metadata["source"]
      case Str(s) => Ok(s)
      case Int(_) => Err("source: Input should be a valid string")
  }

  /** One response entry per hit, in order. */
  function Responses(hits: seq<Hit>): (r: Result<seq<ChunkResponse>, string>)
    ensures r.Ok? <==> forall i :: 0 <= i < |hits| ==> SourceOf(hits[i].metadata).Ok?
    ensures r.Ok? ==> |r.value| == |hits| && forall i :: 0 <= i < |hits| ==>
      r.value[i] == ChunkResponse(hits[i].docId, hits[i].chunkId, hits[i].text,
                                  SourceOf(hits[i].metadata).value, hits[i].score)
  {
    if |hits| == 0 then Ok([])
    else
      var front := Responses(hits[..|hits| - 1]);
      var last := hits[|hits| - 1];
      var src := SourceOf(last.metadata);
      if front.Err? then front
      else if src.Err? then Err(src.error)
      else Ok(front.value + [ChunkResponse(last.docId, last.chunkId, last.text, src.value, last.score)])
  }

  /** `search`: the hybrid search with the request's `top_k`, its hits as
      response entries and their number as `total`; any failure is a 500. */
  method SearchEndpoint(query: string, userId: string, topK: int,
                        chunks: seq<Chunk>, embs: seq<EmbeddingRow>, post: seq<string> -> Reply<EmbedBody>,
                        parses: string -> bool, rank: (string, string) -> Option<real>,
                        dist: (Vector, Vector) -> Option<real>)
    returns (r: Result<SearchResponse, HttpError>)
    ensures var s := SearchSpec(query, userId, Some(topK), chunks, embs, post, parses, rank, dist);
      (s.Err? ==> r == Err(HttpError(SERVER_ERROR, s.error)))
      && (s.Ok? ==> (r.Ok? <==> Responses(s.value).Ok?))
      && (r.Ok? ==> s.Ok? && r.value.chunks == Responses(s.value).value && r.value.total == |s.value| && |s.value| <= RERANK_TOP_K)
      && (r.Err? ==> r.error.status == SERVER_ERROR)
  {
    var hits := HybridSearch(query, userId, Some(topK), chunks, embs, post, parses, rank, dist);
    if hits.Err? {
      return Err(HttpError(SERVER_ERROR, hits.error));
    }
    SearchSpecProps(query, userId, Some(topK), chunks, embs, post, parses, rank, dist);
    var responses := Responses(hits.value);
    if responses.Err? {
      return Err(HttpError(SERVER_ERROR, responses.error));
    }
    r := Ok(SearchResponse(responses.value, |responses.value|));
  }
}
