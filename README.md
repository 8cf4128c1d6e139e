# LocalRAG core, modelled in Dafny

LocalRAG is a retrieval-augmented chat assistant made of three parts:

- **Knowledge service.** It ingests uploaded files and web pages:
  - it parses each one into text and metadata;
  - it writes the raw file and the cleaned text to an object store;
  - it splits the text into chunks, embeds the chunks in batches of ten, and stores documents, chunks and embeddings in three tables;
  - it tracks a document status that moves from `processing` to `ready` or `failed`.

  It answers searches with a hybrid ranking: full-text rank and vector similarity are merged by chunk id, weighted equally, and the top ten are kept.
- **API service.** Its chat router keeps threads and messages and asks the chat orchestrator for each answer. The orchestrator searches, builds the prompt from the first five hits, asks the inference service, and cites every hit. The citations are kept with the stored answer, but the message responses have no source for them, so the client always receives an empty citation list. Beside the chat router, the service has an admin router (managing the knowledge base, for users whose `is_admin` is `"true"`), an upload router that forwards files, and health probes.
- **Web front end.** The chat page and the admin page.

Each source file of the core is one Dafny module:

| module | models |
|---|---|
| `Parser` | `services/knowledge/services/parser.py` |
| `Chunker` | `services/knowledge/services/chunker.py` |
| `Embedder` | `services/knowledge/services/embedder.py` |
| `Search` | `services/knowledge/services/search.py` |
| `KnowledgeService` | the endpoints of `services/knowledge/main.py` |
| `Orchestrator` | `services/api/services/chat_orchestrator.py` |
| `Chat` | `services/api/routers/chat.py` |
| `Admin` | `services/api/routers/admin.py` |
| `Upload` | `services/api/routers/upload.py` |
| `Health` | `services/api/routers/health.py` |
| `ChatPage` | `frontend/app/page.tsx` |
| `AdminPage` | `frontend/app/admin/page.tsx` |

The supporting modules are:

- `KnowledgeModels`: the rows of the three knowledge tables.
- `KnowledgeStore`: the tables as a `Database` class with sequence fields, the object store as an `ObjectStore` class over a map, and the table queries.
- `Common`: Option/Result, HTTP errors and replies, paging.
- `Text`: Python's and JavaScript's string operations, written out over `seq<char>`.
- `Sorting`: a stable descending sort with its properties.

The model takes the source's own form:

- State that the code updates in place is a class whose methods carry `modifies` clauses: the tables, the object store, the chat tables and the two pages' component state.
- Loops are `while` loops with invariants. Each loop method is proved equal to a specification function, and the properties are proved about that function.
- Everything outside the code is a parameter of the model: the parsing libraries' output, the text splitter's pieces, every HTTP reply, generated ids, clocks, and what PostgreSQL computes inside a query (`ts_rank`, `to_tsquery`, pgvector's cosine distance).

A database transaction is modelled by building the new rows aside and appending them at the commit, so a rollback leaves the tables as they were. PostgreSQL leaves the order of rows that tie on an `ORDER BY` key unspecified. The model chooses one order for them, table order, by sorting stably.

## Model

| member | source | states |
|---|---|---|
| Parser.AfterLastDot | services/knowledge/services/parser.py:35 | the text after the last '.', containing no '.', preceded by a '.' unless it is the whole string |
| Parser.Extension | services/knowledge/services/parser.py:35 | no '.' in the file name gives ""; otherwise the lower-cased name's text after its last '.' |
| Parser.ChooseFormatFirstMatch | services/knowledge/services/parser.py:38-86 | the chosen branch's condition holds, no earlier branch's does, and the fallback is chosen exactly when no branch matches |
| Parser.PdfWins | services/knowledge/services/parser.py:38-39 | `application/pdf` or the extension `pdf` selects the PDF branch whatever else holds |
| Parser.ParsePdf | services/knowledge/services/parser.py:93-122 | the page texts joined by a blank line, with the PDF metadata |
| Parser.PdfMetadataSpec | services/knowledge/services/parser.py:105-117 | pages, source and format are recorded; title, author and subject (default "") appear exactly when the file has document information; no other keys |
| Parser.NonBlankParagraphs | services/knowledge/services/parser.py:131-132 | exactly the non-blank paragraphs are kept |
| Parser.NonBlankParagraphsAppend | services/knowledge/services/parser.py:131-132 | the paragraph filter keeps order: the kept paragraphs of a + b are those of a, then those of b |
| Parser.NonBlankParagraph | services/knowledge/services/parser.py:131-132 | a single paragraph is kept exactly when it is not blank |
| Parser.ParseDocx | services/knowledge/services/parser.py:125-151 | the non-blank paragraphs joined by a blank line; paragraph count, format and source; title, author and subject exactly when core properties exist |
| Parser.OrEmpty | services/knowledge/services/parser.py:143-145 | an absent core property is recorded as "" |
| Parser.ParseText | services/knowledge/services/parser.py:154-166 | the decoded text unchanged; the format is "markdown" exactly when the name ends in ".md", else "text" |
| Parser.MarkdownCaseSensitive | services/knowledge/services/parser.py:35-46 | "NOTES.MD" is routed to the text branch (the extension is lower-cased) but recorded as "text" (the markdown test is not) |
| Parser.HtmlPartsSpec | services/knowledge/services/parser.py:211-225 | one part per non-blank element, in order: the element's prefix ("#"×level, "- ", "> " or none) and its stripped, non-empty text |
| Parser.ParseHtml | services/knowledge/services/parser.py:169-260 | the error exactly when the page has a `<title>` tag without a single string; otherwise the page document built from the main content's elements, titled by the stripped `<title>` string, else the first h1's text, else "" |
| Parser.HtmlMetadataSpec | services/knowledge/services/parser.py:230-251 | source, format "article" and title always; author, description and published date exactly when one of their two meta tags exists |
| Parser.CsvBlocks | services/knowledge/services/parser.py:263-286 | one block per row, block i built from row i |
| Parser.FieldLinesPerField | services/knowledge/services/parser.py:274-275 | a row's block has one "  key: value\n" line per field, in field order |
| Parser.ParseCsv | services/knowledge/services/parser.py:263-286 | the row blocks joined by newlines, with the CSV metadata |
| Parser.CsvBlockShape | services/knowledge/services/parser.py:272-276 | block i starts with "Row i+1:\n" and ends with a newline |
| Parser.CellTexts | services/knowledge/services/parser.py:301 | one text per cell, an empty cell giving "" |
| Parser.ParseExcel | services/knowledge/services/parser.py:289-317 | per sheet a header and its kept rows, joined by newlines, with the workbook metadata |
| Parser.KeptRowsSpec | services/knowledge/services/parser.py:300-303 | each kept text is a non-blank " \| " join of some row's cells, and every row whose text is not blank is kept; no more kept rows than rows |
| Parser.KeptRowsAppend | services/knowledge/services/parser.py:300-303 | the row filter keeps order: the kept rows of a + b are those of a, then those of b |
| Parser.KeptRow | services/knowledge/services/parser.py:300-303 | a single row is kept, as its text, exactly when that text is not blank |
| Parser.MultiCellRowsKept | services/knowledge/services/parser.py:301-302 | a row of two or more cells is never dropped, even when every cell is empty |
| Parser.ParseSpecRecords | services/knowledge/services/parser.py:23-90 | every successful parse records its branch's format name and the file name as source |
| Parser.BranchRecords | services/knowledge/services/parser.py:38-86 | the same, branch by branch |
| Parser.ParseSpecFallback | services/knowledge/services/parser.py:77-86 | an unmatched file is read as UTF-8 text, or refused with "Unsupported content type: … (file: …)" |
| Parser.Parse | services/knowledge/services/parser.py:23-90 | the parse is the chosen branch applied to the library outputs |
| Chunker.ChunkMetadata | services/knowledge/services/chunker.py:49-53 | the document's keys plus chunk_index and total_chunks; the other values copied |
| Chunker.Chunk | services/knowledge/services/chunker.py:24-61 | piece i becomes chunk i at position i, with the document metadata plus its index and the piece count; no pieces give no chunks |
| Embedder.EmbedBatch | services/knowledge/services/embedder.py:43-67 | success exactly on a 200 reply with vectors (those vectors); a non-200 reply fails with "Embedding service returned <status>: <body>"; a body that does not decode, or lacks `data[i]["embedding"]`, fails with the exception's own text; a transport error with its message |
| Embedder.BatchesShape | services/knowledge/services/embedder.py:19-35 | the batches concatenate to the input; there are ceil(n/10), each of 1–10 texts, all but the last exactly 10 |
| Embedder.EmbedAllSucceeds | services/knowledge/services/embedder.py:21-41 | embedding succeeds exactly when every batch does, and yields the batch results concatenated in order |
| Embedder.EmbedTexts | services/knowledge/services/embedder.py:21-41 | the loop's result is the batch-wise outcome; on success every batch was sent; on failure the batches sent are a prefix ending in the failing one; no texts send nothing |
| Search.KeywordQueryWords | services/knowledge/services/search.py:89 | the tsquery text is empty exactly when the query is blank, and it consists of the query's whitespace-free words |
| Search.KeywordCandidates | services/knowledge/services/search.py:73-86 | no more rows than chunks |
| Search.KeywordCandidatesFrom | services/knowledge/services/search.py:73-86 | every row is a matching chunk of the user with its rank, and every matching chunk of the user is a row |
| Search.KeywordSearchSound | services/knowledge/services/search.py:63-110 | at most top_k rows, best rank first, each a matching chunk of the user with its rank; when the statement succeeds, drawn from the candidates with none left out ranking higher; with fewer than top_k, every matching chunk is present |
| Search.JoinChunks | services/knowledge/services/search.py:130 | each joined row carries the embedding's chunk and document ids and the similarity |
| Search.VectorCandidatesFrom | services/knowledge/services/search.py:122-151 | each row comes from an embedding of the user whose distance to the query is one minus the row's similarity |
| Search.VectorSearchSound | services/knowledge/services/search.py:112-155 | at most top_k rows, most similar first, each from an embedding of the user with similarity 1 − distance; when the statement succeeds, drawn from the candidates with none left out more similar, and all of them with fewer than top_k |
| Search.Dedup | services/knowledge/services/search.py:157-186 | the dictionary's key order: the same ids, each once |
| Search.LastKw | services/knowledge/services/search.py:168-174 | the full-text row that sets an id's entry exists exactly when the id was returned |
| Search.LastVec | services/knowledge/services/search.py:177-186 | the vector row that sets an id's vector score exists exactly when the id was returned |
| Search.FirstVec | services/knowledge/services/search.py:177-184 | the vector row whose fields an id keeps when full-text did not return it |
| Search.RefMerged | services/knowledge/services/search.py:157-186 | an id has an entry exactly when either query returned it |
| Search.CombinedSpec | services/knowledge/services/search.py:157-196 | one entry per returned id in first-seen order; the last full-text score and last vector score (0.0 if absent); document id, text and metadata from the last full-text row or else the first vector row; score 0.5·bm25 + 0.5·vector |
| Search.RankedMergeSpec | services/knowledge/services/search.py:199-201 | min(top_k, #ids) entries, best score first, one per chunk, drawn from the merged list, and none left out scores above one kept |
| Search.MergeResults | services/knowledge/services/search.py:157-201 | the dictionary-filling loops compute the ranked merge |
| Search.HybridSearch | services/knowledge/services/search.py:23-155 | embed the query (failing if that fails or returns no vector), run both queries with top_k (default 50) in one transaction, so a failed full-text statement leaves the vector query without rows too; merge and keep ten |
| Search.RankedMergeFrom | services/knowledge/services/search.py:157-201 | every ranked entry is for an id one of the queries returned |
| Search.MergeOrdered | services/knowledge/services/search.py:199 | the ranked merge is sorted by score and holds each chunk once |
| Search.MergeOfNothing | services/knowledge/services/search.py:157-201 | no rows merge to nothing |
| Search.TopTen | services/knowledge/services/search.py:57 | the first ten of the ranking are at most ten, sorted, distinct, and empty for a negative top_k |
| Search.SearchSpecProps | services/knowledge/services/search.py:23-155 | a search returns at most ten hits, best first, one per chunk, each a chunk or embedding of the user; a negative top_k, or a query text `to_tsquery` rejects, gives none |
| Search.MergedProps | services/knowledge/services/search.py:52-57 | the same, given sound query results |
| KnowledgeService.RawPath | services/knowledge/main.py:118 | the raw key starts with "raw/" and ends with the file name |
| KnowledgeService.CleanPath | services/knowledge/main.py:127 | the cleaned key starts with "clean/" and ends with "/content.md" |
| KnowledgeService.RawNeverClean | services/knowledge/main.py:118-133 | no raw key equals any cleaned key |
| KnowledgeService.StoreSpecProps | services/knowledge/main.py:149-187 | chunk row i is piece i at position i with the chunker's metadata; embedding i belongs to chunk i and holds vector i, for min(#pieces, #vectors) pairs; all new keys are fresh; every stored vector has 1024 values |
| KnowledgeService.FirstWrongDimension | services/knowledge/models.py:68 | none exactly when every embedding row's vector has 1024 values; otherwise the first row that does not |
| KnowledgeService.WrongDimensionFails | services/knowledge/main.py:171-187 | a reply whose vector for a stored chunk does not have 1024 values fails the ingest |
| KnowledgeService.RecordsShape | services/knowledge/main.py:154-170 | chunk row i holds piece i at position i, and the texts embedded are the pieces |
| KnowledgeService.ZipShape | services/knowledge/main.py:174-181 | embedding row i pairs chunk row i with vector i, up to the shorter list |
| KnowledgeService.ChunkAndEmbed | services/knowledge/main.py:149-181 | chunking, records, embedding and zip compute the stored-rows specification |
| KnowledgeService.BuildRecords | services/knowledge/main.py:154-166 | the loop builds the chunk rows |
| KnowledgeService.PairEmbeddings | services/knowledge/main.py:174-181 | the loop builds the embedding rows of the zip |
| KnowledgeService.MarkFailed | services/knowledge/main.py:204-210 | only the document with this id, if committed, becomes "failed" with the message; ids and every other row unchanged |
| KnowledgeService.Commit | services/knowledge/main.py:184-187 | one document and the stored rows are appended, and the key constraints still hold |
| KnowledgeService.FailIngest | services/knowledge/main.py:199-214 | rollback: chunks and embeddings as before, the committed document marked failed, and a 500 with the message |
| KnowledgeService.StoreDocument | services/knowledge/main.py:136-187 | success exactly for a new id whose rows can be stored (fresh keys, vectors of 1024 values); then the document ready at 100 with its rows; otherwise nothing written |
| KnowledgeService.IngestDocument | services/knowledge/main.py:92-214 | a parse failure is a 500 that writes nothing and marks a committed document failed; otherwise as StoreUpload |
| KnowledgeService.PutOutside | services/knowledge/main.py:119-133 | writing one key leaves the other objects as they were |
| KnowledgeService.StoreUpload | services/knowledge/main.py:117-214 | success exactly when both objects are written, the id is new and the rows store; then the ready document, its rows and both objects; otherwise a 500, rollback and mark failed; only the raw and cleaned keys change |
| KnowledgeService.UrlTail | services/knowledge/main.py:351 | the text after the last '/' |
| KnowledgeService.UrlFilenameIsTitle | services/knowledge/main.py:351 | the page metadata always has the title, so the URL's file name is the title |
| KnowledgeService.IngestUrl | services/knowledge/main.py:319-418 | success exactly when the page parses, the cleaned text is written, the id is new and the rows store; then the document titled by the page with the URL as raw path; every failure is a 500 with the tables unchanged and only the cleaned key possibly written |
| KnowledgeService.Visible | services/knowledge/main.py:227-253 | "all" and "admin" see every document, anyone else exactly their own |
| KnowledgeService.ListDocuments | services/knowledge/main.py:217-282 | a negative limit or offset is a 500 with the database's message; otherwise the visible documents newest first, paged, with chunk counts and the unpaged total |
| KnowledgeService.ListDocumentsAsWritten | services/knowledge/main.py:225-282 | as written, every listing request is a 500, because `func` is never imported |
| KnowledgeService.ListingNeverAnswers | services/knowledge/main.py:217-282 | the owner of a single document gets a 500 as written, though the intended listing holds exactly that document |
| KnowledgeService.DocumentStatus | services/knowledge/main.py:285-316 | 404 "Document not found" exactly when no document has this id and owner; otherwise that document's status fields |
| KnowledgeService.StatusAfterIngest | services/knowledge/main.py:184-187 | a freshly committed document reports ready, 100, no error |
| KnowledgeService.StatusAfterFailure | services/knowledge/main.py:204-210 | a committed document whose ingest failed reports failed with the message |
| KnowledgeService.SourceOf | services/knowledge/main.py:450 | an absent source is "Unknown", a string source is itself, a non-string source fails validation |
| KnowledgeService.Responses | services/knowledge/main.py:445-454 | one response per hit, in order, exactly when every source validates |
| KnowledgeService.SearchEndpoint | services/knowledge/main.py:421-463 | the hybrid search's hits as responses with their count (at most ten); every failure is a 500 |
| KnowledgeStore.DistinctAppend | services/knowledge/models.py:17-65 | appending fresh keys keeps a key column free of duplicates |
| KnowledgeStore.FindOwned | services/knowledge/main.py:293-302 | a document found exactly when one has this id and owner, and it is such a document |
| KnowledgeStore.FindOwnedUnique | services/knowledge/main.py:293-302 | with unique ids the one found is the document with that id |
| KnowledgeStore.ChunksOf | services/knowledge/main.py:233 | exactly the chunks of the document; none exactly when no chunk belongs to it |
| KnowledgeStore.OwnedBy | services/knowledge/main.py:247 | exactly the user's documents |
| KnowledgeStore.ListingProps | services/knowledge/main.py:235-237 | at most limit documents, from the selection, newest first, non-empty when the offset is inside the selection; the documents the offset skips are not older than those shown |
| KnowledgeStore.Summarize | services/knowledge/main.py:262-271 | one summary per row, with its id, status, date and chunk count |
| KnowledgeStore.Database.constructor | services/knowledge/models.py:12-74 | empty tables satisfy the key constraints |
| KnowledgeStore.ObjectStore.Put | services/knowledge/main.py:119-124 | a successful put stores the object under its key; a failing one changes nothing |
| Orchestrator.Retrieve | services/api/services/chat_orchestrator.py:52-75 | the reply's chunks on 200; none on a transport error, any other status, a body that is not JSON or one without `chunks` |
| Orchestrator.Renders | services/api/services/chat_orchestrator.py:99-102 | one "[Source: …]" block per chunk |
| Orchestrator.BuildUserPrompt | services/api/services/chat_orchestrator.py:94-109 | without chunks just the question; otherwise the context header, the blocks of the first five chunks separated by blank lines, then the question and instruction |
| Orchestrator.PromptShowsChunk | services/api/services/chat_orchestrator.py:99-104 | each of the first five chunks is shown in order: the prompt begins with the header, the earlier chunks' blocks and then that chunk's block |
| Orchestrator.PromptUsesFirstFive | services/api/services/chat_orchestrator.py:99 | chunks after the fifth do not change the prompt |
| Orchestrator.CitationOf | services/api/services/chat_orchestrator.py:141-152 | the fields with their defaults; the text is the first 200 characters plus "..." |
| Orchestrator.ExtractCitations | services/api/services/chat_orchestrator.py:141-152 | one citation per chunk, in order |
| Orchestrator.Generate | services/api/services/chat_orchestrator.py:111-139 | the generated content on 200; the busy apology on another status; the error apology on a transport error or malformed body |
| Orchestrator.ProcessMessage | services/api/services/chat_orchestrator.py:25-50 | the answer generated from the prompt over the retrieved chunks (temperature by mode, 1000 tokens), and one citation per chunk |
| Chat.MessagesOf | services/api/routers/chat.py:208-212 | exactly the thread's messages |
| Chat.Respond | services/api/routers/chat.py:39-47 | a response carries the stored message's id, role, content and time, and always an empty citation list |
| Chat.CitationsNotSent | services/api/routers/chat.py:39-47 | an answer stored with citations is sent without them |
| Chat.MessagesOfAppend | services/api/routers/chat.py:150-174 | a thread's messages in appended rows follow its earlier ones |
| Chat.FindThread | services/api/routers/chat.py:135-147 | an index of a thread with this id and owner, or none meaning no such thread |
| Chat.OwnedThreads | services/api/routers/chat.py:231-236 | exactly the user's threads |
| Chat.NewThreadValid | services/api/routers/chat.py:74-108 | a new thread with its first exchange keeps both keys unique and every message pointing at a thread |
| Chat.ExchangeValid | services/api/routers/chat.py:150-177 | an exchange on an existing thread, with its update time changed, keeps the constraints |
| Chat.NewThreadExchange | services/api/routers/chat.py:74-115 | and the exchange is all the new thread's messages |
| Chat.ChatStore.constructor | services/api/models/thread.py:12-45 | empty tables satisfy the constraints |
| Chat.ChatStore.CreateThread | services/api/routers/chat.py:66-123 | the thread with its mode; the user's message and the orchestrator's answer with its citations; a count of 2 |
| Chat.ChatStore.AddMessage | services/api/routers/chat.py:126-182 | 404 and no change unless the caller owns the thread; otherwise both messages appended (the thread's mode, default "quick"; the answer stored with its citations), its update time set, and the answer returned without citations |
| Chat.CreatedThreadAsWritten | services/api/routers/chat.py:74-77 | as written, a new thread's metadata column keeps its empty default: the mode is not stored |
| Chat.AddMessageAsWritten | services/api/routers/chat.py:135-173 | as written, 404 for a thread the caller does not own; a 500 for every thread the caller does own |
| Chat.ModeLookupFails | services/api/routers/chat.py:74-173 | a thread created as written is found for its owner, yet adding a message to it is a 500, and its metadata holds no mode |
| Chat.ChatStore.GetThread | services/api/routers/chat.py:185-218 | 404 exactly when the caller owns no such thread; otherwise all its messages, oldest first, as responses with no citations, and their count |
| Chat.ChatStore.ListThreads | services/api/routers/chat.py:221-256 | a negative limit or offset is a 500; otherwise the page of the user's threads with message counts, at most limit |
| Chat.TranscriptGrows | services/api/routers/chat.py:150-174 | an exchange extends the transcript by exactly its two messages, the user's message then the answer in the model's tie order |
| Chat.ThreadPageProps | services/api/routers/chat.py:231-238 | the listing holds at most limit of the caller's threads, most recently updated first |
| Admin.AdminGate | services/api/routers/admin.py:22-29 | the caller passes exactly when is_admin is "true"; otherwise 403 |
| Admin.GateIsExact | services/api/routers/admin.py:24 | "True", "1", "yes" and others are refused |
| Admin.ListDocuments | services/api/routers/admin.py:61-122 | 403 for non-admins; the database's refusal for a negative limit or offset; else the admin's own documents newest first, paged, with counts and the total |
| Admin.ListedAreOwn | services/api/routers/admin.py:78-89 | every listed document is the admin's own |
| Admin.OwnedDocument | services/api/routers/admin.py:139-150 | 403, then 404 unless the admin owns a document with the id; the one found is theirs |
| Admin.GetDocument | services/api/routers/admin.py:125-171 | the gate's and lookup's errors; otherwise the details of a document the admin owns |
| Admin.GetDocumentUnique | services/api/routers/admin.py:139-162 | with unique ids the details are of the document with that id |
| Admin.Views | services/api/routers/admin.py:211-219 | one view per chunk with its fields |
| Admin.GetDocumentChunks | services/api/routers/admin.py:174-228 | the gate's and lookup's errors; otherwise the document's chunks in position order |
| Admin.ChunkListingProps | services/api/routers/admin.py:188-219 | the views are of a permutation of the document's chunks (each as often as in the table), one view per chunk with its fields, in position order |
| Admin.ChunkOrder | services/api/routers/admin.py:206 | chunks sorted by the position key are in position order |
| Admin.ChunkProvenance | services/api/routers/admin.py:203-209 | every view shows a chunk of the document |
| Admin.ReprocessDocument | services/api/routers/admin.py:345-389 | the gate's and lookup's errors; otherwise "processing", with nothing changed |
| Admin.Filter | services/api/routers/admin.py:259-280 | exactly the rows the delete spares |
| Admin.FilterDistinct | services/api/routers/admin.py:259-280 | deleting rows keeps a key column unique |
| Admin.FilterKeepsAll | services/api/routers/admin.py:264 | no doomed chunk ids leave the embeddings alone |
| Admin.CascadeDelete | services/api/routers/admin.py:259-280 | the document, its chunks and their embeddings are removed, nothing else |
| Admin.CascadeKeepsValid | services/api/routers/admin.py:259-280 | the delete keeps every key constraint |
| Admin.CascadeKeepsReferences | services/api/routers/admin.py:259-280 | no embedding is left pointing at a deleted chunk |
| Admin.CascadeRemovesAll | services/api/routers/admin.py:259-280 | none of the document's rows remain |
| Admin.DeleteDocument | services/api/routers/admin.py:231-290 | 403 or 404 change nothing; otherwise the cascade, with the constraints kept |
| Admin.DeleteAsWritten | services/api/routers/admin.py:257-290 | as written, deleting a document that has no chunks is a 500 and changes nothing; one with chunks is the intended cascade |
| Admin.ChunklessDeleteFails | services/api/routers/admin.py:257-290 | a lone document without chunks cannot be deleted as written, though the cascade would remove it |
| Admin.IngestUrl | services/api/routers/admin.py:293-342 | 403; fetch or forward failures (transport or non-2xx) are 400 "Failed to fetch URL: …"; an unreadable reply 500 "Failed to ingest URL: …"; else "processing" with the new document id |
| Admin.IngestUrlStatus | services/api/routers/admin.py:304-342 | an admin's failure is 500 exactly when both calls succeeded and the reply is unreadable, else 400 |
| Upload.UploadDocument | services/api/routers/upload.py:26-69 | a type outside the allow-list is 400; a transport error 500 "Failed to upload document: …"; a non-200 500; otherwise the id, name and reported status (default "processing") |
| Upload.RefusedBeforeForwarding | services/api/routers/upload.py:33-35 | a refused type is refused whatever the knowledge service would answer |
| Upload.UploadKeepsId | services/api/routers/upload.py:38-66 | a successful upload reports the id and name it forwarded, accepted with 200 |
| Upload.GetUploadStatus | services/api/routers/upload.py:72-92 | a transport error is 500; 404 is "Document not found"; any other reply's JSON is passed on |
| Health.StoreCheck | services/api/routers/health.py:37-53 | healthy exactly when the probe raised nothing |
| Health.ServiceCheck | services/api/routers/health.py:55-75 | healthy exactly on 200; another status unhealthy |
| Health.BasicHealth | services/api/routers/health.py:17-24 | always healthy, with the service name and the time, and no checks key |
| Health.DetailedHealth | services/api/routers/health.py:27-77 | unhealthy exactly when the database or Redis fails; the four checks recorded |
| Health.Readiness | services/api/routers/health.py:80-87 | as intended: "ready" with 200 exactly when the database answers, else "not ready" with 503 |
| Health.ReadinessAsWritten | services/api/routers/health.py:80-87 | as written: always 200; the status object "ready" exactly when the database answers, else the array of "not ready" and 503 |
| Health.FailedProbeLooksReady | services/api/routers/health.py:80-87 | a failed database probe answers 200 as written and 503 as intended; the two agree exactly when the database answers |
| ChatPage.ErrorNotice | frontend/app/page.tsx:84-87 | an assistant message "Sorry, I encountered an error: … Please try again." whose middle is exactly the error's message |
| ChatPage.ChatState.constructor | frontend/app/page.tsx:9-14 | empty draft and messages, no thread, not loading, logged out |
| ChatPage.ChatState.SendMessage | frontend/app/page.tsx:48-92 | nothing for a blank draft or while loading; the sign-in panel when logged out; otherwise the optimistic message, then the server transcript or an error notice, on a new thread ("quick") or the current one |
| ChatPage.ChatState.HandleLogin | frontend/app/page.tsx:94-102 | signed in with the panel closed on success, otherwise an alert |
| ChatPage.ChatState.HandleRegister | frontend/app/page.tsx:104-113 | registration then sign-in; signed in only when both succeed |
| AdminPage.WithoutIndex | frontend/app/admin/page.tsx:500 | removing an index drops exactly that entry; an index outside changes nothing |
| AdminPage.NonBlank | frontend/app/admin/page.tsx:614 | exactly the non-blank options |
| AdminPage.NonBlankAppend | frontend/app/admin/page.tsx:614 | the option filter keeps order: the kept options of a + b are those of a, then those of b |
| AdminPage.NonBlankOne | frontend/app/admin/page.tsx:614 | a single option is kept exactly when it is not blank |
| AdminPage.OptionLabel | frontend/app/admin/page.tsx:539-545 | "Option " followed by the number |
| AdminPage.IngestKind | frontend/app/admin/page.tsx:90 | "podcast" exactly for the podcast tab, else "article" |
| AdminPage.AdminState.constructor | frontend/app/admin/page.tsx:17-41 | the initial state: the file tab, nothing selected, and the three initial questions themselves (two text questions, then the experience level with its four options) |
| AdminPage.AdminState.HandleFileUpload | frontend/app/admin/page.tsx:66-83 | nothing without a file; otherwise an alert, and the file cleared and the list reloaded only on success |
| AdminPage.AdminState.HandleUrlUpload | frontend/app/admin/page.tsx:85-100 | nothing for a blank URL; otherwise ingest as 'podcast' or 'article', an alert, and the URL cleared and the list reloaded only on success |
| AdminPage.AdminState.EditQuestion | frontend/app/admin/page.tsx:475-479 | only that question's text changes |
| AdminPage.AdminState.SetQuestionKind | frontend/app/admin/page.tsx:486-493 | only that question's kind changes; switching to multiple-choice without options gives it "Option 1" and "Option 2" |
| AdminPage.AdminState.RemoveQuestion | frontend/app/admin/page.tsx:500 | exactly that question is removed |
| AdminPage.AdminState.EditOption | frontend/app/admin/page.tsx:514-520 | only that option's text changes |
| AdminPage.AdminState.RemoveOption | frontend/app/admin/page.tsx:525-531 | exactly that option is removed |
| AdminPage.AdminState.AddOption | frontend/app/admin/page.tsx:539-545 | "Option n+1" is appended to a question with n options |
| AdminPage.AdminState.EditNewOption | frontend/app/admin/page.tsx:580-585 | only that new option changes |
| AdminPage.AdminState.RemoveNewOption | frontend/app/admin/page.tsx:590 | exactly that new option is removed |
| AdminPage.AdminState.AddNewOption | frontend/app/admin/page.tsx:598 | one empty option is appended |
| AdminPage.AdminState.AddQuestion | frontend/app/admin/page.tsx:606-621 | nothing for blank text; otherwise the question appended (multiple-choice with its non-blank options) and the form reset |
| AdminPage.NewQuestion | frontend/app/admin/page.tsx:609-615 | the text and kind; options exactly for multiple-choice, and then exactly the non-blank ones |
| AdminPage.RemovalKeepsOthers | frontend/app/admin/page.tsx:500 | removing one entry keeps every other, in order |
| Common.Take | services/knowledge/services/search.py:57 | Python's `s[:n]`: a prefix of length min(n, \|s\|) |
| Common.SliceTo | services/knowledge/services/search.py:201 | `s[:n]` for any n: a prefix; a negative n drops that many from the end |
| Common.Page | services/knowledge/main.py:236-237 | LIMIT/OFFSET: at most limit rows, row i being row offset+i |
| Common.RowCountError | services/knowledge/main.py:236-237 | PostgreSQL refuses exactly a negative limit or offset, the offset checked first |
| Sorting.SortDesc | services/knowledge/services/search.py:199 | `sorted(..., reverse=True)`: a permutation, sorted by descending key |
| Sorting.SortStable | services/knowledge/services/search.py:199 | elements with equal keys keep their input order |
| Sorting.SortAppendLowest | services/api/routers/chat.py:208-212 | appending rows ranking no higher than all others leaves the earlier order and adds them at the end |
| Sorting.TopK | services/knowledge/services/search.py:199-201 | the first k are drawn from the input, and nothing left out ranks higher |
| Text.Strip | services/knowledge/services/parser.py:212 | Python's `strip()`: a slice of the text with only whitespace cut from either side; empty exactly for blank text, otherwise no whitespace at either end |
| Text.JoinPrefix | services/api/services/chat_orchestrator.py:99-102 | `sep.join` shows its parts in order: it begins with the first i parts joined, a separator, then part i |
| Text.SplitWords | services/knowledge/services/search.py:89 | `split()` yields whitespace-free words that concatenate to the text without its whitespace; none exactly for blank text |
| Text.SplitJoin | services/knowledge/services/search.py:89 | splitting a space-joined list of words gives the words back |
| Text.Lower | services/knowledge/services/parser.py:35 | `lower()` character by character, same length |

## Left out

- The parsing libraries are not modelled: pypdf, python-docx, BeautifulSoup, csv, openpyxl, json, python-pptx, striprtf and pytesseract. What they read from a file is an input of `Parser`. So is the text the RTF fallback's regular-expression substitutions leave (parser.py:383-397).
- `Parser.ParsePdf`, `Parser.ParseCsv`, `Parser.ParseExcel` and `Parser.ParseHtml` are methods for their loops. The JSON, PPTX, RTF and image branches are pure case analysis inside `Parser.ParseBranch`, because they have no loop of their own.
- `ParseSpecRecords`: the HTML branch records the address it is given as its source. For a file, that address is the file name.
- The text splitter (`RecursiveCharacterTextSplitter`) is not modelled: its pieces are an input of the chunker.
- The clock and uuid generation are parameters, so timestamps are integers and generated ids are inputs. Where the code relies on generated ids being fresh, the chat methods take their freshness as a precondition.
- Floating point is modelled as exact reals: scores, the temperature and the score weights.
- HTTP and database transport are not modelled. Every reply of another service is a parameter, and so are the texts of transport and object-store errors (httpx, boto3). Three database errors are not parameters: the model writes them as fixed texts, described in the next line.
- `KnowledgeService.StoreDocument`, `KnowledgeService.StoreUpload`, `KnowledgeService.IngestUrl` and `KnowledgeService.StoreSpecProps`: a duplicate key and a vector that is not 1024 long fail with fixed texts. These are the bare PostgreSQL message ("duplicate key value violates unique constraint") and pgvector's message ("expected 1024 dimensions, not n"). The code's `str(e)` (services/knowledge/main.py:209 and 214) is SQLAlchemy's wrapped text, which adds the exception class and the SQL statement around them. So the `error_message` and the 500 detail are stated only up to that wrapping.
- `Common.RowCountError`, `KnowledgeService.ListDocuments` and `Admin.ListDocuments`: the refusal of a negative `limit` or `offset` is the bare PostgreSQL message. SQLAlchemy's wrapping, which the `str(e)` of admin.py's `Failed to list documents: …` detail would carry, is likewise not modelled.
- Concurrency between `await` points, and background tasks, are not modelled.
- The Redis and other health probes' I/O are not modelled: their outcomes are inputs.
- String case folding and whitespace are simplified:
  - `Text.Lower` covers only the ASCII letters.
  - Python's `isspace` and JavaScript's `trim` are two fixed character sets, not the full Unicode tables.
- `Chat.TranscriptGrows` and `Chat.ChatStore.GetThread`: the two messages of one exchange get the same `created_at` (the transaction's `now()`, services/api/models/thread.py:44), and `get_thread` orders by `created_at` alone. The code therefore leaves their order unspecified, and the answer may come back before the question. The model picks insertion order, the user's message first. The same holds for every other tie on an `ORDER BY` key.
- `Orchestrator.Generate`: a 200 reply whose `message.content` is JSON null is treated like a body without content, giving the error apology. The code returns None there, and the NOT NULL `content` column then fails the commit with a 500; the model has no null content.
- `Admin.GetDocumentChunks`: a chunk whose metadata column is NULL (`or {}`, admin.py:216) is not modelled. Chunk metadata is always a dictionary.
- Request validation by the web framework is not modelled: the 422 answers for a malformed URL or body. `Upload.UploadDocument` takes the content type as a string, never None.
- `Admin.ListDocuments`, `Admin.GetDocument`, `Admin.GetDocumentChunks`, `Admin.ReprocessDocument` and `Admin.DeleteDocument`: these routes import `knowledge.models` inside their `try` block (services/api/routers/admin.py:73-75, 135-137, 184-186, 241-243 and 355-357). The `sys.path.append('/app/../knowledge')` before each import adds `/knowledge`, so the import works only when a `knowledge` package is on some other path entry. The model assumes the import always succeeds. An ImportError would make each route answer 500 "Failed to …: No module named …".
- `Orchestrator.Retrieve`: a 200 JSON reply whose `chunks` is null is not modelled. There `result.get("chunks", [])` gives None, and the citation loop (services/api/services/chat_orchestrator.py:144) then fails. The knowledge service's search endpoint always answers a list, so the model reads a missing `chunks` as no chunks.
- Objects in the object store are not cleaned up, as in the code: `KnowledgeService.StoreUpload` and `KnowledgeService.IngestDocument` leave the objects already written when an ingest fails, and `Admin.DeleteDocument` leaves the document's objects.
- The pages leave several things out:
  - rendering, animation, the particle background and the timed quick-suggestion path;
  - the settings and pricing tabs, and the Save buttons;
  - the document list fetch (`loadDocuments`), which is modelled only as a reload counter.
- The pages' question lists are values: the shallow copies the page makes of its nested option arrays (aliasing) are not modelled.
- The knowledge service's own `/health` constant (services/knowledge/main.py:86-89) is the same always-healthy reply as `Health.BasicHealth`, and has no separate member.
- A negative `limit` or `offset` reaches PostgreSQL, which refuses it. The model states that refusal: OFFSET is checked before LIMIT, and the message is PostgreSQL's wording. The chat router does not catch the error, so `Chat.ChatStore.ListThreads` answers the framework's 500 "Internal Server Error".

## Findings

| source | as written | input that shows it | evidently intended | confidence | as-written member | corrected member |
|---|---|---|---|---|---|---|
| services/api/routers/admin.py:264-273 | `sql_delete` is imported only inside `if chunk_ids:` but is used after that block, so the local name is unbound when the document has no chunks; the handler rolls back and answers 500 "Failed to delete document: …" | deleting any document that has no chunks, such as an empty text file or a failed ingest | the document row is deleted like any other | high, not executed | Admin.DeleteAsWritten, Admin.ChunklessDeleteFails | Admin.DeleteDocument |
| services/knowledge/main.py:231-253 | the module imports `select` (line 11) but not `func`, so both branches of `list_documents` raise NameError and the handler answers 500 "name 'func' is not defined" | any `/documents/list` request | the documents with their chunk counts and the total | high, not executed | KnowledgeService.ListDocumentsAsWritten, KnowledgeService.ListingNeverAnswers | KnowledgeService.ListDocuments |
| services/api/routers/chat.py:74-173 | the constructors receive `metadata=`, the declarative base's schema attribute, not the `thread_metadata`/`message_metadata` columns (services/api/models/thread.py, lines 20 and 41): the mode and the citations are never stored, and `thread.metadata.get` fails on a loaded thread | adding a message to any existing thread | the mode is stored with the thread and read back; the citations are stored with the answer | medium (relies on how SQLAlchemy's declarative constructor treats `metadata`), not executed | Chat.CreatedThreadAsWritten, Chat.AddMessageAsWritten, Chat.ModeLookupFails | Chat.ChatStore.CreateThread, Chat.ChatStore.AddMessage |
| services/api/routers/health.py:80-87 | the failure branch returns the tuple `({"status": "not ready"}, 503)`; a returned value does not set the status, so the framework answers 200 with the tuple serialised as a two-element JSON array | a readiness probe while the database is down | "not ready" with status 503, so that the probe takes the service out of rotation | high, not executed | Health.ReadinessAsWritten, Health.FailedProbeLooksReady | Health.Readiness |
