/** The knowledge service's tables (services/knowledge/models.py): documents,
    their text chunks, and one embedding vector per chunk. Timestamps are
    integers on one clock. */
module KnowledgeModels {
  import opened Common

  datatype Document = Document(
    id: string,
    userId: string,
    filename: string,
    contentType: string,
    rawPath: string,
    cleanPath: string,
    status: string,
    progress: int,
    errorMessage: Option<string>,
    metadata: Metadata,
    createdAt: int,
    updatedAt: int)

  datatype Chunk = Chunk(
    id: string,
    docId: string,
    userId: string,
    text: string,
    position: int,
    metadata: Metadata,
    createdAt: int)

  datatype EmbeddingRow = EmbeddingRow(
    id: string,
    chunkId: string,
    vector: Vector,
    docId: string,
    userId: string,
    createdAt: int)
}
