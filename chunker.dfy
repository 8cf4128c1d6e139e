/** Chunk annotation (services/knowledge/services/chunker.py): the pieces the
    text splitter returns are numbered in order and each carries the
    document's metadata plus its own index and the piece count. The splitter
    itself is not part of this model; its output is the input here. */
module Chunker {
  import opened Common

  /** `{"text": ..., "position": ..., "metadata": ...}`. */
  datatype ChunkDraft = ChunkDraft(text: string, position: nat, metadata: Metadata)

  /** `{**doc_metadata, "chunk_index": i, "total_chunks": n}`. */
  function ChunkMetadata(docMeta: Metadata, i: nat, n: nat): (m: Metadata)
    ensures HasEntry(m, "chunk_index", Int(i)) && HasEntry(m, "total_chunks", Int(n))
    ensures m.Keys == docMeta.Keys + {"chunk_index", "total_chunks"}
    ensures forall k :: k in docMeta && k != "chunk_index" && k != "total_chunks" ==> m[k] == docMeta[k]
  {
    docMeta["chunk_index" := Int(i)]["total_chunks" := Int(n)]
  }

  /** The annotated pieces, as `chunk` builds them. */
  function Annotated(pieces: seq<string>, docMeta: Metadata): seq<ChunkDraft> {
    seq(|pieces|, i requires 0 <= i < |pieces| => ChunkDraft(pieces[i], i, ChunkMetadata(docMeta, i, |pieces|)))
  }

  /** `TextChunker.chunk`: piece i becomes chunk i at position i. Document
      metadata keys are copied, except that `chunk_index` and `total_chunks`
      are overridden. */
  method Chunk(pieces: seq<string>, docMeta: Metadata) returns (r: seq<ChunkDraft>)
    ensures |r| == |pieces|
    ensures forall i :: 0 <= i < |r| ==> r[i].text == pieces[i] && r[i].position == i
    ensures forall i :: 0 <= i < |r| ==> r[i].metadata == ChunkMetadata(docMeta, i, |pieces|)
    ensures forall i :: 0 <= i < |r| ==>
      HasEntry(r[i].metadata, "chunk_index", Int(r[i].position))
      && HasEntry(r[i].metadata, "total_chunks", Int(|pieces|))
    ensures forall i, k :: 0 <= i < |r| && k in docMeta ==>
      k in r[i].metadata && (k != "chunk_index" && k != "total_chunks" ==> r[i].metadata[k] == docMeta[k])
    ensures pieces == [] ==> r == []
    ensures r == Annotated(pieces, docMeta)
  {
    r := [];
    var i := 0;
    while i < |pieces|
      invariant 0 <= i <= |pieces|
      invariant |r| == i
      invariant forall j :: 0 <= j < i ==> r[j] == ChunkDraft(pieces[j], j, ChunkMetadata(docMeta, j, |pieces|))
    {
      r := r + [ChunkDraft(pieces[i], i, ChunkMetadata(docMeta, i, |pieces|))];
      i := i + 1;
    }
  }
}
