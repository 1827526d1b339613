/**
 * Post-processing around the retrieval-answer chain and the ingestion
 * pipeline. The PDF loader, the text splitter, the embedding model, the
 * chat model and the similarity search are foreign: their outputs (the
 * chunk list, the ranked matches, the chain's result) are inputs here.
 */
module Rag {
  import opened Wrappers
  import opened Json

  /** Length of the text preview attached to each source. */
  const PreviewLength: nat := 200

  /** How many chunks the retriever asks the vector store for. */
  const RetrievalK: nat := 5

  /** A text chunk with its metadata (a LangChain document). */
  datatype Chunk = Chunk(pageContent: string, metadata: Record)

  /** One cited source of an AI answer. */
  datatype Source = Source(documentId: Json, chunkIndex: Json, content: string, metadata: Record)

  /** The AI answer: the model text, the cited sources and the chat model's name. */
  datatype AiAnswer = AiAnswer(content: string, sources: seq<Source>, model: string)

  /** `text[:200]`. */
  function Preview(text: string): (p: string)
    ensures |p| == if |text| < PreviewLength then |text| else PreviewLength
    ensures p <= text
  {
    if |text| <= PreviewLength then text else text[..PreviewLength]
  }

  /** The source entry built for one retrieved chunk. */
  function SourceOf(c: Chunk): (s: Source)
    ensures s.documentId == Get(c.metadata, "document_id") && s.chunkIndex == Get(c.metadata, "chunk_index")
    ensures s.content == Preview(c.pageContent) && s.metadata == c.metadata
  {
    Source(Get(c.metadata, "document_id"), Get(c.metadata, "chunk_index"), Preview(c.pageContent), c.metadata)
  }

  /** One source per retrieved chunk, in retrieval order. */
  ghost function SourcesOf(docs: seq<Chunk>): (r: seq<Source>)
  {
    seq(|docs|, i requires 0 <= i < |docs| => SourceOf(docs[i]))
  }

  /** The retriever's request: at most the first K of the store's ranking. */
  function TopK(ranked: seq<Chunk>): (r: seq<Chunk>)
    ensures |r| <= RetrievalK && r <= ranked
    ensures |ranked| >= RetrievalK ==> |r| == RetrievalK
    ensures |ranked| < RetrievalK ==> r == ranked
  {
    if |ranked| <= RetrievalK then ranked else ranked[..RetrievalK]
  }

  /** The loop of `answer_question` that appends one source per retrieved chunk. */
  method BuildSources(docs: seq<Chunk>) returns (sources: seq<Source>)
    ensures sources == SourcesOf(docs)
    ensures |sources| == |docs|
    ensures forall i :: 0 <= i < |docs| ==> sources[i].content <= docs[i].pageContent
  {
    sources := [];
    var i := 0;
    while i < |docs|
      invariant 0 <= i <= |docs|
      invariant |sources| == i
      invariant forall k :: 0 <= k < i ==> sources[k] == SourceOf(docs[k])
    {
      sources := sources + [SourceOf(docs[i])];
      i := i + 1;
    }
  }

  /**
   * `answer_question` around the chain: `ranked` is the vector store's
   * ranking for the question and `text` the chat model's answer. The chain
   * retrieves the top K chunks and returns them as its source documents;
   * the answer is the model's text, one source per retrieved chunk, and the
   * configured chat model's name.
   */
  method AnswerQuestion(ranked: seq<Chunk>, text: string, chatModel: string) returns (a: AiAnswer)
    ensures a.content == text && a.model == chatModel
    ensures a.sources == SourcesOf(TopK(ranked))
    ensures |a.sources| <= RetrievalK
    ensures |a.sources| == if |ranked| < RetrievalK then |ranked| else RetrievalK
  {
    var docs := TopK(ranked);
    var sources := BuildSources(docs);
    a := AiAnswer(text, sources, chatModel);
  }

  /** Chunk `i` of a document after tagging. */
  function TagChunk(c: Chunk, documentId: string, i: nat): Chunk
  {
    c.(metadata := c.metadata["document_id" := JStr(documentId)]["chunk_index" := JInt(i)])
  }

  /**
   * The chunks after tagging: chunk `i` carries `chunk_index = i` and the
   * common `document_id`; its text and its other metadata are kept.
   */
  ghost function Tagged(chunks: seq<Chunk>, documentId: string): (r: seq<Chunk>)
    ensures |r| == |chunks|
    ensures forall i :: 0 <= i < |r| ==>
              && Get(r[i].metadata, "chunk_index") == JInt(i)
              && Get(r[i].metadata, "document_id") == JStr(documentId)
              && r[i].pageContent == chunks[i].pageContent
              && r[i].metadata.Keys == chunks[i].metadata.Keys + {"document_id", "chunk_index"}
    ensures forall i, k :: 0 <= i < |r| && k in chunks[i].metadata && k != "document_id" && k != "chunk_index" ==>
              r[i].metadata[k] == chunks[i].metadata[k]
  {
    seq(|chunks|, i requires 0 <= i < |chunks| => TagChunk(chunks[i], documentId, i))
  }

  /** The vector table, to which ingestion appends. */
  class VectorStore {
    var rows: seq<Chunk>

    constructor ()
      ensures rows == []
    {
      rows := [];
    }

    /** `aadd_documents`: appends the chunks in order. */
    method AddDocuments(chunks: seq<Chunk>)
      modifies this
      ensures rows == old(rows) + chunks
    {
      rows := rows + chunks;
    }
  }

  /**
   * `ingest_pdf` after loading and splitting: tags each chunk in place with
   * its index and the document id, stores them all, and returns how many
   * there are.
   */
  method IngestPdf(chunks: array<Chunk>, documentId: string, store: VectorStore) returns (count: int)
    modifies chunks, store
    ensures chunks[..] == Tagged(old(chunks[..]), documentId)
    ensures store.rows == old(store.rows) + chunks[..]
    ensures count == chunks.Length
  {
    for index := 0 to chunks.Length
      invariant forall k :: 0 <= k < index ==> chunks[k] == TagChunk(old(chunks[k]), documentId, k)
      invariant forall k :: index <= k < chunks.Length ==> chunks[k] == old(chunks[k])
      invariant store.rows == old(store.rows)
    {
      chunks[index] := TagChunk(chunks[index], documentId, index);
    }
    store.AddDocuments(chunks[..]);
    count := chunks.Length;
  }

  /**
   * Ingestion and answering agree: the source built from the i-th stored
   * chunk of a document cites that document and index i.
   */
  lemma SourceOfTaggedChunk(chunks: seq<Chunk>, documentId: string, i: nat)
    requires i < |chunks|
    ensures SourceOf(Tagged(chunks, documentId)[i]).documentId == JStr(documentId)
    ensures SourceOf(Tagged(chunks, documentId)[i]).chunkIndex == JInt(i)
    ensures SourceOf(Tagged(chunks, documentId)[i]).content == Preview(chunks[i].pageContent)
  {
  }
}
