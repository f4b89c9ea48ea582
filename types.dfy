/** Values shared by the memory server's tools: embeddings, metadata, stored items,
    the store's query answers and the status of a memorisation call. */
module MemoryTypes {

  datatype Option<+T> = None | Some(value: T)

  /** An embedding vector as the embedding service returns it. Only its identity
      matters to the tools; no arithmetic is done on its components. */
  type Vector = seq<real>

  /** A metadata value: the scalar kinds the vector store accepts. */
  datatype Scalar = Str(s: string) | Int(i: int) | Float(f: real) | Bool(b: bool)

  type Metadata = map<string, Scalar>

  /** The metadata both memorisation tools use when the caller gives none. */
  const DefaultMetadata: Metadata := map["topic" := Str("memory")]

  /** Identifier of a stored item. The source draws a random UUID per item; the model
      draws from a counter, which makes "never repeats" hold by construction. */
  type Id = nat

  /** One memorised text as the collection holds it. */
  datatype Item = Item(id: Id, embedding: Vector, document: string, metadata: Metadata)

  /** A nearest-neighbour request the collection has served. */
  datatype QueryRequest = QueryRequest(embedding: Vector, nResults: int)

  /** The first (and only) row of the store's answer to one query embedding:
      the matched documents and their distances. */
  datatype QueryResponse = QueryResponse(documents: seq<string>, distances: seq<real>)

  /** How a memorisation call ended. */
  datatype Outcome = Stored | EmbeddingFailed
  {
    /** The message memorize_multiple_texts returns. */
    function BatchMessage(): string {
      match this
      case Stored => "All texts stored successfully."
      case EmbeddingFailed => "One or more texts were not stored due to an error with embedding."
    }

    /** The message memorize_text returns. */
    function SingleMessage(): string {
      match this
      case Stored => "Text stored successfully."
      case EmbeddingFailed => "Text was not stored due to an error with embedding."
    }
  }

  /** Callers tell the outcomes apart by message text only, so the texts must differ. */
  lemma MessagesDistinguishOutcomes(a: Outcome, b: Outcome)
    requires a != b
    ensures a.BatchMessage() != b.BatchMessage()
    ensures a.SingleMessage() != b.SingleMessage()
  {
  }
}
