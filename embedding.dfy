/** The embedding step shared by the memorisation tools: texts are sent to the
    embedding service one at a time, and the first failed request ends the batch. */
module Embedding {
  import opened MemoryTypes

  /** The embedding service's answer to the n-th request (counted from server start)
      for a given text; None stands for every way get_embedding can fail (transport
      error, non-success status, missing "embedding" field). Because the answer may
      depend on n, the same text can succeed once and fail later. */
  type EmbeddingService = (nat, string) -> Option<Vector>

  /** What embedding a batch yields: every vector in order, or the index of the
      text whose request failed first. */
  datatype BatchEmbedding = Embedded(vectors: seq<Vector>) | FailedAt(index: nat)

  /** Embedding `texts` when the first of them is the service's request number `start`.
      Either every text is embedded, in order, or the batch stops at the first
      text whose request fails, every earlier request having succeeded. */
  function EmbedBatch(service: EmbeddingService, start: nat, texts: seq<string>): (r: BatchEmbedding)
    ensures r.Embedded? ==>
      && |r.vectors| == |texts|
      && forall i :: 0 <= i < |texts| ==> service(start + i, texts[i]) == Some(r.vectors[i])
    ensures r.FailedAt? ==>
      && r.index < |texts|
      && service(start + r.index, texts[r.index]).None?
      && forall i :: 0 <= i < r.index ==> service(start + i, texts[i]).Some?
    decreases |texts|
  {
    if texts == [] then Embedded([])
    else
      match service(start, texts[0])
      case None => FailedAt(0)
      case Some(v) =>
        match EmbedBatch(service, start + 1, texts[1..])
        case Embedded(vs) => Embedded([v] + vs)
        case FailedAt(k) => FailedAt(k + 1)
  }

  /** Number of requests a batch sends to the embedding service: all of them, or
      those up to and including the first failure. */
  function RequestsSent(b: BatchEmbedding, texts: seq<string>): nat {
    match b
    case Embedded(_) => |texts|
    case FailedAt(k) => k + 1
  }

  /** The batch stops at text i when its request is the first that fails. */
  lemma {:induction false} FailsAtFirstFailure(service: EmbeddingService, start: nat, texts: seq<string>, i: nat)
    requires i < |texts| && service(start + i, texts[i]).None?
    requires forall j :: 0 <= j < i ==> service(start + j, texts[j]).Some?
    ensures EmbedBatch(service, start, texts) == FailedAt(i)
  {
  }

  /** The batch yields exactly the vectors its requests returned when all succeed. */
  lemma {:induction false} EmbedsWhenAllSucceed(service: EmbeddingService, start: nat, texts: seq<string>,
                                                vectors: seq<Vector>)
    requires |vectors| == |texts|
    requires forall j :: 0 <= j < |texts| ==> service(start + j, texts[j]) == Some(vectors[j])
    ensures EmbedBatch(service, start, texts) == Embedded(vectors)
  {
  }

  /** The batch succeeds exactly when every request in it succeeds. */
  lemma EmbeddedIffAllSucceed(service: EmbeddingService, start: nat, texts: seq<string>)
    ensures EmbedBatch(service, start, texts).Embedded? <==>
      forall i :: 0 <= i < |texts| ==> service(start + i, texts[i]).Some?
  {
  }

  /** Fail fast: once a batch has failed, texts after it change nothing, even
      those that would have embedded successfully. */
  lemma {:induction false} FailureIgnoresLaterTexts(service: EmbeddingService, start: nat,
                                                    texts: seq<string>, later: seq<string>)
    requires EmbedBatch(service, start, texts).FailedAt?
    ensures EmbedBatch(service, start, texts + later) == EmbedBatch(service, start, texts)
    decreases |texts|
  {
    assert texts != [];
    assert (texts + later)[0] == texts[0];
    if service(start, texts[0]).Some? {
      assert (texts + later)[1..] == texts[1..] + later;
      FailureIgnoresLaterTexts(service, start + 1, texts[1..], later);
    }
  }

  /** A batch of one text is a single request: memorize_text is the batch tool's
      one-text case. */
  lemma SingleTextBatch(service: EmbeddingService, start: nat, text: string)
    ensures EmbedBatch(service, start, [text]) ==
      match service(start, text)
      case None => FailedAt(0)
      case Some(v) => Embedded([v])
  {
  }
}
