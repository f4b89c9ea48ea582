/** The memory server's tools over in-memory stand-ins for its two external services:
    the embedding service (reached by get_embedding) and the vector store's collection
    "texts_collection". */
module MemoryServer {
  import opened MemoryTypes
  import opened Embedding
  import opened ResultAssembly

  /** The store's nearest-neighbour search: its answer for the stored items, a query
      embedding and a requested result count. The metric and the search are the
      store's own, so the model takes any answer at all. */
  type NearestSearch = (seq<Item>, Vector, int) -> QueryResponse

  /** Ids drawn in sequence from the supply clash neither with each other nor with
      any id handed out earlier. */
  lemma SupplyIdsAreFresh(items: seq<Item>, ids: seq<Id>, first: Id)
    requires forall i :: 0 <= i < |items| ==> items[i].id < first
    requires forall k :: 0 <= k < |ids| ==> ids[k] == first + k
    ensures forall k, i :: 0 <= k < |ids| && 0 <= i < |items| ==> ids[k] != items[i].id
    ensures forall k, l :: 0 <= k < l < |ids| ==> ids[k] != ids[l]
  {
  }

  class Server {
    /** Stand-in for the embedding service, answering request number n. */
    const embeddingService: EmbeddingService
    /** Stand-in for the store's search. */
    const nearest: NearestSearch

    /** Every text sent to the embedding service, in order; its length numbers the requests. */
    var embedRequests: seq<string>
    /** The items of the collection, in the order they were added. */
    var items: seq<Item>
    /** The id supply standing in for uuid4: the next id it hands out. */
    var nextId: Id
    /** Every query the collection has served, in order. */
    ghost var queries: seq<QueryRequest>

    /** Ids come from the supply and no two items share one. */
    ghost predicate Valid()
      reads this`items, this`nextId
    {
      && (forall i :: 0 <= i < |items| ==> items[i].id < nextId)
      && (forall i, j :: 0 <= i < j < |items| ==> items[i].id != items[j].id)
    }

    constructor (embeddingService: EmbeddingService, nearest: NearestSearch)
      ensures Valid()
      ensures this.embeddingService == embeddingService && this.nearest == nearest
      ensures embedRequests == [] && items == [] && queries == []
    {
      this.embeddingService := embeddingService;
      this.nearest := nearest;
      embedRequests := [];
      items := [];
      nextId := 0;
      queries := [];
    }

    /** get_embedding: one request to the embedding service; None on any failure. */
    method GetEmbedding(text: string) returns (embedding: Option<Vector>)
      modifies this`embedRequests
      ensures embedding == embeddingService(|old(embedRequests)|, text)
      ensures embedRequests == old(embedRequests) + [text]
    {
      embedding := embeddingService(|embedRequests|, text);
      embedRequests := embedRequests + [text];
    }

    /** uuid4: an id that was never handed out before. */
    method NewId() returns (id: Id)
      modifies this`nextId
      ensures id == old(nextId) && nextId == old(nextId) + 1
    {
      id := nextId;
      nextId := nextId + 1;
    }

    /** One fresh id per text: n consecutive ids from the supply. */
    method NewIds(n: nat) returns (ids: seq<Id>)
      modifies this`nextId
      ensures |ids| == n && nextId == old(nextId) + n
      ensures forall k :: 0 <= k < n ==> ids[k] == old(nextId) + k
    {
      ids := [];
      while |ids| < n
        invariant |ids| <= n && nextId == old(nextId) + |ids|
        invariant forall k :: 0 <= k < |ids| ==> ids[k] == old(nextId) + k
      {
        var id := NewId();
        ids := ids + [id];
      }
    }

    /** collection.add with parallel lists: the items are appended in list order.
        The store refuses ids it already holds or that repeat within the call. */
    method Add(ids: seq<Id>, embeddings: seq<Vector>, documents: seq<string>, metadatas: seq<Metadata>)
      requires Valid()
      requires |ids| == |embeddings| == |documents| == |metadatas|
      requires forall k :: 0 <= k < |ids| ==> ids[k] < nextId
      requires forall k, i :: 0 <= k < |ids| && 0 <= i < |items| ==> ids[k] != items[i].id
      requires forall k, l :: 0 <= k < l < |ids| ==> ids[k] != ids[l]
      modifies this`items
      ensures Valid()
      ensures |items| == |old(items)| + |ids| && items[..|old(items)|] == old(items)
      ensures forall k :: |old(items)| <= k < |items| ==>
        var j := k - |old(items)|; items[k] == Item(ids[j], embeddings[j], documents[j], metadatas[j])
    {
      var added := seq(|ids|, k requires 0 <= k < |ids| =>
        Item(ids[k], embeddings[k], documents[k], metadatas[k]));
      items := items + added;
    }

    /** collection.query: the store's answer for one query embedding. */
    method Query(embedding: Vector, nResults: int) returns (response: QueryResponse)
      modifies this`queries
      ensures response == nearest(items, embedding, nResults)
      ensures queries == old(queries) + [QueryRequest(embedding, nResults)]
    {
      response := nearest(items, embedding, nResults);
      queries := queries + [QueryRequest(embedding, nResults)];
    }

    /** The write phase of memorize_multiple_texts: one fresh id per text, then a
        single add of the parallel id, embedding, document and metadata lists, the
        caller's metadata repeated once per text. */
    method StoreBatch(texts: seq<string>, embeddings: seq<Vector>, metadata: Metadata)
      requires Valid()
      requires |embeddings| == |texts|
      modifies this`items, this`nextId
      ensures Valid()
      ensures |items| == |old(items)| + |texts| && items[..|old(items)|] == old(items)
      ensures forall i :: 0 <= i < |texts| ==>
        items[|old(items)| + i] == Item(old(nextId) + i, embeddings[i], texts[i], metadata)
    {
      var ids := NewIds(|texts|);
      SupplyIdsAreFresh(items, ids, old(nextId));
      var metadatas := seq(|texts|, _ => metadata);
      ghost var before := items;
      Add(ids, embeddings, texts, metadatas);
      forall i | 0 <= i < |texts|
        ensures items[|before| + i] == Item(old(nextId) + i, embeddings[i], texts[i], metadata)
      {
        assert items[|before| + i] == Item(ids[i], embeddings[i], texts[i], metadatas[i]);
      }
    }

    /** memorize_multiple_texts: embed every text, stopping at the first failure with
        nothing written; otherwise add one item per text in a single call, the i-th
        carrying the i-th text, the i-th embedding, the shared metadata and a fresh id. */
    method MemorizeMultipleTexts(texts: seq<string>, metadata: Metadata := DefaultMetadata)
      returns (outcome: Outcome)
      requires Valid()
      modifies this
      ensures Valid()
      ensures queries == old(queries)
      ensures var batch := EmbedBatch(embeddingService, |old(embedRequests)|, texts);
        embedRequests == old(embedRequests) + texts[..RequestsSent(batch, texts)]
      ensures var batch := EmbedBatch(embeddingService, |old(embedRequests)|, texts);
        outcome == Stored <==> batch.Embedded?
      ensures var batch := EmbedBatch(embeddingService, |old(embedRequests)|, texts);
        batch.FailedAt? ==> items == old(items) && nextId == old(nextId)
      ensures var batch := EmbedBatch(embeddingService, |old(embedRequests)|, texts);
        batch.Embedded? ==>
          && |items| == |old(items)| + |texts|
          && items[..|old(items)|] == old(items)
          && forall i :: 0 <= i < |texts| ==>
               items[|old(items)| + i] == Item(old(nextId) + i, batch.vectors[i], texts[i], metadata)
    {
      ghost var start := |embedRequests|;
      var embeddings: seq<Vector> := [];
      var i := 0;
      while i < |texts|
        invariant 0 <= i <= |texts| && |embeddings| == i
        invariant embedRequests == old(embedRequests) + texts[..i]
        invariant forall j :: 0 <= j < i ==> embeddingService(start + j, texts[j]) == Some(embeddings[j])
        modifies this`embedRequests
      {
        var embedding := GetEmbedding(texts[i]);
        if embedding.None? {
          FailsAtFirstFailure(embeddingService, start, texts, i);
          assert texts[..i + 1] == texts[..i] + [texts[i]];
          return EmbeddingFailed;
        }
        embeddings := embeddings + [embedding.value];
        assert texts[..i + 1] == texts[..i] + [texts[i]];
        i := i + 1;
      }
      EmbedsWhenAllSucceed(embeddingService, start, texts, embeddings);
      assert texts[..|texts|] == texts;
      StoreBatch(texts, embeddings, metadata);
      outcome := Stored;
    }

    /** memorize_text: one embedding request; on failure nothing is written, otherwise
        exactly one item holding the text, its embedding, the metadata and a fresh id. */
    method MemorizeText(text: string, metadata: Metadata := DefaultMetadata) returns (outcome: Outcome)
      requires Valid()
      modifies this
      ensures Valid()
      ensures var embedding := embeddingService(|old(embedRequests)|, text);
        && embedRequests == old(embedRequests) + [text]
        && queries == old(queries)
        && (outcome == Stored <==> embedding.Some?)
        && (embedding.None? ==> items == old(items) && nextId == old(nextId))
        && (embedding.Some? ==> items == old(items) + [Item(old(nextId), embedding.value, text, metadata)])
    {
      var embedding := GetEmbedding(text);
      if embedding.None? {
        return EmbeddingFailed;
      }
      var id := NewId();
      ghost var before := items;
      Add([id], [embedding.value], [text], [metadata]);
      assert items == before + [Item(id, embedding.value, text, metadata)];
      outcome := Stored;
    }

    /** remember_similar_texts: embed the query; on failure report so without
        querying the store; otherwise ask the store once and report its answer. */
    method RememberSimilarTexts(queryText: string, nResults: int := 5) returns (report: Report)
      modifies this`embedRequests, this`queries
      ensures embedRequests == old(embedRequests) + [queryText]
      ensures var embedding := embeddingService(|old(embedRequests)|, queryText);
        && (embedding.None? ==> report == QueryFailed && queries == old(queries))
        && (embedding.Some? ==>
              && queries == old(queries) + [QueryRequest(embedding.value, nResults)]
              && report == ReportFor(nearest(items, embedding.value, nResults)))
    {
      var embedding := GetEmbedding(queryText);
      if embedding.None? {
        return QueryFailed;
      }
      var response := Query(embedding.value, nResults);
      report := RenderResults(response);
    }
  }
}
