# Semantic memory server: a Dafny model of its tools

The server gives an agent three tools over a vector store: `memorize_text`,
`memorize_multiple_texts` and `remember_similar_texts`. The texts are turned into
embedding vectors by an embedding service, stored with their metadata in the
collection `texts_collection`, and later retrieved by similarity to a query. Each
result gets a relevance label derived from its distance.

This project models the decision logic of those tools in `main.py`. Both external
services are replaced by in-memory stand-ins, held in the class `MemoryServer.Server`:

- the embedding service is a function from (request number, text) to an optional
  vector. Its answer may depend on the request number, so the same text can embed
  once and fail on a later call. `embedRequests` records every text sent to it.
- the collection is the sequence `items` of `(id, embedding, document, metadata)`
  records. `Add` appends to it. `Query` returns the store's answer, which is an
  arbitrary function of the items, the query vector and the result count. The
  ghost log `queries` records every query served.
- `uuid4` is a counter, `nextId`. Ids never repeat, and `Valid()` keeps every stored
  id below the counter and distinct.

Files:
- `types.dfy` (`MemoryTypes`): vectors, metadata, items, the store's answer, the
  memorisation outcome and its messages.
- `embedding.dfy` (`Embedding`): the fail-fast batch embedding, `EmbedBatch`.
- `banding.dfy` (`Banding`): the four relevance bands with thresholds 0.2, 0.5 and 0.8.
- `results.dfy` (`ResultAssembly`): the result blocks and the report.
- `server.dfy` (`MemoryServer`): the class and the three tools.

Two choices follow `main.py` as written:
- The bands use the thresholds 0.2 / 0.5 / 0.8.
- "No results" is decided on the documents list only. When the store returns
  documents but no distances, `zip` yields no pairs, and the code returns an empty
  report rather than "No similar texts found.". The model keeps this as
  `Results([])`.
- A failed `add` is not modelled (see "Left out").

## Model

| member | source | states |
|---|---|---|
| `MemoryTypes.MessagesDistinguishOutcomes` | main.py:58-96 | the success and embedding-failure messages of each memorisation tool differ, so a caller can tell the outcomes apart from the text alone |
| `Embedding.EmbedBatch` | main.py:53-59 | embedding a batch either yields one vector per text, the i-th being the service's answer to the i-th request, or stops at an index whose request failed while every earlier request succeeded |
| `Embedding.FailsAtFirstFailure` | main.py:55-58 | when text i is the first whose request fails, the batch stops exactly at i |
| `Embedding.EmbedsWhenAllSucceed` | main.py:55-59 | when every request succeeds, the batch yields exactly the returned vectors, in text order |
| `Embedding.EmbeddedIffAllSucceed` | main.py:55-59 | a batch succeeds if and only if every request in it succeeds |
| `Embedding.FailureIgnoresLaterTexts` | main.py:55-58 | once a batch has failed, appending more texts does not change its outcome, even texts that would embed |
| `Embedding.SingleTextBatch` | main.py:85-87 | a batch of one text is one request: it fails at index 0 on a failed embedding and otherwise yields that single vector |
| `Banding.Band` | main.py:129-136 | every distance gets a label, and the distance lies in that label's half-open interval: below 0.2, [0.2, 0.5), [0.5, 0.8), or at least 0.8 |
| `Banding.BandExact` | main.py:129-136 | a distance gets a label if and only if it lies in that label's interval, so the bands neither overlap nor leave gaps |
| `Banding.BandMonotone` | main.py:129-136 | a smaller or equal distance never gets a less relevant label than a larger one |
| `ResultAssembly.ResultBlocks` | main.py:128-137 | one block per pair of zip(texts, distances), i.e. as many as the shorter list; block i holds the i-th text, the i-th distance and its band, and has rank first + i |
| `ResultAssembly.RenderResults` | main.py:124-138 | an empty document list gives "no results"; otherwise the loop builds the blocks of the zipped pairs in received order, ranked 1, 2, ..., n |
| `ResultAssembly.ReportFor` | main.py:124-138 | the report for a store answer: "no results" exactly when the document list is empty; otherwise min(len) blocks whose i-th holds the i-th document at rank i + 1 |
| `ResultAssembly.ReportMessagesDiffer` | main.py:115-125 | the fixed messages of a failed query embedding and of an empty answer (`Report.Message`) differ |
| `ResultAssembly.RelevanceFollowsRank` | main.py:117-136 | when the store answers in ascending distance, labels never become more relevant further down the report |
| `MemoryServer.Server.constructor` | main.py:50-52 | a freshly created collection is empty, and neither service has been called yet |
| `MemoryServer.Server.GetEmbedding` | main.py:13-30 | one request to the embedding service; the result is the service's answer to that request, None on failure |
| `MemoryServer.Server.NewId` | main.py:89 | hands out an id never handed out before and advances the supply |
| `MemoryServer.Server.NewIds` | main.py:62 | one fresh id per text: n consecutive, pairwise distinct ids from the supply |
| `MemoryServer.Server.Add` | main.py:63-68 | the parallel id, embedding, document and metadata lists are appended as items, in list order; earlier items are untouched and ids stay distinct |
| `MemoryServer.Server.Query` | main.py:117-121 | returns the store's answer for the current items and records exactly one query |
| `MemoryServer.Server.StoreBatch` | main.py:61-68 | adds exactly one item per text, in order: item i has a fresh id, the i-th embedding, the i-th text and the one metadata value given to the call |
| `MemoryServer.Server.MemorizeMultipleTexts` | main.py:42-71 | sends texts up to and including the first failure; on a failure nothing is added and the id supply is unchanged; on success, exactly len(texts) items are added, item i holding texts[i], the i-th embedding, the shared metadata and a fresh distinct id; the store is never queried |
| `MemoryServer.Server.MemorizeText` | main.py:74-98 | one embedding request; on failure nothing is added; on success exactly one item is appended, holding the text, its embedding, the metadata and a fresh id |
| `MemoryServer.Server.RememberSimilarTexts` | main.py:102-138 | one embedding request; if it fails, the report is the query failure and the store is not queried; otherwise exactly one query is made with the embedding and n_results, and the report is built from the store's answer; the collection is unchanged |

## Left out

- The embedding service's HTTP request, JSON decoding and error printing (main.py:21-30) are left out because they are network I/O. The service is a function parameter, and None stands for every failure.
- The ChromaDB client and `get_or_create_collection` (main.py:50-52, 82-84, 111-113) are left out because they belong to a foreign library. The in-memory `Server` stands in for the collection.
- The store's nearest-neighbour search and its distance metric are left out because the store owns them. The store's answer is an arbitrary function of the items, the query and the count. For the same reason, no property says that querying an identical text ranks it first.
- MemoryServer.Server.RememberSimilarTexts: the exception path of `collection.query` (main.py:117-121) is not modelled. The source does not catch it, so a store error (for instance a rejected `n_results` of 0 or less) ends the tool with an uncaught exception. In the model `Query` always returns, and any `nResults` is passed through.
- Banding.Band: distances are modelled as reals, not Python floats. For every finite float the comparisons give the same answer. 0.5 is exact as a float, and no float lies strictly between 1/5 and the float nearest 0.2, nor between 4/5 and the float nearest 0.8. A NaN distance is not modelled; it fails all three `<` tests, so the source labels it "Not very relevant".
- The store's answer is taken as its first row of documents and distances. The `results.get(..., [[]])[0]` defaulting is not modelled.
- `MemoryServer.Server.MemorizeMultipleTexts`: the exception path of `collection.add` (main.py:70-71) is not modelled, because the store's atomicity is unknown. `Add` always succeeds. In particular, a store that rejects an empty batch would make an empty `texts` fail, while the model reports `Stored` and adds nothing.
- `MemoryServer.Server.MemorizeText`: the exception path of `collection.add` (main.py:97-98) is not modelled, for the same reason.
- `uuid4` randomness is replaced by a counter. Uniqueness of ids, which the source relies on, then holds by construction.
- The report's text is not rendered. That covers the "Result i: ..." lines, the `:.4f` distance formatting and the joining of blocks (main.py:137-138), which are floating-point rendering. The report keeps the structured `(rank, text, label, distance)` blocks.
- Python shares one metadata dictionary object among a batch's items and across calls (the mutable default argument). The aliasing is not modelled, because Dafny maps are values.
- `greet_user`, tool registration, the port environment variables and `mcp.run()` (main.py:8-11, 32-39, 140-141) are left out as glue.
- A PDF ingestion tool is not part of this model, because `main.py` does not contain one.
- Concurrent calls are left out. Each tool is modelled as one atomic call on the server state.
