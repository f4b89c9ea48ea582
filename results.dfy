/** Turning the store's answer into the report of remember_similar_texts: one block
    per (document, distance) pair, ranked from 1 in the order received. */
module ResultAssembly {
  import opened MemoryTypes
  import opened Banding

  /** One result block: its rank, the document, its relevance label and its
      distance (the source prints the distance to four decimals). */
  datatype Block = Block(rank: nat, text: string, relevance: Relevance, distance: real)

  /** What remember_similar_texts reports. */
  datatype Report =
    | QueryFailed              // the query text could not be embedded
    | NoResults                // the store returned no documents
    | Results(blocks: seq<Block>)
  {
    /** The fixed message of the two outcomes that carry no blocks. */
    function Message(): string
      requires !Results?
    {
      match this
      case QueryFailed => "Could not process the query due to an error."
      case NoResults => "No similar texts found."
    }
  }

  function Min(a: nat, b: nat): nat {
    if a <= b then a else b
  }

  /** The blocks for the pairs of zip(texts, distances), ranks counted from `first`:
      as many blocks as the shorter list has entries, the i-th block built from the
      i-th pair and ranked first + i. */
  function ResultBlocks(first: nat, texts: seq<string>, distances: seq<real>): (r: seq<Block>)
    ensures |r| == Min(|texts|, |distances|)
    ensures forall i :: 0 <= i < |r| ==>
      r[i] == Block(first + i, texts[i], Band(distances[i]), distances[i])
    decreases |texts|
  {
    if texts == [] || distances == [] then []
    else [Block(first, texts[0], Band(distances[0]), distances[0])]
         + ResultBlocks(first + 1, texts[1..], distances[1..])
  }

  /** The report for a store answer: no documents means "no results"; otherwise the
      blocks for the answer, ranked from 1. */
  function ReportFor(response: QueryResponse): (r: Report)
    ensures !r.QueryFailed?
    ensures r.NoResults? <==> response.documents == []
    ensures r.Results? ==>
      && |r.blocks| == Min(|response.documents|, |response.distances|)
      && forall i :: 0 <= i < |r.blocks| ==> r.blocks[i].rank == i + 1 && r.blocks[i].text == response.documents[i]
  {
    if response.documents == [] then NoResults
    else Results(ResultBlocks(1, response.documents, response.distances))
  }

  /** The loop of remember_similar_texts that appends one block per pair. */
  method RenderResults(response: QueryResponse) returns (report: Report)
    ensures report == ReportFor(response)
    ensures report.NoResults? <==> response.documents == []
    ensures report.Results? ==>
      && |report.blocks| == Min(|response.documents|, |response.distances|)
      && forall i :: 0 <= i < |report.blocks| ==> report.blocks[i].rank == i + 1
  {
    var texts, distances := response.documents, response.distances;
    if texts == [] {
      return NoResults;
    }
    var n := Min(|texts|, |distances|);
    var blocks: seq<Block> := [];
    var i := 0;
    while i < n
      invariant 0 <= i <= n
      invariant |blocks| == i
      invariant forall j :: 0 <= j < i ==>
        blocks[j] == Block(j + 1, texts[j], Band(distances[j]), distances[j])
    {
      var distance := distances[i];
      var relevance: Relevance;
      if distance < Threshold1 {
        relevance := Highly;
      } else if distance < Threshold2 {
        relevance := Somewhat;
      } else if distance < Threshold3 {
        relevance := Slightly;
      } else {
        relevance := NotVery;
      }
      blocks := blocks + [Block(i + 1, texts[i], relevance, distance)];
      i := i + 1;
    }
    report := Results(blocks);
    assert blocks == ResultBlocks(1, texts, distances);
  }

  predicate Ascending(distances: seq<real>) {
    forall i, j :: 0 <= i < j < |distances| ==> distances[i] <= distances[j]
  }

  /** The store answers in ascending distance, so down the report the labels never
      become more relevant. */
  lemma RelevanceFollowsRank(response: QueryResponse)
    requires Ascending(response.distances)
    requires ReportFor(response).Results?
    ensures var blocks := ReportFor(response).blocks;
      forall i, j :: 0 <= i < j < |blocks| ==> blocks[i].relevance.Rank() <= blocks[j].relevance.Rank()
  {
    var blocks := ReportFor(response).blocks;
    forall i, j | 0 <= i < j < |blocks|
      ensures blocks[i].relevance.Rank() <= blocks[j].relevance.Rank()
    {
      BandMonotone(response.distances[i], response.distances[j]);
    }
  }

  /** The two reports without blocks are told apart by their messages: a failed
      query embedding is not reported as an empty result. */
  lemma ReportMessagesDiffer(a: Report, b: Report)
    requires !a.Results? && !b.Results? && a != b
    ensures a.Message() != b.Message()
  {
  }
}
