/** The relevance label remember_similar_texts attaches to a distance. */
module Banding {
  import opened MemoryTypes

  /** The four labels, from most to least relevant. */
  datatype Relevance = Highly | Somewhat | Slightly | NotVery
  {
    /** The label as the report prints it. */
    function Label(): string {
      match this
      case Highly => "Highly relevant"
      case Somewhat => "Somewhat relevant"
      case Slightly => "Slightly relevant"
      case NotVery => "Not very relevant"
    }

    /** Position in the order Highly > Somewhat > Slightly > NotVery; lower is more relevant. */
    function Rank(): nat {
      match this
      case Highly => 0
      case Somewhat => 1
      case Slightly => 2
      case NotVery => 3
    }
  }

  /** The band thresholds, in increasing order. */
  const Threshold1: real := 0.2
  const Threshold2: real := 0.5
  const Threshold3: real := 0.8

  /** Least distance of a band; the most relevant band has none. */
  function Floor(b: Relevance): Option<real> {
    match b
    case Highly => None
    case Somewhat => Some(Threshold1)
    case Slightly => Some(Threshold2)
    case NotVery => Some(Threshold3)
  }

  /** Distance a band stays strictly below; the least relevant band has none. */
  function Ceiling(b: Relevance): Option<real> {
    match b
    case Highly => Some(Threshold1)
    case Somewhat => Some(Threshold2)
    case Slightly => Some(Threshold3)
    case NotVery => None
  }

  /** Distance d lies in the half-open interval [Floor(b), Ceiling(b)). */
  predicate InBand(d: real, b: Relevance) {
    && (Floor(b).Some? ==> Floor(b).value <= d)
    && (Ceiling(b).Some? ==> d < Ceiling(b).value)
  }

  /** The label for a distance: the chain of comparisons against 0.2, 0.5 and 0.8.
      Every distance gets a label, and it is the band whose interval holds it. */
  function Band(d: real): (r: Relevance)
    ensures InBand(d, r)
  {
    if d < Threshold1 then Highly
    else if d < Threshold2 then Somewhat
    else if d < Threshold3 then Slightly
    else NotVery
  }

  /** The bands do not overlap: a distance in a band's interval gets that band. */
  lemma BandExact(d: real, b: Relevance)
    ensures Band(d) == b <==> InBand(d, b)
  {
  }

  /** A smaller distance is never labelled less relevant than a larger one. */
  lemma BandMonotone(d1: real, d2: real)
    requires d1 <= d2
    ensures Band(d1).Rank() <= Band(d2).Rank()
  {
  }
}
