/** The qualitative rating the calculator shows beside a score: four tiers,
    each with a fixed label and a fixed text colour, chosen by the thresholds
    0.8, 1.5 and 2.0 tried in order. */
module Rating {

  /** The four tiers, from worst to best. */
  datatype Tier = VeryBad | SoSo | Good | Great

  /** Position of a tier in the order worst (0) to best (3). */
  function Rank(t: Tier): nat
  {
    match t
    case VeryBad => 0
    case SoSo => 1
    case Good => 2
    case Great => 3
  }

  /** The label the calculator shows for a tier; each label names exactly one tier. */
  function Label(t: Tier): (s: string)
    ensures s == "很惨" <==> t == VeryBad
    ensures s == "一般" <==> t == SoSo
    ensures s == "不错" <==> t == Good
    ensures s == "很爽" <==> t == Great
  {
    match t
    case VeryBad => "很惨"
    case SoSo => "一般"
    case Good => "不错"
    case Great => "很爽"
  }

  /** The text colour the calculator shows for a tier; each colour names exactly one tier. */
  function Colour(t: Tier): (c: string)
    ensures c == "text-red-500" <==> t == VeryBad
    ensures c == "text-yellow-500" <==> t == SoSo
    ensures c == "text-blue-500" <==> t == Good
    ensures c == "text-green-500" <==> t == Great
  {
    match t
    case VeryBad => "text-red-500"
    case SoSo => "text-yellow-500"
    case Good => "text-blue-500"
    case Great => "text-green-500"
  }

  /** The tier of a score. The chain of strict comparisons splits the real line
      into four half-open intervals, so each boundary value belongs to the
      higher tier. */
  function Classify(v: real): (t: Tier)
    ensures t == VeryBad <==> v < 0.8
    ensures t == SoSo <==> 0.8 <= v < 1.5
    ensures t == Good <==> 1.5 <= v < 2.0
    ensures t == Great <==> 2.0 <= v
  {
    if v < 0.8 then VeryBad
    else if v < 1.5 then SoSo
    else if v < 2.0 then Good
    else Great
  }

  /** The thresholds a score must reach to climb one tier. */
  const Thresholds: set<real> := {0.8, 1.5, 2.0}

  /** Reference definition of the rating: how many thresholds a score has reached. */
  function Reached(v: real): set<real>
  {
    set t | t in Thresholds && t <= v
  }

  /** The tier Classify picks is exactly the number of thresholds the score has reached. */
  lemma ClassifyCountsThresholds(v: real)
    ensures Rank(Classify(v)) == |Reached(v)|
  {
    if v < 0.8 {
      assert Reached(v) == {};
    } else if v < 1.5 {
      assert Reached(v) == {0.8};
    } else if v < 2.0 {
      assert Reached(v) == {0.8, 1.5};
    } else {
      assert Reached(v) == Thresholds;
    }
  }

  /** A larger score never gets a lower tier. */
  lemma ClassifyMonotone(v: real, w: real)
    requires v <= w
    ensures Rank(Classify(v)) <= Rank(Classify(w))
  {
    ClassifyCountsThresholds(v);
    ClassifyCountsThresholds(w);
    assert Reached(v) <= Reached(w);
    SubsetCardinality(Reached(v), Reached(w));
  }

  lemma SubsetCardinality(a: set<real>, b: set<real>)
    requires a <= b
    ensures |a| <= |b|
  {
    assert b == a + (b - a);
  }

  /** Labels and colours identify their tier: no two tiers share a label or a
      colour, so each label comes with exactly one colour. */
  lemma LabelsAndColoursDistinct(t: Tier, u: Tier)
    ensures Label(t) == Label(u) <==> t == u
    ensures Colour(t) == Colour(u) <==> t == u
  {
  }

  /** The boundary values each fall in the higher tier. */
  lemma Boundaries()
    ensures Classify(0.8) == SoSo && Classify(1.5) == Good && Classify(2.0) == Great
    ensures Label(Classify(0.8)) == "一般" && Label(Classify(1.5)) == "不错" && Label(Classify(2.0)) == "很爽"
  {
  }
}
