/** The score classifier of the dashboard (app.py, get_detailed_prediction): a health
    score, any real number, is mapped to three labels by thresholds checked from the
    highest tier down, each lower bound inclusive and with no clamping. */
module Classifier {

  /** The three labels shown for a score: remaining life, recommended load, suitability. */
  datatype Bands = Bands(remLife: string, recLoad: string, suitability: string)

  const Excellent := Bands("2 - 3 Years", "High (Up to 500W)", "Excellent (Solar/UPS/EV)")
  const Good := Bands("1 - 2 Years", "Medium (Up to 150W)", "Good (LED/Fans/Small Electronics)")
  const Fair := Bands("6 Months - 1 Year", "Low (Below 50W)", "Fair (Emergency backup only)")
  const Critical := Bands("0 Months", "No Load (Recycle)", "Critical (Not safe for use)")

  /** The four tiers, worst first: the index of a tier is its rank. */
  const Tiers: seq<Bands> := [Critical, Fair, Good, Excellent]

  /** The inclusive lower bounds of Fair, Good and Excellent, in increasing order. */
  const Thresholds: seq<real> := [30.0, 50.0, 80.0]

  /** The classifier as the dashboard writes it: first matching tier, highest first. */
  function GetDetailedPrediction(score: real): (b: Bands)
    ensures b in Tiers
  {
    if score >= 80.0 then Excellent
    else if score >= 50.0 then Good
    else if score >= 30.0 then Fair
    else Critical
  }

  /** How many of the bounds in ts the score reaches. */
  function Met(score: real, ts: seq<real>): (n: nat)
    ensures n <= |ts|
  {
    if ts == [] then 0 else (if score >= ts[0] then 1 else 0) + Met(score, ts[1..])
  }

  /** Reference rank of a score, independent of the if-cascade: the number of tier
      bounds it reaches (0 is Critical, 3 is Excellent). */
  function Grade(score: real): (g: nat)
    ensures g < |Tiers|
  {
    Met(score, Thresholds)
  }

  /** The rank of a tier: its position in Tiers. */
  function Rank(b: Bands): (r: nat)
    requires b in Tiers
    ensures r < |Tiers| && Tiers[r] == b
  {
    if b == Critical then 0 else if b == Fair then 1 else if b == Good then 2 else 3
  }

  /** The four tiers differ in every label, so any one label identifies the tier and a
      score yields exactly one of the four triples. */
  lemma TiersDistinct()
    ensures forall i, j :: 0 <= i < j < |Tiers| ==>
      Tiers[i].remLife != Tiers[j].remLife &&
      Tiers[i].recLoad != Tiers[j].recLoad &&
      Tiers[i].suitability != Tiers[j].suitability
  {
  }

  /** Each tier is taken exactly on its half-open score range: boundaries 30, 50 and 80
      belong to the higher tier, anything above 100 is still Excellent and anything
      below 30, negative scores included, is Critical. */
  lemma TierRanges(score: real)
    ensures GetDetailedPrediction(score) == Excellent <==> score >= 80.0
    ensures GetDetailedPrediction(score) == Good <==> 50.0 <= score < 80.0
    ensures GetDetailedPrediction(score) == Fair <==> 30.0 <= score < 50.0
    ensures GetDetailedPrediction(score) == Critical <==> score < 30.0
  {
  }

  /** The classifier picks the tier whose rank is the number of bounds reached. */
  lemma ClassifierAgreesWithGrade(score: real)
    ensures Rank(GetDetailedPrediction(score)) == Grade(score)
    ensures GetDetailedPrediction(score) == Tiers[Grade(score)]
  {
    TiersDistinct();
    var t1, t2, t3 := Thresholds[1..], Thresholds[2..], Thresholds[3..];
    assert t1[1..] == t2 && t2[1..] == t3 && t3 == [];
    assert Met(score, t3) == 0;
    assert Met(score, t2) == if score >= 80.0 then 1 else 0;
    assert Met(score, t1) == (if score >= 50.0 then 1 else 0) + Met(score, t2);
  }

  lemma {:induction false} MetMonotone(s1: real, s2: real, ts: seq<real>)
    requires s1 <= s2
    ensures Met(s1, ts) <= Met(s2, ts)
  {
    if ts != [] {
      MetMonotone(s1, s2, ts[1..]);
    }
  }

  /** A higher score never gets a worse tier. */
  lemma ClassifierMonotone(s1: real, s2: real)
    requires s1 <= s2
    ensures Rank(GetDetailedPrediction(s1)) <= Rank(GetDetailedPrediction(s2))
  {
    ClassifierAgreesWithGrade(s1);
    ClassifierAgreesWithGrade(s2);
    MetMonotone(s1, s2, Thresholds);
  }
}
