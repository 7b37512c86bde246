/** The four-bucket risk classifier applied to the death probability
    (a percentage) that the scoring handler reports. */
module RiskLevels {

  datatype Level = Low | Moderate | High | Critical {

    /** The `level` string of the response. */
    function Name(): string {
      match this
      case Low => "Low"
      case Moderate => "Moderate"
      case High => "High"
      case Critical => "Critical"
    }

    /** The display colour tag; High and Critical share "danger". */
    function Color(): string {
      match this
      case Low => "success"
      case Moderate => "warning"
      case High => "danger"
      case Critical => "danger"
    }

    function Description(): string {
      match this
      case Low => "Low risk of heart failure complications"
      case Moderate => "Moderate risk - monitor closely"
      case High => "High risk - immediate medical attention recommended"
      case Critical => "Critical risk - urgent medical intervention required"
    }

    /** Position of the bucket in increasing order of risk. */
    function Rank(): nat {
      match this
      case Low => 0
      case Moderate => 1
      case High => 2
      case Critical => 3
    }
  }

  /** The record returned for one death probability. */
  datatype RiskLevel = RiskLevel(level: Level, color: string, description: string)

  /** The lower bounds of Moderate, High and Critical, in increasing order. */
  const Thresholds: seq<real> := [20.0, 40.0, 60.0]

  /** Maps a death probability to its bucket. Every comparison is a strict
      `<`, so a boundary value lands in the upper bucket, and there is no
      upper bound: anything from 60 on (100 and above included) is Critical. */
  function GetRiskLevel(deathProbability: real): (r: RiskLevel)
    ensures r.level == Low <==> deathProbability < 20.0
    ensures r.level == Moderate <==> 20.0 <= deathProbability < 40.0
    ensures r.level == High <==> 40.0 <= deathProbability < 60.0
    ensures r.level == Critical <==> 60.0 <= deathProbability
    ensures r.color == r.level.Color() && r.description == r.level.Description()
  {
    if deathProbability < 20.0 then
      RiskLevel(Low, Low.Color(), Low.Description())
    else if deathProbability < 40.0 then
      RiskLevel(Moderate, Moderate.Color(), Moderate.Description())
    else if deathProbability < 60.0 then
      RiskLevel(High, High.Color(), High.Description())
    else
      RiskLevel(Critical, Critical.Color(), Critical.Description())
  }

  /** Reference definition of the bucket: how many thresholds p has reached. */
  function Reached(ts: seq<real>, p: real): (n: nat)
    ensures n <= |ts|
  {
    if ts == [] then 0
    else (if ts[0] <= p then 1 else 0) + Reached(ts[1..], p)
  }

  /** Reaching a threshold is monotone in p, for any list of thresholds. */
  lemma {:induction false} ReachedMonotone(ts: seq<real>, p: real, q: real)
    requires p <= q
    ensures Reached(ts, p) <= Reached(ts, q)
  {
    if ts != [] {
      ReachedMonotone(ts[1..], p, q);
    }
  }

  /** The bucket's rank is the number of thresholds the probability has
      reached: the if/elif chain agrees with the threshold table. */
  lemma RankCountsThresholds(p: real)
    ensures GetRiskLevel(p).level.Rank() == Reached(Thresholds, p)
  {
    assert Thresholds[1..] == [40.0, 60.0];
    assert [40.0, 60.0][1..] == [60.0];
    assert [60.0][1..] == [];
    assert Reached([60.0], p) == if 60.0 <= p then 1 else 0;
    assert Reached([40.0, 60.0], p) == (if 40.0 <= p then 1 else 0) + Reached([60.0], p);
  }

  /** A higher death probability never yields a lower risk bucket. */
  lemma RiskMonotone(p: real, q: real)
    requires p <= q
    ensures GetRiskLevel(p).level.Rank() <= GetRiskLevel(q).level.Rank()
  {
    RankCountsThresholds(p);
    RankCountsThresholds(q);
    ReachedMonotone(Thresholds, p, q);
  }

  /** The colour tag depends only on the bucket: success below 20, warning
      from 20 below 40, danger from 40 on. */
  lemma ColorTags(p: real)
    ensures GetRiskLevel(p).color == "success" <==> p < 20.0
    ensures GetRiskLevel(p).color == "warning" <==> 20.0 <= p < 40.0
    ensures GetRiskLevel(p).color == "danger" <==> 40.0 <= p
  {
  }

  /** The boundary values fall into the upper bucket; 0 and 100 are Low and
      Critical. */
  lemma Boundaries()
    ensures GetRiskLevel(0.0).level == Low
    ensures GetRiskLevel(20.0).level == Moderate
    ensures GetRiskLevel(40.0).level == High
    ensures GetRiskLevel(60.0).level == Critical
    ensures GetRiskLevel(100.0).level == Critical
  {
  }

  /** The four classifications the unit tests pin down. */
  lemma TestedLevels()
    ensures GetRiskLevel(15.0).level.Name() == "Low" && GetRiskLevel(15.0).color == "success"
    ensures GetRiskLevel(35.0).level.Name() == "Moderate" && GetRiskLevel(35.0).color == "warning"
    ensures GetRiskLevel(55.0).level.Name() == "High" && GetRiskLevel(55.0).color == "danger"
    ensures GetRiskLevel(75.0).level.Name() == "Critical" && GetRiskLevel(75.0).color == "danger"
  {
  }
}
