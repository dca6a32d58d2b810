/**
 * The competitor threat model: a logistic base score from five tender
 * features, scaled per configured competitor, clamped and banded, and a
 * first-match market summary.  `math.exp` and `math.log10` are parameters
 * of which only the range facts are assumed.
 */
module CompetitorModel {
  import opened Wrappers
  import Seqs

  const DefaultWeights: map<string, real> := map[
    "intercept" := -0.5,
    "estimated_value_log" := 0.35,
    "category_risk" := 0.6,
    "deadline_urgency" := 0.4,
    "emd_ratio" := -0.25,
    "location_factor" := 0.15]

  const CategoryRisk: map<string, real> := map[
    "IT Services" := 0.6,
    "Construction" := 0.8,
    "Medical Equipment" := 0.5,
    "Office Supplies" := 0.3,
    "Consulting" := 0.4]

  const LocationFactor: map<string, real> := map[
    "New Delhi" := 0.2,
    "Mumbai" := 0.25,
    "Bangalore" := 0.22,
    "Chennai" := 0.18,
    "Kolkata" := 0.15,
    "Hyderabad" := 0.2]

  /** A configured competitor; every key may be missing. */
  datatype CompetitorConfig = CompetitorConfig(name: Option<string>, baseWinRate: Option<real>, avgMargin: Option<real>)

  const DefaultCompetitors: seq<CompetitorConfig> := [
    CompetitorConfig(Some("TechCorp Solutions"), Some(0.65), Some(0.125)),
    CompetitorConfig(Some("Global Vendors Ltd"), Some(0.55), Some(0.15)),
    CompetitorConfig(Some("Prime Suppliers"), Some(0.45), Some(0.18))]

  datatype ModelConfig = ModelConfig(weights: map<string, real>, competitors: seq<CompetitorConfig>)

  /**
   * The constructor: the weights file (if readable) updates the defaults key
   * by key; the competitors file (if readable) replaces the list.
   */
  function LoadModel(weightsFile: Option<map<string, real>>, competitorsFile: Option<seq<CompetitorConfig>>): (m: ModelConfig)
    ensures m.weights.Keys == DefaultWeights.Keys + (if weightsFile.Some? then weightsFile.value.Keys else {})
    ensures weightsFile.Some? ==> forall k | k in weightsFile.value :: m.weights[k] == weightsFile.value[k]
    ensures forall k | k in DefaultWeights && !(weightsFile.Some? && k in weightsFile.value) :: m.weights[k] == DefaultWeights[k]
    ensures m.competitors == if competitorsFile.Some? then competitorsFile.value else DefaultCompetitors
  {
    ModelConfig(if weightsFile.Some? then DefaultWeights + weightsFile.value else DefaultWeights,
                if competitorsFile.Some? then competitorsFile.value else DefaultCompetitors)
  }

  /** `sigmoid(x)`: `expNegX` is `math.exp(-x)`, `None` when it overflows. */
  function Sigmoid(x: real, expNegX: Option<real>): (r: real)
    requires expNegX.Some? ==> expNegX.value >= 0.0
    ensures 0.0 <= r <= 1.0
    ensures expNegX.Some? ==> 0.0 < r
    ensures expNegX.None? ==> r == if x < 0.0 then 0.0 else 1.0
  {
    match expNegX
    case None => if x < 0.0 then 0.0 else 1.0
    case Some(e) => 1.0 / (1.0 + e)
  }

  /** A date field as the model may receive it: a datetime (whole seconds) or an unconverted string. */
  datatype Stamp = DateTime(seconds: int) | Text(s: string)

  predicate Truthy(v: Option<Stamp>) {
    v.Some? && !(v.value.Text? && v.value.s == "")
  }

  datatype TenderInput = TenderInput(estimatedValue: Option<real>, emdAmount: Option<real>,
                                     category: Option<string>, location: Option<string>,
                                     deadline: Option<Stamp>, published: Option<Stamp>)

  /** `(deadline - published).days`: whole days, rounded down. */
  function DeltaDays(deadline: int, published: int): int {
    (deadline - published) / 86400
  }

  function Clamp01(x: real): (r: real)
    ensures 0.0 <= r <= 1.0
    ensures 0.0 <= x <= 1.0 ==> r == x
  {
    if x < 0.0 then 0.0 else if x > 1.0 then 1.0 else x
  }

  /**
   * `deadline_urgency`: 0.5 unless both dates are present and subtract (a
   * string raises, which is caught); otherwise the 30-day window shrinks by
   * at least one day.
   */
  function Urgency(deadline: Option<Stamp>, published: Option<Stamp>): (u: real)
    ensures 0.0 <= u <= 1.0
    ensures !(Truthy(deadline) && Truthy(published) && deadline.value.DateTime? && published.value.DateTime?) ==> u == 0.5
    ensures u <= 29.0 / 30.0 || u == 0.5
  {
    if Truthy(deadline) && Truthy(published) && deadline.value.DateTime? && published.value.DateTime? then
      var days := DeltaDays(deadline.value.seconds, published.value.seconds);
      var delta: real := if days < 1 then 1.0 else days as real;
      Clamp01((30.0 - delta) / 30.0)
    else 0.5
  }

  /** A closer deadline (same publication date) never lowers the urgency. */
  lemma {:induction false} UrgencyMonotone(d1: int, d2: int, published: int)
    requires d1 <= d2
    ensures Urgency(Some(DateTime(d1)), Some(DateTime(published))) >= Urgency(Some(DateTime(d2)), Some(DateTime(published)))
  {
    DivMonotone(d1 - published, d2 - published, 86400);
  }

  lemma DivMonotone(a: int, b: int, d: int)
    requires a <= b && d > 0
    ensures a / d <= b / d
  {
    var qa, qb := a / d, b / d;
    assert d * qa <= a;
    assert b < d * qb + d;
    assert d * qa < d * (qb + 1);
    CancelFactor(d, qa, qb + 1);
  }

  lemma CancelFactor(d: int, x: int, y: int)
    requires d > 0 && d * x < d * y
    ensures x < y
  {
  }

  function MapGet(m: map<string, real>, k: Option<string>, default: real): real {
    if k.Some? && k.value in m then m[k.value] else default
  }

  /**
   * `_featureize`: the five features, in the order of the dict the loop of
   * `_base_score` walks.  `log10` is `math.log10`, non-negative from 1 on.
   */
  function Featureize(t: TenderInput, log10: real -> real): (f: seq<(string, real)>)
    requires forall x :: x >= 1.0 ==> log10(x) >= 0.0
    ensures |f| == 5
    ensures f[0].0 == "estimated_value_log" && f[0].1 >= 0.0
    ensures f[1].0 == "emd_ratio" && (t.estimatedValue.GetOr(0.0) <= 0.0 ==> f[1].1 == 0.0)
    ensures f[2].0 == "category_risk" && 0.3 <= f[2].1 <= 0.8
    ensures f[2].1 == (if t.category.None? then 0.6 else if t.category.value in CategoryRisk then CategoryRisk[t.category.value] else 0.4)
    ensures f[3].0 == "location_factor" && 0.15 <= f[3].1 <= 0.25
    ensures f[3].1 == (if t.location.None? then 0.2 else if t.location.value in LocationFactor then LocationFactor[t.location.value] else 0.15)
    ensures f[4].0 == "deadline_urgency" && 0.0 <= f[4].1 <= 1.0
  {
    var est := t.estimatedValue.GetOr(0.0);
    var emd := t.emdAmount.GetOr(0.0);
    var category := t.category.GetOr("IT Services");
    var location := t.location.GetOr("New Delhi");
    [("estimated_value_log", log10(if est > 1.0 then est else 1.0)),
     ("emd_ratio", if est > 0.0 then emd / est else 0.0),
     ("category_risk", MapGet(CategoryRisk, Some(category), 0.4)),
     ("location_factor", MapGet(LocationFactor, Some(location), 0.15)),
     ("deadline_urgency", Urgency(t.deadline, t.published))]
  }

  /** The weighted sum before the sigmoid: the intercept plus `weight(k) * v` for each feature. */
  function LinearScore(weights: map<string, real>, features: seq<(string, real)>): real {
    if features == [] then MapGet(weights, Some("intercept"), 0.0)
    else
      var last := features[|features| - 1];
      LinearScore(weights, features[..|features| - 1]) + MapGet(weights, Some(last.0), 0.0) * last.1
  }

  /** A feature without a weight (`weights.get(k, 0)`) or with value 0 leaves the score at the intercept. */
  lemma {:induction false} IdleFeaturesKeepIntercept(weights: map<string, real>, features: seq<(string, real)>)
    requires forall i | 0 <= i < |features| :: features[i].0 !in weights || features[i].1 == 0.0
    ensures LinearScore(weights, features) == MapGet(weights, Some("intercept"), 0.0)
  {
    if features != [] {
      var init := features[..|features| - 1];
      assert forall i | 0 <= i < |init| :: init[i] == features[i];
      IdleFeaturesKeepIntercept(weights, init);
    }
  }

  ghost predicate ExpNonNegative(exp: real -> Option<real>) {
    forall y :: exp(y).Some? ==> exp(y).value >= 0.0
  }

  /** `_base_score`: the loop accumulating `s`, then the sigmoid. */
  method BaseScore(weights: map<string, real>, features: seq<(string, real)>, exp: real -> Option<real>)
    returns (score: real)
    requires ExpNonNegative(exp)
    ensures score == Sigmoid(LinearScore(weights, features), exp(-LinearScore(weights, features)))
    ensures 0.0 <= score <= 1.0
  {
    var s := MapGet(weights, Some("intercept"), 0.0);
    var i := 0;
    while i < |features|
      invariant 0 <= i <= |features|
      invariant s == LinearScore(weights, features[..i])
    {
      assert features[..i + 1][..i] == features[..i];
      s := s + MapGet(weights, Some(features[i].0), 0.0) * features[i].1;
      i := i + 1;
    }
    assert features[..|features|] == features;
    score := Sigmoid(s, exp(-s));
  }

  datatype Threat = HighThreat | MediumThreat | LowThreat {
    /** The string the API reports. */
    function Name(): string {
      match this
      case HighThreat => "high"
      case MediumThreat => "medium"
      case LowThreat => "low"
    }
  }

  function ThreatOf(score: real): (t: Threat)
    ensures t == HighThreat <==> score >= 0.66
    ensures t == MediumThreat <==> 0.4 <= score < 0.66
    ensures t == LowThreat <==> score < 0.4
  {
    if score >= 0.66 then HighThreat else if score >= 0.4 then MediumThreat else LowThreat
  }

  /** `1 - min(max(margin, 0), 0.4)`. */
  function PricingFactor(margin: real): (p: real)
    ensures 0.6 <= p <= 1.0
    ensures 0.0 <= margin <= 0.4 ==> p == 1.0 - margin
  {
    1.0 - (if margin < 0.0 then 0.0 else if margin > 0.4 then 0.4 else margin)
  }

  /** One entry of `predict`'s output (before rounding). */
  datatype Assessment = Assessment(name: string, winRatePercent: real, marginPercent: real, threat: Threat, threatScore: real)

  /** `score` before the clamp: a fraction of the base score when the win rate is a probability. */
  function RawScore(base: real, winRate: real, margin: real): (r: real)
    ensures 0.0 <= base && 0.0 <= winRate <= 1.0 ==> 0.0 <= r <= base
    ensures 0.0 <= base && 0.0 <= winRate ==> 0.0 <= r
  {
    var a, b := 0.5 + 0.5 * winRate, 0.7 + 0.3 * PricingFactor(margin);
    if 0.0 <= base && 0.0 <= winRate then
      ScaleUpOrDown(base, a, b);
      base * a * b
    else
      base * a * b
  }

  lemma ScaleUpOrDown(x: real, a: real, b: real)
    requires 0.0 <= x && 0.5 <= a && 0.0 <= b <= 1.0
    ensures 0.0 <= x * a * b
    ensures a <= 1.0 ==> x * a * b <= x
  {
    assert 0.0 <= x * a;
    if a <= 1.0 {
      ScaleDown(x, a);
      ScaleDown(x * a, b);
    }
  }

  /** The body of `predict`'s loop for one competitor. */
  function Assess(base: real, c: CompetitorConfig): (a: Assessment)
    ensures 0.0 <= a.threatScore <= 1.0 && a.threat == ThreatOf(a.threatScore)
    ensures a.name == c.name.GetOr("Unknown")
    ensures a.winRatePercent == c.baseWinRate.GetOr(0.5) * 100.0
    ensures a.marginPercent == c.avgMargin.GetOr(0.15) * 100.0
  {
    var winRate := c.baseWinRate.GetOr(0.5);
    var margin := c.avgMargin.GetOr(0.15);
    var score := Clamp01(RawScore(base, winRate, margin));
    Assessment(c.name.GetOr("Unknown"), winRate * 100.0, margin * 100.0, ThreatOf(score), score)
  }

  /**
   * With a base score and a win rate in [0, 1] the clamp never acts, and a
   * competitor's threat score never exceeds the base score.
   */
  lemma ScoreBelowBase(base: real, c: CompetitorConfig)
    requires 0.0 <= base <= 1.0
    requires 0.0 <= c.baseWinRate.GetOr(0.5) <= 1.0
    ensures Assess(base, c).threatScore == RawScore(base, c.baseWinRate.GetOr(0.5), c.avgMargin.GetOr(0.15))
    ensures Assess(base, c).threatScore <= base
  {
    var w := c.baseWinRate.GetOr(0.5);
    var p := PricingFactor(c.avgMargin.GetOr(0.15));
    var a, b := 0.5 + 0.5 * w, 0.7 + 0.3 * p;
    ScaleDown(base, a);
    ScaleDown(base * a, b);
    var raw := RawScore(base, w, c.avgMargin.GetOr(0.15));
    assert raw == (base * a) * b;
    assert 0.0 <= raw <= base;
    assert Clamp01(raw) == raw;
  }

  lemma ScaleDown(x: real, y: real)
    requires 0.0 <= x && 0.0 <= y <= 1.0
    ensures 0.0 <= x * y <= x
  {
  }

  /**
   * `predict`: featureize, score, then one assessment per configured
   * competitor, in order.
   */
  method Predict(m: ModelConfig, t: TenderInput, exp: real -> Option<real>, log10: real -> real)
    returns (out: seq<Assessment>)
    requires ExpNonNegative(exp)
    requires forall x :: x >= 1.0 ==> log10(x) >= 0.0
    ensures |out| == |m.competitors|
    ensures forall i | 0 <= i < |out| :: out[i] == Assess(BaseOf(m, t, exp, log10), m.competitors[i])
  {
    var feats := Featureize(t, log10);
    var base := BaseScore(m.weights, feats, exp);
    out := [];
    var i := 0;
    while i < |m.competitors|
      invariant 0 <= i <= |m.competitors|
      invariant |out| == i
      invariant forall j | 0 <= j < i :: out[j] == Assess(base, m.competitors[j])
    {
      out := out + [Assess(base, m.competitors[i])];
      i := i + 1;
    }
  }

  /** The base score `predict` computes once for all competitors. */
  function BaseOf(m: ModelConfig, t: TenderInput, exp: real -> Option<real>, log10: real -> real): (b: real)
    requires ExpNonNegative(exp)
    requires forall x :: x >= 1.0 ==> log10(x) >= 0.0
    ensures 0.0 <= b <= 1.0
  {
    var s := LinearScore(m.weights, Featureize(t, log10));
    Sigmoid(s, exp(-s))
  }

  function ThreatIs(t: Threat): Assessment -> bool {
    (a: Assessment) => a.threat == t
  }

  /** `len([c for c in competitors if c["threat"] == t])`. */
  function CountThreat(cs: seq<Assessment>, t: Threat): (n: nat)
    ensures n == |Seqs.Filter(cs, ThreatIs(t))|
    ensures n <= |cs|
  {
    if cs == [] then 0 else (if cs[0].threat == t then 1 else 0) + CountThreat(cs[1..], t)
  }

  const HighlyCompetitive := "Highly competitive market with multiple aggressive players. Consider differentiation and post-warranty support emphasis."
  const ModeratelyCompetitive := "Moderately competitive: one aggressive leader and following challengers. Pricing discipline and value-adds recommended."
  const BalancedCompetition := "Balanced competition. Competitive pricing with quality focus likely to succeed."
  const LowImmediateThreat := "Low immediate threat. Focus on compliance and timely submission to maximize success chances."

  /** `analyze_market`: the first matching rule decides the summary. */
  function AnalyzeMarket(cs: seq<Assessment>): (r: string)
    ensures var h, m := CountThreat(cs, HighThreat), CountThreat(cs, MediumThreat);
      (r == HighlyCompetitive <==> h >= 2) &&
      (r == ModeratelyCompetitive <==> h == 1 && m >= 1) &&
      (r == BalancedCompetition <==> h < 2 && !(h == 1 && m >= 1) && m >= 2) &&
      (r == LowImmediateThreat <==> h < 2 && !(h == 1 && m >= 1) && m < 2)
  {
    var highs := CountThreat(cs, HighThreat);
    var meds := CountThreat(cs, MediumThreat);
    if highs >= 2 then HighlyCompetitive
    else if highs == 1 && meds >= 1 then ModeratelyCompetitive
    else if meds >= 2 then BalancedCompetition
    else LowImmediateThreat
  }
}
