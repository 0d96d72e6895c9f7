/** `generateAIInsights`: fixed threshold rules that ratchet a risk level, a failure
    percentage and a recommended buffer upwards, plus the alternative-filament ranking.

    The specification is a list of the rules that fire, in rule order, folded with a
    "take the worse" combinator; the method `GenerateAIInsights` is the calculator's
    sequence of reassignments, proved to compute the same record. */
module RiskAdvisor {
  import opened Wrappers
  import opened Types
  import opened Alternatives
  import opened JsMath

  const AspectRatioReason := "High aspect ratio may cause warping and adhesion issues"
  const TallPrintReason := "Tall prints are prone to layer shifting and vibration issues"
  const LargeVolumeReason := "Large volume prints have higher chance of print failures"
  const LongPrintReason := "Long print times increase probability of mechanical failures"
  const DefaultReason := "Model appears suitable for reliable printing"

  /** What one rule contributes when it fires. */
  datatype Rule = Rule(level: RiskLevel, percentage: real, buffer: real, reason: string)

  const AspectRatioRule := Rule(High, 25.0, 15.0, AspectRatioReason)
  const TallPrintRule := Rule(Medium, 15.0, 10.0, TallPrintReason)
  const LargeVolumeRule := Rule(Medium, 12.0, 8.0, LargeVolumeReason)
  const LongPrintRule := Rule(Medium, 18.0, 12.0, LongPrintReason)

  /** The accumulated assessment before the default reason is added. */
  datatype RiskState = RiskState(level: RiskLevel, percentage: real, buffer: real, reasons: seq<string>)

  const Initial := RiskState(Low, 5.0, 0.0, [])

  function Severity(l: RiskLevel): nat {
    match l
    case Low => 0
    case Medium => 1
    case High => 2
  }

  function Worse(a: RiskLevel, b: RiskLevel): (r: RiskLevel)
    ensures Severity(r) == if Severity(a) >= Severity(b) then Severity(a) else Severity(b)
  {
    if Severity(a) >= Severity(b) then a else b
  }

  /** `Math.max(length, width) / height > 10`. At height 0 the division follows IEEE-754:
      a positive numerator gives +Infinity (the rule fires), a zero numerator gives NaN
      and a negative one -Infinity (the rule does not fire). */
  predicate AspectRatioExceeds(d: Dimensions) {
    var longest := Max(d.length, d.width);
    if d.height == 0.0 then longest > 0.0 else longest / d.height > 10.0
  }

  /** The rules that fire for a job, in the order the calculator tests them. */
  function FiredRules(job: Job): seq<Rule> {
    var geometry :=
      match job.dimensions
      case None => []
      case Some(d) =>
        (if AspectRatioExceeds(d) then [AspectRatioRule]
         else if d.height > 150.0 then [TallPrintRule]
         else []) +
        (if d.volume > 500000.0 then [LargeVolumeRule] else []);
    geometry + (if job.printTime > 24.0 then [LongPrintRule] else [])
  }

  /** The ratchet: a firing rule can only raise level, percentage and buffer. */
  function Escalate(s: RiskState, r: Rule): RiskState {
    RiskState(Worse(s.level, r.level), Max(s.percentage, r.percentage), Max(s.buffer, r.buffer),
              s.reasons + [r.reason])
  }

  function ApplyRules(s: RiskState, rules: seq<Rule>): RiskState
    decreases |rules|
  {
    if rules == [] then s else ApplyRules(Escalate(s, rules[0]), rules[1..])
  }

  /** The assessment a job should receive. */
  function Assess(job: Job): AIInsights {
    var s := ApplyRules(Initial, FiredRules(job));
    AIInsights(s.level, s.percentage, if s.reasons == [] then [DefaultReason] else s.reasons,
               s.buffer, Ranking(job))
  }

  /** Applying one more rule escalates the state the earlier rules produced. */
  lemma {:induction false} ApplyRulesSnoc(s: RiskState, rules: seq<Rule>, r: Rule)
    ensures ApplyRules(s, rules + [r]) == Escalate(ApplyRules(s, rules), r)
    decreases |rules|
  {
    if rules != [] {
      assert (rules + [r])[1..] == rules[1..] + [r];
      ApplyRulesSnoc(Escalate(s, rules[0]), rules[1..], r);
    }
  }

  /** The calculator's procedure: reassign the risk variables rule by rule. */
  method GenerateAIInsights(job: Job) returns (insights: AIInsights)
    ensures insights == Assess(job)
    ensures |insights.failureReasons| >= 1
  {
    var riskLevel := Low;
    var riskPercentage := 5.0;
    var failureReasons: seq<string> := [];
    var recommendedBuffer := 0.0;
    ghost var fired: seq<Rule> := [];

    if job.dimensions.Some? {
      var d := job.dimensions.value;
      if AspectRatioExceeds(d) {
        riskLevel := High;
        riskPercentage := 25.0;
        failureReasons := failureReasons + [AspectRatioReason];
        recommendedBuffer := 15.0;
        fired := [AspectRatioRule];
      } else if d.height > 150.0 {
        riskLevel := Medium;
        riskPercentage := 15.0;
        failureReasons := failureReasons + [TallPrintReason];
        recommendedBuffer := 10.0;
        fired := [TallPrintRule];
      }
      assert RiskState(riskLevel, riskPercentage, recommendedBuffer, failureReasons) == ApplyRules(Initial, fired);
      if d.volume > 500000.0 {
        riskLevel := if riskLevel == High then High else Medium;
        riskPercentage := Max(riskPercentage, 12.0);
        failureReasons := failureReasons + [LargeVolumeReason];
        recommendedBuffer := Max(recommendedBuffer, 8.0);
        ApplyRulesSnoc(Initial, fired, LargeVolumeRule);
        fired := fired + [LargeVolumeRule];
      }
    }
    assert RiskState(riskLevel, riskPercentage, recommendedBuffer, failureReasons) == ApplyRules(Initial, fired);

    if job.printTime > 24.0 {
      riskLevel := if riskLevel == High then High else Medium;
      riskPercentage := Max(riskPercentage, 18.0);
      failureReasons := failureReasons + [LongPrintReason];
      recommendedBuffer := Max(recommendedBuffer, 12.0);
      ApplyRulesSnoc(Initial, fired, LongPrintRule);
      fired := fired + [LongPrintRule];
    }
    assert fired == FiredRules(job);

    var alternativeFilaments := Ranking(job);

    if |failureReasons| == 0 {
      failureReasons := failureReasons + [DefaultReason];
    }

    insights := AIInsights(riskLevel, riskPercentage, failureReasons, recommendedBuffer, alternativeFilaments);
  }

  function ReasonsOf(rules: seq<Rule>): seq<string> {
    if rules == [] then [] else [rules[0].reason] + ReasonsOf(rules[1..])
  }

  /** The ratchet: applying rules never lowers the level, percentage or buffer, keeps
      `High` once reached, and appends exactly the rules' reasons in order. */
  lemma {:induction false} ApplyRulesRatchet(s: RiskState, rules: seq<Rule>)
    ensures var t := ApplyRules(s, rules);
      Severity(t.level) >= Severity(s.level) && t.percentage >= s.percentage && t.buffer >= s.buffer &&
      (s.level == High ==> t.level == High) &&
      t.reasons == s.reasons + ReasonsOf(rules)
    decreases |rules|
  {
    if rules != [] {
      ApplyRulesRatchet(Escalate(s, rules[0]), rules[1..]);
    }
  }

  lemma {:induction false} ApplyRulesSplit(s: RiskState, rules: seq<Rule>, k: nat)
    requires k <= |rules|
    ensures ApplyRules(s, rules) == ApplyRules(ApplyRules(s, rules[..k]), rules[k..])
    decreases k
  {
    if k > 0 {
      assert rules[1..][..k - 1] == rules[1..k];
      assert rules[1..][k - 1..] == rules[k..];
      ApplyRulesSplit(Escalate(s, rules[0]), rules[1..], k - 1);
    }
  }

  /** Across the rules of one assessment, the level, percentage and buffer after any
      prefix of the fired rules are bounded by the final ones. */
  lemma RiskNeverDecreases(job: Job, k: nat)
    requires k <= |FiredRules(job)|
    ensures var mid, fin := ApplyRules(Initial, FiredRules(job)[..k]), ApplyRules(Initial, FiredRules(job));
      Severity(mid.level) <= Severity(fin.level) && mid.percentage <= fin.percentage &&
      mid.buffer <= fin.buffer && (mid.level == High ==> fin.level == High)
  {
    var rules := FiredRules(job);
    ApplyRulesSplit(Initial, rules, k);
    ApplyRulesRatchet(ApplyRules(Initial, rules[..k]), rules[k..]);
  }

  /** Rules carry at least `Medium`, percentages 12..25 and buffers 8..15. */
  predicate RuleInRange(r: Rule) {
    r.level != Low && 12.0 <= r.percentage <= 25.0 && 8.0 <= r.buffer <= 15.0
  }

  lemma {:induction false} ApplyRulesBounds(s: RiskState, rules: seq<Rule>)
    requires 5.0 <= s.percentage <= 25.0 && 0.0 <= s.buffer <= 15.0
    requires forall i :: 0 <= i < |rules| ==> RuleInRange(rules[i])
    ensures var t := ApplyRules(s, rules);
      5.0 <= t.percentage <= 25.0 && 0.0 <= t.buffer <= 15.0 &&
      (rules != [] ==> t.level != Low && t.percentage >= 12.0 && t.buffer >= 8.0) &&
      (rules == [] ==> t == s)
    decreases |rules|
  {
    if rules != [] {
      ApplyRulesBounds(Escalate(s, rules[0]), rules[1..]);
      ApplyRulesRatchet(Escalate(s, rules[0]), rules[1..]);
    }
  }

  /** The order in which the calculator tests the rules: geometry, volume, time. */
  function Stage(r: Rule): nat {
    if r == AspectRatioRule || r == TallPrintRule then 0
    else if r == LargeVolumeRule then 1
    else 2
  }

  lemma FiredRulesShape(job: Job)
    ensures var rules := FiredRules(job);
      |rules| <= 3 &&
      (forall i :: 0 <= i < |rules| ==> RuleInRange(rules[i])) &&
      (forall i, j :: 0 <= i < j < |rules| ==> Stage(rules[i]) < Stage(rules[j])) &&
      !(AspectRatioRule in rules && TallPrintRule in rules)
  {
  }

  /** The failure reasons are never empty: either the fired rules' reasons in rule order,
      or the single default reason. */
  lemma FailureReasons(job: Job)
    ensures var rules, reasons := FiredRules(job), Assess(job).failureReasons;
      |reasons| >= 1 &&
      reasons == (if rules == [] then [DefaultReason] else ReasonsOf(rules))
  {
    ApplyRulesRatchet(Initial, FiredRules(job));
    ReasonsOfEmpty(FiredRules(job));
  }

  lemma ReasonsOfEmpty(rules: seq<Rule>)
    ensures ReasonsOf(rules) == [] <==> rules == []
  {
  }

  /** The aspect-ratio and tall-print reasons never appear together. */
  lemma GeometryReasonsExclusive(job: Job)
    ensures !(AspectRatioReason in Assess(job).failureReasons && TallPrintReason in Assess(job).failureReasons)
  {
    var rules := FiredRules(job);
    FailureReasons(job);
    FiredRulesShape(job);
    ReasonsOfMembers(rules);
  }

  lemma {:induction false} ReasonsOfMembers(rules: seq<Rule>)
    ensures forall m :: m in ReasonsOf(rules) <==> exists i :: 0 <= i < |rules| && rules[i].reason == m
  {
    if rules != [] {
      ReasonsOfMembers(rules[1..]);
      forall m ensures m in ReasonsOf(rules) <==> exists i :: 0 <= i < |rules| && rules[i].reason == m {
        if m in ReasonsOf(rules[1..]) {
          var i :| 0 <= i < |rules[1..]| && rules[1..][i].reason == m;
          assert rules[i + 1].reason == m;
        }
        if exists i :: 0 <= i < |rules| && rules[i].reason == m {
          var i :| 0 <= i < |rules| && rules[i].reason == m;
          if i > 0 {
            assert rules[1..][i - 1].reason == m;
          }
        }
      }
    }
  }

  /** No rule fires exactly when the level stays `Low`; then the assessment is the
      fixed low-risk default. */
  lemma LowRiskExactlyWhenNoRuleFires(job: Job)
    ensures Assess(job).riskLevel == Low <==> FiredRules(job) == []
    ensures FiredRules(job) == [] ==>
      Assess(job).riskPercentage == 5.0 && Assess(job).recommendedBuffer == 0.0 &&
      Assess(job).failureReasons == [DefaultReason]
  {
    FiredRulesShape(job);
    ApplyRulesBounds(Initial, FiredRules(job));
  }

  /** The percentage stays within 5..25 and the buffer within 0..15. */
  lemma RiskBounds(job: Job)
    ensures 5.0 <= Assess(job).riskPercentage <= 25.0
    ensures 0.0 <= Assess(job).recommendedBuffer <= 15.0
  {
    FiredRulesShape(job);
    ApplyRulesBounds(Initial, FiredRules(job));
  }

  /** Without geometry, a print over 24 hours is medium risk at 18% with a 12% buffer. */
  lemma LongPrintWithoutGeometry(job: Job)
    requires job.dimensions.None? && job.printTime > 24.0
    ensures Assess(job).riskLevel == Medium && Assess(job).riskPercentage == 18.0
    ensures Assess(job).recommendedBuffer == 12.0
    ensures Assess(job).failureReasons == [LongPrintReason]
  {
    assert FiredRules(job) == [LongPrintRule];
    assert ApplyRules(Initial, [LongPrintRule]) == ApplyRules(Escalate(Initial, LongPrintRule), []);
  }

  /** An aspect ratio above 10 on its own gives high risk at 25% with a 15% buffer. */
  lemma AspectRatioAlone(job: Job)
    requires job.dimensions.Some? && AspectRatioExceeds(job.dimensions.value)
    requires job.dimensions.value.volume <= 500000.0 && job.printTime <= 24.0
    ensures Assess(job).riskLevel == High && Assess(job).riskPercentage == 25.0
    ensures Assess(job).recommendedBuffer == 15.0
    ensures Assess(job).failureReasons == [AspectRatioReason]
  {
    assert FiredRules(job) == [AspectRatioRule];
    assert ApplyRules(Initial, [AspectRatioRule]) == ApplyRules(Escalate(Initial, AspectRatioRule), []);
  }

  /** Once a rule has made the level `High`, it stays `High`. */
  lemma AspectRatioKeepsHigh(job: Job)
    requires job.dimensions.Some? && AspectRatioExceeds(job.dimensions.value)
    ensures Assess(job).riskLevel == High
  {
    var rules := FiredRules(job);
    assert rules[..1] == [AspectRatioRule];
    RiskNeverDecreases(job, 1);
  }

  /** A zero height under a positive length or width divides to +Infinity, which
      exceeds the aspect-ratio limit. */
  lemma ZeroHeightIsHighRisk(job: Job)
    requires job.dimensions.Some? && job.dimensions.value.height == 0.0
    requires job.dimensions.value.length > 0.0 || job.dimensions.value.width > 0.0
    ensures Assess(job).riskLevel == High
  {
    AspectRatioKeepsHigh(job);
  }
}
