/** The risk engine: four component scores in [0, 1], their weighted total on
    a 0-100 scale, the PASS/WARN/BLOCK gate, the advisory list, and the
    per-run store of assessments folded into a project verdict. */
module RiskEngine {
  import opened Wrappers
  import opened Text
  import opened Numbers
  import opened Issues
  import opened OrderedKeys
  import Settings

  // ---------------------------------------------------------------------
  // Inputs, as the engine reads them (each dictionary key may be absent)
  // ---------------------------------------------------------------------

  /** The `complexity` section of an analysis report. */
  datatype ComplexitySection = ComplexitySection(average: Option<NonNegReal>, highComplexityCount: Option<nat>)

  /** The parts of a static-analysis report the engine reads; an absent
      `issues` key reads as the empty list. */
  datatype AnalysisReport = AnalysisReport(complexity: Option<ComplexitySection>, issues: seq<Issue>)

  /** The parts of the change statistics the engine reads. */
  datatype ChangeStats = ChangeStats(totalChanges: Option<nat>, originalLines: Option<nat>)

  /** The one failure of the engine: a ratio over zero original lines. */
  datatype RiskError = DivisionByZero

  /** `complexity.average`, 0 when absent. */
  function AverageComplexity(analysis: AnalysisReport): NonNegReal {
    match analysis.complexity
    case None => 0.0
    case Some(c) => match c.average case None => 0.0 case Some(a) => a
  }

  /** `complexity.high_complexity_count`, 0 when absent. */
  function HighComplexityCount(analysis: AnalysisReport): nat {
    match analysis.complexity
    case None => 0
    case Some(c) => match c.highComplexityCount case None => 0 case Some(n) => n
  }

  /** `total_changes`, 0 when absent. */
  function TotalChanges(stats: ChangeStats): nat {
    match stats.totalChanges case None => 0 case Some(n) => n
  }

  /** `original_lines`, 1 when absent. */
  function OriginalLines(stats: ChangeStats): nat {
    match stats.originalLines case None => 1 case Some(n) => n
  }

  // ---------------------------------------------------------------------
  // The four component scores
  // ---------------------------------------------------------------------

  /** Complexity risk: the average over 20, capped at 1, plus 0.1 per
      high-complexity function, capped at 0.3; the sum capped at 1. */
  function ComplexityRisk(analysis: AnalysisReport): (r: real)
    ensures 0.0 <= r <= 1.0
    ensures AverageComplexity(analysis) >= 20.0 ==> r == 1.0
    ensures r == 0.0 <==> AverageComplexity(analysis) == 0.0 && HighComplexityCount(analysis) == 0
  {
    var base := Min(AverageComplexity(analysis) / 20.0, 1.0);
    var penalty := Min(HighComplexityCount(analysis) as real * 0.1, 0.3);
    Min(base + penalty, 1.0)
  }

  /** A report that is at least as complex in both respects never scores lower. */
  lemma ComplexityRiskMonotone(a: AnalysisReport, b: AnalysisReport)
    requires AverageComplexity(a) <= AverageComplexity(b)
    requires HighComplexityCount(a) <= HighComplexityCount(b)
    ensures ComplexityRisk(a) <= ComplexityRisk(b)
  {
  }

  /** Change-volume risk: changed lines over original lines, capped at 1.
      There is no guard: zero original lines is a division by zero. */
  function ChangeVolumeRisk(stats: ChangeStats): (r: Result<real, RiskError>)
    ensures r.Failure? <==> OriginalLines(stats) == 0
    ensures r.Success? ==> 0.0 <= r.value <= 1.0
    ensures r.Success? ==> (r.value == 1.0 <==> TotalChanges(stats) >= OriginalLines(stats))
    ensures r.Success? ==> (r.value == 0.0 <==> TotalChanges(stats) == 0)
  {
    if OriginalLines(stats) == 0 then Failure(DivisionByZero)
    else
      var ratio := TotalChanges(stats) as real / OriginalLines(stats) as real;
      assert ratio >= 1.0 <==> TotalChanges(stats) >= OriginalLines(stats);
      Success(Min(ratio, 1.0))
  }

  /** More changed lines over the same original never lower the volume risk. */
  lemma ChangeVolumeRiskMonotone(a: ChangeStats, b: ChangeStats)
    requires OriginalLines(a) == OriginalLines(b) != 0
    requires TotalChanges(a) <= TotalChanges(b)
    ensures ChangeVolumeRisk(a).value <= ChangeVolumeRisk(b).value
  {
    var n := OriginalLines(a) as real;
    DivMonotone(TotalChanges(a) as real, TotalChanges(b) as real, n);
  }

  /** The ten keywords that mark a change description as touching
      security-sensitive code. */
  const CriticalKeywords: seq<string> :=
    ["security", "auth", "password", "token", "database",
     "sql", "query", "encrypt", "decrypt", "validate"]

  /** Some keyword occurs in `text` (Python `any(k in text for k in keywords)`). */
  predicate MentionsAny(text: string, keywords: seq<string>)
    decreases |keywords|
  {
    keywords != [] && (Contains(text, keywords[0]) || MentionsAny(text, keywords[1..]))
  }

  lemma {:induction false} MentionsAnyIff(text: string, keywords: seq<string>)
    ensures MentionsAny(text, keywords) <==> exists k :: 0 <= k < |keywords| && Contains(text, keywords[k])
    decreases |keywords|
  {
    if keywords != [] {
      MentionsAnyIff(text, keywords[1..]);
      assert forall k :: 1 <= k < |keywords| ==> keywords[k] == keywords[1..][k - 1];
      if exists k :: 0 <= k < |keywords| && Contains(text, keywords[k]) {
        var k :| 0 <= k < |keywords| && Contains(text, keywords[k]);
        if k > 0 { assert Contains(text, keywords[1..][k - 1]); }
      }
    }
  }

  /** The lower-cased description contains at least one keyword. */
  predicate IsCriticalChange(description: string) {
    MentionsAny(Lower(description), CriticalKeywords)
  }

  /** A description is critical exactly when one of the keywords occurs in
      its lower-cased text. */
  lemma IsCriticalChangeIff(description: string)
    ensures IsCriticalChange(description) <==>
            exists k :: 0 <= k < |CriticalKeywords| && Contains(Lower(description), CriticalKeywords[k])
  {
    MentionsAnyIff(Lower(description), CriticalKeywords);
  }

  /** Which descriptions are critical. */
  function CriticalFlags(changes: seq<string>): (flags: seq<bool>)
    ensures |flags| == |changes|
    ensures forall i :: 0 <= i < |changes| ==> flags[i] == IsCriticalChange(changes[i])
  {
    seq(|changes|, i requires 0 <= i < |changes| => IsCriticalChange(changes[i]))
  }

  /** Number of true entries. */
  function CountTrue(flags: seq<bool>): (n: nat)
    ensures n <= |flags|
    ensures n == 0 <==> forall i :: 0 <= i < |flags| ==> !flags[i]
    ensures n == |flags| <==> forall i :: 0 <= i < |flags| ==> flags[i]
  {
    if flags == [] then 0
    else
      var init := flags[..|flags| - 1];
      assert forall i :: 0 <= i < |init| ==> init[i] == flags[i];
      CountTrue(init) + if flags[|flags| - 1] then 1 else 0
  }

  /** Number of critical descriptions. */
  function CountCritical(changes: seq<string>): (n: nat)
    ensures n <= |changes|
  {
    CountTrue(CriticalFlags(changes))
  }

  /** A count over a positive total is a fraction in [0, 1], 0 or 1 exactly at the ends. */
  lemma RatioFacts(c: nat, n: nat)
    requires 0 < n && c <= n
    ensures 0.0 <= c as real / n as real <= 1.0
    ensures c as real / n as real == 0.0 <==> c == 0
    ensures c as real / n as real == 1.0 <==> c == n
  {
    DivMonotone(c as real, n as real, n as real);
    MulDivCancel(n as real, 1.0);
    if c as real / n as real == 1.0 {
      assert c as real == 1.0 * (n as real);
    }
  }

  /** The share of true entries, capped at 1; 0 for no entries. */
  function Share(flags: seq<bool>): (r: real)
    ensures 0.0 <= r <= 1.0
    ensures r == 0.0 <==> forall i :: 0 <= i < |flags| ==> !flags[i]
    ensures flags != [] ==> (r == 1.0 <==> forall i :: 0 <= i < |flags| ==> flags[i])
  {
    if flags == [] then 0.0
    else
      RatioFacts(CountTrue(flags), |flags|);
      Min(CountTrue(flags) as real / |flags| as real, 1.0)
  }

  lemma CountTrueAppend(flags: seq<bool>, b: bool)
    ensures CountTrue(flags + [b]) == CountTrue(flags) + if b then 1 else 0
  {
    assert (flags + [b])[..|flags|] == flags;
  }

  /** One more hit out of one more item never lowers the share. */
  lemma RatioGrows(c: nat, n: nat)
    requires 0 < n && c <= n
    ensures c as real / n as real <= (c + 1) as real / (n + 1) as real
  {
    assert (c as real) * (n as real + 1.0) <= (c as real + 1.0) * (n as real);
    CrossDivide(c as real, n as real, c as real + 1.0, n as real + 1.0);
  }

  lemma ShareGrows(flags: seq<bool>)
    ensures Share(flags) <= Share(flags + [true])
  {
    if flags != [] {
      CountTrueAppend(flags, true);
      RatioFacts(CountTrue(flags), |flags|);
      RatioFacts(CountTrue(flags) + 1, |flags| + 1);
      RatioGrows(CountTrue(flags), |flags|);
    }
  }

  /** Critical-function risk: the share of descriptions that are critical;
      0 for an empty list. */
  function CriticalFunctionRisk(changes: seq<string>): (r: real)
    ensures 0.0 <= r <= 1.0
    ensures r == 0.0 <==> forall i :: 0 <= i < |changes| ==> !IsCriticalChange(changes[i])
    ensures changes != [] ==> (r == 1.0 <==> forall i :: 0 <= i < |changes| ==> IsCriticalChange(changes[i]))
  {
    Share(CriticalFlags(changes))
  }

  lemma CriticalFlagsAppend(changes: seq<string>, description: string)
    ensures CriticalFlags(changes + [description]) == CriticalFlags(changes) + [IsCriticalChange(description)]
  {
  }

  /** Appending a critical description never lowers the critical-function risk. */
  lemma CriticalFunctionRiskMonotone(changes: seq<string>, description: string)
    requires IsCriticalChange(description)
    ensures CriticalFunctionRisk(changes) <= CriticalFunctionRisk(changes + [description])
  {
    CriticalFlagsAppend(changes, description);
    ShareGrows(CriticalFlags(changes));
  }

  lemma CrossDivide(a: real, b: real, c: real, d: real)
    requires b > 0.0 && d > 0.0
    requires a * d <= c * b
    ensures a / b <= c / d
  {
    assert a / b == (a * d) / (b * d);
    assert c / d == (c * b) / (b * d);
  }

  /** Weight of one severity; an unrecognised or missing severity weighs as "low". */
  function SeverityWeight(s: Severity): (w: real)
    ensures 0.1 <= w <= 1.0
  {
    match s
    case Critical => 1.0
    case High => 0.8
    case Medium => 0.5
    case Low => 0.2
    case Info => 0.1
    case Unrecognized(_) => 0.2
    case Missing => 0.2
  }

  /** Severity order used to compare weights; the defaulted cases rank as Low. */
  function SeverityRank(s: Severity): nat {
    match s
    case Info => 0
    case Low => 1
    case Unrecognized(_) => 1
    case Missing => 1
    case Medium => 2
    case High => 3
    case Critical => 4
  }

  /** A more severe issue weighs more, and equally severe ones weigh the same. */
  lemma SeverityWeightOrdered(a: Severity, b: Severity)
    ensures SeverityRank(a) <= SeverityRank(b) <==> SeverityWeight(a) <= SeverityWeight(b)
  {
  }

  /** Sum of the weights of a list of issues. */
  function TotalSeverity(issues: seq<Issue>): (t: real)
    ensures 0.1 * |issues| as real <= t <= |issues| as real
  {
    if issues == [] then 0.0
    else TotalSeverity(issues[..|issues| - 1]) + SeverityWeight(SeverityOf(issues[|issues| - 1]))
  }

  /** Issue-severity risk: the mean weight of the issues; 0 when there are none. */
  function IssueSeverityRisk(analysis: AnalysisReport): (r: real)
    ensures analysis.issues == [] ==> r == 0.0
    ensures analysis.issues != [] ==> 0.1 <= r <= 1.0
  {
    var issues := analysis.issues;
    if issues == [] then 0.0
    else
      var n := |issues| as real;
      var avg := TotalSeverity(issues) / n;
      MulDivCancel(n, 0.1);
      DivMonotone(n * 0.1, TotalSeverity(issues), n);
      DivMonotone(TotalSeverity(issues), n, n);
      Min(avg, 1.0)
  }

  /** Issues that all share one severity score exactly that severity's
      weight, however many there are. */
  lemma {:induction false} UniformSeverityTotal(issues: seq<Issue>, s: Severity)
    requires forall i :: 0 <= i < |issues| ==> SeverityOf(issues[i]) == s
    ensures TotalSeverity(issues) == |issues| as real * SeverityWeight(s)
  {
    if issues != [] {
      UniformSeverityTotal(issues[..|issues| - 1], s);
    }
  }

  /** A list of issues that all share one severity scores that severity's weight. */
  lemma UniformSeverityRisk(analysis: AnalysisReport, s: Severity)
    requires analysis.issues != []
    requires forall i :: 0 <= i < |analysis.issues| ==> SeverityOf(analysis.issues[i]) == s
    ensures IssueSeverityRisk(analysis) == SeverityWeight(s)
  {
    UniformSeverityTotal(analysis.issues, s);
    MulDivCancel(|analysis.issues| as real, SeverityWeight(s));
  }

  // ---------------------------------------------------------------------
  // Weighted total and gate
  // ---------------------------------------------------------------------

  /** The four component scores, each a fraction in [0, 1]. */
  datatype Components = Components(
    complexityRisk: real, changeVolumeRisk: real, criticalFunctionRisk: real, issueSeverityRisk: real)

  predicate InUnitInterval(c: Components) {
    && 0.0 <= c.complexityRisk <= 1.0
    && 0.0 <= c.changeVolumeRisk <= 1.0
    && 0.0 <= c.criticalFunctionRisk <= 1.0
    && 0.0 <= c.issueSeverityRisk <= 1.0
  }

  /** The weighted sum of the components, scaled to 0-100. */
  function WeightedTotal(c: Components): (t: real)
    ensures InUnitInterval(c) ==> 0.0 <= t <= 100.0
  {
    (c.complexityRisk * Settings.WeightComplexityChange
     + c.changeVolumeRisk * Settings.WeightLinesChanged
     + c.criticalFunctionRisk * Settings.WeightCriticalFunctions
     + c.issueSeverityRisk * Settings.WeightSecurityIssues) * 100.0
  }

  /** All components at their maximum give exactly 100, all at 0 give 0. */
  lemma WeightedTotalExtremes()
    ensures WeightedTotal(Components(1.0, 1.0, 1.0, 1.0)) == 100.0
    ensures WeightedTotal(Components(0.0, 0.0, 0.0, 0.0)) == 0.0
  {
    Settings.RiskWeightsSumToOne();
  }

  /** Raising any component never lowers the total. */
  lemma WeightedTotalMonotone(a: Components, b: Components)
    requires a.complexityRisk <= b.complexityRisk
    requires a.changeVolumeRisk <= b.changeVolumeRisk
    requires a.criticalFunctionRisk <= b.criticalFunctionRisk
    requires a.issueSeverityRisk <= b.issueSeverityRisk
    ensures WeightedTotal(a) <= WeightedTotal(b)
  {
  }

  datatype Gate = Pass | Warn | Block

  /** PASS < WARN < BLOCK. */
  function Restrictiveness(g: Gate): nat {
    match g case Pass => 0 case Warn => 1 case Block => 2
  }

  /** Half-open bands: below the PASS threshold passes, below the WARN
      threshold warns, anything else blocks. */
  function GateDecision(score: real): (g: Gate)
    ensures g == Pass <==> score < Settings.GatePass
    ensures g == Block <==> Settings.GateWarn <= score
  {
    if score < Settings.GatePass then Pass
    else if score < Settings.GateWarn then Warn
    else Block
  }

  /** A higher score never gets a less restrictive gate. */
  lemma GateDecisionMonotone(a: real, b: real)
    requires a <= b
    ensures Restrictiveness(GateDecision(a)) <= Restrictiveness(GateDecision(b))
  {
  }

  /** The boundaries belong to the more restrictive band. */
  lemma GateBoundaries()
    ensures GateDecision(29.999) == Pass && GateDecision(30.0) == Warn
    ensures GateDecision(69.999) == Warn && GateDecision(70.0) == Block
  {
  }

  // ---------------------------------------------------------------------
  // Recommendations
  // ---------------------------------------------------------------------

  /** The advisories, in the order they are appended. */
  datatype Advice =
    | LowRisk | MediumRisk | HighRisk
    | Refactor
    | SplitRelease
    | AddressIssues(count: nat)
    | Testing | UnitTests

  // Each text is written as its first ten characters followed by the rest.
  const LowRiskText: string := "\U{2713} Low risk" + " changes - safe to proceed"
  const MediumRiskText: string := "\U{26A0} Medium r" + "isk changes - additional review recommended"
  const HighRiskText: string := "\U{26D4} High ris" + "k changes - thorough review required before deployment"
  const RefactorText: string := "Consider r" + "efactoring high complexity functions"
  const SplitReleaseText: string := "Large volu" + "me of changes - consider breaking into smaller releases"
  const TestingText: string := "Comprehens" + "ive testing recommended before deployment"
  const UnitTestsText: string := "Consider a" + "dding additional unit tests for modified functions"

  /** The text of an advisory. */
  function AdviceText(a: Advice): string {
    match a
    case LowRisk => LowRiskText
    case MediumRisk => MediumRiskText
    case HighRisk => HighRiskText
    case Refactor => RefactorText
    case SplitRelease => SplitReleaseText
    case AddressIssues(n) => "Address " + NatToString(n) + " medium/high severity issues"
    case Testing => TestingText
    case UnitTests => UnitTestsText
  }

  /** Characters 0, 2 and 9 of each advisory text (the third is not fixed
      for the issue-count advisory, whose tenth character is a digit or a space). */
  function Key(a: Advice): (char, char, char) {
    match a
    case LowRisk => ('\U{2713}', 'L', 'k')
    case MediumRisk => ('\U{26A0}', 'M', 'r')
    case HighRisk => ('\U{26D4}', 'H', 's')
    case Refactor => ('C', 'n', 'r')
    case SplitRelease => ('L', 'r', 'u')
    case AddressIssues(_) => ('A', 'd', ' ')
    case Testing => ('C', 'm', 's')
    case UnitTests => ('C', 'n', 'a')
  }

  lemma BandTextHeads()
    ensures |LowRiskText| >= 10 && LowRiskText[0] == '\U{2713}' && LowRiskText[2] == 'L' && LowRiskText[9] == 'k'
    ensures |MediumRiskText| >= 10 && MediumRiskText[0] == '\U{26A0}' && MediumRiskText[2] == 'M' && MediumRiskText[9] == 'r'
    ensures |HighRiskText| >= 10 && HighRiskText[0] == '\U{26D4}' && HighRiskText[2] == 'H' && HighRiskText[9] == 's'
  {
  }

  lemma OtherTextHeads()
    ensures |RefactorText| >= 10 && RefactorText[0] == 'C' && RefactorText[2] == 'n' && RefactorText[9] == 'r'
    ensures |SplitReleaseText| >= 10 && SplitReleaseText[0] == 'L' && SplitReleaseText[2] == 'r' && SplitReleaseText[9] == 'u'
    ensures |TestingText| >= 10 && TestingText[0] == 'C' && TestingText[2] == 'm' && TestingText[9] == 's'
    ensures |UnitTestsText| >= 10 && UnitTestsText[0] == 'C' && UnitTestsText[2] == 'n' && UnitTestsText[9] == 'a'
  {
  }

  lemma AddressTextHead(n: nat)
    ensures var t := AdviceText(AddressIssues(n)); |t| >= 10 && t[0] == 'A' && t[2] == 'd'
  {
    assert AdviceText(AddressIssues(n)) == "Address " + (NatToString(n) + " medium/high severity issues");
  }

  lemma AdviceTextKey(a: Advice)
    ensures |AdviceText(a)| >= 10
    ensures AdviceText(a)[0] == Key(a).0 && AdviceText(a)[2] == Key(a).1
    ensures !a.AddressIssues? ==> AdviceText(a)[9] == Key(a).2
  {
    match a
    case AddressIssues(n) => AddressTextHead(n);
    case LowRisk => BandTextHeads();
    case MediumRisk => BandTextHeads();
    case HighRisk => BandTextHeads();
    case Refactor => OtherTextHeads();
    case SplitRelease => OtherTextHeads();
    case Testing => OtherTextHeads();
    case UnitTests => OtherTextHeads();
  }

  /** Distinct advisories have distinct texts, so the text list determines
      the advisories (and the issue count) it was rendered from. */
  lemma AdviceTextInjective(a: Advice, b: Advice)
    requires AdviceText(a) == AdviceText(b)
    ensures a == b
  {
    AdviceTextKey(a);
    AdviceTextKey(b);
    if a.AddressIssues? && b.AddressIssues? {
      var t := AdviceText(a);
      var x, y := NatToString(a.count), NatToString(b.count);
      assert |x| == |y|;
      assert x == t[8..8 + |x|] == y;
      NatToStringValue(a.count);
      NatToStringValue(b.count);
    }
  }

  /** The top-line advisory for a total (its own literal bands 30 and 70). */
  function BandAdvice(total: real): Advice {
    if total < 30.0 then LowRisk
    else if total < 70.0 then MediumRisk
    else HighRisk
  }

  /** The advisory that goes with a gate. */
  function GateAdvice(g: Gate): Advice {
    match g case Pass => LowRisk case Warn => MediumRisk case Block => HighRisk
  }

  /** The top-line advisory always agrees with the gate decision. */
  lemma BandAdviceMatchesGate(total: real)
    ensures BandAdvice(total) == GateAdvice(GateDecision(total))
  {
  }

  /** Severity medium, high or critical; an absent severity does not count. */
  predicate IsSerious(issue: Issue) {
    SeverityOf(issue) in {Medium, High, Critical}
  }

  function CountSerious(issues: seq<Issue>): (n: nat)
    ensures n <= |issues|
    ensures n == 0 <==> forall i :: 0 <= i < |issues| ==> !IsSerious(issues[i])
  {
    if issues == [] then 0
    else
      var init := issues[..|issues| - 1];
      assert forall i :: 0 <= i < |init| ==> init[i] == issues[i];
      CountSerious(init) + if IsSerious(issues[|issues| - 1]) then 1 else 0
  }

  /** Position of an advisory in the fixed order. */
  function Slot(a: Advice): nat {
    match a
    case LowRisk => 0 case MediumRisk => 0 case HighRisk => 0
    case Refactor => 1
    case SplitRelease => 2
    case AddressIssues(_) => 3
    case Testing => 4
    case UnitTests => 5
  }

  /** The advisories, appended in a fixed order as thresholds are crossed. */
  function Recommendations(total: real, complexityRisk: real, changeVolumeRisk: real, issues: seq<Issue>): (r: seq<Advice>)
    ensures 1 <= |r| <= 6
    ensures r[0] == BandAdvice(total)
    ensures forall i :: 0 < i < |r| ==> Slot(r[i - 1]) < Slot(r[i])
  {
    var n := CountSerious(issues);
    [BandAdvice(total)]
    + (if complexityRisk > 0.7 then [Refactor] else [])
    + (if changeVolumeRisk > 0.5 then [SplitRelease] else [])
    + (if n > 0 then [AddressIssues(n)] else [])
    + (if total > 40.0 then [Testing, UnitTests] else [])
  }

  /** The conditional tail of the advisory list, part by part. */
  lemma RecommendationsParts(total: real, complexityRisk: real, changeVolumeRisk: real, issues: seq<Issue>)
    ensures var n := CountSerious(issues);
      Recommendations(total, complexityRisk, changeVolumeRisk, issues)
      == [BandAdvice(total)]
         + (if complexityRisk > 0.7 then [Refactor] else [])
         + (if changeVolumeRisk > 0.5 then [SplitRelease] else [])
         + (if n > 0 then [AddressIssues(n)] else [])
         + (if total > 40.0 then [Testing, UnitTests] else [])
  {
  }

  /** Each advisory after the first appears exactly when its threshold is crossed. */
  lemma RecommendationTriggers(total: real, complexityRisk: real, changeVolumeRisk: real, issues: seq<Issue>)
    ensures var r := Recommendations(total, complexityRisk, changeVolumeRisk, issues);
      && (Refactor in r <==> complexityRisk > 0.7)
      && (SplitRelease in r <==> changeVolumeRisk > 0.5)
      && (Testing in r <==> total > 40.0)
      && (UnitTests in r <==> total > 40.0)
  {
    RecommendationsParts(total, complexityRisk, changeVolumeRisk, issues);
  }

  /** The issue-count advisory appears exactly when some issue is serious,
      and it carries the number of serious issues. */
  lemma IssueAdviceTrigger(total: real, complexityRisk: real, changeVolumeRisk: real, issues: seq<Issue>)
    ensures var r := Recommendations(total, complexityRisk, changeVolumeRisk, issues);
      forall k :: AddressIssues(k) in r <==> k == CountSerious(issues) && k > 0
  {
    RecommendationsParts(total, complexityRisk, changeVolumeRisk, issues);
  }

  /** The advisory texts, in order. */
  function Render(advice: seq<Advice>): (texts: seq<string>)
    ensures |texts| == |advice| && forall i :: 0 <= i < |advice| ==> texts[i] == AdviceText(advice[i])
  {
    seq(|advice|, i requires 0 <= i < |advice| => AdviceText(advice[i]))
  }

  // ---------------------------------------------------------------------
  // One assessment
  // ---------------------------------------------------------------------

  /** Component scores as stored: percentages rounded to cents. */
  datatype RiskAssessment = RiskAssessment(
    filename: string,
    riskScore: real,
    gateDecision: Gate,
    riskComponents: Components,
    recommendations: seq<string>)

  /** The four raw component scores; defined when the volume ratio is. */
  function ScoreComponents(analysis: AnalysisReport, stats: ChangeStats, aiChanges: seq<string>): (c: Components)
    requires OriginalLines(stats) != 0
    ensures InUnitInterval(c)
  {
    Components(ComplexityRisk(analysis), ChangeVolumeRisk(stats).value,
               CriticalFunctionRisk(aiChanges), IssueSeverityRisk(analysis))
  }

  /** The unrounded total risk the gate is decided on. */
  function TotalRisk(analysis: AnalysisReport, stats: ChangeStats, aiChanges: seq<string>): (t: real)
    requires OriginalLines(stats) != 0
    ensures 0.0 <= t <= 100.0
  {
    WeightedTotal(ScoreComponents(analysis, stats, aiChanges))
  }

  function Percent(c: Components): Components {
    Components(RoundCents(c.complexityRisk * 100.0), RoundCents(c.changeVolumeRisk * 100.0),
               RoundCents(c.criticalFunctionRisk * 100.0), RoundCents(c.issueSeverityRisk * 100.0))
  }

  /** One file's assessment: the gate is decided on the unrounded total,
      the stored score is that total rounded to cents. */
  function Assess(filename: string, analysis: AnalysisReport, stats: ChangeStats, aiChanges: seq<string>)
    : (r: Result<RiskAssessment, RiskError>)
    ensures r.Failure? <==> OriginalLines(stats) == 0
    ensures r.Success? ==>
      var total := TotalRisk(analysis, stats, aiChanges);
      && r.value.filename == filename
      && r.value.gateDecision == GateDecision(total)
      && 0.0 <= r.value.riskScore <= 100.0
      && total - 0.005 <= r.value.riskScore <= total + 0.005
      && r.value.recommendations != []
      && r.value.recommendations[0] == AdviceText(GateAdvice(r.value.gateDecision))
    ensures r.Success? ==>
      var c := ScoreComponents(analysis, stats, aiChanges);
      && r.value.riskScore == RoundCents(WeightedTotal(c))
      && r.value.riskComponents == Percent(c)
      && r.value.recommendations
         == Render(Recommendations(WeightedTotal(c), c.complexityRisk, c.changeVolumeRisk, analysis.issues))
  {
    if OriginalLines(stats) == 0 then Failure(DivisionByZero)
    else
      var c := ScoreComponents(analysis, stats, aiChanges);
      var total := WeightedTotal(c);
      RoundCentsWithin(total, 0, 100);
      BandAdviceMatchesGate(total);
      Success(RiskAssessment(
        filename,
        RoundCents(total),
        GateDecision(total),
        Percent(c),
        Render(Recommendations(total, c.complexityRisk, c.changeVolumeRisk, analysis.issues))))
  }

  /** An advisory's text is in a rendered list exactly when the advisory is
      in the list, since distinct advisories have distinct texts. */
  lemma RenderHas(advice: seq<Advice>, a: Advice)
    ensures AdviceText(a) in Render(advice) <==> a in advice
  {
    var texts := Render(advice);
    if AdviceText(a) in texts {
      var i :| 0 <= i < |texts| && texts[i] == AdviceText(a);
      AdviceTextInjective(advice[i], a);
    }
  }

  /** The rendered advisory texts follow the thresholds. */
  lemma RenderedTriggers(total: real, complexityRisk: real, changeVolumeRisk: real, issues: seq<Issue>)
    ensures var texts := Render(Recommendations(total, complexityRisk, changeVolumeRisk, issues));
      && (AdviceText(Refactor) in texts <==> complexityRisk > 0.7)
      && (AdviceText(SplitRelease) in texts <==> changeVolumeRisk > 0.5)
      && (AdviceText(Testing) in texts <==> total > 40.0)
      && (AdviceText(UnitTests) in texts <==> total > 40.0)
  {
    var advice := Recommendations(total, complexityRisk, changeVolumeRisk, issues);
    RecommendationTriggers(total, complexityRisk, changeVolumeRisk, issues);
    RenderHas(advice, Refactor);
    RenderHas(advice, SplitRelease);
    RenderHas(advice, Testing);
    RenderHas(advice, UnitTests);
  }

  /** The stored advisory texts follow the thresholds of the components the
      assessment was computed from. */
  lemma StoredAdviceTriggers(filename: string, analysis: AnalysisReport, stats: ChangeStats, aiChanges: seq<string>)
    requires OriginalLines(stats) != 0
    ensures var r := Assess(filename, analysis, stats, aiChanges);
      var c := ScoreComponents(analysis, stats, aiChanges);
      && r.Success?
      && (AdviceText(Refactor) in r.value.recommendations <==> c.complexityRisk > 0.7)
      && (AdviceText(SplitRelease) in r.value.recommendations <==> c.changeVolumeRisk > 0.5)
      && (AdviceText(Testing) in r.value.recommendations <==> WeightedTotal(c) > 40.0)
      && (AdviceText(UnitTests) in r.value.recommendations <==> WeightedTotal(c) > 40.0)
  {
    var c := ScoreComponents(analysis, stats, aiChanges);
    RenderedTriggers(WeightedTotal(c), c.complexityRisk, c.changeVolumeRisk, analysis.issues);
  }

  /** A total just under the PASS threshold is stored as 30.00 yet passes:
      the gate sees the unrounded total. */
  lemma GateUsesUnroundedTotal()
    ensures
      var analysis := AnalysisReport(Some(ComplexitySection(Some(19.9973), Some(0))), []);
      var stats := ChangeStats(Some(0), Some(10));
      var a := Assess("app.py", analysis, stats, []);
      a.Success? && a.value.riskScore == 30.0 && a.value.gateDecision == Pass
  {
    var analysis := AnalysisReport(Some(ComplexitySection(Some(19.9973), Some(0))), []);
    var stats := ChangeStats(Some(0), Some(10));
    assert ComplexityRisk(analysis) == 0.999865;
    assert TotalRisk(analysis, stats, []) == 29.99595;
    assert (2999.595).Floor == 2999;
  }

  // ---------------------------------------------------------------------
  // The project verdict
  // ---------------------------------------------------------------------

  datatype GateCounts = GateCounts(pass: nat, warn: nat, block: nat)

  datatype OverallAssessment = OverallAssessment(
    filesAssessed: nat,
    averageRiskScore: real,
    overallGateDecision: Gate,
    gateCounts: GateCounts)

  /** Number of assessments with gate `g`. */
  function CountGate(all: seq<RiskAssessment>, g: Gate): (n: nat)
    ensures n <= |all|
    ensures n == 0 <==> forall i :: 0 <= i < |all| ==> all[i].gateDecision != g
  {
    if all == [] then 0
    else
      var init := all[..|all| - 1];
      assert forall i :: 0 <= i < |init| ==> init[i] == all[i];
      CountGate(init, g) + if all[|all| - 1].gateDecision == g then 1 else 0
  }

  /** Every assessment is counted under exactly one gate. */
  lemma {:induction false} GateCountsPartition(all: seq<RiskAssessment>)
    ensures CountGate(all, Pass) + CountGate(all, Warn) + CountGate(all, Block) == |all|
  {
    if all != [] {
      GateCountsPartition(all[..|all| - 1]);
    }
  }

  function Scores(all: seq<RiskAssessment>): (s: seq<real>)
    ensures |s| == |all| && forall i :: 0 <= i < |all| ==> s[i] == all[i].riskScore
  {
    seq(|all|, i requires 0 <= i < |all| => all[i].riskScore)
  }

  lemma AverageInRange(all: seq<RiskAssessment>)
    requires all != []
    ensures (forall i :: 0 <= i < |all| ==> 0.0 <= all[i].riskScore <= 100.0) ==>
              0.0 <= RoundCents(Mean(Scores(all))) <= 100.0
  {
    if forall i :: 0 <= i < |all| ==> 0.0 <= all[i].riskScore <= 100.0 {
      MeanBounds(Scores(all), 0.0, 100.0);
      RoundCentsWithin(Mean(Scores(all)), 0, 100);
    }
  }

  /** The project verdict over a list of assessments; None for an empty list.
      The most restrictive gate wins, however few files hold it. */
  function Summarize(all: seq<RiskAssessment>): (o: Option<OverallAssessment>)
    ensures o.None? <==> all == []
    ensures o.Some? ==> o.value.filesAssessed == |all|
    ensures o.Some? ==> o.value.gateCounts == GateCounts(CountGate(all, Pass), CountGate(all, Warn), CountGate(all, Block))
    ensures o.Some? ==> o.value.gateCounts.pass + o.value.gateCounts.warn + o.value.gateCounts.block == |all|
    ensures o.Some? ==> o.value.averageRiskScore == RoundCents(Mean(Scores(all)))
    ensures o.Some? ==> forall i :: 0 <= i < |all| ==>
              Restrictiveness(all[i].gateDecision) <= Restrictiveness(o.value.overallGateDecision)
    ensures o.Some? ==> exists i :: 0 <= i < |all| && all[i].gateDecision == o.value.overallGateDecision
    ensures o.Some? && (forall i :: 0 <= i < |all| ==> 0.0 <= all[i].riskScore <= 100.0) ==>
              0.0 <= o.value.averageRiskScore <= 100.0
  {
    if all == [] then None
    else
      var counts := GateCounts(CountGate(all, Pass), CountGate(all, Warn), CountGate(all, Block));
      var overall := if counts.block > 0 then Block else if counts.warn > 0 then Warn else Pass;
      GateCountsPartition(all);
      var average := RoundCents(Mean(Scores(all)));
      AverageInRange(all);
      Some(OverallAssessment(|all|, average, overall, counts))
  }

  /** A listing of a store meets a gate exactly when the store does, and
      keeps every stored score. */
  lemma StoredGates(order: seq<string>, m: map<string, RiskAssessment>, all: seq<RiskAssessment>, g: Gate)
    requires Lists(order, m)
    requires |all| == |order| && forall i :: 0 <= i < |order| ==> all[i] == m[order[i]]
    ensures (exists i :: 0 <= i < |all| && all[i].gateDecision == g) <==> (exists f :: f in m && m[f].gateDecision == g)
    ensures (forall i :: 0 <= i < |all| ==> 0.0 <= all[i].riskScore <= 100.0) <==>
            (forall f :: f in m ==> 0.0 <= m[f].riskScore <= 100.0)
  {
    forall f | f in m ensures exists i :: 0 <= i < |all| && all[i] == m[f] {
      var j :| 0 <= j < |order| && order[j] == f;
      assert all[j] == m[f];
    }
    forall i | 0 <= i < |all| ensures order[i] in m {
      assert order[i] in order;
    }
  }

  /** Holds the assessments of one run, keyed by filename. */
  class RiskAssessor {
    var assessments: map<string, RiskAssessment>
    /** Insertion order of the keys of `assessments`. */
    var order: seq<string>

    ghost predicate Valid()
      reads this
    {
      && Lists(order, assessments)
      && forall f :: f in assessments ==>
           assessments[f].filename == f && 0.0 <= assessments[f].riskScore <= 100.0
    }

    constructor ()
      ensures Valid() && assessments == map[] && order == []
    {
      assessments := map[];
      order := [];
    }

    /** Assesses one file and stores the result under its filename,
        replacing an earlier entry; on failure the store is unchanged. */
    method AssessRisk(filename: string, analysis: AnalysisReport, stats: ChangeStats, aiChanges: seq<string>)
      returns (r: Result<RiskAssessment, RiskError>)
      requires Valid()
      modifies this
      ensures Valid()
      ensures r == Assess(filename, analysis, stats, aiChanges)
      ensures r.Success? ==> assessments == old(assessments)[filename := r.value] && order == Put(old(order), filename)
      ensures r.Failure? ==> assessments == old(assessments) && order == old(order)
    {
      r := Assess(filename, analysis, stats, aiChanges);
      if r.Success? {
        assessments := assessments[filename := r.value];
        order := Put(order, filename);
      }
    }

    /** The stored assessments in key order. */
    function Stored(): (all: seq<RiskAssessment>)
      reads this
      requires Valid()
      ensures |all| == |order|
      ensures forall i :: 0 <= i < |order| ==> all[i] == assessments[order[i]]
    {
      seq(|order|, i reads this requires 0 <= i < |order| && Valid() => assessments[order[i]])
    }

    /** The project verdict over the store: None when nothing was assessed;
        otherwise BLOCK if any file blocks, else WARN if any file warns,
        else PASS. */
    function GetOverallAssessment(): (o: Option<OverallAssessment>)
      reads this
      requires Valid()
      ensures o.None? <==> assessments == map[]
      ensures o.Some? ==> o.value.filesAssessed == |assessments|
      ensures o.Some? ==> o.value.gateCounts.pass + o.value.gateCounts.warn + o.value.gateCounts.block == |assessments|
      ensures o.Some? ==>
        o.value.gateCounts == GateCounts(CountGate(Stored(), Pass), CountGate(Stored(), Warn), CountGate(Stored(), Block))
      ensures o.Some? ==> o.value.averageRiskScore == RoundCents(Mean(Scores(Stored())))
      ensures o.Some? ==>
        (o.value.overallGateDecision == Block <==> exists f :: f in assessments && assessments[f].gateDecision == Block)
      ensures o.Some? ==>
        (o.value.overallGateDecision == Pass <==> forall f :: f in assessments ==> assessments[f].gateDecision == Pass)
      ensures o.Some? ==> 0.0 <= o.value.averageRiskScore <= 100.0
    {
      var all := Stored();
      ListsSize(order, assessments);
      assert order == [] ==> assessments == map[];
      StoredGates(order, assessments, all, Block);
      StoredGates(order, assessments, all, Warn);
      Summarize(all)
    }
  }
}
