/** Static analysis of one source file: line counts and the maintainability
    index, cyclomatic complexity per function with its rank, and a store of
    the per-file results with a summary over it. The complexity blocks,
    the maintainability value and the issue list come from outside (the
    complexity library and the syntax-tree walk). */
module CodeAnalyzer {
  import opened Wrappers
  import opened Numbers
  import opened Issues
  import opened OrderedKeys
  import opened AstHelper

  // ---------------------------------------------------------------------
  // Rank bands
  // ---------------------------------------------------------------------

  /** The five complexity ranks; there is no rank E. */
  datatype Rank = A | B | C | D | F

  /** Position of a rank from simplest to most complex. */
  function RankIndex(r: Rank): nat {
    match r
    case A => 0
    case B => 1
    case C => 2
    case D => 3
    case F => 4
  }

  /** `_get_complexity_rank`, as a rank: up to 5 is A, up to 10 B, up to 20
      C, up to 30 D and anything above F. */
  function RankOf(complexity: int): (r: Rank)
    ensures r == A <==> complexity <= 5
    ensures r == B <==> 5 < complexity <= 10
    ensures r == C <==> 10 < complexity <= 20
    ensures r == D <==> 20 < complexity <= 30
    ensures r == F <==> 30 < complexity
  {
    if complexity <= 5 then A
    else if complexity <= 10 then B
    else if complexity <= 20 then C
    else if complexity <= 30 then D
    else F
  }

  /** The label a rank is reported with. */
  function RankLabel(r: Rank): string {
    match r
    case A => "A (simple)"
    case B => "B (moderate)"
    case C => "C (complex)"
    case D => "D (very complex)"
    case F => "F (extremely complex)"
  }

  /** Different ranks are reported with different labels. */
  lemma RankLabelInjective(r: Rank, s: Rank)
    requires RankLabel(r) == RankLabel(s)
    ensures r == s
  {
    assert RankLabel(r)[0] == RankLabel(s)[0];
  }

  /** More complex code never gets a simpler rank. */
  lemma RankMonotone(a: int, b: int)
    requires a <= b
    ensures RankIndex(RankOf(a)) <= RankIndex(RankOf(b))
  {
  }

  // ---------------------------------------------------------------------
  // Complexity aggregation
  // ---------------------------------------------------------------------

  /** A block reported by the complexity library: a function or method with
      its cyclomatic complexity (at least 1, so never negative). */
  datatype Block = Block(name: string, complexity: nat, lineno: nat)

  /** One entry of the `functions` list of a complexity report. */
  datatype FunctionComplexity = FunctionComplexity(name: string, complexity: nat, lineno: nat, rank: Rank)

  datatype ComplexityReport = ComplexityReport(average: real, functions: seq<FunctionComplexity>, highComplexityCount: nat)

  /** The report returned when the complexity library raises. */
  const EmptyComplexity := ComplexityReport(0.0, [], 0)

  function Ranked(b: Block): FunctionComplexity {
    FunctionComplexity(b.name, b.complexity, b.lineno, RankOf(b.complexity))
  }

  function Complexities(fs: seq<FunctionComplexity>): (xs: seq<real>)
    ensures |xs| == |fs| && forall k :: 0 <= k < |fs| ==> xs[k] == fs[k].complexity as real
  {
    seq(|fs|, k requires 0 <= k < |fs| => fs[k].complexity as real)
  }

  /** Number of functions with complexity above 10. */
  function HighCount(fs: seq<FunctionComplexity>): nat {
    if fs == [] then 0
    else HighCount(fs[..|fs| - 1]) + if fs[|fs| - 1].complexity > 10 then 1 else 0
  }

  /** `high_complexity_count` never exceeds the number of functions; it is 0
      exactly when no function is above 10 and equals the number of
      functions exactly when every one is. */
  lemma {:induction false} HighCountBounds(fs: seq<FunctionComplexity>)
    ensures HighCount(fs) <= |fs|
    ensures HighCount(fs) == 0 <==> forall k :: 0 <= k < |fs| ==> fs[k].complexity <= 10
    ensures HighCount(fs) == |fs| <==> forall k :: 0 <= k < |fs| ==> fs[k].complexity > 10
  {
    if fs != [] {
      var init := fs[..|fs| - 1];
      HighCountBounds(init);
      assert forall k :: 0 <= k < |init| ==> init[k] == fs[k];
    }
  }

  /** The mean complexity rounded to two decimals; 0 without functions. */
  function AverageOf(fs: seq<FunctionComplexity>): real {
    if fs == [] then 0.0 else RoundCents(Mean(Complexities(fs)))
  }

  /** The average lies within any whole-number bounds of the complexities,
      and so is never negative. */
  lemma AverageWithin(fs: seq<FunctionComplexity>, lo: nat, hi: nat)
    requires fs != []
    requires forall k :: 0 <= k < |fs| ==> lo <= fs[k].complexity <= hi
    ensures lo as real <= AverageOf(fs) <= hi as real
  {
    MeanBounds(Complexities(fs), lo as real, hi as real);
    RoundCentsWithin(Mean(Complexities(fs)), lo, hi);
  }

  lemma AverageNonNegative(fs: seq<FunctionComplexity>)
    ensures AverageOf(fs) >= 0.0
  {
    if fs != [] {
      MeanBounds(Complexities(fs), 0.0, MaxOf(Complexities(fs)));
      RoundCentsNonNegative(Mean(Complexities(fs)));
    }
  }

  function MaxOf(xs: seq<real>): (m: real)
    ensures forall k :: 0 <= k < |xs| ==> xs[k] <= m
  {
    if xs == [] then 0.0
    else
      var m := MaxOf(xs[..|xs| - 1]);
      assert forall k :: 0 <= k < |xs| - 1 ==> xs[k] == xs[..|xs| - 1][k];
      if xs[|xs| - 1] > m then xs[|xs| - 1] else m
  }

  /** `_analyze_complexity` on the library's answer: the blocks in order,
      each with its rank, their rounded mean and the number above 10; the
      empty report when the library raises. */
  function ComplexityOf(radon: Option<seq<Block>>): (r: ComplexityReport)
    ensures radon.None? ==> r == EmptyComplexity
    ensures radon.Some? ==> |r.functions| == |radon.value|
    ensures radon.Some? ==> forall k :: 0 <= k < |r.functions| ==> r.functions[k] == Ranked(radon.value[k])
    ensures r.average == AverageOf(r.functions) && r.highComplexityCount == HighCount(r.functions)
  {
    match radon
    case None => EmptyComplexity
    case Some(blocks) =>
      var fs := seq(|blocks|, k requires 0 <= k < |blocks| => Ranked(blocks[k]));
      ComplexityReport(AverageOf(fs), fs, HighCount(fs))
  }

  /** The loop of `_analyze_complexity`: one ranked entry per block. */
  method AnalyzeComplexity(radon: Option<seq<Block>>) returns (r: ComplexityReport)
    ensures r == ComplexityOf(radon)
    ensures r.highComplexityCount <= |r.functions| && r.average >= 0.0
  {
    if radon.None? {
      return EmptyComplexity;
    }
    var blocks := radon.value;
    var functions: seq<FunctionComplexity> := [];
    var i := 0;
    while i < |blocks|
      invariant 0 <= i <= |blocks|
      invariant |functions| == i
      invariant forall k :: 0 <= k < i ==> functions[k] == Ranked(blocks[k])
    {
      functions := functions + [Ranked(blocks[i])];
      i := i + 1;
    }
    assert functions == ComplexityOf(radon).functions;
    HighCountBounds(functions);
    AverageNonNegative(functions);
    r := ComplexityReport(AverageOf(functions), functions, HighCount(functions));
  }

  // ---------------------------------------------------------------------
  // Metrics
  // ---------------------------------------------------------------------

  /** What the maintainability-index library gives back. */
  datatype MaintainabilityOutcome = Numeric(value: real) | NotNumeric | Raised

  /** The maintainability index rounded to two decimals, 0 when the library
      raises or answers with something that is not a number. */
  function MaintainabilityIndex(mi: MaintainabilityOutcome): (v: real)
    ensures mi.Numeric? ==> mi.value - 0.005 <= v <= mi.value + 0.005
    ensures !mi.Numeric? ==> v == 0.0
  {
    match mi
    case Numeric(x) => RoundCents(x)
    case _ => 0.0
  }

  /** An index on the library's 0 to 100 scale stays on it after rounding. */
  lemma MaintainabilityWithin(mi: MaintainabilityOutcome)
    requires mi.Numeric? ==> 0.0 <= mi.value <= 100.0
    ensures 0.0 <= MaintainabilityIndex(mi) <= 100.0
  {
    if mi.Numeric? {
      RoundCentsWithin(mi.value, 0, 100);
    }
  }

  datatype Metrics = Metrics(lines: LineCounts, maintainabilityIndex: real)

  /** `_calculate_metrics`. */
  function CalculateMetrics(source: string, mi: MaintainabilityOutcome): (m: Metrics)
    ensures m.lines == CountLinesOfCode(source)
    ensures m.lines.blank + m.lines.comments + m.lines.code == m.lines.total
    ensures mi.Numeric? ==> mi.value - 0.005 <= m.maintainabilityIndex <= mi.value + 0.005
    ensures !mi.Numeric? ==> m.maintainabilityIndex == 0.0
  {
    Metrics(CountLinesOfCode(source), MaintainabilityIndex(mi))
  }

  // ---------------------------------------------------------------------
  // Store and summary
  // ---------------------------------------------------------------------

  /** The result of `analyze_file`; the structure section is not modelled. */
  datatype FileAnalysis = FileAnalysis(filename: string, metrics: Metrics, complexity: ComplexityReport, issues: seq<Issue>)

  datatype AnalysisSummary = AnalysisSummary(filesAnalyzed: nat, totalIssues: nat, averageComplexity: real, files: seq<string>)

  /** Total number of issues over a list of file results. */
  function TotalIssues(results: seq<FileAnalysis>): nat {
    if results == [] then 0
    else TotalIssues(results[..|results| - 1]) + |results[|results| - 1].issues|
  }

  /** Every file's issues are part of the total, and the total is 0 exactly
      when no file has an issue. */
  lemma {:induction false} TotalIssuesBounds(results: seq<FileAnalysis>)
    ensures forall k :: 0 <= k < |results| ==> |results[k].issues| <= TotalIssues(results)
    ensures TotalIssues(results) == 0 <==> forall k :: 0 <= k < |results| ==> results[k].issues == []
  {
    if results != [] {
      var init := results[..|results| - 1];
      TotalIssuesBounds(init);
      assert forall k :: 0 <= k < |init| ==> init[k] == results[k];
    }
  }

  function FileAverages(results: seq<FileAnalysis>): (xs: seq<real>)
    ensures |xs| == |results| && forall k :: 0 <= k < |results| ==> xs[k] == results[k].complexity.average
  {
    seq(|results|, k requires 0 <= k < |results| => results[k].complexity.average)
  }

  /** `get_analysis_summary` over the stored results in key order: nothing
      for an empty store. */
  function Summary(names: seq<string>, results: seq<FileAnalysis>): (s: Option<AnalysisSummary>)
    requires |names| == |results|
    ensures s.None? <==> results == []
    ensures s.Some? ==> s.value.filesAnalyzed == |results| && s.value.files == names
    ensures s.Some? ==> s.value.totalIssues == TotalIssues(results)
    ensures s.Some? ==> s.value.averageComplexity == RoundCents(Mean(FileAverages(results)))
  {
    if results == [] then None
    else Some(AnalysisSummary(|results|, TotalIssues(results), RoundCents(Mean(FileAverages(results))), names))
  }

  /** The summary's average lies within any whole-number bounds of the
      per-file averages. */
  lemma SummaryAverageWithin(names: seq<string>, results: seq<FileAnalysis>, lo: nat, hi: nat)
    requires |names| == |results| && results != []
    requires forall k :: 0 <= k < |results| ==> lo as real <= results[k].complexity.average <= hi as real
    ensures lo as real <= Summary(names, results).value.averageComplexity <= hi as real
  {
    MeanBounds(FileAverages(results), lo as real, hi as real);
    RoundCentsWithin(Mean(FileAverages(results)), lo, hi);
  }

  /** A stored result is filed under its own name and its complexity
      report keeps the bounds `_analyze_complexity` guarantees. */
  predicate Entry(f: string, a: FileAnalysis) {
    && a.filename == f
    && a.complexity.average >= 0.0
    && a.complexity.highComplexityCount <= |a.complexity.functions|
  }

  predicate Consistent(m: map<string, FileAnalysis>) {
    forall f :: f in m ==> Entry(f, m[f])
  }

  class CodeAnalyzer {
    var analysisResults: map<string, FileAnalysis>
    /** Insertion order of the keys of `analysisResults`. */
    var order: seq<string>

    ghost predicate Valid()
      reads this
    {
      Lists(order, analysisResults) && Consistent(analysisResults)
    }

    constructor ()
      ensures Valid() && analysisResults == map[] && order == []
    {
      analysisResults := map[];
      order := [];
    }

    /** Analyzes one file and stores the result under its filename,
        replacing an earlier entry. */
    method AnalyzeFile(filename: string, source: string, radon: Option<seq<Block>>,
                       mi: MaintainabilityOutcome, issues: seq<Issue>)
      returns (r: FileAnalysis)
      requires Valid()
      modifies this
      ensures Valid()
      ensures r.filename == filename && r.issues == issues
      ensures r.metrics == CalculateMetrics(source, mi)
      ensures r.complexity == ComplexityOf(radon)
      ensures analysisResults == old(analysisResults)[filename := r]
      ensures order == Put(old(order), filename)
    {
      var complexity := AnalyzeComplexity(radon);
      r := FileAnalysis(filename, CalculateMetrics(source, mi), complexity, issues);
      analysisResults := analysisResults[filename := r];
      order := Put(order, filename);
    }

    /** The stored results in key order. */
    function Stored(): (all: seq<FileAnalysis>)
      reads this
      requires Valid()
      ensures |all| == |order|
      ensures forall i :: 0 <= i < |order| ==> all[i] == analysisResults[order[i]]
    {
      seq(|order|, i reads this requires 0 <= i < |order| && Valid() => analysisResults[order[i]])
    }

    /** `get_analysis_summary`: nothing for an empty store; otherwise the
        number of files, the total of their issues, the rounded mean of
        their complexity averages (never negative) and their names, each
        once, in insertion order. */
    function GetAnalysisSummary(): (s: Option<AnalysisSummary>)
      reads this
      requires Valid()
      ensures s.None? <==> analysisResults == map[]
      ensures s.Some? ==> s.value.filesAnalyzed == |analysisResults|
      ensures s.Some? ==> s.value.files == order && Lists(s.value.files, analysisResults)
      ensures s.Some? ==> s.value.totalIssues == TotalIssues(Stored())
      ensures s.Some? ==> s.value.averageComplexity == RoundCents(Mean(FileAverages(Stored())))
      ensures s.Some? ==> s.value.averageComplexity >= 0.0
      ensures s.Some? ==> forall f :: f in analysisResults ==> |analysisResults[f].issues| <= s.value.totalIssues
    {
      var all := Stored();
      ListsSize(order, analysisResults);
      assert order == [] ==> analysisResults == map[];
      TotalIssuesBounds(all);
      SummaryFacts(order, all);
      Summary(order, all)
    }
  }

  /** The facts the summary needs from the store: every key appears at some
      position, and every stored average is non-negative. */
  lemma SummaryFacts(order: seq<string>, all: seq<FileAnalysis>)
    requires |order| == |all|
    ensures all != [] && (forall k :: 0 <= k < |all| ==> all[k].complexity.average >= 0.0)
            ==> Summary(order, all).value.averageComplexity >= 0.0
  {
    if all != [] && forall k :: 0 <= k < |all| ==> all[k].complexity.average >= 0.0 {
      MeanBounds(FileAverages(all), 0.0, MaxOf(FileAverages(all)));
      RoundCentsNonNegative(Mean(FileAverages(all)));
    }
  }
}
