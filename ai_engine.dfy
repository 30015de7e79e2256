/** Reading the language model's reply: the marker-delimited sections of a
    response (modified code, change list, explanation), the fallback result
    when the model cannot be used, the issue list written into the prompt,
    and the size of a modification. The model call itself is an input. */
module AiEngine {
  import opened Wrappers
  import opened Text
  import opened Numbers
  import opened Issues

  const ModifiedCodeMarker: string := "MODIFIED CODE:"
  const ChangesMarker: string := "CHANGES MADE:"
  const ExplanationMarker: string := "EXPLANATION:"
  const PythonFence: string := "```python"
  const Fence: string := "```"

  /** The result of one analysis. */
  datatype AnalysisResult = AnalysisResult(
    modifiedCode: string,
    changesMade: seq<string>,
    explanation: string,
    success: bool)

  // ---------------------------------------------------------------------
  // Sections of a response
  // ---------------------------------------------------------------------

  /** Python `s.split(m)[0]`: the text before the first occurrence of `m`,
      or all of it; it stops at the end or at an occurrence of `m`. */
  function Before(s: string, m: string): (r: string)
    requires m != []
    ensures |r| <= |s| && r == s[..|r|] && !Contains(r, m)
    ensures |r| == |s| || OccursAt(s, m, |r|)
  {
    SplitPieceFree(s, m, 0);
    Split(s, m)[0]
  }

  /** The text between the first occurrence of `m` and the next one (or the
      end); SectionAfterIsSplit shows it is Python's `s.split(m)[1]`. */
  function SectionAfter(s: string, m: string): (r: string)
    requires m != [] && Contains(s, m)
  {
    Before(s[Find(s, m) + |m|..], m)
  }

  /** `SectionAfter` is the second piece of Python's `s.split(m)`. */
  lemma SectionAfterIsSplit(s: string, m: string)
    requires m != [] && Contains(s, m)
    ensures |Split(s, m)| >= 2 && SectionAfter(s, m) == Split(s, m)[1]
  {
    SplitStep(s, m);
  }

  /** The section after a marker follows its first occurrence, stops at the
      next occurrence or at the end, and never contains the marker. */
  lemma SectionAfterSpec(s: string, m: string)
    requires m != [] && Contains(s, m)
    ensures var i, r := Find(s, m), SectionAfter(s, m);
      && i + |m| + |r| <= |s|
      && s[i + |m|..i + |m| + |r|] == r
      && !Contains(r, m)
      && (i + |m| + |r| == |s| || OccursAt(s, m, i + |m| + |r|))
  {
    PrefixOfSuffix(s, m, Find(s, m), SectionAfter(s, m));
  }

  /** A prefix of the text after an occurrence of `m` at `i` that stops at
      the end or at an occurrence of `m` is, read in `s`, a slice that stops
      at the end or at an occurrence. */
  lemma PrefixOfSuffix(s: string, m: string, i: nat, r: string)
    requires i + |m| <= |s|
    requires |r| <= |s[i + |m|..]| && r == s[i + |m|..][..|r|]
    requires |r| == |s[i + |m|..]| || OccursAt(s[i + |m|..], m, |r|)
    ensures i + |m| + |r| <= |s| && s[i + |m|..i + |m| + |r|] == r
    ensures i + |m| + |r| == |s| || OccursAt(s, m, i + |m| + |r|)
  {
    var k := i + |m|;
    if k + |r| < |s| {
      assert s[k..][|r|..|r| + |m|] == s[k + |r|..k + |r| + |m|];
    }
  }

  /** The code between a fence and the next closing fence, stripped. */
  function FencedCode(section: string, fence: string): (code: string)
    requires fence != [] && Contains(section, fence)
  {
    Strip(Before(SectionAfter(section, fence), Fence))
  }

  /** `modified_code` of a reply: the fenced block of the section after
      MODIFIED CODE:, preferring a ```python fence; the original code when
      there is no marker or no fence. */
  function ExtractModifiedCode(response: string, original: string): string {
    if !Contains(response, ModifiedCodeMarker) then original
    else
      var section := SectionAfter(response, ModifiedCodeMarker);
      if Contains(section, PythonFence) then FencedCode(section, PythonFence)
      else if Contains(section, Fence) then FencedCode(section, Fence)
      else original
  }

  /** Without a marker, or without a fence after it, the code is left as it was. */
  lemma ModifiedCodeDefaults(response: string, original: string)
    ensures !Contains(response, ModifiedCodeMarker) ==> ExtractModifiedCode(response, original) == original
    ensures Contains(response, ModifiedCodeMarker) && !Contains(SectionAfter(response, ModifiedCodeMarker), Fence)
            ==> ExtractModifiedCode(response, original) == original
  {
    if Contains(response, ModifiedCodeMarker) {
      var section := SectionAfter(response, ModifiedCodeMarker);
      if Contains(section, PythonFence) {
        var k := Find(section, PythonFence);
        assert OccursAt(section, PythonFence, k);
        assert section[k..k + 3] == section[k..k + |PythonFence|][..3];
        assert PythonFence[..3] == Fence;
        assert OccursAt(section, Fence, k);
        ContainsIff(section, Fence);
      }
    }
  }

  /** Code taken from a fenced block is stripped and holds no fence, so it
      cannot run past the closing fence. */
  lemma FencedCodeIsClean(section: string, fence: string)
    requires fence != [] && Contains(section, fence)
    ensures !Contains(FencedCode(section, fence), Fence)
    ensures Strip(FencedCode(section, fence)) == FencedCode(section, fence)
  {
    StripKeepsAbsence(Before(SectionAfter(section, fence), Fence), Fence);
    StripIdempotent(Before(SectionAfter(section, fence), Fence));
  }

  /** A line of the change section that names a change: non-blank once
      stripped, and starting with a digit or a dash. */
  predicate IsChangeLine(line: string) {
    var t := Strip(line);
    t != [] && (IsDigit(t[0]) || StartsWith(t, "-"))
  }

  /** The change lines, stripped, in order. */
  function ChangeLines(lines: seq<string>): (r: seq<string>)
    ensures |r| <= |lines|
    ensures forall k :: 0 <= k < |r| ==> IsChangeLine(r[k]) && Strip(r[k]) == r[k]
  {
    if lines == [] then []
    else
      var last := lines[|lines| - 1];
      StripIdempotent(last);
      ChangeLines(lines[..|lines| - 1]) + if IsChangeLine(last) then [Strip(last)] else []
  }

  /** Selecting change lines works line by line: it distributes over
      concatenation, so the order of the response is kept. */
  lemma {:induction false} ChangeLinesAppend(a: seq<string>, b: seq<string>)
    ensures ChangeLines(a + b) == ChangeLines(a) + ChangeLines(b)
    decreases |b|
  {
    if b != [] {
      var init := b[..|b| - 1];
      var last := b[|b| - 1];
      assert (a + b)[..|a + b| - 1] == a + init;
      assert ChangeLines(a + b) == ChangeLines(a + init) + if IsChangeLine(last) then [Strip(last)] else [];
      ChangeLinesAppend(a, init);
    } else {
      assert a + b == a;
    }
  }

  /** Selecting again from a selection changes nothing. */
  lemma {:induction false} ChangeLinesIdempotent(lines: seq<string>)
    ensures ChangeLines(ChangeLines(lines)) == ChangeLines(lines)
    decreases |lines|
  {
    if lines != [] {
      var init := lines[..|lines| - 1];
      var last := lines[|lines| - 1];
      ChangeLinesIdempotent(init);
      var tail := if IsChangeLine(last) then [Strip(last)] else [];
      ChangeLinesAppend(ChangeLines(init), tail);
      if IsChangeLine(last) {
        StripIdempotent(last);
        assert ChangeLines(tail) == ChangeLines([] + tail);
        ChangeLinesAppend([], tail);
      }
    }
  }

  /** The text of the change section: after CHANGES MADE:, up to EXPLANATION:. */
  function ChangesSection(response: string): string
    requires Contains(response, ChangesMarker)
  {
    Before(SectionAfter(response, ChangesMarker), ExplanationMarker)
  }

  /** `changes_made` of a reply; empty when there is no change section. */
  function ExtractChanges(response: string): seq<string> {
    if !Contains(response, ChangesMarker) then []
    else ChangeLines(Split(Strip(ChangesSection(response)), "\n"))
  }

  /** `explanation` of a reply: the stripped text after EXPLANATION:, or
      the whole reply when that marker is absent. */
  function ExtractExplanation(response: string): string {
    if Contains(response, ExplanationMarker) then Strip(SectionAfter(response, ExplanationMarker))
    else response
  }

  /** Fills the result section by section, starting from the original code,
      no changes and an empty explanation. */
  method ParseAiResponse(response: string, original: string) returns (r: AnalysisResult)
    ensures r.success
    ensures r.modifiedCode == ExtractModifiedCode(response, original)
    ensures r.changesMade == ExtractChanges(response)
    ensures r.explanation == ExtractExplanation(response)
    ensures !Contains(response, ModifiedCodeMarker) ==> r.modifiedCode == original
    ensures !Contains(response, ChangesMarker) ==> r.changesMade == []
    ensures forall k :: 0 <= k < |r.changesMade| ==> IsChangeLine(r.changesMade[k])
    ensures !Contains(response, ExplanationMarker) ==> r.explanation == response
  {
    r := AnalysisResult(original, [], "", true);
    if Contains(response, ModifiedCodeMarker) {
      var section := SectionAfter(response, ModifiedCodeMarker);
      if Contains(section, PythonFence) {
        r := r.(modifiedCode := FencedCode(section, PythonFence));
      } else if Contains(section, Fence) {
        r := r.(modifiedCode := FencedCode(section, Fence));
      }
    }
    if Contains(response, ChangesMarker) {
      var section := ChangesSection(response);
      r := r.(changesMade := ChangeLines(Split(Strip(section), "\n")));
    }
    if Contains(response, ExplanationMarker) {
      r := r.(explanation := Strip(SectionAfter(response, ExplanationMarker)));
    } else {
      r := r.(explanation := response);
    }
  }

  // ---------------------------------------------------------------------
  // The model call and its fallback
  // ---------------------------------------------------------------------

  /** What the model call gave back: a reply text, or the message of the
      exception it raised. */
  datatype OracleReply = Reply(text: string) | CallFailed(message: string)

  const EmptyReplyMessage: string := "Received empty response from AI model."

  /** The result returned when the analysis cannot be used: the source as
      it was, no changes, the error in the explanation. */
  function Fallback(source: string, message: string): (r: AnalysisResult)
    ensures !r.success && r.modifiedCode == source && r.changesMade == []
    ensures StartsWith(r.explanation, "Error during AI analysis: ")
  {
    var prefix := "Error during AI analysis: ";
    assert (prefix + message)[..|prefix|] == prefix;
    AnalysisResult(source, [], prefix + message, false)
  }

  /** The issue list is formatted for the prompt before the model is
      called and outside the fallback, so a listed issue without a severity
      makes the whole call fail. After that an empty reply counts as a
      failure and any other reply is parsed. */
  method AnalyzeAndModify(source: string, issues: seq<Issue>, reply: OracleReply)
    returns (r: Result<AnalysisResult, FormatError>)
    ensures r.Failure? <==> exists k :: 0 <= k < ListedCount(issues) && issues[k].severity.None?
    ensures r.Failure? ==> r.error.index < ListedCount(issues) && issues[r.error.index].severity.None?
    ensures r.Success? ==> (r.value.success <==> reply.Reply? && reply.text != [])
    ensures r.Success? && !r.value.success ==> r.value.modifiedCode == source && r.value.changesMade == []
    ensures r.Success? && reply.Reply? && reply.text == [] ==> r.value == Fallback(source, EmptyReplyMessage)
    ensures r.Success? && reply.CallFailed? ==> r.value == Fallback(source, reply.message)
    ensures r.Success? && r.value.success ==>
      && r.value.modifiedCode == ExtractModifiedCode(reply.text, source)
      && r.value.changesMade == ExtractChanges(reply.text)
      && r.value.explanation == ExtractExplanation(reply.text)
  {
    var issuesSummary := FormatIssues(issues);
    if issuesSummary.Failure? {
      return Failure(issuesSummary.error);
    }
    match reply
    case CallFailed(message) =>
      r := Success(Fallback(source, message));
    case Reply(text) =>
      if text == [] {
        r := Success(Fallback(source, EmptyReplyMessage));
      } else {
        var parsed := ParseAiResponse(text, source);
        r := Success(parsed);
      }
  }

  // ---------------------------------------------------------------------
  // The issue list of the prompt
  // ---------------------------------------------------------------------

  const NoIssuesText: string := "No issues detected."
  const IssuesTitle: string := "**Issues Detected:**"
  const IssuesHeader: string := IssuesTitle + "\n"
  /** Issues beyond this many are summarised in one line. */
  const ListedIssues: nat := 10

  /** Reading `severity` of an issue that has none fails. */
  datatype FormatError = MissingSeverity(index: nat)

  /** One numbered issue line. */
  function IssueLine(number: nat, issue: Issue): string
    requires issue.severity.Some?
  {
    NatToString(number) + ". Line " + IntToString(issue.line) + ": " + issue.message
      + " (Severity: " + issue.severity.value + ")\n"
  }

  /** The numbered lines for `issues`, numbered from `first`. */
  function IssueLines(issues: seq<Issue>, first: nat): string
    requires forall k :: 0 <= k < |issues| ==> issues[k].severity.Some?
  {
    if issues == [] then ""
    else IssueLines(issues[..|issues| - 1], first) + IssueLine(first + |issues| - 1, issues[|issues| - 1])
  }

  function ListedCount(issues: seq<Issue>): nat {
    if |issues| < ListedIssues then |issues| else ListedIssues
  }

  /** The line that counts the issues left out. */
  function MoreLine(n: nat): string {
    "... and " + NatToString(n) + " more issues.\n"
  }

  /** The numbered lines of the listed issues. */
  function ShownLines(issues: seq<Issue>): string
    requires forall k :: 0 <= k < ListedCount(issues) ==> issues[k].severity.Some?
  {
    IssueLines(issues[..ListedCount(issues)], 1)
  }

  /** The remainder line, present only when issues were left out. */
  function MoreText(issues: seq<Issue>): string {
    if |issues| > ListedIssues then MoreLine(|issues| - ListedIssues) else ""
  }

  /** The issue list as written into the prompt. */
  function FormattedIssues(issues: seq<Issue>): string
    requires issues != []
    requires forall k :: 0 <= k < ListedCount(issues) ==> issues[k].severity.Some?
  {
    IssuesHeader + ShownLines(issues) + MoreText(issues)
  }

  /** Writes the first ten issues one per line, numbered from 1, then a
      line counting the rest; fails on a listed issue without a severity. */
  method FormatIssues(issues: seq<Issue>) returns (r: Result<string, FormatError>)
    ensures issues == [] ==> r == Success(NoIssuesText)
    ensures r.Failure? <==> exists k :: 0 <= k < ListedCount(issues) && issues[k].severity.None?
    ensures r.Failure? ==> r.error.index < ListedCount(issues) && issues[r.error.index].severity.None?
    ensures r.Success? && issues != [] ==> r.value == FormattedIssues(issues)
  {
    if issues == [] {
      return Success(NoIssuesText);
    }
    var n := ListedCount(issues);
    var lines := "";
    var k := 0;
    while k < n
      invariant 0 <= k <= n
      invariant forall j :: 0 <= j < k ==> issues[j].severity.Some?
      invariant lines == IssueLines(issues[..k], 1)
    {
      var issue := issues[k];
      if issue.severity.None? {
        return Failure(MissingSeverity(k));
      }
      IssueLinesStep(issues, k);
      lines := lines + IssueLine(k + 1, issue);
      k := k + 1;
    }
    r := Success(IssuesHeader + lines + MoreText(issues));
  }

  /** Listing one more issue appends its line. */
  lemma IssueLinesStep(issues: seq<Issue>, k: nat)
    requires k < |issues|
    requires forall j :: 0 <= j <= k ==> issues[j].severity.Some?
    ensures IssueLines(issues[..k + 1], 1) == IssueLines(issues[..k], 1) + IssueLine(k + 1, issues[k])
  {
    assert issues[..k + 1][..k] == issues[..k];
  }

  /** Number of line breaks in a text. */
  function Newlines(s: string): nat {
    CountChar(s, '\n')
  }

  lemma NatToStringHasNoNewline(n: nat)
    ensures '\n' !in NatToString(n)
  {
  }

  /** Each issue line ends in the only line break it has, as long as the
      message and the severity have none. */
  lemma IssueLineNewlines(number: nat, issue: Issue)
    requires issue.severity.Some? && '\n' !in issue.message && '\n' !in issue.severity.value
    ensures Newlines(IssueLine(number, issue)) == 1
  {
    NatToStringHasNoNewline(number);
    var x := NatToString(number) + ". Line " + IntToString(issue.line) + ": " + issue.message
             + " (Severity: " + issue.severity.value;
    assert IssueLine(number, issue) == x + ")\n";
    CountCharAbsent(x, '\n');
    CountCharAppend(x, ")\n", '\n');
  }

  lemma {:induction false} IssueLinesNewlines(issues: seq<Issue>, first: nat)
    requires forall k :: 0 <= k < |issues| ==> issues[k].severity.Some?
    requires forall k :: 0 <= k < |issues| ==> '\n' !in issues[k].message && '\n' !in issues[k].severity.value
    ensures Newlines(IssueLines(issues, first)) == |issues|
  {
    if issues != [] {
      IssueLinesNewlines(issues[..|issues| - 1], first);
      IssueLineNewlines(first + |issues| - 1, issues[|issues| - 1]);
      CountCharAppend(IssueLines(issues[..|issues| - 1], first), IssueLine(first + |issues| - 1, issues[|issues| - 1]), '\n');
    }
  }

  /** The listed issues take one line each. */
  lemma ShownNewlines(issues: seq<Issue>)
    requires forall k :: 0 <= k < ListedCount(issues) ==> issues[k].severity.Some?
    requires forall k :: 0 <= k < |issues| ==> '\n' !in issues[k].message
    requires forall k :: 0 <= k < ListedCount(issues) ==> '\n' !in issues[k].severity.value
    ensures Newlines(ShownLines(issues)) == ListedCount(issues)
  {
    var listed := issues[..ListedCount(issues)];
    assert forall k :: 0 <= k < |listed| ==> listed[k] == issues[k];
    IssueLinesNewlines(listed, 1);
  }

  lemma MoreTextNewlines(issues: seq<Issue>)
    ensures Newlines(MoreText(issues)) == if |issues| > ListedIssues then 1 else 0
  {
    if |issues| > ListedIssues {
      MoreLineNewlines(|issues| - ListedIssues);
    }
  }

  /** The formatted list has one line for the header, one per listed issue
      and one more for the remainder when there are more than ten. */
  lemma FormattedIssuesLineCount(issues: seq<Issue>)
    requires issues != []
    requires forall k :: 0 <= k < ListedCount(issues) ==> issues[k].severity.Some?
    requires forall k :: 0 <= k < |issues| ==> '\n' !in issues[k].message
    requires forall k :: 0 <= k < ListedCount(issues) ==> '\n' !in issues[k].severity.value
    ensures Newlines(FormattedIssues(issues)) == 1 + ListedCount(issues) + if |issues| > ListedIssues then 1 else 0
  {
    ShownNewlines(issues);
    HeaderNewlines();
    MoreTextNewlines(issues);
    PartsNewlines(IssuesHeader, ShownLines(issues), MoreText(issues),
                  ListedCount(issues), if |issues| > ListedIssues then 1 else 0);
  }

  lemma PartsNewlines(a: string, b: string, c: string, nb: nat, nc: nat)
    requires Newlines(a) == 1 && Newlines(b) == nb && Newlines(c) == nc
    ensures Newlines(a + b + c) == 1 + nb + nc
  {
    ConcatNewlines(a, b, c);
  }

  lemma ConcatNewlines(a: string, b: string, c: string)
    ensures Newlines(a + b + c) == Newlines(a) + Newlines(b) + Newlines(c)
  {
    CountCharAppend(a, b, '\n');
    CountCharAppend(a + b, c, '\n');
  }

  lemma HeaderNewlines()
    ensures Newlines(IssuesHeader) == 1
  {
    assert '\n' !in IssuesTitle;
    CountCharAbsent(IssuesTitle, '\n');
    CountCharAppend(IssuesTitle, "\n", '\n');
  }

  lemma MoreLineNewlines(n: nat)
    ensures Newlines(MoreLine(n)) == 1
  {
    NatToStringHasNoNewline(n);
    var x := "... and " + NatToString(n) + " more issues.";
    assert MoreLine(n) == x + "\n";
    CountCharAbsent(x, '\n');
    CountCharAppend(x, "\n", '\n');
  }

  // ---------------------------------------------------------------------
  // Impact of a modification
  // ---------------------------------------------------------------------

  datatype ImpactSummary = ImpactSummary(
    linesChanged: nat,
    changePercentage: real,
    numberOfChanges: nat,
    originalLines: nat,
    modifiedLines: nat)

  /** `round(changed / original * 100, 2)`: the exact percentage to within
      rounding, and 0 when nothing changed. */
  function ChangePercentage(changed: nat, original: nat): (p: real)
    requires original > 0
    ensures p >= 0.0
    ensures var exact := changed as real / original as real * 100.0;
      exact - 0.005 <= p <= exact + 0.005
    ensures changed == 0 ==> p == 0.0
  {
    var exact := changed as real / original as real * 100.0;
    DivMonotone(0.0, changed as real, original as real);
    RoundCentsNonNegative(exact);
    RoundCentsZero();
    RoundCents(exact)
  }

  /** Line counts are the pieces of a split on line breaks, so each is one
      more than the number of line breaks and never 0; the percentage is
      therefore always defined. */
  function GetImpactSummary(original: string, modified: string, changesMade: seq<string>): (s: ImpactSummary)
    ensures s.originalLines == Newlines(original) + 1
    ensures s.modifiedLines == Newlines(modified) + 1
    ensures s.linesChanged == if s.modifiedLines >= s.originalLines then s.modifiedLines - s.originalLines
                              else s.originalLines - s.modifiedLines
    ensures s.numberOfChanges == |changesMade|
    ensures s.changePercentage == ChangePercentage(s.linesChanged, s.originalLines)
  {
    var o := |Split(original, "\n")|;
    var m := |Split(modified, "\n")|;
    SplitCountsChar(original, '\n');
    SplitCountsChar(modified, '\n');
    var changed: nat := if m >= o then m - o else o - m;
    ImpactSummary(changed, ChangePercentage(changed, o), |changesMade|, o, m)
  }
}
