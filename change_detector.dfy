/** Change detection between an original and a modified text: line-count
    statistics over the opcodes of a sequence matcher, a one-line summary
    of a unified diff, an HTML and a plain-text rendering of that diff, and
    the per-filename store of analyses. The opcodes, the unified diff lines
    and the line splits of both texts are inputs. */
module ChangeDetector {
  import opened Text
  import opened OrderedKeys

  // ---------------------------------------------------------------------
  // Diff statistics
  // ---------------------------------------------------------------------

  datatype OpTag = Equal | Insert | Delete | Replace

  /** One opcode: original lines [i1, i2) become modified lines [j1, j2). */
  datatype Opcode = Opcode(tag: OpTag, i1: int, i2: int, j1: int, j2: int)

  /** Both ranges are non-empty or empty intervals, never reversed. */
  predicate Ordered(op: Opcode) {
    op.i1 <= op.i2 && op.j1 <= op.j2
  }

  predicate AllOrdered(ops: seq<Opcode>) {
    forall k :: 0 <= k < |ops| ==> Ordered(ops[k])
  }

  /** Lines inserted: the modified range of every `insert` opcode. */
  function Added(ops: seq<Opcode>): (r: int)
    ensures AllOrdered(ops) ==> r >= 0
  {
    if ops == [] then 0
    else
      var op := ops[|ops| - 1];
      Added(ops[..|ops| - 1]) + if op.tag == Insert then op.j2 - op.j1 else 0
  }

  /** Lines deleted: the original range of every `delete` opcode. */
  function Deleted(ops: seq<Opcode>): (r: int)
    ensures AllOrdered(ops) ==> r >= 0
  {
    if ops == [] then 0
    else
      var op := ops[|ops| - 1];
      Deleted(ops[..|ops| - 1]) + if op.tag == Delete then op.i2 - op.i1 else 0
  }

  function Max(a: int, b: int): int {
    if a < b then b else a
  }

  /** Lines modified: the longer of the two ranges of every `replace` opcode. */
  function Modified(ops: seq<Opcode>): (r: int)
    ensures AllOrdered(ops) ==> r >= 0
  {
    if ops == [] then 0
    else
      var op := ops[|ops| - 1];
      Modified(ops[..|ops| - 1]) + if op.tag == Replace then Max(op.i2 - op.i1, op.j2 - op.j1) else 0
  }

  function TotalChanged(ops: seq<Opcode>): int {
    Added(ops) + Deleted(ops) + Modified(ops)
  }

  datatype DiffStats = DiffStats(
    originalLines: nat,
    modifiedLines: nat,
    linesAdded: int,
    linesDeleted: int,
    linesModified: int,
    totalChanges: int)

  /** Counts changed lines opcode by opcode; `equal` opcodes add nothing. */
  method CalculateDiffStats(originalLines: seq<string>, modifiedLines: seq<string>, ops: seq<Opcode>)
    returns (stats: DiffStats)
    ensures stats.originalLines == |originalLines| && stats.modifiedLines == |modifiedLines|
    ensures stats.linesAdded == Added(ops)
    ensures stats.linesDeleted == Deleted(ops)
    ensures stats.linesModified == Modified(ops)
    ensures stats.totalChanges == stats.linesAdded + stats.linesDeleted + stats.linesModified
  {
    var additions, deletions, modifications := 0, 0, 0;
    var k := 0;
    while k < |ops|
      invariant 0 <= k <= |ops|
      invariant additions == Added(ops[..k])
      invariant deletions == Deleted(ops[..k])
      invariant modifications == Modified(ops[..k])
    {
      var op := ops[k];
      assert ops[..k + 1][..k] == ops[..k];
      if op.tag == Insert {
        additions := additions + (op.j2 - op.j1);
      } else if op.tag == Delete {
        deletions := deletions + (op.i2 - op.i1);
      } else if op.tag == Replace {
        modifications := modifications + Max(op.i2 - op.i1, op.j2 - op.j1);
      }
      k := k + 1;
    }
    assert ops[..|ops|] == ops;
    stats := DiffStats(|originalLines|, |modifiedLines|, additions, deletions, modifications,
                       additions + deletions + modifications);
  }

  /** Shape of one opcode as a sequence matcher produces it: `equal` ranges
      have the same length, `insert` has an empty original range, `delete`
      an empty modified range. */
  predicate WellShaped(op: Opcode) {
    && 0 <= op.i1 <= op.i2 && 0 <= op.j1 <= op.j2
    && (op.tag == Equal ==> op.i2 - op.i1 == op.j2 - op.j1)
    && (op.tag == Insert ==> op.i1 == op.i2)
    && (op.tag == Delete ==> op.j1 == op.j2)
  }

  /** The opcodes cover original lines [0, n) and modified lines [0, m)
      contiguously, in order. */
  predicate Tiles(ops: seq<Opcode>, n: int, m: int) {
    if ops == [] then n == 0 && m == 0
    else
      var op := ops[|ops| - 1];
      && WellShaped(op) && op.i2 == n && op.j2 == m
      && Tiles(ops[..|ops| - 1], op.i1, op.j1)
  }

  /** Over opcodes that tile an n-line original and an m-line modification,
      the total change count is at least the difference in length and at
      most the two lengths together. */
  lemma {:induction false} TotalChangedBounds(ops: seq<Opcode>, n: int, m: int)
    requires Tiles(ops, n, m)
    ensures Added(ops) >= 0 && Deleted(ops) >= 0 && Modified(ops) >= 0
    ensures n - m <= TotalChanged(ops) && m - n <= TotalChanged(ops)
    ensures TotalChanged(ops) <= n + m
    decreases |ops|
  {
    if ops != [] {
      var op := ops[|ops| - 1];
      TotalChangedBounds(ops[..|ops| - 1], op.i1, op.j1);
    }
  }

  /** When every opcode is `equal`, nothing changed. */
  lemma {:induction false} AllEqualNoChanges(ops: seq<Opcode>)
    requires forall k :: 0 <= k < |ops| ==> ops[k].tag == Equal
    ensures Added(ops) == 0 && Deleted(ops) == 0 && Modified(ops) == 0
  {
    if ops != [] {
      AllEqualNoChanges(ops[..|ops| - 1]);
    }
  }

  // ---------------------------------------------------------------------
  // Diff lines: classification, summary, HTML
  // ---------------------------------------------------------------------

  /** How a unified-diff line is shown: file headers are recognised before
      added and removed lines. */
  datatype LineKind = FileHeader | AddedLine | RemovedLine | HunkHeader | ContextLine

  function Classify(line: string): LineKind {
    if StartsWith(line, "+++") || StartsWith(line, "---") then FileHeader
    else if StartsWith(line, "+") then AddedLine
    else if StartsWith(line, "-") then RemovedLine
    else if StartsWith(line, "@@") then HunkHeader
    else ContextLine
  }

  /** Counted as an addition by the summary. */
  predicate IsAddition(line: string) {
    StartsWith(line, "+") && !StartsWith(line, "+++")
  }

  /** Counted as a deletion by the summary. */
  predicate IsDeletion(line: string) {
    StartsWith(line, "-") && !StartsWith(line, "---")
  }

  lemma StartsWithPrefix(line: string, p: string, q: string)
    requires StartsWith(line, p) && StartsWith(p, q)
    ensures StartsWith(line, q)
  {
    assert line[..|q|] == line[..|p|][..|q|];
  }

  /** The summary's additions and deletions are exactly the lines the HTML
      view colours as added and removed. */
  lemma ClassifyAgreesWithSummary(line: string)
    ensures IsAddition(line) <==> Classify(line) == AddedLine
    ensures IsDeletion(line) <==> Classify(line) == RemovedLine
  {
    if StartsWith(line, "---") {
      StartsWithPrefix(line, "---", "-");
      assert line[0] == '-';
      assert !StartsWith(line, "+");
    }
    if StartsWith(line, "+++") {
      StartsWithPrefix(line, "+++", "+");
      assert line[0] == '+';
      assert !StartsWith(line, "-");
    }
  }

  function CountAdditions(diff: seq<string>): (n: nat)
    ensures n <= |diff|
  {
    if diff == [] then 0
    else CountAdditions(diff[..|diff| - 1]) + if IsAddition(diff[|diff| - 1]) then 1 else 0
  }

  function CountDeletions(diff: seq<string>): (n: nat)
    ensures n <= |diff|
  {
    if diff == [] then 0
    else CountDeletions(diff[..|diff| - 1]) + if IsDeletion(diff[|diff| - 1]) then 1 else 0
  }

  /** Number of lines of a given kind. */
  function CountKind(diff: seq<string>, kind: LineKind): nat {
    if diff == [] then 0
    else CountKind(diff[..|diff| - 1], kind) + if Classify(diff[|diff| - 1]) == kind then 1 else 0
  }

  /** A line is never both an addition and a deletion, so the two counts
      together never exceed the diff length; and they are the HTML view's
      added and removed line counts. */
  lemma {:induction false} SummaryCountsAgree(diff: seq<string>)
    ensures CountAdditions(diff) == CountKind(diff, AddedLine)
    ensures CountDeletions(diff) == CountKind(diff, RemovedLine)
    ensures CountAdditions(diff) + CountDeletions(diff) <= |diff|
  {
    if diff != [] {
      SummaryCountsAgree(diff[..|diff| - 1]);
      ClassifyAgreesWithSummary(diff[|diff| - 1]);
    }
  }

  const NoChangesText: string := "No changes detected"

  /** The start of the summary: the number of diff lines. */
  function SummaryHead(lines: nat): string {
    "Modified " + NatToString(lines) + " diff lines: +"
  }

  /** The end of the summary: the addition and deletion counts. */
  function SummaryCounts(additions: nat, deletions: nat): string {
    NatToString(additions) + " additions, -" + NatToString(deletions) + " deletions"
  }

  /** A one-line description of a unified diff: its length, then how many
      of its lines are additions and deletions. */
  function SummarizeChanges(diff: seq<string>): (s: string)
    ensures s == NoChangesText <==> diff == []
    ensures diff != [] ==> StartsWith(s, SummaryHead(|diff|))
    ensures diff != [] ==> EndsWith(s, SummaryCounts(CountAdditions(diff), CountDeletions(diff)))
  {
    if diff == [] then NoChangesText
    else
      var head := SummaryHead(|diff|);
      var counts := SummaryCounts(CountAdditions(diff), CountDeletions(diff));
      var s := head + counts;
      assert s[..|head|] == head;
      assert s[|s| - |counts|..] == counts;
      assert head[0] == 'M';
      assert s[0] == 'M' != NoChangesText[0];
      s
  }

  const HtmlOpen: string :=
    "<div class=\"diff-container\" style=\"font-family: monospace; background: #f5f5f5; padding: 10px;\">"
  const HtmlClose: string := "</div>"
  const NoChangesHtml: string := "<p>No changes available</p>"

  /** The opening tag a line of the given kind is wrapped in. */
  function OpeningTag(kind: LineKind): string {
    match kind
    case FileHeader => "<div style=\"color: #666; font-weight: bold;\">"
    case AddedLine => "<div style=\"background: #d4ffd4; color: #006600;\">"
    case RemovedLine => "<div style=\"background: #ffd4d4; color: #660000;\">"
    case HunkHeader => "<div style=\"background: #e0e0e0; color: #000080;\">"
    case ContextLine => "<div>"
  }

  /** One diff line wrapped in the div of its kind. */
  function LineDiv(line: string): string {
    OpeningTag(Classify(line)) + line + HtmlClose
  }

  /** One div per diff line, in order. */
  function LineDivs(diff: seq<string>): (ds: seq<string>)
    ensures |ds| == |diff| && forall i :: 0 <= i < |diff| ==> ds[i] == LineDiv(diff[i])
  {
    seq(|diff|, i requires 0 <= i < |diff| => LineDiv(diff[i]))
  }

  /** Extending the diff by one line extends its divs by that line's div. */
  lemma LineDivsStep(diff: seq<string>, k: nat)
    requires k < |diff|
    ensures LineDivs(diff[..k + 1]) == LineDivs(diff[..k]) + [LineDiv(diff[k])]
  {
    var a, b := LineDivs(diff[..k + 1]), LineDivs(diff[..k]) + [LineDiv(diff[k])];
    assert |a| == |b|;
    forall i | 0 <= i < |a| ensures a[i] == b[i] {
      if i < k {
        assert diff[..k + 1][i] == diff[..k][i];
      }
    }
  }

  /** The HTML lines for a diff: the container's opening tag, one div per
      diff line in order, the closing tag. */
  function HtmlLines(diff: seq<string>): (h: seq<string>)
    ensures |h| == |diff| + 2
    ensures h[0] == HtmlOpen && h[|h| - 1] == HtmlClose
    ensures h[1..|h| - 1] == LineDivs(diff)
  {
    var h := [HtmlOpen] + LineDivs(diff) + [HtmlClose];
    assert h[1..|h| - 1] == LineDivs(diff);
    h
  }

  function Min(a: int, b: int): int {
    if a < b then a else b
  }

  /** Python `xs[:n]`: a prefix of `xs`; a non-negative `n` keeps up to `n`
      elements, a negative `n` drops up to `-n` elements from the end. */
  function PyPrefix<T>(xs: seq<T>, n: int): (p: seq<T>)
    ensures |p| <= |xs| && p == xs[..|p|]
    ensures n >= 0 ==> |p| == Min(n, |xs|)
    ensures n < 0 ==> |xs| - |p| == Min(-n, |xs|)
  {
    if n >= 0 then xs[..if n < |xs| then n else |xs|]
    else xs[..if |xs| + n > 0 then |xs| + n else 0]
  }

  function OmittedNote(count: int): string {
    "\n\n... (" + IntToString(count) + " more lines omitted)"
  }

  /** What the report shows for a stored diff: the first `maxLines` lines
      joined by newlines, and a note with the number left out when there are
      more. */
  function ReportText(diff: seq<string>, maxLines: int): (s: string)
    requires diff != []
  {
    var shown := Join(PyPrefix(diff, maxLines), "\n");
    if |diff| > maxLines then shown + OmittedNote(|diff| - maxLines) else shown
  }

  /** A limit at least the diff length shows the whole diff and adds no note. */
  lemma ReportTextUntruncated(diff: seq<string>, maxLines: int)
    requires diff != [] && maxLines >= |diff|
    ensures ReportText(diff, maxLines) == Join(diff, "\n")
  {
    assert diff[..|diff|] == diff;
  }

  /** A non-negative limit below the diff length keeps exactly `maxLines`
      lines, and the note counts the rest. */
  lemma ReportTextTruncated(diff: seq<string>, maxLines: int)
    requires diff != [] && 0 <= maxLines < |diff|
    ensures ReportText(diff, maxLines) == Join(diff[..maxLines], "\n") + OmittedNote(|diff| - maxLines)
  {
  }

  // ---------------------------------------------------------------------
  // The store
  // ---------------------------------------------------------------------

  /** What is recorded for one file. */
  datatype ChangeAnalysis = ChangeAnalysis(
    filename: string,
    hasChanges: bool,
    diff: seq<string>,
    statistics: DiffStats,
    changeSummary: string)

  /** Holds the change analyses of one run, keyed by filename. */
  class ChangeDetector {
    var changes: map<string, ChangeAnalysis>
    /** Insertion order of the keys of `changes`. */
    var order: seq<string>

    ghost predicate Valid()
      reads this
    {
      && Lists(order, changes)
      && forall f :: f in changes ==>
           && changes[f].filename == f
           && changes[f].changeSummary == SummarizeChanges(changes[f].diff)
           && changes[f].statistics.totalChanges
              == changes[f].statistics.linesAdded + changes[f].statistics.linesDeleted
                 + changes[f].statistics.linesModified
    }

    constructor ()
      ensures Valid() && changes == map[] && order == []
    {
      changes := map[];
      order := [];
    }

    /** Analyses one pair of texts and stores the analysis under its
        filename, replacing an earlier entry. The diff, the line splits and
        the opcodes are given. */
    method DetectTextDiff(filename: string, original: string, modified: string,
                          originalLines: seq<string>, modifiedLines: seq<string>,
                          ops: seq<Opcode>, diff: seq<string>)
      returns (analysis: ChangeAnalysis)
      requires Valid()
      modifies this
      ensures Valid()
      ensures analysis.filename == filename
      ensures analysis.hasChanges <==> original != modified
      ensures analysis.diff == diff
      ensures analysis.changeSummary == SummarizeChanges(diff)
      ensures analysis.statistics == DiffStats(|originalLines|, |modifiedLines|, Added(ops), Deleted(ops), Modified(ops), TotalChanged(ops))
      ensures changes == old(changes)[filename := analysis]
      ensures order == Put(old(order), filename)
    {
      var stats := CalculateDiffStats(originalLines, modifiedLines, ops);
      analysis := ChangeAnalysis(filename, original != modified, diff, stats, SummarizeChanges(diff));
      changes := changes[filename := analysis];
      order := Put(order, filename);
    }

    /** The stored analyses, keyed by filename, as they stand at the call. */
    method GetAllChanges() returns (all: map<string, ChangeAnalysis>)
      ensures all == changes
    {
      all := changes;
    }

    /** The HTML view of a stored diff, built line by line. */
    method GetDiffHtml(filename: string) returns (html: string)
      ensures filename !in changes ==> html == NoChangesHtml
      ensures filename in changes ==> html == Join(HtmlLines(changes[filename].diff), "\n")
    {
      if filename !in changes {
        return NoChangesHtml;
      }
      var diff := changes[filename].diff;
      var parts := [HtmlOpen];
      for k := 0 to |diff|
        invariant parts == [HtmlOpen] + LineDivs(diff[..k])
      {
        LineDivsStep(diff, k);
        parts := parts + [LineDiv(diff[k])];
      }
      assert diff[..|diff|] == diff;
      parts := parts + [HtmlClose];
      html := Join(parts, "\n");
    }

    /** The plain-text view of a stored diff. */
    function FormatDiffForReport(filename: string, maxLines: int := 50): (s: string)
      reads this
      ensures filename !in changes || changes[filename].diff == [] ==> s == NoChangesText
      ensures filename in changes && changes[filename].diff != [] ==>
                s == ReportText(changes[filename].diff, maxLines)
    {
      if filename !in changes then NoChangesText
      else if changes[filename].diff == [] then NoChangesText
      else ReportText(changes[filename].diff, maxLines)
    }
  }
}
