/** Line statistics of a source text: every `'\n'`-separated line is
    blank, a comment or code. */
module AstHelper {
  import opened Text

  datatype LineCounts = LineCounts(total: nat, code: int, comments: nat, blank: nat)

  /** A line made of whitespace only; see BlankIffStripEmpty for its
      reading as "empty once stripped". */
  predicate IsBlank(line: string) {
    forall j :: 0 <= j < |line| ==> IsSpace(line[j])
  }

  /** A line whose first character after leading whitespace is `#`; see
      CommentIffStrippedHash for its reading as "starts with # once
      stripped". */
  predicate IsComment(line: string)
    decreases |line|
  {
    line != [] && (line[0] == '#' || (IsSpace(line[0]) && IsComment(line[1..])))
  }

  /** `not line.strip()`. */
  lemma BlankIffStripEmpty(line: string)
    ensures IsBlank(line) <==> Strip(line) == []
  {
    StripEmptyIff(line);
  }

  /** `line.strip().startswith('#')`. */
  lemma {:induction false} CommentIffStrippedHash(line: string)
    ensures IsComment(line) <==> StartsWith(Strip(line), "#")
    decreases |line|
  {
    if line == [] {
    } else if IsSpace(line[0]) {
      assert LStrip(line) == LStrip(line[1..]);
      CommentIffStrippedHash(line[1..]);
    } else {
      assert LStrip(line) == line;
      var r := RStrip(line);
      assert r != [] && r[0] == line[0];
    }
  }

  /** A line that is neither blank nor a comment. */
  predicate IsCode(line: string) {
    !IsBlank(line) && !IsComment(line)
  }

  /** No line is both blank and a comment. */
  lemma {:induction false} BlankIsNotComment(line: string)
    ensures !(IsBlank(line) && IsComment(line))
    decreases |line|
  {
    if line != [] && IsSpace(line[0]) {
      BlankIsNotComment(line[1..]);
      assert IsBlank(line) ==> IsBlank(line[1..]) by {
        if IsBlank(line) {
          forall j | 0 <= j < |line[1..]| ensures IsSpace(line[1..][j]) {
            assert line[1..][j] == line[j + 1];
          }
        }
      }
    }
  }

  function CountBlank(lines: seq<string>): nat {
    if lines == [] then 0
    else CountBlank(lines[..|lines| - 1]) + if IsBlank(lines[|lines| - 1]) then 1 else 0
  }

  function CountComments(lines: seq<string>): nat {
    if lines == [] then 0
    else CountComments(lines[..|lines| - 1]) + if IsComment(lines[|lines| - 1]) then 1 else 0
  }

  function CountCode(lines: seq<string>): nat {
    if lines == [] then 0
    else CountCode(lines[..|lines| - 1]) + if IsCode(lines[|lines| - 1]) then 1 else 0
  }

  /** Every line falls in exactly one of the three classes, so the three
      counts add up to the number of lines. */
  lemma {:induction false} ClassesPartition(lines: seq<string>)
    ensures CountBlank(lines) + CountComments(lines) + CountCode(lines) == |lines|
  {
    if lines != [] {
      ClassesPartition(lines[..|lines| - 1]);
      BlankIsNotComment(lines[|lines| - 1]);
    }
  }

  /** `count_lines_of_code`: `code` is what is left after blank and comment
      lines are taken away, which is exactly the number of code lines. */
  function CountLinesOfCode(source: string): (c: LineCounts)
    ensures c.total == CountChar(source, '\n') + 1
    ensures c.blank == CountBlank(Split(source, "\n"))
    ensures c.comments == CountComments(Split(source, "\n"))
    ensures c.code == CountCode(Split(source, "\n")) && c.code >= 0
    ensures c.blank + c.comments + c.code == c.total
  {
    var lines := Split(source, "\n");
    SplitCountsChar(source, '\n');
    ClassesPartition(lines);
    var total := |lines|;
    var blank := CountBlank(lines);
    var comments := CountComments(lines);
    LineCounts(total, total - blank - comments, comments, blank)
  }
}
