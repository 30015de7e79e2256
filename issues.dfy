/** A static-analysis finding as the analyzers report it, and its severity
    read as a closed enumeration. */
module Issues {
  import opened Wrappers

  /** The five severities the analyzers use, plus an explicit case for a
      label outside them and one for an issue without a `severity` key. */
  datatype Severity = Critical | High | Medium | Low | Info | Unrecognized(name: string) | Missing

  /** One issue record: `line`, `message`, `severity` (a key that may be
      absent) and `type`. */
  datatype Issue = Issue(line: int, message: string, severity: Option<string>, kind: string)

  const KnownLabels: set<string> := {"critical", "high", "medium", "low", "info"}

  /** Reads a severity label; every label that is not one of the five reads as Unrecognized. */
  function ParseSeverity(raw: Option<string>): (s: Severity)
    ensures s.Missing? <==> raw.None?
    ensures s.Unrecognized? <==> raw.Some? && raw.value !in KnownLabels
  {
    match raw
    case None => Missing
    case Some(l) =>
      if l == "critical" then Critical
      else if l == "high" then High
      else if l == "medium" then Medium
      else if l == "low" then Low
      else if l == "info" then Info
      else Unrecognized(l)
  }

  /** The label a severity is written with. */
  function LabelOf(s: Severity): Option<string> {
    match s
    case Critical => Some("critical")
    case High => Some("high")
    case Medium => Some("medium")
    case Low => Some("low")
    case Info => Some("info")
    case Unrecognized(l) => Some(l)
    case Missing => None
  }

  /** Reading a label and writing it back gives the same label. */
  lemma ParseSeverityRoundTrip(raw: Option<string>)
    ensures LabelOf(ParseSeverity(raw)) == raw
  {
  }

  function SeverityOf(issue: Issue): Severity {
    ParseSeverity(issue.severity)
  }
}
