/**
 * A timer for one code section: it stamps the start when the section is
 * entered and, when the section is left, stamps the end and reports how long
 * the section took.
 */
module Sections {
  import opened TimeStamps

  /** The report of one section: its name, the elapsed nanoseconds, and how they are rendered. */
  datatype SectionReport = SectionReport(section: string, elapsed: int, took: Duration)

  class CodeSectionTimer {
    const start: TimeStamp

    constructor (name: string, now: Instant, caller: ThreadId)
      ensures start == TimeStamp(TextName(name), now, caller)
    {
      start := TimeStamp(TextName(name), now, caller);
    }

    /** Leaving the section: the end stamp has an empty label, and the report is end minus start. */
    method Finish(now: Instant, caller: ThreadId) returns (report: SectionReport)
      ensures report.section == LabelText(start.name)
      ensures start.timeStamp + report.elapsed == now
      ensures report.elapsed >= 0 <==> start.timeStamp <= now
      ensures report.took.unit == UnitFor(report.elapsed)
      ensures report.took.value * (Divisor(report.took.unit) as real) == report.elapsed as real
    {
      var end := TimeStamp(TextName(""), now, caller);
      var elapsed := GetDiff(start, end);
      report := SectionReport(LabelText(start.name), elapsed, ToString(elapsed));
    }
  }

  /** A section that takes under 100 microseconds is reported in ns or in micro. */
  method ShortSection(name: string, entered: Instant, left: Instant, caller: ThreadId)
    returns (report: SectionReport)
    requires entered <= left < entered + 100_000
    ensures report.section == name
    ensures report.took.unit == Nanoseconds || report.took.unit == Microseconds
  {
    var section := new CodeSectionTimer(name, entered, caller);
    report := section.Finish(left, caller);
  }
}
