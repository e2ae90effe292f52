/** The demonstration session of the repository, with the clock readings as parameters. */
module Example {
  import opened TimeStamps
  import opened Debug
  import opened Timers

  function Stamp(name: string, t: Instant, caller: ThreadId): TimeStamp
  {
    TimeStamp(TextName(name), t, caller)
  }

  /** add(name).print_current() on a single-thread series reports the new event without a thread suffix. */
  method AddAndPrint(timer: Timer, name: string, now: Instant, caller: ThreadId) returns (line: LogLine)
    requires timer.Valid() && |timer.timeStamps| > 0 && timer.ClockAfter(now)
    requires timer.ThreadSet() == {caller} && timer.mode == CharPointer
    modifies timer, timer.tracker
    ensures timer.Valid() && timer.ThreadSet() == {caller}
    ensures timer.timeStamps == old(timer.timeStamps) + [Stamp(name, now, caller)]
    ensures var ts := old(timer.timeStamps);
      line == LogLine(TextName(name), ToString(now - ts[|ts| - 1].timeStamp), ToString(now - ts[0].timeStamp), "")
  {
    var o := timer.Add(TextName(name), now, caller);
    assert !timer.HasThreads();
    o, line := timer.PrintCurrent();
  }

  /** The recording half of the session: four named events, the first two printed as they are added. */
  method RecordSession(t0: Instant, t1: Instant, t2: Instant, t3: Instant, t4: Instant, caller: ThreadId)
    returns (timer: Timer, first: LogLine, second: LogLine)
    requires t0 <= t1 <= t2 <= t3 <= t4
    ensures fresh(timer) && fresh(timer.tracker) && timer.Valid()
    ensures timer.timeStamps == [TimeStamp(TextName("0"), t0, caller), Stamp("First measurement", t1, caller),
      Stamp("Second measurement", t2, caller), Stamp("third measurement", t3, caller), Stamp("Last measurement", t4, caller)]
    ensures timer.ThreadSet() == {caller}
    ensures first == LogLine(TextName("First measurement"), ToString(t1 - t0), ToString(t1 - t0), "")
    ensures second == LogLine(TextName("Second measurement"), ToString(t2 - t1), ToString(t2 - t0), "")
  {
    timer := new Timer(CharPointer);
    timer.Initialize(t0, caller);
    first := AddAndPrint(timer, "First measurement", t1, caller);
    second := AddAndPrint(timer, "Second measurement", t2, caller);
    var o := timer.Add(TextName("third measurement"), t3, caller);
    o := timer.Add(TextName("Last measurement"), t4, caller);
  }

  /**
   * The whole session: a series with const char* labels, one thread, four
   * named events, then the log. The log has one line per event after the
   * genesis event, agrees with what was printed earlier, and names no thread.
   */
  method ExampleSession(t0: Instant, t1: Instant, t2: Instant, t3: Instant, t4: Instant, caller: ThreadId)
    returns (first: LogLine, second: LogLine, lines: seq<LogLine>)
    requires t0 <= t1 <= t2 <= t3 <= t4
    ensures |lines| == 4
    ensures lines[0] == first && lines[1] == second
    ensures lines[2] == LogLine(TextName("third measurement"), ToString(t3 - t2), ToString(t3 - t0), "")
    ensures lines[3] == LogLine(TextName("Last measurement"), ToString(t4 - t3), ToString(t4 - t0), "")
  {
    var timer;
    timer, first, second := RecordSession(t0, t1, t2, t3, t4, caller);
    assert !timer.HasThreads();
    lines := timer.Log();
    assert lines[0] == timer.EntryAt(1) && lines[1] == timer.EntryAt(2);
    assert lines[2] == timer.EntryAt(3) && lines[3] == timer.EntryAt(4);
  }
}
