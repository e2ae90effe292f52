/**
 * A measurement series: an append-only log of time stamps whose first entry,
 * the genesis event, is the reference point of every "time since init". The
 * series also names events automatically, remembers which threads added
 * events, and reports the elapsed times of its events.
 */
module Timers {
  import opened Decimal
  import opened TimeStamps
  import opened OrderedSets
  import opened Debug

  /** Which branch of add() the label type selects. */
  datatype NameMode =
    | IntConvertible  // the label type is int, the type the int-convertible branch is written for
    | StdString       // the label type is std::string
    | CharPointer     // the label type is const char*
    | OtherType       // any other label type: a default-constructed label

  /** The "0" .. "9" lookup table of the const char* branch; it has no entry for 10 or more. */
  function IntegerStringLiteralHelper(i: int): (r: string)
    requires 0 <= i
    ensures i < 10 ==> r == DecimalText(i)
    ensures 10 <= i ==> r == ""
  {
    var ints := ["0", "1", "2", "3", "4", "5", "6", "7", "8", "9"];
    if i < 10 then ints[i] else ""
  }

  /** The label add() gives an event when the counter stands at n. */
  function AutoLabel(mode: NameMode, n: nat): (r: Name)
    ensures mode == OtherType <==> r == DefaultName
    ensures mode == IntConvertible ==> r == IntName(n)
    ensures mode == StdString || (mode == CharPointer && n < 10) ==> r == TextName(DecimalText(n))
    ensures mode == CharPointer && 10 <= n ==> r == TextName("")
  {
    match mode
    case IntConvertible => IntName(n)
    case StdString => TextName(DecimalText(n))
    case CharPointer => TextName(IntegerStringLiteralHelper(n))
    case OtherType => DefaultName
  }

  /**
   * The labels a series of the mode can hold: int labels for int, text for
   * std::string and const char*; the model cannot tell the values of other
   * label types apart, so those take any label.
   */
  predicate NameFits(mode: NameMode, name: Name)
  {
    match mode
    case IntConvertible => name.IntName?
    case StdString => name.TextName?
    case CharPointer => name.TextName?
    case OtherType => true
  }

  lemma AutoLabelFits(mode: NameMode, n: nat)
    ensures NameFits(mode, AutoLabel(mode, n))
  {
  }

  /** How much add() advances the counter: the branch for other label types leaves it alone. */
  function AutoIdStep(mode: NameMode): nat
  {
    if mode == OtherType then 0 else 1
  }

  /**
   * Whatever the label type, the automatic labels read as the counter in
   * decimal, except const char* labels from 10 on, which are empty.
   */
  lemma AutoLabelReadsAsCounter(mode: NameMode, n: nat)
    requires mode == IntConvertible || mode == StdString || (mode == CharPointer && n < 10)
    ensures LabelText(AutoLabel(mode, n)) == DecimalText(n)
  {
  }

  /** The automatic labels that read as decimal are all different. */
  lemma AutoLabelsDistinct(mode: NameMode, m: nat, n: nat)
    requires mode == IntConvertible || mode == StdString || (mode == CharPointer && m < 10 && n < 10)
    requires m != n
    ensures AutoLabel(mode, m) != AutoLabel(mode, n)
  {
    if AutoLabel(mode, m) == AutoLabel(mode, n) {
      AutoLabelReadsAsCounter(mode, m);
      AutoLabelReadsAsCounter(mode, n);
      DecimalTextInjective(m, n);
    }
  }

  /** The thread identities of a sequence of stamps. */
  function RecordedThreads(ts: seq<TimeStamp>): set<ThreadId>
  {
    set k | 0 <= k < |ts| :: ts[k].threadId
  }

  lemma RecordedThreadsAppend(ts: seq<TimeStamp>, s: TimeStamp)
    ensures RecordedThreads(ts + [s]) == RecordedThreads(ts) + {s.threadId}
  {
    var ts' := ts + [s];
    assert ts'[|ts|] == s;
    forall k | 0 <= k < |ts| ensures ts'[k] == ts[k] { }
  }

  /** The clock never runs backwards: every stamp is no earlier than the ones before it. */
  ghost predicate Chronological(ts: seq<TimeStamp>)
  {
    forall i, j :: 0 <= i <= j < |ts| ==> ts[i].timeStamp <= ts[j].timeStamp
  }

  /** The sum of the times between consecutive events 1 .. i. */
  function SumSinceLast(ts: seq<TimeStamp>, i: nat): int
    requires i < |ts|
  {
    if i == 0 then 0 else SumSinceLast(ts, i - 1) + GetDiff(ts[i - 1], ts[i])
  }

  /** The times since the previous event add up to the time since the genesis event. */
  lemma {:induction false} Telescoping(ts: seq<TimeStamp>, i: nat)
    requires i < |ts|
    ensures SumSinceLast(ts, i) == GetDiff(ts[0], ts[i])
  {
    if i > 0 {
      Telescoping(ts, i - 1);
    }
  }

  /** One reported event: its label, the time since the previous event and since the genesis event, and its thread suffix. */
  datatype LogLine = LogLine(name: Name, afterLast: Duration, atInit: Duration, thread: string)

  class Timer {
    const mode: NameMode
    const tracker: DebugStateTracker
    var timeStamps: seq<TimeStamp>
    // counter for automatic names
    var id: int
    // the ordered set of the threads that added events, in iteration order
    var threadIds: seq<ThreadId>

    /**
     * What holds between any two operations, including inside initialize()
     * after the tracker is initialized and before the genesis event exists.
     */
    ghost predicate Consistent()
      reads this, tracker
    {
      && (|timeStamps| > 0 ==> tracker.initialized)
      && tracker.numberOfEvents == |timeStamps|
      && 0 <= id
      && (|timeStamps| == 0 ==> id == 0)
      && StrictlySorted(threadIds)
      && Elements(threadIds) == RecordedThreads(timeStamps)
      && Chronological(timeStamps)
    }

    /** The invariant of a series between calls of its public operations. */
    ghost predicate Valid()
      reads this, tracker
    {
      Consistent() && (tracker.initialized ==> |timeStamps| > 0)
    }

    /** The set of recorded threads. */
    function ThreadSet(): set<ThreadId>
      reads this
    {
      Elements(threadIds)
    }

    /** A clock reading no earlier than the last event. */
    ghost predicate ClockAfter(now: Instant)
      reads this
    {
      |timeStamps| == 0 || timeStamps[|timeStamps| - 1].timeStamp <= now
    }

    constructor (mode: NameMode)
      ensures Valid() && fresh(tracker)
      ensures this.mode == mode
      ensures timeStamps == [] && id == 0 && threadIds == []
    {
      this.mode := mode;
      tracker := new DebugStateTracker();
      timeStamps := [];
      id := 0;
      threadIds := [];
    }

    method Reset()
      modifies this, tracker
      ensures Valid()
      ensures timeStamps == [] && id == 0 && threadIds == []
      ensures !tracker.initialized && tracker.numberOfEvents == 0
    {
      tracker.DebugReset();
      timeStamps := [];
      id := 0;
      threadIds := [];
    }

    /**
     * Starts a new session: whatever was recorded before is dropped, and the
     * series holds the genesis event alone. It never aborts.
     */
    method Initialize(now: Instant, caller: ThreadId)
      requires Valid()
      modifies this, tracker
      ensures Valid()
      ensures timeStamps == [TimeStamp(AutoLabel(mode, 0), now, caller)]
      ensures id == AutoIdStep(mode)
      ensures ThreadSet() == {caller}
      ensures tracker.initialized && tracker.numberOfEvents == 1
    {
      if |timeStamps| > 0 {
        Reset();
      }
      var o := tracker.DebugInit();
      assert o.Pass?;
      o := AddAuto(now, caller);
      assert o.Pass?;
    }

    method AddThreadUnsafe(name: Name, now: Instant, caller: ThreadId) returns (o: Outcome)
      requires Consistent() && ClockAfter(now) && NameFits(mode, name)
      modifies this, tracker
      ensures Consistent()
      ensures o.Abort? <==> !old(tracker.initialized)
      ensures o.Abort? ==> o.message == AddBeforeInitMessage && unchanged(this, tracker)
      ensures o.Pass? ==> Valid()
      ensures o.Pass? ==> timeStamps == old(timeStamps) + [TimeStamp(name, now, caller)]
      ensures o.Pass? ==> ThreadSet() == old(ThreadSet()) + {caller} && id == old(id)
    {
      o := tracker.DebugCheckIfInitialized();
      if o.Abort? {
        return;
      }
      tracker.DebugAddEvent();
      var stamp := TimeStamp(name, now, caller);
      RecordedThreadsAppend(timeStamps, stamp);
      threadIds := Insert(threadIds, caller);
      timeStamps := timeStamps + [stamp];
    }

    /** Adds a named event; the lock the source takes around it is not modelled. */
    method Add(name: Name, now: Instant, caller: ThreadId) returns (o: Outcome)
      requires Consistent() && ClockAfter(now) && NameFits(mode, name)
      modifies this, tracker
      ensures Consistent()
      ensures o.Abort? <==> !old(tracker.initialized)
      ensures o.Abort? ==> o.message == AddBeforeInitMessage && unchanged(this, tracker)
      ensures o.Pass? ==> Valid()
      ensures o.Pass? ==> timeStamps == old(timeStamps) + [TimeStamp(name, now, caller)]
      ensures o.Pass? ==> ThreadSet() == old(ThreadSet()) + {caller} && id == old(id)
    {
      o := AddThreadUnsafe(name, now, caller);
    }

    /** Adds an event named by the counter, and advances the counter. */
    method AddAuto(now: Instant, caller: ThreadId) returns (o: Outcome)
      requires Consistent() && ClockAfter(now)
      modifies this, tracker
      ensures Consistent()
      ensures o.Abort? <==> !old(tracker.initialized)
      ensures o.Abort? ==> o.message == AddBeforeInitMessage && unchanged(this, tracker)
      ensures o.Pass? ==> Valid()
      ensures o.Pass? ==> timeStamps == old(timeStamps) + [TimeStamp(AutoLabel(mode, old(id)), now, caller)]
      ensures o.Pass? ==> ThreadSet() == old(ThreadSet()) + {caller} && id == old(id) + AutoIdStep(mode)
    {
      var name := AutoLabel(mode, id);
      o := Add(name, now, caller);
      if o.Pass? {
        id := id + AutoIdStep(mode);
      }
    }

    /** The 0-based position of t among the recorded threads in set order, or -1. */
    method GetThreadName(t: ThreadId) returns (r: int)
      requires Valid()
      ensures r == ThreadRank(ThreadSet(), t)
      ensures t in ThreadSet() ==> 0 <= r < |threadIds| && threadIds[r] == t && r < |ThreadSet()|
      ensures t !in ThreadSet() ==> r == -1
    {
      var i := 0;
      while i < |threadIds|
        invariant 0 <= i <= |threadIds|
        invariant forall k :: 0 <= k < i ==> threadIds[k] != t
      {
        if threadIds[i] == t {
          SortedIndexIsRank(threadIds, i);
          DistinctCard(threadIds);
          return i;
        }
        i := i + 1;
      }
      return -1;
    }

    /** Whether more than one distinct thread has added events. */
    function HasThreads(): (r: bool)
      reads this, tracker
      requires Valid()
      ensures r <==> |RecordedThreads(timeStamps)| > 1
    {
      DistinctCard(threadIds);
      |threadIds| > 1
    }

    /** The suffix that names the recording thread, shown once several threads took part. */
    function ThreadSuffix(t: ThreadId): string
      reads this, tracker
      requires Valid()
    {
      if !HasThreads() then "" else " in thread : " + IntText(ThreadRank(ThreadSet(), t))
    }

    method ThreadOutputFormatter(stamp: TimeStamp) returns (s: string)
      requires Valid()
      ensures s == ThreadSuffix(stamp.threadId)
      ensures !HasThreads() ==> s == ""
    {
      if !HasThreads() {
        return "";
      }
      var n := GetThreadName(stamp.threadId);
      s := " in thread : " + IntText(n);
    }

    /** Nanoseconds from the genesis event to event index. */
    function GetTimeSinceInit(index: nat): (r: int)
      reads this, tracker
      requires Valid() && index < |timeStamps|
      ensures r >= 0 && IsInt64(r)
      ensures r == SumSinceLast(timeStamps, index)
    {
      Telescoping(timeStamps, index);
      GetDiff(timeStamps[0], timeStamps[index])
    }

    /** Nanoseconds from the event before index to event index. */
    function GetTimeSinceLast(index: nat): (r: int)
      reads this, tracker
      requires Valid() && 1 <= index < |timeStamps|
      ensures r >= 0 && IsInt64(r)
      ensures r == GetTimeSinceInit(index) - GetTimeSinceInit(index - 1)
    {
      GetDiff(timeStamps[index - 1], timeStamps[index])
    }

    /** The report of event i. */
    function EntryAt(i: nat): LogLine
      reads this, tracker
      requires Valid() && 1 <= i < |timeStamps|
    {
      LogLine(timeStamps[i].name, ToString(GetTimeSinceLast(i)), ToString(GetTimeSinceInit(i)),
              ThreadSuffix(timeStamps[i].threadId))
    }

    /** Reports the last event; with only the genesis event recorded there is nothing to report. */
    method PrintCurrent() returns (o: Outcome, line: LogLine)
      requires Valid()
      ensures o.Pass? <==> |timeStamps| > 1
      ensures o.Abort? ==> o.message == NothingToLogMessage
      ensures o.Pass? ==> line == EntryAt(|timeStamps| - 1)
    {
      line := LogLine(DefaultName, ToString(0), ToString(0), "");
      o := tracker.DebugCheckIfLoggable();
      if o.Abort? {
        return;
      }
      var index := |timeStamps| - 1;
      var suffix := ThreadOutputFormatter(timeStamps[index]);
      line := LogLine(timeStamps[index].name, ToString(GetTimeSinceLast(index)),
                      ToString(GetTimeSinceInit(index)), suffix);
    }

    /** Reports every event after the genesis event, in order. */
    method Log() returns (lines: seq<LogLine>)
      requires Valid()
      ensures |lines| == if |timeStamps| == 0 then 0 else |timeStamps| - 1
      ensures forall k :: 0 <= k < |lines| ==> lines[k] == EntryAt(k + 1)
    {
      var length := |timeStamps|;
      lines := [];
      var i := 1;
      while i < length
        invariant length == |timeStamps|
        invariant 1 <= i && (i <= length || i == 1)
        invariant |lines| == i - 1
        invariant forall k :: 0 <= k < |lines| ==> lines[k] == EntryAt(k + 1)
      {
        var timeSinceLast := ToString(GetTimeSinceLast(i));
        var timeSinceInit := ToString(GetTimeSinceInit(i));
        var suffix := ThreadOutputFormatter(timeStamps[i]);
        var line := LogLine(timeStamps[i].name, timeSinceLast, timeSinceInit, suffix);
        assert line == EntryAt(i);
        lines := lines + [line];
        i := i + 1;
      }
    }
  }
}
