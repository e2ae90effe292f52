# A verified model of the timer measurement-series engine

This project models `timer.h`, a header-only C++ timing tool. It records a
series of named time stamps and reports elapsed durations between them. The
model has these parts:

- **TimeStamps** (`timestamp.dfy`). The `TimeStamp` record holds a label, a
  steady-clock instant in nanoseconds and the recording thread. `GetDiff` is
  the signed difference of two instants. `UnitFor`, `SuffixFor` and
  `ToString` choose the unit a duration is printed in and its suffix, and
  give the exact quotient whose floating-point value is then printed.
- **Debug** (`debug.dfy`). This is the `DebugStateTracker` of the debug build.
  It tracks `initialized` and `number_of_events`. Each misuse check returns
  `Abort(message)` with the diagnostic the source prints before it kills the
  process.
- **Timers** (`timer.dfy`). This is the `Timer` measurement series, modelled as
  a class. Its fields are the stamp vector, the auto-naming counter `id`, and
  the ordered set of thread ids. A strictly increasing sequence plays the role
  of the set, in the order that iterating a `std::set` visits it. The class
  covers `reset`, `initialize`, `add_thread_unsafe`, `add(name)`, `add()`,
  the elapsed-time queries, thread naming, `print_current` and `log`.
- **OrderedSets** (`ordered_sets.dfy`) gives `std::set` insertion and the rank
  of an element. **Decimal** (`decimal.dfy`) gives `std::to_string` for
  integers, with its inverse.
- **Sections** (`section.dfy`). This is the scoped `CodeSectionTimer`. It
  stamps a start, and on leaving the scope it reports end minus start.
- **Example** (`example.dfy`) replays the session from `example.cpp` as a
  verified client of the contracts. The clock readings are parameters.

The variant modelled is the one with thread tracking and the debug tracker
both enabled. The clock read `get_time_ns()` becomes a parameter `now` of
type `Instant`, a non-negative int64. Callers must pass readings that never
go backwards, as the steady clock guarantees. `std::this_thread::get_id()`
becomes a parameter `caller` of type `ThreadId = int`.

The template label type is collapsed into `Name`, which is `IntName(int)`,
`TextName(string)` or `DefaultName`. A `NameMode` selects the branch of
`add()` that the label type would pick. `IntConvertible` stands for the
default label type `int`, which takes the int-convertible branch; the other
modes are `std::string`, `const char*`, and any other type. `NameFits` says
which labels a mode can hold, and adding an event requires a fitting label.

Points where `timer.h` behaves in a way that is easy to misread:

- `to_string` compares the signed duration with the tier thresholds, not its
  magnitude. A negative duration is therefore shown in ns.
- The branch of `add()` for other label types adds a default label and does
  not advance `id`. So after `initialize()` the counter is 0 for that mode,
  not 1.
- Thread names follow the order of the `std::set` of thread ids, not the order
  in which threads first added events.
- The micro unit suffix is the literal `"??s"` as the source text has it.

## Model

| member | source | states |
|---|---|---|
| TimeStamps.GetDiff | timer.h:162 | the difference never leaves the int64 range; it is non-negative exactly when the stamps are in chronological order; first instant plus difference is the last instant |
| TimeStamps.UnitFor | timer.h:178-186 | exactly one unit is chosen: s from 100,000,000 ns, ms from 100,000, micro from 100, ns below 100; every lower bound is inclusive and the comparison is on the signed value |
| TimeStamps.ToString | timer.h:165-188 | the rendered unit is the one UnitFor picks, and the numeric part times that unit's divisor (1e9, 1e6, 1e3, 1) is the duration exactly |
| TimeStamps.SuffixFor | timer.h:178-186 | the suffix is "s" from 100,000,000 ns, "ms" from 100,000, "??s" from 100 and "ns" below 100, and it is the suffix of the unit ToString picks |
| TimeStamps.LabelText | timer.h:355 | a text label prints as its text; an int label prints with a leading '-' exactly when negative, and a non-negative one prints as digits that read back as the label |
| TimeStamps.ScaledValueRange | timer.h:171-186 | the numeric part lies in [0.1, 100) for ms and micro, is at least 0.1 for s and below 100 for ns |
| TimeStamps.UnitForMonotone | timer.h:178-186 | a longer duration never gets a smaller unit |
| Decimal.IntText | timer.h:344 | the text starts with '-' exactly when the value is negative, and the rest is all digits and reads back as the magnitude |
| Decimal.DecimalText | timer.h:321 | the text is non-empty and all digits, has no leading zero, and is one character exactly when the value is below 10 |
| Decimal.ParseDecimalText | timer.h:321 | reading the decimal text back gives the number |
| Decimal.DecimalTextInjective | timer.h:321 | different counters give different texts |
| OrderedSets.Insert | timer.h:265 | insertion keeps the set strictly ordered, and its elements become the old ones plus the new id |
| OrderedSets.DistinctCard | timer.h:302 | the ordered set's size is its number of distinct ids |
| OrderedSets.RankBounds | timer.h:287-298 | a recorded id's rank is in 0 .. size-1 |
| OrderedSets.RankInjective | timer.h:283-298 | distinct recorded ids get distinct thread names |
| OrderedSets.RankStrictlyMonotone | timer.h:289-293 | thread names follow the order of the ids in the set |
| OrderedSets.SortedIndexIsRank | timer.h:289-293 | the position reached by walking the ordered set is the number of recorded ids smaller than the one found |
| Debug.DebugStateTracker.constructor | timer.h:64-66 | a tracker starts uninitialized with no events |
| Debug.DebugStateTracker.DebugReset | timer.h:72-75 | reset clears the initialized flag and the event count |
| Debug.DebugStateTracker.DebugInit | timer.h:78-84 | initializing an initialized tracker aborts with the "called twice" diagnostic; otherwise it becomes initialized; the event count does not change |
| Debug.DebugStateTracker.DebugCheckIfInitialized | timer.h:87-92 | passes exactly when initialized, otherwise aborts with the "add() called before init()" diagnostic |
| Debug.DebugStateTracker.DebugAddEvent | timer.h:99 | the event count grows by one |
| Debug.DebugStateTracker.DebugCheckIfLoggable | timer.h:102-107 | passes exactly when more than one event was counted, otherwise aborts with its diagnostic |
| Debug.InitTwiceWithoutReset | timer.h:72-84 | on a fresh tracker the first init passes, a second init without reset aborts, and after a reset init passes again |
| Timers.IntegerStringLiteralHelper | timer.h:308-312 | below 10 the table entry is the decimal text of the counter; from 10 on it is the empty string |
| Timers.AutoLabel | timer.h:317-330 | the label is IntName(id) for int labels and the decimal text of id for std::string; for const char* it is the decimal text below 10 and "" from 10 on; only the other-type branch gives a default label |
| Timers.AutoLabelFits | timer.h:317-330 | every automatic label is of the kind the label type holds: an int for int, text for std::string and const char* |
| Timers.AutoLabelReadsAsCounter | timer.h:317-325 | the automatic labels read as the counter in decimal for int and std::string labels, and for const char* labels up to 9 |
| Timers.AutoLabelsDistinct | timer.h:317-325 | different counter values give different automatic labels, wherever the labels read as decimal |
| Timers.RecordedThreadsAppend | timer.h:264-266 | appending a stamp adds exactly its thread to the recorded threads |
| Timers.Telescoping | timer.h:332-338 | the times since the previous event, summed over events 1..i, equal the time from the genesis event to event i |
| Timers.Timer.constructor | timer.h:223-234 | a new series has no stamps, counter 0, no threads, and an uninitialized tracker |
| Timers.Timer.Reset | timer.h:242-249 | stamps, counter, thread set and tracker are all cleared |
| Timers.Timer.Initialize | timer.h:254-258 | whatever was recorded before, afterwards there is exactly the genesis stamp with label AutoLabel(mode, 0); the counter is 1 (0 for other label types), the thread set is {caller}, the tracker is initialized with one event, and it never aborts |
| Timers.Timer.AddThreadUnsafe | timer.h:260-270 | given a label of the kind the label type holds, aborts, changing nothing, exactly when the series is not initialized; otherwise appends exactly one stamp with the name, the clock reading and the caller, leaves earlier stamps unchanged, and adds the caller to the thread set |
| Timers.Timer.Add | timer.h:275-281 | the same as AddThreadUnsafe; the lock is not modelled |
| Timers.Timer.AddAuto | timer.h:317-330 | appends one stamp labelled AutoLabel(mode, id) and advances the counter by one (by zero for other label types); aborts before initialization |
| Timers.Timer.GetThreadName | timer.h:287-298 | a recorded id gets its 0-based rank in the ordered set, in 0 .. size-1, and is found at that position; an unrecorded id gets -1 |
| Timers.Timer.HasThreads | timer.h:300-306 | true exactly when stamps from more than one distinct thread were recorded |
| Timers.Timer.ThreadOutputFormatter | timer.h:340-347 | the text is "" while only one thread took part; otherwise it is " in thread : " followed by the thread's name |
| Timers.Timer.GetTimeSinceInit | timer.h:332-334 | the time from the genesis event to the event is non-negative, fits int64, and is the sum of the times since the previous event |
| Timers.Timer.GetTimeSinceLast | timer.h:336-338 | the time since the previous event is non-negative, fits int64, and is the difference of two consecutive times since init |
| Timers.Timer.PrintCurrent | timer.h:352-359 | aborts exactly when at most the genesis event exists; otherwise reports the last event's label, time since last, time since init and thread suffix |
| Timers.Timer.Log | timer.h:364-373 | produces exactly one report per event at index 1 .. size-1, in order, so the genesis event is never reported; an empty series gives no report |
| Sections.CodeSectionTimer.constructor | timer.h:195 | the start stamp carries the section name, the clock reading and the thread |
| Sections.CodeSectionTimer.Finish | timer.h:200-205 | the report names the section, its elapsed time is end minus start (non-negative exactly when the clock did not go back), and it is rendered in the unit UnitFor picks |
| Sections.ShortSection | timer.h:195-205 | a section shorter than 100 microseconds is reported in ns or in micro |
| Example.AddAndPrint | example.cpp:14-15 | on a single-thread series, add followed by print_current reports the new event with times relative to the previous event and to the genesis event, and no thread suffix |
| Example.RecordSession | example.cpp:11-18 | the demonstration session records the genesis event "0" and the four named events in order, all from one thread |
| Example.ExampleSession | example.cpp:10-20 | the final log has four lines, agrees with what print_current showed earlier, and has the expected times and no thread suffix |

## Left out

- The clock `get_time_ns` and `std::chrono::steady_clock` are external. The clock reading is a parameter `now`, and a non-decreasing clock is a precondition of adding an event.
- `std::mutex` and `std::lock_guard` are concurrency. `Add` is the sequential `add_thread_unsafe`. The guarantee that the mutex in `add` gives, that concurrent appends from several threads are all kept, is not modelled.
- Stream output is not modelled: the "Timer :" header, the "Timer : ... after ... at ..." lines, and the "Code section : ... took ..." line. The model returns the values those lines are built from (`LogLine`, `SectionReport`). `LogLine` and `SectionReport` are not text.
- TimeStamps.ToString: the floating-point division and `ostringstream` rendering of the numeric part are floating point. The model gives the exact rational value and the unit, not the printed digits.
- `print_stacktrace_and_exit` (raise SIGSEGV, terminate) ends the process. The model returns `Abort(message)`, and the state is left unchanged.
- Timers.Timer.AddAuto: in the int-convertible branch the source increments `id` before `add` runs. If that `add` aborts, the process ends anyway, so the model leaves `id` unchanged on abort.
- The static scratch string of `thread_output_formatter` is shared buffer reuse. The model returns a fresh string.
- The `CODE_SECTION_TIMER` macro and `__PRETTY_FUNCTION__` are preprocessor features. The section name is a parameter.
- The build variants without thread tracking or without the debug tracker are not modelled. Without debug, the tracker is all no-ops and misuse is undefined behaviour. Without threads, `get_thread_name` returns 0 and `has_threads` returns false.
- Sections.CodeSectionTimer.Finish: the destructor running exactly once, and the deleted copy and move, are C++ scope rules. The model does not stop `Finish` from being called twice.
- `int id` and `int number_of_events` are 32-bit in the source, and they would overflow only after 2^31 events. The model uses unbounded integers for both.
- The generic label type is collapsed into `Name` plus `NameMode`. What a default-constructed label of an unknown type prints is not modelled.
- Timers.AutoLabel: the IntConvertible mode is the label type `int` only. Other types that take the int-convertible branch change the counter on conversion: `bool` makes every counter from 1 on the label `true` (printed 1), so automatic labels are not distinct; `char` prints the counter as a character; `double` prints it in floating-point notation (1000000 as "1e+06"). Those label types are not modelled.
- A `const char*` label is stored as a pointer, and what is printed is whatever the buffer holds when the report is made. The model stores the text at the time of the `add`, so it does not capture a buffer that changes or is freed afterwards.
- `add` returns `*this` for call chaining, which is a C++ idiom and not modelled.
- Out-of-range indices passed to the elapsed-time queries are undefined behaviour in the source. The model forbids them with preconditions.
