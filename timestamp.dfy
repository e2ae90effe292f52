/**
 * The leaf record of a measurement series: a label, a monotonic instant in
 * nanoseconds and the identity of the recording thread, together with the
 * signed difference of two instants and the choice of the unit a duration is
 * rendered in.
 */
module TimeStamps {
  import opened Decimal

  const INT64_MAX: int := 0x7fff_ffff_ffff_ffff

  predicate IsInt64(x: int)
  {
    -INT64_MAX - 1 <= x <= INT64_MAX
  }

  /** A reading of the steady clock: nanoseconds since its epoch, as a non-negative int64. */
  type Instant = x: int | 0 <= x <= INT64_MAX

  /** A thread identity; std::thread::id is opaque but totally ordered. */
  type ThreadId = int

  /**
   * An event label. The label type of the source is a template parameter;
   * here an integer label, a text label (std::string or const char*), or the
   * default-constructed value of some other label type.
   */
  datatype Name = IntName(n: int) | TextName(text: string) | DefaultName

  /** What an output stream shows for a label; a default-constructed label of an unknown type shows nothing here. */
  function LabelText(name: Name): (r: string)
    ensures name.TextName? ==> r == name.text
    ensures name.IntName? ==> |r| >= 1 && (r[0] == '-' <==> name.n < 0)
    ensures name.IntName? && name.n >= 0 ==> IsDigits(r) && ParseDecimal(r) == name.n
  {
    match name
    case IntName(n) => IntText(n)
    case TextName(s) => s
    case DefaultName => ""
  }

  datatype TimeStamp = TimeStamp(name: Name, timeStamp: Instant, threadId: ThreadId)

  /**
   * Elapsed nanoseconds from first to last. The sign tells whether the two
   * were passed in chronological order; the difference of two instants never
   * leaves the int64 range, so the subtraction cannot overflow.
   */
  function GetDiff(first: TimeStamp, last: TimeStamp): (r: int)
    ensures IsInt64(r)
    ensures r >= 0 <==> first.timeStamp <= last.timeStamp
    ensures first.timeStamp + r == last.timeStamp
  {
    last.timeStamp - first.timeStamp
  }

  /** The four units a duration can be rendered in. */
  datatype Unit = Seconds | Milliseconds | Microseconds | Nanoseconds

  /** The integer divisor that turns nanoseconds into the unit. */
  function Divisor(u: Unit): (d: nat)
    ensures d >= 1
  {
    match u
    case Seconds => 1_000_000_000
    case Milliseconds => 1_000_000
    case Microseconds => 1_000
    case Nanoseconds => 1
  }

  /** The unit suffix, as the source writes it (its micro sign is "??"). */
  function Suffix(u: Unit): string
  {
    match u
    case Seconds => "s"
    case Milliseconds => "ms"
    case Microseconds => "??s"
    case Nanoseconds => "ns"
  }

  /**
   * The unit to_string picks. Each tier's lower bound is inclusive, and the
   * comparison is on the signed value: a negative duration is shown in ns.
   */
  function UnitFor(time: int): (u: Unit)
    ensures u == Seconds <==> 100_000_000 <= time
    ensures u == Milliseconds <==> 100_000 <= time < 100_000_000
    ensures u == Microseconds <==> 100 <= time < 100_000
    ensures u == Nanoseconds <==> time < 100
  {
    if time >= 100_000_000 then Seconds
    else if time >= 100_000 then Milliseconds
    else if time >= 100 then Microseconds
    else Nanoseconds
  }

  /**
   * The unit suffix to_string appends, chosen by the same inclusive lower
   * bounds: "s", "ms", the micro suffix, or "ns".
   */
  function SuffixFor(time: int): (s: string)
    ensures s == Suffix(ToString(time).unit)
    ensures s == "s" <==> 100_000_000 <= time
    ensures s == "ms" <==> 100_000 <= time < 100_000_000
    ensures s == "??s" <==> 100 <= time < 100_000
    ensures s == "ns" <==> time < 100
  {
    Suffix(UnitFor(time))
  }

  /**
   * A rendered duration: the scaled numeric part (exactly, before it is
   * converted to floating point and printed) and its unit.
   */
  datatype Duration = Duration(value: real, unit: Unit)

  function ToString(time: int): (r: Duration)
    ensures r.unit == UnitFor(time)
    ensures r.value * (Divisor(r.unit) as real) == time as real
  {
    var u := UnitFor(time);
    Duration(time as real / Divisor(u) as real, u)
  }

  /**
   * The scaled value stays in the band the unit was chosen for: 0.1 up to 100
   * for ms and micro, at least 0.1 for s, below 100 for ns.
   */
  lemma ScaledValueRange(time: int)
    ensures var r := ToString(time);
      && (r.unit == Seconds ==> 0.1 <= r.value)
      && (r.unit == Milliseconds ==> 0.1 <= r.value < 100.0)
      && (r.unit == Microseconds ==> 0.1 <= r.value < 100.0)
      && (r.unit == Nanoseconds ==> r.value < 100.0)
  {
  }

  /** The tiers are ordered: a longer duration never gets a smaller unit. */
  function UnitRank(u: Unit): nat
  {
    match u
    case Nanoseconds => 0
    case Microseconds => 1
    case Milliseconds => 2
    case Seconds => 3
  }

  lemma UnitForMonotone(a: int, b: int)
    requires a <= b
    ensures UnitRank(UnitFor(a)) <= UnitRank(UnitFor(b))
  {
  }
}
