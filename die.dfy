/** The die value model: six die kinds, each with a fixed face count, and a
    die that keeps its kind for life while its value and roll time change
    whenever it is rolled. */
module Dice {

  datatype Option<T> = None | Some(value: T)

  /** The six polyhedral die kinds. */
  datatype DieKind = Four | Six | Eight | Ten | Twelve | Twenty

  /** Number of faces of a die of kind `kind`: the upper end of its roll range. */
  function Faces(kind: DieKind): (n: nat)
    ensures n in {4, 6, 8, 10, 12, 20}
  {
    match kind
    case Four => 4
    case Six => 6
    case Eight => 8
    case Ten => 10
    case Twelve => 12
    case Twenty => 20
  }

  /** `v` is a value a die of kind `kind` can show: `1..=Faces(kind)`. */
  predicate InRange(kind: DieKind, v: nat) {
    1 <= v <= Faces(kind)
  }

  /** A point in time as read from the monotonic clock. */
  type Instant = nat

  /** The monotonic clock behind `Instant::now()`. Each reading is at least
      the previous one; the amount by which it advances is not modelled. */
  class Clock {
    var reading: Instant

    constructor (start: Instant)
      ensures reading == start
    {
      reading := start;
    }

    /** Read the clock: the result is the new reading, never below the old one. */
    method Now() returns (t: Instant)
      modifies this
      ensures old(reading) <= t && reading == t
    {
      t :| t >= reading;
      reading := t;
    }
  }

  /** Draw a fresh value for a die of kind `kind`. The random generator is a
      nondeterministic choice: any value of the inclusive range may come out,
      and nothing else can. */
  method GenerateRoll(kind: DieKind) returns (v: nat)
    ensures 1 <= v <= Faces(kind)
  {
    v :| 1 <= v <= Faces(kind);
  }

  /** One placed die. `kind` never changes; `val` and `time` are the cells
      that `Roll` overwrites. */
  class Die {
    const kind: DieKind
    var val: nat
    var time: Option<Instant>

    /** A die always shows a value of its own range and carries a roll time. */
    ghost predicate Valid()
      reads this
    {
      InRange(kind, val) && time.Some?
    }

    /** A new die of kind `kind`, already rolled, stamped with the current time. */
    constructor (kind: DieKind, clock: Clock)
      modifies clock
      ensures this.kind == kind
      ensures Valid()
      ensures old(clock.reading) <= clock.reading && time == Some(clock.reading)
    {
      var v := GenerateRoll(kind);
      var now := clock.Now();
      this.kind := kind;
      val := v;
      time := Some(now);
    }

    /** Re-roll in place: a new time stamp and a new value of the same range.
        The kind is a constant, and the frame allows no other change. */
    method Roll(clock: Clock)
      modifies this`time, this`val, clock
      ensures Valid()
      ensures old(clock.reading) <= clock.reading && time == Some(clock.reading)
    {
      var now := clock.Now();
      time := Some(now);
      val := GenerateRoll(kind);
    }
  }
}
