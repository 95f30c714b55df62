/**
  The repeated-position iterator that every view of the repository hands out.

  An iterator is a pair: the address of the one stored value (`location`) and a
  logical position `curr` in [0, N]. Every position dereferences to the same
  value. Its operations follow the random-access iterator requirements of
  section 27.2.7 of ISO/IEC 14882:2017.
*/
module RepeatIterator {

  /** The single slot that holds the repeated value. Its object identity plays
      the role of the C++ `location` pointer. */
  class Storage<T> {
    var value: T

    constructor (v: T)
      ensures value == v
    {
      value := v;
    }
  }

  /** `std::invalid_argument` together with its message. */
  datatype Error = InvalidArgument(what: string)

  /** A value, or the exception a checked comparison throws. */
  datatype Result<R> = Ok(value: R) | Err(error: Error)

  const ComparisonMessage := "Requested comparison between different views"
  const DifferenceMessage := "Requested difference between different views"

  /** The two data members of an iterator, read at one instant. A null `loc`
      is the singular (default-constructed) iterator. */
  datatype Cursor<T> = Cursor(loc: Storage?<T>, curr: int)

  /** The effect of `it += d`: the position moves, the location does not. */
  function Moved<T>(c: Cursor<T>, d: int): Cursor<T>
  {
    Cursor(c.loc, c.curr + d)
  }

  /** The effect of `++it`. */
  function Next<T>(c: Cursor<T>): Cursor<T>
  {
    Cursor(c.loc, c.curr + 1)
  }

  /** The effect of `--it`. */
  function Prev<T>(c: Cursor<T>): Cursor<T>
  {
    Cursor(c.loc, c.curr - 1)
  }

  /** The operational meaning the standard gives to `r += n`: apply `++r`
      n times when n >= 0 and `--r` -n times otherwise. */
  function StdAdvance<T>(c: Cursor<T>, m: int): Cursor<T>
    decreases if m < 0 then -m else m
  {
    if m == 0 then c
    else if m > 0 then StdAdvance(Next(c), m - 1)
    else StdAdvance(Prev(c), m + 1)
  }

  /** The constant-time `curr += n` of the source does what the standard's
      repeated stepping does. */
  lemma {:induction false} AdvanceIsRepeatedStep<T>(c: Cursor<T>, m: int)
    ensures StdAdvance(c, m) == Moved(c, m)
    decreases if m < 0 then -m else m
  {
    if m > 0 {
      AdvanceIsRepeatedStep(Next(c), m - 1);
    } else if m < 0 {
      AdvanceIsRepeatedStep(Prev(c), m + 1);
    }
  }

  /** `it += n` followed by `it -= n` restores the iterator, and `+=` composes. */
  lemma AdvanceRoundTrip<T>(c: Cursor<T>, j: int, k: int)
    ensures Moved(Moved(c, k), -k) == c
    ensures Moved(Moved(c, j), k) == Moved(c, j + k)
    ensures Moved(c, k).loc == c.loc
  {
  }

  /** An iterator of one view type: `mutable` tells `iterator` (true) from
      `const_iterator` (false), `n` is the view's length N. */
  class Iterator<T> {
    const n: nat
    const mutable: bool
    var loc: Storage?<T>
    var curr: int

    /** The position stays within [0, N]. */
    predicate Valid()
      reads this
    {
      0 <= curr <= n
    }

    function State(): Cursor<T>
      reads this
    {
      Cursor(loc, curr)
    }

    /** The defaulted constructor: no location, position 0. */
    constructor Default(n: nat, mutable: bool)
      ensures this.n == n && this.mutable == mutable
      ensures State() == Cursor(null, 0) && Valid()
    {
      this.n := n;
      this.mutable := mutable;
      loc := null;
      curr := 0;
    }

    /** The private constructor the view uses to bind an iterator to its slot. */
    constructor Bound(l: Storage<T>, c: int, n: nat, mutable: bool)
      requires 0 <= c <= n
      ensures this.n == n && this.mutable == mutable
      ensures State() == Cursor(l, c) && Valid()
    {
      this.n := n;
      this.mutable := mutable;
      loc := l;
      curr := c;
    }

    /** The defaulted copy constructor. */
    constructor Copy(other: Iterator<T>)
      ensures n == other.n && mutable == other.mutable
      ensures State() == other.State()
    {
      n := other.n;
      mutable := other.mutable;
      loc := other.loc;
      curr := other.curr;
    }

    /** The converting constructor from `iterator` to `const_iterator`. */
    constructor AsConst(other: Iterator<T>)
      requires other.mutable
      ensures n == other.n && !mutable
      ensures State() == other.State()
    {
      n := other.n;
      mutable := false;
      loc := other.loc;
      curr := other.curr;
    }

    /** Copy assignment, and the converting assignment of an `iterator` to a
        `const_iterator`; an `iterator` cannot be assigned a `const_iterator`. */
    method Assign(other: Iterator<T>)
      requires other.n == n
      requires mutable ==> other.mutable
      modifies this
      ensures State() == old(other.State())
    {
      loc, curr := other.loc, other.curr;
    }

    /** `++it`: one position forward, same location. */
    method Increment()
      requires Valid() && curr < n
      modifies this
      ensures Valid() && State() == Next(old(State()))
    {
      curr := curr + 1;
    }

    /** `--it`: one position back, same location. */
    method Decrement()
      requires Valid() && 0 < curr
      modifies this
      ensures Valid() && State() == Prev(old(State()))
    {
      curr := curr - 1;
    }

    /** `it++`: moves forward and returns a copy of the iterator as it was. */
    method PostIncrement() returns (prev: Iterator<T>)
      requires Valid() && curr < n
      modifies this
      ensures Valid() && State() == Next(old(State()))
      ensures fresh(prev) && prev.n == n && prev.mutable == mutable
      ensures prev.State() == old(State())
    {
      prev := new Iterator.Copy(this);
      Increment();
    }

    /** `it--`: moves back and returns a copy of the iterator as it was. */
    method PostDecrement() returns (prev: Iterator<T>)
      requires Valid() && 0 < curr
      modifies this
      ensures Valid() && State() == Prev(old(State()))
      ensures fresh(prev) && prev.n == n && prev.mutable == mutable
      ensures prev.State() == old(State())
    {
      prev := new Iterator.Copy(this);
      Decrement();
    }

    /** `it += d`: only the position changes. */
    method AddAssign(d: int)
      requires Valid() && 0 <= curr + d <= n
      modifies this
      ensures Valid() && State() == Moved(old(State()), d)
    {
      curr := curr + d;
    }

    /** `it -= d`, which the source writes as `it += -d`. */
    method SubAssign(d: int)
      requires Valid() && 0 <= curr - d <= n
      modifies this
      ensures Valid() && State() == Moved(old(State()), -d)
    {
      AddAssign(-d);
    }

    /** `it + d`: a moved copy; the operand is left as it was. */
    method Plus(d: int) returns (r: Iterator<T>)
      requires Valid() && 0 <= curr + d <= n
      ensures fresh(r) && r.n == n && r.mutable == mutable
      ensures r.Valid() && r.State() == Moved(State(), d)
    {
      r := new Iterator.Copy(this);
      r.AddAssign(d);
    }

    /** `it - d`: a copy moved back by d. */
    method Minus(d: int) returns (r: Iterator<T>)
      requires Valid() && 0 <= curr - d <= n
      ensures fresh(r) && r.n == n && r.mutable == mutable
      ensures r.Valid() && r.State() == Moved(State(), -d)
    {
      r := new Iterator.Copy(this);
      r.SubAssign(d);
    }

    /** `*it`: the value in the slot at `location`, whatever the position. */
    function Deref(): (v: T)
      reads this, loc
      requires loc != null && 0 <= curr < n
      ensures v == loc.value
    {
      loc.value
    }

    /** `it[d]` as most views write it: `*location`, ignoring d. */
    function At(d: int): (v: T)
      reads this, loc
      requires loc != null
      ensures 0 <= curr < n ==> v == Deref()
      ensures v == loc.value
    {
      loc.value
    }

    /** `it[d]` as the two noexcept views write it: `*(location + d)`, which
        is defined only for d == 0 because `location` addresses one object. */
    function AtOffset(d: int): (v: T)
      reads this, loc
      requires loc != null && d == 0
      ensures v == At(d)
      ensures 0 <= curr < n ==> v == Deref()
    {
      loc.value
    }

    /** `*it = x` through an `iterator` (never a `const_iterator`). */
    method Store(x: T)
      requires mutable && loc != null && 0 <= curr < n
      modifies loc
      ensures loc.value == x
    {
      loc.value := x;
    }
  }

  /** `n + it`, which the source defines as `it + n`. */
  method PlusLeft<T>(d: int, a: Iterator<T>) returns (r: Iterator<T>)
    requires a.Valid() && 0 <= a.curr + d <= a.n
    ensures fresh(r) && r.n == a.n && r.mutable == a.mutable
    ensures r.Valid() && r.State() == Moved(a.State(), d)
  {
    r := a.Plus(d);
  }

  /** The friend `swap`: exchanges both location and position. */
  method Swap<T>(a: Iterator<T>, b: Iterator<T>)
    requires a.n == b.n && a.mutable == b.mutable
    modifies a, b
    ensures a.State() == old(b.State()) && b.State() == old(a.State())
  {
    var l, c := a.loc, a.curr;
    a.loc, a.curr := b.loc, b.curr;
    b.loc, b.curr := l, c;
  }

  /** Dereference and subscript ignore position and offset: every position of
      an iterator, and every iterator sharing its location, reads the one
      stored value; `it[d]` is `*(it + d)` as the standard requires. */
  lemma SubscriptIsDeref<T>(it: Iterator<T>, other: Iterator<T>, d: int, e: int)
    requires it.loc != null && other.loc == it.loc
    ensures it.At(d) == it.At(e) == other.At(d) == it.loc.value
    ensures 0 <= it.curr < it.n ==> it.At(d) == it.Deref()
    ensures 0 <= other.curr < other.n ==> other.Deref() == it.At(d)
    ensures Moved(it.State(), d).loc == it.loc
  {
  }

  /** The pointer-offset subscript agrees with `*it` where it is defined. */
  lemma OffsetSubscriptIsDeref<T>(it: Iterator<T>)
    requires it.loc != null && 0 <= it.curr < it.n
    ensures it.AtOffset(0) == it.Deref() == it.At(0)
  {
  }
}
