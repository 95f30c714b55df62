/**
  The comparisons and the difference of the checked iterators (the owned,
  normal, dereferencing and foreign views, and the noexcept foreign view):
  each throws `std::invalid_argument` when the two locations differ.

  The C++ friend functions read only `location` and `curr`, so they are stated
  on the `Cursor` pair: `Less(a.State(), b.State())` is `a < b`.
*/
module CheckedComparison {
  import opened RepeatIterator

  /** `!r`, with an exception passing through. */
  function Negate(r: Result<bool>): Result<bool>
  {
    match r
    case Ok(x) => Ok(!x)
    case Err(e) => Err(e)
  }

  /** `a == b`. */
  function Equal<T>(a: Cursor<T>, b: Cursor<T>): (r: Result<bool>)
    ensures a.loc != b.loc ==> r == Err(InvalidArgument(ComparisonMessage))
    ensures a.loc == b.loc ==> r == Ok(a == b)
  {
    if a.loc != b.loc then Err(InvalidArgument(ComparisonMessage)) else Ok(a.curr == b.curr)
  }

  /** `a != b`, written in the source as `!(a == b)`. */
  function NotEqual<T>(a: Cursor<T>, b: Cursor<T>): (r: Result<bool>)
    ensures a.loc != b.loc ==> r == Err(InvalidArgument(ComparisonMessage))
    ensures a.loc == b.loc ==> r == Ok(a.curr != b.curr)
  {
    Negate(Equal(a, b))
  }

  /** `a < b`. */
  function Less<T>(a: Cursor<T>, b: Cursor<T>): (r: Result<bool>)
    ensures a.loc != b.loc ==> r == Err(InvalidArgument(ComparisonMessage))
    ensures a.loc == b.loc ==> r == Ok(a.curr < b.curr)
  {
    if a.loc != b.loc then Err(InvalidArgument(ComparisonMessage)) else Ok(a.curr < b.curr)
  }

  /** `a <= b`. */
  function LessEq<T>(a: Cursor<T>, b: Cursor<T>): (r: Result<bool>)
    ensures a.loc != b.loc ==> r == Err(InvalidArgument(ComparisonMessage))
    ensures a.loc == b.loc ==> r == Ok(a.curr <= b.curr)
  {
    if a.loc != b.loc then Err(InvalidArgument(ComparisonMessage)) else Ok(a.curr <= b.curr)
  }

  /** `a > b`, written in the source as `!(a <= b)`. */
  function Greater<T>(a: Cursor<T>, b: Cursor<T>): (r: Result<bool>)
    ensures a.loc != b.loc ==> r == Err(InvalidArgument(ComparisonMessage))
    ensures a.loc == b.loc ==> r == Ok(b.curr < a.curr)
  {
    Negate(LessEq(a, b))
  }

  /** `a >= b`, written in the source as `!(a < b)`. */
  function GreaterEq<T>(a: Cursor<T>, b: Cursor<T>): (r: Result<bool>)
    ensures a.loc != b.loc ==> r == Err(InvalidArgument(ComparisonMessage))
    ensures a.loc == b.loc ==> r == Ok(b.curr <= a.curr)
  {
    Negate(Less(a, b))
  }

  /** `a - b`, the signed distance. */
  function Difference<T>(a: Cursor<T>, b: Cursor<T>): (r: Result<int>)
    ensures a.loc != b.loc ==> r == Err(InvalidArgument(DifferenceMessage))
    ensures a.loc == b.loc ==> r.Ok? && Moved(b, r.value) == a
  {
    if a.loc != b.loc then Err(InvalidArgument(DifferenceMessage)) else Ok(a.curr - b.curr)
  }

  /** Every comparison and the difference throw `invalid_argument` across views. */
  lemma CrossViewThrows<T>(a: Cursor<T>, b: Cursor<T>)
    requires a.loc != b.loc
    ensures Equal(a, b) == NotEqual(a, b) == Err(InvalidArgument(ComparisonMessage))
    ensures Less(a, b) == LessEq(a, b) == Err(InvalidArgument(ComparisonMessage))
    ensures Greater(a, b) == GreaterEq(a, b) == Err(InvalidArgument(ComparisonMessage))
    ensures Difference(a, b) == Err(InvalidArgument(DifferenceMessage))
  {
  }

  /** Within one view nothing throws, and equality, order and difference follow
      the positions. */
  lemma SameViewFollowsPosition<T>(a: Cursor<T>, b: Cursor<T>)
    requires a.loc == b.loc
    ensures Equal(a, b) == Ok(a == b) && NotEqual(a, b) == Ok(a != b)
    ensures Less(a, b) == Ok(a.curr < b.curr) && LessEq(a, b) == Ok(a.curr <= b.curr)
    ensures Greater(a, b) == Ok(a.curr > b.curr) && GreaterEq(a, b) == Ok(a.curr >= b.curr)
    ensures Difference(a, b) == Ok(a.curr - b.curr)
  {
  }

  /** Within one view the operators meet the random-access requirements of
      section 27.2.7 of ISO/IEC 14882:2017: `a < b` is `b - a > 0`, `a > b` is
      `b < a`, `a >= b` is `!(a < b)`, `a <= b` is `!(a > b)`, and `<` is a
      strict total order. */
  lemma SameViewRandomAccess<T>(a: Cursor<T>, b: Cursor<T>, c: Cursor<T>)
    requires a.loc == b.loc == c.loc
    ensures Difference(b, a).Ok? && Less(a, b) == Ok(Difference(b, a).value > 0)
    ensures Greater(a, b) == Less(b, a)
    ensures GreaterEq(a, b) == Negate(Less(a, b))
    ensures LessEq(a, b) == Negate(Greater(a, b))
    ensures Less(a, b) == Ok(true) ==> Less(b, a) == Ok(false)
    ensures Less(a, b) == Ok(true) && Less(b, c) == Ok(true) ==> Less(a, c) == Ok(true)
    ensures Less(a, b) == Ok(true) || Equal(a, b) == Ok(true) || Greater(a, b) == Ok(true)
  {
  }

  /** `(it + k) - it == k`, and `it + (b - it) == b` within one view. */
  lemma DifferenceInvertsAdvance<T>(a: Cursor<T>, b: Cursor<T>, k: int)
    requires a.loc == b.loc
    ensures Difference(Moved(a, k), a) == Ok(k)
    ensures Difference(b, a).Ok? && Moved(a, Difference(b, a).value) == b
  {
  }
}
