/**
  The comparisons and the difference of the noexcept owned view's iterators
  (include-noexcept/owned_view.h). None of them throws: across views `==`,
  `<` and `<=` come out false and the difference 0, so `>` and `>=`, written
  as their negations, come out true in both directions.
*/
module LenientComparison {
  import opened RepeatIterator
  import CheckedComparison

  /** `a == b`: same location and same position. */
  function Equal<T>(a: Cursor<T>, b: Cursor<T>): (r: bool)
    ensures r <==> a == b
  {
    a.loc == b.loc && a.curr == b.curr
  }

  /** `a != b`, written in the source as `!(a == b)`. */
  function NotEqual<T>(a: Cursor<T>, b: Cursor<T>): (r: bool)
    ensures r <==> a != b
  {
    !Equal(a, b)
  }

  /** `a < b`. */
  function Less<T>(a: Cursor<T>, b: Cursor<T>): (r: bool)
    ensures a.loc == b.loc ==> (r <==> a.curr < b.curr)
    ensures a.loc != b.loc ==> !r
  {
    a.loc == b.loc && a.curr < b.curr
  }

  /** `a <= b`. */
  function LessEq<T>(a: Cursor<T>, b: Cursor<T>): (r: bool)
    ensures a.loc == b.loc ==> (r <==> a.curr <= b.curr)
    ensures a.loc != b.loc ==> !r
  {
    a.loc == b.loc && a.curr <= b.curr
  }

  /** `a > b`, written in the source as `!(a <= b)`. */
  function Greater<T>(a: Cursor<T>, b: Cursor<T>): (r: bool)
    ensures a.loc == b.loc ==> (r <==> b.curr < a.curr)
    ensures a.loc != b.loc ==> r
  {
    !LessEq(a, b)
  }

  /** `a >= b`, written in the source as `!(a < b)`. */
  function GreaterEq<T>(a: Cursor<T>, b: Cursor<T>): (r: bool)
    ensures a.loc == b.loc ==> (r <==> b.curr <= a.curr)
    ensures a.loc != b.loc ==> r
  {
    !Less(a, b)
  }

  /** `a - b`: the signed distance, or 0 across views. */
  function Difference<T>(a: Cursor<T>, b: Cursor<T>): (r: int)
    ensures a.loc == b.loc ==> Moved(b, r) == a
    ensures a.loc != b.loc ==> r == 0
  {
    if a.loc == b.loc then a.curr - b.curr else 0
  }

  /** Across views nothing throws and each operator degrades: both `a > b` and
      `b > a` hold, and the distance reads as 0. */
  lemma CrossViewDegrades<T>(a: Cursor<T>, b: Cursor<T>)
    requires a.loc != b.loc
    ensures !Equal(a, b) && NotEqual(a, b)
    ensures !Less(a, b) && !LessEq(a, b) && !Less(b, a) && !LessEq(b, a)
    ensures Greater(a, b) && Greater(b, a) && GreaterEq(a, b) && GreaterEq(b, a)
    ensures Difference(a, b) == 0 == Difference(b, a)
  {
  }

  /** Within one view the order follows the positions, and `(it + k) - it == k`. */
  lemma SameViewFollowsPosition<T>(a: Cursor<T>, b: Cursor<T>, k: int)
    requires a.loc == b.loc
    ensures Equal(a, b) == (a.curr == b.curr) && NotEqual(a, b) == (a.curr != b.curr)
    ensures Less(a, b) == (a.curr < b.curr) && LessEq(a, b) == (a.curr <= b.curr)
    ensures Greater(a, b) == (a.curr > b.curr) && GreaterEq(a, b) == (a.curr >= b.curr)
    ensures Difference(a, b) == a.curr - b.curr
    ensures Difference(Moved(a, k), a) == k
  {
  }

  /** Within one view the non-throwing operators give exactly what the checked
      ones give; they differ only across views. */
  lemma AgreesWithCheckedOnSameView<T>(a: Cursor<T>, b: Cursor<T>)
    requires a.loc == b.loc
    ensures CheckedComparison.Equal(a, b) == Ok(Equal(a, b))
    ensures CheckedComparison.NotEqual(a, b) == Ok(NotEqual(a, b))
    ensures CheckedComparison.Less(a, b) == Ok(Less(a, b))
    ensures CheckedComparison.LessEq(a, b) == Ok(LessEq(a, b))
    ensures CheckedComparison.Greater(a, b) == Ok(Greater(a, b))
    ensures CheckedComparison.GreaterEq(a, b) == Ok(GreaterEq(a, b))
    ensures CheckedComparison.Difference(a, b) == Ok(Difference(a, b))
  {
  }
}
