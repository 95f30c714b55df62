/**
  The view shells. An owning view (repeat_n_owned_view, single_view,
  owned_view) holds the value itself and hands out `iterator` and
  `const_iterator`; a borrowing view (dereferencing_single_view,
  repeat_n_foreign_view, foreign_view) keeps a const pointer to a value the
  caller owns, never copies it, and hands out const iterators only. Either way
  `begin()` is at position 0 and `end()` at position N, both on the one slot.
*/
module RepeatViews {
  import opened RepeatIterator
  import CheckedComparison
  import LenientComparison

  /** `std::numeric_limits<std::ptrdiff_t>::max()`; its value depends on the
      target and is left unspecified. */
  const PtrdiffMax: nat

  class View<T> {
    /** The template parameter N. */
    const n: nat
    /** Whether the view owns its slot (true) or borrows it (false). */
    const owns: bool
    /** The one slot: the owned member, or the borrowed const pointer. */
    const contents: Storage<T>

    /** The forwarding constructor of an owning view: the slot is its own. */
    constructor Owning(n: nat, value: T)
      ensures this.n == n && owns
      ensures fresh(contents) && contents.value == value
    {
      this.n := n;
      owns := true;
      contents := new Storage(value);
    }

    /** The constructor of a borrowing view: it stores the caller's pointer and
        leaves the value where it is. */
    constructor Borrowing(n: nat, outsider: Storage<T>)
      ensures this.n == n && !owns
      ensures contents == outsider
    {
      this.n := n;
      owns := false;
      contents := outsider;
    }

    /** `data()` of an owning view, read: the value in the slot that
        `begin()` and `end()` point at. */
    function Data(): (v: T)
      reads contents
      requires owns
      ensures BeginState().loc == EndState().loc == contents && v == contents.value
    {
      contents.value
    }

    /** `data() = x` on an owning view. */
    method SetData(x: T)
      requires owns
      modifies contents
      ensures Data() == x
    {
      contents.value := x;
    }

    /** Where `begin()` and `cbegin()` are. */
    function BeginState(): Cursor<T>
    {
      Cursor(contents, 0)
    }

    /** Where `end()` and `cend()` are. */
    function EndState(): Cursor<T>
    {
      Cursor(contents, n)
    }

    /** `begin()`: an `iterator` on an owning view, a const iterator on a
        borrowing one (there `const_iterator` is the only iterator type). */
    method Begin() returns (it: Iterator<T>)
      ensures fresh(it) && it.n == n && it.mutable == owns
      ensures it.Valid() && it.State() == BeginState()
    {
      it := new Iterator.Bound(contents, 0, n, owns);
    }

    /** `cbegin()`, and `begin() const`. */
    method CBegin() returns (it: Iterator<T>)
      ensures fresh(it) && it.n == n && !it.mutable
      ensures it.Valid() && it.State() == BeginState()
    {
      it := new Iterator.Bound(contents, 0, n, false);
    }

    /** `end()`. */
    method End() returns (it: Iterator<T>)
      ensures fresh(it) && it.n == n && it.mutable == owns
      ensures it.Valid() && it.State() == EndState()
    {
      it := new Iterator.Bound(contents, n, n, owns);
    }

    /** `cend()`, and `end() const`. */
    method CEnd() returns (it: Iterator<T>)
      ensures fresh(it) && it.n == n && !it.mutable
      ensures it.Valid() && it.State() == EndState()
    {
      it := new Iterator.Bound(contents, n, n, false);
    }

    /** `size()`: the length of the range `[begin(), end())`, under either
        discipline; it reads no state, so no iterator and no write affects it. */
    function Size(): (r: nat)
      ensures CheckedComparison.Difference(EndState(), BeginState()) == Ok(r)
      ensures LenientComparison.Difference(EndState(), BeginState()) == r
    {
      n
    }

    /** `max_size()`: the largest `ptrdiff_t`, whatever N and the iterators. */
    function MaxSize(): (r: int)
      ensures r == PtrdiffMax
    {
      PtrdiffMax
    }
  }

  /** `begin() + N == end()`; stepping `++` N times from `begin()` reaches
      `end()` and stepping `--` N times from `end()` reaches `begin()`; and
      `begin()` comes before `end()` unless the view is empty. */
  lemma BeginEndBracketN<T>(v: View<T>)
    ensures Moved(v.BeginState(), v.n) == v.EndState()
    ensures StdAdvance(v.BeginState(), v.n) == v.EndState()
    ensures StdAdvance(v.EndState(), -(v.n as int)) == v.BeginState()
    ensures CheckedComparison.Less(v.BeginState(), v.EndState()) == Ok(0 < v.n)
    ensures CheckedComparison.Equal(v.BeginState(), v.EndState()) == Ok(v.n == 0)
  {
    AdvanceIsRepeatedStep(v.BeginState(), v.n);
    AdvanceIsRepeatedStep(v.EndState(), -(v.n as int));
  }

  /** Every iterator bound to a view dereferences, at every position and with
      every subscript, to the one value `data()` returns; on a borrowing view,
      to the caller's value as it is now. */
  lemma DerefIsData<T>(v: View<T>, it: Iterator<T>, d: int)
    requires it.loc == v.contents && 0 <= it.curr < it.n
    ensures it.Deref() == it.At(d) == v.contents.value
    ensures v.owns ==> it.Deref() == v.Data()
  {
  }

  /** Walks `[first, last)` with `!=`, `*` and `++`, collecting what is read.
      Every one of the `last - first` steps reads the stored value; an empty
      range, such as two default-constructed iterators, takes no step. */
  method Walk<T>(first: Iterator<T>, last: Iterator<T>) returns (s: seq<T>)
    requires last.loc == first.loc && first.n == last.n
    requires first.curr < last.curr ==> first.loc != null
    requires first.Valid() && last.Valid() && first.curr <= last.curr
    ensures CheckedComparison.Difference(last.State(), first.State()) == Ok(|s|)
    ensures |s| > 0 ==> first.loc != null
    ensures forall i :: 0 <= i < |s| ==> s[i] == first.loc.value
  {
    var it := new Iterator.Copy(first);
    s := [];
    while CheckedComparison.NotEqual(it.State(), last.State()) == Ok(true)
      invariant fresh(it) && it.n == first.n && it.loc == first.loc
      invariant first.curr <= it.curr <= last.curr
      invariant |s| == it.curr - first.curr
      invariant |s| > 0 ==> first.loc != null
      invariant forall i :: 0 <= i < |s| ==> s[i] == first.loc.value
      decreases last.curr - it.curr
    {
      s := s + [it.Deref()];
      it.Increment();
    }
  }

  /** An owned view of 42 with N = 3 reads 42, 42, 42; after `data() = 7` it
      reads 7, 7, 7 through the same iterators, and a write through an
      `iterator` shows through `data()` and a `const_iterator`. A borrowing view sees a write
      that the owner makes to its own value. */
  method Example()
  {
    var v := new View.Owning(3, 42);
    var b := v.Begin();
    var e := v.End();
    var s := Walk(b, e);
    assert s == [42, 42, 42];
    v.SetData(7);
    s := Walk(b, e);
    assert s == [7, 7, 7];
    var k := new Iterator.AsConst(b);
    b.Store(1);
    assert v.Data() == 1 && k.Deref() == 1;

    var owner := new Storage(5);
    var w := new View.Borrowing(2, owner);
    var c := w.CBegin();
    assert c.Deref() == 5;
    owner.value := 9;
    assert c.Deref() == 9;
  }
}
