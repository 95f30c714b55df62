# repeat_n_view in Dafny

A model of the "one value repeated N times" views of the repeat_n_view
library. A view exposes a single stored value, or a value borrowed through a
const pointer, as a random-access sequence of length N. It hands out iterators
that are a pair `(location, curr)`. `location` is the address of the one value.
`curr` is a logical position in `[0, N]`. Every position dereferences to the
same value.

The six headers repeat one iterator with small changes. The model defines the
shared part once and keeps each variation as its own member:

- `RepeatIterator` (iterator.dfy): the slot `Storage` (its object identity is
  `location`), the pair `Cursor`, and the class `Iterator` with the in-place
  operations `++`, `--`, `+=`, `-=`, copy and converting assignment, `swap`,
  and the copying operations `it++`, `it--`, `it + n`, `n + it`, `it - n`.
  `mutable` separates `iterator` from `const_iterator`. `At` is the subscript
  `*location`. `AtOffset` is the subscript `*(location + n)`.
- `CheckedComparison` (checked.dfy): `==`, `!=`, `<`, `<=`, `>`, `>=` and the
  difference. Each one throws `std::invalid_argument` (`Err(InvalidArgument(..))`,
  with the source's message) when the two locations differ.
- `LenientComparison` (lenient.dfy): the same operators as the noexcept owned
  view writes them. They never throw. Across views `==`, `<` and `<=` are false and the difference
  is 0, while `!=`, `>` and `>=` are true, in both directions.
- `RepeatViews` (views.dfy): the shell `View`, which either owns its slot
  (`Owning`) or borrows it (`Borrowing`). It provides `begin`/`end`/`cbegin`/`cend`,
  `data()`, `size()` and `max_size()`. It also holds `Walk`, a client loop over
  `[first, last)`, and `Example`, the owned-view scenario 42, 42, 42 followed
  by 7, 7, 7.

A comparison only reads the two data members of its operands. So it is stated
on their `Cursor`: `a < b` is `CheckedComparison.Less(a.State(), b.State())`.

### Which members model which header

| header | shell | comparisons | subscript | iterator kinds |
|---|---|---|---|---|
| owned/repeat_n_owned_view.h | `View.Owning` | `CheckedComparison` | `Iterator.At` | `iterator` and `const_iterator`, `AsConst`/`Assign` |
| normal/single_view.h | `View.Owning` | `CheckedComparison` | `Iterator.At` | `iterator` and `const_iterator`, `AsConst`/`Assign` |
| include-noexcept/owned_view.h | `View.Owning` | `LenientComparison` | `Iterator.AtOffset` | `iterator` and `const_iterator`, `AsConst`/`Assign` |
| dereferencing/dereferencing_single_view.h | `View.Borrowing` | `CheckedComparison` | `Iterator.At` | one const type (`mutable == false`) |
| foreign/repeat_n_foreign_view.h | `View.Borrowing` | `CheckedComparison` | `Iterator.At` | one const type (`mutable == false`) |
| include-noexcept/foreign_view.h | `View.Borrowing` | `CheckedComparison` | `Iterator.AtOffset` | one const type (`mutable == false`) |

owned/repeat_n_owned_view.h and normal/single_view.h are identical apart from
names. So are dereferencing/dereferencing_single_view.h and
foreign/repeat_n_foreign_view.h, except that the dereferencing view also has
non-const `begin()`/`end()`. Those return the same const type. The rows below
cite the owned header for the shared code. The same lines appear in
normal/single_view.h at the same numbers. In the dereferencing and foreign
headers they sit four lines earlier for the iterator (`++` at 49-52, `==` at
55-60, `-` at 101-106, `<`/`<=` at 110-122). The borrowing constructors are at
dereferencing/dereferencing_single_view.h:143 and
foreign/repeat_n_foreign_view.h:141. The other positions are:

- include-noexcept/owned_view.h: `++` at 61-64, `--` at 85-88, `+=`/`-=` at 97-108,
  `swap` at 53-57, conversions at 129-137, `begin`/`end` at 164-174, `size` at 189.
- include-noexcept/foreign_view.h: `++`/`--` at 60-96, `+=`/`-=` at 99-110,
  checked comparisons at 66-71 and 112-137, `begin`/`end` at 155-161, `size` at 172.

Two facts about the headers shape the model:

- Every cross-view comparison in the six headers either throws
  `std::invalid_argument` or returns a fixed value. None is left undefined. In the
  noexcept owned view, `==`, `<` and `<=` give false, `-` gives 0, and `!=`, `>`
  and `>=` give true.
- `it[n]` is `*(location + n)` in include-noexcept/owned_view.h:114 and
  include-noexcept/foreign_view.h:119. It is `*location` in the other four.

## Model

| member | source | states |
|---|---|---|
| RepeatIterator.AdvanceIsRepeatedStep | owned/repeat_n_owned_view.h:92-95 | the constant-time `curr += n` equals the standard's meaning of `r += n`: `++r` n times, or `--r` -n times; proved by induction |
| RepeatIterator.AdvanceRoundTrip | owned/repeat_n_owned_view.h:92-103 | `+= k` then `-= k` restores the iterator; two advances compose; the location never moves |
| RepeatIterator.Iterator.Default | owned/repeat_n_owned_view.h:77 | a default-constructed iterator has no location and position 0 |
| RepeatIterator.Iterator.Bound | owned/repeat_n_owned_view.h:146 | the view's private constructor binds a location and a position in [0, N] |
| RepeatIterator.Iterator.Copy | owned/repeat_n_owned_view.h:41 | the copy has the same kind, location and position |
| RepeatIterator.Iterator.AsConst | owned/repeat_n_owned_view.h:133-134 | converting an `iterator` gives a `const_iterator` with the same location and position |
| RepeatIterator.Iterator.Assign | owned/repeat_n_owned_view.h:136-141 | assignment (also the defaulted one at line 43) copies location and position; a `const_iterator` accepts an `iterator`, but not the reverse |
| RepeatIterator.Iterator.Increment | owned/repeat_n_owned_view.h:53-56 | `++` raises `curr` by one and leaves the location unchanged |
| RepeatIterator.Iterator.Decrement | owned/repeat_n_owned_view.h:80-83 | `--` lowers `curr` by one and leaves the location unchanged |
| RepeatIterator.Iterator.PostIncrement | owned/repeat_n_owned_view.h:70-74 | `it++` returns a fresh copy of the prior iterator and moves `it` forward by one |
| RepeatIterator.Iterator.PostDecrement | owned/repeat_n_owned_view.h:85-89 | `it--` returns a fresh copy of the prior iterator and moves `it` back by one |
| RepeatIterator.Iterator.AddAssign | owned/repeat_n_owned_view.h:92-95 | `+= d` moves only the position, by d |
| RepeatIterator.Iterator.SubAssign | owned/repeat_n_owned_view.h:101 | `-= d` is `+= -d` |
| RepeatIterator.Iterator.Plus | owned/repeat_n_owned_view.h:97 | `it + d` is a new iterator moved by d; `it` is unchanged |
| RepeatIterator.Iterator.Minus | owned/repeat_n_owned_view.h:103 | `it - d` is a new iterator moved by -d; `it` is unchanged |
| RepeatIterator.PlusLeft | owned/repeat_n_owned_view.h:99 | `d + it` equals `it + d` |
| RepeatIterator.Iterator.Store | owned/repeat_n_owned_view.h:51 | writing through `*it` is allowed only for an `iterator`, and it changes the one slot |
| RepeatIterator.Iterator.Deref | owned/repeat_n_owned_view.h:51 | `*it` on a dereferenceable iterator is the value in the slot at `location`, whatever the position |
| RepeatIterator.Iterator.At | owned/repeat_n_owned_view.h:112 | `it[d]` as `*location` is the slot's value for every d, and equals `*it` wherever `*it` is defined |
| RepeatIterator.Iterator.AtOffset | include-noexcept/owned_view.h:114 | `it[d]` as `*(location + d)`, defined only for d == 0, equals `it[0]` as `*location` and `*it` |
| RepeatIterator.Swap | owned/repeat_n_owned_view.h:45-49 | `swap` exchanges both location and position of the two iterators |
| RepeatIterator.SubscriptIsDeref | owned/repeat_n_owned_view.h:112 | `it[d]` is the stored value for every d, equals `*it`, equals `*(it + d)` and what any iterator on the same location reads |
| RepeatIterator.OffsetSubscriptIsDeref | include-noexcept/owned_view.h:114 | the pointer-offset subscript, defined only for offset 0, equals `*it` |
| CheckedComparison.Equal | owned/repeat_n_owned_view.h:59-64 | `==` throws `invalid_argument` with the comparison message across views; within a view it holds iff the two iterators are equal |
| CheckedComparison.Less | owned/repeat_n_owned_view.h:114-119 | `<` throws across views; within a view it follows position order |
| CheckedComparison.LessEq | owned/repeat_n_owned_view.h:121-126 | `<=` throws across views; within a view it follows position order |
| CheckedComparison.Difference | owned/repeat_n_owned_view.h:105-110 | `a - b` throws `invalid_argument` with the difference message across views; within a view it is the distance that moves b onto a |
| CheckedComparison.NotEqual | owned/repeat_n_owned_view.h:66 | `!=` throws across views; within a view it holds iff the positions differ |
| CheckedComparison.Greater | owned/repeat_n_owned_view.h:128 | `>` (the negation of `<=`) throws across views; within a view it holds iff b's position is below a's |
| CheckedComparison.GreaterEq | owned/repeat_n_owned_view.h:130 | `>=` (the negation of `<`) throws across views; within a view it follows position order |
| CheckedComparison.CrossViewThrows | owned/repeat_n_owned_view.h:59-130 | when the locations differ, `==`, `!=`, `<`, `<=`, `>`, `>=` throw `invalid_argument` with the comparison message and `-` with the difference message |
| CheckedComparison.SameViewFollowsPosition | owned/repeat_n_owned_view.h:59-126 | within a view nothing throws: `==` holds iff the iterators are equal, the order follows position and `-` is the signed position difference |
| CheckedComparison.SameViewRandomAccess | owned/repeat_n_owned_view.h:114-130 | within a view `a < b` is `b - a > 0`, `a > b` is `b < a`, `a >= b` is `!(a < b)`, `a <= b` is `!(a > b)`, and `<` is asymmetric, transitive and trichotomous |
| CheckedComparison.DifferenceInvertsAdvance | owned/repeat_n_owned_view.h:92-110 | `(it + k) - it == k`, and `a + (b - a) == b` within a view |
| LenientComparison.Equal | include-noexcept/owned_view.h:67-69 | `==` holds iff same location and same position; it never throws |
| LenientComparison.NotEqual | include-noexcept/owned_view.h:71 | `!=` holds iff the two iterators differ in location or position; it never throws |
| LenientComparison.Greater | include-noexcept/owned_view.h:124 | `>` follows position order within a view and is true across views |
| LenientComparison.GreaterEq | include-noexcept/owned_view.h:126 | `>=` follows position order within a view and is true across views |
| LenientComparison.Less | include-noexcept/owned_view.h:116-118 | `<` follows position order within a view and is false across views |
| LenientComparison.LessEq | include-noexcept/owned_view.h:120-122 | `<=` follows position order within a view and is false across views |
| LenientComparison.Difference | include-noexcept/owned_view.h:110-112 | `a - b` is the distance that moves b onto a within a view, and 0 across views |
| LenientComparison.CrossViewDegrades | include-noexcept/owned_view.h:110-126 | across views `==`, `<`, `<=` are false, `-` is 0, and both `a > b` and `b > a` hold (likewise `>=`) |
| LenientComparison.SameViewFollowsPosition | include-noexcept/owned_view.h:116-126 | within a view equality and order follow position, and `(it + k) - it == k` |
| LenientComparison.AgreesWithCheckedOnSameView | include-noexcept/owned_view.h:67-126 | within a view every non-throwing operator returns exactly the checked operator's value |
| RepeatViews.View.Owning | owned/repeat_n_owned_view.h:160-161 | an owning view holds its own new slot with the given value |
| RepeatViews.View.Borrowing | dereferencing/dereferencing_single_view.h:143 | a borrowing view stores the caller's pointer itself, with no copy of the value |
| RepeatViews.View.Data | owned/repeat_n_owned_view.h:164-166 | `data()` reads the one slot, the same object that `begin()` and `end()` point at |
| RepeatViews.View.SetData | owned/repeat_n_owned_view.h:164 | assigning through `data()` sets the one value |
| RepeatViews.View.Begin | owned/repeat_n_owned_view.h:169 | `begin()` is at position 0 on the view's slot; it is an `iterator` only on an owning view |
| RepeatViews.View.CBegin | owned/repeat_n_owned_view.h:171-173 | `cbegin()` and `begin() const` are a `const_iterator` at position 0 on the slot |
| RepeatViews.View.End | owned/repeat_n_owned_view.h:175 | `end()` is at position N on the view's slot; it is an `iterator` only on an owning view |
| RepeatViews.View.CEnd | owned/repeat_n_owned_view.h:177-179 | `cend()` and `end() const` are a `const_iterator` at position N on the slot |
| RepeatViews.View.Size | owned/repeat_n_owned_view.h:194 | `size()` is `end() - begin()` under both disciplines; it reads no state, so no iterator or write changes it |
| RepeatViews.View.MaxSize | owned/repeat_n_owned_view.h:196 | `max_size()` is the `ptrdiff_t` maximum, independent of N and all state |
| RepeatViews.BeginEndBracketN | owned/repeat_n_owned_view.h:169-179 | `begin() + N == end()`; N steps of `++` from `begin()` reach `end()` and N steps of `--` from `end()` reach `begin()`; `begin() < end()` iff N > 0 |
| RepeatViews.DerefIsData | owned/repeat_n_owned_view.h:164-166 | every iterator on a view reads, at every position and with every subscript, the object `data()` returns (for a borrowing view, the caller's value) |
| RepeatViews.Walk | owned/repeat_n_owned_view.h:51-66 | walking `[first, last)` with `!=`, `*` and `++` takes exactly `last - first` steps, and each step reads the stored value; an empty range, including two default-constructed iterators, takes none |

## Left out

- `rbegin`/`rend`/`crbegin`/`crend`: thin wrappers around `std::reverse_iterator`, which is not part of this model.
- `operator->`: it only takes the address of `*it`.
- Type-trait machinery (`std::conditional`, `enable_if`): the two iterator types are an `Iterator` whose `mutable` flag is fixed at construction.
- Perfect-forwarding construction of `T`: `View.Owning` takes the constructed value, and exceptions from `T`'s constructor are not modelled.
- Lifetime of the borrowed value, and a null `outsider` pointer: `View.Borrowing` takes a live `Storage` object.
- RepeatIterator.Iterator.Deref: `*it` at position N (`end()`) reads the slot in the code, but the standard makes it undefined, so `Deref` requires curr < N. `Iterator.At` has no such bound.
- RepeatIterator.Iterator.Store: for the same reason, `*it = x` requires curr < N.
- `*(location + n)` for n ≠ 0 is undefined pointer arithmetic: `Iterator.AtOffset` requires n == 0.
- Writing through `it[n]` on an `iterator`: it reaches the same slot as `Iterator.Store` and is not modelled separately.
- Unsigned wrap-around of the `std::size_t` position: all movement keeps `curr` in [0, N] by precondition, as the standard requires of a valid range.
- Differences are mathematical integers, not `ptrdiff_t` values converted from `size_t` subtraction.
- RepeatViews.View.MaxSize: `PtrdiffMax` is a constant whose value is unspecified, because it depends on the target.
- Concurrency: the headers have no synchronisation, and data races on the shared slot are not modelled.
