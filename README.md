# AtLeastTwo: a bounded collection, modelled in Dafny

The library wraps an owned vector in the type `AtLeastTwo<T>`, whose promise is
that the vector holds at least two elements. A wrapper is built only by
`new_and(a, b, v)` or by `new(a, b)`. `new_and` inserts `a` at index 0 and `b` at
index 1 of the caller's vector `v`. `new` does the same with an empty vector.
Two iterators read the contents in order: `iter` borrows the wrapper and
`into_iter` consumes it.

The model is the module `AtCollection` in `at_collection.dfy`:

- `AtLeastTwo` is a datatype holding `raw: seq<T>`. Nothing changes a wrapper
  after construction, so it is a value rather than a class. Its invariant is the
  predicate `Valid()`, which says `|raw| >= 2`.
- `Insert` is the standard library's `Vec::insert`. Its precondition `i <= |s|`
  is the condition under which `Vec::insert` does not panic.
- `NewAnd` is a method that updates a local sequence with the two inserts, one
  after the other, and then wraps it. `New` calls it with the empty sequence.
- An iterator is a `Cursor`, which holds the elements not yet yielded. `Next`
  is `Iterator::next`. It returns the yielded item together with the advanced
  cursor, which stands in for the `&mut self` update. `Collect` drains a cursor.
- The two unit tests become the methods `TestIter` and `TestIntoIter`.

## Model

| member | source | states |
|---|---|---|
| AtCollection.Insert | src/lib.rs:11-12 | `Vec::insert(i, x)` needs `i <= len`, puts `x` at `i`, keeps the elements before `i`, shifts the rest up by one, and adds exactly `x` to the multiset of elements |
| AtCollection.NewAnd | src/lib.rs:10-16 | neither insert can panic; the result is `[a, b] + v`, so `raw[0] == a`, `raw[1] == b`, `raw[i+2] == v[i]`, its length is the length of `v` plus 2 and the at-least-two invariant holds for every `v`, including the empty one |
| AtCollection.New | src/lib.rs:6-8 | `new(a, b)` is `new_and(a, b, [])`: `raw == [a, b]`, length exactly 2, invariant holds |
| AtCollection.Next | src/lib.rs:18-24 | `next` yields nothing exactly when no element remains, and then stays put; otherwise it yields the first remaining element and the cursor advances past exactly that element |
| AtCollection.CollectYieldsRemaining | src/lib.rs:18-24 | calling `next` until it yields nothing produces every remaining element exactly once, in order |
| AtCollection.Iter | src/lib.rs:18-20 | `iter` yields the elements of `raw` in order |
| AtCollection.IntoIter | src/lib.rs:22-24 | `into_iter` yields the same sequence as `iter`, which is `raw` in order |
| AtCollection.FirstTwoYield | src/lib.rs:1-3 | on a wrapper with the at-least-two invariant, the first two calls of `next` on either iterator always yield an item, namely `raw[0]` and then `raw[1]` |
| AtCollection.TestIter | src/lib.rs:34-40 | `new(1, 2).iter()` yields `1` and then `2` |
| AtCollection.TestIntoIter | src/lib.rs:43-49 | `new(1, 2).into_iter()` yields `1` and then `2` |

## Left out

- Iterator laziness, borrowing and lifetimes are not modelled. Each iterator is a cursor over the elements it will yield.
- The rule that a wrapper cannot be used after `into_iter` consumes it is not modelled. Dafny has no move semantics.
- Because `Iter` takes a value, "iter leaves `raw` unchanged" holds trivially in the model and is not a separate statement.
- Memory allocation and vector capacity growth are not modelled. Only the logical contents of the vector matter.
- The `Vec::insert` panic is modelled as the precondition of `Insert`, not as an error result. The only callers are in `NewAnd`, and the model proves both calls are in bounds.
- The at-least-one, three and four variants, the at-most variants, the fallible length-checked conversion, the `one()` narrowing accessor and the literal-construction macros are not defined in `src/lib.rs`, so the model does not include them.
- The test harness is not modelled. Its two tests are stated as the methods `TestIter` and `TestIntoIter`.
