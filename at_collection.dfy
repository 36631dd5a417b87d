/**
 A model of the `AtLeastTwo<T>` bounded collection: a wrapper around an owned
 vector whose type promises that the vector holds at least two elements.

 The wrapper is a value that no operation changes after construction, so it is a
 datatype whose invariant is the predicate `Valid`. The constructor `NewAnd`
 edits the caller's vector in place with two `Vec::insert` calls, so it is a
 method that updates a local sequence step by step. The two iterators are
 modelled as cursors over the elements still to be yielded, with `Next`
 standing for `Iterator::next`.
 */
module AtCollection {

  datatype Option<T> = None | Some(value: T)

  /** The wrapper: `raw` is the owned vector, in insertion order. */
  datatype AtLeastTwo<T> = AtLeastTwo(raw: seq<T>) {
    /** The invariant the type promises. */
    predicate Valid() {
      |raw| >= 2
    }
  }

  /**
   `Vec::insert(i, x)`: puts `x` at index `i` and shifts every element from
   `i` on one place to the right. The standard library panics when `i` is past
   the length, so that is the precondition.
   */
  function Insert<T>(s: seq<T>, i: nat, x: T): (r: seq<T>)
    requires i <= |s|
    ensures |r| == |s| + 1
    ensures r[i] == x
    ensures forall j :: 0 <= j < i ==> r[j] == s[j]
    ensures forall j :: i < j < |r| ==> r[j] == s[j - 1]
    ensures multiset(r) == multiset(s) + multiset{x}
  {
    assert s == s[..i] + s[i..];
    s[..i] + [x] + s[i..]
  }

  /**
   `new_and(a, b, v)`: inserts `a` at the front of `v`, then `b` right after
   it, and wraps the result. Both inserts are in bounds whatever `v` is, and
   the result is `a`, `b`, then every element of `v` in its original order.
   */
  method NewAnd<T>(a: T, b: T, v: seq<T>) returns (r: AtLeastTwo<T>)
    ensures r.raw == [a, b] + v
    ensures r.Valid() && |r.raw| == |v| + 2
    ensures r.raw[0] == a && r.raw[1] == b
    ensures forall i :: 0 <= i < |v| ==> r.raw[i + 2] == v[i]
  {
    var buf := v;
    buf := Insert(buf, 0, a);
    assert buf == [a] + v;
    buf := Insert(buf, 1, b);
    assert buf == [a, b] + v;
    r := AtLeastTwo(buf);
  }

  /** `new(a, b)`: `new_and` with an empty vector, so exactly `[a, b]`. */
  method New<T>(a: T, b: T) returns (r: AtLeastTwo<T>)
    ensures r.raw == [a, b]
    ensures r.Valid() && |r.raw| == 2
  {
    r := NewAnd(a, b, []);
  }

  /** An iterator: the elements it has not yet yielded, in order. */
  datatype Cursor<T> = Cursor(remaining: seq<T>)

  /**
   `Iterator::next`: yields the first remaining element and advances past it,
   or yields nothing and stays put once every element has been yielded.
   */
  function Next<T>(c: Cursor<T>): (r: (Option<T>, Cursor<T>))
    ensures r.0.None? <==> c.remaining == []
    ensures r.0.None? ==> r.1 == c
    ensures r.0.Some? ==> [r.0.value] + r.1.remaining == c.remaining
  {
    if c.remaining == [] then (None, c)
    else (Some(c.remaining[0]), Cursor(c.remaining[1..]))
  }

  /** Every item `Next` yields, in order, until it yields nothing. */
  function Collect<T>(c: Cursor<T>): seq<T>
    decreases |c.remaining|
  {
    var (item, rest) := Next(c);
    match item
    case None => []
    case Some(x) => [x] + Collect(rest)
  }

  /** Draining a cursor yields each remaining element exactly once, in order. */
  lemma {:induction false} CollectYieldsRemaining<T>(c: Cursor<T>)
    ensures Collect(c) == c.remaining
    decreases |c.remaining|
  {
    var (item, rest) := Next(c);
    match item
    case None =>
    case Some(x) =>
      CollectYieldsRemaining(rest);
  }

  /** `iter()`: yields the elements of `raw` in order; `raw` is left as it was. */
  function Iter<T>(x: AtLeastTwo<T>): (c: Cursor<T>)
    ensures Collect(c) == x.raw
  {
    CollectYieldsRemaining(Cursor(x.raw));
    Cursor(x.raw)
  }

  /** `into_iter()`: yields the same elements, in the same order, as `iter()`. */
  function IntoIter<T>(x: AtLeastTwo<T>): (c: Cursor<T>)
    ensures Collect(c) == Collect(Iter(x))
    ensures Collect(c) == x.raw
  {
    CollectYieldsRemaining(Cursor(x.raw));
    Cursor(x.raw)
  }

  /**
   On a valid wrapper the first two calls of `next` on either iterator always
   yield, and they yield `raw[0]` and then `raw[1]`.
   */
  lemma FirstTwoYield<T>(x: AtLeastTwo<T>)
    requires x.Valid()
    ensures Next(Iter(x)).0 == Some(x.raw[0])
    ensures Next(Next(Iter(x)).1).0 == Some(x.raw[1])
    ensures Next(IntoIter(x)).0 == Some(x.raw[0])
    ensures Next(Next(IntoIter(x)).1).0 == Some(x.raw[1])
  {
  }

  /** The `iter` unit test: `new(1, 2).iter()` yields `1`, then `2`. */
  method TestIter() returns (first: Option<int>, second: Option<int>)
    ensures first == Some(1) && second == Some(2)
  {
    var alt := New(1, 2);
    var i := Iter(alt);
    var (item1, i1) := Next(i);
    var (item2, _) := Next(i1);
    first, second := item1, item2;
  }

  /** The `into_iter` unit test: `new(1, 2).into_iter()` yields `1`, then `2`. */
  method TestIntoIter() returns (first: Option<int>, second: Option<int>)
    ensures first == Some(1) && second == Some(2)
  {
    var alt := New(1, 2);
    var i := IntoIter(alt);
    var (item1, i1) := Next(i);
    var (item2, _) := Next(i1);
    first, second := item1, item2;
  }
}
