/** A JavaScript `Set`: a collection without duplicates that remembers
    insertion order, so that `Array.from(set)` lists the elements in the
    order they were first added. It is represented by the sequence that
    `Array.from` would return. */
module OrderedSet {

  predicate NoDup<T(==)>(xs: seq<T>) {
    forall i, j :: 0 <= i < j < |xs| ==> xs[i] != xs[j]
  }

  /** `set.add(x)`: appended unless already present. */
  function Add<T(==,!new)>(xs: seq<T>, x: T): (r: seq<T>)
    requires NoDup(xs)
    ensures NoDup(r)
    ensures x in r
    ensures forall y :: y in r <==> y in xs || y == x
    ensures x in xs ==> r == xs
    ensures x !in xs ==> r == xs + [x]
  {
    if x in xs then xs else xs + [x]
  }

  /** `set.delete(x)`, and equally `xs.filter(e => e !== x)` on an array:
      every other element is kept, in order. */
  function Remove<T(==,!new)>(xs: seq<T>, x: T): (r: seq<T>)
    ensures x !in r
    ensures forall y :: y in r <==> y in xs && y != x
    ensures |r| <= |xs|
    ensures NoDup(xs) ==> NoDup(r)
    ensures x !in xs ==> r == xs
  {
    if xs == [] then []
    else if xs[0] == x then Remove(xs[1..], x)
    else
      var rest := Remove(xs[1..], x);
      assert NoDup(xs) ==> xs[0] !in xs[1..] && NoDup(xs[1..]);
      [xs[0]] + rest
  }

  /** `new Set(array)`: the first occurrence of each element is kept. */
  function FromSeq<T(==,!new)>(xs: seq<T>): (r: seq<T>)
    ensures NoDup(r)
    ensures forall y :: y in r <==> y in xs
    decreases |xs|
  {
    if xs == [] then []
    else Add(FromSeq(xs[..|xs| - 1]), xs[|xs| - 1])
  }

  /** Building a Set from an array without duplicates keeps the array as it is. */
  lemma {:induction false} FromSeqNoDup<T(!new)>(xs: seq<T>)
    requires NoDup(xs)
    ensures FromSeq(xs) == xs
  {
    if xs != [] {
      var init, last := xs[..|xs| - 1], xs[|xs| - 1];
      assert NoDup(init) by {
        forall i, j | 0 <= i < j < |init| ensures init[i] != init[j] {
          assert init[i] == xs[i] && init[j] == xs[j];
        }
      }
      FromSeqNoDup(init);
      assert last !in init by {
        forall i | 0 <= i < |init| ensures init[i] != last {
          assert init[i] == xs[i];
        }
      }
      assert init + [last] == xs;
    }
  }

  /** The selection handler of both order pickers: delete when present, add otherwise. */
  function Toggle<T(==,!new)>(xs: seq<T>, x: T): (r: seq<T>)
    requires NoDup(xs)
    ensures NoDup(r)
    ensures x in r <==> x !in xs
    ensures forall y :: y != x ==> (y in r <==> y in xs)
  {
    if x in xs then Remove(xs, x) else Add(xs, x)
  }

  /** Removing an element of a duplicate-free sequence shortens it by exactly one. */
  lemma {:induction false} RemovePresentLength<T(!new)>(xs: seq<T>, x: T)
    requires NoDup(xs) && x in xs
    ensures |Remove(xs, x)| == |xs| - 1
  {
    if xs[0] == x {
      assert x !in xs[1..];
    } else {
      assert NoDup(xs[1..]);
      RemovePresentLength(xs[1..], x);
    }
  }

  /** Toggling the same element twice gives back the same members; when the
      element was absent to start with, even the order is the same. */
  lemma ToggleTwice<T(!new)>(xs: seq<T>, x: T)
    requires NoDup(xs)
    ensures forall y :: y in Toggle(Toggle(xs, x), x) <==> y in xs
    ensures x !in xs ==> Toggle(Toggle(xs, x), x) == xs
  {
    if x !in xs {
      RemoveLast(xs, x);
    }
  }

  lemma {:induction false} RemoveLast<T(!new)>(xs: seq<T>, x: T)
    requires x !in xs
    ensures Remove(xs + [x], x) == xs
  {
    if xs == [] {
      assert Remove([x], x) == Remove([], x);
    } else {
      assert (xs + [x])[1..] == xs[1..] + [x];
      RemoveLast(xs[1..], x);
    }
  }

  /** Elements of a duplicate-free sequence, counted, equal its length. */
  lemma {:induction false} NoDupCard<T>(xs: seq<T>)
    requires NoDup(xs)
    ensures |set y | y in xs| == |xs|
  {
    if xs != [] {
      var rest := xs[1..];
      assert NoDup(rest);
      NoDupCard(rest);
      assert (set y | y in xs) == (set y | y in rest) + {xs[0]};
      assert xs[0] !in (set y | y in rest);
    }
  }
}
