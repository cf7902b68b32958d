/**
 * The dynamic-array operations the container relies on (append, add-unique,
 * remove-every-occurrence) and the enumeration of a map's keys, whose order
 * the engine leaves unspecified.
 */
module Lists {

  /** Adds an element at the end unless it is already present. */
  function AddUnique<T(==,!new)>(xs: seq<T>, x: T): (r: seq<T>)
    ensures multiset(r)[x] == if multiset(xs)[x] == 0 then 1 else multiset(xs)[x]
    ensures forall y :: y != x ==> multiset(r)[y] == multiset(xs)[y]
    ensures x in r
  {
    if x in xs then xs else xs + [x]
  }

  /** Removes every occurrence of an element, keeping the order of the rest. */
  function RemoveAll<T(==,!new)>(xs: seq<T>, x: T): (r: seq<T>)
    ensures x !in r
    ensures forall y :: y != x ==> multiset(r)[y] == multiset(xs)[y]
    ensures |r| <= |xs|
  {
    if xs == [] then []
    else
      assert xs == [xs[0]] + xs[1..];
      if xs[0] == x then RemoveAll(xs[1..], x) else [xs[0]] + RemoveAll(xs[1..], x)
  }

  /**
   * Removal works element by element and keeps the order: removing from a
   * concatenation removes from each part in place, and a single element is
   * dropped exactly when it is the one removed.
   */
  lemma {:induction false} RemoveAllKeepsOrder<T(!new)>(a: seq<T>, b: seq<T>, x: T)
    ensures RemoveAll(a + b, x) == RemoveAll(a, x) + RemoveAll(b, x)
    ensures forall y :: RemoveAll([y], x) == if y == x then [] else [y]
  {
    if a == [] {
      assert a + b == b;
    } else {
      assert (a + b)[0] == a[0];
      assert (a + b)[1..] == a[1..] + b;
      RemoveAllKeepsOrder(a[1..], b, x);
    }
    forall y ensures RemoveAll([y], x) == if y == x then [] else [y] {
      assert [y][1..] == [];
    }
  }

  /** Removing something absent leaves the sequence as it was. */
  lemma {:induction false} RemoveAbsent<T(!new)>(xs: seq<T>, x: T)
    requires x !in xs
    ensures RemoveAll(xs, x) == xs
  {
    if xs != [] {
      RemoveAbsent(xs[1..], x);
    }
  }

  /** A prefix one element longer is the prefix with that element appended. */
  lemma PrefixGrows<T>(xs: seq<T>, i: nat)
    requires i < |xs|
    ensures xs[..i + 1] == xs[..i] + [xs[i]]
  {
  }

  /** A prefix of a prefix is a prefix. */
  lemma PrefixTransitive<T>(a: seq<T>, b: seq<T>, c: seq<T>)
    requires |a| <= |b| && b[..|a|] == a
    requires |b| <= |c| && c[..|b|] == b
    ensures |a| <= |c| && c[..|a|] == a
  {
    assert c[..|a|] == c[..|b|][..|a|];
  }

  /** No element occurs twice. */
  ghost predicate Distinct<T>(xs: seq<T>)
  {
    forall i, j :: 0 <= i < j < |xs| ==> xs[i] != xs[j]
  }

  /** The sequence lists every element of the set exactly once. */
  ghost predicate Enumerates<T(!new)>(order: seq<T>, keys: set<T>)
  {
    Distinct(order) && (forall x :: x in order <==> x in keys)
  }

  /** An enumeration has as many entries as the set has elements. */
  lemma {:induction false} EnumerationLength<T(!new)>(order: seq<T>, keys: set<T>)
    requires Enumerates(order, keys)
    ensures |order| == |keys|
  {
    if order != [] {
      var rest := order[1..];
      assert Enumerates(rest, keys - {order[0]}) by {
        forall x ensures x in rest <==> x in keys - {order[0]} {
          if x in rest {
            var j :| 0 <= j < |rest| && rest[j] == x;
            assert order[j + 1] == x;
          }
          if x in keys - {order[0]} {
            var j :| 0 <= j < |order| && order[j] == x;
            assert j != 0;
            assert rest[j - 1] == x;
          }
        }
      }
      EnumerationLength(rest, keys - {order[0]});
    } else {
      assert forall x :: x !in keys;
      assert keys == {};
    }
  }

  /** Lists the elements of a set in some order; the engine's iteration order is unspecified. */
  method Enumerate<T(==,!new)>(keys: set<T>) returns (order: seq<T>)
    ensures Enumerates(order, keys)
  {
    order := [];
    var remaining := keys;
    while remaining != {}
      invariant Distinct(order)
      invariant forall x :: x in order ==> x in keys && x !in remaining
      invariant forall x :: x in keys ==> x in order || x in remaining
      invariant remaining <= keys
      decreases remaining
    {
      var k :| k in remaining;
      order := order + [k];
      remaining := remaining - {k};
    }
  }
}
