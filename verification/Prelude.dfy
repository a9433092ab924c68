/** Optional values, success/failure results and the list operations `filter` and
    `map`, used by every other module. */
module Prelude {

  datatype Option<+T> = None | Some(value: T)

  datatype Result<+T, +E> = Success(value: T) | Failure(error: E)

  function Filter<T(!new)>(s: seq<T>, p: T -> bool): (r: seq<T>)
    ensures forall x :: x in r <==> x in s && p(x)
  {
    if s == [] then []
    else if p(s[0]) then [s[0]] + Filter(s[1..], p)
    else Filter(s[1..], p)
  }

  lemma {:induction false} FilterNone<T(!new)>(s: seq<T>, p: T -> bool)
    requires forall x :: x in s ==> !p(x)
    ensures Filter(s, p) == []
  {
    if s != [] {
      FilterNone(s[1..], p);
    }
  }

  lemma {:induction false} FilterAll<T(!new)>(s: seq<T>, p: T -> bool)
    requires forall x :: x in s ==> p(x)
    ensures Filter(s, p) == s
  {
    if s != [] {
      FilterAll(s[1..], p);
    }
  }

  lemma {:induction false} FilterAppend<T(!new)>(a: seq<T>, b: seq<T>, p: T -> bool)
    ensures Filter(a + b, p) == Filter(a, p) + Filter(b, p)
  {
    if a == [] {
      assert a + b == b;
    } else {
      assert (a + b)[1..] == a[1..] + b;
      FilterAppend(a[1..], b, p);
    }
  }

  /** A filter that drops both ends and keeps the middle. */
  lemma FilterBetween<T(!new)>(a: seq<T>, b: seq<T>, c: seq<T>, p: T -> bool)
    requires Filter(a, p) == [] && Filter(b, p) == b && Filter(c, p) == []
    ensures Filter(a + b + c, p) == b
  {
    FilterAppend(a + b, c, p);
    FilterAppend(a, b, p);
  }

  function Map<T(!new), U>(s: seq<T>, f: T -> U): (r: seq<U>)
    ensures |r| == |s|
    ensures forall i :: 0 <= i < |s| ==> r[i] == f(s[i])
    ensures forall x :: x in s ==> f(x) in r
  {
    seq(|s|, i requires 0 <= i < |s| => f(s[i]))
  }

  /** Everything in a mapped list comes from the list. */
  lemma MapSource<T(!new), U>(s: seq<T>, f: T -> U, y: U) returns (x: T)
    requires y in Map(s, f)
    ensures x in s && f(x) == y
  {
    var i :| 0 <= i < |s| && Map(s, f)[i] == y;
    x := s[i];
  }

  /** All the lists, one after the other. */
  function Flatten<T>(lists: seq<seq<T>>): seq<T> {
    if lists == [] then [] else Flatten(lists[..|lists| - 1]) + lists[|lists| - 1]
  }

  lemma FlattenNext<T>(lists: seq<seq<T>>, k: nat)
    requires k < |lists|
    ensures Flatten(lists[..k + 1]) == Flatten(lists[..k]) + lists[k]
    ensures Flatten(lists[..|lists|]) == Flatten(lists)
  {
    assert lists[..k + 1][..k] == lists[..k];
    assert lists[..|lists|] == lists;
  }

  lemma {:induction false} FlattenMembers<T>(lists: seq<seq<T>>, x: T)
    ensures x in Flatten(lists) <==> exists i :: 0 <= i < |lists| && x in lists[i]
  {
    if lists != [] {
      var rest := lists[..|lists| - 1];
      FlattenMembers(rest, x);
      if i :| 0 <= i < |lists| && x in lists[i] {
        assert i < |rest| ==> rest[i] == lists[i];
      }
    }
  }

  ghost function ListsWith<T>(lists: seq<seq<T>>, x: T): set<nat> {
    set i: nat | i < |lists| && x in lists[i]
  }

  lemma ListsWithOneMore<T>(rest: seq<seq<T>>, last: seq<T>, x: T)
    ensures |ListsWith(rest + [last], x)| == |ListsWith(rest, x)| + if x in last then 1 else 0
  {
    assert ListsWith(rest + [last], x) == ListsWith(rest, x) + if x in last then {|rest|} else {};
  }

  /** If no list repeats x, x occurs once for every list that has it. */
  lemma {:induction false} FlattenCounts<T>(lists: seq<seq<T>>, x: T)
    requires forall i :: 0 <= i < |lists| ==> multiset(lists[i])[x] <= 1
    ensures multiset(Flatten(lists))[x] == |ListsWith(lists, x)|
  {
    if lists != [] {
      var rest, k := lists[..|lists| - 1], |lists| - 1;
      FlattenCounts(rest, x);
      assert multiset(Flatten(lists)) == multiset(Flatten(rest)) + multiset(lists[k]);
      ListsWithOneMore(rest, lists[k], x);
      assert lists == rest + [lists[k]];
    }
  }

  lemma {:induction false} FilterCounts<T(!new)>(xs: seq<T>, p: T -> bool, x: T)
    ensures multiset(Filter(xs, p))[x] == if p(x) then multiset(xs)[x] else 0
  {
    if xs != [] {
      assert xs == [xs[0]] + xs[1..];
      FilterCounts(xs[1..], p, x);
    }
  }

  /** A strict subset is strictly smaller, so comparing sizes compares the sets. */
  lemma SubsetSize<T>(a: set<T>, b: set<T>)
    requires a <= b
    ensures |a| <= |b|
    ensures |a| == |b| <==> a == b
  {
    assert b == a + (b - a);
  }

  /** A number above every member, hence a fresh identifier. */
  lemma Above(ids: set<nat>) returns (above: nat)
    ensures forall id :: id in ids ==> id < above
  {
    above := 0;
    if first :| first in ids {
      var rest := Above(ids - {first});
      above := if first < rest then rest else first + 1;
      assert forall id :: id in ids ==> id == first || id in ids - {first};
    }
  }
}
