/**
  The two list operations the application builds everything from: `Array.prototype.filter`
  and the add-or-remove toggle of a checkbox group. `Filter` is characterised by
  `IsSelection`, an independent description of an order-preserving selection by position.
*/
module Sequences {

  // ---------------------------------------------------------------------------
  // Filter and selections
  // ---------------------------------------------------------------------------

  /** `s.filter(keep)`: the elements of `s` that `keep` accepts, in their original order. */
  function Filter<T>(s: seq<T>, keep: T -> bool): seq<T> {
    if s == [] then []
    else Filter(s[..|s| - 1], keep) + (if keep(s[|s| - 1]) then [s[|s| - 1]] else [])
  }

  /** The positions of `s` whose elements `keep` accepts, in increasing order. */
  ghost function Positions<T>(s: seq<T>, keep: T -> bool): seq<nat> {
    if s == [] then []
    else Positions(s[..|s| - 1], keep) + (if keep(s[|s| - 1]) then [|s| - 1] else [])
  }

  /**
    `r` is `s[idx[0]], s[idx[1]], ...` for strictly increasing positions `idx`, and those
    positions are exactly the ones whose element `keep` accepts.
  */
  ghost predicate SelectedAt<T>(r: seq<T>, s: seq<T>, keep: T -> bool, idx: seq<nat>) {
    && |idx| == |r|
    && (forall k :: 0 <= k < |idx| ==> idx[k] < |s| && r[k] == s[idx[k]])
    && (forall k, l :: 0 <= k < l < |idx| ==> idx[k] < idx[l])
    && (forall i :: 0 <= i < |s| ==> (keep(s[i]) <==> i in idx))
  }

  /** `r` is the order-preserving subsequence of `s` made of exactly the elements `keep` accepts. */
  ghost predicate IsSelection<T>(r: seq<T>, s: seq<T>, keep: T -> bool) {
    exists idx :: SelectedAt(r, s, keep, idx)
  }

  lemma {:induction false} FilterSelects<T>(s: seq<T>, keep: T -> bool)
    ensures SelectedAt(Filter(s, keep), s, keep, Positions(s, keep))
  {
    if s != [] {
      var s' := s[..|s| - 1];
      FilterSelects(s', keep);
      var idx' := Positions(s', keep);
      var idx := Positions(s, keep);
      forall i | 0 <= i < |s| ensures keep(s[i]) <==> i in idx {
        if i < |s'| {
          assert s[i] == s'[i];
        } else {
          assert forall k :: 0 <= k < |idx'| ==> idx'[k] != i;
        }
      }
    }
  }

  /** `Filter` selects, in order, exactly the accepted elements. */
  lemma FilterIsSelection<T>(s: seq<T>, keep: T -> bool)
    ensures IsSelection(Filter(s, keep), s, keep)
  {
    FilterSelects(s, keep);
  }

  /** Two strictly increasing position lists holding the same positions are equal. */
  lemma {:induction false} IncreasingUnique(a: seq<nat>, b: seq<nat>)
    requires forall k, l :: 0 <= k < l < |a| ==> a[k] < a[l]
    requires forall k, l :: 0 <= k < l < |b| ==> b[k] < b[l]
    requires forall i :: i in a <==> i in b
    ensures a == b
    decreases |a| + |b|
  {
    assert forall k :: 0 <= k < |a| ==> a[k] in b;
    assert forall k :: 0 <= k < |b| ==> b[k] in a;
    if a != [] && b != [] {
      assert a[0] == b[0] by {
        assert b[0] in a && a[0] in b;
      }
      forall i ensures i in a[1..] <==> i in b[1..] {
        if i in a[1..] { assert i in a && i != a[0]; }
        if i in b[1..] { assert i in b && i != b[0]; }
      }
      IncreasingUnique(a[1..], b[1..]);
      assert a == [a[0]] + a[1..] && b == [b[0]] + b[1..];
    }
  }

  /** Two selections from the same list by the same test sit at the same positions. */
  lemma SamePositions<T>(r1: seq<T>, r2: seq<T>, s: seq<T>, keep: T -> bool, idx1: seq<nat>, idx2: seq<nat>)
    requires SelectedAt(r1, s, keep, idx1) && SelectedAt(r2, s, keep, idx2)
    ensures forall i :: i in idx1 <==> i in idx2
  {
    forall i ensures i in idx1 <==> i in idx2 {
      if i in idx1 {
        var k :| 0 <= k < |idx1| && idx1[k] == i;
        assert i < |s| && keep(s[i]);
      }
      if i in idx2 {
        var k :| 0 <= k < |idx2| && idx2[k] == i;
        assert i < |s| && keep(s[i]);
      }
    }
  }

  /** A selection is unique: `IsSelection` pins down the whole result, order included. */
  lemma SelectionUnique<T>(r1: seq<T>, r2: seq<T>, s: seq<T>, keep: T -> bool)
    requires IsSelection(r1, s, keep) && IsSelection(r2, s, keep)
    ensures r1 == r2
  {
    var idx1 :| SelectedAt(r1, s, keep, idx1);
    var idx2 :| SelectedAt(r2, s, keep, idx2);
    SamePositions(r1, r2, s, keep, idx1, idx2);
    IncreasingUnique(idx1, idx2);
    assert |r1| == |r2|;
    forall k | 0 <= k < |r1| ensures r1[k] == r2[k] {
      assert r1[k] == s[idx1[k]];
    }
  }

  /** A selection holds exactly the accepted elements of the source. */
  lemma SelectionMembership<T>(r: seq<T>, s: seq<T>, keep: T -> bool, x: T)
    requires IsSelection(r, s, keep)
    ensures x in r <==> x in s && keep(x)
  {
    var idx :| SelectedAt(r, s, keep, idx);
    if x in r {
      var k :| 0 <= k < |r| && r[k] == x;
      assert s[idx[k]] == x && idx[k] in idx;
    }
    if x in s && keep(x) {
      var i :| 0 <= i < |s| && s[i] == x;
      var k :| 0 <= k < |idx| && idx[k] == i;
      assert r[k] == x;
    }
  }

  lemma FilterMembership<T>(s: seq<T>, keep: T -> bool, x: T)
    ensures x in Filter(s, keep) <==> x in s && keep(x)
  {
    FilterIsSelection(s, keep);
    SelectionMembership(Filter(s, keep), s, keep, x);
  }

  lemma {:induction false} FilterConcat<T>(a: seq<T>, b: seq<T>, keep: T -> bool)
    ensures Filter(a + b, keep) == Filter(a, keep) + Filter(b, keep)
    decreases |b|
  {
    if b == [] {
      assert a + b == a;
    } else {
      var b' := b[..|b| - 1];
      assert (a + b)[..|a + b| - 1] == a + b';
      FilterConcat(a, b', keep);
    }
  }

  /** Filtering keeps a list whose every element is accepted. */
  lemma {:induction false} FilterKeepsAll<T>(s: seq<T>, keep: T -> bool)
    requires forall i :: 0 <= i < |s| ==> keep(s[i])
    ensures Filter(s, keep) == s
  {
    if s != [] {
      FilterKeepsAll(s[..|s| - 1], keep);
    }
  }

  /** Two tests that agree on every element of `s` select the same list. */
  lemma {:induction false} FilterCongruent<T>(s: seq<T>, p: T -> bool, q: T -> bool)
    requires forall i :: 0 <= i < |s| ==> p(s[i]) == q(s[i])
    ensures Filter(s, p) == Filter(s, q)
  {
    if s != [] {
      FilterCongruent(s[..|s| - 1], p, q);
    }
  }

  /** Filtering by `first` and then by `next` is filtering once by their conjunction. */
  lemma {:induction false} FilterThen<T>(s: seq<T>, first: T -> bool, next: T -> bool, both: T -> bool)
    requires forall i :: 0 <= i < |s| ==> (both(s[i]) <==> first(s[i]) && next(s[i]))
    ensures Filter(Filter(s, first), next) == Filter(s, both)
  {
    if s != [] {
      var s', x := s[..|s| - 1], s[|s| - 1];
      FilterThen(s', first, next, both);
      var tail := if first(x) then [x] else [];
      FilterConcat(Filter(s', first), tail, next);
      if first(x) {
        assert Filter(tail, next) == Filter([], next) + (if next(x) then [x] else []) by {
          assert tail[..0] == [];
        }
      }
    }
  }

  /** Applying the same filter twice is the same as applying it once. */
  lemma FilterIdempotent<T>(s: seq<T>, keep: T -> bool)
    ensures Filter(Filter(s, keep), keep) == Filter(s, keep)
  {
    FilterThen(s, keep, keep, keep);
  }

  // ---------------------------------------------------------------------------
  // Checkbox toggles (the options are strings)
  // ---------------------------------------------------------------------------

  predicate NoDuplicates<T(==)>(s: seq<T>) {
    forall i, j :: 0 <= i < j < |s| ==> s[i] != s[j]
  }

  /** The test `y => y !== x`. */
  function Other<T(==)>(x: T): T -> bool {
    y => y != x
  }

  /** A selection from a list without duplicates has no duplicates. */
  lemma SelectionNoDuplicates<T>(r: seq<T>, s: seq<T>, keep: T -> bool)
    requires IsSelection(r, s, keep) && NoDuplicates(s)
    ensures NoDuplicates(r)
  {
    var idx :| SelectedAt(r, s, keep, idx);
    forall i, j | 0 <= i < j < |r| ensures r[i] != r[j] {
      assert idx[i] < idx[j];
    }
  }

  /** Removing every `x` sets its count to zero and keeps every other count. */
  lemma {:induction false} FilterOtherMultiset<T>(s: seq<T>, x: T)
    ensures multiset(Filter(s, Other(x))) == multiset(s)[x := 0]
  {
    if s != [] {
      var s', y := s[..|s| - 1], s[|s| - 1];
      FilterOtherMultiset(s', x);
      assert s == s' + [y];
    }
  }

  /**
    `list.includes(x) ? list.filter(y => y !== x) : [...list, x]`: a present option is
    removed (every copy of it), an absent one is appended at the end.
  */
  function Toggle(list: seq<string>, x: string): (r: seq<string>)
    ensures x in r <==> x !in list
    ensures forall y :: y != x ==> (y in r <==> y in list)
    ensures NoDuplicates(list) ==> NoDuplicates(r)
  {
    if x in list then
      FilterIsSelection(list, Other(x));
      assert forall y :: y in Filter(list, Other(x)) <==> y in list && y != x by {
        forall y ensures y in Filter(list, Other(x)) <==> y in list && y != x {
          FilterMembership(list, Other(x), y);
        }
      }
      if NoDuplicates(list) then
        SelectionNoDuplicates(Filter(list, Other(x)), list, Other(x));
        Filter(list, Other(x))
      else
        Filter(list, Other(x))
    else
      list + [x]
  }

  /** Toggling an absent option twice gives back the very same list. */
  lemma ToggleTwiceAbsent(list: seq<string>, x: string)
    requires x !in list
    ensures Toggle(Toggle(list, x), x) == list
  {
    var once := list + [x];
    assert once[..|once| - 1] == list;
    FilterKeepsAll(list, Other(x));
  }

  /**
    Toggling a present option twice keeps the same options (as a multiset) but moves
    that option to the end, so the list comes back reordered unless it was already last.
  */
  lemma ToggleTwicePresent(list: seq<string>, x: string)
    requires NoDuplicates(list) && x in list
    ensures multiset(Toggle(Toggle(list, x), x)) == multiset(list)
    ensures Toggle(Toggle(list, x), x) == Filter(list, Other(x)) + [x]
  {
    var once := Filter(list, Other(x));
    assert Toggle(list, x) == once;
    assert x !in once;
    FilterOtherMultiset(list, x);
    NoDuplicatesCount(list, x);
    assert multiset(once + [x]) == multiset(once) + multiset{x};
  }

  /** In a list without duplicates a present element occurs exactly once. */
  lemma {:induction false} NoDuplicatesCount<T>(list: seq<T>, x: T)
    requires NoDuplicates(list) && x in list
    ensures multiset(list)[x] == 1
  {
    var rest, y := list[..|list| - 1], list[|list| - 1];
    assert list == rest + [y];
    assert NoDuplicates(rest);
    if y == x {
      assert x !in rest by {
        forall i | 0 <= i < |rest| ensures rest[i] != x {
          assert list[i] != list[|list| - 1];
        }
      }
    } else {
      NoDuplicatesCount(rest, x);
    }
  }

  /** For two different options the round trip really does reorder: [a, b] comes back as [b, a]. */
  lemma ToggleTwiceReorders(a: string, b: string)
    requires a != b
    ensures Toggle(Toggle([a, b], a), a) == [b, a]
  {
    assert [a, b][..1] == [a];
    assert Filter([a], Other(a)) == [] by { assert [a][..0] == []; }
  }
}
