/**
 * A list of departures kept in ascending order of estimated time of arrival.
 * Every insertion and removal is followed by a stable re-sort (`sort_by` on
 * `eta().timestamp()`).
 *
 * The ETA key is a function given to the board. The board owns its departures
 * and never changes them, so each departure's key stays the same while it is
 * on the board.
 */
module DepartureBoards {
  import opened Departures

  /** Keys never decrease from left to right. */
  predicate SortedBy<T>(s: seq<T>, key: T -> int) {
    forall i, j :: 0 <= i < j < |s| ==> key(s[i]) <= key(s[j])
  }

  /** Put `x` after every leading element whose key is at most its own. */
  function InsertByKey<T>(s: seq<T>, x: T, key: T -> int): (r: seq<T>)
    ensures |r| == |s| + 1
  {
    if s == [] then [x]
    else if key(x) < key(s[0]) then [x] + s
    else [s[0]] + InsertByKey(s[1..], x, key)
  }

  /** A stable sort by `key`: each element in turn is inserted after the equal keys already placed. */
  function SortByKey<T>(s: seq<T>, key: T -> int): (r: seq<T>)
    ensures |r| == |s|
  {
    if s == [] then []
    else InsertByKey(SortByKey(s[..|s| - 1], key), s[|s| - 1], key)
  }

  /** The elements whose key is `k`, in their order in `s`. */
  function WithKey<T>(s: seq<T>, key: T -> int, k: int): seq<T> {
    if s == [] then []
    else (if key(s[0]) == k then [s[0]] else []) + WithKey(s[1..], key, k)
  }

  lemma {:induction false} InsertKeepsSorted<T>(s: seq<T>, x: T, key: T -> int)
    requires SortedBy(s, key)
    ensures SortedBy(InsertByKey(s, x, key), key)
  {
    if s != [] && key(x) >= key(s[0]) {
      InsertKeepsSorted(s[1..], x, key);
      InsertKeepsLowerBound(s[1..], x, key, key(s[0]));
      var r := InsertByKey(s, x, key);
      forall i, j | 0 <= i < j < |r| ensures key(r[i]) <= key(r[j]) {
        assert r[j] == InsertByKey(s[1..], x, key)[j - 1];
        if i > 0 {
          assert r[i] == InsertByKey(s[1..], x, key)[i - 1];
        }
      }
    }
  }

  /** A lower bound on the keys of a list and of `x` is one on the keys after insertion. */
  lemma {:induction false} InsertKeepsLowerBound<T>(s: seq<T>, x: T, key: T -> int, bound: int)
    requires forall i :: 0 <= i < |s| ==> bound <= key(s[i])
    requires bound <= key(x)
    ensures forall i :: 0 <= i < |s| + 1 ==> bound <= key(InsertByKey(s, x, key)[i])
  {
    if s != [] && key(x) >= key(s[0]) {
      InsertKeepsLowerBound(s[1..], x, key, bound);
      var r := InsertByKey(s, x, key);
      forall i | 0 < i < |s| + 1 ensures bound <= key(r[i]) {
        assert r[i] == InsertByKey(s[1..], x, key)[i - 1];
      }
    }
  }

  lemma {:induction false} InsertElements<T>(s: seq<T>, x: T, key: T -> int)
    ensures multiset(InsertByKey(s, x, key)) == multiset(s) + multiset{x}
    ensures forall y :: y in InsertByKey(s, x, key) <==> y == x || y in s
  {
    if s != [] && key(x) >= key(s[0]) {
      InsertElements(s[1..], x, key);
      assert s == [s[0]] + s[1..];
    }
  }

  /** Appending an element whose key is at least every other key is the same as inserting it. */
  lemma {:induction false} InsertAfterAll<T>(s: seq<T>, x: T, key: T -> int)
    requires forall i :: 0 <= i < |s| ==> key(s[i]) <= key(x)
    ensures InsertByKey(s, x, key) == s + [x]
  {
    if s != [] {
      InsertAfterAll(s[1..], x, key);
      assert s == [s[0]] + s[1..];
    }
  }

  /** The result of sorting is in ascending key order. */
  lemma {:induction false} SortIsSorted<T>(s: seq<T>, key: T -> int)
    ensures SortedBy(SortByKey(s, key), key)
  {
    if s != [] {
      SortIsSorted(s[..|s| - 1], key);
      InsertKeepsSorted(SortByKey(s[..|s| - 1], key), s[|s| - 1], key);
    }
  }

  /** Sorting only permutes: the multiset of elements is unchanged. */
  lemma {:induction false} SortIsPermutation<T>(s: seq<T>, key: T -> int)
    ensures multiset(SortByKey(s, key)) == multiset(s)
  {
    if s != [] {
      var n := |s| - 1;
      SortIsPermutation(s[..n], key);
      InsertElements(SortByKey(s[..n], key), s[n], key);
      assert s == s[..n] + [s[n]];
    }
  }

  /** Sorting a list that is already in order changes nothing. */
  lemma {:induction false} SortOfSorted<T>(s: seq<T>, key: T -> int)
    requires SortedBy(s, key)
    ensures SortByKey(s, key) == s
  {
    if s != [] {
      var n := |s| - 1;
      assert SortedBy(s[..n], key);
      SortOfSorted(s[..n], key);
      InsertAfterAll(s[..n], s[n], key);
      assert s == s[..n] + [s[n]];
    }
  }

  lemma {:induction false} WithKeyAppend<T>(a: seq<T>, b: seq<T>, key: T -> int, k: int)
    ensures WithKey(a + b, key, k) == WithKey(a, key, k) + WithKey(b, key, k)
  {
    if a == [] {
      assert a + b == b;
    } else {
      var head: seq<T> := if key(a[0]) == k then [a[0]] else [];
      assert a == [a[0]] + a[1..];
      assert a + b == [a[0]] + (a[1..] + b);
      WithKeyCons(a[0], a[1..] + b, key, k);
      WithKeyCons(a[0], a[1..], key, k);
      WithKeyAppend(a[1..], b, key, k);
      assert head + (WithKey(a[1..], key, k) + WithKey(b, key, k)) == (head + WithKey(a[1..], key, k)) + WithKey(b, key, k);
    }
  }

  lemma {:induction false} WithKeyNone<T>(s: seq<T>, key: T -> int, k: int)
    requires forall i :: 0 <= i < |s| ==> key(s[i]) != k
    ensures WithKey(s, key, k) == []
  {
    if s != [] {
      WithKeyNone(s[1..], key, k);
    }
  }

  lemma WithKeyCons<T>(y: T, rest: seq<T>, key: T -> int, k: int)
    ensures WithKey([y] + rest, key, k) == (if key(y) == k then [y] else []) + WithKey(rest, key, k)
  {
    assert ([y] + rest)[0] == y && ([y] + rest)[1..] == rest;
  }

  /** A key below the first key of a sorted list occurs nowhere in it. */
  lemma WithKeyBelowFirst<T>(s: seq<T>, key: T -> int, k: int)
    requires s != [] && SortedBy(s, key) && k < key(s[0])
    ensures WithKey(s, key, k) == []
  {
    forall i | 0 <= i < |s| ensures key(s[i]) != k {
      if i > 0 {
        assert key(s[0]) <= key(s[i]);
      }
    }
    WithKeyNone(s, key, k);
  }

  lemma SortedTail<T>(s: seq<T>, key: T -> int)
    requires s != [] && SortedBy(s, key)
    ensures SortedBy(s[1..], key)
  {
    forall i, j | 0 <= i < j < |s| - 1 ensures key(s[1..][i]) <= key(s[1..][j]) {
      assert s[1..][i] == s[i + 1] && s[1..][j] == s[j + 1];
    }
  }

  /** Inserting into a sorted list puts the new element after every element with the same key. */
  lemma {:induction false} WithKeyInsert<T>(s: seq<T>, x: T, key: T -> int, k: int)
    requires SortedBy(s, key)
    ensures WithKey(InsertByKey(s, x, key), key, k) == WithKey(s, key, k) + (if key(x) == k then [x] else [])
  {
    var mine: seq<T> := if key(x) == k then [x] else [];
    if s == [] {
      WithKeyCons(x, [], key, k);
      assert [x] + [] == [x];
    } else if key(x) < key(s[0]) {
      WithKeyCons(x, s, key, k);
      if key(x) == k {
        WithKeyBelowFirst(s, key, k);
      }
    } else {
      var tail := s[1..];
      SortedTail(s, key);
      WithKeyInsert(tail, x, key, k);
      assert s == [s[0]] + tail;
      WithKeyCons(s[0], tail, key, k);
      WithKeyCons(s[0], InsertByKey(tail, x, key), key, k);
      var head: seq<T> := if key(s[0]) == k then [s[0]] else [];
      assert WithKey(InsertByKey(s, x, key), key, k) == head + (WithKey(tail, key, k) + mine);
      assert head + (WithKey(tail, key, k) + mine) == (head + WithKey(tail, key, k)) + mine;
    }
  }

  /** The sort is stable: for every key, the elements with that key keep their relative order. */
  lemma {:induction false} SortIsStable<T>(s: seq<T>, key: T -> int, k: int)
    ensures WithKey(SortByKey(s, key), key, k) == WithKey(s, key, k)
  {
    if s != [] {
      var n := |s| - 1;
      SortIsStable(s[..n], key, k);
      SortIsSorted(s[..n], key);
      WithKeyInsert(SortByKey(s[..n], key), s[n], key, k);
      assert s == s[..n] + [s[n]];
      WithKeyAppend(s[..n], [s[n]], key, k);
      assert [s[n]][1..] == [];
    }
  }

  /** Removing one element from a sorted list leaves it sorted. */
  lemma RemoveKeepsSorted<T>(s: seq<T>, index: nat, key: T -> int)
    requires index < |s| && SortedBy(s, key)
    ensures SortedBy(s[..index] + s[index + 1..], key)
  {
    var r := s[..index] + s[index + 1..];
    forall i, j | 0 <= i < j < |r| ensures key(r[i]) <= key(r[j]) {
      var i' := if i < index then i else i + 1;
      var j' := if j < index then j else j + 1;
      assert r[i] == s[i'] && r[j] == s[j'];
    }
  }

  /** Removing the element at `index` takes one copy of it out of the multiset. */
  lemma RemoveElements<T>(s: seq<T>, index: nat)
    requires index < |s|
    ensures multiset(s[..index] + s[index + 1..]) == multiset(s) - multiset{s[index]}
  {
    assert s == s[..index] + [s[index]] + s[index + 1..];
  }

  class DepartureBoard {
    /** The ETA timestamp of a departure. */
    const eta: Departure -> int
    var departures: seq<Departure>

    /** The board is always in ascending ETA order. */
    ghost predicate Valid()
      reads this
    {
      SortedBy(departures, eta)
    }

    /** `DepartureBoard::new`: an empty board. */
    constructor (eta: Departure -> int)
      ensures Valid()
      ensures this.eta == eta && departures == []
    {
      this.eta := eta;
      departures := [];
    }

    /** `sort_by_eta`: a stable sort by ETA timestamp. */
    method SortByEta()
      modifies this
      ensures departures == SortByKey(old(departures), eta)
      ensures Valid()
      ensures multiset(departures) == multiset(old(departures))
      ensures forall k :: WithKey(departures, eta, k) == WithKey(old(departures), eta, k)
    {
      SortIsSorted(departures, eta);
      SortIsPermutation(departures, eta);
      forall k ensures WithKey(SortByKey(departures, eta), eta, k) == WithKey(departures, eta, k) {
        SortIsStable(departures, eta, k);
      }
      departures := SortByKey(departures, eta);
    }

    /**
     * `add_departure`: push, then re-sort. On a sorted board the new departure
     * lands after every departure whose ETA is not later than its own.
     */
    method AddDeparture(departure: Departure)
      modifies this
      ensures departures == SortByKey(old(departures) + [departure], eta)
      ensures Valid()
      ensures |departures| == |old(departures)| + 1 && departure in departures
      ensures multiset(departures) == multiset(old(departures)) + multiset{departure}
      ensures old(Valid()) ==> departures == InsertByKey(old(departures), departure, eta)
    {
      ghost var before := departures;
      departures := departures + [departure];
      SortByEta();
      assert before + [departure] == (before + [departure])[..|before|] + [departure];
      assert (before + [departure])[..|before|] == before;
      if SortedBy(before, eta) {
        SortOfSorted(before, eta);
      }
      assert departure in multiset(departures);
    }

    /**
     * `remove_departure`: remove the departure at `index` (which must exist:
     * `Vec::remove` panics otherwise), then re-sort. On a sorted board the
     * others keep their order.
     */
    method RemoveDeparture(index: nat)
      requires index < |departures|
      modifies this
      ensures departures == SortByKey(old(departures[..index] + departures[index + 1..]), eta)
      ensures Valid()
      ensures |departures| == |old(departures)| - 1
      ensures multiset(departures) == multiset(old(departures)) - multiset{old(departures[index])}
      ensures old(Valid()) ==> departures == old(departures[..index] + departures[index + 1..])
    {
      RemoveElements(departures, index);
      if Valid() {
        RemoveKeepsSorted(departures, index, eta);
        SortOfSorted(departures[..index] + departures[index + 1..], eta);
      }
      departures := departures[..index] + departures[index + 1..];
      SortByEta();
    }
  }
}
