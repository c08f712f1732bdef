/** The per-bucket sort `arr.sort((a, b) => time(a) - time(b))`: a stable
    sort (as `Array.prototype.sort` is) of events ascending by start time. */
module StableSort {
  import opened Events

  /** `new Date(e.startTime).getTime()`. An Invalid Date has no time; such
      events never reach a bucket, and 0 stands in for them here. */
  function Key(e: EventListItem): int
  {
    match e.startTime
    case At(ms) => ms
    case InvalidDate => 0
  }

  predicate SortedByStart(s: seq<EventListItem>)
  {
    forall i, j :: 0 <= i < j < |s| ==> Key(s[i]) <= Key(s[j])
  }

  /** The events of `s` whose start time is `k`, in the order of `s`. */
  function WithKey(s: seq<EventListItem>, k: int): seq<EventListItem>
  {
    if s == [] then []
    else WithKey(s[..|s| - 1], k) + (if Key(s[|s| - 1]) == k then [s[|s| - 1]] else [])
  }

  /** Inserts `x` into `s` after every element whose key is not larger. */
  function Insert(s: seq<EventListItem>, x: EventListItem): (r: seq<EventListItem>)
    ensures |r| == |s| + 1
  {
    if s == [] || Key(s[|s| - 1]) <= Key(x) then s + [x]
    else
      var init := s[..|s| - 1];
      assert s == init + [s[|s| - 1]];
      Insert(init, x) + [s[|s| - 1]]
  }

  /** Reference stable sort by start time (insertion sort). */
  function SortByStart(s: seq<EventListItem>): (r: seq<EventListItem>)
    ensures |r| == |s|
  {
    if s == [] then []
    else
      var init := s[..|s| - 1];
      assert s == init + [s[|s| - 1]];
      Insert(SortByStart(init), s[|s| - 1])
  }

  lemma {:induction false} InsertAddsOne(s: seq<EventListItem>, x: EventListItem)
    ensures multiset(Insert(s, x)) == multiset(s) + multiset{x}
  {
    if s != [] && Key(s[|s| - 1]) > Key(x) {
      var init := s[..|s| - 1];
      assert s == init + [s[|s| - 1]];
      InsertAddsOne(init, x);
    }
  }

  /** The sort result is a permutation of its input. */
  lemma {:induction false} SortPermutes(s: seq<EventListItem>)
    ensures multiset(SortByStart(s)) == multiset(s)
  {
    if s != [] {
      var init := s[..|s| - 1];
      assert s == init + [s[|s| - 1]];
      SortPermutes(init);
      InsertAddsOne(SortByStart(init), s[|s| - 1]);
    }
  }

  lemma WithKeyAppend(s: seq<EventListItem>, x: EventListItem, k: int)
    ensures WithKey(s + [x], k) == WithKey(s, k) + (if Key(x) == k then [x] else [])
  {
    assert (s + [x])[..|s + [x]| - 1] == s;
  }

  lemma WithKeyConcat(a: seq<EventListItem>, b: seq<EventListItem>, k: int)
    ensures WithKey(a + b, k) == WithKey(a, k) + WithKey(b, k)
    decreases |b|
  {
    if b != [] {
      var init := b[..|b| - 1];
      var x := b[|b| - 1];
      assert b == init + [x];
      assert a + b == (a + init) + [x];
      WithKeyAppend(a + init, x, k);
      WithKeyConcat(a, init, k);
      WithKeyAppend(init, x, k);
    } else {
      assert a + b == a;
    }
  }

  lemma {:induction false} InsertKeepsOrder(s: seq<EventListItem>, x: EventListItem)
    requires SortedByStart(s)
    ensures SortedByStart(Insert(s, x))
  {
    if s != [] && Key(s[|s| - 1]) > Key(x) {
      var init := s[..|s| - 1];
      var last := s[|s| - 1];
      assert SortedByStart(init);
      InsertKeepsOrder(init, x);
      var r := Insert(init, x);
      assert Insert(s, x) == r + [last];
      forall i | 0 <= i < |r|
        ensures Key(r[i]) <= Key(last)
      {
        InsertAddsOne(init, x);
        assert r[i] in multiset(init) + multiset{x};
        if r[i] != x {
          var k :| 0 <= k < |init| && init[k] == r[i];
          assert s[k] == init[k];
        }
      }
      SortedSnoc(r, last);
    }
  }

  lemma SortedSnoc(r: seq<EventListItem>, y: EventListItem)
    requires SortedByStart(r)
    requires forall i :: 0 <= i < |r| ==> Key(r[i]) <= Key(y)
    ensures SortedByStart(r + [y])
  {
    forall i, j | 0 <= i < j < |r + [y]|
      ensures Key((r + [y])[i]) <= Key((r + [y])[j])
    {
      assert (r + [y])[i] == r[i];
    }
  }

  lemma {:induction false} InsertKeepsTies(s: seq<EventListItem>, x: EventListItem, k: int)
    ensures WithKey(Insert(s, x), k) == WithKey(s, k) + (if Key(x) == k then [x] else [])
  {
    if s == [] || Key(s[|s| - 1]) <= Key(x) {
      WithKeyAppend(s, x, k);
    } else {
      var init := s[..|s| - 1];
      var last := s[|s| - 1];
      assert s == init + [last];
      assert Insert(s, x) == Insert(init, x) + [last];
      InsertKeepsTies(init, x, k);
      WithKeyAppend(Insert(init, x), last, k);
      WithKeyAppend(init, last, k);
      // `x` and `last` have different keys, so at most one of them is kept.
      assert Key(x) == k ==> Key(last) != k;
    }
  }

  /** The sort result is ordered by start time. */
  lemma {:induction false} SortIsSorted(s: seq<EventListItem>)
    ensures SortedByStart(SortByStart(s))
  {
    if s != [] {
      SortIsSorted(s[..|s| - 1]);
      InsertKeepsOrder(SortByStart(s[..|s| - 1]), s[|s| - 1]);
    }
  }

  /** Stability: events with equal start times keep their input order. */
  lemma {:induction false} SortIsStable(s: seq<EventListItem>, k: int)
    ensures WithKey(SortByStart(s), k) == WithKey(s, k)
  {
    if s != [] {
      var init := s[..|s| - 1];
      SortIsStable(init, k);
      InsertKeepsTies(SortByStart(init), s[|s| - 1], k);
    }
  }

  /** Sorting an already sorted sequence changes nothing. */
  lemma {:induction false} SortOfSortedIsIdentity(s: seq<EventListItem>)
    requires SortedByStart(s)
    ensures SortByStart(s) == s
  {
    if s != [] {
      var init := s[..|s| - 1];
      var last := s[|s| - 1];
      assert SortedByStart(init);
      SortOfSortedIsIdentity(init);
      assert s == init + [last];
      if init != [] {
        assert Key(init[|init| - 1]) <= Key(last);
      }
      assert Insert(init, last) == init + [last];
    }
  }

  /** `Insert` places `x` right after the last element whose key is not
      larger than its own. */
  lemma {:induction false} InsertAtPosition(s: seq<EventListItem>, p: int, x: EventListItem)
    requires 0 <= p <= |s|
    requires p == 0 || Key(s[p - 1]) <= Key(x)
    requires forall k :: p <= k < |s| ==> Key(s[k]) > Key(x)
    ensures Insert(s, x) == s[..p] + [x] + s[p..]
  {
    if p < |s| {
      var init := s[..|s| - 1];
      var last := s[|s| - 1];
      assert Insert(s, x) == Insert(init, x) + [last] by {
        assert Key(last) > Key(x);
      }
      InsertAtPosition(init, p, x);
      assert s[..p] + [x] + s[p..] == init[..p] + [x] + init[p..] + [last] by {
        assert init[..p] == s[..p];
        assert s[p..] == init[p..] + [last] by {
          forall k | 0 <= k < |s[p..]|
            ensures s[p..][k] == (init[p..] + [last])[k]
          {
          }
        }
      }
    } else {
      assert s[..p] == s && s[p..] == [];
    }
  }

  /** The array contents left by the shifting loop of `InsertInPlace`. */
  lemma ShiftedIsInsert(fin: seq<EventListItem>, sorted: seq<EventListItem>, j: int, x: EventListItem,
                         rest: seq<EventListItem>)
    requires |fin| == |sorted| + 1 + |rest| && 0 <= j <= |sorted|
    requires forall k :: 0 <= k < j ==> fin[k] == sorted[k]
    requires fin[j] == x
    requires forall k :: j < k <= |sorted| ==> fin[k] == sorted[k - 1]
    requires forall k :: j <= k < |sorted| ==> Key(sorted[k]) > Key(x)
    requires j == 0 || Key(sorted[j - 1]) <= Key(x)
    requires forall k :: 0 <= k < |rest| ==> fin[|sorted| + 1 + k] == rest[k]
    ensures fin == Insert(sorted, x) + rest
  {
    InsertAtPosition(sorted, j, x);
    var result := sorted[..j] + [x] + sorted[j..] + rest;
    forall k | 0 <= k < |fin|
      ensures fin[k] == result[k]
    {
    }
  }

  /** One step of the insertion sort: `a[..i]` is sorted already, and
      `a[i]` is moved left past every larger element. */
  method InsertInPlace(a: array<EventListItem>, i: int)
    requires 0 <= i < a.Length
    modifies a
    ensures a[..] == Insert(old(a[..i]), old(a[i])) + old(a[i + 1..])
  {
    ghost var sorted := a[..i];
    ghost var rest := a[i + 1..];
    var x := a[i];
    var j := i;
    while j > 0 && Key(a[j - 1]) > Key(x)
      invariant 0 <= j <= i
      invariant forall k :: 0 <= k < j ==> a[k] == sorted[k]
      invariant forall k :: j < k <= i ==> a[k] == sorted[k - 1]
      invariant forall k :: i < k < a.Length ==> a[k] == old(a[k])
      invariant forall k :: j <= k < i ==> Key(sorted[k]) > Key(x)
    {
      a[j] := a[j - 1];
      j := j - 1;
    }
    a[j] := x;
    ShiftedIsInsert(a[..], sorted, j, x, rest);
  }

  lemma SortPrefixStep(s: seq<EventListItem>, i: int)
    requires 0 <= i < |s|
    ensures SortByStart(s[..i + 1]) == Insert(SortByStart(s[..i]), s[i])
  {
    assert s[..i + 1][..i] == s[..i];
  }

  /** Sorts `a` in place by start time, stably: an insertion sort that
      shifts larger elements right, as a stable in-place sort does. */
  method SortInPlace(a: array<EventListItem>)
    modifies a
    ensures a[..] == SortByStart(old(a[..]))
  {
    ghost var input := a[..];
    var i := 0;
    assert input[..0] == [] && input[0..] == input;
    while i < a.Length
      invariant 0 <= i <= a.Length
      invariant a[..] == SortByStart(input[..i]) + input[i..]
    {
      var done := SortByStart(input[..i]);
      assert a[..i] == done && a[i] == input[i] && a[i + 1..] == input[i + 1..];
      InsertInPlace(a, i);
      SortPrefixStep(input, i);
      i := i + 1;
    }
    assert input[..a.Length] == input;
  }

  /** The sorted copy of a bucket, made by sorting an array in place. */
  method SortBucket(bucket: seq<EventListItem>) returns (sorted: seq<EventListItem>)
    ensures sorted == SortByStart(bucket)
  {
    var a := new EventListItem[|bucket|](i requires 0 <= i < |bucket| => bucket[i]);
    assert a[..] == bucket;
    SortInPlace(a);
    sorted := a[..];
  }
}
