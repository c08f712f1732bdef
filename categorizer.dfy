/** `categorizeEvents`: one pass over the event list that drops events which
    are not OPEN or start before today and puts every other event into the
    `today`, `thisWeek` or `upcoming` bucket, followed by a stable sort of
    each bucket by start time. */
module Categorizer {
  import opened Events
  import opened DateBounds
  import opened StableSort

  datatype Bucket = Today | ThisWeek | Upcoming | Skipped

  datatype Categorized = Categorized(
    today: seq<EventListItem>,
    thisWeek: seq<EventListItem>,
    upcoming: seq<EventListItem>)

  /** The bucket one event goes to when the page is rendered at time `now`:
      `today` is the start of the current day and the week ends at the last
      millisecond of its Sunday. An Invalid Date start time makes every
      comparison false, so such an event is pushed nowhere. */
  function Classify(e: EventListItem, now: int): Bucket
  {
    var today := StartOfDay(now);
    var thisWeekSunday := EndOfWeek(today);
    if e.status != OpenStatus then Skipped
    else match e.startTime
      case InvalidDate => Skipped
      case At(ms) =>
        var eventDate := StartOfDay(ms);
        if eventDate < today then Skipped
        else if IsSameDay(eventDate, today) then Today
        else if eventDate >= today && eventDate <= thisWeekSunday then ThisWeek
        else if eventDate > thisWeekSunday then Upcoming
        else Skipped
  }

  /** An event is listed at all: it is OPEN, has a valid start time and its
      start day is not before today. */
  predicate Eligible(e: EventListItem, now: int)
  {
    e.status == OpenStatus && e.startTime.At? && DayOf(e.startTime.ms) >= DayOf(now)
  }

  /** The bucket of an event in terms of day numbers: today's events, then
      the later days up to this week's Sunday, then the days after it. */
  lemma ClassifyByDay(e: EventListItem, now: int)
    ensures Classify(e, now) != Skipped <==> Eligible(e, now)
    ensures Classify(e, now) == Today <==>
      Eligible(e, now) && DayOf(e.startTime.ms) == DayOf(now)
    ensures Classify(e, now) == ThisWeek <==>
      Eligible(e, now) && DayOf(now) < DayOf(e.startTime.ms) <= WeekEndDay(DayOf(now))
    ensures Classify(e, now) == Upcoming <==>
      Eligible(e, now) && DayOf(e.startTime.ms) > WeekEndDay(DayOf(now))
  {
    if e.status == OpenStatus && e.startTime.At? {
      var today := StartOfDay(now);
      var d := DayOf(e.startTime.ms);
      assert StartOfDay(e.startTime.ms) == d * MsPerDay;
      assert today == DayOf(now) * MsPerDay;
      assert DayOf(today) == DayOf(now);
      MidnightWithinWeek(d, today);
      IsSameDayMeansSameDayNumber(StartOfDay(e.startTime.ms), today);
      assert StartOfDay(e.startTime.ms) < today <==> d < DayOf(now);
    }
  }

  /** The events of `s` that go to bucket `b`, in input order. */
  function Select(s: seq<EventListItem>, now: int, b: Bucket): seq<EventListItem>
  {
    if s == [] then []
    else Select(s[..|s| - 1], now, b) + (if Classify(s[|s| - 1], now) == b then [s[|s| - 1]] else [])
  }

  /** The events of `s` that are listed in some bucket, in input order. */
  function Listed(s: seq<EventListItem>, now: int): seq<EventListItem>
  {
    if s == [] then []
    else Listed(s[..|s| - 1], now) + (if Eligible(s[|s| - 1], now) then [s[|s| - 1]] else [])
  }

  /** What `categorizeEvents` returns: each bucket holds the events of its
      class in input order, stably sorted by start time. */
  function Categorization(events: seq<EventListItem>, now: int): Categorized
  {
    Categorized(
      SortByStart(Select(events, now, Today)),
      SortByStart(Select(events, now, ThisWeek)),
      SortByStart(Select(events, now, Upcoming)))
  }

  /** `Array.isArray(events) ? events : []`. */
  function AsEventList(events: Json): seq<EventListItem>
  {
    if events.JArray? then events.items else []
  }

  /** The single pass with `push`, then the sort of each bucket. */
  method CategorizeEvents(eventsList: seq<EventListItem>, now: int) returns (categorized: Categorized)
    ensures categorized == Categorization(eventsList, now)
  {
    var today := StartOfDay(now);
    var thisWeekSunday := EndOfWeek(today);
    categorized := Categorized([], [], []);
    var i := 0;
    while i < |eventsList|
      invariant 0 <= i <= |eventsList|
      invariant categorized.today == Select(eventsList[..i], now, Today)
      invariant categorized.thisWeek == Select(eventsList[..i], now, ThisWeek)
      invariant categorized.upcoming == Select(eventsList[..i], now, Upcoming)
    {
      var event := eventsList[i];
      assert eventsList[..i + 1][..i] == eventsList[..i];
      if event.status == OpenStatus && event.startTime.At? {
        var eventDate := StartOfDay(event.startTime.ms);
        if !(eventDate < today) {
          if IsSameDay(eventDate, today) {
            categorized := categorized.(today := categorized.today + [event]);
          } else if eventDate >= today && eventDate <= thisWeekSunday {
            categorized := categorized.(thisWeek := categorized.thisWeek + [event]);
          } else if eventDate > thisWeekSunday {
            categorized := categorized.(upcoming := categorized.upcoming + [event]);
          }
        }
      }
      i := i + 1;
    }
    assert eventsList[..i] == eventsList;
    var today' := SortBucket(categorized.today);
    var thisWeek' := SortBucket(categorized.thisWeek);
    var upcoming' := SortBucket(categorized.upcoming);
    categorized := Categorized(today', thisWeek', upcoming');
  }

  lemma {:induction false} SelectMembers(s: seq<EventListItem>, now: int, b: Bucket)
    ensures forall e :: e in Select(s, now, b) <==> e in s && Classify(e, now) == b
  {
    if s != [] {
      var init := s[..|s| - 1];
      assert s == init + [s[|s| - 1]];
      SelectMembers(init, now, b);
    }
  }

  lemma {:induction false} SelectConcat(a: seq<EventListItem>, c: seq<EventListItem>, now: int, b: Bucket)
    ensures Select(a + c, now, b) == Select(a, now, b) + Select(c, now, b)
    decreases |c|
  {
    if c == [] {
      assert a + c == a;
    } else {
      var init := c[..|c| - 1];
      assert a + c == (a + init) + [c[|c| - 1]];
      assert (a + c)[..|a + c| - 1] == a + init;
      SelectConcat(a, init, now, b);
    }
  }

  lemma {:induction false} SelectAllOf(s: seq<EventListItem>, now: int, b: Bucket)
    requires forall e :: e in s ==> Classify(e, now) == b
    ensures Select(s, now, b) == s
  {
    if s != [] {
      var init := s[..|s| - 1];
      assert s == init + [s[|s| - 1]];
      SelectAllOf(init, now, b);
    }
  }

  lemma {:induction false} SelectNoneOf(s: seq<EventListItem>, now: int, b: Bucket)
    requires forall e :: e in s ==> Classify(e, now) != b
    ensures Select(s, now, b) == []
  {
    if s != [] {
      var init := s[..|s| - 1];
      assert s == init + [s[|s| - 1]];
      SelectNoneOf(init, now, b);
    }
  }

  lemma SortedMembers(s: seq<EventListItem>)
    ensures forall e :: e in SortByStart(s) <==> e in s
  {
    SortPermutes(s);
    forall e
      ensures e in SortByStart(s) <==> e in s
    {
      assert e in SortByStart(s) <==> e in multiset(SortByStart(s));
      assert e in s <==> e in multiset(s);
    }
  }

  lemma BucketMembers(events: seq<EventListItem>, now: int, b: Bucket)
    requires b != Skipped
    ensures forall e :: e in SortByStart(Select(events, now, b)) <==> e in events && Classify(e, now) == b
  {
    SelectMembers(events, now, b);
    SortedMembers(Select(events, now, b));
  }

  /** Filter: only OPEN events with a valid start time on or after today
      are bucketed; `today` holds events of the current day, `thisWeek`
      events after today up to this week's Sunday and `upcoming` events
      after that Sunday. */
  lemma BucketsHoldTheirClass(events: seq<EventListItem>, now: int)
    ensures forall e :: e in Categorization(events, now).today ==>
      e in events && Eligible(e, now) && DayOf(e.startTime.ms) == DayOf(now)
    ensures forall e :: e in Categorization(events, now).thisWeek ==>
      e in events && Eligible(e, now) && DayOf(now) < DayOf(e.startTime.ms) <= WeekEndDay(DayOf(now))
    ensures forall e :: e in Categorization(events, now).upcoming ==>
      e in events && Eligible(e, now) && DayOf(e.startTime.ms) > WeekEndDay(DayOf(now))
  {
    BucketMembers(events, now, Today);
    BucketMembers(events, now, ThisWeek);
    BucketMembers(events, now, Upcoming);
    forall e | e in events
      ensures Classify(e, now) == Today ==> Eligible(e, now) && DayOf(e.startTime.ms) == DayOf(now)
      ensures Classify(e, now) == ThisWeek ==>
        Eligible(e, now) && DayOf(now) < DayOf(e.startTime.ms) <= WeekEndDay(DayOf(now))
      ensures Classify(e, now) == Upcoming ==>
        Eligible(e, now) && DayOf(e.startTime.ms) > WeekEndDay(DayOf(now))
    {
      ClassifyByDay(e, now);
    }
  }

  /** Coverage and exclusivity: an input event is in some bucket exactly
      when it is eligible, and then it is in exactly one; an eligible event
      of the current day is in `today` and never in `thisWeek`. */
  lemma EligibleInExactlyOneBucket(events: seq<EventListItem>, now: int, e: EventListItem)
    requires e in events
    ensures var c := Categorization(events, now);
      (e in c.today || e in c.thisWeek || e in c.upcoming) <==> Eligible(e, now)
    ensures var c := Categorization(events, now);
      !(e in c.today && e in c.thisWeek) && !(e in c.today && e in c.upcoming)
      && !(e in c.thisWeek && e in c.upcoming)
    ensures Eligible(e, now) && DayOf(e.startTime.ms) == DayOf(now) ==>
      e in Categorization(events, now).today && e !in Categorization(events, now).thisWeek
  {
    BucketMembers(events, now, Today);
    BucketMembers(events, now, ThisWeek);
    BucketMembers(events, now, Upcoming);
    ClassifyByDay(e, now);
  }

  lemma {:induction false} SelectPartitionsListed(s: seq<EventListItem>, now: int)
    ensures multiset(Select(s, now, Today)) + multiset(Select(s, now, ThisWeek))
      + multiset(Select(s, now, Upcoming)) == multiset(Listed(s, now))
  {
    if s != [] {
      var init := s[..|s| - 1];
      var last := s[|s| - 1];
      SelectPartitionsListed(init, now);
      ClassifyByDay(last, now);
    }
  }

  /** Total coverage counted with multiplicity: the three buckets together
      are a permutation of the listed events. */
  lemma BucketsPartitionListed(events: seq<EventListItem>, now: int)
    ensures var c := Categorization(events, now);
      multiset(c.today) + multiset(c.thisWeek) + multiset(c.upcoming) == multiset(Listed(events, now))
  {
    SortPermutes(Select(events, now, Today));
    SortPermutes(Select(events, now, ThisWeek));
    SortPermutes(Select(events, now, Upcoming));
    SelectPartitionsListed(events, now);
  }

  /** The bucket sizes add up to the number of listed events. */
  lemma BucketSizesAddUp(events: seq<EventListItem>, now: int)
    ensures var c := Categorization(events, now);
      |c.today| + |c.thisWeek| + |c.upcoming| == |Listed(events, now)|
  {
    var c := Categorization(events, now);
    BucketsPartitionListed(events, now);
    assert |multiset(c.today) + multiset(c.thisWeek) + multiset(c.upcoming)| == |multiset(Listed(events, now))|;
  }

  /** Every bucket is ordered by start time, and within one start time the
      events of a bucket keep the order they had in the input. */
  lemma BucketsSortedAndStable(events: seq<EventListItem>, now: int, k: int)
    ensures var c := Categorization(events, now);
      SortedByStart(c.today) && SortedByStart(c.thisWeek) && SortedByStart(c.upcoming)
    ensures var c := Categorization(events, now);
      && WithKey(c.today, k) == WithKey(Select(events, now, Today), k)
      && WithKey(c.thisWeek, k) == WithKey(Select(events, now, ThisWeek), k)
      && WithKey(c.upcoming, k) == WithKey(Select(events, now, Upcoming), k)
  {
    SortIsSorted(Select(events, now, Today));
    SortIsSorted(Select(events, now, ThisWeek));
    SortIsSorted(Select(events, now, Upcoming));
    SortIsStable(Select(events, now, Today), k);
    SortIsStable(Select(events, now, ThisWeek), k);
    SortIsStable(Select(events, now, Upcoming), k);
  }

  lemma RecategorizeBucket(c: Categorized, now: int, b: Bucket, bucket: seq<EventListItem>)
    requires b != Skipped
    requires SortedByStart(bucket)
    requires forall e :: e in bucket ==> Classify(e, now) == b
    requires forall e :: e in c.today ==> Classify(e, now) == Today
    requires forall e :: e in c.thisWeek ==> Classify(e, now) == ThisWeek
    requires forall e :: e in c.upcoming ==> Classify(e, now) == Upcoming
    requires bucket == (if b == Today then c.today else if b == ThisWeek then c.thisWeek else c.upcoming)
    ensures SortByStart(Select(c.today + c.thisWeek + c.upcoming, now, b)) == bucket
  {
    SelectConcat(c.today + c.thisWeek, c.upcoming, now, b);
    SelectConcat(c.today, c.thisWeek, now, b);
    if b == Today {
      SelectAllOf(c.today, now, b);
      SelectNoneOf(c.thisWeek, now, b);
      SelectNoneOf(c.upcoming, now, b);
      assert c.today + [] + [] == c.today;
    } else if b == ThisWeek {
      SelectNoneOf(c.today, now, b);
      SelectAllOf(c.thisWeek, now, b);
      SelectNoneOf(c.upcoming, now, b);
      assert [] + c.thisWeek + [] == c.thisWeek;
    } else {
      SelectNoneOf(c.today, now, b);
      SelectNoneOf(c.thisWeek, now, b);
      SelectAllOf(c.upcoming, now, b);
      assert [] + [] + c.upcoming == c.upcoming;
    }
    SortOfSortedIsIdentity(bucket);
  }

  /** Idempotence: categorizing the concatenated buckets again, with the
      same reference time, gives back the same buckets in the same order. */
  lemma RecategorizeIsIdentity(events: seq<EventListItem>, now: int)
    ensures var c := Categorization(events, now);
      Categorization(c.today + c.thisWeek + c.upcoming, now) == c
  {
    var c := Categorization(events, now);
    BucketMembers(events, now, Today);
    BucketMembers(events, now, ThisWeek);
    BucketMembers(events, now, Upcoming);
    BucketsSortedAndStable(events, now, 0);
    RecategorizeBucket(c, now, Today, c.today);
    RecategorizeBucket(c, now, ThisWeek, c.thisWeek);
    RecategorizeBucket(c, now, Upcoming, c.upcoming);
  }

  /** Every render recomputes `today` from the clock; the bucket of an
      event depends on the day of the reference time only. */
  lemma ClassifySameDay(e: EventListItem, n1: int, n2: int)
    requires DayOf(n1) == DayOf(n2)
    ensures Classify(e, n1) == Classify(e, n2)
  {
    assert StartOfDay(n1) == StartOfDay(n2);
  }

  lemma {:induction false} SelectSameDay(s: seq<EventListItem>, n1: int, n2: int, b: Bucket)
    requires DayOf(n1) == DayOf(n2)
    ensures Select(s, n1, b) == Select(s, n2, b)
  {
    if s != [] {
      SelectSameDay(s[..|s| - 1], n1, n2, b);
      ClassifySameDay(s[|s| - 1], n1, n2);
    }
  }

  /** Two renders on the same day give identical buckets. */
  lemma SameReferenceDay(events: seq<EventListItem>, n1: int, n2: int)
    requires DayOf(n1) == DayOf(n2)
    ensures Categorization(events, n1) == Categorization(events, n2)
  {
    SelectSameDay(events, n1, n2, Today);
    SelectSameDay(events, n1, n2, ThisWeek);
    SelectSameDay(events, n1, n2, Upcoming);
  }

  /** The `Array.isArray` guard: a value that is not an array is
      categorized as the empty list, into three empty buckets. */
  lemma NonArrayIsEmpty(v: Json, now: int)
    requires !v.JArray?
    ensures Categorization(AsEventList(v), now) == Categorized([], [], [])
  {
  }

  /** An open event that starts at `ms`. */
  function OpenEventAt(id: int, ms: int): EventListItem
  {
    EventListItem(id, [], At(ms), OpenStatus, 0, None, None, None)
  }

  /** Reference day Wednesday 2024-06-12 (day 19886, whose week ends on
      Sunday 2024-06-16, day 19890). A at 09:00 and B at 15:00 that day,
      C on Friday 06-14, D on Thursday 06-20, E closed on 06-12: `today`
      is [A, B] (sorted although B comes first), `thisWeek` is [C],
      `upcoming` is [D], and E is dropped. */
  lemma WednesdayScenario(a: EventListItem, b: EventListItem, c: EventListItem,
                          d: EventListItem, e: EventListItem)
    requires a == OpenEventAt(1, 19886 * MsPerDay + 9 * 3_600_000)
    requires b == OpenEventAt(2, 19886 * MsPerDay + 15 * 3_600_000)
    requires c == OpenEventAt(3, 19888 * MsPerDay)
    requires d == OpenEventAt(4, 19894 * MsPerDay)
    requires e == OpenEventAt(5, 19886 * MsPerDay).(status := "CLOSED")
    ensures Categorization([b, c, a, d, e], 19886 * MsPerDay + 8 * 3_600_000) == Categorized([a, b], [c], [d])
  {
    var now := 19886 * MsPerDay + 8 * 3_600_000;
    ScenarioClasses(a, b, c, d, e, now);
    assert Key(a) < Key(b);
    ScenarioShape(a, b, c, d, e, now);
  }

  /** Categorizing [B, C, A, D, E] where A and B are today's events with A
      earlier, C is this week's, D upcoming and E dropped. */
  lemma ScenarioShape(a: EventListItem, b: EventListItem, c: EventListItem,
                      d: EventListItem, e: EventListItem, now: int)
    requires Classify(a, now) == Today && Classify(b, now) == Today
    requires Classify(c, now) == ThisWeek && Classify(d, now) == Upcoming
    requires Classify(e, now) == Skipped
    requires Key(a) < Key(b)
    ensures Categorization([b, c, a, d, e], now) == Categorized([a, b], [c], [d])
  {
    ScenarioSelect(a, b, c, d, e, now, Today);
    ScenarioSelect(a, b, c, d, e, now, ThisWeek);
    ScenarioSelect(a, b, c, d, e, now, Upcoming);
    SortTwo(a, b);
    assert SortByStart([c]) == [c] && SortByStart([d]) == [d];
  }

  lemma ScenarioSelect(a: EventListItem, b: EventListItem, c: EventListItem,
                       d: EventListItem, e: EventListItem, now: int, k: Bucket)
    requires Classify(a, now) == Today && Classify(b, now) == Today
    requires Classify(c, now) == ThisWeek && Classify(d, now) == Upcoming
    requires Classify(e, now) == Skipped
    ensures Select([b, c, a, d, e], now, k)
      == (if k == Today then [b, a] else if k == ThisWeek then [c] else if k == Upcoming then [d] else [e])
  {
    var s := [b, c, a, d, e];
    var labels := [Today, ThisWeek, Today, Upcoming, Skipped];
    forall i | 0 <= i < |s|
      ensures Classify(s[i], now) == labels[i]
    {
      if i == 0 { assert s[i] == b; }
      else if i == 1 { assert s[i] == c; }
      else if i == 2 { assert s[i] == a; }
      else if i == 3 { assert s[i] == d; }
      else { assert s[i] == e; }
    }
    SelectByLabels(s, labels, now, k);
    ScenarioLabels(a, b, c, d, e, k);
  }

  lemma SortTwo(a: EventListItem, b: EventListItem)
    requires Key(a) < Key(b)
    ensures SortByStart([b, a]) == [a, b]
  {
    assert SortByStart([b]) == [b];
    assert [b, a][..1] == [b];
    assert Insert([b], a) == [a, b];
  }

  /** The events of `s` whose label in `labels` is `k`. */
  function WithLabel(s: seq<EventListItem>, labels: seq<Bucket>, k: Bucket): seq<EventListItem>
    requires |labels| == |s|
  {
    if s == [] then []
    else WithLabel(s[..|s| - 1], labels[..|s| - 1], k) + (if labels[|s| - 1] == k then [s[|s| - 1]] else [])
  }

  lemma ScenarioLabels(a: EventListItem, b: EventListItem, c: EventListItem,
                        d: EventListItem, e: EventListItem, k: Bucket)
    ensures WithLabel([b, c, a, d, e], [Today, ThisWeek, Today, Upcoming, Skipped], k)
      == (if k == Today then [b, a] else if k == ThisWeek then [c] else if k == Upcoming then [d] else [e])
  {
    var s1, l1 := [b], [Today];
    var s2, l2 := s1 + [c], l1 + [ThisWeek];
    var s3, l3 := s2 + [a], l2 + [Today];
    var s4, l4 := s3 + [d], l3 + [Upcoming];
    var s5, l5 := s4 + [e], l4 + [Skipped];
    WithLabelStep([], [], b, Today, k);
    assert [] + [b] == s1 && [] + [Today] == l1;
    WithLabelStep(s1, l1, c, ThisWeek, k);
    WithLabelStep(s2, l2, a, Today, k);
    WithLabelStep(s3, l3, d, Upcoming, k);
    WithLabelStep(s4, l4, e, Skipped, k);
    assert s5 == [b, c, a, d, e] && l5 == [Today, ThisWeek, Today, Upcoming, Skipped];
  }

  lemma WithLabelStep(s: seq<EventListItem>, labels: seq<Bucket>, x: EventListItem, l: Bucket, k: Bucket)
    requires |labels| == |s|
    ensures WithLabel(s + [x], labels + [l], k) == WithLabel(s, labels, k) + (if l == k then [x] else [])
  {
    assert (s + [x])[..|s|] == s;
    assert (labels + [l])[..|s|] == labels;
  }

  lemma {:induction false} SelectByLabels(s: seq<EventListItem>, labels: seq<Bucket>, now: int, k: Bucket)
    requires |labels| == |s|
    requires forall i :: 0 <= i < |s| ==> Classify(s[i], now) == labels[i]
    ensures Select(s, now, k) == WithLabel(s, labels, k)
  {
    if s != [] {
      SelectByLabels(s[..|s| - 1], labels[..|s| - 1], now, k);
    }
  }

  lemma ScenarioClasses(a: EventListItem, b: EventListItem, c: EventListItem,
                        d: EventListItem, e: EventListItem, now: int)
    requires a == OpenEventAt(1, 19886 * MsPerDay + 9 * 3_600_000)
    requires b == OpenEventAt(2, 19886 * MsPerDay + 15 * 3_600_000)
    requires c == OpenEventAt(3, 19888 * MsPerDay)
    requires d == OpenEventAt(4, 19894 * MsPerDay)
    requires e == OpenEventAt(5, 19886 * MsPerDay).(status := "CLOSED")
    requires now == 19886 * MsPerDay + 8 * 3_600_000
    ensures Classify(a, now) == Today && Classify(b, now) == Today
    ensures Classify(c, now) == ThisWeek && Classify(d, now) == Upcoming
    ensures Classify(e, now) == Skipped
  {
    assert "CLOSED"[0] != OpenStatus[0];
    assert DayOf(now) == 19886;
    assert WeekdayOfDay(19886) == 3;
    assert WeekEndDay(DayOf(now)) == 19890;
    ClassifyByDay(a, now);
    ClassifyByDay(b, now);
    ClassifyByDay(c, now);
    ClassifyByDay(d, now);
    ClassifyByDay(e, now);
  }
}
