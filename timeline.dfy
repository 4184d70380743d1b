/** A shipment's timeline ordered by creation time. get_latest_event sorts the
    timeline in place with Python's stable sort keyed on created_at and takes
    the last element; this module gives that sort as a function and proves
    which event ends up last. */
module Timeline {
  import opened Domain

  predicate SortedByTime(t: seq<Event>) {
    forall i, j :: 0 <= i < j < |t| ==> t[i].createdAt <= t[j].createdAt
  }

  /** The position of the latest event: no event is later, and every event
      after it in insertion order is strictly earlier. Ties therefore go to
      the event inserted last. */
  function LatestIndex(t: seq<Event>): (k: nat)
    requires |t| > 0
    ensures k < |t|
    ensures forall i :: 0 <= i < |t| ==> t[i].createdAt <= t[k].createdAt
    ensures forall i :: k < i < |t| ==> t[i].createdAt < t[k].createdAt
  {
    if |t| == 1 then 0
    else
      var j := LatestIndex(t[..|t| - 1]);
      if t[j].createdAt <= t[|t| - 1].createdAt then |t| - 1 else j
  }

  /** Inserts e behind every element that is not later than it (the step of a
      stable insertion sort). */
  function Insert(e: Event, s: seq<Event>): seq<Event>
    decreases |s|
  {
    if s == [] then [e]
    else if s[|s| - 1].createdAt <= e.createdAt then s + [e]
    else Insert(e, s[..|s| - 1]) + [s[|s| - 1]]
  }

  /** Stable sort by createdAt. */
  function SortByTime(t: seq<Event>): seq<Event>
    decreases |t|
  {
    if t == [] then [] else Insert(t[|t| - 1], SortByTime(t[..|t| - 1]))
  }

  lemma {:induction false} InsertPermutes(e: Event, s: seq<Event>)
    ensures multiset(Insert(e, s)) == multiset(s) + multiset{e}
    ensures |Insert(e, s)| == |s| + 1
    decreases |s|
  {
    if s != [] && s[|s| - 1].createdAt > e.createdAt {
      var init := s[..|s| - 1];
      InsertPermutes(e, init);
      assert s == init + [s[|s| - 1]];
    }
  }

  /** Appending an event no earlier than every one keeps the order. */
  lemma SortedAppend(r: seq<Event>, x: Event)
    requires SortedByTime(r)
    requires forall i :: 0 <= i < |r| ==> r[i].createdAt <= x.createdAt
    ensures SortedByTime(r + [x])
  {
    var out := r + [x];
    forall i, j | 0 <= i < j < |out| ensures out[i].createdAt <= out[j].createdAt {
      if j < |r| {
        assert out[i] == r[i] && out[j] == r[j];
      }
    }
  }

  lemma {:induction false} InsertKeepsSorted(e: Event, s: seq<Event>)
    requires SortedByTime(s)
    ensures SortedByTime(Insert(e, s))
    decreases |s|
  {
    if s == [] {
      assert Insert(e, s) == [e];
    } else if s[|s| - 1].createdAt <= e.createdAt {
      SortedAppend(s, e);
    } else {
      var init := s[..|s| - 1];
      var last := s[|s| - 1];
      assert SortedByTime(init);
      InsertKeepsSorted(e, init);
      InsertPermutes(e, init);
      var r := Insert(e, init);
      forall i | 0 <= i < |r| ensures r[i].createdAt <= last.createdAt {
        assert r[i] in multiset(r);
        assert r[i] in multiset(init) || r[i] == e;
      }
      SortedAppend(r, last);
    }
  }

  /** The sort orders the timeline and keeps exactly its events. */
  lemma {:induction false} SortByTimeSortsAndPermutes(t: seq<Event>)
    ensures SortedByTime(SortByTime(t))
    ensures multiset(SortByTime(t)) == multiset(t)
    ensures |SortByTime(t)| == |t|
    decreases |t|
  {
    if t != [] {
      var init := t[..|t| - 1];
      SortByTimeSortsAndPermutes(init);
      InsertKeepsSorted(t[|t| - 1], SortByTime(init));
      InsertPermutes(t[|t| - 1], SortByTime(init));
      assert t == init + [t[|t| - 1]];
    }
  }

  lemma InsertLast(e: Event, s: seq<Event>)
    requires s != []
    ensures |Insert(e, s)| == |s| + 1
    ensures Insert(e, s)[|s|] == if s[|s| - 1].createdAt <= e.createdAt then e else s[|s| - 1]
  {
    InsertPermutes(e, s);
  }

  /** After the sort, the last event is the latest one, ties going to the
      event inserted last. */
  lemma {:induction false} SortByTimeLast(t: seq<Event>)
    requires |t| > 0
    ensures |SortByTime(t)| == |t|
    ensures SortByTime(t)[|t| - 1] == t[LatestIndex(t)]
    decreases |t|
  {
    SortByTimeSortsAndPermutes(t);
    if |t| > 1 {
      var init := t[..|t| - 1];
      SortByTimeLast(init);
      InsertLast(t[|t| - 1], SortByTime(init));
    }
  }

  /** The event get_latest_event returns. */
  function LatestEvent(t: seq<Event>): (e: Event)
    requires |t| > 0
    ensures e == t[LatestIndex(t)]
    ensures e in t
  {
    SortByTimeLast(t);
    SortByTime(t)[|t| - 1]
  }

  /** Appending an event no earlier than every recorded one makes it the
      latest, even when it ties with the current latest. */
  lemma AppendedIsLatest(t: seq<Event>, e: Event)
    requires forall i :: 0 <= i < |t| ==> t[i].createdAt <= e.createdAt
    ensures LatestIndex(t + [e]) == |t|
    ensures LatestEvent(t + [e]) == e
  {
    if |t| > 0 {
      assert (t + [e])[..|t|] == t;
    }
  }

  /** An event appended with a timestamp earlier than the current latest does
      not become the latest: the shipment's status stays where it was. */
  lemma {:induction false} EarlierAppendIsNotLatest(t: seq<Event>, e: Event)
    requires |t| > 0 && e.createdAt < LatestEvent(t).createdAt
    ensures LatestIndex(t + [e]) == LatestIndex(t)
    ensures LatestEvent(t + [e]) == LatestEvent(t)
  {
    assert (t + [e])[..|t|] == t;
  }

  /** In a timeline already sorted by time the latest event is the last one. */
  lemma SortedLatestIsLast(t: seq<Event>)
    requires |t| > 0 && SortedByTime(t)
    ensures LatestIndex(t) == |t| - 1
  {
  }

  /** After the sort and one append, the latest event is either the appended
      one or the one that was latest before. */
  lemma {:induction false} LatestAfterSortedAppend(t: seq<Event>, e: Event)
    requires |t| > 0
    ensures LatestEvent(SortByTime(t) + [e]) == e || LatestEvent(SortByTime(t) + [e]) == LatestEvent(t)
  {
    var r := SortByTime(t);
    SortByTimeSortsAndPermutes(t);
    SortByTimeLast(t);
    SortedLatestIsLast(r);
    assert (r + [e])[..|r|] == r;
  }
}
