/**
 * `batch_by_time_window`: groups a stream of events into 5-minute tumbling windows, keyed by
 * the calendar date, the hour and the minute rounded down to a multiple of five, and within a
 * window by customer id, keeping the stream order inside every list.
 */
module Batching {
  import opened Wrappers
  import opened Clock
  import opened Events

  /**
   * `(year, month, day, hour, minute // 5 * 5)`; the calendar date `(year, month, day)` is
   * represented by its day number, which determines it and is determined by it.
   */
  datatype WindowKey = WindowKey(day: int, hour: int, minute: int)

  /** `{window_key: {customer_id: [events]}}`. */
  type Batches = map<WindowKey, map<CustomerField, seq<RawEvent>>>

  /** The window key of an instant (lines 218-224). */
  function WindowKeyOf(t: int): (k: WindowKey)
    ensures k.day == DayOf(t)
    ensures 0 <= k.hour < 24
    ensures 0 <= k.minute <= 55 && k.minute % 5 == 0
  {
    var secondOfDay := t % SecondsPerDay;
    var minute := secondOfDay % 3600 / 60;
    WindowKey(DayOf(t), secondOfDay / 3600, minute / 5 * 5)
  }

  /** The key counts the 5-minute slots since the epoch: 288 per day, 12 per hour. */
  lemma WindowSlot(t: int)
    ensures var k := WindowKeyOf(t);
            t / 300 == 288 * k.day + 12 * k.hour + k.minute / 5
  {
  }

  /** Two instants share a window key exactly when they fall in the same 5-minute slot. */
  lemma SameKeyIffSameSlot(t1: int, t2: int)
    ensures WindowKeyOf(t1) == WindowKeyOf(t2) <==> t1 / 300 == t2 / 300
  {
    var k1, k2 := WindowKeyOf(t1), WindowKeyOf(t2);
    WindowSlot(t1);
    WindowSlot(t2);
    if t1 / 300 == t2 / 300 {
      var q1, q2 := k1.minute / 5, k2.minute / 5;
      assert 288 * k1.day + (12 * k1.hour + q1) == 288 * k2.day + (12 * k2.hour + q2);
      assert 0 <= 12 * k1.hour + q1 < 288 && 0 <= 12 * k2.hour + q2 < 288;
      assert k1.day == k2.day;
      assert k1.hour == k2.hour;
      assert q1 == q2;
      assert k1.minute == 5 * q1 && k2.minute == 5 * q2;
    }
  }

  /** Lines 215 and 229 raise unless the event has a parseable time and a customer id. */
  predicate Batchable(e: RawEvent)
  {
    e.eventTime.Some? && e.eventTime.value.IsoInstant? && e.customerId.Some?
  }

  /** The event belongs in the list of window `k` and customer `c`. */
  predicate BelongsTo(e: RawEvent, k: WindowKey, c: CustomerField)
  {
    Batchable(e) && WindowKeyOf(e.eventTime.value.instant) == k && e.customerId.value == c
  }

  /** The events of `s` that belong to window `k` and customer `c`, in stream order. */
  function Group(s: seq<RawEvent>, k: WindowKey, c: CustomerField): (g: seq<RawEvent>)
    ensures |g| <= |s|
    ensures forall x :: x in g ==> x in s && BelongsTo(x, k, c)
  {
    if s == [] then []
    else
      var last := s[|s| - 1];
      Group(s[..|s| - 1], k, c) + (if BelongsTo(last, k, c) then [last] else [])
  }

  /** Every event of `s` has a window key and is placed, `b` holds exactly the non-empty groups of `s`, and no window is empty. */
  predicate Grouped(s: seq<RawEvent>, b: Batches)
  {
    && (forall i :: 0 <= i < |s| ==>
          Batchable(s[i]) &&
          var k := WindowKeyOf(s[i].eventTime.value.instant);
          k in b && s[i].customerId.value in b[k])
    && (forall k, c :: k in b && c in b[k] ==> b[k][c] == Group(s, k, c) && b[k][c] != [])
    && (forall k :: k in b ==> b[k] != map[])
  }

  /** Every key of a grouping is the window key of an event of the stream, so it is a well-formed key. */
  lemma EveryWindowHoldsAnEvent(s: seq<RawEvent>, b: Batches, k: WindowKey)
    requires Grouped(s, b) && k in b
    ensures exists i :: 0 <= i < |s| && BelongsTo(s[i], k, s[i].customerId.value)
    ensures 0 <= k.hour < 24 && 0 <= k.minute <= 55 && k.minute % 5 == 0
  {
    var c :| c in b[k];
    var x := b[k][c][0];
    assert x in Group(s, k, c);
    var i :| 0 <= i < |s| && s[i] == x;
    assert BelongsTo(s[i], k, s[i].customerId.value);
  }

  /** Every event lies in the list of its own window and customer, and in no other list. */
  lemma EveryEventInExactlyOneList(s: seq<RawEvent>, b: Batches, i: int)
    requires Grouped(s, b)
    requires 0 <= i < |s| && Batchable(s[i])
    ensures var k := WindowKeyOf(s[i].eventTime.value.instant);
            var c := s[i].customerId.value;
            k in b && c in b[k] && s[i] in b[k][c]
    ensures forall k, c :: k in b && c in b[k] && s[i] in b[k][c] ==>
              k == WindowKeyOf(s[i].eventTime.value.instant) && c == s[i].customerId.value
  {
    GroupContains(s, i);
  }

  lemma {:induction false} GroupContains(s: seq<RawEvent>, i: int)
    requires 0 <= i < |s| && Batchable(s[i])
    ensures s[i] in Group(s, WindowKeyOf(s[i].eventTime.value.instant), s[i].customerId.value)
  {
    var k, c := WindowKeyOf(s[i].eventTime.value.instant), s[i].customerId.value;
    if i < |s| - 1 {
      var front := s[..|s| - 1];
      assert front[i] == s[i];
      GroupContains(front, i);
    }
  }

  /** Dropping the last event drops it from its own group and from no other. */
  lemma GroupSnoc(s: seq<RawEvent>, i: int, k: WindowKey, c: CustomerField)
    requires 0 <= i < |s|
    ensures Group(s[..i + 1], k, c) == Group(s[..i], k, c) + (if BelongsTo(s[i], k, c) then [s[i]] else [])
  {
    assert s[..i + 1][..i] == s[..i];
  }

  /** A non-empty group of a grouped stream has its list. */
  lemma {:induction false} NonEmptyGroupIsListed(s: seq<RawEvent>, b: Batches, k: WindowKey, c: CustomerField)
    requires Grouped(s, b)
    ensures Group(s, k, c) != [] ==> k in b && c in b[k]
  {
    var g := Group(s, k, c);
    if g != [] {
      var x := g[0];
      assert x in g;
      assert x in s && BelongsTo(x, k, c);
      var j :| 0 <= j < |s| && s[j] == x;
    }
  }

  /** Appends `e` to the list of its window and customer, creating the window and the list when absent. */
  function Place(b: Batches, e: RawEvent): (r: Batches)
    requires Batchable(e)
    ensures var k := WindowKeyOf(e.eventTime.value.instant);
            k in r && e.customerId.value in r[k]
  {
    var k := WindowKeyOf(e.eventTime.value.instant);
    var c := e.customerId.value;
    var window := if k in b then b[k] else map[];
    var list := if c in window then window[c] else [];
    b[k := window[c := list + [e]]]
  }

  /** The list event `i` is appended to becomes the group of the first `i + 1` events. */
  lemma OwnListStep(s: seq<RawEvent>, i: int, before: Batches)
    requires 0 <= i < |s| && Batchable(s[i])
    requires Grouped(s[..i], before)
    ensures var k, c := WindowKeyOf(s[i].eventTime.value.instant), s[i].customerId.value;
            Place(before, s[i])[k][c] == Group(s[..i + 1], k, c)
  {
    var e := s[i];
    var k, c := WindowKeyOf(e.eventTime.value.instant), e.customerId.value;
    var window := if k in before then before[k] else map[];
    var list := if c in window then window[c] else [];
    GroupSnoc(s, i, k, c);
    NonEmptyGroupIsListed(s[..i], before, k, c);
    assert BelongsTo(e, k, c);
    assert list == Group(s[..i], k, c);
  }

  /** Every other list is left as it was, and event `i` does not belong to it. */
  lemma OtherListStep(s: seq<RawEvent>, i: int, before: Batches, k: WindowKey, c: CustomerField)
    requires 0 <= i < |s| && Batchable(s[i])
    requires Grouped(s[..i], before)
    requires k != WindowKeyOf(s[i].eventTime.value.instant) || c != s[i].customerId.value
    requires k in before && c in before[k]
    ensures k in Place(before, s[i]) && c in Place(before, s[i])[k]
    ensures Place(before, s[i])[k][c] == before[k][c] == Group(s[..i + 1], k, c)
  {
    GroupSnoc(s, i, k, c);
    assert !BelongsTo(s[i], k, c);
  }

  /** Placing one list: the list of `(k, c)` after placing event `i` is the group of the first `i + 1` events. */
  lemma ListStep(s: seq<RawEvent>, i: int, before: Batches, k: WindowKey, c: CustomerField)
    requires 0 <= i < |s| && Batchable(s[i])
    requires Grouped(s[..i], before)
    requires k in Place(before, s[i]) && c in Place(before, s[i])[k]
    ensures Place(before, s[i])[k][c] == Group(s[..i + 1], k, c) != []
  {
    if k == WindowKeyOf(s[i].eventTime.value.instant) && c == s[i].customerId.value {
      OwnListStep(s, i, before);
    } else {
      OtherListStep(s, i, before, k, c);
    }
  }

  /** Placing event `i` turns a grouping of the first `i` events into one of the first `i + 1`. */
  lemma GroupedStep(s: seq<RawEvent>, i: int, before: Batches)
    requires 0 <= i < |s| && Batchable(s[i])
    requires Grouped(s[..i], before)
    ensures Grouped(s[..i + 1], Place(before, s[i]))
  {
    var t, after := s[..i + 1], Place(before, s[i]);
    forall k, c | k in after && c in after[k]
      ensures after[k][c] == Group(t, k, c) && after[k][c] != []
    {
      ListStep(s, i, before, k, c);
    }
    forall k | k in after
      ensures after[k] != map[]
    {
      if k == WindowKeyOf(s[i].eventTime.value.instant) {
        assert s[i].customerId.value in after[k];
      }
    }
    forall j | 0 <= j < |t|
      ensures Batchable(t[j])
      ensures var k := WindowKeyOf(t[j].eventTime.value.instant);
              k in after && t[j].customerId.value in after[k]
    {
      if j < i {
        assert t[j] == s[..i][j];
      }
    }
  }

  /** Lines 211-235: builds the nested dictionary in one pass; `None` when an event makes it raise. */
  method BatchByTimeWindow(stream: seq<RawEvent>) returns (r: Option<Batches>)
    ensures r.Some? <==> forall i :: 0 <= i < |stream| ==> Batchable(stream[i])
    ensures r.Some? ==> Grouped(stream, r.value)
  {
    var batches: Batches := map[];
    var i := 0;
    while i < |stream|
      invariant 0 <= i <= |stream|
      invariant Grouped(stream[..i], batches)
    {
      ghost var before := batches;
      var event := stream[i];
      if !Batchable(event) {
        return None;
      }
      var windowKey := WindowKeyOf(event.eventTime.value.instant);
      // `batches[window_key]`, created empty when absent
      var window := if windowKey in batches then batches[windowKey] else map[];
      var customerId := event.customerId.value;
      // `batches[window_key][customer_id]`, created empty when absent
      var list := if customerId in window then window[customerId] else [];
      batches := batches[windowKey := window[customerId := list + [event]]];
      GroupedStep(stream, i, before);
      ghost var done := stream[..i + 1];
      i := i + 1;
      assert done == stream[..i];
    }
    assert stream[..i] == stream;
    r := Some(batches);
  }
}
