/**
 * `FeatureBuilder`: the consumer that runs each incoming event through the checks, the
 * idempotency table, the daily ledger, the watermark, eviction and the feature recomputation.
 *
 * `Process` states what one call of `process_event` does to the whole state (seen set, all
 * ledgers, watermark) and what it returns; the class method `ProcessEvent` is proved to do
 * exactly that, and the lemmas below state the properties promised of `Process`: skips change
 * nothing, the watermark only advances, snapshots stay current and ledgers stay bounded.
 */
module Builder {
  import opened Wrappers
  import opened Clock
  import opened Buckets
  import opened Events
  import opened Store

  /** Everything `process_event` reads or writes: the store's two tables and `max_event_time`. */
  datatype EngineState = EngineState(seen: set<string>, balances: map<string, Customer>, maxEventTime: Option<int>)

  predicate WellFormed(s: EngineState)
  {
    AllLedgersCounted(s.balances)
  }

  /**
   * Lines 202-205: the first applied event sets the watermark; later ones move it to the
   * maximum.  There is one watermark for all customers.
   */
  function Advance(w: Option<int>, t: int): (r: int)
    ensures r >= t
    ensures w.Some? ==> r >= w.value
    ensures r == t || (w.Some? && r == w.value)
  {
    if w.None? then t else Max(w.value, t)
  }

  /** The ledger of customer `c` after adding an event at `t` (line 200) and evicting (line 207). */
  function IngestedSums(s: EngineState, c: string, t: int, amount: nat): (r: DailySums)
    requires WellFormed(s)
    ensures AllCounted(r)
    ensures forall d :: d in r ==> d >= DayOf(Cutoff(Advance(s.maxEventTime, t)))
  {
    var added := AddToBucket(CustomerOf(s.balances, c).dailySums, DayOf(t), amount);
    Evict(added, DayOf(Cutoff(Advance(s.maxEventTime, t))))
  }

  /** One call of `process_event`: the new state and the returned features (`None` for a skip). */
  function Process(s: EngineState, e: RawEvent): (r: (EngineState, Option<Features>))
    requires WellFormed(s)
    ensures WellFormed(r.0)
  {
    match Admit(e)
    case None => (s, None)
    case Some(a) =>
      if a.eventId in s.seen then (s, None)
      else
        var seen := s.seen + {a.eventId};
        match FromIsoFormat(a.eventTime)
        case None => (s.(seen := seen), None)
        case Some(t) =>
          match ParseAmount(a.amount)
          case None => (s.(seen := seen), None)
          case Some(amount) =>
            var sums := IngestedSums(s, a.customerId, t, amount);
            var f := FeaturesOf(sums);
            (EngineState(seen, s.balances[a.customerId := Customer(sums, Some(f))],
                         Some(Advance(s.maxEventTime, t))),
             Some(f))
  }

  /** An event missing a key or with a malformed customer id is skipped and changes nothing. */
  lemma RejectedEventChangesNothing(s: EngineState, e: RawEvent)
    requires WellFormed(s)
    requires !HasRequiredFields(e) || !e.customerId.value.Text? || !IsCustomerId(e.customerId.value.id)
    ensures Process(s, e) == (s, None)
  {
  }

  /** An event whose id was seen before is skipped and changes nothing. */
  lemma DuplicateChangesNothing(s: EngineState, e: RawEvent)
    requires WellFormed(s)
    requires e.eventId.Some? && e.eventId.value in s.seen
    ensures Process(s, e) == (s, None)
  {
  }

  /** Re-ingesting an event right after ingesting it is skipped and changes nothing. */
  lemma ReingestIsIdempotent(s: EngineState, e: RawEvent)
    requires WellFormed(s)
    ensures Process(Process(s, e).0, e) == (Process(s, e).0, None)
  {
  }

  /**
   * An admitted, fresh event with an unparseable time or a bad amount is marked seen (line 181
   * runs before the checks of lines 185-199) but touches no ledger and not the watermark.
   */
  lemma BadTimeOrAmountIsOnlyMarkedSeen(s: EngineState, e: RawEvent)
    requires WellFormed(s)
    requires Admit(e).Some? && Admit(e).value.eventId !in s.seen
    requires FromIsoFormat(Admit(e).value.eventTime).None? || ParseAmount(Admit(e).value.amount).None?
    ensures Process(s, e) == (s.(seen := s.seen + {Admit(e).value.eventId}), None)
  {
  }

  /** An admitted, fresh event with a valid time and amount is applied to its customer's ledger. */
  lemma GoodEventIsApplied(s: EngineState, e: RawEvent, t: int, amount: nat)
    requires WellFormed(s)
    requires Admit(e).Some? && Admit(e).value.eventId !in s.seen
    requires FromIsoFormat(Admit(e).value.eventTime) == Some(t) && ParseAmount(Admit(e).value.amount) == Some(amount)
    ensures var a := Admit(e).value;
            var sums := IngestedSums(s, a.customerId, t, amount);
            Process(s, e) == (EngineState(s.seen + {a.eventId},
                                          s.balances[a.customerId := Customer(sums, Some(FeaturesOf(sums)))],
                                          Some(Advance(s.maxEventTime, t))),
                              Some(FeaturesOf(sums)))
  {
  }

  /** The seen set and the set of customers with a ledger only grow; an admitted id is seen afterwards. */
  lemma SeenAndLedgersOnlyGrow(s: EngineState, e: RawEvent)
    requires WellFormed(s)
    ensures s.seen <= Process(s, e).0.seen
    ensures s.balances.Keys <= Process(s, e).0.balances.Keys
    ensures Admit(e).Some? ==> Admit(e).value.eventId in Process(s, e).0.seen
  {
  }

  /** The watermark never moves back, and after an applied event it is at least that event's time. */
  lemma WatermarkNeverDecreases(s: EngineState, e: RawEvent)
    requires WellFormed(s)
    ensures s.maxEventTime.Some? ==> Process(s, e).0.maxEventTime.Some?
    ensures s.maxEventTime.Some? ==> Process(s, e).0.maxEventTime.value >= s.maxEventTime.value
    ensures Process(s, e).1.Some? ==>
              Process(s, e).0.maxEventTime.Some?
              && Process(s, e).0.maxEventTime.value >= FromIsoFormat(Admit(e).value.eventTime).value
  {
  }

  /** Only the event's own customer's record can change; every other customer's is untouched. */
  lemma OtherCustomersUnchanged(s: EngineState, e: RawEvent, c: string)
    requires WellFormed(s)
    requires Admit(e).None? || c != Admit(e).value.customerId
    ensures CustomerOf(Process(s, e).0.balances, c) == CustomerOf(s.balances, c)
  {
  }

  /**
   * After an applied event, its customer's ledger is the old ledger plus the event, minus every
   * bucket dated before `(max_event_time - 35 days).date()`; the stored and the returned
   * features are those of that ledger, and its totals grew by at most the event.
   */
  lemma AppliedEventUpdatesItsLedger(s: EngineState, e: RawEvent)
    requires WellFormed(s)
    requires Admit(e).Some? && Admit(e).value.eventId !in s.seen
    requires FromIsoFormat(Admit(e).value.eventTime).Some? && ParseAmount(Admit(e).value.amount).Some?
    ensures var a := Admit(e).value;
            var s1 := Process(s, e).0;
            var sums := CustomerOf(s1.balances, a.customerId).dailySums;
            var old_ := CustomerOf(s.balances, a.customerId).dailySums;
            var t := FromIsoFormat(a.eventTime).value;
            var amount := ParseAmount(a.amount).value;
            && s1.maxEventTime == Some(Advance(s.maxEventTime, t))
            && (forall d :: d in sums ==> d >= DayOf(s1.maxEventTime.value) - 35)
            && sums == Evict(AddToBucket(old_, DayOf(t), amount), DayOf(s1.maxEventTime.value) - 35)
            && CustomerOf(s1.balances, a.customerId).features == Process(s, e).1
            && Process(s, e).1 == Some(FeaturesOf(sums))
            && Total(sums).count <= Total(old_).count + 1
            && Total(sums).amount <= Total(old_).amount + amount
  {
    var a := Admit(e).value;
    var t := FromIsoFormat(a.eventTime).value;
    var amount := ParseAmount(a.amount).value;
    var w := Advance(s.maxEventTime, t);
    var old_ := CustomerOf(s.balances, a.customerId).dailySums;
    var added := AddToBucket(old_, DayOf(t), amount);
    CutoffDayIs35DaysBack(w);
    TotalAfterAdd(old_, DayOf(t), amount);
    TotalOfSubmap(added, Evict(added, DayOf(Cutoff(w))));
  }

  /**
   * A late event whose day is already before the cutoff, for a customer whose ledger holds
   * nothing older than the cutoff, is added and evicted at once: that customer's buckets stay as
   * they were and the returned snapshot is the one of the unchanged ledger.
   */
  lemma LateEventLeavesSnapshotUnchanged(s: EngineState, e: RawEvent)
    requires WellFormed(s)
    requires Admit(e).Some? && Admit(e).value.eventId !in s.seen
    requires FromIsoFormat(Admit(e).value.eventTime).Some? && ParseAmount(Admit(e).value.amount).Some?
    requires s.maxEventTime.Some?
    requires DayOf(FromIsoFormat(Admit(e).value.eventTime).value) < DayOf(s.maxEventTime.value) - 35
    requires forall d :: d in CustomerOf(s.balances, Admit(e).value.customerId).dailySums ==>
               d >= DayOf(s.maxEventTime.value) - 35
    ensures Process(s, e).0.maxEventTime == s.maxEventTime
    ensures CustomerOf(Process(s, e).0.balances, Admit(e).value.customerId).dailySums
            == CustomerOf(s.balances, Admit(e).value.customerId).dailySums
    ensures Process(s, e).1 == Some(FeaturesOf(CustomerOf(s.balances, Admit(e).value.customerId).dailySums))
  {
  }

  /**
   * Why LateEventLeavesSnapshotUnchanged needs its proviso: the watermark is shared by all
   * customers.  Customer C002 has moved it to day 100 while C001 still holds a bucket at day 0;
   * a late C001 event at day 10 then evicts both C001 buckets, and the snapshot returned for
   * C001 is the all-zero one.
   */
  lemma GlobalWatermarkEmptiesLateCustomer()
    ensures var s := EngineState({"e0"},
                                 map["C001" := Customer(map[0 := Bucket(1000, 1)], None),
                                     "C002" := Customer(map[100 := Bucket(2000, 1)], None)],
                                 Some(100 * SecondsPerDay));
            var e := RawEvent(Some("e1"), Some(Text("C001")), Some(IsoInstant(10 * SecondsPerDay)),
                              Some("transaction"), Some(Number(500)));
            && WellFormed(s)
            && Process(s, e).1 == Some(ZeroFeatures)
            && CustomerOf(Process(s, e).0.balances, "C001").dailySums == map[]
            && Process(s, e).0.maxEventTime == s.maxEventTime
  {
    var s := EngineState({"e0"},
                         map["C001" := Customer(map[0 := Bucket(1000, 1)], None),
                             "C002" := Customer(map[100 := Bucket(2000, 1)], None)],
                         Some(100 * SecondsPerDay));
    var e := RawEvent(Some("e1"), Some(Text("C001")), Some(IsoInstant(10 * SecondsPerDay)),
                      Some("transaction"), Some(Number(500)));
    assert IsCustomerId("C001");
    assert Admit(e) == Some(Admitted("e1", "C001", IsoInstant(10 * SecondsPerDay), Number(500)));
    assert "e1" !in s.seen;
    var added := AddToBucket(map[0 := Bucket(1000, 1)], 10, 500);
    assert added.Keys == {0, 10};
    CutoffDayIs35DaysBack(100 * SecondsPerDay);
    assert Evict(added, 65) == map[];
    assert IngestedSums(s, "C001", 10 * SecondsPerDay, 500) == map[];
  }

  /** The state a fresh store and builder start from satisfies every invariant stated here. */
  lemma InitialStateInvariants()
    ensures WellFormed(EngineState({}, map[], None))
    ensures FeaturesCurrent(EngineState({}, map[], None))
    ensures NoBucketAfterWatermark(EngineState({}, map[], None))
  {
  }

  /** Every stored features field agrees with its ledger. */
  predicate FeaturesCurrent(s: EngineState)
    requires WellFormed(s)
  {
    forall c :: c in s.balances && s.balances[c].features.Some? ==>
      s.balances[c].features.value == FeaturesOf(s.balances[c].dailySums)
  }

  /** Processing keeps every stored snapshot in agreement with its ledger. */
  lemma ProcessKeepsFeaturesCurrent(s: EngineState, e: RawEvent)
    requires WellFormed(s) && FeaturesCurrent(s)
    ensures FeaturesCurrent(Process(s, e).0)
  {
  }

  /** No bucket of any customer is dated after the watermark's day. */
  predicate NoBucketAfterWatermark(s: EngineState)
  {
    forall c, d :: c in s.balances && d in s.balances[c].dailySums ==>
      s.maxEventTime.Some? && d <= DayOf(s.maxEventTime.value)
  }

  /** Processing keeps every bucket at or before the watermark's day. */
  lemma ProcessKeepsBucketsBeforeWatermark(s: EngineState, e: RawEvent)
    requires WellFormed(s) && NoBucketAfterWatermark(s)
    ensures NoBucketAfterWatermark(Process(s, e).0)
  {
  }

  /** The days `lo`, `lo + 1`, ..., `lo + n - 1`. */
  function DayRange(lo: Day, n: nat): (r: set<Day>)
    ensures forall d :: d in r <==> lo <= d < lo + n
    ensures |r| == n
    decreases n
  {
    if n == 0 then {}
    else
      var r := DayRange(lo, n - 1) + {lo + n - 1};
      assert lo + n - 1 !in DayRange(lo, n - 1);
      r
  }

  lemma {:induction false} SubsetCardinality(a: set<Day>, b: set<Day>)
    requires a <= b
    ensures |a| <= |b|
    decreases |b|
  {
    if a != {} {
      if forall y :: y !in a {
        assert false;
      }
      var x :| x in a;
      SubsetCardinality(a - {x}, b - {x});
    }
  }

  /** A ledger whose days all lie within 36 consecutive days holds at most 36 buckets. */
  lemma LedgerWithin36DaysIsSmall(m: DailySums, lo: Day)
    requires forall d :: d in m ==> lo <= d <= lo + 35
    ensures |m| <= 36
  {
    assert m.Keys <= DayRange(lo, 36);
    SubsetCardinality(m.Keys, DayRange(lo, 36));
  }

  /**
   * With every bucket at or before the watermark's day, the ledger just processed holds at most
   * 36 buckets: the days from 35 days before the watermark's day up to that day.
   */
  lemma ProcessedLedgerHoldsAtMost36Days(s: EngineState, e: RawEvent)
    requires WellFormed(s) && NoBucketAfterWatermark(s)
    requires Admit(e).Some? && Admit(e).value.eventId !in s.seen
    requires FromIsoFormat(Admit(e).value.eventTime).Some? && ParseAmount(Admit(e).value.amount).Some?
    ensures |CustomerOf(Process(s, e).0.balances, Admit(e).value.customerId).dailySums| <= 36
  {
    var s1 := Process(s, e).0;
    var c := Admit(e).value.customerId;
    ProcessKeepsBucketsBeforeWatermark(s, e);
    AppliedEventUpdatesItsLedger(s, e);
    var hi := DayOf(s1.maxEventTime.value);
    var sums := CustomerOf(s1.balances, c).dailySums;
    assert c in s1.balances;
    assert forall d :: d in sums ==> d <= hi;
    LedgerWithin36DaysIsSmall(sums, hi - 35);
  }

  class FeatureBuilder {
    const stateStore: StateStore
    /** `max_event_time`; `None` while the attribute does not exist yet. */
    var maxEventTime: Option<int>

    ghost function Abstract(): EngineState
      reads this, stateStore
    {
      EngineState(stateStore.seenEventIds, stateStore.balances, maxEventTime)
    }

    ghost predicate Valid()
      reads this, stateStore
    {
      stateStore.Valid()
    }

    constructor (store: StateStore)
      requires store.Valid()
      ensures Valid()
      ensures stateStore == store && maxEventTime == None
    {
      stateStore := store;
      maxEventTime := None;
    }

    /** `_evict_old_events`: evicts with the cutoff 35 days before `referenceTime`. */
    method EvictOldEvents(customerId: string, referenceTime: int)
      requires Valid()
      modifies stateStore
      ensures Valid()
      ensures var old_ := CustomerOf(old(stateStore.balances), customerId);
              stateStore.balances == old(stateStore.balances)[customerId :=
                old_.(dailySums := Evict(old_.dailySums, DayOf(Cutoff(referenceTime))))]
      ensures stateStore.seenEventIds == old(stateStore.seenEventIds)
    {
      var cutoff := referenceTime - Window30d - GracePeriod;
      stateStore.EvictOldEvents(customerId, cutoff);
    }

    /** `_compute_features`: recomputes the customer's snapshot, stores it and returns it. */
    method ComputeFeatures(customerId: string) returns (features: Features)
      requires Valid()
      modifies stateStore
      ensures Valid()
      ensures features == FeaturesOf(CustomerOf(old(stateStore.balances), customerId).dailySums)
      ensures stateStore.balances == old(stateStore.balances)[customerId :=
                CustomerOf(old(stateStore.balances), customerId).(features := Some(features))]
      ensures stateStore.seenEventIds == old(stateStore.seenEventIds)
    {
      var customer := stateStore.GetCustomer(customerId);
      var events := customer.dailySums;
      if events == map[] {
        features := Features(0, 0, 0.0);
        stateStore.UpdateCustomerFeatures(customerId, features);
        return;
      }
      var totals := Total(events);
      TotalCountAtLeastDays(events);
      features := Features(totals.count, totals.amount, totals.amount as real / totals.count as real);
      stateStore.UpdateCustomerFeatures(customerId, features);
    }

    /** Lines 200-208: add the event to its bucket, advance the watermark, evict and recompute. */
    method ApplyEvent(customerId: string, eventTime: int, amount: nat) returns (features: Features)
      requires Valid()
      modifies this, stateStore
      ensures Valid()
      ensures var sums := IngestedSums(old(Abstract()), customerId, eventTime, amount);
              && features == FeaturesOf(sums)
              && Abstract() == old(Abstract()).(balances := old(stateStore.balances)[customerId := Customer(sums, Some(features))],
                                                 maxEventTime := Some(Advance(old(maxEventTime), eventTime)))
    {
      ghost var s0 := Abstract();
      ghost var before := CustomerOf(s0.balances, customerId);
      ghost var added := AddToBucket(before.dailySums, DayOf(eventTime), amount);
      stateStore.UpdateDailySum(customerId, eventTime, amount);
      ghost var withEvent := s0.balances[customerId := before.(dailySums := added)];
      assert stateStore.balances == withEvent;
      if maxEventTime.None? {
        maxEventTime := Some(eventTime);
      } else {
        maxEventTime := Some(Max(maxEventTime.value, eventTime));
      }
      ghost var w := Advance(s0.maxEventTime, eventTime);
      assert maxEventTime == Some(w);
      EvictOldEvents(customerId, maxEventTime.value);
      ghost var sums := IngestedSums(s0, customerId, eventTime, amount);
      assert sums == Evict(added, DayOf(Cutoff(w)));
      assert CustomerOf(withEvent, customerId) == before.(dailySums := added);
      ghost var evicted := withEvent[customerId := before.(dailySums := sums)];
      assert stateStore.balances == evicted;
      assert CustomerOf(evicted, customerId) == before.(dailySums := sums);
      features := ComputeFeatures(customerId);
      assert features == FeaturesOf(sums);
      assert stateStore.balances == evicted[customerId := Customer(sums, Some(features))];
      OverwriteCustomer(s0.balances, customerId, before.(dailySums := added), before.(dailySums := sums));
      OverwriteCustomer(s0.balances, customerId, before.(dailySums := sums), Customer(sums, Some(features)));
      assert stateStore.seenEventIds == s0.seen;
    }

    /** `process_event`: does exactly what `Process` describes. */
    method ProcessEvent(event: RawEvent) returns (result: Option<Features>)
      requires Valid()
      modifies this, stateStore
      ensures Valid()
      ensures (Abstract(), result) == Process(old(Abstract()), event)
    {
      ghost var s0 := Abstract();
      var admitted := Admit(event);
      if admitted.None? {
        RejectedEventChangesNothing(s0, event);
        return None;
      }
      var a := admitted.value;
      var duplicate := stateStore.IsDuplicate(a.eventId);
      if duplicate {
        DuplicateChangesNothing(s0, event);
        return None;
      }
      stateStore.MarkSeen(a.eventId);
      var eventTime := FromIsoFormat(a.eventTime);
      if eventTime.None? {
        BadTimeOrAmountIsOnlyMarkedSeen(s0, event);
        return None;
      }
      var amount := ParseAmount(a.amount);
      if amount.None? {
        BadTimeOrAmountIsOnlyMarkedSeen(s0, event);
        return None;
      }
      var features := ApplyEvent(a.customerId, eventTime.value, amount.value);
      GoodEventIsApplied(s0, event, eventTime.value, amount.value);
      result := Some(features);
    }
  }
}
