/**
 * `StateStore`: the in-memory stand-in for a key-value table.  It holds the idempotency set of
 * seen event ids and, per customer id, the customer record with its daily buckets and its
 * last computed features.
 */
module Store {
  import opened Wrappers
  import opened Clock
  import opened Buckets
  import opened Events

  /** One entry of `balances`: `{"daily_sums": {...}, "features": {...}}`; `features` is absent until first computed. */
  datatype Customer = Customer(dailySums: DailySums, features: Option<Features>)

  /** The record `get_customer` creates on first access. */
  const NewCustomer: Customer := Customer(map[], None)

  /** The record a customer id has, or would get from `get_customer`. */
  function CustomerOf(balances: map<string, Customer>, c: string): Customer
  {
    if c in balances then balances[c] else NewCustomer
  }

  /** Writing a customer's record twice leaves only the second write. */
  lemma OverwriteCustomer(balances: map<string, Customer>, c: string, first: Customer, second: Customer)
    ensures balances[c := first][c := second] == balances[c := second]
  {
  }

  /** No ledger holds a bucket without a transaction. */
  predicate AllLedgersCounted(balances: map<string, Customer>)
  {
    forall c :: c in balances ==> AllCounted(balances[c].dailySums)
  }

  /**
   * What lines 99-103 do to one ledger when handed the raw `amount` field of an event that
   * passed the check of lines 192-199.  The bucket is created empty first; the addition then
   * uses the raw field, which raises TypeError when that field is a numeric string.
   */
  datatype RawUpdate = Updated(sums: DailySums) | RaisedTypeError(sums: DailySums)

  function UpdateDailySumAsWritten(m: DailySums, day: Day, raw: AmountField): (r: RawUpdate)
    requires ParseAmount(raw).Some?
    ensures r.Updated? <==> raw.Number?
    ensures day in r.sums
  {
    var m1 := if day in m then m else m[day := Bucket(0, 0)];
    if raw.Number? then
      Updated(m1[day := Bucket(m1[day].amount + raw.cents, m1[day].count + 1)])
    else
      RaisedTypeError(m1)
  }

  /**
   * A first event of the day whose amount is the string "12.50" passes the amount check, then
   * the update raises and leaves a bucket with no transaction behind: the ledger is non-empty
   * yet its transaction total is 0, against what every other path keeps (`AllCounted`).
   */
  lemma NumericTextAmountLeavesEmptyBucket()
    ensures ParseAmount(NumericText(1250)) == Some(1250)
    ensures var r := UpdateDailySumAsWritten(map[], 100, NumericText(1250));
            r == RaisedTypeError(map[100 := Bucket(0, 0)])
            && !AllCounted(r.sums) && r.sums != map[] && Total(r.sums).count == 0
  {
  }

  /**
   * The empty bucket can outlive every counted one.  A "12.50" event leaves day 100 with no
   * transaction; a later valid event at day 10, with the watermark at day 100, is added and
   * evicted again at once (the cutoff day is 65).  Both need conditions outside this lemma: the
   * "12.50" event raises before line 202, so another event must have moved the watermark to
   * day 100, and the caller must have caught the TypeError (`main`, line 248, does not).  The ledger then holds only the empty bucket:
   * it is non-empty, so line 142 does not return early, and `total_txn` is 0, so the division
   * of line 157 raises ZeroDivisionError.
   */
  lemma EmptyBucketReachesTheAverage()
    ensures var m := UpdateDailySumAsWritten(map[], 100, NumericText(1250)).sums;
            var after := Evict(AddToBucket(m, 10, 500), DayOf(Cutoff(100 * SecondsPerDay)));
            after == map[100 := Bucket(0, 0)] && after != map[] && Total(after).count == 0
  {
    var m := UpdateDailySumAsWritten(map[], 100, NumericText(1250)).sums;
    assert m == map[100 := Bucket(0, 0)];
    var added := AddToBucket(m, 10, 500);
    assert added.Keys == {10, 100};
    CutoffDayIs35DaysBack(100 * SecondsPerDay);
    var after := Evict(added, 65);
    assert after == map[100 := Bucket(0, 0)];
    assert 100 in after.Keys;
    assert MinKey(after.Keys) == 100;
    assert after - {100} == map[];
  }

  /** The corrected update adds the validated amount; with a number it agrees with the code as written. */
  lemma UpdateDailySumCorrected(m: DailySums, day: Day, raw: AmountField)
    requires ParseAmount(raw).Some?
    ensures raw.Number? ==> UpdateDailySumAsWritten(m, day, raw).sums == AddToBucket(m, day, ParseAmount(raw).value)
    ensures AllCounted(m) ==> AllCounted(AddToBucket(m, day, ParseAmount(raw).value))
    ensures Total(AddToBucket(m, day, ParseAmount(raw).value)) == Plus(Total(m), Bucket(raw.cents, 1))
  {
    TotalAfterAdd(m, day, ParseAmount(raw).value);
  }

  class StateStore {
    /** `balances`: customer id to customer record. */
    var balances: map<string, Customer>
    /** `seen_event_ids`: the idempotency table. */
    var seenEventIds: set<string>

    ghost predicate Valid()
      reads this
    {
      AllLedgersCounted(balances)
    }

    constructor ()
      ensures Valid()
      ensures balances == map[] && seenEventIds == {}
    {
      balances := map[];
      seenEventIds := {};
    }

    method IsDuplicate(eventId: string) returns (dup: bool)
      ensures dup <==> eventId in seenEventIds
    {
      dup := eventId in seenEventIds;
    }

    method MarkSeen(eventId: string)
      requires Valid()
      modifies this
      ensures Valid()
      ensures seenEventIds == old(seenEventIds) + {eventId}
      ensures eventId in seenEventIds
      ensures balances == old(balances)
    {
      seenEventIds := seenEventIds + {eventId};
    }

    /** Creates an empty record on first access; afterwards returns the stored one unchanged. */
    method GetCustomer(customerId: string) returns (customer: Customer)
      requires Valid()
      modifies this
      ensures Valid()
      ensures balances == old(balances)[customerId := CustomerOf(old(balances), customerId)]
      ensures customer == balances[customerId] == CustomerOf(old(balances), customerId)
      ensures customerId in old(balances) ==> balances == old(balances)
      ensures seenEventIds == old(seenEventIds)
    {
      if customerId !in balances {
        balances := balances[customerId := Customer(map[], None)];
      }
      customer := balances[customerId];
    }

    /** Adds one event of `amount` cents at `eventTime` to its day's bucket (the corrected line 102). */
    method UpdateDailySum(customerId: string, eventTime: int, amount: nat)
      requires Valid()
      modifies this
      ensures Valid()
      ensures var old_ := CustomerOf(old(balances), customerId);
              balances == old(balances)[customerId :=
                old_.(dailySums := AddToBucket(old_.dailySums, DayOf(eventTime), amount))]
      ensures seenEventIds == old(seenEventIds)
    {
      var customer := GetCustomer(customerId);
      var dateKey := DayOf(eventTime);
      var sums := customer.dailySums;
      if dateKey !in sums {
        sums := sums[dateKey := Bucket(0, 0)];
      }
      sums := sums[dateKey := Bucket(sums[dateKey].amount + amount, sums[dateKey].count + 1)];
      assert sums == AddToBucket(customer.dailySums, dateKey, amount);
      balances := balances[customerId := customer.(dailySums := sums)];
    }

    method UpdateCustomerFeatures(customerId: string, features: Features)
      requires Valid()
      modifies this
      ensures Valid()
      ensures balances == old(balances)[customerId :=
                CustomerOf(old(balances), customerId).(features := Some(features))]
      ensures seenEventIds == old(seenEventIds)
    {
      var customer := GetCustomer(customerId);
      balances := balances[customerId := customer.(features := Some(features))];
    }

    /** Deletes every bucket dated strictly before the cutoff instant's date. */
    method EvictOldEvents(customerId: string, cutoff: int)
      requires Valid()
      modifies this
      ensures Valid()
      ensures var old_ := CustomerOf(old(balances), customerId);
              balances == old(balances)[customerId :=
                old_.(dailySums := Evict(old_.dailySums, DayOf(cutoff)))]
      ensures seenEventIds == old(seenEventIds)
    {
      var customer := GetCustomer(customerId);
      var keysToDelete := set d | d in customer.dailySums && d < DayOf(cutoff);
      var sums := customer.dailySums;
      var pending := keysToDelete;
      while pending != {}
        invariant pending <= keysToDelete
        invariant sums == customer.dailySums - (keysToDelete - pending)
        decreases |pending|
      {
        var key :| key in pending;
        sums := sums - {key};
        pending := pending - {key};
      }
      assert keysToDelete - pending == keysToDelete;
      EvictRemovesOld(customer.dailySums, DayOf(cutoff));
      balances := balances[customerId := customer.(dailySums := sums)];
    }
  }
}
