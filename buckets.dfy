/**
 * A customer's daily ledger: one bucket per calendar day holding the summed amount (in cents)
 * and the number of transactions of that day, and the feature snapshot derived from it.
 */
module Buckets {
  /** A calendar date as a day number; see module Clock. */
  type Day = int

  /** `{"amount": ..., "count": ...}` for one day. */
  datatype Bucket = Bucket(amount: nat, count: nat)

  /** The `daily_sums` dictionary of one customer. */
  type DailySums = map<Day, Bucket>

  /** The features dictionary: `total_txn_30d`, `total_amount_30d`, `avg_amount_30d`. */
  datatype Features = Features(totalTxn30d: nat, totalAmount30d: nat, avgAmount30d: real)

  /** The snapshot of a customer without any retained bucket. */
  const ZeroFeatures: Features := Features(0, 0, 0.0)

  function Plus(a: Bucket, b: Bucket): Bucket
  {
    Bucket(a.amount + b.amount, a.count + b.count)
  }

  /** Every stored bucket records at least one transaction. */
  predicate AllCounted(m: DailySums)
  {
    forall d :: d in m ==> m[d].count >= 1
  }

  /** `k` is the earliest day of `s`. */
  predicate IsLeast(k: Day, s: set<Day>)
  {
    k in s && forall j :: j in s ==> k <= j
  }

  lemma {:induction false} MinExists(s: set<Day>)
    requires s != {}
    ensures exists k :: IsLeast(k, s)
    decreases |s|
  {
    if forall y :: y !in s {
      assert false;
    }
    var x :| x in s;
    var rest := s - {x};
    if forall y :: y !in rest {
      forall j | j in s
        ensures x <= j
      {
        assert j == x || j in rest;
      }
      assert IsLeast(x, s);
    } else {
      MinExists(rest);
      var k :| IsLeast(k, rest);
      var least := if x < k then x else k;
      forall j | j in s
        ensures least <= j
      {
        if j != x {
          assert j in rest;
        }
      }
      assert IsLeast(least, s);
    }
  }

  /** The earliest day of a non-empty set of days. */
  function MinKey(s: set<Day>): (k: Day)
    requires s != {}
    ensures k in s
    ensures forall j :: j in s ==> k <= j
  {
    MinExists(s);
    var k :| IsLeast(k, s);
    k
  }

  /**
   * The element-wise sum of all buckets: `sum(count)` and `sum(amount)` over `daily_sums.values()`,
   * taken in ascending date order (TotalRemove shows that the order does not matter).
   */
  function Total(m: DailySums): Bucket
    decreases |m|
  {
    if m == map[] then Bucket(0, 0)
    else
      var d := MinKey(m.Keys);
      assert |m - {d}| < |m| by { assert (m - {d}).Keys == m.Keys - {d}; }
      Plus(m[d], Total(m - {d}))
  }

  /** The sum does not depend on which bucket is taken first: any one bucket can be split off. */
  lemma {:induction false} TotalRemove(m: DailySums, d: Day)
    requires d in m
    ensures Total(m) == Plus(m[d], Total(m - {d}))
    decreases |m|
  {
    var k := MinKey(m.Keys);
    assert (m - {k}).Keys == m.Keys - {k};
    if k != d {
      TotalRemove(m - {k}, d);
      var rest := m - {d};
      assert rest.Keys == m.Keys - {d};
      assert k in rest;
      assert MinKey(rest.Keys) == k;
      assert rest - {k} == m - {k} - {d};
    }
  }

  /** With every bucket counted, the transaction total is at least the number of days. */
  lemma {:induction false} TotalCountAtLeastDays(m: DailySums)
    requires AllCounted(m)
    ensures Total(m).count >= |m|
    decreases |m|
  {
    if m != map[] {
      var d := MinKey(m.Keys);
      assert (m - {d}).Keys == m.Keys - {d};
      TotalCountAtLeastDays(m - {d});
    }
  }

  /**
   * `update_daily_sum` on one ledger: the bucket of `day` is created empty if absent, then
   * receives `amount` and one more transaction.
   */
  function AddToBucket(m: DailySums, day: Day, amount: nat): (r: DailySums)
    ensures r.Keys == m.Keys + {day}
    ensures forall d :: d in m && d != day ==> r[d] == m[d]
    ensures AllCounted(m) ==> AllCounted(r)
  {
    var prior := if day in m then m[day] else Bucket(0, 0);
    m[day := Bucket(prior.amount + amount, prior.count + 1)]
  }

  /** Adding an event raises the totals by exactly its amount and exactly one transaction. */
  lemma TotalAfterAdd(m: DailySums, day: Day, amount: nat)
    ensures Total(AddToBucket(m, day, amount)) == Plus(Total(m), Bucket(amount, 1))
  {
    var r := AddToBucket(m, day, amount);
    TotalRemove(r, day);
    assert r - {day} == m - {day};
    if day in m {
      TotalRemove(m, day);
    } else {
      assert m - {day} == m;
    }
  }

  /** `evict_old_events` on one ledger: keep exactly the buckets dated on or after `cutoffDay`. */
  function Evict(m: DailySums, cutoffDay: Day): (r: DailySums)
  {
    map d | d in m && d >= cutoffDay :: m[d]
  }

  /** Eviction keeps exactly the days at or after the cutoff, with their buckets untouched. */
  lemma EvictKeepsExactly(m: DailySums, cutoffDay: Day)
    ensures forall d :: d in Evict(m, cutoffDay) <==> d in m && d >= cutoffDay
    ensures forall d :: d in Evict(m, cutoffDay) ==> Evict(m, cutoffDay)[d] == m[d]
    ensures AllCounted(m) ==> AllCounted(Evict(m, cutoffDay))
  {
  }

  /** Eviction deletes exactly the keys dated before the cutoff. */
  lemma EvictRemovesOld(m: DailySums, cutoffDay: Day)
    ensures Evict(m, cutoffDay) == m - (set d | d in m && d < cutoffDay)
  {
  }

  /** Evicting twice with the same cutoff is the same as evicting once. */
  lemma EvictIdempotent(m: DailySums, cutoffDay: Day)
    ensures Evict(Evict(m, cutoffDay), cutoffDay) == Evict(m, cutoffDay)
  {
  }

  /** A ledger whose days are all at or after the cutoff is left as it is. */
  lemma EvictNothingOld(m: DailySums, cutoffDay: Day)
    requires forall d :: d in m ==> d >= cutoffDay
    ensures Evict(m, cutoffDay) == m
  {
  }

  /** An event dated before the cutoff is added and then evicted again: no net effect. */
  lemma EvictAfterLateAdd(m: DailySums, day: Day, amount: nat, cutoffDay: Day)
    requires day < cutoffDay
    ensures Evict(AddToBucket(m, day, amount), cutoffDay) == Evict(m, cutoffDay)
  {
  }

  /** Eviction can only lower the totals. */
  lemma {:induction false} TotalOfSubmap(m: DailySums, sub: DailySums)
    requires sub.Keys <= m.Keys
    requires forall d :: d in sub ==> sub[d] == m[d]
    ensures Total(sub).count <= Total(m).count && Total(sub).amount <= Total(m).amount
    decreases |m|
  {
    if m != map[] {
      var d := MinKey(m.Keys);
      assert (m - {d}).Keys == m.Keys - {d};
      if d in sub {
        TotalRemove(sub, d);
        assert (sub - {d}).Keys == sub.Keys - {d};
        TotalOfSubmap(m - {d}, sub - {d});
      } else {
        TotalOfSubmap(m - {d}, sub);
      }
    }
  }

  /**
   * `_compute_features` on one ledger: the all-zero snapshot for an empty ledger, otherwise the
   * sums of counts and amounts and their exact mean.
   */
  function FeaturesOf(m: DailySums): (f: Features)
    requires AllCounted(m)
    ensures f.totalTxn30d == Total(m).count && f.totalAmount30d == Total(m).amount
    ensures f.totalTxn30d == 0 <==> m == map[]
    ensures f.totalTxn30d >= |m|
    ensures m == map[] ==> f == ZeroFeatures
  {
    if m == map[] then ZeroFeatures
    else
      var t := Total(m);
      TotalCountAtLeastDays(m);
      Features(t.count, t.amount, t.amount as real / t.count as real)
  }

  /** The average is the exact mean: it times the transaction count gives the amount total. */
  lemma AverageIsMean(m: DailySums)
    requires AllCounted(m)
    ensures FeaturesOf(m).avgAmount30d * (FeaturesOf(m).totalTxn30d as real) == FeaturesOf(m).totalAmount30d as real
  {
  }
}
