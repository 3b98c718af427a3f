# Streaming feature builder, modelled in Dafny

The modelled system is the consumer side of a small streaming pipeline. Transaction events
arrive as dictionaries carrying an event id, a customer id (`C###`), an ISO event time, an event
type and an amount. `FeatureBuilder.process_event` handles each one as follows:

- it checks the event and drops duplicates using an idempotency set of seen event ids;
- it adds the amount to the customer's bucket for that calendar day (`daily_sums`);
- it advances one global watermark (`max_event_time`);
- it deletes the buckets dated more than 35 days (30 plus 5 days of grace) before the
  watermark's date;
- it recomputes the customer's rolling features (`total_txn_30d`, `total_amount_30d`,
  `avg_amount_30d`), stores them and returns them.

`StateStore` is the in-memory table behind this. `batch_by_time_window` groups a stream of events
into 5-minute tumbling windows and, inside each window, by customer.

Layout:

- `wrappers.dfy` (`Wrappers`): `Option`.
- `clock.dfy` (`Clock`): instants are whole seconds since the epoch in UTC. A calendar date is a
  day number. The module also holds the window and grace constants and the eviction cutoff.
- `buckets.dfy` (`Buckets`): one customer's daily ledger. It covers adding an event, eviction,
  totals and the feature snapshot, all as pure functions with lemmas.
- `events.dfy` (`Events`): the raw event dictionary, the admission checks, the time parse and the
  amount parse.
- `store.dfy` (`Store`): `class StateStore`, whose fields are the two tables. Its methods update
  those fields and are proved against the functions of `Buckets`.
- `builder.dfy` (`Builder`): `Process` is the pure description of one `process_event` call,
  together with the lemmas about it. It adds the validated amount at line 102, the corrected
  behaviour of "## Findings", where the code adds the raw field and raises for a numeric string.
  `class FeatureBuilder` has methods proved to do exactly what `Process` says.
- `batching.dfy` (`Batching`): `BatchByTimeWindow` is a loop proved to produce exactly the
  non-empty groups `Group` defines, with no empty window and no key that is not the window key
  of some event.

Amounts are whole cents (`nat`). The average is the exact rational quotient.

Where the intent the code names (a 30-day window, `WINDOW_30D` at line 19) and the code differ, the model follows the code (the one
exception is the bug of "## Findings", where the model takes the evidently intended behaviour):

- there is one watermark shared by all customers, not one per customer;
- the cutoff is 35 days back, and buckets are compared by date with a strict `<`;
- `event_type` must be present but its value is never checked;
- an event whose time or amount is malformed has already been marked seen, because `mark_seen`
  runs before those checks, so re-sending a corrected event with the same id is ignored.

## Model

| member | source | states |
|---|---|---|
| Clock.DayOf | src/feature_builder.py:96 | reference definition of `.date()` on an instant: the floor of the seconds divided by 86400 |
| Clock.Cutoff | src/feature_builder.py:131 | reference definition of the eviction cutoff: the reference time minus 30 days minus 5 days |
| Clock.CutoffDayIs35DaysBack | src/feature_builder.py:19-20 | the cutoff date (reference − 30 days − 5 days) is exactly 35 calendar days before the reference date |
| Buckets.Total | src/feature_builder.py:151-152 | reference definition of the two sums over `daily_sums.values()`, taken in ascending date order; TotalRemove shows the order does not matter |
| Buckets.Evict | src/feature_builder.py:111-116 | reference definition of eviction: the ledger restricted to the days on or after the cutoff date |
| Buckets.AddToBucket | src/feature_builder.py:99-103 | the day's bucket exists afterwards; every other day is unchanged; no bucket is left without a transaction |
| Buckets.TotalAfterAdd | src/feature_builder.py:99-103 | adding an event raises the ledger's totals by exactly its amount and by one transaction |
| Buckets.TotalRemove | src/feature_builder.py:151-152 | the sums over `daily_sums.values()` do not depend on order: any bucket can be split off the total |
| Buckets.TotalCountAtLeastDays | src/feature_builder.py:151 | with every bucket counted, the transaction total is at least the number of stored days |
| Buckets.EvictRemovesOld | src/feature_builder.py:111-116 | eviction equals deleting exactly the keys dated before the cutoff date |
| Buckets.EvictKeepsExactly | src/feature_builder.py:111-116 | a day survives iff it was stored and is not before the cutoff; surviving buckets are untouched |
| Buckets.EvictIdempotent | src/feature_builder.py:109-116 | evicting twice with one cutoff equals evicting once |
| Buckets.EvictNothingOld | src/feature_builder.py:109-116 | a ledger with nothing before the cutoff is left unchanged |
| Buckets.EvictAfterLateAdd | src/feature_builder.py:200-207 | an event dated before the cutoff is added and evicted again, with no net effect on the ledger |
| Buckets.TotalOfSubmap | src/feature_builder.py:109-116 | eviction can only lower the transaction and amount totals |
| Buckets.FeaturesOf | src/feature_builder.py:142-158 | the snapshot's totals are the ledger's sums; the total is 0 iff the ledger is empty (then all-zero features); the total is at least the number of days |
| Buckets.AverageIsMean | src/feature_builder.py:157 | average × transaction count = amount total, so the average is the exact mean |
| Events.FormattedIdsPass | src/feature_builder.py:40 | every id the producer formats as `C%03d` passes the format check and spells back its number |
| Events.PassingIdsAreFormatted | src/feature_builder.py:172 | every id passing the check (length 4, `C`, three digits) is `C%03d` of some number below 1000 |
| Events.Admit | src/feature_builder.py:164-174 | an event is admitted iff all five keys are present and the customer id is a string of the form `C###`; an admitted event carries the dictionary's own fields |
| Store.UpdateDailySumAsWritten | src/feature_builder.py:99-103 | with the raw field added, the update succeeds iff the field is a number, and the day's bucket exists either way |
| Store.NumericTextAmountLeavesEmptyBucket | src/feature_builder.py:99-103 | a string amount "12.50" passes validation, then the update raises and leaves a non-empty ledger with a zero-transaction bucket and a transaction total of 0 |
| Store.EmptyBucketReachesTheAverage | src/feature_builder.py:142-157 | after the "12.50" event leaves day 100 empty, a valid event at day 10 under a day-100 watermark (set by another event) is added and evicted, leaving a non-empty ledger whose transaction total is 0, so the average of line 157 divides by zero once the caller has caught the TypeError |
| Store.UpdateDailySumCorrected | src/feature_builder.py:102 | adding the validated amount agrees with the code for numbers, keeps every bucket counted and raises the totals by exactly the event |
| Store.CustomerOf | src/feature_builder.py:85-90 | reference definition of the record a customer id has, or the empty one `get_customer` would create |
| Store.StateStore.constructor | src/feature_builder.py:71-74 | both tables start empty |
| Store.StateStore.IsDuplicate | src/feature_builder.py:77-78 | the answer is true iff the id is in the seen set; nothing changes |
| Store.StateStore.MarkSeen | src/feature_builder.py:81-82 | the seen set gains exactly the id; the balances are unchanged |
| Store.StateStore.GetCustomer | src/feature_builder.py:85-90 | returns the stored record, creating an empty one only when absent; nothing else changes |
| Store.StateStore.UpdateDailySum | src/feature_builder.py:92-103 | only this customer's ledger changes, and it becomes `AddToBucket` of the old ledger at the event's date |
| Store.StateStore.UpdateCustomerFeatures | src/feature_builder.py:105-107 | only this customer's `features` field changes, to the given snapshot |
| Store.StateStore.EvictOldEvents | src/feature_builder.py:109-116 | the deletion loop leaves this customer's ledger equal to `Evict` at the cutoff's date; nothing else changes |
| Builder.Advance | src/feature_builder.py:202-205 | the watermark is the first applied time, then the maximum; it is at least both the old watermark and the new time |
| Builder.IngestedSums | src/feature_builder.py:200-207 | the ledger after adding and evicting keeps every bucket counted and has no day before the cutoff date |
| Builder.Process | src/feature_builder.py:162-208 | one call of `process_event`, as a function of the whole state, keeps every ledger's buckets counted |
| Builder.RejectedEventChangesNothing | src/feature_builder.py:164-174 | an event with a missing key or a malformed customer id is skipped and changes nothing |
| Builder.DuplicateChangesNothing | src/feature_builder.py:176-179 | an event whose id was already seen is skipped and changes nothing |
| Builder.ReingestIsIdempotent | src/feature_builder.py:176-181 | processing the same event a second time right away is skipped and changes nothing |
| Builder.BadTimeOrAmountIsOnlyMarkedSeen | src/feature_builder.py:181-199 | an admitted fresh event with a bad time or amount is marked seen and changes nothing else |
| Builder.GoodEventIsApplied | src/feature_builder.py:200-208 | an admitted fresh event with a valid time and amount is marked seen; the watermark advances; its customer's ledger is added to, evicted and given the snapshot it returns |
| Builder.SeenAndLedgersOnlyGrow | src/feature_builder.py:81-90 | the seen set and the set of customers with a record never shrink; an admitted event's id is seen afterwards |
| Builder.WatermarkNeverDecreases | src/feature_builder.py:202-205 | the watermark never moves back, and after an applied event it is at least that event's time |
| Builder.OtherCustomersUnchanged | src/feature_builder.py:200-208 | no customer other than the event's own has their record changed |
| Builder.AppliedEventUpdatesItsLedger | src/feature_builder.py:200-208 | after an applied event, the ledger is the old one plus the event minus every day before the watermark date − 35; the stored and returned features are that ledger's; the totals grew by at most the event |
| Builder.LateEventLeavesSnapshotUnchanged | src/feature_builder.py:200-208 | an event dated before the cutoff leaves the watermark and its customer's ledger unchanged, and the snapshot returned is the one of the unchanged ledger, provided that ledger holds nothing older than the cutoff; the proviso is needed because the watermark is shared (see GlobalWatermarkEmptiesLateCustomer) |
| Builder.GlobalWatermarkEmptiesLateCustomer | src/feature_builder.py:202-207 | with the watermark moved to day 100 by customer C002, a late C001 event at day 10 evicts C001's bucket at day 0 and its own bucket and returns all-zero features |
| Builder.InitialStateInvariants | src/feature_builder.py:71-74 | the empty starting state keeps every bucket counted, has every snapshot current and no bucket after the watermark, so the invariants assumed by ProcessKeepsFeaturesCurrent, ProcessKeepsBucketsBeforeWatermark and ProcessedLedgerHoldsAtMost36Days hold from the start |
| Builder.ProcessKeepsFeaturesCurrent | src/feature_builder.py:207-208 | if every stored snapshot agrees with its ledger, this still holds after any event |
| Builder.ProcessKeepsBucketsBeforeWatermark | src/feature_builder.py:200-207 | if no bucket is dated after the watermark's date, this still holds after any event |
| Builder.LedgerWithin36DaysIsSmall | src/feature_builder.py:109-116 | a ledger whose days lie within 36 consecutive days holds at most 36 buckets |
| Builder.ProcessedLedgerHoldsAtMost36Days | src/feature_builder.py:200-207 | the ledger just processed holds at most 36 daily buckets (state bounded by the window) |
| Builder.FeatureBuilder.constructor | src/feature_builder.py:127-128 | the builder uses the given store and has no watermark yet |
| Builder.FeatureBuilder.EvictOldEvents | src/feature_builder.py:130-132 | evicts the customer's ledger at the date 35 days before the reference time; nothing else changes |
| Builder.FeatureBuilder.ComputeFeatures | src/feature_builder.py:134-160 | returns and stores `FeaturesOf` of the customer's ledger; only that customer's `features` field changes |
| Builder.FeatureBuilder.ApplyEvent | src/feature_builder.py:200-208 | adds the event, advances the watermark, evicts and recomputes, exactly as `Process` does for an applied event |
| Builder.FeatureBuilder.ProcessEvent | src/feature_builder.py:162-208 | the new state and the result are exactly `Process` of the old state and the event |
| Batching.WindowKeyOf | src/feature_builder.py:215-224 | the key holds the event's date, an hour in 0..23 and a minute in 0..55 that is a multiple of 5 |
| Batching.WindowSlot | src/feature_builder.py:218-224 | the key counts the 5-minute slots since the epoch (288 per day, 12 per hour) |
| Batching.SameKeyIffSameSlot | src/feature_builder.py:210-224 | two instants share a window key iff they fall in the same 5-minute tumbling window |
| Batching.Group | src/feature_builder.py:226-233 | a group has only events of the stream belonging to its window and customer |
| Batching.GroupContains | src/feature_builder.py:226-233 | every batchable event is in the group of its own window and customer |
| Batching.EveryWindowHoldsAnEvent | src/feature_builder.py:215-231 | every key of a grouping is the window key of some event of the stream, so its hour is in 0..23 and its minute a multiple of 5 in 0..55 |
| Batching.EveryEventInExactlyOneList | src/feature_builder.py:226-233 | in a grouping, every event lies in its own window and customer's list and in no other list |
| Batching.Place | src/feature_builder.py:226-233 | reference definition of one loop step: append the event to its window and customer's list, creating either when absent; the list exists afterwards |
| Batching.GroupedStep | src/feature_builder.py:226-233 | appending an event to its list turns a grouping of a prefix into one of the prefix one event longer |
| Batching.BatchByTimeWindow | src/feature_builder.py:211-235 | succeeds iff every event has a parseable time and a customer id; the result then holds every event, every window is non-empty, and every list is exactly the non-empty group of its window and customer, in stream order |

## Left out

- `simulated_kafka_stream` (the producer), `get_five_random_customers`, `save_on_file` and `main`
  are left out: they are randomness, clocks and file I/O. Only the producer's id format
  (line 40) is modelled, in `Events.FormatCustomerId`.
- `src/train_and_score.py` (model training and scoring) is not part of this model.
- Logging is left out. A skip is modelled as the result `None`.
- Floating point is left out. Amounts are whole cents, and `round(..., 2)` in
  `_compute_features` is not modelled: the totals are exact and the average is the exact quotient.
- NaN and infinite amounts are left out. (`float("nan") < 0` is false, so the code would accept
  a NaN amount.)
- Non-string values `float` accepts, such as booleans, are left out.
- Time zones are left out. An instant is read in UTC, and `.date()` of an instant with another
  offset, or of a naive time, is not modelled. Comparing a naive time with an aware one in `max`
  also raises, and that is not modelled either.
- The "Z" suffix is left out. Line 186 replaces it before parsing, but lines 95 and 215 do not,
  so on older Python versions those calls raise. The model parses one time value the same way
  everywhere.
- The parse is left abstract. What `fromisoformat` accepts is modelled as a value that either
  is an instant or is not.
- `str.isdigit` accepts other Unicode digits. The model's check takes ASCII digits only.
- Every non-string customer id is collapsed into one integer-valued case.
- Event ids are modelled as strings. The source accepts any hashable value.
- Python `dict` insertion order is not modelled, and neither is the `.values()` view returned by
  `batch_by_time_window`. `Batching.BatchByTimeWindow` returns the map itself. The unused
  `window_size` parameter is dropped.
- Aliasing is not modelled. The customer dictionaries that `get_customer` returns are modelled
  as values written back into `balances`, because the source mutates them in place.
- Builder.Process: adds the validated amount where line 102 adds the raw `amount` field; for a numeric-string amount the code raises TypeError after marking the event seen, leaving an empty bucket when the day had none, which `Store.UpdateDailySumAsWritten` models and `Process` does not.
- Builder.FeatureBuilder.ApplyEvent: adds the validated amount, not the raw field of line 102; the raising path is modelled only by `Store.UpdateDailySumAsWritten`.
- Builder.FeatureBuilder.ProcessEvent: equals `Process`, so it applies a numeric-string amount where the code raises TypeError at line 102; see `Store.UpdateDailySumAsWritten`.
- Store.StateStore.UpdateDailySum: takes the validated amount in cents, not the raw field of line 102, so it never raises; the as-written update is `Store.UpdateDailySumAsWritten`.
- Builder.FeatureBuilder.ComputeFeatures: the returned `total_amount_30d` and `avg_amount_30d` are exact, not rounded to two decimals as at lines 156-157.
- Batching.BatchByTimeWindow: an event whose time does not parse and an event without a
  customer id both give `None`. The model does not tell which exception was raised.

## Findings

| source | as written | input that shows it | evidently intended | confidence | as-written member | corrected member |
|---|---|---|---|---|---|---|
| src/feature_builder.py:102 | adds the raw `event["amount"]`, not the `float` validated at line 193; the bucket is created empty at line 100 first | a customer's first event (empty ledger) with `"amount": "12.50"` at day 100: it passes validation and is marked seen, line 100 stores `{"amount": 0.0, "count": 0}`, line 102 raises TypeError; the event is lost and the ledger is non-empty with a transaction total of 0. If the caller catches that TypeError (`main`, line 248, does not) and another event has moved the watermark to day 100 (the failing event raises before lines 202-205), a later valid event of that customer at day 10 is added and evicted at once, the ledger holds only the empty bucket, and line 157 raises ZeroDivisionError | add the validated amount and one transaction | not executed | Store.NumericTextAmountLeavesEmptyBucket | Store.UpdateDailySumCorrected |
