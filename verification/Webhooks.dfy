/** Any number of webhook batches at once: a batch locks its due deliveries (SKIP LOCKED), sends them, writes
    each result with an unguarded update and commits; it may be rolled back at any moment. */
module Webhooks {
  import opened Types
  import opened WebhookRules

  type BatchId = nat

  /** A claimed row: its owner and, once its result is written, the draft, the result and the clock read for it. */
  datatype Lock = Lock(owner: BatchId, write: Option<Write>)

  datatype Write = Write(draft: Delivery, result: SendResult, at: Time)

  /** One delivery: committed row, lock, number of committed sends, times of the committed failures. */
  datatype Item = Item(row: Delivery, lock: Option<Lock>, sends: nat, failures: seq<Time>)

  /** A batch in progress: when it claimed, the snapshots claim_due returned, and the results so far
      (None: the payment was not found, the delivery is skipped). */
  datatype Batch = Batch(now: Time, claimed: map<DeliveryId, Delivery>, results: map<DeliveryId, Option<SendResult>>)

  datatype State = State(clock: Time, items: map<DeliveryId, Item>, batches: map<BatchId, Batch>)

  datatype Action =
    | Create(id: DeliveryId)
    | Tick(to: Time)
    | Claim(b: BatchId, ids: set<DeliveryId>)
    | Send(b: BatchId, id: DeliveryId, result: Option<SendResult>)
    | Record(b: BatchId, id: DeliveryId)
    | Commit(b: BatchId)
    | Rollback(b: BatchId)

  predicate LockedBy(i: Item, b: BatchId) {
    i.lock.Some? && i.lock.value.owner == b
  }

  predicate Claimable(i: Item, now: Time) {
    i.lock.None? && Due(i.row, now)
  }

  /** The subquery of `claim_due`: due deliveries that no other batch has locked. */
  function ClaimableItems(s: State): set<DeliveryId> {
    set id | id in s.items && Claimable(s.items[id], s.clock)
  }

  function CreationTimesOf(s: State): map<DeliveryId, Time> {
    map id | id in s.items :: s.items[id].row.createdAt
  }

  predicate Written(s: State, b: BatchId, id: DeliveryId) {
    id in s.items && LockedBy(s.items[id], b) && s.items[id].lock.value.write.Some?
  }

  predicate Enabled(limit: nat, s: State, a: Action) {
    match a
    case Create(id) => id !in s.items
    case Tick(to) => s.clock <= to
    case Claim(b, ids) =>
      b !in s.batches && Oldest(CreationTimesOf(s), ClaimableItems(s), limit, ids)
    case Send(b, id, _) => b in s.batches && id in s.batches[b].claimed && id !in s.batches[b].results
    case Record(b, id) =>
      && b in s.batches && id in s.batches[b].claimed && s.batches[b].claimed.Keys == s.batches[b].results.Keys
      && s.batches[b].results[id].Some?
      && id in s.items && !Written(s, b, id)
      && (s.items[id].lock.None? || LockedBy(s.items[id], b))
    case Commit(b) =>
      && b in s.batches && s.batches[b].claimed.Keys == s.batches[b].results.Keys
      && forall id | id in s.batches[b].results && s.batches[b].results[id].Some? :: Written(s, b, id)
    case Rollback(b) => b in s.batches
  }

  function Grab(i: Item, id: DeliveryId, b: BatchId, ids: set<DeliveryId>): Item {
    if id in ids then i.(lock := Some(Lock(b, None))) else i
  }

  function Settle(i: Item, b: BatchId): Item {
    if LockedBy(i, b) && i.lock.value.write.Some? then
      var w := i.lock.value.write.value;
      Item(w.draft, None, i.sends + 1, if w.result.ok then i.failures else i.failures + [w.at])
    else Free(i, b)
  }

  function Free(i: Item, b: BatchId): Item {
    if LockedBy(i, b) then i.(lock := None) else i
  }

  function Apply(limit: nat, policy: RetryPolicy, s: State, a: Action): State
    requires Enabled(limit, s, a)
  {
    match a
    case Create(id) => s.(items := s.items[id := Item(NewDelivery(s.clock), None, 0, [])])
    case Tick(to) => s.(clock := to)
    case Claim(b, ids) =>
      s.(items := map id | id in s.items :: Grab(s.items[id], id, b, ids),
         batches := s.batches[b := Batch(s.clock, map id | id in ids :: s.items[id].row, map[])])
    case Send(b, id, result) =>
      s.(batches := s.batches[b := s.batches[b].(results := s.batches[b].results[id := result])])
    case Record(b, id) =>
      var result := s.batches[b].results[id].value;
      var draft := Recorded(s.batches[b].claimed[id], result, policy, s.clock);
      s.(items := s.items[id := s.items[id].(lock := Some(Lock(b, Some(Write(draft, result, s.clock)))))])
    case Commit(b) =>
      s.(items := map id | id in s.items :: Settle(s.items[id], b), batches := s.batches - {b})
    case Rollback(b) =>
      s.(items := map id | id in s.items :: Free(s.items[id], b), batches := s.batches - {b})
  }

  // ---------------------------------------------------------------------------
  // The invariant
  // ---------------------------------------------------------------------------

  /** Failure number n + 1 comes at least the backoff of attempt n after failure number n. */
  ghost predicate FailuresSpaced(policy: RetryPolicy, f: seq<Time>) {
    forall n | 1 <= n < |f| :: f[n - 1] + policy.Backoff(n) <= f[n]
  }

  /** The committed row tells how many sends were committed and when the next may happen. */
  ghost predicate ItemOk(policy: RetryPolicy, i: Item) {
    && 1 <= i.row.attempt <= policy.maxAttempts
    && FailuresSpaced(policy, i.failures)
    && match i.row.status
       case Pending =>
         && i.sends == i.row.attempt - 1 == |i.failures|
         && (i.failures == [] ==> i.row.nextRetryAt.None?)
         && (i.failures != [] ==>
               i.row.nextRetryAt == Some(i.failures[|i.failures| - 1] + policy.Backoff(|i.failures|)))
       case Success => i.sends == i.row.attempt == |i.failures| + 1
       case Failed => i.sends == i.row.attempt == |i.failures| == policy.maxAttempts
  }

  /** A locked row is still the one its batch read, and its draft is that row with the batch's own result. */
  ghost predicate LockOk(policy: RetryPolicy, clock: Time, i: Item, id: DeliveryId, batches: map<BatchId, Batch>) {
    i.lock.Some? ==>
      && i.lock.value.owner in batches
      && var batch, write := batches[i.lock.value.owner], i.lock.value.write;
      && id in batch.claimed && batch.claimed[id] == i.row && Due(i.row, batch.now)
      && (write.Some? ==>
            && id in batch.results && batch.results[id] == Some(write.value.result)
            && batch.now <= write.value.at <= clock
            && write.value.draft == Recorded(i.row, write.value.result, policy, write.value.at))
  }

  ghost predicate BatchOk(clock: Time, b: BatchId, batch: Batch, items: map<DeliveryId, Item>) {
    batch.now <= clock && forall id | id in batch.claimed :: id in items && LockedBy(items[id], b)
  }

  ghost predicate ItemsOk(policy: RetryPolicy, s: State) {
    forall id | id in s.items :: ItemOk(policy, s.items[id]) && LockOk(policy, s.clock, s.items[id], id, s.batches)
  }

  ghost predicate BatchesOk(s: State) {
    forall b | b in s.batches :: BatchOk(s.clock, b, s.batches[b], s.items)
  }

  ghost predicate Inv(policy: RetryPolicy, s: State) {
    ItemsOk(policy, s) && BatchesOk(s)
  }

  lemma OneMoreFailure(policy: RetryPolicy, f: seq<Time>, at: Time)
    requires FailuresSpaced(policy, f)
    requires f != [] ==> f[|f| - 1] + policy.Backoff(|f|) <= at
    ensures FailuresSpaced(policy, f + [at])
  {
    hide RetryPolicy.Backoff;
  }

  /** One committed result keeps the item's story straight. */
  lemma SettleKeepsItem(policy: RetryPolicy, clock: Time, i: Item, id: DeliveryId, b: BatchId,
                        batches: map<BatchId, Batch>)
    requires ItemOk(policy, i) && LockOk(policy, clock, i, id, batches)
    ensures ItemOk(policy, Settle(i, b))
  {
    hide RetryPolicy.Backoff, FailuresSpaced;
    if LockedBy(i, b) && i.lock.value.write.Some? && !i.lock.value.write.value.result.ok {
      OneMoreFailure(policy, i.failures, i.lock.value.write.value.at);
    }
  }

  /** Apart from a commit, a step changes locks only. */
  lemma StepKeepsStory(limit: nat, policy: RetryPolicy, s: State, a: Action, id: DeliveryId)
    requires Enabled(limit, s, a) && !a.Commit? && id in s.items
    ensures id in Apply(limit, policy, s, a).items
    ensures var i, i' := s.items[id], Apply(limit, policy, s, a).items[id];
            i'.row == i.row && i'.sends == i.sends && i'.failures == i.failures
  {
    hide Recorded;
  }

  lemma StepKeepsItem(limit: nat, policy: RetryPolicy, s: State, a: Action, id: DeliveryId)
    requires policy.Valid() && ItemsOk(policy, s) && Enabled(limit, s, a) && id in Apply(limit, policy, s, a).items
    ensures ItemOk(policy, Apply(limit, policy, s, a).items[id])
  {
    hide RetryPolicy.Backoff, Recorded, FailuresSpaced, Settle, LockOk;
    if a.Commit? {
      SettleKeepsItem(policy, s.clock, s.items[id], id, a.b, s.batches);
    } else if id in s.items {
      StepKeepsStory(limit, policy, s, a, id);
    } else {
      NothingFailedYet(policy);
    }
  }

  lemma NothingFailedYet(policy: RetryPolicy)
    ensures FailuresSpaced(policy, [])
  {
  }

  lemma ClaimedAreClaimable(limit: nat, s: State, b: BatchId, ids: set<DeliveryId>)
    requires Enabled(limit, s, Claim(b, ids))
    ensures b !in s.batches && forall id | id in ids :: id in s.items && Claimable(s.items[id], s.clock)
  {
    assert ids <= ClaimableItems(s);
  }

  lemma StepKeepsLock(limit: nat, policy: RetryPolicy, s: State, a: Action, id: DeliveryId)
    requires Inv(policy, s) && Enabled(limit, s, a) && id in Apply(limit, policy, s, a).items
    ensures var s' := Apply(limit, policy, s, a);
            LockOk(policy, s'.clock, s'.items[id], id, s'.batches)
  {
    hide Recorded, ItemOk, Oldest, ClaimableItems;
    if a.Claim? {
      ClaimedAreClaimable(limit, s, a.b, a.ids);
    }
    if id in s.items {
      assert LockOk(policy, s.clock, s.items[id], id, s.batches);
      if s.items[id].lock.Some? {
        var owner := s.items[id].lock.value.owner;
        assert BatchOk(s.clock, owner, s.batches[owner], s.items);
      }
    }
    if a.Record? {
      assert BatchOk(s.clock, a.b, s.batches[a.b], s.items);
    }
  }

  lemma StepKeepsBatch(limit: nat, policy: RetryPolicy, s: State, a: Action, b: BatchId)
    requires Inv(policy, s) && Enabled(limit, s, a) && b in Apply(limit, policy, s, a).batches
    ensures var s' := Apply(limit, policy, s, a);
            BatchOk(s'.clock, b, s'.batches[b], s'.items)
  {
    hide Recorded, ItemOk, LockOk;
    if b in s.batches {
      assert BatchOk(s.clock, b, s.batches[b], s.items);
    }
  }

  /** Every step of every batch keeps the invariant. */
  lemma StepKeepsInv(limit: nat, policy: RetryPolicy, s: State, a: Action)
    requires policy.Valid() && Inv(policy, s) && Enabled(limit, s, a)
    ensures Inv(policy, Apply(limit, policy, s, a))
  {
    var s' := Apply(limit, policy, s, a);
    hide ItemOk, LockOk, BatchOk, Apply, Enabled, Recorded, Settle, Grab;
    forall id | id in s'.items
      ensures ItemOk(policy, s'.items[id]) && LockOk(policy, s'.clock, s'.items[id], id, s'.batches)
    {
      StepKeepsItem(limit, policy, s, a, id);
      StepKeepsLock(limit, policy, s, a, id);
    }
    forall b | b in s'.batches ensures BatchOk(s'.clock, b, s'.batches[b], s'.items) {
      StepKeepsBatch(limit, policy, s, a, b);
    }
  }

  ghost predicate IsRun(limit: nat, policy: RetryPolicy, ss: seq<State>, acts: seq<Action>) {
    && |ss| == |acts| + 1
    && ss[0].items == map[] && ss[0].batches == map[]
    && forall i | 0 <= i < |acts| :: Enabled(limit, ss[i], acts[i]) && ss[i + 1] == Apply(limit, policy, ss[i], acts[i])
  }

  lemma {:induction false} RunKeepsInv(limit: nat, policy: RetryPolicy, ss: seq<State>, acts: seq<Action>, n: nat)
    requires policy.Valid() && IsRun(limit, policy, ss, acts) && n < |ss|
    ensures Inv(policy, ss[n])
  {
    if n > 0 {
      RunKeepsInv(limit, policy, ss, acts, n - 1);
      StepKeepsInv(limit, policy, ss[n - 1], acts[n - 1]);
    }
  }

  // ---------------------------------------------------------------------------
  // Theorems
  // ---------------------------------------------------------------------------

  /** Batches at work at the same time hold disjoint deliveries. */
  lemma BatchesAreDisjoint(limit: nat, policy: RetryPolicy, ss: seq<State>, acts: seq<Action>, n: nat, b: BatchId,
                           c: BatchId)
    requires policy.Valid() && IsRun(limit, policy, ss, acts) && n < |ss|
    requires b in ss[n].batches && c in ss[n].batches && b != c
    ensures ss[n].batches[b].claimed.Keys !! ss[n].batches[c].claimed.Keys
  {
    RunKeepsInv(limit, policy, ss, acts, n);
    assert BatchOk(ss[n].clock, b, ss[n].batches[b], ss[n].items);
    assert BatchOk(ss[n].clock, c, ss[n].batches[c], ss[n].items);
  }

  /** What committing a batch does to one delivery of it. */
  ghost predicate OwnResult(policy: RetryPolicy, before: Item, after: Item, batch: Batch, id: DeliveryId) {
    && id in batch.claimed && id in batch.results
    && before.row == batch.claimed[id] && before.row.status.Pending?
    && if batch.results[id].None? then after.row == before.row
       else exists at :: batch.now <= at && after.row == Recorded(before.row, batch.results[id].value, policy, at)
  }

  lemma CommitAppliesOwnResult(limit: nat, policy: RetryPolicy, s: State, b: BatchId, id: DeliveryId)
    requires Inv(policy, s) && Enabled(limit, s, Commit(b)) && id in s.batches[b].claimed
    ensures id in s.items && OwnResult(policy, s.items[id], Settle(s.items[id], b), s.batches[b], id)
  {
    hide Recorded, ItemOk;
    var batch := s.batches[b];
    assert BatchOk(s.clock, b, batch, s.items);
    assert LockOk(policy, s.clock, s.items[id], id, s.batches);
    if batch.results[id].Some? {
      assert Written(s, b, id);
      var at := s.items[id].lock.value.write.value.at;
      assert batch.now <= at
             && Settle(s.items[id], b).row == Recorded(s.items[id].row, batch.results[id].value, policy, at);
    }
  }

  /** A commit loses no update: every claimed delivery is still as the batch read it and pending, and makes
      exactly the one transition of its own send result (none when it was skipped); no other row changes. */
  lemma CommitAppliesOwnResults(limit: nat, policy: RetryPolicy, ss: seq<State>, acts: seq<Action>, n: nat)
    requires policy.Valid() && IsRun(limit, policy, ss, acts) && n < |acts| && acts[n].Commit?
    ensures var s, s', batch := ss[n], ss[n + 1], ss[n].batches[acts[n].b];
            && (forall id | id in batch.claimed ::
                  id in s.items && id in s'.items && OwnResult(policy, s.items[id], s'.items[id], batch, id))
            && (forall id | id in s.items && id !in batch.claimed :: id in s'.items && s'.items[id] == s.items[id])
  {
    hide OwnResult, ItemOk, Recorded;
    RunKeepsInv(limit, policy, ss, acts, n);
    var s, s', b := ss[n], ss[n + 1], acts[n].b;
    forall id | id in s.batches[b].claimed
      ensures id in s.items && OwnResult(policy, s.items[id], s'.items[id], s.batches[b], id)
    {
      CommitAppliesOwnResult(limit, policy, s, b, id);
    }
    forall id | id in s.items && id !in s.batches[b].claimed ensures s'.items[id] == s.items[id] {
      assert LockOk(policy, s.clock, s.items[id], id, s.batches);
    }
  }

  /** The unguarded UPDATE never waits for another transaction: its row is locked by its own batch. */
  lemma UpdateNeverBlocks(limit: nat, policy: RetryPolicy, ss: seq<State>, acts: seq<Action>, n: nat, b: BatchId,
                          id: DeliveryId)
    requires policy.Valid() && IsRun(limit, policy, ss, acts) && n < |ss|
    requires b in ss[n].batches && id in ss[n].batches[b].claimed
    requires ss[n].batches[b].claimed.Keys == ss[n].batches[b].results.Keys && ss[n].batches[b].results[id].Some?
    ensures Enabled(limit, ss[n], Record(b, id)) <==> !Written(ss[n], b, id)
  {
    RunKeepsInv(limit, policy, ss, acts, n);
    assert BatchOk(ss[n].clock, b, ss[n].batches[b], ss[n].items);
  }

  /** No batch is ever stuck: each claimed delivery can be sent once, with any result; when all are, each result can be
      written once and the batch can commit exactly when all are written. A new batch can always claim. */
  lemma BatchGoesOn(limit: nat, policy: RetryPolicy, ss: seq<State>, acts: seq<Action>, n: nat, b: BatchId)
    requires policy.Valid() && IsRun(limit, policy, ss, acts) && n < |ss|
    ensures b !in ss[n].batches ==> exists ids :: Enabled(limit, ss[n], Claim(b, ids))
    ensures b in ss[n].batches ==>
              var s, batch := ss[n], ss[n].batches[b];
              && (forall id, result | id in batch.claimed ::
                    Enabled(limit, s, Send(b, id, result)) <==> id !in batch.results)
              && (batch.claimed.Keys == batch.results.Keys ==>
                    && (forall id | id in batch.claimed ::
                          id in s.items && s.items[id].lock.Some?
                          && (batch.results[id].Some? ==>
                                (Enabled(limit, s, Record(b, id)) <==> s.items[id].lock.value.write.None?)))
                    && (Enabled(limit, s, Commit(b)) <==>
                          forall id | id in batch.claimed && batch.results[id].Some? ::
                            s.items[id].lock.value.write.Some?))
  {
    RunKeepsInv(limit, policy, ss, acts, n);
    if b in ss[n].batches {
      OpenBatchGoesOn(limit, policy, ss[n], b);
    } else {
      ClaimIsPossible(limit, ss[n], b);
    }
  }

  lemma ClaimIsPossible(limit: nat, s: State, b: BatchId)
    requires b !in s.batches
    ensures exists ids :: Enabled(limit, s, Claim(b, ids))
  {
    var rows := map id | id in s.items :: s.items[id].row;
    var ids := ChoiceExists(rows, ClaimableItems(s), limit);
    assert CreationTimes(rows) == CreationTimesOf(s);
    assert Enabled(limit, s, Claim(b, ids));
  }

  lemma OpenBatchGoesOn(limit: nat, policy: RetryPolicy, s: State, b: BatchId)
    requires Inv(policy, s) && b in s.batches
    ensures var batch := s.batches[b];
            && (forall id, result | id in batch.claimed ::
                  Enabled(limit, s, Send(b, id, result)) <==> id !in batch.results)
            && (batch.claimed.Keys == batch.results.Keys ==>
                  && (forall id | id in batch.claimed ::
                        id in s.items && s.items[id].lock.Some?
                        && (batch.results[id].Some? ==>
                              (Enabled(limit, s, Record(b, id)) <==> s.items[id].lock.value.write.None?)))
                  && (Enabled(limit, s, Commit(b)) <==>
                        forall id | id in batch.claimed && batch.results[id].Some? ::
                          s.items[id].lock.value.write.Some?))
  {
    assert BatchOk(s.clock, b, s.batches[b], s.items);
    hide Inv, BatchOk;
  }

  /** Committed sends equal attempt - 1 while a delivery is pending and attempt once it is terminal, and never
      exceed the policy's maximum. */
  lemma SendBudget(limit: nat, policy: RetryPolicy, ss: seq<State>, acts: seq<Action>, n: nat, id: DeliveryId)
    requires policy.Valid() && IsRun(limit, policy, ss, acts) && n < |ss| && id in ss[n].items
    ensures var i := ss[n].items[id];
            && i.sends == (if i.row.status.Pending? then i.row.attempt - 1 else i.row.attempt)
            && i.sends <= policy.maxAttempts
  {
    RunKeepsInv(limit, policy, ss, acts, n);
    assert ItemOk(policy, ss[n].items[id]);
  }

  /** When a pending delivery that no batch has locked can be claimed: at once while no failure of it is committed,
      then as soon as the base delay times the number of failures has passed since the last one. */
  lemma ClaimableExactlyWhen(limit: nat, policy: RetryPolicy, ss: seq<State>, acts: seq<Action>, n: nat, id: DeliveryId)
    requires policy.Valid() && IsRun(limit, policy, ss, acts) && n < |ss| && id in ss[n].items
    requires ss[n].items[id].lock.None? && ss[n].items[id].row.status.Pending?
    ensures var f := ss[n].items[id].failures;
            id in ClaimableItems(ss[n]) <==>
              f == [] || f[|f| - 1] + policy.baseDelay * |f| as real <= ss[n].clock
  {
    RunKeepsInv(limit, policy, ss, acts, n);
    assert ItemOk(policy, ss[n].items[id]);
  }

  /** The delays of the first n retries together. */
  function Delays(policy: RetryPolicy, n: nat): Time {
    if n == 0 then 0.0 else Delays(policy, n - 1) + policy.Backoff(n)
  }

  lemma {:induction false} DelaysTriangular(policy: RetryPolicy, n: nat)
    ensures 2.0 * Delays(policy, n) == policy.baseDelay * (n * (n + 1)) as real
  {
    if n > 0 {
      DelaysTriangular(policy, n - 1);
      assert n * (n + 1) == (n - 1) * n + 2 * n;
      Distribute(policy.baseDelay, ((n - 1) * n) as real, 2.0 * n as real);
    }
  }

  lemma Distribute(x: real, a: real, b: real)
    ensures x * (a + b) == x * a + x * b
  {
  }

  lemma {:induction false} SpacedDelays(policy: RetryPolicy, f: seq<Time>, n: nat)
    requires FailuresSpaced(policy, f) && n < |f|
    ensures f[0] + Delays(policy, n) <= f[n]
  {
    if n > 0 {
      SpacedDelays(policy, f, n - 1);
      assert f[n - 1] + policy.Backoff(n) <= f[n];
    }
  }

  lemma FailedStory(policy: RetryPolicy, i: Item)
    requires policy.Valid() && ItemOk(policy, i) && i.row.status.Failed?
    ensures var f, max := i.failures, policy.maxAttempts;
            |f| == max && 2.0 * (f[max - 1] - f[0]) >= policy.baseDelay * (max * (max - 1)) as real
  {
    hide Delays;
    SpacedDelays(policy, i.failures, policy.maxAttempts - 1);
    DelaysTriangular(policy, policy.maxAttempts - 1);
  }

  /** A delivery that ends failed does so at least base * max * (max - 1) / 2 after its first failure. */
  lemma FailureTakesTime(limit: nat, policy: RetryPolicy, ss: seq<State>, acts: seq<Action>, n: nat, id: DeliveryId)
    requires policy.Valid() && IsRun(limit, policy, ss, acts) && n < |ss| && id in ss[n].items
    requires ss[n].items[id].row.status.Failed?
    ensures var f, max := ss[n].items[id].failures, policy.maxAttempts;
            |f| == max && 2.0 * (f[max - 1] - f[0]) >= policy.baseDelay * (max * (max - 1)) as real
  {
    RunKeepsInv(limit, policy, ss, acts, n);
    assert ItemOk(policy, ss[n].items[id]);
    hide Inv, IsRun, ItemOk;
    FailedStory(policy, ss[n].items[id]);
  }
}
