/** The outbox repository and the worker's cycle in the form the service runs them: an object whose table
    is updated in place, and a worker that releases, claims, publishes and records. Each method is tied to
    the statements of OutboxRows, which the concurrent protocol of Lease executes one by one. */
module OutboxWorker {
  import opened Types
  import opened OutboxRows
  import opened Backoff

  lemma ReleaseRecovers(t: Table, now: Time, timeout: Time, maxAttempts: nat, at: Time)
    requires TableInv(t, maxAttempts) && 0.0 <= timeout
    ensures TableInv(Released(t, now, timeout, maxAttempts, at), maxAttempts)
    ensures ExpiredIds(Released(t, now, timeout, maxAttempts, at), now, timeout) == {}
    ensures |Matched(ReleaseDead(now, timeout, maxAttempts, at), t)|
            + |Matched(ReleasePending(now, timeout, maxAttempts),
                       Execute(ReleaseDead(now, timeout, maxAttempts, at), t))|
         == |ExpiredIds(t, now, timeout)|
  {
    var between := Execute(ReleaseDead(now, timeout, maxAttempts, at), t);
    LeaseRecovery(t, now, timeout, maxAttempts, at);
    StatementKeepsTable(ReleaseDead(now, timeout, maxAttempts, at), t, maxAttempts);
    StatementKeepsTable(ReleasePending(now, timeout, maxAttempts), between, maxAttempts);
  }

  class OutboxRepository {
    var rows: Table

    constructor ()
      ensures rows == map[]
    {
      rows := map[];
    }

    /** Takes expired leases back; returns how many messages became dead and how many pending. */
    method ReleaseExpiredClaims(now: Time, timeout: Time, maxAttempts: nat, at: Time)
      returns (releasedDead: nat, releasedPending: nat)
      modifies this
      ensures rows == Released(old(rows), now, timeout, maxAttempts, at)
      ensures rows.Keys == old(rows).Keys
      ensures releasedDead == |Matched(ReleaseDead(now, timeout, maxAttempts, at), old(rows))|
      ensures releasedPending ==
                |Matched(ReleasePending(now, timeout, maxAttempts),
                         Execute(ReleaseDead(now, timeout, maxAttempts, at), old(rows)))|
      ensures TableInv(old(rows), maxAttempts) && 0.0 <= timeout ==>
                && releasedDead + releasedPending == |ExpiredIds(old(rows), now, timeout)|
                && ExpiredIds(rows, now, timeout) == {}
                && TableInv(rows, maxAttempts)
    {
      hide TableInv, ExpiredIds, Expired;
      ghost var before := rows;
      var dead := set id | id in rows && Expired(rows[id], now, timeout) && rows[id].attempts >= maxAttempts;
      rows := map id | id in rows :: if id !in dead then rows[id] else
        rows[id].(status := Dead, claimedAt := None, claimedBy := None, nextRetryAt := None, finishedAt := Some(at));
      releasedDead := |dead|;
      assert rows.Keys == before.Keys;
      assert rows == Execute(ReleaseDead(now, timeout, maxAttempts, at), before);
      assert dead == Matched(ReleaseDead(now, timeout, maxAttempts, at), before);
      ghost var between := rows;

      var back := set id | id in rows && Expired(rows[id], now, timeout) && rows[id].attempts < maxAttempts;
      rows := map id | id in rows :: if id !in back then rows[id] else
        rows[id].(status := Pending, claimedAt := None, claimedBy := None);
      releasedPending := |back|;
      assert rows.Keys == before.Keys;
      assert rows == Execute(ReleasePending(now, timeout, maxAttempts), between);
      assert back == Matched(ReleasePending(now, timeout, maxAttempts), between);
      if TableInv(before, maxAttempts) && 0.0 <= timeout {
        ReleaseRecovers(before, now, timeout, maxAttempts, at);
      }
    }

    /** Claims up to `limit` of the oldest eligible messages and returns their rows as claimed. */
    method ClaimBatch(limit: nat, now: Time, worker: WorkerId, maxAttempts: nat) returns (claimed: Table)
      modifies this
      ensures OldestFirst(old(rows), EligibleIds(old(rows), now, maxAttempts), limit, claimed.Keys)
      ensures rows == Execute(ClaimIds(claimed.Keys, now, worker), old(rows)) && rows.Keys == old(rows).Keys
      ensures forall id | id in claimed :: id in rows && claimed[id] == rows[id] && OwnedBy(claimed[id], worker)
      ensures forall id | id in claimed :: id in old(rows) && claimed[id].attempts == old(rows)[id].attempts + 1
      ensures TableInv(old(rows), maxAttempts) ==> TableInv(rows, maxAttempts)
    {
      var t := rows;
      var eligible := EligibleIds(t, now, maxAttempts);
      ghost var answer := OldestFirstExists(t, eligible, limit);
      var chosen: set<MessageId> :| chosen <= eligible && OldestFirst(t, eligible, limit, chosen);
      var t' := map id | id in t :: if id !in chosen then t[id] else
        t[id].(status := Processing, claimedAt := Some(now), claimedBy := Some(worker), attempts := t[id].attempts + 1);
      rows := t';
      claimed := map id | id in chosen :: t'[id];
      assert claimed.Keys == chosen;
      assert t' == Execute(ClaimIds(chosen, now, worker), t);
      if TableInv(t, maxAttempts) {
        StatementKeepsTable(ClaimIds(chosen, now, worker), t, maxAttempts);
      }
    }

    method MarkProcessed(id: MessageId, worker: WorkerId, at: Time)
      modifies this
      ensures rows == Execute(OutboxRows.MarkProcessed(id, worker, at), old(rows))
      ensures rows.Keys == old(rows).Keys
      ensures forall m | m in rows ::
                var r := old(rows)[m];
                rows[m] == if !(m == id && r.status.Processing? && r.claimedBy == Some(worker)) then r
                           else Row(r.createdAt, r.attempts, Processed, r.nextRetryAt, None, None, Some(at), Some(at))
    {
      if id in rows && rows[id].status.Processing? && rows[id].claimedBy == Some(worker) {
        rows := rows[id := rows[id].(processedAt := Some(at), status := Processed, claimedAt := None,
                                     claimedBy := None, finishedAt := Some(at))];
      }
    }

    method MarkPublishFailure(id: MessageId, worker: WorkerId, maxAttempts: nat, nextRetryAt: Option<Time>, at: Time)
      modifies this
      ensures rows == Execute(MarkFailure(id, worker, maxAttempts, nextRetryAt, at), old(rows))
      ensures rows.Keys == old(rows).Keys
      ensures forall m | m in rows ::
                var r := old(rows)[m];
                rows[m] == if !(m == id && r.status.Processing? && r.claimedBy == Some(worker)) then r
                           else if r.attempts >= maxAttempts
                           then Row(r.createdAt, r.attempts, Dead, None, None, None, r.processedAt, Some(at))
                           else Row(r.createdAt, r.attempts, Pending, nextRetryAt, None, None, r.processedAt, None)
    {
      if id in rows && rows[id].status.Processing? && rows[id].claimedBy == Some(worker) {
        if rows[id].attempts >= maxAttempts {
          rows := rows[id := rows[id].(status := Dead, claimedAt := None, claimedBy := None,
                                       nextRetryAt := None, finishedAt := Some(at))];
        } else {
          rows := rows[id := rows[id].(status := Pending, claimedAt := None, claimedBy := None,
                                       nextRetryAt := nextRetryAt, finishedAt := None)];
        }
      }
    }

    method ReapExhausted(maxAttempts: nat, at: Time)
      modifies this
      ensures rows == Execute(Reap(maxAttempts, at), old(rows))
      ensures rows.Keys == old(rows).Keys
      ensures forall m | m in rows ::
                var r := old(rows)[m];
                rows[m] == if !(r.status.Pending? && r.attempts >= maxAttempts) then r
                           else r.(status := Dead, nextRetryAt := None, finishedAt := Some(at))
      ensures TableInv(old(rows), maxAttempts) ==> rows == old(rows)
    {
      rows := map id | id in rows :: if rows[id].status.Pending? && rows[id].attempts >= maxAttempts
        then rows[id].(status := Dead, nextRetryAt := None, finishedAt := Some(at)) else rows[id];
    }

    method PurgeProcessed(cutoff: Time)
      modifies this
      ensures rows == Execute(Purge(cutoff), old(rows))
      ensures rows.Keys <= old(rows).Keys
      ensures forall m | m in old(rows) ::
                var r := old(rows)[m];
                m !in rows <==> r.status in {Processed, Dead} && r.finishedAt.Some? && r.finishedAt.value < cutoff
      ensures forall m | m in rows :: rows[m] == old(rows)[m]
    {
      rows := map id | id in rows && !(rows[id].status in {Processed, Dead} && rows[id].finishedAt.Some?
                                       && rows[id].finishedAt.value < cutoff) :: rows[id];
    }
  }

  /** What an undisturbed cycle leaves of a message it claimed: its own publish result decides; `at` is the
      database's time of the recording. */
  ghost predicate DecidedBy(p: Policy, claimed: Row, delivered: bool, now: Time, at: Time, r: Row) {
    && r.attempts == claimed.attempts && r.createdAt == claimed.createdAt
    && (r.status.Processed? || r.status.Dead? ==> r.finishedAt == Some(at))
    && (r.status.Processed? ==> r.processedAt == Some(at))
    && r.claimedAt.None? && r.claimedBy.None?
    && (delivered <==> r.status.Processed?)
    && (!delivered ==> (r.status.Dead? <==> claimed.attempts >= p.maxAttempts))
    && (r.status.Pending? ==> 1 <= claimed.attempts && r.nextRetryAt.Some?
                              && now + Delay(p, claimed.attempts) <= r.nextRetryAt.value
                              && r.nextRetryAt.value <= now + Delay(p, claimed.attempts) * (1.0 + p.jitter))
  }

  /** The results of the messages in `done` are recorded; every other row is as it was. */
  ghost predicate Recorded(p: Policy, before: Table, after: Table, claimed: Table, done: set<MessageId>,
                           delivered: set<MessageId>, now: Time, at: Time)
  {
    && TableInv(after, p.maxAttempts)
    && after.Keys == before.Keys
    && (forall m | m in before && m !in done :: after[m] == before[m])
    && (forall m | m in claimed && m in done ::
          m in after && DecidedBy(p, claimed[m], m in delivered, now, at, after[m]))
  }

  function MarkStatement(p: Policy, r: Row, m: MessageId, worker: WorkerId, now: Time, factor: real, at: Time,
                         delivered: bool): Statement
    requires 1 <= r.attempts
  {
    if delivered then MarkProcessed(m, worker, at)
    else MarkFailure(m, worker, p.maxAttempts, NextRetryAt(p, r.attempts, now, factor), at)
  }

  lemma RecordedNext(p: Policy, before: Table, t: Table, claimed: Table, done: set<MessageId>,
                     delivered: set<MessageId>, m: MessageId, worker: WorkerId, now: Time, factor: real, at: Time)
    requires ValidPolicy(p) && ValidFactor(p, factor)
    requires Recorded(p, before, t, claimed, done, delivered, now, at)
    requires m in claimed && m !in done && m in before && before[m] == claimed[m] && OwnedBy(claimed[m], worker)
    ensures 1 <= claimed[m].attempts
    ensures Recorded(p, before, Execute(MarkStatement(p, claimed[m], m, worker, now, factor, at, m in delivered), t),
                     claimed, done + {m}, delivered, now, at)
  {
    assert RowInv(t[m], p.maxAttempts);
    var st := MarkStatement(p, claimed[m], m, worker, now, factor, at, m in delivered);
    RetryWindow(p, t[m].attempts, now, factor);
    StatementKeepsTable(st, t, p.maxAttempts);
    assert DecidedBy(p, claimed[m], m in delivered, now, at, Updated(st, t[m]).value);
  }

  /** `claimed` holds rows of the table, leased to `worker`. */
  ghost predicate Batch(t: Table, claimed: Table, worker: WorkerId) {
    forall m | m in claimed :: m in t && t[m] == claimed[m] && OwnedBy(claimed[m], worker)
  }

  /** Every jitter the worker may draw is one random.uniform can return. */
  ghost predicate ValidFactors(p: Policy, factor: MessageId -> real) {
    forall m :: ValidFactor(p, factor(m))
  }

  /** Which of the two transactions of a batch raises and is rolled back, if any. */
  datatype Fault = NoFault | ClaimFails | RecordFails

  lemma NothingToRecord(p: Policy, t: Table, delivered: set<MessageId>, now: Time, at: Time)
    requires TableInv(t, p.maxAttempts)
    ensures Recorded(p, t, t, map[], {}, delivered, now, at)
  {
  }

  class OutboxWorker {
    const id: WorkerId
    const policy: Policy
    const batchSize: nat
    const claimTimeout: Time
    const retention: Time
    const purgeInterval: nat
    var cycles: nat

    constructor (id: WorkerId, policy: Policy, batchSize: nat, claimTimeout: Time, retention: Time, purgeInterval: nat)
      ensures this.id == id && this.policy == policy && this.batchSize == batchSize
      ensures this.claimTimeout == claimTimeout && this.retention == retention && this.purgeInterval == purgeInterval
      ensures cycles == 0
    {
      this.id, this.policy, this.batchSize := id, policy, batchSize;
      this.claimTimeout, this.retention, this.purgeInterval := claimTimeout, retention, purgeInterval;
      cycles := 0;
    }

    /** First loop of the recording transaction: the published messages. */
    method RecordPublished(repo: OutboxRepository, claimed: Table, delivered: set<MessageId>, now: Time,
                           factor: MessageId -> real, at: Time)
      requires Recorded(policy, repo.rows, repo.rows, claimed, {}, delivered, now, at)
      requires Batch(repo.rows, claimed, id) && ValidPolicy(policy) && ValidFactors(policy, factor)
      modifies repo
      ensures Recorded(policy, old(repo.rows), repo.rows, claimed, claimed.Keys * delivered, delivered, now, at)
    {
      hide DecidedBy, TableInv;
      ghost var done := {};
      var published := claimed.Keys * delivered;
      while published != {}
        invariant published <= claimed.Keys * delivered
        invariant done == claimed.Keys * delivered - published
        invariant Recorded(policy, old(repo.rows), repo.rows, claimed, done, delivered, now, at)
      {
        var m :| m in published;
        RecordedNext(policy, old(repo.rows), repo.rows, claimed, done, delivered, m, id, now, factor(m), at);
        repo.MarkProcessed(m, id, at);
        published, done := published - {m}, done + {m};
      }
    }

    /** Second loop: the failed messages, each with the worker's own verdict on its retry. */
    method RecordFailed(repo: OutboxRepository, claimed: Table, delivered: set<MessageId>, now: Time,
                        factor: MessageId -> real, at: Time, ghost before: Table)
      requires Recorded(policy, before, repo.rows, claimed, claimed.Keys * delivered, delivered, now, at)
      requires Batch(before, claimed, id) && ValidPolicy(policy) && ValidFactors(policy, factor)
      modifies repo
      ensures Recorded(policy, before, repo.rows, claimed, claimed.Keys, delivered, now, at)
    {
      hide DecidedBy, TableInv;
      var failed := claimed.Keys - delivered;
      ghost var done := claimed.Keys * delivered;
      while failed != {}
        invariant failed <= claimed.Keys - delivered
        invariant done == claimed.Keys - failed
        invariant Recorded(policy, before, repo.rows, claimed, done, delivered, now, at)
      {
        var m :| m in failed;
        RecordedNext(policy, before, repo.rows, claimed, done, delivered, m, id, now, factor(m), at);
        var nextRetryAt := NextRetryAt(policy, claimed[m].attempts, now, factor(m));
        repo.MarkPublishFailure(m, id, policy.maxAttempts, nextRetryAt, at);
        failed, done := failed - {m}, done + {m};
      }
    }

    /** The recording transaction. */
    method Record(repo: OutboxRepository, claimed: Table, delivered: set<MessageId>, now: Time,
                  factor: MessageId -> real, at: Time)
      requires TableInv(repo.rows, policy.maxAttempts) && Batch(repo.rows, claimed, id)
      requires ValidPolicy(policy) && ValidFactors(policy, factor)
      modifies repo
      ensures Recorded(policy, old(repo.rows), repo.rows, claimed, claimed.Keys, delivered, now, at)
    {
      hide DecidedBy, RowInv;
      ghost var before := repo.rows;
      RecordPublished(repo, claimed, delivered, now, factor, at);
      RecordFailed(repo, claimed, delivered, now, factor, at, before);
    }

    lemma RecordedKeeps(before: Table, after: Table, claimed: Table, delivered: set<MessageId>, now: Time, at: Time)
      requires Recorded(policy, before, after, claimed, claimed.Keys, delivered, now, at)
      ensures TableInv(after, policy.maxAttempts) && after.Keys == before.Keys
    {
    }

    /** `_publish_batch`: no lease stays expired, the oldest eligible messages are claimed, and each of them ends
        decided by its own publish; `delivered` are the messages the broker accepts. A transaction that raises is
        rolled back: without the first nothing happens, without the second the batch stays claimed. */
    method PublishBatch(repo: OutboxRepository, now: Time, delivered: set<MessageId>, factor: MessageId -> real,
                        at: Time, fault: Fault)
      returns (claimed: Table, raised: bool)
      requires ValidPolicy(policy) && TableInv(repo.rows, policy.maxAttempts) && 0.0 <= claimTimeout
      requires ValidFactors(policy, factor)
      modifies repo
      ensures TableInv(repo.rows, policy.maxAttempts) && repo.rows.Keys == old(repo.rows).Keys
      ensures raised <==> fault.ClaimFails? || (fault.RecordFails? && claimed != map[])
      ensures fault.ClaimFails? ==> claimed == map[] && repo.rows == old(repo.rows)
      ensures !fault.ClaimFails? ==>
                var released := Released(old(repo.rows), now, claimTimeout, policy.maxAttempts, at);
                var leased := Execute(ClaimIds(claimed.Keys, now, id), released);
                && OldestFirst(released, EligibleIds(released, now, policy.maxAttempts), batchSize, claimed.Keys)
                && (forall m | m in claimed :: claimed[m].attempts == released[m].attempts + 1)
                && if raised then repo.rows == leased
                   else Recorded(policy, leased, repo.rows, claimed, claimed.Keys, delivered, now, at)
    {
      hide DecidedBy, RowInv, OldestFirst, Recorded, Released, Execute;
      var beforeClaim := repo.rows;
      var releasedDead, releasedPending := repo.ReleaseExpiredClaims(now, claimTimeout, policy.maxAttempts, at);
      claimed := repo.ClaimBatch(batchSize, now, id, policy.maxAttempts);
      if fault.ClaimFails? {
        repo.rows := beforeClaim;
        return map[], true;
      }
      var leased := repo.rows;
      if claimed == map[] {
        NothingToRecord(policy, leased, delivered, now, at);
        assert claimed.Keys == {};
        return claimed, false;
      }
      Record(repo, claimed, delivered, now, factor, at);
      RecordedKeeps(leased, repo.rows, claimed, delivered, now, at);
      raised := fault.RecordFails?;
      if raised {
        repo.rows := leased;
      }
    }

    /** One turn of the poll loop: a batch, then, every `purgeInterval` turns, the clean-up: reaping finds nothing
        and purging deletes exactly the terminal rows finished before the retention limit, by a new reading of the
        clock. Whatever raises, the turn counts and the loop goes on. */
    method Cycle(repo: OutboxRepository, now: Time, delivered: set<MessageId>, factor: MessageId -> real, at: Time,
                 fault: Fault, purgeNow: Time, purgeFails: bool)
      returns (claimed: Table, raised: bool, ghost afterBatch: Table)
      requires ValidPolicy(policy) && TableInv(repo.rows, policy.maxAttempts) && 0.0 <= claimTimeout
      requires 1 <= purgeInterval
      requires ValidFactors(policy, factor)
      modifies this, repo
      ensures cycles == old(cycles) + 1
      ensures TableInv(repo.rows, policy.maxAttempts)
      ensures raised <==> fault.ClaimFails? || (fault.RecordFails? && claimed != map[])
      ensures fault.ClaimFails? ==> claimed == map[] && afterBatch == old(repo.rows)
      ensures !fault.ClaimFails? ==>
                var released := Released(old(repo.rows), now, claimTimeout, policy.maxAttempts, at);
                var leased := Execute(ClaimIds(claimed.Keys, now, id), released);
                && OldestFirst(released, EligibleIds(released, now, policy.maxAttempts), batchSize, claimed.Keys)
                && if raised then afterBatch == leased
                   else Recorded(policy, leased, afterBatch, claimed, claimed.Keys, delivered, now, at)
      ensures repo.rows == if cycles % purgeInterval == 0 && !purgeFails
                           then Execute(Purge(purgeNow - retention), afterBatch) else afterBatch
      ensures forall m | m in afterBatch && m !in repo.rows ::
                && afterBatch[m].status in {Processed, Dead} && afterBatch[m].finishedAt.Some?
                && afterBatch[m].finishedAt.value < purgeNow - retention
      ensures cycles % purgeInterval == 0 && !purgeFails ==>
                forall m | m in repo.rows && repo.rows[m].status in {Processed, Dead}
                           && repo.rows[m].finishedAt.Some? ::
                  purgeNow - retention <= repo.rows[m].finishedAt.value
    {
      hide DecidedBy, RowInv, OldestFirst, Execute, Released;
      claimed, raised := PublishBatch(repo, now, delivered, factor, at, fault);
      afterBatch := repo.rows;
      cycles := cycles + 1;
      if cycles % purgeInterval == 0 {
        var beforePurge := repo.rows;
        repo.ReapExhausted(policy.maxAttempts, at);
        StatementKeepsTable(Purge(purgeNow - retention), repo.rows, policy.maxAttempts);
        repo.PurgeProcessed(purgeNow - retention);
        if purgeFails {
          repo.rows := beforePurge;
        }
      }
    }
  }
}
