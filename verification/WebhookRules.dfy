/** Webhook deliveries: the retry policy, the entity's transitions, the repository and the batch handler. */
module WebhookRules {
  import opened Types

  type DeliveryId = nat

  datatype DeliveryStatus = Pending | Success | Failed

  datatype Delivery = Delivery(
    attempt: nat,
    status: DeliveryStatus,
    responseCode: Option<int>,
    responseBody: Option<string>,
    nextRetryAt: Option<Time>,
    createdAt: Time,
    updatedAt: Time)

  datatype SendResult = SendResult(ok: bool, statusCode: Option<int>, body: Option<string>)

  datatype RetryPolicy = RetryPolicy(maxAttempts: nat, baseDelay: Time) {
    ghost predicate Valid() {
      1 <= maxAttempts && 0.0 <= baseDelay
    }

    predicate ShouldRetry(attempt: nat) {
      attempt < maxAttempts
    }

    /** Linear: the base delay times the number of the failed attempt. */
    function Backoff(attempt: nat): Time {
      baseDelay * attempt as real
    }

    function NextRetryAt(attempt: nat, now: Time): Time {
      now + Backoff(attempt)
    }
  }

  /** `WebhookDelivery.create` */
  function NewDelivery(createdAt: Time): Delivery {
    Delivery(1, Pending, None, None, None, createdAt, createdAt)
  }

  predicate Due(d: Delivery, now: Time) {
    d.status.Pending? && (d.nextRetryAt.None? || d.nextRetryAt.value <= now)
  }

  /** A new delivery waits for nothing; after a failure the retry time decides, and a terminal one is never due. */
  lemma DueExactlyWhen(d: Delivery, createdAt: Time, now: Time)
    ensures Due(NewDelivery(createdAt), now)
    ensures d.nextRetryAt.Some? ==> (Due(d, now) <==> d.status.Pending? && d.nextRetryAt.value <= now)
    ensures d.nextRetryAt.None? ==> (Due(d, now) <==> d.status.Pending?)
  {
  }

  /** What one send result makes of a pending delivery. */
  function Recorded(d: Delivery, result: SendResult, policy: RetryPolicy, now: Time): Delivery {
    if result.ok then
      d.(status := Success, responseCode := result.statusCode, responseBody := result.body, nextRetryAt := None,
         updatedAt := now)
    else if policy.ShouldRetry(d.attempt) then
      d.(attempt := d.attempt + 1, nextRetryAt := Some(policy.NextRetryAt(d.attempt, now)),
         responseCode := result.statusCode, responseBody := result.body, updatedAt := now)
    else
      d.(status := Failed, responseCode := result.statusCode, responseBody := result.body, nextRetryAt := None,
         updatedAt := now)
  }

  /** The entity: its status changes only through these methods; an invalid transition is refused. */
  class WebhookDelivery {
    const id: DeliveryId
    const createdAt: Time
    var attempt: nat
    var status: DeliveryStatus
    var responseCode: Option<int>
    var responseBody: Option<string>
    var nextRetryAt: Option<Time>
    var updatedAt: Time

    /** The entity as a row. */
    function Value(): Delivery
      reads this
    {
      Delivery(attempt, status, responseCode, responseBody, nextRetryAt, createdAt, updatedAt)
    }

    constructor FromRow(id: DeliveryId, d: Delivery)
      ensures Value() == d && this.id == id
    {
      this.id, createdAt, attempt, status := id, d.createdAt, d.attempt, d.status;
      responseCode, responseBody, nextRetryAt, updatedAt := d.responseCode, d.responseBody, d.nextRetryAt, d.updatedAt;
    }

    method Transition(target: DeliveryStatus) returns (valid: bool)
      modifies this`status
      ensures valid <==> old(status).Pending?
      ensures status == if valid then target else old(status)
    {
      valid := status.Pending?;
      if valid {
        status := target;
      }
    }

    method MarkSuccess(now: Time, code: Option<int>, body: Option<string>) returns (valid: bool)
      modifies this
      ensures valid <==> old(status).Pending?
      ensures Value() ==
              if valid
              then Recorded(old(Value()), SendResult(true, code, body), RetryPolicy(1, 0.0), now)
              else old(Value())
      ensures valid ==> Value() == old(Value()).(status := Success, responseCode := code, responseBody := body,
                                                 nextRetryAt := None, updatedAt := now)
    {
      valid := Transition(Success);
      if valid {
        responseCode, responseBody, nextRetryAt, updatedAt := code, body, None, now;
      }
    }

    method MarkFailed(now: Time, code: Option<int>, body: Option<string>) returns (valid: bool)
      modifies this
      ensures valid <==> old(status).Pending?
      ensures Value() == if !valid then old(Value()) else
                old(Value()).(status := Failed, responseCode := code, responseBody := body, nextRetryAt := None,
                              updatedAt := now)
    {
      valid := Transition(Failed);
      if valid {
        responseCode, responseBody, nextRetryAt, updatedAt := code, body, None, now;
      }
    }

    method ScheduleRetry(now: Time, retryAt: Time, code: Option<int>, body: Option<string>) returns (valid: bool)
      modifies this
      ensures valid <==> old(status).Pending?
      ensures Value() == if !valid then old(Value()) else
                old(Value()).(attempt := old(attempt) + 1, nextRetryAt := Some(retryAt), responseCode := code,
                              responseBody := body, updatedAt := now)
    {
      valid := Transition(Pending);
      if valid {
        attempt := attempt + 1;
        nextRetryAt, responseCode, responseBody, updatedAt := Some(retryAt), code, body, now;
      }
    }

    /** A failed send: another attempt while the policy allows one, terminal failure otherwise. */
    method RecordFailure(now: Time, code: Option<int>, body: Option<string>, policy: RetryPolicy) returns (valid: bool)
      modifies this
      ensures valid <==> old(status).Pending?
      ensures Value() ==
              if valid then Recorded(old(Value()), SendResult(false, code, body), policy, now) else old(Value())
      ensures valid && old(attempt) < policy.maxAttempts ==>
                && nextRetryAt.Some? && nextRetryAt.value == now + policy.baseDelay * old(attempt) as real
                && Value() == old(Value()).(attempt := old(attempt) + 1, responseCode := code, responseBody := body,
                                            nextRetryAt := nextRetryAt, updatedAt := now)
      ensures valid && old(attempt) >= policy.maxAttempts ==>
                Value() == old(Value()).(status := Failed, responseCode := code, responseBody := body,
                                         nextRetryAt := None, updatedAt := now)
    {
      if policy.ShouldRetry(attempt) {
        valid := ScheduleRetry(now, policy.NextRetryAt(attempt, now), code, body);
      } else {
        valid := MarkFailed(now, code, body);
      }
    }
  }

  function ClaimableIds(rows: map<DeliveryId, Delivery>, now: Time, locked: set<DeliveryId>): set<DeliveryId> {
    set id | id in rows && id !in locked && Due(rows[id], now)
  }

  ghost predicate Distinct(ids: seq<DeliveryId>) {
    forall i, j | 0 <= i < j < |ids| :: ids[i] != ids[j]
  }

  function IdSet(ids: seq<DeliveryId>): set<DeliveryId> {
    set id | id in ids
  }

  lemma {:induction false} DistinctCount(ids: seq<DeliveryId>)
    requires Distinct(ids)
    ensures |IdSet(ids)| == |ids|
  {
    if ids != [] {
      var last := |ids| - 1;
      DistinctCount(ids[..last]);
      assert IdSet(ids) == IdSet(ids[..last]) + {ids[last]};
    }
  }

  function CreationTimes(rows: map<DeliveryId, Delivery>): map<DeliveryId, Time> {
    map id | id in rows :: rows[id].createdAt
  }

  /** LIMIT in the order of created_at: no more than the limit, nothing older passed over, and everything there is
      when the limit is not reached. */
  predicate Oldest(created: map<DeliveryId, Time>, from: set<DeliveryId>, limit: nat, chosen: set<DeliveryId>)
    requires from <= created.Keys
  {
    && chosen <= from
    && |chosen| <= limit
    && (|chosen| < limit ==> chosen == from)
    && forall x, y | x in chosen && y in from - chosen :: created[x] <= created[y]
  }

  /** ORDER BY created_at LIMIT: those rows as a list, each once, oldest first. */
  ghost predicate OldestFirst(rows: map<DeliveryId, Delivery>, from: set<DeliveryId>, limit: nat, ids: seq<DeliveryId>)
    requires from <= rows.Keys
  {
    && Distinct(ids)
    && Oldest(CreationTimes(rows), from, limit, IdSet(ids))
    && (forall id | id in ids :: id in from)
    && (forall i, j | 0 <= i < j < |ids| :: rows[ids[i]].createdAt <= rows[ids[j]].createdAt)
  }

  lemma {:induction false} OldestExists(rows: map<DeliveryId, Delivery>, from: set<DeliveryId>) returns (m: DeliveryId)
    requires from <= rows.Keys && from != {}
    ensures m in from && forall x | x in from :: rows[m].createdAt <= rows[x].createdAt
  {
    m :| m in from;
    if from != {m} {
      var rest := OldestExists(rows, from - {m});
      if rows[rest].createdAt < rows[m].createdAt {
        m := rest;
      }
    }
  }

  lemma OneMoreChosen(created: map<DeliveryId, Time>, from: set<DeliveryId>, limit: nat, m: DeliveryId,
                      rest: set<DeliveryId>)
    requires from <= created.Keys && m in from && 0 < limit && Oldest(created, from - {m}, limit - 1, rest)
    requires forall x | x in from :: created[m] <= created[x]
    ensures Oldest(created, from, limit, rest + {m})
  {
    assert |rest + {m}| == |rest| + 1;
    assert from - (rest + {m}) == from - {m} - rest;
  }

  /** There always is such a choice. */
  lemma {:induction false} ChoiceExists(rows: map<DeliveryId, Delivery>, from: set<DeliveryId>, limit: nat)
    returns (chosen: set<DeliveryId>)
    requires from <= rows.Keys
    ensures Oldest(CreationTimes(rows), from, limit, chosen)
    decreases limit
  {
    if limit == 0 || from == {} {
      chosen := {};
    } else {
      var m := OldestExists(rows, from);
      var rest := ChoiceExists(rows, from - {m}, limit - 1);
      OneMoreChosen(CreationTimes(rows), from, limit, m, rest);
      chosen := rest + {m};
    }
  }

  class WebhookRepository {
    var rows: map<DeliveryId, Delivery>

    constructor ()
      ensures rows == map[]
    {
      rows := map[];
    }

    /** Due deliveries that no other transaction has locked, oldest first. */
    method ClaimDue(limit: nat, now: Time, locked: set<DeliveryId>) returns (ids: seq<DeliveryId>)
      ensures OldestFirst(rows, ClaimableIds(rows, now, locked), limit, ids)
      ensures |ids| <= limit
      ensures forall id | id in ids ::
                && id in rows && id !in locked && rows[id].status.Pending?
                && (rows[id].nextRetryAt.None? || rows[id].nextRetryAt.value <= now)
      ensures forall id | id in rows && id !in locked && id !in ids && rows[id].status.Pending?
                          && (rows[id].nextRetryAt.None? || rows[id].nextRetryAt.value <= now) ::
                |ids| == limit && forall x | x in ids :: x in rows && rows[x].createdAt <= rows[id].createdAt
    {
      ids := [];
      var left := ClaimableIds(rows, now, locked);
      while |ids| < limit && left != {}
        invariant left <= ClaimableIds(rows, now, locked)
        invariant |ids| <= limit && Distinct(ids)
        invariant forall id | id in ClaimableIds(rows, now, locked) :: id in ids || id in left
        invariant forall id | id in ids :: id in ClaimableIds(rows, now, locked) && id !in left
        invariant forall i | 0 <= i < |ids| :: ids[i] in rows
        invariant forall i, j | 0 <= i < j < |ids| :: rows[ids[i]].createdAt <= rows[ids[j]].createdAt
        invariant forall x, y | x in ids && y in left :: rows[x].createdAt <= rows[y].createdAt
      {
        ghost var oldest := OldestExists(rows, left);
        var m :| m in left && forall x | x in left :: rows[m].createdAt <= rows[x].createdAt;
        ids, left := ids + [m], left - {m};
      }
      DistinctCount(ids);
      if |ids| < limit {
        assert IdSet(ids) == ClaimableIds(rows, now, locked);
      }
    }

    /** The unguarded UPDATE ... WHERE id. */
    method Update(delivery: WebhookDelivery)
      modifies this
      ensures rows == if delivery.id in old(rows)
                      then old(rows)[delivery.id := delivery.Value().(createdAt := old(rows)[delivery.id].createdAt)]
                      else old(rows)
    {
      if delivery.id in rows {
        rows := rows[delivery.id := delivery.Value().(createdAt := rows[delivery.id].createdAt)];
      }
    }
  }

  datatype BatchResult = BatchResult(processed: nat, failures: nat)

  /** Number of results that count as failures: sent and not ok. */
  function Failures(results: seq<Option<SendResult>>): (n: nat)
    ensures n <= |results|
  {
    if results == [] then 0
    else Failures(results[..|results| - 1])
         + (if results[|results| - 1].Some? && !results[|results| - 1].value.ok then 1 else 0)
  }

  /** What its own result makes of a delivery; without one it is skipped. `at` is the clock read when recording it. */
  function Outcome(d: Delivery, result: Option<SendResult>, policy: RetryPolicy, at: Time): Delivery {
    if result.Some? then Recorded(d, result.value, policy, at) else d
  }

  /** The deliveries in `done` made the transition of their own result; every other row is as it was. */
  ghost predicate AllRecorded(before: map<DeliveryId, Delivery>, after: map<DeliveryId, Delivery>,
                              done: seq<DeliveryId>, send: DeliveryId -> Option<SendResult>, policy: RetryPolicy,
                              clock: DeliveryId -> Time)
  {
    && after.Keys == before.Keys
    && forall id | id in before ::
         after[id] == if id in done then Outcome(before[id], send(id), policy, clock(id)) else before[id]
  }

  lemma RecordedOneMore(before: map<DeliveryId, Delivery>, mid: map<DeliveryId, Delivery>, done: seq<DeliveryId>,
                        id: DeliveryId, send: DeliveryId -> Option<SendResult>, policy: RetryPolicy,
                        clock: DeliveryId -> Time)
    requires AllRecorded(before, mid, done, send, policy, clock) && id in before && id !in done
    ensures AllRecorded(before, mid[id := Outcome(mid[id], send(id), policy, clock(id))], done + [id], send, policy,
                        clock)
  {
    hide Outcome;
  }

  class DeliverDueWebhooksHandler {
    const batchSize: nat
    const policy: RetryPolicy

    constructor (batchSize: nat, policy: RetryPolicy)
      ensures this.batchSize == batchSize && this.policy == policy
    {
      this.batchSize, this.policy := batchSize, policy;
    }

    /** Applies one result to its delivery and saves it; the transition is never refused. */
    method Record(repo: WebhookRepository, id: DeliveryId, result: SendResult, now: Time) returns (failed: bool)
      requires id in repo.rows && repo.rows[id].status.Pending?
      modifies repo
      ensures repo.rows == old(repo.rows)[id := Recorded(old(repo.rows)[id], result, policy, now)]
      ensures failed <==> !result.ok
    {
      var delivery := new WebhookDelivery.FromRow(id, repo.rows[id]);
      var valid: bool;
      if result.ok {
        valid := delivery.MarkSuccess(now, result.statusCode, result.body);
      } else {
        valid := delivery.RecordFailure(now, result.statusCode, result.body, policy);
      }
      assert valid;
      repo.Update(delivery);
      failed := !result.ok;
    }

    /** The recording loop: each claimed delivery makes exactly the one transition of its own send result, no
        other row is touched, and the failures reported are the results that were not ok. */
    method RecordBatch(repo: WebhookRepository, ids: seq<DeliveryId>, send: DeliveryId -> Option<SendResult>,
                       clock: DeliveryId -> Time)
      returns (failures: nat)
      requires Distinct(ids) && forall id | id in ids :: id in repo.rows && repo.rows[id].status.Pending?
      modifies repo
      ensures AllRecorded(old(repo.rows), repo.rows, ids, send, policy, clock)
      ensures failures == Failures(seq(|ids|, i requires 0 <= i < |ids| => send(ids[i])))
    {
      hide Recorded;
      var results := seq(|ids|, i requires 0 <= i < |ids| => send(ids[i]));
      failures := 0;
      for i := 0 to |ids|
        invariant AllRecorded(old(repo.rows), repo.rows, ids[..i], send, policy, clock)
        invariant failures == Failures(results[..i])
      {
        var id := ids[i];
        assert id !in ids[..i] && ids[..i + 1] == ids[..i] + [id];
        RecordedOneMore(old(repo.rows), repo.rows, ids[..i], id, send, policy, clock);
        if results[i].Some? {
          var failed := Record(repo, id, results[i].value, clock(id));
          failures := failures + (if failed then 1 else 0);
        } else {
          assert repo.rows == repo.rows[id := repo.rows[id]];
        }
        assert results[..i + 1][..i] == results[..i];
      }
      assert results[..|ids|] == results && ids[..|ids|] == ids;
    }

    /** One undisturbed batch: claim, send all (`send` is what each send returns, None when the payment is not
        found), record all. */
    method Handle(repo: WebhookRepository, now: Time, locked: set<DeliveryId>, send: DeliveryId -> Option<SendResult>,
                  clock: DeliveryId -> Time)
      returns (result: BatchResult, ghost ids: seq<DeliveryId>)
      modifies repo
      ensures OldestFirst(old(repo.rows), ClaimableIds(old(repo.rows), now, locked), batchSize, ids)
      ensures AllRecorded(old(repo.rows), repo.rows, ids, send, policy, clock)
      ensures result == BatchResult(|ids|, Failures(seq(|ids|, i requires 0 <= i < |ids| => send(ids[i]))))
    {
      var deliveries := repo.ClaimDue(batchSize, now, locked);
      ids := deliveries;
      if deliveries == [] {
        return BatchResult(0, 0), [];
      }
      var failures := RecordBatch(repo, deliveries, send, clock);
      result := BatchResult(|deliveries|, failures);
    }
  }
}
