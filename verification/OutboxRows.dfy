/** The outbox table: rows, the WHERE and SET clauses of every statement, and what the statements
    do to a whole table. The repository class and the lease protocol both use these definitions. */
module OutboxRows {
  import opened Types

  datatype Status = Pending | Processing | Processed | Dead

  datatype Row = Row(
    createdAt: Time,
    attempts: nat,
    status: Status,
    nextRetryAt: Option<Time>,
    claimedAt: Option<Time>,
    claimedBy: Option<WorkerId>,
    processedAt: Option<Time>,
    finishedAt: Option<Time>)

  type Table = map<MessageId, Row>

  /** The row `collect_events` stages: column defaults, no attempt spent. */
  function FreshRow(createdAt: Time): Row {
    Row(createdAt, 0, Pending, None, None, None, None, None)
  }

  predicate Terminal(r: Row) {
    r.status.Processed? || r.status.Dead?
  }

  predicate Expired(r: Row, now: Time, timeout: Time) {
    r.status.Processing? && r.claimedAt.Some? && r.claimedAt.value < now - timeout
  }

  predicate Eligible(r: Row, now: Time, maxAttempts: nat) {
    && r.status.Pending?
    && r.processedAt.None?
    && r.attempts < maxAttempts
    && (r.nextRetryAt.None? || r.nextRetryAt.value <= now)
  }

  predicate OwnedBy(r: Row, worker: WorkerId) {
    r.status.Processing? && r.claimedBy == Some(worker)
  }

  /** One UPDATE or DELETE of the repository. `at` is the database's own now(). */
  datatype Statement =
    | ReleaseDead(now: Time, timeout: Time, maxAttempts: nat, at: Time)
    | ReleasePending(now: Time, timeout: Time, maxAttempts: nat)
    | ClaimIds(ids: set<MessageId>, now: Time, worker: WorkerId)
    | MarkProcessed(id: MessageId, worker: WorkerId, at: Time)
    | MarkFailure(id: MessageId, worker: WorkerId, maxAttempts: nat, retryAt: Option<Time>, at: Time)
    | Reap(maxAttempts: nat, at: Time)
    | Purge(cutoff: Time)

  /** The WHERE clause. */
  predicate Matches(st: Statement, id: MessageId, r: Row) {
    match st
    case ReleaseDead(now, timeout, max, _) => Expired(r, now, timeout) && r.attempts >= max
    case ReleasePending(now, timeout, max) => Expired(r, now, timeout) && r.attempts < max
    case ClaimIds(ids, _, _) => id in ids
    case MarkProcessed(i, w, _) => id == i && OwnedBy(r, w)
    case MarkFailure(i, w, _, _, _) => id == i && OwnedBy(r, w)
    case Reap(max, _) => r.status.Pending? && r.attempts >= max
    case Purge(cutoff) => Terminal(r) && r.finishedAt.Some? && r.finishedAt.value < cutoff
  }

  /** The SET clause; None is a DELETE. */
  function Updated(st: Statement, r: Row): Option<Row> {
    match st
    case ReleaseDead(_, _, _, at) =>
      Some(r.(status := Dead, claimedAt := None, claimedBy := None, nextRetryAt := None, finishedAt := Some(at)))
    case ReleasePending(_, _, _) =>
      Some(r.(status := Pending, claimedAt := None, claimedBy := None))
    case ClaimIds(_, now, w) =>
      Some(r.(status := Processing, claimedAt := Some(now), claimedBy := Some(w), attempts := r.attempts + 1))
    case MarkProcessed(_, _, at) =>
      Some(r.(processedAt := Some(at), status := Processed, claimedAt := None, claimedBy := None,
              finishedAt := Some(at)))
    case MarkFailure(_, _, max, retryAt, at) =>
      var exceeded := r.attempts >= max;
      Some(r.(
           status := if exceeded then Dead else Pending,
           claimedAt := None,
           claimedBy := None,
           nextRetryAt := if exceeded then None else retryAt,
           finishedAt := if exceeded then Some(at) else None))
    case Reap(_, at) =>
      Some(r.(status := Dead, nextRetryAt := None, finishedAt := Some(at)))
    case Purge(_) => None
  }

  function Matched(st: Statement, t: Table): set<MessageId> {
    set id | id in t && Matches(st, id, t[id])
  }

  /** The table after a statement that nobody blocks. */
  function Execute(st: Statement, t: Table): Table {
    map id | id in t && (Matches(st, id, t[id]) ==> Updated(st, t[id]).Some?)
      :: if Matches(st, id, t[id]) then Updated(st, t[id]).value else t[id]
  }

  /** ORDER BY created_at, id. */
  predicate Precedes(createdA: Time, a: MessageId, createdB: Time, b: MessageId) {
    createdA < createdB || (createdA == createdB && a < b)
  }

  function EligibleIds(t: Table, now: Time, maxAttempts: nat): set<MessageId> {
    set id | id in t && Eligible(t[id], now, maxAttempts)
  }

  /** ORDER BY ... LIMIT: `chosen` are the oldest `limit` of `from`, or all of them when there are fewer. */
  predicate Oldest(created: map<MessageId, Time>, from: set<MessageId>, limit: nat, chosen: set<MessageId>)
    requires from <= created.Keys
  {
    && chosen <= from
    && |chosen| <= limit
    && (|chosen| < limit ==> chosen == from)
    && forall a, b | a in chosen && b in from - chosen :: Precedes(created[a], a, created[b], b)
  }

  function CreationTimes(t: Table): map<MessageId, Time> {
    map id | id in t :: t[id].createdAt
  }

  predicate OldestFirst(t: Table, from: set<MessageId>, limit: nat, chosen: set<MessageId>)
    requires from <= t.Keys
  {
    Oldest(CreationTimes(t), from, limit, chosen)
  }

  /** What every reachable row satisfies. */
  ghost predicate RowInv(r: Row, maxAttempts: nat) {
    && (r.status.Processing? <==> r.claimedAt.Some?)
    && (r.status.Processing? <==> r.claimedBy.Some?)
    && (Terminal(r) <==> r.finishedAt.Some?)
    && (r.status.Processed? <==> r.processedAt.Some?)
    && r.attempts <= maxAttempts
    && (r.status.Pending? ==> r.attempts < maxAttempts)
    && (r.status.Dead? ==> r.attempts == maxAttempts)
    && (r.status.Processing? || r.status.Processed? ==> 1 <= r.attempts)
    && (r.status.Processing? && r.nextRetryAt.Some? ==> r.nextRetryAt.value <= r.claimedAt.value)
  }

  ghost predicate TableInv(t: Table, maxAttempts: nat) {
    forall id | id in t :: RowInv(t[id], maxAttempts)
  }

  /** The limit a statement carries is the service's, and a claim only names eligible rows. */
  ghost predicate Issued(st: Statement, id: MessageId, r: Row, maxAttempts: nat) {
    match st
    case ReleaseDead(_, _, max, _) => max == maxAttempts
    case ReleasePending(_, _, max) => max == maxAttempts
    case ClaimIds(ids, now, _) => id in ids ==> Eligible(r, now, maxAttempts)
    case MarkFailure(_, _, max, _, _) => max == maxAttempts
    case Reap(max, _) => max == maxAttempts
    case _ => true
  }

  /** Position of a row on its way from pending with no attempts to a terminal status:
      (max - attempts, is processing) read upwards, as one number between 0 and 2 * max. */
  function Rank(r: Row): int {
    2 * r.attempts - (if r.status.Processing? then 1 else 0)
  }

  // ---------------------------------------------------------------------------
  // One statement, one row
  // ---------------------------------------------------------------------------

  /** Every effective statement keeps the row invariant and climbs the rank; a terminal row is only ever deleted. */
  lemma StatementOnRow(st: Statement, id: MessageId, r: Row, maxAttempts: nat)
    requires RowInv(r, maxAttempts)
    requires Issued(st, id, r, maxAttempts)
    requires Matches(st, id, r)
    ensures Updated(st, r).None? <==> st.Purge?
    ensures Updated(st, r).None? ==> Terminal(r)
    ensures Updated(st, r).Some? ==>
              var r' := Updated(st, r).value;
              RowInv(r', maxAttempts) && !Terminal(r) && Rank(r) < Rank(r') <= 2 * maxAttempts
                && r'.createdAt == r.createdAt
    ensures !st.Reap?
  {
  }

  // ---------------------------------------------------------------------------
  // One statement, the whole table
  // ---------------------------------------------------------------------------

  lemma StatementKeepsTable(st: Statement, t: Table, maxAttempts: nat)
    requires TableInv(t, maxAttempts)
    requires forall id | id in t :: Issued(st, id, t[id], maxAttempts)
    ensures TableInv(Execute(st, t), maxAttempts)
    ensures forall id | id in t && id !in Execute(st, t) :: Terminal(t[id])
  {
    forall id | id in t && Matches(st, id, t[id])
      ensures Updated(st, t[id]).Some? ==> RowInv(Updated(st, t[id]).value, maxAttempts)
      ensures Updated(st, t[id]).None? ==> Terminal(t[id])
    {
      StatementOnRow(st, id, t[id], maxAttempts);
    }
  }

  ghost function ExpiredIds(t: Table, now: Time, timeout: Time): set<MessageId> {
    set id | id in t && Expired(t[id], now, timeout)
  }

  /** The table after both updates of `release_expired_claims`. */
  function Released(t: Table, now: Time, timeout: Time, maxAttempts: nat, at: Time): Table {
    Execute(ReleasePending(now, timeout, maxAttempts), Execute(ReleaseDead(now, timeout, maxAttempts, at), t))
  }

  /** The two updates row by row: a lease taken longer ago than the timeout is over, the last attempt ends dead, an
      earlier one goes back to pending, and no other row changes. */
  lemma ReleasedRow(t: Table, now: Time, timeout: Time, maxAttempts: nat, at: Time, m: MessageId)
    requires m in t
    ensures m in Released(t, now, timeout, maxAttempts, at)
    ensures var r, r' := t[m], Released(t, now, timeout, maxAttempts, at)[m];
            if !(r.status.Processing? && r.claimedAt.Some? && r.claimedAt.value + timeout < now) then r' == r
            else if r.attempts >= maxAttempts
            then r' == Row(r.createdAt, r.attempts, Dead, None, None, None, r.processedAt, Some(at))
            else r' == Row(r.createdAt, r.attempts, Pending, r.nextRetryAt, None, None, r.processedAt, r.finishedAt)
  {
    assert m in Execute(ReleaseDead(now, timeout, maxAttempts, at), t);
  }

  lemma WhoIsReleased(t: Table, now: Time, timeout: Time, maxAttempts: nat, at: Time)
    ensures var afterDead := Execute(ReleaseDead(now, timeout, maxAttempts, at), t);
            && Matched(ReleaseDead(now, timeout, maxAttempts, at), t)
               == (set m | m in t && Expired(t[m], now, timeout) && t[m].attempts >= maxAttempts)
            && Matched(ReleasePending(now, timeout, maxAttempts), afterDead)
               == (set m | m in t && Expired(t[m], now, timeout) && t[m].attempts < maxAttempts)
            && Released(t, now, timeout, maxAttempts, at).Keys == t.Keys
  {
  }

  /** The two updates partition the expired rows; afterwards no lease is expired, nothing else moved,
      and every row put back to pending can be claimed by the very same cycle. */
  lemma LeaseRecovery(t: Table, now: Time, timeout: Time, maxAttempts: nat, at: Time)
    requires TableInv(t, maxAttempts)
    requires 0.0 <= timeout
    ensures var dead := Matched(ReleaseDead(now, timeout, maxAttempts, at), t);
            var afterDead := Execute(ReleaseDead(now, timeout, maxAttempts, at), t);
            var back := Matched(ReleasePending(now, timeout, maxAttempts), afterDead);
            var t' := Released(t, now, timeout, maxAttempts, at);
            && dead !! back
            && dead + back == ExpiredIds(t, now, timeout)
            && |dead| + |back| == |ExpiredIds(t, now, timeout)|
            && ExpiredIds(t', now, timeout) == {}
            && t'.Keys == t.Keys
            && (forall id | id in t && id !in dead + back :: t'[id] == t[id])
            && (forall id | id in dead :: t'[id].status.Dead? && t'[id].attempts == maxAttempts)
            && (forall id | id in back :: Eligible(t'[id], now, maxAttempts) && t'[id].attempts == t[id].attempts)
  {
    var dead := Matched(ReleaseDead(now, timeout, maxAttempts, at), t);
    var afterDead := Execute(ReleaseDead(now, timeout, maxAttempts, at), t);
    var back := Matched(ReleasePending(now, timeout, maxAttempts), afterDead);
    WhoIsReleased(t, now, timeout, maxAttempts, at);
    forall m | m in t ensures m in Released(t, now, timeout, maxAttempts, at) {
      ReleasedRow(t, now, timeout, maxAttempts, at, m);
    }
    hide Matched, Execute, Released;
    assert dead + back == ExpiredIds(t, now, timeout);
    assert |dead + back| == |dead| + |back|;
    forall m | m in t
      ensures var r, r' := t[m], Released(t, now, timeout, maxAttempts, at)[m];
              && !Expired(r', now, timeout)
              && (m !in dead + back ==> r' == r)
              && (m in dead ==> r'.status.Dead? && r'.attempts == maxAttempts)
              && (m in back ==> Eligible(r', now, maxAttempts) && r'.attempts == r.attempts)
    {
      ReleasedRow(t, now, timeout, maxAttempts, at, m);
    }
  }

  /** On a table of reachable rows the safety net `reap_exhausted` changes nothing. */
  lemma ReapIsIdentity(t: Table, maxAttempts: nat, at: Time)
    requires TableInv(t, maxAttempts)
    ensures Execute(Reap(maxAttempts, at), t) == t
  {
  }

  // ---------------------------------------------------------------------------
  // The ordered, bounded claim
  // ---------------------------------------------------------------------------

  ghost predicate IsOldest(t: Table, from: set<MessageId>, m: MessageId)
    requires from <= t.Keys
  {
    m in from && forall x | x in from && x != m :: Precedes(t[m].createdAt, m, t[x].createdAt, x)
  }

  lemma {:induction false} OldestExists(t: Table, from: set<MessageId>) returns (m: MessageId)
    requires from <= t.Keys && from != {}
    ensures IsOldest(t, from, m)
  {
    m :| m in from;
    if from != {m} {
      var rest := OldestExists(t, from - {m});
      if Precedes(t[rest].createdAt, rest, t[m].createdAt, m) {
        m := rest;
      }
    }
  }

  /** SELECT ... ORDER BY ... LIMIT always has an answer. */
  lemma {:induction false} OldestFirstExists(t: Table, from: set<MessageId>, limit: nat)
    returns (chosen: set<MessageId>)
    requires from <= t.Keys
    ensures OldestFirst(t, from, limit, chosen)
    decreases limit
  {
    if limit == 0 || from == {} {
      chosen := {};
    } else {
      var m := OldestExists(t, from);
      var rest := OldestFirstExists(t, from - {m}, limit - 1);
      chosen := {m} + rest;
      assert |chosen| == |rest| + 1;
      assert from - chosen == from - {m} - rest;
    }
  }

  /** An eligible row that a claim passes over is younger than everything the claim took, and the claim is full. */
  lemma PassedOverIsYounger(t: Table, from: set<MessageId>, limit: nat, chosen: set<MessageId>, m: MessageId)
    requires from <= t.Keys
    requires OldestFirst(t, from, limit, chosen)
    requires m in from && m !in chosen
    ensures |chosen| == limit
    ensures forall a | a in chosen :: Precedes(t[a].createdAt, a, t[m].createdAt, m)
  {
    var created := CreationTimes(t);
    forall a | a in chosen ensures Precedes(t[a].createdAt, a, t[m].createdAt, m) {
      assert Precedes(created[a], a, created[m], m);
    }
  }

  /** The claim row by row. What it takes was pending, unprocessed, within its attempts and due, and becomes a lease
      of this worker with one more attempt; nothing else changes; and a row it could have taken but left is no older
      than any it took, with ids deciding between equals, and left only because the claim was full. */
  lemma ClaimTakesOldest(t: Table, now: Time, maxAttempts: nat, limit: nat, worker: WorkerId, chosen: set<MessageId>,
                         m: MessageId)
    requires OldestFirst(t, EligibleIds(t, now, maxAttempts), limit, chosen) && m in t
    ensures m in Execute(ClaimIds(chosen, now, worker), t)
    ensures var r, r' := t[m], Execute(ClaimIds(chosen, now, worker), t)[m];
            var due := r.status.Pending? && r.processedAt.None? && r.attempts < maxAttempts
                       && (r.nextRetryAt.None? || r.nextRetryAt.value <= now);
            if m in chosen
            then due && r' == Row(r.createdAt, r.attempts + 1, Processing, r.nextRetryAt, Some(now), Some(worker),
                                  r.processedAt, r.finishedAt)
            else r' == r && (due ==> |chosen| == limit && forall a | a in chosen ::
                                 t[a].createdAt < r.createdAt || (t[a].createdAt == r.createdAt && a < m))
  {
    if m !in chosen && m in EligibleIds(t, now, maxAttempts) {
      PassedOverIsYounger(t, EligibleIds(t, now, maxAttempts), limit, chosen, m);
    }
  }

  /** The answer is unique. */
  lemma OldestFirstUnique(t: Table, from: set<MessageId>, limit: nat, a: set<MessageId>, b: set<MessageId>)
    requires from <= t.Keys
    requires OldestFirst(t, from, limit, a)
    requires OldestFirst(t, from, limit, b)
    ensures a == b
  {
    if a < b {
      var y :| y in b && y !in a;
      SubsetSmaller(a, b, y);
    } else if b < a {
      var x :| x in a && x !in b;
      SubsetSmaller(b, a, x);
    } else if a != b {
      var x :| x in a && x !in b;
      var y :| y in b && y !in a;
      PassedOverIsYounger(t, from, limit, a, y);
      PassedOverIsYounger(t, from, limit, b, x);
    }
  }

  lemma SubsetSmaller(small: set<MessageId>, large: set<MessageId>, x: MessageId)
    requires small <= large && x in large - small
    ensures |small| < |large|
  {
    assert |large - small| + |small| == |large| by {
      assert large - small + small == large;
    }
    assert large - small != {};
  }
}
