/** The outbox lease protocol as a state machine: any number of workers poll, publish outside a
    transaction and record the results. Every SQL statement is one step. A row written by an open
    transaction carries a lock with the uncommitted draft; other writers wait for it, SKIP LOCKED
    omits it. A worker may fail or crash between any two steps. */
module Lease {
  import opened Types
  import opened OutboxRows
  import opened Backoff

  /** `skew` bounds the time between a worker reading `now` and its claim statement running. */
  datatype Config = Config(policy: Policy, timeout: Time, limit: nat, skew: Time)

  ghost predicate ValidConfig(c: Config) {
    ValidPolicy(c.policy) && 0.0 <= c.timeout && 0.0 <= c.skew
  }

  datatype Lock = Lock(owner: WorkerId, draft: Option<Row>)

  /** History of one committed claim: who took the lease, the claim's `now`, and the publish it led to. */
  datatype Claim = Claim(worker: WorkerId, at: Time, start: Option<Time>, finish: Option<Time>, ok: bool)

  /** One outbox message: its committed row (None once purged), the lock of an open transaction, and history. */
  datatype Message = Message(
    createdAt: Time,
    row: Option<Row>,
    lock: Option<Lock>,
    claims: seq<Claim>,
    passes: nat,
    died: bool)

  type Messages = map<MessageId, Message>

  /** Where a worker is in its loop. `batch` maps a claimed message to the `attempts` of its snapshot. */
  datatype Phase =
    | Idle
    | Polling(now: Time, stage: nat, taken: set<MessageId>, passed: set<MessageId>)
    | Publishing(now: Time, batch: map<MessageId, nat>)
    | Marking(now: Time, batch: map<MessageId, nat>, left: set<MessageId>)
    | Purging(stage: nat)

  datatype State = State(clock: Time, messages: Messages, workers: map<WorkerId, Phase>)

  datatype Action =
    | Insert(id: MessageId, createdAt: Time)
    | Tick(to: Time)
    | Join(w: WorkerId)
    | BeginPoll(w: WorkerId)
    | ReleaseToDead(w: WorkerId, at: Time)
    | ReleaseToPending(w: WorkerId)
    | ClaimBatch(w: WorkerId, ids: set<MessageId>)
    | StartPublish(w: WorkerId, id: MessageId)
    | FinishPublish(w: WorkerId, id: MessageId, ok: bool)
    | BeginMark(w: WorkerId)
    | MarkOk(w: WorkerId, id: MessageId, at: Time)
    | MarkFailed(w: WorkerId, id: MessageId, factor: real, at: Time)
    | BeginPurge(w: WorkerId)
    | ReapExhausted(w: WorkerId, at: Time)
    | PurgeOld(w: WorkerId, cutoff: Time)
    | Commit(w: WorkerId)
    | Abort(w: WorkerId)
    | Crash(w: WorkerId)

  // ---------------------------------------------------------------------------
  // Transactions
  // ---------------------------------------------------------------------------

  predicate LockedBy(m: Message, w: WorkerId) {
    m.lock.Some? && m.lock.value.owner == w
  }

  /** What a statement of `w` sees: committed data plus the transaction's own writes. */
  function View(m: Message, w: WorkerId): Option<Row> {
    if LockedBy(m, w) then m.lock.value.draft else m.row
  }

  predicate Hits(st: Statement, id: MessageId, m: Message, w: WorkerId) {
    View(m, w).Some? && Matches(st, id, View(m, w).value)
  }

  function Touch(st: Statement, id: MessageId, m: Message, w: WorkerId): Message {
    if Hits(st, id, m, w) then m.(lock := Some(Lock(w, Updated(st, View(m, w).value)))) else m
  }

  /** The statement need not wait: no row it would change is locked by somebody else. */
  ghost predicate Unblocked(st: Statement, ms: Messages, w: WorkerId) {
    forall id | id in ms && Hits(st, id, ms[id], w) :: ms[id].lock.None? || LockedBy(ms[id], w)
  }

  function RunStatement(st: Statement, ms: Messages, w: WorkerId): Messages {
    map id | id in ms :: Touch(st, id, ms[id], w)
  }

  predicate TxOpen(p: Phase) {
    p.Polling? || p.Marking? || p.Purging?
  }

  /** One message when the transaction of `w`, in phase `p`, commits. */
  function Settle(id: MessageId, m: Message, w: WorkerId, p: Phase): Message {
    var m1 := if !LockedBy(m, w) then m else
                m.(row := m.lock.value.draft,
                   lock := None,
                   died := m.died || (m.lock.value.draft.Some? && m.lock.value.draft.value.status.Dead?));
    if p.Polling? && id in p.taken then
      m1.(claims := m1.claims + [Claim(w, p.now, None, None, false)])
    else if p.Polling? && id in p.passed then
      m1.(passes := m1.passes + 1)
    else m1
  }

  function Unlock(m: Message, w: WorkerId): Message {
    if LockedBy(m, w) then m.(lock := None) else m
  }

  /** A crash also cuts off the publishes of the worker that are still running. */
  function CutOff(cl: Claim, w: WorkerId, clock: Time): Claim {
    if cl.worker == w && cl.start.Some? && cl.finish.None? then cl.(finish := Some(clock)) else cl
  }

  function Drop(m: Message, w: WorkerId, clock: Time): Message {
    var m1 := Unlock(m, w);
    m1.(claims := seq(|m.claims|, i requires 0 <= i < |m.claims| => CutOff(m.claims[i], w, clock)))
  }

  /** The subquery of `claim_batch`: eligible rows that no open transaction of another worker has locked. */
  function Selectable(s: State, w: WorkerId, now: Time, max: nat): set<MessageId> {
    set id | id in s.messages
             && (s.messages[id].lock.None? || LockedBy(s.messages[id], w))
             && View(s.messages[id], w).Some?
             && Eligible(View(s.messages[id], w).value, now, max)
  }

  function CreationTimesOf(ms: Messages): map<MessageId, Time> {
    map id | id in ms :: ms[id].createdAt
  }

  // ---------------------------------------------------------------------------
  // Steps
  // ---------------------------------------------------------------------------

  predicate Running(s: State, w: WorkerId, id: MessageId) {
    && w in s.workers && s.workers[w].Publishing? && id in s.workers[w].batch
    && id in s.messages && 1 <= s.workers[w].batch[id] <= |s.messages[id].claims|
  }

  /** The history record of the publish `w` owes message `id`. */
  function Current(s: State, w: WorkerId, id: MessageId): Claim
    requires Running(s, w, id)
  {
    s.messages[id].claims[s.workers[w].batch[id] - 1]
  }

  function WithCurrent(s: State, w: WorkerId, id: MessageId, cl: Claim): State
    requires Running(s, w, id)
  {
    var m := s.messages[id];
    s.(messages := s.messages[id := m.(claims := m.claims[s.workers[w].batch[id] - 1 := cl])])
  }

  predicate AllFinished(s: State, w: WorkerId)
    requires w in s.workers && s.workers[w].Publishing?
  {
    forall id | id in s.workers[w].batch :: Running(s, w, id) && Current(s, w, id).finish.Some?
  }

  /** The decision of the worker about a failed message: what it hands to `mark_publish_failure`. */
  function WorkerRetryAt(c: Config, p: Phase, id: MessageId, factor: real): Option<Time>
    requires p.Marking? && id in p.batch && 1 <= p.batch[id]
  {
    NextRetryAt(c.policy, p.batch[id], p.now, factor)
  }

  predicate MayMark(s: State, w: WorkerId, id: MessageId, ok: bool) {
    && w in s.workers && s.workers[w].Marking? && id in s.workers[w].left && id in s.workers[w].batch
    && id in s.messages && 1 <= s.workers[w].batch[id] <= |s.messages[id].claims|
    && s.messages[id].claims[s.workers[w].batch[id] - 1].ok == ok
  }

  /** The SQL statement an action executes, if it is one. */
  function StatementOf(c: Config, s: State, a: Action): Option<Statement> {
    match a
    case ReleaseToDead(w, at) =>
      if w in s.workers && s.workers[w].Polling? && s.workers[w].stage == 0
      then Some(ReleaseDead(s.workers[w].now, c.timeout, c.policy.maxAttempts, at)) else None
    case ReleaseToPending(w) =>
      if w in s.workers && s.workers[w].Polling? && s.workers[w].stage == 1
      then Some(ReleasePending(s.workers[w].now, c.timeout, c.policy.maxAttempts)) else None
    case ClaimBatch(w, ids) =>
      if w in s.workers && s.workers[w].Polling? && s.workers[w].stage == 2
      then Some(ClaimIds(ids, s.workers[w].now, w)) else None
    case MarkOk(w, id, at) =>
      if MayMark(s, w, id, true) then Some(MarkProcessed(id, w, at)) else None
    case MarkFailed(w, id, factor, at) =>
      if MayMark(s, w, id, false) && ValidFactor(c.policy, factor)
      then Some(MarkFailure(id, w, c.policy.maxAttempts, WorkerRetryAt(c, s.workers[w], id, factor), at)) else None
    case ReapExhausted(w, at) =>
      if w in s.workers && s.workers[w].Purging? && s.workers[w].stage == 0
      then Some(Reap(c.policy.maxAttempts, at)) else None
    case PurgeOld(w, cutoff) =>
      if w in s.workers && s.workers[w].Purging? && s.workers[w].stage == 1
      then Some(Purge(cutoff)) else None
    case _ => None
  }

  predicate IsStatement(a: Action) {
    || a.ReleaseToDead? || a.ReleaseToPending? || a.ClaimBatch?
    || a.MarkOk? || a.MarkFailed?
    || a.ReapExhausted? || a.PurgeOld?
  }

  /** The worker's own progress after a statement. */
  function Advanced(c: Config, s: State, a: Action): Phase
    requires StatementOf(c, s, a).Some?
  {
    var p := s.workers[a.w];
    match a
    case ReleaseToDead(_, _) => p.(stage := 1)
    case ReleaseToPending(_) => p.(stage := 2)
    case ClaimBatch(w, ids) =>
      p.(stage := 3, taken := ids, passed := Selectable(s, w, p.now, c.policy.maxAttempts) - ids)
    case MarkOk(_, id, _) => p.(left := p.left - {id})
    case MarkFailed(_, id, _, _) => p.(left := p.left - {id})
    case ReapExhausted(_, _) => p.(stage := 1)
    case PurgeOld(_, _) => p.(stage := 2)
    case _ => p
  }

  predicate ReadyToCommit(p: Phase) {
    || (p.Polling? && p.stage == 3)
    || (p.Marking? && p.left == {})
    || (p.Purging? && p.stage == 2)
  }

  predicate HasDraft(ms: Messages, w: WorkerId, id: MessageId) {
    id in ms && LockedBy(ms[id], w) && ms[id].lock.value.draft.Some?
  }

  /** Where the worker goes once its transaction is committed: with the messages its claim returned,
      each with the `attempts` of the row the claim wrote. */
  function AfterCommit(ms: Messages, w: WorkerId, p: Phase): Phase {
    if p.Polling? && p.taken != {} then
      Publishing(p.now, map id | id in p.taken && HasDraft(ms, w, id) :: ms[id].lock.value.draft.value.attempts)
    else Idle
  }

  ghost predicate Enabled(c: Config, s: State, a: Action) {
    if IsStatement(a) then
      && StatementOf(c, s, a).Some?
      && Unblocked(StatementOf(c, s, a).value, s.messages, a.w)
      && (a.ClaimBatch? ==>
            && s.clock <= s.workers[a.w].now + c.skew
            && Oldest(CreationTimesOf(s.messages), Selectable(s, a.w, s.workers[a.w].now, c.policy.maxAttempts),
                      c.limit, a.ids))
    else
      match a
      case Insert(id, _) => id !in s.messages
      case Tick(to) => s.clock <= to
      case Join(w) =>
        && w !in s.workers
        && forall id | id in s.messages ::
             forall k | 0 <= k < |s.messages[id].claims| :: s.messages[id].claims[k].worker != w
      case BeginPoll(w) => w in s.workers && s.workers[w].Idle?
      case StartPublish(w, id) => Running(s, w, id) && Current(s, w, id).start.None?
      case FinishPublish(w, id, _) =>
        Running(s, w, id) && Current(s, w, id).start.Some? && Current(s, w, id).finish.None?
      case BeginMark(w) => w in s.workers && s.workers[w].Publishing? && AllFinished(s, w)
      case BeginPurge(w) => w in s.workers && s.workers[w].Idle?
      case Commit(w) => w in s.workers && ReadyToCommit(s.workers[w])
      case Abort(w) => w in s.workers && TxOpen(s.workers[w])
      case Crash(w) => w in s.workers
      case _ => false
  }

  ghost function Apply(c: Config, s: State, a: Action): State
    requires Enabled(c, s, a)
  {
    if IsStatement(a) then
      s.(messages := RunStatement(StatementOf(c, s, a).value, s.messages, a.w),
         workers := s.workers[a.w := Advanced(c, s, a)])
    else
      match a
      case Insert(id, createdAt) =>
        s.(messages := s.messages[id := Message(createdAt, Some(FreshRow(createdAt)), None, [], 0, false)])
      case Tick(to) => s.(clock := to)
      case Join(w) => s.(workers := s.workers[w := Idle])
      case BeginPoll(w) => s.(workers := s.workers[w := Polling(s.clock, 0, {}, {})])
      case StartPublish(w, id) => WithCurrent(s, w, id, Current(s, w, id).(start := Some(s.clock)))
      case FinishPublish(w, id, ok) => WithCurrent(s, w, id, Current(s, w, id).(finish := Some(s.clock), ok := ok))
      case BeginMark(w) =>
        s.(workers := s.workers[w := Marking(s.workers[w].now, s.workers[w].batch, s.workers[w].batch.Keys)])
      case BeginPurge(w) => s.(workers := s.workers[w := Purging(0)])
      case Commit(w) =>
        s.(messages := map id | id in s.messages :: Settle(id, s.messages[id], w, s.workers[w]),
           workers := s.workers[w := AfterCommit(s.messages, w, s.workers[w])])
      case Abort(w) =>
        s.(messages := map id | id in s.messages :: Unlock(s.messages[id], w),
           workers := s.workers[w := Idle])
      case Crash(w) =>
        s.(messages := map id | id in s.messages :: Drop(s.messages[id], w, s.clock),
           workers := s.workers - {w})
      case _ => s
  }

  ghost predicate Init(s: State) {
    s.messages == map[] && s.workers == map[]
  }
}
