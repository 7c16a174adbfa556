/** The publish pool inside the lease protocol: workers that publish under the semaphore finish every batch
    within its lease, so the publishes of one message never overlap. */
module LeasePool {
  import opened Types
  import opened OutboxRows
  import opened Lease
  import opened LeaseInvariant
  import opened LeaseTheorems
  import opened LeaseTiming
  import opened PublishPool

  // ---------------------------------------------------------------------------
  // Batches are never larger than the limit
  // ---------------------------------------------------------------------------

  ghost predicate Bounded(c: Config, p: Phase) {
    match p
    case Polling(_, _, taken, _) => |taken| <= c.limit
    case Publishing(_, batch) => |batch| <= c.limit
    case _ => true
  }

  ghost predicate AllBounded(c: Config, s: State) {
    forall w | w in s.workers :: Bounded(c, s.workers[w])
  }

  lemma CommitIsBounded(c: Config, ms: Messages, w: WorkerId, p: Phase)
    requires Bounded(c, p)
    ensures Bounded(c, AfterCommit(ms, w, p))
  {
    if p.Polling? && p.taken != {} {
      var batch := AfterCommit(ms, w, p).batch;
      assert batch.Keys <= p.taken;
      SubsetSize(batch.Keys, p.taken);
    }
  }

  lemma StepKeepsBounded(c: Config, s: State, a: Action)
    requires AllBounded(c, s) && Enabled(c, s, a)
    ensures AllBounded(c, Apply(c, s, a))
  {
    hide Unblocked, RunStatement, Settle, Unlock, Drop, AfterCommit, Selectable;
    if a.Commit? {
      CommitIsBounded(c, s.messages, a.w, s.workers[a.w]);
    }
  }

  lemma {:induction false} RunKeepsBounded(c: Config, ss: seq<State>, acts: seq<Action>, n: nat)
    requires IsRun(c, ss, acts) && n < |ss|
    ensures AllBounded(c, ss[n])
  {
    if n > 0 {
      RunKeepsBounded(c, ss, acts, n - 1);
      StepKeepsBounded(c, ss[n - 1], acts[n - 1]);
    }
  }

  // ---------------------------------------------------------------------------
  // The rules of the pool
  // ---------------------------------------------------------------------------

  /** How the workers publish: `permits` at a time, each publish at most `timeout` long, and a claim is committed at
      most `delay` after its `now` was read. */
  datatype Pool = Pool(permits: nat, timeout: Time, delay: Time)

  ghost predicate ValidPool(pool: Pool) {
    1 <= pool.permits && 0.0 <= pool.timeout && 0.0 <= pool.delay
  }

  /** The publish records of the batch a worker is publishing. */
  ghost function Records(s: State, w: WorkerId): map<MessageId, Claim> {
    map id | id in s.messages && Running(s, w, id) :: Current(s, w, id)
  }

  /** Publishes that hold a permit. */
  ghost function UnderWay(m: map<MessageId, Claim>): set<MessageId> {
    set id | id in m && m[id].start.Some? && m[id].finish.None?
  }

  ghost function Unstarted(m: map<MessageId, Claim>): set<MessageId> {
    set id | id in m && m[id].start.None?
  }

  /** What semaphore and timeout allow: a publish starts only with a permit; time does not run past the timeout of a
      publish that is under way, nor at all while a permit is free and a publish of the batch waits for one; and a
      claim is committed within the delay. */
  ghost predicate Pooled(pool: Pool, s: State, a: Action) {
    match a
    case StartPublish(w, _) => |UnderWay(Records(s, w))| < pool.permits
    case Tick(to) =>
      && (forall w, id | w in s.workers && id in UnderWay(Records(s, w)) ::
            to <= Records(s, w)[id].start.value + pool.timeout)
      && (s.clock < to ==>
            forall w | w in s.workers ::
              pool.permits <= |UnderWay(Records(s, w))| || Unstarted(Records(s, w)) == {})
    case Commit(w) =>
      w in s.workers && s.workers[w].Polling? && s.workers[w].taken != {} ==>
        s.clock <= s.workers[w].now + pool.delay
    case _ => true
  }

  ghost predicate IsPooledRun(c: Config, pool: Pool, ss: seq<State>, acts: seq<Action>) {
    IsRun(c, ss, acts) && forall i | 0 <= i < |acts| :: Pooled(pool, ss[i], acts[i])
  }

  // ---------------------------------------------------------------------------
  // Rounds
  // ---------------------------------------------------------------------------

  /** q rounds of `permits` publishes each. */
  function Slots(q: nat, permits: nat): nat {
    if q == 0 then 0 else Slots(q - 1, permits) + permits
  }

  /** How many full rounds k publishes make. */
  function Full(k: nat, permits: nat): nat
    requires 1 <= permits
  {
    if k < permits then 0 else 1 + Full(k - permits, permits)
  }

  lemma {:induction false} SlotsShift(q: nat, permits: nat)
    ensures Slots(q + 1, permits) == permits + Slots(q, permits)
  {
    if q > 0 {
      SlotsShift(q - 1, permits);
    }
  }

  lemma {:induction false} FullRounds(k: nat, permits: nat)
    requires 1 <= permits
    ensures Slots(Full(k, permits), permits) <= k < Slots(Full(k, permits) + 1, permits)
  {
    if k >= permits {
      FullRounds(k - permits, permits);
      SlotsShift(Full(k - permits, permits), permits);
      SlotsShift(Full(k - permits, permits) + 1, permits);
    }
  }

  lemma {:induction false} SlotsMonotone(a: nat, b: nat, permits: nat)
    requires a <= b
    ensures Slots(a, permits) <= Slots(b, permits)
    decreases b
  {
    if a < b {
      SlotsMonotone(a, b - 1, permits);
    }
  }

  /** A round that k publishes have not filled is not before the one they are in. */
  lemma FullAtMost(k: nat, q: nat, permits: nat)
    requires 1 <= permits && k < Slots(q + 1, permits)
    ensures Full(k, permits) <= q
  {
    FullRounds(k, permits);
    if q < Full(k, permits) {
      SlotsMonotone(q + 1, Full(k, permits), permits);
    }
  }

  lemma FullMonotone(a: nat, b: nat, permits: nat)
    requires 1 <= permits && a <= b
    ensures Full(a, permits) <= Full(b, permits)
  {
    FullRounds(b, permits);
    FullAtMost(a, Full(b, permits), permits);
  }

  lemma {:induction false} CeilIsFull(n: nat, permits: nat)
    requires 1 <= permits && 1 <= n
    ensures Ceil(n, permits) == Full(n - 1, permits) + 1
  {
    if n > permits {
      CeilIsFull(n - permits, permits);
    }
  }

  // ---------------------------------------------------------------------------
  // The invariant of a batch in the pool
  // ---------------------------------------------------------------------------

  /** Publishes under way that began after `bound`. */
  ghost function Late(m: map<MessageId, Claim>, bound: Time): set<MessageId> {
    set id | id in UnderWay(m) && bound < m[id].start.value
  }

  function Excess(k: nat, slots: nat): nat {
    if k <= slots then 0 else k - slots
  }

  /** The number of publishes of the batch that have begun. */
  ghost function Begun(m: map<MessageId, Claim>): nat
    ensures Begun(m) + |Unstarted(m)| == |m|
  {
    SubsetSize(Unstarted(m), m.Keys);
    |m| - |Unstarted(m)|
  }

  /** While publishes wait, the clock is within the rounds filled so far; after round q at most as many publishes are
      under way late as have begun beyond it. `begin` bounds the commit of the claim. */
  ghost predicate BatchInPool(pool: Pool, clock: Time, begin: Time, m: map<MessageId, Claim>)
    requires 1 <= pool.permits
  {
    && (Unstarted(m) != {} ==> clock <= RoundEnd(begin, pool.timeout, Full(Begun(m), pool.permits)))
    && (forall id | id in UnderWay(m) :: clock <= m[id].start.value + pool.timeout)
    && (forall id | id in Unstarted(m) :: m[id].finish.None?)
    && (forall q: nat :: |Late(m, RoundEnd(begin, pool.timeout, q))| <= Excess(Begun(m), Slots(q + 1, pool.permits)))
    && |UnderWay(m)| <= pool.permits
  }

  lemma StartMoves(m: map<MessageId, Claim>, id: MessageId, cl: Claim)
    requires id in Unstarted(m) && m[id].finish.None? && cl.start.Some? && cl.finish.None?
    ensures UnderWay(m[id := cl]) == UnderWay(m) + {id} && id !in UnderWay(m)
    ensures Unstarted(m[id := cl]) == Unstarted(m) - {id}
    ensures |m[id := cl]| == |m| && Begun(m[id := cl]) == Begun(m) + 1
  {
    assert m[id := cl].Keys == m.Keys;
  }

  lemma LateAfterStart(m: map<MessageId, Claim>, id: MessageId, cl: Claim, bound: Time)
    requires id in Unstarted(m) && m[id].finish.None? && cl.start.Some? && cl.finish.None?
    ensures |Late(m[id := cl], bound)| <= |Late(m, bound)| + (if bound < cl.start.value then 1 else 0)
  {
    StartMoves(m, id, cl);
    if bound < cl.start.value {
      assert Late(m[id := cl], bound) == Late(m, bound) + {id};
    } else {
      assert Late(m[id := cl], bound) == Late(m, bound);
    }
  }

  lemma StartKeepsPool(pool: Pool, clock: Time, begin: Time, m: map<MessageId, Claim>, id: MessageId, cl: Claim)
    requires 1 <= pool.permits && 0.0 <= pool.timeout && BatchInPool(pool, clock, begin, m)
    requires id in Unstarted(m) && cl.start == Some(clock) && cl.finish.None?
    requires |UnderWay(m)| < pool.permits
    ensures BatchInPool(pool, clock, begin, m[id := cl])
  {
    var m', k := m[id := cl], Begun(m);
    assert id in m && Unstarted(m) != {};
    hide Late, UnderWay, Unstarted;
    StartMoves(m, id, cl);
    FullMonotone(k, k + 1, pool.permits);
    RoundEndMonotone(begin, pool.timeout, Full(k, pool.permits), Full(k + 1, pool.permits));
    forall q: nat
      ensures |Late(m', RoundEnd(begin, pool.timeout, q))| <= Excess(k + 1, Slots(q + 1, pool.permits))
    {
      LateAfterStart(m, id, cl, RoundEnd(begin, pool.timeout, q));
      if k < Slots(q + 1, pool.permits) {
        FullAtMost(k, q, pool.permits);
        RoundEndMonotone(begin, pool.timeout, Full(k, pool.permits), q);
      }
    }
    assert |UnderWay(m) + {id}| == |UnderWay(m)| + 1;
  }

  lemma FinishKeepsPool(pool: Pool, clock: Time, begin: Time, m: map<MessageId, Claim>, id: MessageId, cl: Claim)
    requires 1 <= pool.permits && BatchInPool(pool, clock, begin, m)
    requires id in UnderWay(m) && cl.start == m[id].start && cl.finish.Some?
    ensures BatchInPool(pool, clock, begin, m[id := cl])
  {
    var m' := m[id := cl];
    assert UnderWay(m') == UnderWay(m) - {id} && Unstarted(m') == Unstarted(m) && m'.Keys == m.Keys;
    assert |m'| == |m| && Begun(m') == Begun(m);
    forall q: nat
      ensures |Late(m', RoundEnd(begin, pool.timeout, q))| <= Excess(Begun(m'), Slots(q + 1, pool.permits))
    {
      SubsetSize(Late(m', RoundEnd(begin, pool.timeout, q)), Late(m, RoundEnd(begin, pool.timeout, q)));
    }
  }

  /** When time runs on although publishes wait, all permits are taken, and one of their publishes began in time. */
  lemma OneBeganInTime(pool: Pool, clock: Time, begin: Time, m: map<MessageId, Claim>) returns (id: MessageId)
    requires 1 <= pool.permits && BatchInPool(pool, clock, begin, m) && pool.permits <= |UnderWay(m)|
    ensures 1 <= Full(Begun(m), pool.permits)
    ensures id in UnderWay(m) && m[id].start.value <= RoundEnd(begin, pool.timeout, Full(Begun(m), pool.permits) - 1)
  {
    var k := Begun(m);
    assert |UnderWay(m)| <= k by {
      SubsetSize(UnderWay(m), m.Keys - Unstarted(m));
      assert |m.Keys - Unstarted(m)| == |m.Keys| - |Unstarted(m)|;
    }
    FullRounds(k, pool.permits);
    var q := Full(k, pool.permits) - 1;
    var late := Late(m, RoundEnd(begin, pool.timeout, q));
    assert Slots(q + 2, pool.permits) == Slots(q + 1, pool.permits) + pool.permits;
    assert |late| < |UnderWay(m)|;
    if UnderWay(m) <= late {
      SubsetSize(UnderWay(m), late);
      assert false;
    }
    id :| id in UnderWay(m) && id !in late;
  }

  lemma TickKeepsPool(pool: Pool, clock: Time, to: Time, begin: Time, m: map<MessageId, Claim>)
    requires 1 <= pool.permits && 0.0 <= pool.timeout && BatchInPool(pool, clock, begin, m) && clock <= to
    requires forall id | id in UnderWay(m) :: to <= m[id].start.value + pool.timeout
    requires clock < to ==> pool.permits <= |UnderWay(m)| || Unstarted(m) == {}
    ensures BatchInPool(pool, to, begin, m)
  {
    if clock < to && Unstarted(m) != {} {
      var id := OneBeganInTime(pool, clock, begin, m);
    }
  }

  lemma NewBatchInPool(pool: Pool, clock: Time, begin: Time, m: map<MessageId, Claim>)
    requires 1 <= pool.permits && clock <= begin && forall id | id in m :: m[id].start.None? && m[id].finish.None?
    ensures BatchInPool(pool, clock, begin, m)
  {
    assert UnderWay(m) == {} && Unstarted(m) == m.Keys;
    assert forall bound :: Late(m, bound) == {};
  }

  /** Once the rounds of the whole batch are over, every publish of it has ended. */
  lemma UnfinishedIsInRounds(pool: Pool, clock: Time, begin: Time, m: map<MessageId, Claim>, id: MessageId)
    requires 1 <= pool.permits && 0.0 <= pool.timeout && BatchInPool(pool, clock, begin, m)
    requires id in m && m[id].finish.None?
    ensures clock <= RoundEnd(begin, pool.timeout, Ceil(|m|, pool.permits))
  {
    var n, k := |m|, Begun(m);
    assert 1 <= n by {
      assert m.Keys != {};
    }
    CeilIsFull(n, pool.permits);
    var q := Full(n - 1, pool.permits);
    if id in Unstarted(m) {
      FullMonotone(k, n - 1, pool.permits);
      RoundEndMonotone(begin, pool.timeout, Full(k, pool.permits), q + 1);
    } else {
      FullRounds(n - 1, pool.permits);
      assert Late(m, RoundEnd(begin, pool.timeout, q)) == {};
      assert id !in Late(m, RoundEnd(begin, pool.timeout, q));
    }
  }

  // ---------------------------------------------------------------------------
  // Every step of a pooled run keeps it
  // ---------------------------------------------------------------------------

  ghost predicate PoolOf(pool: Pool, s: State, w: WorkerId)
    requires 1 <= pool.permits
  {
    w in s.workers && s.workers[w].Publishing? ==>
      BatchInPool(pool, s.clock, s.workers[w].now + pool.delay, Records(s, w))
  }

  ghost predicate PoolInv(pool: Pool, s: State)
    requires 1 <= pool.permits
  {
    forall w | w in s.workers :: PoolOf(pool, s, w)
  }

  /** The step is a publish of this worker. */
  predicate Publishes(a: Action, w: WorkerId) {
    (a.StartPublish? || a.FinishPublish?) && a.w == w
  }

  /** A worker that goes on publishing keeps its batch and its records, unless the step is a publish of its own. */
  lemma RecordKept(c: Config, s: State, a: Action, w: WorkerId, id: MessageId)
    requires Inv(c, s) && Enabled(c, s, a) && w in s.workers && s.workers[w].Publishing?
    requires w in Apply(c, s, a).workers && Apply(c, s, a).workers[w].Publishing? && !Publishes(a, w)
    requires id in s.messages && Running(s, w, id)
    ensures Apply(c, s, a).workers[w] == s.workers[w]
    ensures id in Apply(c, s, a).messages && Running(Apply(c, s, a), w, id)
    ensures Current(Apply(c, s, a), w, id) == Current(s, w, id)
  {
    hide MessagesOk, Matches, Updated, AfterCommit, FinishedEntry;
    assert PhaseOk(s.messages, s.clock, w, s.workers[w]);
    assert EntryOk(s.messages, w, s.workers[w].now, id, s.workers[w].batch[id]);
    if a.StartPublish? || a.FinishPublish? {
      assert PhaseOk(s.messages, s.clock, a.w, s.workers[a.w]);
      assert EntryOk(s.messages, a.w, s.workers[a.w].now, a.id, s.workers[a.w].batch[a.id]);
    }
  }

  /** Every message of a batch has a record. */
  lemma RecordsOfBatch(c: Config, s: State, w: WorkerId)
    requires Inv(c, s) && w in s.workers && s.workers[w].Publishing?
    ensures Records(s, w).Keys == s.workers[w].batch.Keys
  {
    hide MessagesOk;
    assert PhaseOk(s.messages, s.clock, w, s.workers[w]);
    forall id | id in s.workers[w].batch ensures id in Records(s, w) {
      assert EntryOk(s.messages, w, s.workers[w].now, id, s.workers[w].batch[id]);
    }
  }

  lemma RecordsKept(c: Config, s: State, a: Action, w: WorkerId)
    requires ValidConfig(c) && Inv(c, s) && Enabled(c, s, a) && w in s.workers && s.workers[w].Publishing?
    requires w in Apply(c, s, a).workers && Apply(c, s, a).workers[w].Publishing? && !Publishes(a, w)
    ensures Apply(c, s, a).workers[w].now == s.workers[w].now
    ensures Records(Apply(c, s, a), w) == Records(s, w)
  {
    hide Inv, Enabled, Apply;
    var s' := Apply(c, s, a);
    StepKeepsInv(c, s, a);
    RecordsOfBatch(c, s, w);
    RecordsOfBatch(c, s', w);
    SamePhase(c, s, a, w);
    forall id | id in s.workers[w].batch
      ensures id in s.messages && Running(s, w, id) && Records(s', w)[id] == Records(s, w)[id]
    {
      assert id in Records(s, w);
      RecordKept(c, s, a, w, id);
    }
  }

  lemma SamePhase(c: Config, s: State, a: Action, w: WorkerId)
    requires Enabled(c, s, a) && w in s.workers && s.workers[w].Publishing?
    requires w in Apply(c, s, a).workers && Apply(c, s, a).workers[w].Publishing?
    ensures Apply(c, s, a).workers[w] == s.workers[w]
  {
  }

  lemma WithCurrentRecords(s: State, w: WorkerId, id: MessageId, cl: Claim)
    requires Running(s, w, id)
    ensures id in Records(s, w) && Records(s, w)[id] == Current(s, w, id)
    ensures Records(WithCurrent(s, w, id, cl), w) == Records(s, w)[id := cl]
  {
    var s' := WithCurrent(s, w, id, cl);
    assert forall x :: x in Records(s', w) <==> x in Records(s, w);
  }

  lemma PublishMovesRecord(c: Config, s: State, a: Action, w: WorkerId)
    requires Enabled(c, s, a) && Publishes(a, w)
    ensures w in s.workers && s.workers[w].Publishing? && Apply(c, s, a).workers == s.workers
    ensures Apply(c, s, a).clock == s.clock
    ensures a.id in Records(s, w)
    ensures var cl := if a.StartPublish? then Records(s, w)[a.id].(start := Some(s.clock))
                      else Records(s, w)[a.id].(finish := Some(s.clock), ok := a.ok);
            Records(Apply(c, s, a), w) == Records(s, w)[a.id := cl]
  {
    var cl := if a.StartPublish? then Current(s, w, a.id).(start := Some(s.clock))
              else Current(s, w, a.id).(finish := Some(s.clock), ok := a.ok);
    WithCurrentRecords(s, w, a.id, cl);
    hide Records;
  }

  lemma OwnPublishKeepsPool(c: Config, pool: Pool, s: State, a: Action, w: WorkerId)
    requires ValidConfig(c) && ValidPool(pool) && Inv(c, s) && PoolOf(pool, s, w)
    requires Enabled(c, s, a) && Pooled(pool, s, a) && Publishes(a, w)
    ensures PoolOf(pool, Apply(c, s, a), w)
  {
    hide Inv, Enabled, Apply, BatchInPool, Records, Late, UnderWay, Unstarted;
    PublishMovesRecord(c, s, a, w);
    PublishIsOfBatch(c, s, a);
    var m, begin := Records(s, w), s.workers[w].now + pool.delay;
    if a.StartPublish? {
      UnstartedIsOpen(pool, s.clock, begin, m, a.id);
      StartKeepsPool(pool, s.clock, begin, m, a.id, m[a.id].(start := Some(s.clock)));
    } else {
      FinishKeepsPool(pool, s.clock, begin, m, a.id, m[a.id].(finish := Some(s.clock), ok := a.ok));
    }
  }

  lemma UnstartedIsOpen(pool: Pool, clock: Time, begin: Time, m: map<MessageId, Claim>, id: MessageId)
    requires 1 <= pool.permits && BatchInPool(pool, clock, begin, m) && id in Unstarted(m)
    ensures m[id].finish.None?
  {
  }

  lemma PublishIsOfBatch(c: Config, s: State, a: Action)
    requires Enabled(c, s, a) && (a.StartPublish? || a.FinishPublish?)
    ensures a.id in Records(s, a.w)
    ensures if a.StartPublish? then a.id in Unstarted(Records(s, a.w)) else a.id in UnderWay(Records(s, a.w))
  {
  }

  /** A worker that starts publishing has just committed its claim, and nothing of its batch has begun. */
  lemma FreshBatch(c: Config, s: State, a: Action, w: WorkerId)
    requires ValidConfig(c) && Inv(c, s) && Enabled(c, s, a) && w in Apply(c, s, a).workers
    requires Apply(c, s, a).workers[w].Publishing?
    requires w in s.workers ==> !s.workers[w].Publishing?
    ensures a.Commit? && a.w == w && w in s.workers && s.workers[w].Polling? && s.workers[w].taken != {}
    ensures Apply(c, s, a).workers[w].now == s.workers[w].now && Apply(c, s, a).clock == s.clock
    ensures forall id | id in Records(Apply(c, s, a), w) ::
              Records(Apply(c, s, a), w)[id].start.None? && Records(Apply(c, s, a), w)[id].finish.None?
  {
    NewPublisherCommitted(c, s, a, w);
    var s' := Apply(c, s, a);
    forall id | id in Records(s', w) ensures Records(s', w)[id].start.None? && Records(s', w)[id].finish.None? {
      FreshRecord(c, s, w, id);
    }
  }

  lemma NewPublisherCommitted(c: Config, s: State, a: Action, w: WorkerId)
    requires Enabled(c, s, a) && w in Apply(c, s, a).workers && Apply(c, s, a).workers[w].Publishing?
    requires w in s.workers ==> !s.workers[w].Publishing?
    ensures a == Commit(w) && w in s.workers && s.workers[w].Polling? && s.workers[w].taken != {}
    ensures Apply(c, s, a).workers[w].now == s.workers[w].now && Apply(c, s, a).clock == s.clock
  {
  }

  lemma FreshRecord(c: Config, s: State, w: WorkerId, id: MessageId)
    requires Inv(c, s) && Enabled(c, s, Commit(w)) && s.workers[w].Polling? && s.workers[w].taken != {}
    requires id in Records(Apply(c, s, Commit(w)), w)
    ensures var cl := Records(Apply(c, s, Commit(w)), w)[id];
            cl.start.None? && cl.finish.None?
  {
    hide HistoryInv, RowAgrees;
    assert MessageOk(c, s.clock, id, s.messages[id], s.workers);
    assert PhaseOk(s.messages, s.clock, w, s.workers[w]);
  }

  lemma StepKeepsPool(c: Config, pool: Pool, s: State, a: Action)
    requires ValidConfig(c) && ValidPool(pool) && Inv(c, s) && PoolInv(pool, s) && Enabled(c, s, a)
    requires Pooled(pool, s, a)
    ensures PoolInv(pool, Apply(c, s, a))
  {
    hide Inv, Enabled, Apply, BatchInPool, Records, UnderWay, Unstarted;
    var s' := Apply(c, s, a);
    forall w | w in s'.workers ensures PoolOf(pool, s', w) {
      if s'.workers[w].Publishing? {
        if Publishes(a, w) {
          PublishMovesRecord(c, s, a, w);
          assert PoolOf(pool, s, w);
          OwnPublishKeepsPool(c, pool, s, a, w);
        } else if w in s.workers && s.workers[w].Publishing? {
          assert PoolOf(pool, s, w);
          RecordsKept(c, s, a, w);
          ClockMoves(c, s, a);
          if a.Tick? {
            TickKeepsPool(pool, s.clock, s'.clock, s.workers[w].now + pool.delay, Records(s, w));
          }
        } else {
          FreshBatch(c, s, a, w);
          NewBatchInPool(pool, s'.clock, s'.workers[w].now + pool.delay, Records(s', w));
        }
      }
    }
  }

  lemma ClockMoves(c: Config, s: State, a: Action)
    requires Enabled(c, s, a)
    ensures if a.Tick? then Apply(c, s, a).clock == a.to && s.clock <= a.to else Apply(c, s, a).clock == s.clock
  {
  }

  lemma {:induction false} RunKeepsPool(c: Config, pool: Pool, ss: seq<State>, acts: seq<Action>, n: nat)
    requires ValidConfig(c) && ValidPool(pool) && IsPooledRun(c, pool, ss, acts) && n < |ss|
    ensures PoolInv(pool, ss[n])
  {
    hide Inv, Enabled, Apply, PoolOf, Pooled;
    if n > 0 {
      RunKeepsPool(c, pool, ss, acts, n - 1);
      RunKeepsInv(c, ss, acts, n - 1);
      StepKeepsPool(c, pool, ss[n - 1], acts[n - 1]);
    }
  }

  // ---------------------------------------------------------------------------
  // What the pool guarantees
  // ---------------------------------------------------------------------------

  lemma UnfinishedRecord(c: Config, s: State, w: WorkerId) returns (id: MessageId)
    requires Inv(c, s) && w in s.workers && s.workers[w].Publishing? && !AllFinished(s, w)
    ensures id in Records(s, w) && Records(s, w)[id].finish.None? && |Records(s, w)| == |s.workers[w].batch|
  {
    hide Inv;
    id :| id in s.workers[w].batch && !(Running(s, w, id) && Current(s, w, id).finish.Some?);
    RecordsOfBatch(c, s, w);
    assert id in Records(s, w);
    assert |Records(s, w).Keys| == |s.workers[w].batch.Keys|;
  }

  lemma FinishedInRounds(c: Config, pool: Pool, s: State, w: WorkerId)
    requires ValidConfig(c) && ValidPool(pool) && Inv(c, s) && PoolInv(pool, s)
    requires w in s.workers && s.workers[w].Publishing? && !AllFinished(s, w)
    ensures s.clock <= RoundEnd(s.workers[w].now + pool.delay, pool.timeout, Ceil(|s.workers[w].batch|, pool.permits))
  {
    hide Inv, BatchInPool, AllFinished, Records;
    assert PoolOf(pool, s, w);
    var id := UnfinishedRecord(c, s, w);
    UnfinishedIsInRounds(pool, s.clock, s.workers[w].now + pool.delay, Records(s, w), id);
  }

  lemma PermitsHold(pool: Pool, s: State, w: WorkerId)
    requires ValidPool(pool) && PoolInv(pool, s) && w in s.workers && s.workers[w].Publishing?
    ensures |UnderWay(Records(s, w))| <= pool.permits
  {
    hide Records, UnderWay;
    assert PoolOf(pool, s, w);
  }

  /** In every pooled run at most `permits` publishes of a worker are under way, and a batch of n messages has been
      published once ceil(n / permits) timeouts have passed since its claim was due. */
  lemma BatchEndsInRounds(c: Config, pool: Pool, ss: seq<State>, acts: seq<Action>, n: nat, w: WorkerId)
    requires ValidConfig(c) && ValidPool(pool) && IsPooledRun(c, pool, ss, acts) && n < |ss|
    requires w in ss[n].workers && ss[n].workers[w].Publishing?
    ensures |UnderWay(Records(ss[n], w))| <= pool.permits
    ensures var p := ss[n].workers[w];
            ss[n].clock > p.now + pool.delay + Ceil(|p.batch|, pool.permits) as real * pool.timeout ==>
              AllFinished(ss[n], w)
  {
    hide AllFinished, Inv, Enabled, Apply, Pooled, Records, PoolInv;
    RunKeepsInv(c, ss, acts, n);
    RunKeepsPool(c, pool, ss, acts, n);
    PermitsHold(pool, ss[n], w);
    if !AllFinished(ss[n], w) {
      FinishedInRounds(c, pool, ss[n], w);
      RoundEndIs(ss[n].workers[w].now + pool.delay, pool.timeout, Ceil(|ss[n].workers[w].batch|, pool.permits));
    }
  }

  /** ceil(limit / permits) timeouts, plus the delay of the claim, fit the lease. */
  ghost predicate FitsLease(c: Config, pool: Pool)
    requires 1 <= pool.permits
  {
    pool.delay + Ceil(c.limit, pool.permits) as real * pool.timeout <= c.timeout
  }

  /** With the shipped settings (50 messages, 10 permits, 5 s, a claim timeout of 300 s) a batch needs 25 s of its
      lease, so it fits whenever its claim is committed within the other 275. */
  lemma DefaultSettingsFit(c: Config, pool: Pool)
    requires c.limit == 50 && c.timeout == 300.0 && pool.permits == 10 && pool.timeout == 5.0
    ensures FitsLease(c, pool) <==> pool.delay <= 275.0
  {
    CeilIsCeiling(50, 10);
  }

  lemma RoundsFitLease(c: Config, pool: Pool, now: Time, n: nat)
    requires ValidPool(pool) && n <= c.limit && FitsLease(c, pool)
    ensures RoundEnd(now + pool.delay, pool.timeout, Ceil(n, pool.permits)) <= now + c.timeout
  {
    var begin := now + pool.delay;
    CeilMonotone(n, c.limit, pool.permits);
    RoundEndMonotone(begin, pool.timeout, Ceil(n, pool.permits), Ceil(c.limit, pool.permits));
    RoundEndIs(begin, pool.timeout, Ceil(c.limit, pool.permits));
  }

  lemma PooledIsTimely(c: Config, pool: Pool, ss: seq<State>, acts: seq<Action>, n: nat)
    requires ValidConfig(c) && ValidPool(pool) && IsPooledRun(c, pool, ss, acts) && n < |ss| && FitsLease(c, pool)
    ensures Timely(c, ss[n])
  {
    hide Inv, AllFinished, Enabled, Apply, Pooled, PoolInv, FitsLease, RoundEnd, Ceil;
    RunKeepsInv(c, ss, acts, n);
    RunKeepsPool(c, pool, ss, acts, n);
    RunKeepsBounded(c, ss, acts, n);
    forall w | w in ss[n].workers && ss[n].workers[w].Publishing? && !AllFinished(ss[n], w)
      ensures ss[n].clock <= ss[n].workers[w].now + c.timeout
    {
      FinishedInRounds(c, pool, ss[n], w);
      assert Bounded(c, ss[n].workers[w]);
      RoundsFitLease(c, pool, ss[n].workers[w].now, |ss[n].workers[w].batch|);
    }
  }

  /** With a full batch's ceil(limit / permits) publish timeouts within the claim timeout, publishes of one message
      under different leases never overlap. */
  lemma PooledPublishesNeverOverlap(c: Config, pool: Pool, ss: seq<State>, acts: seq<Action>, n: nat, id: MessageId,
                                    j: nat, k: nat)
    requires ValidConfig(c) && ValidPool(pool) && IsPooledRun(c, pool, ss, acts) && n < |ss| && FitsLease(c, pool)
    requires id in ss[n].messages && j < k < |ss[n].messages[id].claims|
    requires ss[n].messages[id].claims[j].start.Some? && ss[n].messages[id].claims[k].start.Some?
    ensures var h := ss[n].messages[id].claims;
            h[j].finish.Some? && h[j].finish.value <= h[k].start.value
  {
    hide Inv, Enabled, Apply, Pooled, Timely;
    forall i | 0 <= i < n ensures Timely(c, ss[i]) {
      PooledIsTimely(c, pool, ss, acts, i);
    }
    NoOverlappingPublishes(c, ss, acts, n, id, j, k);
  }
}
