/** Two theorems about a run's timing and order: publishes of one message never overlap while batches
    finish within their lease, and a message can be passed over only a bounded number of times. */
module LeaseTiming {
  import opened Types
  import opened Sums
  import opened OutboxRows
  import opened Backoff
  import opened Lease
  import opened LeaseInvariant
  import opened LeaseTheorems

  // ---------------------------------------------------------------------------
  // No overlapping publishes
  // ---------------------------------------------------------------------------

  /** Every worker that still has a publish to finish is within the lease of its batch. */
  ghost predicate Timely(c: Config, s: State) {
    forall w | w in s.workers && s.workers[w].Publishing? && !AllFinished(s, w) ::
      s.clock <= s.workers[w].now + c.timeout
  }

  /** Entry `id -> k` of a batch that is still to be published: the lease stands and nobody is touching the row. */
  ghost predicate StandingLease(m: Message, w: WorkerId, now: Time, k: nat) {
    && m.lock.None?
    && m.row.Some? && OwnedBy(m.row.value, w) && m.row.value.claimedAt == Some(now)
    && |m.claims| == k
  }

  ghost predicate Unfinished(m: Message, k: nat) {
    1 <= k <= |m.claims| && m.claims[k - 1].finish.None?
  }

  ghost predicate LeaseStands(ms: Messages, w: WorkerId, p: Phase) {
    p.Publishing? ==>
      forall id | id in p.batch && id in ms && Unfinished(ms[id], p.batch[id]) ::
        StandingLease(ms[id], w, p.now, p.batch[id])
  }

  /** A publish that is running belongs to a batch entry of its worker. */
  ghost predicate OpenIsHeld(id: MessageId, m: Message, ws: map<WorkerId, Phase>) {
    forall j | 0 <= j < |m.claims| && m.claims[j].start.Some? && m.claims[j].finish.None? ::
      var w := m.claims[j].worker;
      w in ws && ws[w].Publishing? && id in ws[w].batch && ws[w].batch[id] == j + 1
  }

  /** If the publish of the earlier claim ever started it has ended, before that of the later claim began. */
  predicate Before(earlier: Claim, later: Claim) {
    earlier.start.Some? ==> earlier.finish.Some? && (later.start.Some? ==> earlier.finish.value <= later.start.value)
  }

  ghost predicate Ordered(clock: Time, h: seq<Claim>) {
    && (forall j | 0 <= j < |h| && h[j].finish.Some? :: h[j].finish.value <= clock)
    && (forall j, k | 0 <= j < k < |h| :: Before(h[j], h[k]))
  }

  ghost predicate TimingInv(s: State) {
    && (forall w | w in s.workers :: LeaseStands(s.messages, w, s.workers[w]))
    && (forall id | id in s.messages :: OpenIsHeld(id, s.messages[id], s.workers))
    && (forall id | id in s.messages :: Ordered(s.clock, s.messages[id].claims))
  }

  /** A row under a standing lease that has not expired matches no statement of anybody else. */
  lemma OutOfReach(c: Config, clock: Time, id: MessageId, row: Row, w: WorkerId, now: Time, st: Statement, p: Phase,
                   p': Phase)
    requires OwnedBy(row, w) && row.claimedAt == Some(now) && clock <= now + c.timeout
    requires Issues(c, clock, p, st, p')
    requires st.ClaimIds? && id in st.ids ==> Eligible(row, st.now, c.policy.maxAttempts)
    requires st.MarkProcessed? || st.MarkFailure? ==> st.worker != w
    ensures !Matches(st, id, row)
  {
  }

  /** A standing lease of a timely worker is out of reach of every statement of the others. */
  lemma StandingLeaseUntouched(c: Config, s: State, a: Action, w: WorkerId, id: MessageId)
    requires ValidConfig(c) && WorkersOk(s) && Timely(c, s) && Enabled(c, s, a) && IsStatement(a)
    requires w in s.workers && s.workers[w].Publishing? && id in s.workers[w].batch && id in s.messages
    requires Unfinished(s.messages[id], s.workers[w].batch[id])
    requires StandingLease(s.messages[id], w, s.workers[w].now, s.workers[w].batch[id])
    ensures !Hits(StatementOf(c, s, a).value, id, s.messages[id], a.w)
  {
    assert !AllFinished(s, w);
    assert PhaseOk(s.messages, s.clock, a.w, s.workers[a.w]);
    StatementIsIssued(c, s, a);
    OutOfReach(c, s.clock, id, s.messages[id].row.value, w, s.workers[w].now, StatementOf(c, s, a).value,
               s.workers[a.w], Advanced(c, s, a));
  }

  /** A worker outside the publishing phase has no publish running, so its phase may change freely. */
  lemma OpenFramed(id: MessageId, m: Message, m': Message, ws: map<WorkerId, Phase>, w: WorkerId, p': Phase)
    requires OpenIsHeld(id, m, ws) && m'.claims == m.claims
    requires w in ws && !ws[w].Publishing?
    ensures OpenIsHeld(id, m', ws[w := p'])
  {
  }

  lemma StatementKeepsLease(c: Config, s: State, a: Action, w: WorkerId)
    requires ValidConfig(c) && Inv(c, s) && TimingInv(s) && Timely(c, s) && Enabled(c, s, a) && IsStatement(a)
    requires w in s.workers && w != a.w
    ensures LeaseStands(RunStatement(StatementOf(c, s, a).value, s.messages, a.w), w, s.workers[w])
  {
    assert LeaseStands(s.messages, w, s.workers[w]);
    if s.workers[w].Publishing? {
      forall id | id in s.workers[w].batch && id in s.messages && Unfinished(s.messages[id], s.workers[w].batch[id])
        ensures StandingLease(Touch(StatementOf(c, s, a).value, id, s.messages[id], a.w), w, s.workers[w].now,
                              s.workers[w].batch[id])
      {
        StandingLeaseUntouched(c, s, a, w, id);
      }
    }
  }

  lemma StatementKeepsTiming(c: Config, s: State, a: Action)
    requires ValidConfig(c) && Inv(c, s) && TimingInv(s) && Timely(c, s) && Enabled(c, s, a) && IsStatement(a)
    ensures TimingInv(Apply(c, s, a))
  {
    hide Inv;
    var s' := Apply(c, s, a);
    forall w | w in s'.workers ensures LeaseStands(s'.messages, w, s'.workers[w]) {
      if w != a.w {
        StatementKeepsLease(c, s, a, w);
      }
    }
    forall id | id in s'.messages
      ensures OpenIsHeld(id, s'.messages[id], s'.workers) && Ordered(s'.clock, s'.messages[id].claims)
    {
      OpenFramed(id, s.messages[id], s'.messages[id], s.workers, a.w, s'.workers[a.w]);
      assert Ordered(s.clock, s.messages[id].claims);
    }
  }

  /** No publish of a message runs while another worker is about to commit a claim of it. */
  lemma ClaimedIsQuiet(c: Config, s: State, w: WorkerId, id: MessageId)
    requires Inv(c, s) && TimingInv(s)
    requires w in s.workers && s.workers[w].Polling? && id in s.workers[w].taken && id in s.messages
    ensures forall j | 0 <= j < |s.messages[id].claims| && s.messages[id].claims[j].start.Some? ::
              s.messages[id].claims[j].finish.Some?
  {
    var m := s.messages[id];
    assert PhaseOk(s.messages, s.clock, w, s.workers[w]);
    assert OpenIsHeld(id, m, s.workers);
    forall j | 0 <= j < |m.claims| && m.claims[j].start.Some? ensures m.claims[j].finish.Some? {
      if m.claims[j].finish.None? {
        var u := m.claims[j].worker;
        assert LeaseStands(s.messages, u, s.workers[u]);
        assert Unfinished(m, s.workers[u].batch[id]);
        assert false;
      }
    }
  }

  /** A fresh lease stands: the batch a worker has just claimed is its own, and nobody is touching it. */
  lemma FreshLeaseStands(c: Config, s: State, w: WorkerId)
    requires Inv(c, s) && w in s.workers && ReadyToCommit(s.workers[w])
    ensures LeaseStands(Committed(s.messages, w, s.workers[w]), w, AfterCommit(s.messages, w, s.workers[w]))
  {
    var p := s.workers[w];
    if p.Polling? {
      forall id | id in p.taken && HasDraft(s.messages, w, id)
        ensures StandingLease(Settle(id, s.messages[id], w, p), w, p.now,
                              s.messages[id].lock.value.draft.value.attempts)
      {
        assert MessageOk(c, s.clock, id, s.messages[id], s.workers);
      }
    }
  }

  lemma SettleKeepsHistory(c: Config, s: State, w: WorkerId, id: MessageId, p': Phase)
    requires Inv(c, s) && TimingInv(s) && w in s.workers && ReadyToCommit(s.workers[w]) && id in s.messages
    ensures var m' := Settle(id, s.messages[id], w, s.workers[w]);
            OpenIsHeld(id, m', s.workers[w := p']) && Ordered(s.clock, m'.claims)
  {
    hide Inv, TxOpen, DraftInv;
    var p, m := s.workers[w], s.messages[id];
    assert OpenIsHeld(id, m, s.workers);
    assert Ordered(s.clock, m.claims);
    if p.Polling? && id in p.taken {
      ClaimedIsQuiet(c, s, w, id);
      AppendKeepsHistory(id, m, s.workers, s.clock, Claim(w, p.now, None, None, false), w, p');
    }
  }

  lemma AppendKeepsHistory(id: MessageId, m: Message, ws: map<WorkerId, Phase>, clock: Time, cl: Claim, w: WorkerId,
                           p': Phase)
    requires Ordered(clock, m.claims) && cl.start.None? && cl.finish.None?
    requires forall j | 0 <= j < |m.claims| && m.claims[j].start.Some? :: m.claims[j].finish.Some?
    ensures Ordered(clock, m.claims + [cl])
    ensures OpenIsHeld(id, m.(claims := m.claims + [cl]), ws[w := p'])
  {
  }

  lemma CommitKeepsTiming(c: Config, s: State, a: Action)
    requires ValidConfig(c) && Inv(c, s) && TimingInv(s) && Enabled(c, s, a) && a.Commit?
    ensures TimingInv(Apply(c, s, a))
  {
    hide MessagesOk, LeaseStands, Ordered, OpenIsHeld;
    var s' := Apply(c, s, a);
    var p := s.workers[a.w];
    assert s'.messages == Committed(s.messages, a.w, p);
    assert PhaseOk(s.messages, s.clock, a.w, p);
    FreshLeaseStands(c, s, a.w);
    forall w | w in s'.workers ensures LeaseStands(s'.messages, w, s'.workers[w]) {
      if w != a.w {
        assert LeaseStands(s.messages, w, s.workers[w]);
        assert PhaseOk(s.messages, s.clock, w, s.workers[w]);
        OtherCommitKeepsLease(s.messages, w, s.workers[w], a.w, p);
      }
    }
    forall id | id in s'.messages
      ensures OpenIsHeld(id, s'.messages[id], s'.workers) && Ordered(s'.clock, s'.messages[id].claims)
    {
      SettleKeepsHistory(c, s, a.w, id, s'.workers[a.w]);
    }
  }

  lemma OtherCommitKeepsLease(ms: Messages, w: WorkerId, q: Phase, actor: WorkerId, p: Phase)
    requires w != actor && LeaseStands(ms, w, q)
    requires p.Polling? ==> forall id | id in p.taken :: id in ms && LockedBy(ms[id], actor)
    requires q.Publishing? ==> forall id | id in q.batch :: EntryOk(ms, w, q.now, id, q.batch[id])
    ensures LeaseStands(Committed(ms, actor, p), w, q)
  {
    var ms' := Committed(ms, actor, p);
    if q.Publishing? {
      forall id | id in q.batch && id in ms' && Unfinished(ms'[id], q.batch[id])
        ensures StandingLease(ms'[id], w, q.now, q.batch[id])
      {
        assert EntryOk(ms, w, q.now, id, q.batch[id]);
        assert ms'[id].claims[q.batch[id] - 1] == ms[id].claims[q.batch[id] - 1];
        assert Unfinished(ms[id], q.batch[id]);
      }
    }
  }

  lemma AbortKeepsTiming(c: Config, s: State, a: Action)
    requires ValidConfig(c) && Inv(c, s) && TimingInv(s) && Enabled(c, s, a) && a.Abort?
    ensures TimingInv(Apply(c, s, a))
  {
    var s' := Apply(c, s, a);
    forall w | w in s'.workers ensures LeaseStands(s'.messages, w, s'.workers[w]) {
      if w != a.w {
        assert LeaseStands(s.messages, w, s.workers[w]);
      }
    }
    forall id | id in s'.messages
      ensures OpenIsHeld(id, s'.messages[id], s'.workers) && Ordered(s'.clock, s'.messages[id].claims)
    {
      OpenFramed(id, s.messages[id], s'.messages[id], s.workers, a.w, s'.workers[a.w]);
      assert Ordered(s.clock, s.messages[id].claims);
    }
  }

  lemma CrashKeepsLease(ms: Messages, w: WorkerId, p: Phase, actor: WorkerId, clock: Time)
    requires LeaseStands(ms, w, p)
    ensures LeaseStands(map id | id in ms :: Drop(ms[id], actor, clock), w, p)
  {
    if p.Publishing? {
      forall id | id in p.batch && id in ms && Unfinished(Drop(ms[id], actor, clock), p.batch[id])
        ensures StandingLease(Drop(ms[id], actor, clock), w, p.now, p.batch[id])
      {
        assert Unfinished(ms[id], p.batch[id]);
      }
    }
  }

  lemma CrashKeepsTiming(c: Config, s: State, a: Action)
    requires ValidConfig(c) && Inv(c, s) && TimingInv(s) && Enabled(c, s, a) && a.Crash?
    ensures TimingInv(Apply(c, s, a))
  {
    var s' := Apply(c, s, a);
    forall w | w in s'.workers ensures LeaseStands(s'.messages, w, s'.workers[w]) {
      CrashKeepsLease(s.messages, w, s.workers[w], a.w, s.clock);
    }
    forall id | id in s'.messages
      ensures OpenIsHeld(id, s'.messages[id], s'.workers) && Ordered(s'.clock, s'.messages[id].claims)
    {
      CutOffOpen(id, s.messages[id], s.workers, a.w, s.clock);
      CutOffOrdered(s.clock, s.messages[id].claims, s'.messages[id].claims, a.w);
    }
  }

  lemma CutOffOpen(id: MessageId, m: Message, ws: map<WorkerId, Phase>, w: WorkerId, clock: Time)
    requires OpenIsHeld(id, m, ws)
    ensures OpenIsHeld(id, Drop(m, w, clock), ws - {w})
  {
  }

  lemma CutOffOrdered(clock: Time, h: seq<Claim>, h': seq<Claim>, w: WorkerId)
    requires Ordered(clock, h) && |h'| == |h| && forall j | 0 <= j < |h| :: h'[j] == CutOff(h[j], w, clock)
    ensures Ordered(clock, h')
  {
    forall j, k | 0 <= j < k < |h'| ensures Before(h'[j], h'[k]) {
      assert Before(h[j], h[k]);
    }
  }

  lemma UnfinishedIsLatest(c: Config, s: State, w: WorkerId, id: MessageId)
    requires Inv(c, s) && TimingInv(s) && Running(s, w, id) && Current(s, w, id).finish.None?
    ensures s.workers[w].batch[id] == |s.messages[id].claims|
    ensures Current(s, w, id).worker == w
  {
    assert PhaseOk(s.messages, s.clock, w, s.workers[w]);
    assert EntryOk(s.messages, w, s.workers[w].now, id, s.workers[w].batch[id]);
    assert LeaseStands(s.messages, w, s.workers[w]);
    assert Unfinished(s.messages[id], s.workers[w].batch[id]);
  }

  lemma NotStartedIsUnfinished(c: Config, s: State, w: WorkerId, id: MessageId)
    requires MessagesOk(c, s) && Running(s, w, id) && Current(s, w, id).start.None?
    ensures Current(s, w, id).finish.None?
  {
    assert MessageOk(c, s.clock, id, s.messages[id], s.workers);
    assert ClaimInv(s.clock, s.messages[id].claims[s.workers[w].batch[id] - 1]);
  }

  /** The publish a worker starts or finishes is the message's latest claim: the lease stands. */
  lemma PublishIsLatest(c: Config, s: State, a: Action)
    requires Inv(c, s) && TimingInv(s) && Enabled(c, s, a) && (a.StartPublish? || a.FinishPublish?)
    ensures Running(s, a.w, a.id) && Current(s, a.w, a.id).finish.None?
    ensures s.workers[a.w].batch[a.id] == |s.messages[a.id].claims|
    ensures Current(s, a.w, a.id).worker == a.w
  {
    hide MessagesOk, WorkersOk, TimingInv;
    if a.StartPublish? {
      NotStartedIsUnfinished(c, s, a.w, a.id);
    }
    UnfinishedIsLatest(c, s, a.w, a.id);
  }

  lemma FillKeepsLease(ms: Messages, w: WorkerId, p: Phase, id: MessageId, cl: Claim)
    requires LeaseStands(ms, w, p) && id in ms && ms[id].claims != [] && Last(ms[id].claims).finish.None?
    ensures LeaseStands(ms[id := ms[id].(claims := ms[id].claims[|ms[id].claims| - 1 := cl])], w, p)
  {
    var ms' := ms[id := ms[id].(claims := ms[id].claims[|ms[id].claims| - 1 := cl])];
    if p.Publishing? {
      forall x | x in p.batch && x in ms' && Unfinished(ms'[x], p.batch[x])
        ensures StandingLease(ms'[x], w, p.now, p.batch[x])
      {
        assert Unfinished(ms[x], p.batch[x]);
      }
    }
  }

  lemma FillKeepsHistory(id: MessageId, m: Message, ws: map<WorkerId, Phase>, clock: Time, w: WorkerId, cl: Claim)
    requires OpenIsHeld(id, m, ws) && Ordered(clock, m.claims) && m.claims != []
    requires w in ws && ws[w].Publishing? && id in ws[w].batch && ws[w].batch[id] == |m.claims| && cl.worker == w
    requires cl.start.Some? && (cl.finish.Some? ==> cl.finish.value == clock)
    requires cl.start == Last(m.claims).start || cl.start.value == clock
    ensures var m' := m.(claims := m.claims[|m.claims| - 1 := cl]);
            OpenIsHeld(id, m', ws) && Ordered(clock, m'.claims)
  {
    var h, h' := m.claims, m.claims[|m.claims| - 1 := cl];
    assert forall j | 0 <= j < |h| - 1 :: h'[j] == h[j];
    forall j, k | 0 <= j < k < |h'| ensures Before(h'[j], h'[k]) {
      assert Before(h[j], h[k]);
    }
  }

  /** The record after the step, and the step written as one update of the latest record. */
  lemma PublishFills(c: Config, s: State, a: Action) returns (cl: Claim)
    requires Inv(c, s) && TimingInv(s) && Enabled(c, s, a) && (a.StartPublish? || a.FinishPublish?)
    ensures Running(s, a.w, a.id)
    ensures var m := s.messages[a.id];
            && m.claims != [] && Last(m.claims).finish.None?
            && s.workers[a.w].batch[a.id] == |m.claims|
            && Apply(c, s, a) == s.(messages := s.messages[a.id := m.(claims := m.claims[|m.claims| - 1 := cl])])
            && cl.worker == a.w
            && cl.start.Some? && (cl.finish.Some? ==> cl.finish.value == s.clock)
            && (cl.start == Last(m.claims).start || cl.start.value == s.clock)
  {
    PublishIsLatest(c, s, a);
    hide Inv, TimingInv;
    var record := Current(s, a.w, a.id);
    cl := if a.StartPublish? then record.(start := Some(s.clock)) else record.(finish := Some(s.clock), ok := a.ok);
  }

  lemma PublishKeepsTiming(c: Config, s: State, a: Action)
    requires ValidConfig(c) && Inv(c, s) && TimingInv(s) && Enabled(c, s, a) && (a.StartPublish? || a.FinishPublish?)
    ensures TimingInv(Apply(c, s, a))
  {
    hide Inv, LeaseStands, Ordered, Enabled, Apply;
    var cl := PublishFills(c, s, a);
    var m := s.messages[a.id];
    var ms' := s.messages[a.id := m.(claims := m.claims[|m.claims| - 1 := cl])];
    forall w | w in s.workers ensures LeaseStands(ms', w, s.workers[w]) {
      FillKeepsLease(s.messages, w, s.workers[w], a.id, cl);
    }
    forall id | id in ms' ensures OpenIsHeld(id, ms'[id], s.workers) && Ordered(s.clock, ms'[id].claims) {
      assert OpenIsHeld(id, s.messages[id], s.workers);
      assert Ordered(s.clock, s.messages[id].claims);
      if id == a.id {
        FillKeepsHistory(id, m, s.workers, s.clock, a.w, cl);
      }
    }
    assert TimingInv(s.(messages := ms'));
  }

  lemma BeginKeepsTiming(c: Config, s: State, a: Action)
    requires ValidConfig(c) && Inv(c, s) && TimingInv(s) && Enabled(c, s, a)
    requires a.Insert? || a.Tick? || a.Join? || a.BeginPoll? || a.BeginMark? || a.BeginPurge?
    ensures TimingInv(Apply(c, s, a))
  {
    hide Inv;
    var s' := Apply(c, s, a);
    forall w | w in s'.workers ensures LeaseStands(s'.messages, w, s'.workers[w]) {
      if w in s.workers {
        assert LeaseStands(s.messages, w, s.workers[w]);
        assert a.Insert? ==> !Unfinished(s'.messages[a.id], 1);
      }
    }
    forall id | id in s'.messages
      ensures OpenIsHeld(id, s'.messages[id], s'.workers) && Ordered(s'.clock, s'.messages[id].claims)
    {
      if id in s.messages {
        assert OpenIsHeld(id, s.messages[id], s.workers);
        assert Ordered(s.clock, s.messages[id].claims);
        if a.BeginMark? && id in s.workers[a.w].batch {
          assert Running(s, a.w, id) && Current(s, a.w, id).finish.Some?;
        }
      }
    }
  }

  lemma {:induction false} RunKeepsTiming(c: Config, ss: seq<State>, acts: seq<Action>, n: nat)
    requires ValidConfig(c) && IsRun(c, ss, acts) && n < |ss|
    requires forall i | 0 <= i < n :: Timely(c, ss[i])
    ensures TimingInv(ss[n])
  {
    if n > 0 {
      var s, a := ss[n - 1], acts[n - 1];
      RunKeepsTiming(c, ss, acts, n - 1);
      RunKeepsInv(c, ss, acts, n - 1);
      if IsStatement(a) {
        StatementKeepsTiming(c, s, a);
      } else if a.Commit? {
        CommitKeepsTiming(c, s, a);
      } else if a.Abort? {
        AbortKeepsTiming(c, s, a);
      } else if a.Crash? {
        CrashKeepsTiming(c, s, a);
      } else if a.StartPublish? || a.FinishPublish? {
        PublishKeepsTiming(c, s, a);
      } else {
        BeginKeepsTiming(c, s, a);
      }
    }
  }

  /** If every batch finishes its publishes within its lease, then in every state of the run the publishes
      of one message made under different leases are disjoint in time, in the order of the leases. */
  lemma NoOverlappingPublishes(c: Config, ss: seq<State>, acts: seq<Action>, n: nat, id: MessageId, j: nat, k: nat)
    requires ValidConfig(c) && IsRun(c, ss, acts) && n < |ss|
    requires forall i | 0 <= i < n :: Timely(c, ss[i])
    requires id in ss[n].messages && j < k < |ss[n].messages[id].claims|
    requires ss[n].messages[id].claims[j].start.Some? && ss[n].messages[id].claims[k].start.Some?
    ensures var h := ss[n].messages[id].claims;
            h[j].finish.Some? && h[j].finish.value <= h[k].start.value
  {
    RunKeepsTiming(c, ss, acts, n);
    assert Ordered(ss[n].clock, ss[n].messages[id].claims);
  }

  // ---------------------------------------------------------------------------
  // Bounded waiting
  // ---------------------------------------------------------------------------

  /** The messages that precede `m` in (created_at, id) order. */
  ghost function Older(s: State, m: MessageId): set<MessageId>
    requires m in s.messages
  {
    set id | id in s.messages && Precedes(s.messages[id].createdAt, id, s.messages[m].createdAt, m)
  }

  /** Whoever a claim in progress passes over is younger than everything it takes, and the claim is full. */
  ghost predicate PassedBehind(c: Config, ms: Messages, p: Phase) {
    p.Polling? ==> forall m | m in p.passed ::
      && m in ms
      && |p.taken| == c.limit
      && forall a | a in p.taken :: a in ms && Precedes(ms[a].createdAt, a, ms[m].createdAt, m)
  }

  ghost predicate OrderInv(c: Config, s: State) {
    forall w | w in s.workers :: PassedBehind(c, s.messages, s.workers[w])
  }

  lemma CreatedAtStays(c: Config, s: State, a: Action)
    requires Enabled(c, s, a)
    ensures forall id | id in s.messages ::
              id in Apply(c, s, a).messages && Apply(c, s, a).messages[id].createdAt == s.messages[id].createdAt
  {
  }

  lemma OthersKeepPhase(c: Config, s: State, a: Action, w: WorkerId)
    requires Enabled(c, s, a) && w in Apply(c, s, a).workers
    ensures var p' := Apply(c, s, a).workers[w];
            || !p'.Polling?
            || p'.passed == {}
            || (a.ClaimBatch? && a.w == w)
            || (w in s.workers && s.workers[w].Polling? && p'.passed == s.workers[w].passed
                && p'.taken == s.workers[w].taken)
  {
  }

  lemma ClaimPassesBehind(c: Config, s: State, a: Action)
    requires Enabled(c, s, a) && a.ClaimBatch?
    ensures PassedBehind(c, s.messages, Advanced(c, s, a))
  {
    var p := s.workers[a.w];
    var from := Selectable(s, a.w, p.now, c.policy.maxAttempts);
    assert Oldest(CreationTimesOf(s.messages), from, c.limit, a.ids);
    forall m | m in from - a.ids ensures |a.ids| == c.limit {
      assert a.ids != from;
    }
  }

  lemma StepKeepsOrder(c: Config, s: State, a: Action)
    requires OrderInv(c, s) && Enabled(c, s, a)
    ensures OrderInv(c, Apply(c, s, a))
  {
    var s' := Apply(c, s, a);
    CreatedAtStays(c, s, a);
    forall w | w in s'.workers ensures PassedBehind(c, s'.messages, s'.workers[w]) {
      OthersKeepPhase(c, s, a, w);
      if a.ClaimBatch? && a.w == w {
        ClaimPassesBehind(c, s, a);
        assert s'.workers[w] == Advanced(c, s, a);
      } else if w in s.workers {
        assert PassedBehind(c, s.messages, s.workers[w]);
      }
      hide Apply, Enabled, OrderInv;
    }
  }

  ghost function PassesAt(s: State, m: MessageId): nat {
    if m in s.messages then s.messages[m].passes else 0
  }

  ghost function Spent(s: State, id: MessageId): nat {
    |ClaimsAt(s, id)|
  }

  lemma ClaimsOnlyGrow(c: Config, s: State, a: Action, id: MessageId)
    requires Enabled(c, s, a)
    ensures Spent(s, id) <= Spent(Apply(c, s, a), id)
    ensures (a.Commit? && s.workers[a.w].Polling? && id in s.workers[a.w].taken && id in s.messages) ==>
              Spent(Apply(c, s, a), id) == Spent(s, id) + 1
  {
  }

  function TakenBy(s: State, w: WorkerId): set<MessageId> {
    if w in s.workers && s.workers[w].Polling? then s.workers[w].taken else {}
  }

  lemma PassIsCommit(c: Config, s: State, a: Action, m: MessageId)
    requires OrderInv(c, s) && Enabled(c, s, a) && PassesAt(Apply(c, s, a), m) != PassesAt(s, m)
    ensures a.Commit? && m in s.messages && a.w in s.workers && s.workers[a.w].Polling?
    ensures PassesAt(Apply(c, s, a), m) == PassesAt(s, m) + 1
    ensures |TakenBy(s, a.w)| == c.limit && TakenBy(s, a.w) <= Older(s, m)
    ensures forall x | x in TakenBy(s, a.w) ::
              && x in s.messages
              && (|| s.messages[x].createdAt < s.messages[m].createdAt
                  || (s.messages[x].createdAt == s.messages[m].createdAt && x < m))
  {
    if a.Commit? {
      assert PassedBehind(c, s.messages, s.workers[a.w]);
    }
  }

  /** Every pass is counted: the claim statement notes the messages it could have taken and left, those that nobody
      has locked and that are pending, within their attempts and due, and its commit counts each of them. */
  lemma PassesAreCounted(c: Config, s: State, a: Action, m: MessageId)
    requires Enabled(c, s, a) && m in s.messages
    ensures var s' := Apply(c, s, a);
            && PassesAt(s', m) == PassesAt(s, m)
               + (if a.Commit? && s.workers[a.w].Polling? && m in s.workers[a.w].passed - s.workers[a.w].taken
                  then 1 else 0)
            && (a.ClaimBatch? && s.messages[m].lock.None? && s.messages[m].row.Some? ==>
                  var p, r := s'.workers[a.w], s.messages[m].row.value;
                  && p.Polling? && p.taken == a.ids
                  && (m in p.passed <==>
                        && m !in a.ids && r.status.Pending? && r.processedAt.None?
                        && r.attempts < c.policy.maxAttempts
                        && (r.nextRetryAt.None? || r.nextRetryAt.value <= s.workers[a.w].now)))
  {
    hide Matches, Updated, Oldest, Unblocked;
  }

  /** One step passes `m` over at most once, and then it spends `limit` attempts of older messages. */
  lemma PassCosts(c: Config, s: State, a: Action, m: MessageId, older: set<MessageId>)
    requires OrderInv(c, s) && Enabled(c, s, a)
    requires m in s.messages ==> Older(s, m) <= older
    ensures PassesAt(Apply(c, s, a), m) * c.limit + Sum(older, id => Spent(s, id)) <=
            PassesAt(s, m) * c.limit + Sum(older, id => Spent(Apply(c, s, a), id))
  {
    hide Enabled, Apply, OrderInv, Older;
    var s' := Apply(c, s, a);
    var f, g := (id: MessageId) => Spent(s, id), (id: MessageId) => Spent(s', id);
    forall id | id in older ensures f(id) <= g(id) {
      ClaimsOnlyGrow(c, s, a, id);
    }
    if PassesAt(s', m) == PassesAt(s, m) {
      SumMonotone(older, f, g);
    } else {
      PassIsCommit(c, s, a, m);
      var taken := TakenBy(s, a.w);
      TakenIsKnown(s, m, taken);
      forall id | id in taken ensures f(id) + 1 <= g(id) {
        ClaimsOnlyGrow(c, s, a, id);
      }
      SumRaised(older, taken, f, g);
      OneMoreTimes(PassesAt(s, m), c.limit);
    }
  }

  lemma TakenIsKnown(s: State, m: MessageId, taken: set<MessageId>)
    requires m in s.messages && taken <= Older(s, m)
    ensures taken <= s.messages.Keys
  {
  }

  lemma {:induction false} RunKeepsOrder(c: Config, ss: seq<State>, acts: seq<Action>, n: nat)
    requires IsRun(c, ss, acts) && n < |ss|
    ensures OrderInv(c, ss[n])
  {
    if n > 0 {
      RunKeepsOrder(c, ss, acts, n - 1);
      StepKeepsOrder(c, ss[n - 1], acts[n - 1]);
    }
  }

  lemma {:induction false} OlderOnlyGrows(c: Config, ss: seq<State>, acts: seq<Action>, i: nat, j: nat, m: MessageId)
    requires IsRun(c, ss, acts) && i <= j < |ss| && m in ss[i].messages
    ensures m in ss[j].messages && Older(ss[i], m) <= Older(ss[j], m)
    decreases j - i
  {
    hide Enabled, Apply, Precedes;
    if i < j {
      CreatedAtStays(c, ss[i], acts[i]);
      OlderOnlyGrows(c, ss, acts, i + 1, j, m);
    }
  }

  lemma {:induction false} PassesCost(c: Config, ss: seq<State>, acts: seq<Action>, i: nat, j: nat, m: MessageId)
    requires IsRun(c, ss, acts) && i <= j < |ss| && m in ss[j].messages
    ensures PassesAt(ss[j], m) * c.limit + Sum(Older(ss[j], m), id => Spent(ss[i], id)) <=
            PassesAt(ss[i], m) * c.limit + Sum(Older(ss[j], m), id => Spent(ss[j], id))
    decreases j - i
  {
    if i < j {
      var older := Older(ss[j], m);
      PassesCost(c, ss, acts, i + 1, j, m);
      RunKeepsOrder(c, ss, acts, i);
      if m in ss[i].messages {
        OlderOnlyGrows(c, ss, acts, i, j, m);
      }
      PassCosts(c, ss[i], acts[i], m, older);
    }
  }

  lemma SpentBound(c: Config, s: State, id: MessageId)
    requires Inv(c, s)
    ensures Spent(s, id) <= c.policy.maxAttempts
  {
    if id in s.messages {
      assert MessageOk(c, s.clock, id, s.messages[id], s.workers);
    }
  }

  lemma Distribute(a: int, b: int, l: int)
    ensures (a - b) * l == a * l - b * l
  {
  }

  /** Processed, dead or deleted. */
  ghost predicate Decided(s: State, id: MessageId) {
    id in s.messages && (s.messages[id].row.None? || Terminal(s.messages[id].row.value))
  }

  lemma StepKeepsDecided(c: Config, s: State, a: Action, id: MessageId)
    requires ValidConfig(c) && Inv(c, s) && Enabled(c, s, a) && Decided(s, id)
    ensures Decided(Apply(c, s, a), id) && Spent(Apply(c, s, a), id) == Spent(s, id)
  {
    StepClimbs(c, s, a, id);
    hide HistoryInv, Agrees, RowInv, Matches, Updated, EntryOk, FinishedEntry;
    assert MessageOk(c, s.clock, id, s.messages[id], s.workers);
    if a.Commit? {
      assert PhaseOk(s.messages, s.clock, a.w, s.workers[a.w]);
    }
  }

  /** A decided message never gains a claim again. */
  lemma {:induction false} DecidedSpendsNothing(c: Config, ss: seq<State>, acts: seq<Action>, i: nat, j: nat,
                                                id: MessageId)
    requires ValidConfig(c) && IsRun(c, ss, acts) && i <= j < |ss| && Decided(ss[i], id)
    ensures Decided(ss[j], id) && Spent(ss[j], id) == Spent(ss[i], id)
    decreases j - i
  {
    hide Inv, Enabled, Apply, Decided;
    if i < j {
      DecidedSpendsNothing(c, ss, acts, i, j - 1, id);
      RunKeepsInv(c, ss, acts, j - 1);
      StepKeepsDecided(c, ss[j - 1], acts[j - 1], id);
    }
  }

  /** The older messages that were not yet decided in an earlier state, those inserted since included. */
  ghost function OpenOlder(s: State, earlier: State, m: MessageId): set<MessageId>
    requires m in s.messages
  {
    set id | id in Older(s, m) && !Decided(earlier, id)
  }

  /** From any state of a run on, the committed claims that pass over message `m` while it is eligible number at
      most (sum of max - attempts over the older messages still undecided then) / limit. */
  lemma BoundedWaiting(c: Config, ss: seq<State>, acts: seq<Action>, i: nat, j: nat, m: MessageId)
    requires ValidConfig(c) && IsRun(c, ss, acts) && i <= j < |ss| && m in ss[j].messages
    ensures var open := OpenOlder(ss[j], ss[i], m);
            (PassesAt(ss[j], m) - PassesAt(ss[i], m)) * c.limit
              <= |open| * c.policy.maxAttempts - Sum(open, id => Spent(ss[i], id))
  {
    hide Inv, Enabled, Apply, Decided;
    var older, open := Older(ss[j], m), OpenOlder(ss[j], ss[i], m);
    RunKeepsInv(c, ss, acts, j);
    PassesCost(c, ss, acts, i, j, m);
    forall id | id in older - open ensures Spent(ss[i], id) == Spent(ss[j], id) {
      DecidedSpendsNothing(c, ss, acts, i, j, id);
    }
    SumDiffersOn(older, open, id => Spent(ss[i], id), id => Spent(ss[j], id));
    forall id | id in open ensures Spent(ss[j], id) <= c.policy.maxAttempts {
      SpentBound(c, ss[j], id);
    }
    SumBounded(open, id => Spent(ss[j], id), c.policy.maxAttempts);
    Distribute(PassesAt(ss[j], m), PassesAt(ss[i], m), c.limit);
  }
}
