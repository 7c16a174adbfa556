/** The invariant that ties the parts of the pipeline together, kept by every step. */
module PipelineInvariant {
  import opened Types
  import opened PaymentRules
  import opened Broker
  import opened Pipeline
  import Creation
  import Lease
  import LeaseInvariant
  import Processing

  function Budget(cfg: Config): nat {
    if cfg.maxRetries < 0 then 0 else cfg.maxRetries
  }

  /** A delivery of this copy has been handled, or is being handled, since its last rejection or loss. */
  predicate Occupied(p: Place) {
    p.Gone? || (p.Handling? && (p.step.Running? || p.step.ToAck? || p.step.ToNack?))
  }

  predicate Uncharged(tx: Processing.Tx) {
    tx.Started? || tx.Loaded? || tx.Claimed? || tx.Opened?
  }

  predicate Settled(s: State, c: CopyId) {
    c.message in s.api.outbox && Processing.TerminalNow(s.proc, s.api.outbox[c.message])
  }

  /** The publish that made this copy is on record, and has ended. */
  ghost predicate OnRecord(s: State, c: CopyId) {
    && c.message in s.lease.messages && c.message in s.api.outbox
    && 1 <= c.attempt <= |s.lease.messages[c.message].claims|
    && s.lease.messages[c.message].claims[c.attempt - 1].finish.Some?
  }

  ghost predicate CopyInv(cfg: Config, s: State, c: CopyId, k: Copy) {
    && OnRecord(s, c)
    && RejectedCount(k.deaths).Some? && 0 <= RejectedCount(k.deaths).value
    && (k.place.Gone? || k.place == Handling(ToAck) ==> k.inDlq || Settled(s, c))
    && (k.place == Handling(Running) ==> RunId(c, k.runs) in s.proc.txs)
    && k.runs <= Budget(cfg) + k.losses
    && k.runs <= RejectedCount(k.deaths).value + k.losses + (if Occupied(k.place) then 1 else 0)
    && (forall r | r in k.charged :: 1 <= r <= k.runs)
  }

  /** Every transaction belongs to a copy, handles the payment of its message, and that payment exists. */
  ghost predicate TxOk(s: State, t: RunId) {
    && t in s.proc.txs && t.copy in s.copies && t.copy.message in s.api.outbox
    && 1 <= t.run <= s.copies[t.copy].runs
    && s.proc.txs[t].pid == s.api.outbox[t.copy.message]
    && s.proc.txs[t].pid in s.proc.accounts
    && (Uncharged(s.proc.txs[t]) ==> t.run !in s.copies[t.copy].charged)
    && (s.proc.txs[t].Returning? || s.proc.txs[t].Done? ==> !s.proc.txs[t].outcome.NotFound?)
  }

  ghost predicate PublishedInv(s: State) {
    forall id, k | id in s.lease.messages && 0 <= k < |s.lease.messages[id].claims|
                    && s.lease.messages[id].claims[k].ok ::
      CopyId(id, k + 1) in s.copies
  }

  ghost predicate PartsInv(cfg: Config, s: State) {
    && Creation.Inv(s.api)
    && LeaseInvariant.Inv(cfg.lease, s.lease)
    && Processing.Inv(s.proc)
    && s.api.outbox.Keys == s.lease.messages.Keys
    && s.api.payments.Keys == s.proc.accounts.Keys
  }

  ghost predicate CopiesInv(cfg: Config, s: State) {
    forall c | c in s.copies :: CopyInv(cfg, s, c, s.copies[c])
  }

  ghost predicate TxsInv(s: State) {
    forall t | t in s.proc.txs :: TxOk(s, t)
  }

  ghost predicate Inv(cfg: Config, s: State) {
    PartsInv(cfg, s) && CopiesInv(cfg, s) && TxsInv(s) && PublishedInv(s)
  }

  ghost predicate ValidConfig(cfg: Config) {
    Lease.ValidConfig(cfg.lease)
  }

  // ---------------------------------------------------------------------------
  // What a step leaves alone
  // ---------------------------------------------------------------------------

  /** Records stay, and a publish that ended stays ended; no claim turns `ok` outside a finished publish. */
  ghost predicate LeaseGrew(a: Lease.State, b: Lease.State) {
    && (forall id | id in a.messages :: id in b.messages && LeaseInvariant.GrewFrom(a.messages[id], b.messages[id]))
  }

  ghost predicate ApiGrew(a: Creation.State, b: Creation.State) {
    forall m | m in a.outbox :: m in b.outbox && b.outbox[m] == a.outbox[m]
  }

  ghost predicate ProcGrew(a: Processing.State, b: Processing.State) {
    && (forall p | p in a.accounts :: p in b.accounts)
    && (forall p | Processing.TerminalNow(a, p) :: Processing.TerminalNow(b, p))
  }

  ghost predicate Grew(s: State, s': State) {
    LeaseGrew(s.lease, s'.lease) && ApiGrew(s.api, s'.api) && ProcGrew(s.proc, s'.proc)
  }

  lemma CopyFramed(cfg: Config, s: State, s': State, c: CopyId, k: Copy)
    requires CopyInv(cfg, s, c, k) && Grew(s, s')
    requires forall t | t in s.proc.txs && t.copy == c :: t in s'.proc.txs
    ensures CopyInv(cfg, s', c, k)
  {
    assert LeaseInvariant.GrewFrom(s.lease.messages[c.message], s'.lease.messages[c.message]);
  }

  lemma TxFramed(s: State, s': State, t: RunId)
    requires TxOk(s, t) && Grew(s, s')
    requires t in s'.proc.txs && s'.proc.txs[t] == s.proc.txs[t]
    requires t.copy in s'.copies && s.copies[t.copy].runs <= s'.copies[t.copy].runs
    requires s'.copies[t.copy].charged - s.copies[t.copy].charged <= s'.copies[t.copy].charged - {t.run}
    ensures TxOk(s', t)
  {
  }

  lemma {:induction false} ProcStepGrows(s: Processing.State, a: Processing.Action)
    requires Processing.Inv(s) && Processing.Enabled(s, a)
    ensures ProcGrew(s, Processing.Apply(s, a))
  {
    if !a.Create? {
      Processing.StepTouches(s, a);
    }
  }

  lemma LeaseStepGrows(c: Lease.Config, s: Lease.State, a: Lease.Action)
    requires Lease.Enabled(c, s, a)
    ensures LeaseGrew(s, Lease.Apply(c, s, a))
  {
  }

  /** A worker step keeps the messages; only a finished publish makes a claim `ok`. */
  lemma LeaseStepOk(c: Lease.Config, s: Lease.State, a: Lease.Action, id: MessageId, k: nat)
    requires Lease.Enabled(c, s, a) && !a.Insert?
    requires id in Lease.Apply(c, s, a).messages
    requires k < |Lease.Apply(c, s, a).messages[id].claims| && Lease.Apply(c, s, a).messages[id].claims[k].ok
    ensures id in s.messages
    ensures (k < |s.messages[id].claims| && s.messages[id].claims[k].ok)
         || (a.FinishPublish? && a.ok && CopyId(id, k + 1) in Ending(s, a))
  {
  }

  /** Copies appear only for publishes that end in this very step. */
  lemma EndingOnRecord(c: Lease.Config, s: Lease.State, a: Lease.Action, x: CopyId)
    requires Lease.Enabled(c, s, a) && x in Ending(s, a)
    ensures var s' := Lease.Apply(c, s, a);
            && x.message in s.messages && x.message in s'.messages
            && 1 <= x.attempt <= |s'.messages[x.message].claims|
            && s'.messages[x.message].claims[x.attempt - 1].finish.Some?
  {
  }

  // ---------------------------------------------------------------------------
  // Steps
  // ---------------------------------------------------------------------------

  lemma WorkerKeepsCopies(cfg: Config, s: State, a: Action)
    requires CopiesInv(cfg, s) && TxsInv(s) && Enabled(cfg, s, a) && a.Worker?
    requires s.api.outbox.Keys == s.lease.messages.Keys
    ensures CopiesInv(cfg, Apply(cfg, s, a)) && TxsInv(Apply(cfg, s, a))
  {
    hide Lease.Apply, RejectedCount;
    var s' := Apply(cfg, s, a);
    LeaseStepGrows(cfg.lease, s.lease, a.act);
    assert Grew(s, s');
    forall c | c in s'.copies ensures CopyInv(cfg, s', c, s'.copies[c]) {
      if c in s.copies {
        CopyFramed(cfg, s, s', c, s.copies[c]);
      } else {
        EndingOnRecord(cfg.lease, s.lease, a.act, c);
        NoDeaths();
      }
    }
    forall t | t in s'.proc.txs ensures TxOk(s', t) {
      TxFramed(s, s', t);
    }
  }

  lemma NoDeaths()
    ensures RejectedCount(NotAList) == Some(0)
  {
  }

  lemma WorkerKeepsPublished(cfg: Config, s: State, a: Action)
    requires PublishedInv(s) && Enabled(cfg, s, a) && a.Worker?
    ensures PublishedInv(Apply(cfg, s, a))
  {
    hide Lease.Apply;
    var s' := Apply(cfg, s, a);
    forall id, k | id in s'.lease.messages && 0 <= k < |s'.lease.messages[id].claims|
                    && s'.lease.messages[id].claims[k].ok
      ensures CopyId(id, k + 1) in s'.copies
    {
      LeaseStepOk(cfg.lease, s.lease, a.act, id, k);
    }
  }

  lemma WorkerKeepsInv(cfg: Config, s: State, a: Action)
    requires ValidConfig(cfg) && Inv(cfg, s) && Enabled(cfg, s, a) && a.Worker?
    ensures Inv(cfg, Apply(cfg, s, a))
  {
    hide LeaseInvariant.Inv, Creation.Inv, Processing.Inv;
    LeaseInvariant.StepKeepsInv(cfg.lease, s.lease, a.act);
    WorkerKeepsCopies(cfg, s, a);
    WorkerKeepsPublished(cfg, s, a);
    assert Lease.Apply(cfg.lease, s.lease, a.act).messages.Keys == s.lease.messages.Keys;
  }

  lemma NewIdsAreFresh(s: Creation.State, r: Creation.RequestId)
    requires Creation.Inv(s) && r in s.requests && s.requests[r].Staged?
    ensures s.requests[r].pid !in s.payments && s.requests[r].msg !in s.outbox
  {
    assert Creation.RequestInv(s, r);
  }

  lemma OutboxNamesPayment(s: Creation.State, m: MessageId)
    requires Creation.Inv(s) && m in s.outbox
    ensures s.outbox[m] in s.payments
  {
  }

  lemma ApiKeepsInv(cfg: Config, s: State, a: Action)
    requires ValidConfig(cfg) && Inv(cfg, s) && Enabled(cfg, s, a) && a.Api?
    ensures Inv(cfg, Apply(cfg, s, a))
  {
    hide LeaseInvariant.Inv, Creation.Inv, Processing.Inv;
    var s' := Apply(cfg, s, a);
    Creation.StepKeepsInv(s.api, a.request);
    if Creates(s.api, a.request) {
      var q := s.api.requests[a.request.r];
      LeaseInvariant.StepKeepsInv(cfg.lease, s.lease, Lease.Insert(q.msg, a.at));
      LeaseStepGrows(cfg.lease, s.lease, Lease.Insert(q.msg, a.at));
      Processing.StepKeepsInv(s.proc, Processing.Create(q.pid));
      ProcStepGrows(s.proc, Processing.Create(q.pid));
      NewIdsAreFresh(s.api, a.request.r);
    } else {
      assert s'.api.outbox == s.api.outbox && s'.api.payments == s.api.payments;
    }
    assert ApiGrew(s.api, s'.api);
    ApiFramesCopies(cfg, s, s');
  }

  lemma ApiFramesCopies(cfg: Config, s: State, s': State)
    requires CopiesInv(cfg, s) && TxsInv(s) && PublishedInv(s) && Grew(s, s')
    requires s'.copies == s.copies && s'.proc.txs == s.proc.txs
    requires forall id | id in s'.lease.messages ::
               if id in s.lease.messages then s'.lease.messages[id] == s.lease.messages[id]
                                                   else s'.lease.messages[id].claims == []
    ensures CopiesInv(cfg, s') && TxsInv(s') && PublishedInv(s')
  {
    forall c | c in s'.copies ensures CopyInv(cfg, s', c, s'.copies[c]) {
      CopyFramed(cfg, s, s', c, s.copies[c]);
    }
    forall t | t in s'.proc.txs ensures TxOk(s', t) {
      TxFramed(s, s', t);
    }
  }

  /** The copy a step is about, and the transactions of its runs; everything else is framed. */
  lemma OneCopy(cfg: Config, s: State, s': State, c: CopyId)
    requires Inv(cfg, s) && c in s.copies && c in s'.copies
    requires s'.api == s.api && s'.lease == s.lease && Processing.Inv(s'.proc) && ProcGrew(s.proc, s'.proc)
    requires s'.proc.accounts.Keys == s.proc.accounts.Keys
    requires forall x | x in s.copies && x != c :: x in s'.copies && s'.copies[x] == s.copies[x]
    requires forall x | x in s'.copies && x != c :: x in s.copies
    requires forall t | t in s.proc.txs && t.copy != c :: t in s'.proc.txs && s'.proc.txs[t] == s.proc.txs[t]
    requires forall t | t in s'.proc.txs && t.copy != c :: t in s.proc.txs
    requires CopyInv(cfg, s', c, s'.copies[c])
    requires forall t | t in s'.proc.txs && t.copy == c :: TxOk(s', t)
    ensures Inv(cfg, s')
  {
    assert Grew(s, s') by {
      assert forall id | id in s.lease.messages :: LeaseInvariant.GrewFrom(s.lease.messages[id], s.lease.messages[id]);
    }
    forall x | x in s'.copies ensures CopyInv(cfg, s', x, s'.copies[x]) {
      if x != c {
        CopyFramed(cfg, s, s', x, s.copies[x]);
      }
    }
    forall t | t in s'.proc.txs ensures TxOk(s', t) {
      if t.copy != c {
        assert TxOk(s, t);
        TxFramed(s, s', t);
      }
    }
  }

  /** A handler step moves its own transaction on: same payment, never NOT_FOUND, and it charges at most once. */
  lemma TxMovesOn(s: Processing.State, a: Processing.Action)
    requires Processing.Enabled(s, a) && IsHandlerStep(a)
    requires s.txs[a.t].pid in s.accounts
    requires s.txs[a.t].Returning? ==> !s.txs[a.t].outcome.NotFound?
    ensures var s' := Processing.Apply(s, a);
            && s'.accounts.Keys == s.accounts.Keys
            && a.t in s'.txs
            && s'.txs[a.t].pid == s.txs[a.t].pid
            && (s'.txs[a.t].Returning? || s'.txs[a.t].Done? ==> !s'.txs[a.t].outcome.NotFound?)
            && (Uncharged(s'.txs[a.t]) ==> Uncharged(s.txs[a.t]))
            && (a.Charge? ==> Uncharged(s.txs[a.t]) && !Uncharged(s'.txs[a.t]))
            && (forall x | x in s.txs && x != a.t :: x in s'.txs && s'.txs[x] == s.txs[x])
            && (forall x | x in s'.txs && x != a.t :: x in s.txs)
  {
  }

  /** The other runs of the copy a step is about. */
  lemma OtherRunsFramed(s: State, s': State, t: RunId)
    requires TxsInv(s) && t.copy in s.copies && s'.api == s.api && ProcGrew(s.proc, s'.proc)
    requires t.copy in s'.copies && s.copies[t.copy].runs <= s'.copies[t.copy].runs
    requires s'.copies[t.copy].charged <= s.copies[t.copy].charged + {t.run}
    requires forall u | u in s'.proc.txs && u != t :: u in s.proc.txs && s'.proc.txs[u] == s.proc.txs[u]
    ensures forall u | u in s'.proc.txs && u.copy == t.copy && u != t :: TxOk(s', u)
  {
    forall u | u in s'.proc.txs && u.copy == t.copy && u != t ensures TxOk(s', u) {
      assert TxOk(s, u);
    }
  }

  lemma HandlerKeepsOwn(cfg: Config, s: State, a: Action)
    requires Inv(cfg, s) && Enabled(cfg, s, a) && a.Handler? && ProcGrew(s.proc, Apply(cfg, s, a).proc)
    ensures var s', t := Apply(cfg, s, a), a.tx.t;
            CopyInv(cfg, s', t.copy, s'.copies[t.copy]) && TxOk(s', t)
  {
    hide PartsInv, PublishedInv, Processing.Apply, RejectedCount;
    var t := a.tx.t;
    assert TxOk(s, t);
    TxMovesOn(s.proc, a.tx);
    assert CopyInv(cfg, s, t.copy, s.copies[t.copy]);
  }

  lemma HandlerKeepsInv(cfg: Config, s: State, a: Action)
    requires ValidConfig(cfg) && Inv(cfg, s) && Enabled(cfg, s, a) && a.Handler?
    ensures Inv(cfg, Apply(cfg, s, a))
  {
    hide LeaseInvariant.Inv, Creation.Inv, Processing.Inv, Processing.Apply, RejectedCount, CopyInv;
    var s', t := Apply(cfg, s, a), a.tx.t;
    Processing.StepKeepsInv(s.proc, a.tx);
    ProcStepGrows(s.proc, a.tx);
    assert TxOk(s, t);
    TxMovesOn(s.proc, a.tx);
    HandlerKeepsOwn(cfg, s, a);
    OtherRunsFramed(s, s', t);
    OneCopy(cfg, s, s', t.copy);
  }

  lemma DoneIsTerminal(s: Processing.State, t: Processing.TxId)
    requires Processing.Inv(s) && t in s.txs && s.txs[t].Done? && !s.txs[t].outcome.NotFound?
    ensures Processing.TerminalNow(s, s.txs[t].pid)
  {
    assert Processing.TxInv(s, t, s.txs[t]);
  }

  /** A handler run that returned an outcome left its payment terminal: the ack that follows loses nothing. */
  lemma DoneIsSettled(cfg: Config, s: State, t: RunId)
    requires Inv(cfg, s) && t in s.proc.txs && s.proc.txs[t].Done?
    ensures Settled(s, t.copy)
  {
    hide LeaseInvariant.Inv, Creation.Inv, Processing.Inv;
    assert TxOk(s, t);
    DoneIsTerminal(s.proc, t);
  }

  lemma BeginOnlyStarts(s: Processing.State, t: Processing.TxId, pid: PaymentId)
    requires Processing.Enabled(s, Processing.Begin(t, pid))
    ensures Processing.Apply(s, Processing.Begin(t, pid)) == s.(txs := s.txs[t := Processing.Started(pid)])
  {
  }

  /** Our own messages are never ignored or malformed: they are processed while retries are left, else sent to the
      DLQ. */
  lemma OurRoutes(pid: PaymentId, deaths: XDeath, maxRetries: int)
    requires RejectedCount(deaths).Some?
    ensures RouteOf(BodyOf(pid), deaths, maxRetries)
         == if RejectedCount(deaths).value >= maxRetries then SendToDlq else Process(pid)
  {
  }

  function Started(k: Copy): Copy {
    k.(place := Handling(Running), runs := k.runs + 1)
  }

  lemma DispatchRuns(cfg: Config, s: State, c: CopyId)
    requires Inv(cfg, s) && At(s, c, Handling(Received)) && c.message in s.api.outbox
    requires RejectedCount(s.copies[c].deaths).Some? && RejectedCount(s.copies[c].deaths).value < cfg.maxRetries
    requires Processing.Enabled(s.proc, Processing.Begin(RunId(c, s.copies[c].runs + 1), s.api.outbox[c.message]))
    ensures var begin := Processing.Begin(RunId(c, s.copies[c].runs + 1), s.api.outbox[c.message]);
            Inv(cfg, Put(s, c, Started(s.copies[c])).(proc := Processing.Apply(s.proc, begin)))
  {
    hide LeaseInvariant.Inv, Creation.Inv, Processing.Inv, RejectedCount, Processing.Apply;
    var pid, t := s.api.outbox[c.message], RunId(c, s.copies[c].runs + 1);
    var proc' := Processing.Apply(s.proc, Processing.Begin(t, pid));
    var s' := Put(s, c, Started(s.copies[c])).(proc := proc');
    assert CopyInv(cfg, s, c, s.copies[c]);
    OutboxNamesPayment(s.api, c.message);
    Processing.StepKeepsInv(s.proc, Processing.Begin(t, pid));
    BeginOnlyStarts(s.proc, t, pid);
    OtherRunsFramed(s, s', t);
    OneCopy(cfg, s, s', c);
  }

  lemma DispatchKeepsInv(cfg: Config, s: State, a: Action)
    requires ValidConfig(cfg) && Inv(cfg, s) && Enabled(cfg, s, a) && a.Dispatch?
    ensures Inv(cfg, Apply(cfg, s, a))
  {
    hide LeaseInvariant.Inv, Creation.Inv, Processing.Inv, RejectedCount, Processing.Apply, RouteOf;
    assert CopyInv(cfg, s, a.c, s.copies[a.c]);
    OurRoutes(s.api.outbox[a.c.message], s.copies[a.c].deaths, cfg.maxRetries);
    if RejectedCount(s.copies[a.c].deaths).value < cfg.maxRetries {
      DispatchRuns(cfg, s, a.c);
    } else {
      CopyMoves(cfg, s, a.c, s.copies[a.c].(place := Handling(ToDlq)));
    }
  }

  /** Moving one copy is all right as long as the copy itself is: its runs go on by themselves. */
  lemma CopyMoves(cfg: Config, s: State, c: CopyId, k: Copy)
    requires Inv(cfg, s) && c in s.copies && CopyInv(cfg, s, c, k)
    requires k.runs == s.copies[c].runs && k.charged == s.copies[c].charged
    ensures Inv(cfg, Put(s, c, k))
  {
    hide LeaseInvariant.Inv, Creation.Inv, Processing.Inv, RejectedCount;
    forall t | t in s.proc.txs && t.copy == c ensures TxOk(Put(s, c, k), t) {
      assert TxOk(s, t);
    }
    OneCopy(cfg, s, Put(s, c, k), c);
  }

  lemma HandlerEndsKeepsInv(cfg: Config, s: State, a: Action)
    requires ValidConfig(cfg) && Inv(cfg, s) && Enabled(cfg, s, a) && a.HandlerEnds?
    ensures Inv(cfg, Apply(cfg, s, a))
  {
    hide LeaseInvariant.Inv, Creation.Inv, Processing.Inv, RejectedCount;
    assert CopyInv(cfg, s, a.c, s.copies[a.c]);
    if s.proc.txs[Current(s, a.c)].Done? {
      DoneIsSettled(cfg, s, Current(s, a.c));
    }
    CopyMoves(cfg, s, a.c, Apply(cfg, s, a).copies[a.c]);
  }

  lemma BuryKeepsCopy(cfg: Config, s: State, a: Action)
    requires ValidConfig(cfg) && Inv(cfg, s) && Enabled(cfg, s, a) && (a.Nack? || a.Expire?)
    ensures Inv(cfg, Apply(cfg, s, a))
  {
    hide LeaseInvariant.Inv, Creation.Inv, Processing.Inv, RejectedCount;
    assert CopyInv(cfg, s, a.c, s.copies[a.c]);
    if a.Nack? {
      BuryCounts(s.copies[a.c].deaths, cfg.mainQueue, REJECTED);
    } else {
      BuryCounts(s.copies[a.c].deaths, cfg.retryQueue, EXPIRED);
    }
    CopyMoves(cfg, s, a.c, Apply(cfg, s, a).copies[a.c]);
  }

  lemma BrokerKeepsInv(cfg: Config, s: State, a: Action)
    requires ValidConfig(cfg) && Inv(cfg, s) && Enabled(cfg, s, a)
    requires a.Deliver? || a.DlqPublish? || a.Ack?
    ensures Inv(cfg, Apply(cfg, s, a))
  {
    hide LeaseInvariant.Inv, Creation.Inv, Processing.Inv, RejectedCount;
    assert CopyInv(cfg, s, a.c, s.copies[a.c]);
    CopyMoves(cfg, s, a.c, Apply(cfg, s, a).copies[a.c]);
  }

  lemma CrashRollsBack(cfg: Config, s: State, c: CopyId)
    requires c in s.copies && s.copies[c].place.Handling? && Unfinished(s, Current(s, c)) && Inv(cfg, s)
    requires Processing.Enabled(s.proc, Processing.Rollback(Current(s, c)))
    ensures Inv(cfg,
                Put(s, c, Requeued(s.copies[c])).(proc := Processing.Apply(s.proc, Processing.Rollback(Current(s, c)))))
  {
    hide LeaseInvariant.Inv, Creation.Inv, Processing.Inv, RejectedCount, Processing.Apply;
    var t := Current(s, c);
    var s' := Put(s, c, Requeued(s.copies[c])).(proc := Processing.Apply(s.proc, Processing.Rollback(t)));
    assert CopyInv(cfg, s, c, s.copies[c]);
    assert TxOk(s, t);
    Processing.StepKeepsInv(s.proc, Processing.Rollback(t));
    ProcStepGrows(s.proc, Processing.Rollback(t));
    TxMovesOn(s.proc, Processing.Rollback(t));
    RollbackRaises(s.proc, t);
    OtherRunsFramed(s, s', t);
    OneCopy(cfg, s, s', c);
  }

  lemma LossRequeues(cfg: Config, s: State, c: CopyId)
    requires Inv(cfg, s) && c in s.copies
    ensures Inv(cfg, Put(s, c, Requeued(s.copies[c])))
  {
    hide LeaseInvariant.Inv, Creation.Inv, Processing.Inv, RejectedCount;
    assert CopyInv(cfg, s, c, s.copies[c]);
    CopyMoves(cfg, s, c, Requeued(s.copies[c]));
  }

  lemma LossKeepsInv(cfg: Config, s: State, a: Action)
    requires ValidConfig(cfg) && Inv(cfg, s) && Enabled(cfg, s, a) && (a.ConsumerCrash? || a.ChannelLost?)
    ensures Inv(cfg, Apply(cfg, s, a))
  {
    hide Inv, Processing.Apply;
    if a.ConsumerCrash? && Unfinished(s, Current(s, a.c)) {
      CrashRollsBack(cfg, s, a.c);
    } else {
      LossRequeues(cfg, s, a.c);
    }
  }

  lemma RollbackRaises(s: Processing.State, t: Processing.TxId)
    requires Processing.Enabled(s, Processing.Rollback(t))
    ensures t in Processing.Apply(s, Processing.Rollback(t)).txs
    ensures Processing.Apply(s, Processing.Rollback(t)).txs[t].Raised?
  {
  }

  /** Every step of the pipeline keeps the invariant. */
  lemma StepKeepsInv(cfg: Config, s: State, a: Action)
    requires ValidConfig(cfg) && Inv(cfg, s) && Enabled(cfg, s, a)
    ensures Inv(cfg, Apply(cfg, s, a))
  {
    match a
    case Api(_, _) => ApiKeepsInv(cfg, s, a);
    case Worker(_, _) => WorkerKeepsInv(cfg, s, a);
    case Handler(_) => HandlerKeepsInv(cfg, s, a);
    case Dispatch(_) => DispatchKeepsInv(cfg, s, a);
    case ConsumerCrash(_) => LossKeepsInv(cfg, s, a);
    case ChannelLost(_) => LossKeepsInv(cfg, s, a);
    case HandlerEnds(_) => HandlerEndsKeepsInv(cfg, s, a);
    case Nack(_) => BuryKeepsCopy(cfg, s, a);
    case Expire(_) => BuryKeepsCopy(cfg, s, a);
    case _ => BrokerKeepsInv(cfg, s, a);
  }
}
