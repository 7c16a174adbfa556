/** No worker of the lease protocol is ever stuck: what each phase can do next, in every state of every run. The only
    thing a worker ever waits for is the lock of another open transaction on a row its statement would change. */
module LeaseProgress {
  import opened Types
  import opened OutboxRows
  import opened Backoff
  import opened Lease
  import opened LeaseInvariant
  import opened LeaseTheorems

  /** Somebody else's open transaction has the row locked. */
  predicate HeldByOther(m: Message, w: WorkerId) {
    m.lock.Some? && m.lock.value.owner != w
  }

  /** A publish of the batch can be started once, then ended either way once ... */
  lemma PublisherGoesOn(c: Config, s: State, w: WorkerId, id: MessageId)
    requires Inv(c, s) && w in s.workers && s.workers[w].Publishing? && id in s.workers[w].batch
    ensures id in s.messages && 1 <= s.workers[w].batch[id] <= |s.messages[id].claims|
    ensures var cl := s.messages[id].claims[s.workers[w].batch[id] - 1];
            && (Enabled(c, s, StartPublish(w, id)) <==> cl.start.None?)
            && forall ok :: Enabled(c, s, FinishPublish(w, id, ok)) <==> cl.start.Some? && cl.finish.None?
  {
    BatchRuns(c, s, w);
    hide Inv, Enabled;
    PublishSteps(c, s, w, id);
  }

  /** ... and the recording can begin exactly when all have ended. */
  lemma RecordingCanBegin(c: Config, s: State, w: WorkerId)
    requires Inv(c, s) && w in s.workers && s.workers[w].Publishing?
    ensures forall id | id in s.workers[w].batch ::
              id in s.messages && 1 <= s.workers[w].batch[id] <= |s.messages[id].claims|
    ensures Enabled(c, s, BeginMark(w)) <==>
              forall id | id in s.workers[w].batch ::
                s.messages[id].claims[s.workers[w].batch[id] - 1].finish.Some?
  {
    BatchRuns(c, s, w);
    BeginMarkStep(c, s, w);
    hide Inv, Enabled;
  }

  lemma BatchRuns(c: Config, s: State, w: WorkerId)
    requires Inv(c, s) && w in s.workers && s.workers[w].Publishing?
    ensures forall id | id in s.workers[w].batch :: Running(s, w, id)
  {
    assert PhaseOk(s.messages, s.clock, w, s.workers[w]);
    forall id | id in s.workers[w].batch ensures Running(s, w, id) {
      assert EntryOk(s.messages, w, s.workers[w].now, id, s.workers[w].batch[id]);
    }
  }

  lemma PublishSteps(c: Config, s: State, w: WorkerId, id: MessageId)
    requires Running(s, w, id)
    ensures Enabled(c, s, StartPublish(w, id)) <==> Current(s, w, id).start.None?
    ensures forall ok :: Enabled(c, s, FinishPublish(w, id, ok)) <==>
                           Current(s, w, id).start.Some? && Current(s, w, id).finish.None?
  {
  }

  lemma BeginMarkStep(c: Config, s: State, w: WorkerId)
    requires w in s.workers && s.workers[w].Publishing?
    ensures Enabled(c, s, BeginMark(w)) <==> AllFinished(s, w)
  {
  }

  /** A recording worker can write each result that is left: success if and only if that publish returned success, a
      failure if and only if it did not, unless somebody else has locked a row that is still this worker's ... */
  lemma RecorderGoesOn(c: Config, s: State, w: WorkerId, id: MessageId)
    requires ValidConfig(c) && Inv(c, s) && w in s.workers && s.workers[w].Marking? && id in s.workers[w].left
    ensures id in s.messages && id in s.workers[w].batch
    ensures 1 <= s.workers[w].batch[id] <= |s.messages[id].claims|
    ensures var m, ok := s.messages[id], s.messages[id].claims[s.workers[w].batch[id] - 1].ok;
            var waits := HeldByOther(m, w) && m.row.Some? && OwnedBy(m.row.value, w);
            && (forall at :: Enabled(c, s, MarkOk(w, id, at)) <==> ok && !waits)
            && (forall factor, at :: Enabled(c, s, MarkFailed(w, id, factor, at)) <==>
                                       !ok && !waits && ValidFactor(c.policy, factor))
  {
    LeftIsFree(c, s, w);
    hide Inv, Enabled;
    MarkSteps(c, s, w, id);
  }

  lemma LeftIsFree(c: Config, s: State, w: WorkerId)
    requires Inv(c, s) && w in s.workers && s.workers[w].Marking?
    ensures forall id | id in s.workers[w].left ::
              && id in s.messages && !LockedBy(s.messages[id], w) && id in s.workers[w].batch
              && 1 <= s.workers[w].batch[id] <= |s.messages[id].claims|
  {
    assert PhaseOk(s.messages, s.clock, w, s.workers[w]);
    forall id | id in s.workers[w].left ensures 1 <= s.workers[w].batch[id] <= |s.messages[id].claims| {
      assert EntryOk(s.messages, w, s.workers[w].now, id, s.workers[w].batch[id]);
    }
  }

  /** ... and with nothing left it can commit. */
  lemma CommitStep(c: Config, s: State, w: WorkerId)
    requires w in s.workers && s.workers[w].Marking?
    ensures Enabled(c, s, Commit(w)) <==> s.workers[w].left == {}
  {
  }

  lemma MarkSteps(c: Config, s: State, w: WorkerId, id: MessageId)
    requires w in s.workers && s.workers[w].Marking? && id in s.workers[w].left && id in s.workers[w].batch
    requires id in s.messages && !LockedBy(s.messages[id], w)
    requires 1 <= s.workers[w].batch[id] <= |s.messages[id].claims|
    ensures var m, ok := s.messages[id], s.messages[id].claims[s.workers[w].batch[id] - 1].ok;
            var waits := HeldByOther(m, w) && m.row.Some? && OwnedBy(m.row.value, w);
            && (forall at :: Enabled(c, s, MarkOk(w, id, at)) <==> ok && !waits)
            && (forall factor, at :: Enabled(c, s, MarkFailed(w, id, factor, at)) <==>
                                       !ok && !waits && ValidFactor(c.policy, factor))
  {
    hide Updated, WorkerRetryAt;
  }

  lemma OldestAnswer(created: map<MessageId, Time>, from: set<MessageId>, limit: nat) returns (ids: set<MessageId>)
    requires from <= created.Keys
    ensures Oldest(created, from, limit, ids)
  {
    var t: Table := map id | id in created :: FreshRow(created[id]);
    ids := OldestFirstExists(t, from, limit);
    assert CreationTimes(t) == created;
  }

  /** A poll waits only while a lease it is to take back is locked by somebody else; its claim never waits, since it
      skips what is locked; and then it can commit. */
  lemma PollerGoesOn(c: Config, s: State, w: WorkerId)
    requires ValidConfig(c) && Inv(c, s) && w in s.workers && s.workers[w].Polling?
    ensures var p := s.workers[w];
            && (p.stage == 0 ==>
                  forall at :: Enabled(c, s, ReleaseToDead(w, at)) <==>
                                 forall id | id in s.messages && HeldByOther(s.messages[id], w) ::
                                   !(Overdue(c, s.messages[id], p.now)
                                     && s.messages[id].row.value.attempts >= c.policy.maxAttempts))
            && (p.stage == 1 ==>
                  (Enabled(c, s, ReleaseToPending(w)) <==>
                     forall id | id in s.messages && HeldByOther(s.messages[id], w) ::
                       !(Overdue(c, s.messages[id], p.now)
                         && s.messages[id].row.value.attempts < c.policy.maxAttempts)))
            && (p.stage == 2 && s.clock <= p.now + c.skew ==> exists ids :: Enabled(c, s, ClaimBatch(w, ids)))
            && (Enabled(c, s, Commit(w)) <==> p.stage == 3)
            && p.stage <= 3
  {
    var p := s.workers[w];
    assert PhaseOk(s.messages, s.clock, w, p);
    if p.stage == 0 {
      DeadIsUnblocked(c, s, w);
    } else if p.stage == 1 {
      PendingIsUnblocked(c, s, w);
    } else if p.stage == 2 && s.clock <= p.now + c.skew {
      var ids := OldestAnswer(CreationTimesOf(s.messages), Selectable(s, w, p.now, c.policy.maxAttempts), c.limit);
      assert Enabled(c, s, ClaimBatch(w, ids));
    }
  }

  /** The committed row is a lease that has outlived the claim timeout. */
  predicate Overdue(c: Config, m: Message, now: Time) {
    m.row.Some? && m.row.value.status.Processing? && m.row.value.claimedAt.Some?
    && m.row.value.claimedAt.value + c.timeout < now
  }

  lemma DeadIsUnblocked(c: Config, s: State, w: WorkerId)
    requires Inv(c, s) && w in s.workers && s.workers[w].Polling? && s.workers[w].stage == 0
    ensures forall at :: Enabled(c, s, ReleaseToDead(w, at)) <==>
                           forall id | id in s.messages && HeldByOther(s.messages[id], w) ::
                             !(Overdue(c, s.messages[id], s.workers[w].now)
                               && s.messages[id].row.value.attempts >= c.policy.maxAttempts)
  {
    hide Inv;
  }

  lemma PendingIsUnblocked(c: Config, s: State, w: WorkerId)
    requires Inv(c, s) && w in s.workers && s.workers[w].Polling? && s.workers[w].stage == 1
    ensures Enabled(c, s, ReleaseToPending(w)) <==>
              forall id | id in s.messages && HeldByOther(s.messages[id], w) ::
                !(Overdue(c, s.messages[id], s.workers[w].now)
                  && s.messages[id].row.value.attempts < c.policy.maxAttempts)
  {
    hide Inv;
  }

  /** A clean-up never waits for its reaping, which finds nothing; its purge waits only while a row it is to delete is
      locked by somebody else; and then it can commit. */
  lemma PurgerGoesOn(c: Config, s: State, w: WorkerId)
    requires Inv(c, s) && w in s.workers && s.workers[w].Purging?
    ensures forall at :: Enabled(c, s, ReapExhausted(w, at)) <==> s.workers[w].stage == 0
    ensures Enabled(c, s, Commit(w)) <==> s.workers[w].stage == 2
    ensures forall cutoff :: Enabled(c, s, PurgeOld(w, cutoff)) <==>
                               && s.workers[w].stage == 1
                               && forall id | id in s.messages && HeldByOther(s.messages[id], w) ::
                                    !(s.messages[id].row.Some? && Outdated(s.messages[id].row.value, cutoff))
  {
    ReapingGoesOn(c, s, w);
    hide Inv;
  }

  lemma ReapingGoesOn(c: Config, s: State, w: WorkerId)
    requires Inv(c, s) && w in s.workers && s.workers[w].Purging?
    ensures forall at :: Enabled(c, s, ReapExhausted(w, at)) <==> s.workers[w].stage == 0
  {
    forall at, id | id in s.messages ensures !Hits(Reap(c.policy.maxAttempts, at), id, s.messages[id], w) {
      PurgerSeesReachableRows(c, s, w, id);
    }
    hide Inv, Hits;
  }

  predicate Outdated(r: Row, cutoff: Time) {
    r.status in {Processed, Dead} && r.finishedAt.Some? && r.finishedAt.value < cutoff
  }

  /** Some step of the worker's own work, no rollback and no crash, is possible now. */
  ghost predicate CanGoOn(c: Config, s: State, w: WorkerId) {
    exists a :: Enabled(c, s, a) && OwnWork(a, w)
  }

  predicate OwnWork(a: Action, w: WorkerId) {
    match a
    case Insert(_, _) => false
    case Tick(_) => false
    case Join(_) => false
    case Abort(_) => false
    case Crash(_) => false
    case _ => a.w == w
  }

  /** In every state of every run every worker can go on with its own work, unless another transaction has a lock or a
      poll has let more time pass before its claim than the skew allows. */
  lemma NeverStuck(c: Config, ss: seq<State>, acts: seq<Action>, n: nat, w: WorkerId)
    requires ValidConfig(c) && IsRun(c, ss, acts) && n < |ss| && w in ss[n].workers
    ensures var s, p := ss[n], ss[n].workers[w];
            || CanGoOn(c, s, w)
            || (exists id :: id in s.messages && HeldByOther(s.messages[id], w))
            || (p.Polling? && p.stage == 2 && p.now + c.skew < s.clock)
  {
    hide Inv, Enabled, Apply;
    RunKeepsInv(c, ss, acts, n);
    if forall id | id in ss[n].messages :: !HeldByOther(ss[n].messages[id], w) {
      FreeWorkerGoesOn(c, ss[n], w);
    }
  }

  lemma FreeWorkerGoesOn(c: Config, s: State, w: WorkerId)
    requires ValidConfig(c) && Inv(c, s) && w in s.workers
    requires forall id | id in s.messages :: !HeldByOther(s.messages[id], w)
    ensures || CanGoOn(c, s, w)
            || (s.workers[w].Polling? && s.workers[w].stage == 2 && s.workers[w].now + c.skew < s.clock)
  {
    var p := s.workers[w];
    match p
    case Idle =>
      assert Enabled(c, s, BeginPoll(w)) && OwnWork(BeginPoll(w), w);
    case Polling(now, stage, _, _) =>
      if stage != 2 || s.clock <= now + c.skew {
        PollerStep(c, s, w);
      }
    case Publishing(_, _) => PublisherStep(c, s, w);
    case Marking(_, _, _) => RecorderStep(c, s, w);
    case Purging(_) => PurgerStep(c, s, w);
  }

  lemma PollerStep(c: Config, s: State, w: WorkerId)
    requires ValidConfig(c) && Inv(c, s) && w in s.workers && s.workers[w].Polling?
    requires forall id | id in s.messages :: !HeldByOther(s.messages[id], w)
    requires s.workers[w].stage == 2 ==> s.clock <= s.workers[w].now + c.skew
    ensures CanGoOn(c, s, w)
  {
    PollerGoesOn(c, s, w);
    hide Enabled, Inv;
    var p := s.workers[w];
    if p.stage == 0 {
      assert Enabled(c, s, ReleaseToDead(w, 0.0)) && OwnWork(ReleaseToDead(w, 0.0), w);
    } else if p.stage == 1 {
      assert Enabled(c, s, ReleaseToPending(w)) && OwnWork(ReleaseToPending(w), w);
    } else if p.stage == 2 {
      var ids :| Enabled(c, s, ClaimBatch(w, ids));
      assert OwnWork(ClaimBatch(w, ids), w);
    } else {
      assert Enabled(c, s, Commit(w)) && OwnWork(Commit(w), w);
    }
  }

  lemma PublisherStep(c: Config, s: State, w: WorkerId)
    requires Inv(c, s) && w in s.workers && s.workers[w].Publishing?
    ensures CanGoOn(c, s, w)
  {
    RecordingCanBegin(c, s, w);
    hide Enabled, Inv;
    if Enabled(c, s, BeginMark(w)) {
      assert OwnWork(BeginMark(w), w);
    } else {
      var id :| id in s.workers[w].batch && s.messages[id].claims[s.workers[w].batch[id] - 1].finish.None?;
      PublisherGoesOn(c, s, w, id);
      assert Enabled(c, s, StartPublish(w, id)) || Enabled(c, s, FinishPublish(w, id, true));
      assert OwnWork(StartPublish(w, id), w) && OwnWork(FinishPublish(w, id, true), w);
    }
  }

  lemma RecorderStep(c: Config, s: State, w: WorkerId)
    requires ValidConfig(c) && Inv(c, s) && w in s.workers && s.workers[w].Marking?
    requires forall id | id in s.messages :: !HeldByOther(s.messages[id], w)
    ensures CanGoOn(c, s, w)
  {
    hide Enabled, Inv, OwnedBy;
    if s.workers[w].left == {} {
      CommitStep(c, s, w);
      assert Enabled(c, s, Commit(w)) && OwnWork(Commit(w), w);
    } else {
      var id :| id in s.workers[w].left;
      RecorderGoesOn(c, s, w, id);
      assert Enabled(c, s, MarkOk(w, id, 0.0)) || Enabled(c, s, MarkFailed(w, id, 1.0, 0.0));
      assert OwnWork(MarkOk(w, id, 0.0), w) && OwnWork(MarkFailed(w, id, 1.0, 0.0), w);
    }
  }

  lemma PurgerStep(c: Config, s: State, w: WorkerId)
    requires Inv(c, s) && w in s.workers && s.workers[w].Purging?
    requires forall id | id in s.messages :: !HeldByOther(s.messages[id], w)
    ensures CanGoOn(c, s, w)
  {
    assert PhaseOk(s.messages, s.clock, w, s.workers[w]);
    var stage := s.workers[w].stage;
    if stage == 0 {
      assert Enabled(c, s, ReapExhausted(w, 0.0)) && OwnWork(ReapExhausted(w, 0.0), w);
    } else if stage == 1 {
      assert Enabled(c, s, PurgeOld(w, 0.0)) && OwnWork(PurgeOld(w, 0.0), w);
    } else {
      assert Enabled(c, s, Commit(w)) && OwnWork(Commit(w), w);
    }
  }
}
