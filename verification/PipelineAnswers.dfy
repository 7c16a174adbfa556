/** That nothing in the pipeline is ever stuck, and what becomes of a delivery once the consumer has decided on its
    answer, over whole runs. */
module PipelineAnswers {
  import opened Types
  import opened Broker
  import opened Pipeline
  import opened PipelineInvariant
  import opened PipelineTheorems
  import Creation
  import Lease
  import LeaseInvariant
  import OutboxRows
  import Processing

  lemma OtherStepsEndNothing(c: Lease.Config, s: Lease.State, a: Lease.Action, id: MessageId, k: nat)
    requires Lease.Enabled(c, s, a) && !a.FinishPublish? && !a.Crash?
    requires id in s.messages && k < |s.messages[id].claims|
    ensures id in Lease.Apply(c, s, a).messages && k < |Lease.Apply(c, s, a).messages[id].claims|
    ensures Lease.Apply(c, s, a).messages[id].claims[k].finish == s.messages[id].claims[k].finish
  {
    hide OutboxRows.Matches, OutboxRows.Updated, OutboxRows.Oldest;
    hide Lease.Unblocked, Lease.Selectable, Lease.StatementOf;
  }

  lemma FinishEndsOne(c: Lease.Config, s: Lease.State, a: Lease.Action, id: MessageId, k: nat)
    requires Lease.Enabled(c, s, a) && a.FinishPublish?
    requires id in s.messages && k < |s.messages[id].claims|
    ensures id in Lease.Apply(c, s, a).messages && k < |Lease.Apply(c, s, a).messages[id].claims|
    ensures CopyId(id, k + 1) in Ending(s, a) <==>
              && s.messages[id].claims[k].finish.None?
              && Lease.Apply(c, s, a).messages[id].claims[k].finish.Some?
  {
  }

  lemma CrashEndsAll(c: Lease.Config, s: Lease.State, a: Lease.Action, id: MessageId, k: nat)
    requires Lease.Enabled(c, s, a) && a.Crash?
    requires id in s.messages && k < |s.messages[id].claims|
    ensures id in Lease.Apply(c, s, a).messages && k < |Lease.Apply(c, s, a).messages[id].claims|
    ensures CopyId(id, k + 1) in Ending(s, a) <==>
              && s.messages[id].claims[k].finish.None?
              && Lease.Apply(c, s, a).messages[id].claims[k].finish.Some?
  {
  }

  /** A copy can appear in the broker exactly when a publish ends: in the step that gives the claim of that number its
      end, be it an answer of the broker or the crash of the worker. */
  lemma CopiesAppearWhenPublishesEnd(c: Lease.Config, s: Lease.State, a: Lease.Action, id: MessageId, k: nat)
    requires Lease.Enabled(c, s, a) && id in s.messages && k < |s.messages[id].claims|
    ensures id in Lease.Apply(c, s, a).messages && k < |Lease.Apply(c, s, a).messages[id].claims|
    ensures CopyId(id, k + 1) in Ending(s, a) <==>
              && s.messages[id].claims[k].finish.None?
              && Lease.Apply(c, s, a).messages[id].claims[k].finish.Some?
  {
    if a.FinishPublish? {
      FinishEndsOne(c, s, a, id, k);
    } else if a.Crash? {
      CrashEndsAll(c, s, a, id, k);
    } else {
      hide Lease.Enabled, Lease.Apply;
      OtherStepsEndNothing(c, s, a, id, k);
    }
  }

  /** The step with which the consumer decides to ack: its handler run returned, or the broker took the DLQ copy. */
  ghost predicate DecidesToAck(s: State, a: Action, c: CopyId) {
    || (a.DlqPublish? && a.c == c && a.accepted)
    || (a.HandlerEnds? && a.c == c && c in s.copies && Current(s, c) in s.proc.txs && s.proc.txs[Current(s, c)].Done?)
  }

  /** ... and to nack: the run raised, or the DLQ publish did. */
  ghost predicate DecidesToNack(s: State, a: Action, c: CopyId) {
    || (a.DlqPublish? && a.c == c && !a.accepted)
    || (a.HandlerEnds? && a.c == c && c in s.copies && Current(s, c) in s.proc.txs && s.proc.txs[Current(s, c)].Raised?)
  }

  lemma DecisionIsTaken(cfg: Config, s: State, a: Action, c: CopyId)
    requires Enabled(cfg, s, a)
    ensures DecidesToAck(s, a, c) ==> At(Apply(cfg, s, a), c, Handling(ToAck))
    ensures DecidesToNack(s, a, c) ==> At(Apply(cfg, s, a), c, Handling(ToNack))
  {
    hide Lease.Enabled, Lease.Apply, Creation.Enabled, Creation.Apply, Processing.Apply;
  }

  lemma AckStays(cfg: Config, s: State, a: Action, c: CopyId)
    requires Enabled(cfg, s, a) && !CutsOff(a, c)
    requires At(s, c, Handling(ToAck)) || At(s, c, Gone)
    ensures At(Apply(cfg, s, a), c, Handling(ToAck)) || At(Apply(cfg, s, a), c, Gone)
    ensures Apply(cfg, s, a).copies[c].runs == s.copies[c].runs
    ensures a.Ack? && a.c == c ==> At(Apply(cfg, s, a), c, Gone)
  {
    hide Lease.Enabled, Lease.Apply, Creation.Enabled, Creation.Apply, Processing.Apply;
  }

  /** Once the consumer has decided to ack a delivery, and unless a crash or a lost channel cuts it off before the
      broker has the answer, the copy is never handled again. */
  lemma {:induction false} AckedForGood(cfg: Config, ss: seq<State>, acts: seq<Action>, i: nat, j: nat, c: CopyId)
    requires IsRun(cfg, ss, acts) && i < j < |ss| && DecidesToAck(ss[i], acts[i], c)
    requires forall k | i < k < j :: !CutsOff(acts[k], c)
    ensures At(ss[j], c, Handling(ToAck)) || At(ss[j], c, Gone)
    ensures c in ss[i + 1].copies && ss[j].copies[c].runs == ss[i + 1].copies[c].runs
    decreases j - i
  {
    hide Enabled, Apply, DecidesToAck, CutsOff;
    DecisionIsTaken(cfg, ss[i], acts[i], c);
    if i + 1 < j {
      AckedForGood(cfg, ss, acts, i, j - 1, c);
      AckStays(cfg, ss[j - 1], acts[j - 1], c);
    }
  }

  lemma NackWaits(cfg: Config, s: State, a: Action, c: CopyId)
    requires Enabled(cfg, s, a) && !CutsOff(a, c) && !(a.Nack? && a.c == c)
    requires At(s, c, Handling(ToNack))
    ensures At(Apply(cfg, s, a), c, Handling(ToNack)) && Apply(cfg, s, a).copies[c].runs == s.copies[c].runs
  {
    hide Lease.Enabled, Lease.Apply, Creation.Enabled, Creation.Apply, Processing.Apply;
  }

  /** Once it has decided to nack, the delivery waits for exactly that answer. */
  lemma {:induction false} NackFollows(cfg: Config, ss: seq<State>, acts: seq<Action>, i: nat, j: nat, c: CopyId)
    requires IsRun(cfg, ss, acts) && i < j < |ss| && DecidesToNack(ss[i], acts[i], c)
    requires forall k | i < k < j :: !CutsOff(acts[k], c) && !(acts[k].Nack? && acts[k].c == c)
    ensures At(ss[j], c, Handling(ToNack)) && Enabled(cfg, ss[j], Nack(c))
    decreases j - i
  {
    DecisionIsTaken(cfg, ss[i], acts[i], c);
    if i + 1 < j {
      NackFollows(cfg, ss, acts, i, j - 1, c);
      hide Enabled, Apply, DecidesToNack;
      NackWaits(cfg, ss[j - 1], acts[j - 1], c);
    }
  }

  /** A nack puts the copy into the retry queue with one more rejection; the expiry there puts it back into the main
      queue with the same count; so does a delivery that was cut off. Runs and charges are not touched. */
  lemma ReturnsWithCount(cfg: Config, s: State, a: Action)
    requires Inv(cfg, s) && Enabled(cfg, s, a)
    requires a.Nack? || a.Expire? || a.ConsumerCrash? || a.ChannelLost?
    ensures a.c in s.copies && a.c in Apply(cfg, s, a).copies
    ensures var k, k' := s.copies[a.c], Apply(cfg, s, a).copies[a.c];
            && RejectedCount(k.deaths).Some? && RejectedCount(k'.deaths).Some?
            && RejectedCount(k'.deaths).value == RejectedCount(k.deaths).value + (if a.Nack? then 1 else 0)
            && k'.place == (if a.Nack? then InRetry else InMain)
            && k'.runs == k.runs && k'.charged == k.charged && k'.inDlq == k.inDlq
  {
    hide LeaseInvariant.Inv, Creation.Inv, Processing.Inv, RejectedCount, Bury;
    hide Lease.Enabled, Lease.Apply, Creation.Enabled, Creation.Apply, Processing.Apply;
    assert CopyInv(cfg, s, a.c, s.copies[a.c]);
    if a.Nack? {
      BuryCounts(s.copies[a.c].deaths, cfg.mainQueue, "rejected");
    } else if a.Expire? {
      BuryCounts(s.copies[a.c].deaths, cfg.retryQueue, "expired");
      NotTheSameReason();
    }
  }

  lemma NotTheSameReason()
    ensures "expired" != "rejected"
  {
    assert |"expired"| != |"rejected"|;
  }

  // ---------------------------------------------------------------------------
  // Nothing is stuck
  // ---------------------------------------------------------------------------

  /** Every copy that is not gone can go on: be delivered, routed by its retry count, ended when its run has, answered
      as decided, or come back from the retry queue. */
  lemma CopyGoesOn(cfg: Config, ss: seq<State>, acts: seq<Action>, n: nat, c: CopyId)
    requires ValidConfig(cfg) && IsRun(cfg, ss, acts) && n < |ss| && c in ss[n].copies
    ensures match ss[n].copies[c].place
            case Gone => true
            case InMain => Enabled(cfg, ss[n], Deliver(c))
            case InRetry => Enabled(cfg, ss[n], Expire(c))
            case Handling(step) =>
              match step
              case Received => Enabled(cfg, ss[n], Dispatch(c))
              case Running =>
                Current(ss[n], c) in ss[n].proc.txs
                && (Enabled(cfg, ss[n], HandlerEnds(c)) <==>
                      ss[n].proc.txs[Current(ss[n], c)].Done? || ss[n].proc.txs[Current(ss[n], c)].Raised?)
              case ToDlq => forall accepted, kept :: Enabled(cfg, ss[n], DlqPublish(c, accepted, kept))
              case ToAck => Enabled(cfg, ss[n], Ack(c))
              case ToNack => Enabled(cfg, ss[n], Nack(c))
  {
    hide Inv, Apply, Lease.Enabled, Creation.Enabled;
    RunKeepsInv(cfg, ss, acts, n);
    CopyIsKnown(cfg, ss[n], c);
  }

  /** The message of a copy is on record, its latest run too while it is running, and its next run is a new one. */
  lemma CopyIsKnown(cfg: Config, s: State, c: CopyId)
    requires Inv(cfg, s) && c in s.copies
    ensures c.message in s.api.outbox
    ensures s.copies[c].place == Handling(Running) ==> Current(s, c) in s.proc.txs
    ensures RunId(c, s.copies[c].runs + 1) !in s.proc.txs
  {
    hide PartsInv, PublishedInv, RejectedCount;
    assert CopyInv(cfg, s, c, s.copies[c]);
    assert forall t | t in s.proc.txs :: TxOk(s, t);
  }

  /** A delivered copy with retries left starts a new run of the process handler for the payment of its message; one
      without goes to the DLQ. */
  lemma DispatchStartsARun(cfg: Config, s: State, c: CopyId)
    requires Inv(cfg, s) && Enabled(cfg, s, Dispatch(c))
    ensures c in s.copies && c.message in s.api.outbox && RejectedCount(s.copies[c].deaths).Some?
    ensures var s', k := Apply(cfg, s, Dispatch(c)), s.copies[c];
            if RejectedCount(k.deaths).value < cfg.maxRetries
            then && s'.copies == s.copies[c := k.(place := Handling(Running), runs := k.runs + 1)]
                 && s'.proc.txs == s.proc.txs[RunId(c, k.runs + 1) := Processing.Started(s.api.outbox[c.message])]
            else s'.copies == s.copies[c := k.(place := Handling(ToDlq))] && s'.proc == s.proc
  {
    hide LeaseInvariant.Inv, Creation.Inv, Processing.Inv, RejectedCount, RouteOf, BodyOf;
    hide Lease.Enabled, Lease.Apply, Creation.Enabled, Creation.Apply;
    assert CopyInv(cfg, s, c, s.copies[c]);
    OurRoutes(s.api.outbox[c.message], s.copies[c].deaths, cfg.maxRetries);
  }

  /** Putting the parts together blocks none of them: a request, a worker or a handler run that can take a step on its
      own can take it here, and a publish that fails or is cut off may or may not have left its copy. */
  lemma PartsGoOn(cfg: Config, ss: seq<State>, acts: seq<Action>, n: nat)
    requires ValidConfig(cfg) && IsRun(cfg, ss, acts) && n < |ss|
    ensures forall request, at :: Creation.Enabled(ss[n].api, request) <==> Enabled(cfg, ss[n], Api(request, at))
    ensures forall act: Lease.Action | !act.Insert? && Lease.Enabled(cfg.lease, ss[n].lease, act) ::
              Enabled(cfg, ss[n], Worker(act, Ending(ss[n].lease, act)))
    ensures forall act: Lease.Action, left | !act.Insert? && Lease.Enabled(cfg.lease, ss[n].lease, act)
                               && left <= Ending(ss[n].lease, act) && !(act.FinishPublish? && act.ok) ::
              Enabled(cfg, ss[n], Worker(act, left))
    ensures forall tx: Processing.Action | !tx.Create? && !tx.Begin? && Processing.Enabled(ss[n].proc, tx) ::
              Enabled(cfg, ss[n], Handler(tx))
  {
    hide Inv, Enabled, Apply, Ending, Creation.Enabled, Lease.Enabled, Processing.Enabled;
    RunKeepsInv(cfg, ss, acts, n);
    var s := ss[n];
    forall request, at ensures Creation.Enabled(s.api, request) <==> Enabled(cfg, s, Api(request, at)) {
      ApiGoesOn(cfg, s, request, at);
    }
    forall act: Lease.Action, left | !act.Insert? && Lease.Enabled(cfg.lease, s.lease, act)
                                     && left <= Ending(s.lease, act)
                                     && (act.FinishPublish? && act.ok ==> left == Ending(s.lease, act))
      ensures Enabled(cfg, s, Worker(act, left))
    {
      WorkerGoesOn(cfg, s, act, left);
    }
    forall tx: Processing.Action | !tx.Create? && !tx.Begin? && Processing.Enabled(s.proc, tx)
      ensures Enabled(cfg, s, Handler(tx))
    {
      HandlerGoesOn(cfg, s, tx);
    }
  }

  lemma WorkerGoesOn(cfg: Config, s: State, act: Lease.Action, left: set<CopyId>)
    requires !act.Insert? && Lease.Enabled(cfg.lease, s.lease, act) && left <= Ending(s.lease, act)
    requires act.FinishPublish? && act.ok ==> left == Ending(s.lease, act)
    ensures Enabled(cfg, s, Worker(act, left))
  {
    hide Lease.Enabled, Ending;
  }

  lemma HandlerGoesOn(cfg: Config, s: State, tx: Processing.Action)
    requires Inv(cfg, s) && !tx.Create? && !tx.Begin? && Processing.Enabled(s.proc, tx)
    ensures Enabled(cfg, s, Handler(tx))
  {
    hide PartsInv, CopiesInv, PublishedInv;
    assert TxOk(s, tx.t);
  }

  lemma ApiGoesOn(cfg: Config, s: State, request: Creation.Action, at: Time)
    requires Inv(cfg, s)
    ensures Creation.Enabled(s.api, request) <==> Enabled(cfg, s, Api(request, at))
  {
    hide LeaseInvariant.Inv, Processing.Inv, RejectedCount;
    if Creation.Enabled(s.api, request) && Creates(s.api, request) {
      assert Creation.RequestInv(s.api, request.r);
    }
  }
}
