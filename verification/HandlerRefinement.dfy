/** The process handler as written, against the state machine the concurrent results are proved about: an
    undisturbed call that finalises leaves in the tables what the machine's seven steps leave in the account. */
module HandlerRefinement {
  import opened Types
  import opened PaymentRules
  import opened PaymentAggregate
  import opened UnitOfWork
  import opened Handlers
  import P = Processing

  /** `acts`, one after the other, lead from s to s'. */
  ghost predicate LeadsTo(s: P.State, acts: seq<P.Action>, s': P.State)
    decreases |acts|
  {
    if acts == [] then s' == s
    else P.Enabled(s, acts[0]) && LeadsTo(P.Apply(s, acts[0]), acts[1..], s')
  }

  /** The steps of one call, up to and including its commit. */
  function CallSteps(t: P.TxId, startedAt: Time, success: bool, finishedAt: Time): seq<P.Action> {
    ClaimSteps(t, startedAt) + FinishSteps(t, success, finishedAt)
  }

  function ClaimSteps(t: P.TxId, startedAt: Time): seq<P.Action> {
    [P.Load(t, startedAt), P.Claim(t), P.OpenAttempt(t)]
  }

  function FinishSteps(t: P.TxId, success: bool, finishedAt: Time): seq<P.Action> {
    [P.Charge(t, success), P.Finalise(t, finishedAt), P.Record(t), P.Commit(t)]
  }

  lemma {:induction false} LeadsFurther(s: P.State, a: seq<P.Action>, mid: P.State, b: seq<P.Action>, s': P.State)
    requires LeadsTo(s, a, mid) && LeadsTo(mid, b, s')
    ensures LeadsTo(s, a + b, s')
    decreases |a|
  {
    if a == [] {
      assert a + b == b;
    } else {
      assert (a + b)[0] == a[0] && (a + b)[1..] == a[1..] + b;
      LeadsFurther(P.Apply(s, a[0]), a[1..], mid, b, s');
    }
  }

  function Finalised(success: bool, at: Time): P.Account {
    P.Account(PaymentRow(TerminalOf(success), 2, Some(at)), None, [AttemptRow(1, AttemptOf(success))],
              [DeliveryRow(HookOf(success), at)])
  }

  lemma MachineClaims(s: P.State, t: P.TxId, id: PaymentId, startedAt: Time) returns (s': P.State)
    requires id in s.accounts && s.accounts[id] == P.UNTOUCHED && t in s.txs && s.txs[t] == P.Started(id)
    ensures LeadsTo(s, ClaimSteps(t, startedAt), s')
    ensures id in s'.accounts && s'.accounts[id] == P.UNTOUCHED.(lock := Some(P.RowLock(t, P.IN_PROCESS)))
    ensures t in s'.txs && s'.txs[t] == P.Opened(id, P.IN_PROCESS, P.FIRST_ATTEMPT)
  {
    var s1 := P.Apply(s, P.Load(t, startedAt));
    var s2 := P.Apply(s1, P.Claim(t));
    s' := P.Apply(s2, P.OpenAttempt(t));
    assert LeadsTo(s2, [P.OpenAttempt(t)], s');
    assert LeadsTo(s1, [P.Claim(t), P.OpenAttempt(t)], s') by {
      assert [P.Claim(t), P.OpenAttempt(t)][1..] == [P.OpenAttempt(t)];
    }
    assert ClaimSteps(t, startedAt)[1..] == [P.Claim(t), P.OpenAttempt(t)];
  }

  lemma MachineFinishes(s: P.State, t: P.TxId, id: PaymentId, success: bool, finishedAt: Time) returns (s': P.State)
    requires id in s.accounts && s.accounts[id] == P.UNTOUCHED.(lock := Some(P.RowLock(t, P.IN_PROCESS)))
    requires t in s.txs && s.txs[t] == P.Opened(id, P.IN_PROCESS, P.FIRST_ATTEMPT)
    ensures LeadsTo(s, FinishSteps(t, success, finishedAt), s')
    ensures id in s'.accounts && s'.accounts[id] == Finalised(success, finishedAt)
    ensures t in s'.txs && s'.txs[t] == P.Done(id, OutcomeOf(success))
  {
    var s1 := P.Apply(s, P.Charge(t, success));
    var s2 := P.Apply(s1, P.Finalise(t, finishedAt));
    var s3 := P.Apply(s2, P.Record(t));
    s' := P.Apply(s3, P.Commit(t));
    var acts := FinishSteps(t, success, finishedAt);
    assert acts[3..] == [P.Commit(t)] && acts[2..][1..] == acts[3..] && acts[1..][1..] == acts[2..];
    assert LeadsTo(s3, acts[3..], s');
    assert LeadsTo(s2, acts[2..], s');
    assert LeadsTo(s1, acts[1..], s');
  }

  /** The tables hold for a payment what the account says: its row, its attempts and its deliveries. */
  ghost predicate Shows(t: Tables, id: PaymentId, a: P.Account) {
    && id in t.payments && t.payments[id].row == a.row
    && |AttemptsOf(t.attempts, id)| == |a.attempts|
    && (forall x | x in AttemptsOf(t.attempts, id) ::
          AttemptRow(t.attempts[x].number, t.attempts[x].status) in a.attempts)
    && |DeliveriesOf(t, id)| == |a.deliveries|
    && (forall x | x in DeliveriesOf(t, id) ::
          DeliveryRow(t.deliveries[x].eventType, t.deliveries[x].delivery.createdAt) in a.deliveries)
  }

  ghost function DeliveriesOf(t: Tables, id: PaymentId): set<nat> {
    set d | d in t.deliveries && t.deliveries[d].payment == id
  }

  lemma FinalisedShows(before: Tables, after: Tables, cmd: Command, drawn: Drawn, g: GatewayResult)
    requires Shows(before, cmd.payment, P.UNTOUCHED)
    requires drawn.attempt !in before.attempts && drawn.delivery !in before.deliveries
    requires FinalisedBy(before, after, cmd, drawn, g)
    ensures Shows(after, cmd.payment, Finalised(g.success, drawn.finishedAt))
  {
    assert AttemptsOf(before.attempts, cmd.payment) == {} && DeliveriesOf(before, cmd.payment) == {};
    assert AttemptsOf(after.attempts, cmd.payment) == {drawn.attempt};
    assert DeliveriesOf(after, cmd.payment) == {drawn.delivery};
  }

  /** A call that finalises an untouched payment does in the tables what the machine does in its account: the
      machine can take the call's steps and ends with the same row, attempt, delivery and outcome. */
  lemma HandlerFollowsMachine(before: Tables, after: Tables, cmd: Command, drawn: Drawn, g: GatewayResult, s: P.State,
                              t: P.TxId)
    requires cmd.payment in s.accounts && s.accounts[cmd.payment] == P.UNTOUCHED
    requires Shows(before, cmd.payment, P.UNTOUCHED)
    requires t in s.txs && s.txs[t] == P.Started(cmd.payment)
    requires drawn.attempt !in before.attempts && drawn.delivery !in before.deliveries
    requires FinalisedBy(before, after, cmd, drawn, g)
    ensures exists s' ::
              && LeadsTo(s, CallSteps(t, drawn.startedAt, g.success, drawn.finishedAt), s')
              && cmd.payment in s'.accounts && Shows(after, cmd.payment, s'.accounts[cmd.payment])
              && t in s'.txs && s'.txs[t] == P.Done(cmd.payment, OutcomeOf(g.success))
  {
    hide Shows, FinalisedBy, LeadsTo;
    var mid := MachineClaims(s, t, cmd.payment, drawn.startedAt);
    var s' := MachineFinishes(mid, t, cmd.payment, g.success, drawn.finishedAt);
    LeadsFurther(s, ClaimSteps(t, drawn.startedAt), mid, FinishSteps(t, g.success, drawn.finishedAt), s');
    FinalisedShows(before, after, cmd, drawn, g);
  }
}
