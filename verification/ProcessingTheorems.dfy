/** What the processing transactions guarantee over whole runs. */
module ProcessingTheorems {
  import opened Types
  import opened PaymentRules
  import opened Processing

  ghost predicate IsRun(ss: seq<State>, acts: seq<Action>) {
    && |ss| == |acts| + 1
    && Init(ss[0])
    && forall i | 0 <= i < |acts| :: Enabled(ss[i], acts[i]) && ss[i + 1] == Apply(ss[i], acts[i])
  }

  lemma {:induction false} RunKeepsInv(ss: seq<State>, acts: seq<Action>, n: nat)
    requires IsRun(ss, acts) && n < |ss|
    ensures Inv(ss[n])
  {
    if n > 0 {
      RunKeepsInv(ss, acts, n - 1);
      StepKeepsInv(ss[n - 1], acts[n - 1]);
    }
  }

  /** In every state of every run a committed payment is pending with version 0 and nothing attached, or
      terminal with version 2, exactly one attempt numbered 1 of the same outcome and exactly one delivery of
      the matching event; `processing` is never committed. */
  lemma AllOrNothingFinalisation(ss: seq<State>, acts: seq<Action>, n: nat, pid: PaymentId)
    requires IsRun(ss, acts) && n < |ss| && pid in ss[n].accounts
    ensures var a := ss[n].accounts[pid];
            match a.row.status
            case Pending => a.row.version == 0 && a.row.processedAt.None? && a.attempts == [] && a.deliveries == []
            case Processing => false
            case Succeeded =>
              && a.row.version == 2 && a.row.processedAt.Some?
              && a.attempts == [AttemptRow(1, AttemptSucceeded)]
              && a.deliveries == [DeliveryRow(PaymentSucceededHook, a.row.processedAt.value)]
            case Failed =>
              && a.row.version == 2 && a.row.processedAt.Some?
              && a.attempts == [AttemptRow(1, AttemptFailed)]
              && a.deliveries == [DeliveryRow(PaymentFailedHook, a.row.processedAt.value)]
  {
    RunKeepsInv(ss, acts, n);
    assert AccountInv(ss[n], pid);
  }

  /** NOT_PENDING is never returned, "Version conflict finalizing" is never raised, and CLAIM_CONFLICT or
      ALREADY_TERMINAL are returned only while the committed payment is terminal: acking them loses nothing. */
  lemma OutcomesAreSafeToAck(ss: seq<State>, acts: seq<Action>, n: nat, t: TxId)
    requires IsRun(ss, acts) && n < |ss| && t in ss[n].txs
    ensures var tx := ss[n].txs[t];
            && (tx.Raised? ==> !tx.versionConflict)
            && (tx.Returning? || tx.Done? ==> !tx.outcome.NotPending?)
            && (tx.Returning? && (tx.outcome.ClaimConflict? || tx.outcome.AlreadyTerminal?) ==>
                  TerminalNow(ss[n], tx.pid))
            && (tx.Done? && !tx.outcome.NotFound? ==> TerminalNow(ss[n], tx.pid))
  {
    RunKeepsInv(ss, acts, n);
    assert TxInv(ss[n], t, ss[n].txs[t]);
  }

  /** The claim fails exactly when the payment has been finalised by somebody else since it was read. */
  lemma ClaimConflictExactlyWhen(ss: seq<State>, acts: seq<Action>, n: nat)
    requires IsRun(ss, acts) && n < |acts| && acts[n].Claim?
    ensures var t := acts[n].t;
            t in ss[n].txs && t in ss[n + 1].txs
            && (ss[n + 1].txs[t].Returning? <==> TerminalNow(ss[n], ss[n].txs[t].pid))
            && (ss[n + 1].txs[t].Claimed? <==> !TerminalNow(ss[n], ss[n].txs[t].pid))
  {
    RunKeepsInv(ss, acts, n);
    var t := acts[n].t;
    assert TxInv(ss[n], t, ss[n].txs[t]);
    assert AccountInv(ss[n], ss[n].txs[t].pid);
  }

  /** After each compare-and-set that goes through, the aggregate in memory equals the row: status, version
      and processed_at. The second one always goes through. */
  lemma AggregateEqualsRow(ss: seq<State>, acts: seq<Action>, n: nat)
    requires IsRun(ss, acts) && n < |acts| && (acts[n].Claim? || acts[n].Finalise?)
    ensures var t, s' := acts[n].t, ss[n + 1];
            && t in s'.txs
            && (acts[n].Finalise? ==> s'.txs[t].Finalised?)
            && (s'.txs[t].Claimed? || s'.txs[t].Finalised? ==>
                  && s'.txs[t].pid in s'.accounts
                  && LockedBy(s'.accounts[s'.txs[t].pid], t)
                  && View(s'.accounts[s'.txs[t].pid], t) == s'.txs[t].agg)
  {
    RunKeepsInv(ss, acts, n);
    RunKeepsInv(ss, acts, n + 1);
    var t := acts[n].t;
    assert TxInv(ss[n], t, ss[n].txs[t]);
    assert TxInv(ss[n + 1], t, ss[n + 1].txs[t]);
  }

  /** Between its claim and its commit a transaction is alone with the payment: the gateway is never being
      charged twice at the same time for one payment. */
  lemma OneTransactionPerPayment(ss: seq<State>, acts: seq<Action>, n: nat, t: TxId, u: TxId)
    requires IsRun(ss, acts) && n < |ss| && t in ss[n].txs && u in ss[n].txs
    requires HoldsLock(ss[n].txs[t], ss[n].txs[t].pid) && HoldsLock(ss[n].txs[u], ss[n].txs[t].pid)
    ensures t == u
  {
    RunKeepsInv(ss, acts, n);
    assert TxInv(ss[n], t, ss[n].txs[t]);
    assert TxInv(ss[n], u, ss[n].txs[u]);
  }

  lemma StepKeepsFinal(s: State, a: Action, pid: PaymentId)
    requires Inv(s) && Enabled(s, a) && TerminalNow(s, pid)
    ensures pid in Apply(s, a).accounts
    ensures Apply(s, a).accounts[pid] == s.accounts[pid]
  {
    assert AccountInv(s, pid);
    if !a.Create? && a.t in s.txs {
      assert TxInv(s, a.t, s.txs[a.t]);
    }
  }

  /** A finalised payment is final: row, attempts and deliveries never change again, whatever is redelivered. */
  lemma {:induction false} FinalIsFinal(ss: seq<State>, acts: seq<Action>, i: nat, j: nat, pid: PaymentId)
    requires IsRun(ss, acts) && i <= j < |ss| && TerminalNow(ss[i], pid)
    ensures pid in ss[j].accounts && ss[j].accounts[pid] == ss[i].accounts[pid]
    decreases j - i
  {
    if i < j {
      FinalIsFinal(ss, acts, i, j - 1, pid);
      RunKeepsInv(ss, acts, j - 1);
      StepKeepsFinal(ss[j - 1], acts[j - 1], pid);
    }
  }

  // ---------------------------------------------------------------------------
  // No transaction is stuck
  // ---------------------------------------------------------------------------

  /** Whatever phase a transaction is in, its next statement can run, with either answer of the gateway; only the claim
      waits, and only while another open transaction has the payment locked. */
  lemma TransactionGoesOn(ss: seq<State>, acts: seq<Action>, n: nat, t: TxId)
    requires IsRun(ss, acts) && n < |ss| && t in ss[n].txs
    ensures var s, tx := ss[n], ss[n].txs[t];
            match tx
            case Started(_) => forall now :: Enabled(s, Load(t, now))
            case Loaded(pid, _, _) =>
              pid in s.accounts
              && (Enabled(s, Claim(t)) <==> s.accounts[pid].lock.None? || s.accounts[pid].row.status != Pending)
            case Claimed(_, _) => Enabled(s, OpenAttempt(t))
            case Opened(_, _, _) => forall success :: Enabled(s, Charge(t, success))
            case Charged(_, _, _, _) => forall now :: Enabled(s, Finalise(t, now))
            case Finalised(_, _, _, _, _) => Enabled(s, Record(t))
            case Returning(_, _, _, _) => Enabled(s, Commit(t))
            case _ => forall pid :: Enabled(s, Begin(t, pid))
  {
    RunKeepsInv(ss, acts, n);
    var s, tx := ss[n], ss[n].txs[t];
    assert TxInv(s, t, tx);
    if tx.Loaded? {
      assert AccountInv(s, tx.pid);
    }
  }

  // ---------------------------------------------------------------------------
  // The gateway decides
  // ---------------------------------------------------------------------------

  /** What the gateway answered last to this transaction in the first n steps. */
  function LastAnswer(acts: seq<Action>, t: TxId, n: nat): Option<bool>
    requires n <= |acts|
  {
    if n == 0 then None
    else if acts[n - 1].Charge? && acts[n - 1].t == t then Some(acts[n - 1].success)
    else LastAnswer(acts, t, n - 1)
  }

  predicate IsVerdict(o: Outcome) {
    o.OutcomeSucceeded? || o.OutcomeFailed?
  }

  /** The transaction carries the gateway's answer on, up to its outcome. */
  ghost predicate Carries(tx: Tx, answer: Option<bool>) {
    match tx
    case Charged(_, _, _, success) => answer == Some(success)
    case Finalised(_, _, _, success, _) => answer == Some(success)
    case Returning(_, outcome, _, _) => IsVerdict(outcome) ==> answer == Some(outcome.OutcomeSucceeded?)
    case Done(_, outcome) => IsVerdict(outcome) ==> answer == Some(outcome.OutcomeSucceeded?)
    case _ => true
  }

  /** A transaction that is done with a verdict has put it into the committed row. */
  ghost predicate Delivered(s: State, t: TxId) {
    t in s.txs && s.txs[t].Done? && IsVerdict(s.txs[t].outcome) ==>
      && TerminalNow(s, s.txs[t].pid)
      && (s.accounts[s.txs[t].pid].row.status.Succeeded? <==> s.txs[t].outcome.OutcomeSucceeded?)
  }

  lemma StepCarries(s: State, a: Action, t: TxId, answer: Option<bool>)
    requires Enabled(s, a) && t in Apply(s, a).txs && (t in s.txs ==> Carries(s.txs[t], answer))
    ensures Carries(Apply(s, a).txs[t], if a.Charge? && a.t == t then Some(a.success) else answer)
  {
    hide Marked, CasMatches, CasUpdated, NextNumber, Locked;
  }

  lemma CommitDelivers(s: State, t: TxId)
    requires Inv(s) && Enabled(s, Commit(t))
    ensures Delivered(Apply(s, Commit(t)), t)
  {
    var tx := s.txs[t];
    assert TxInv(s, t, tx);
    if IsVerdict(tx.outcome) {
      assert ReturnsFinal(s, t, tx.pid, tx.attempts, tx.deliveries, tx.outcome.OutcomeSucceeded?);
    }
  }

  lemma StepKeepsDelivered(s: State, a: Action, t: TxId)
    requires Inv(s) && Enabled(s, a) && Delivered(s, t)
    ensures Delivered(Apply(s, a), t)
  {
    if a.Commit? && a.t == t {
      CommitDelivers(s, t);
    } else if t in s.txs && s.txs[t].Done? && IsVerdict(s.txs[t].outcome) {
      StepKeepsFinal(s, a, s.txs[t].pid);
    }
  }

  lemma {:induction false} RunCarries(ss: seq<State>, acts: seq<Action>, n: nat, t: TxId)
    requires IsRun(ss, acts) && n < |ss|
    ensures t in ss[n].txs ==> Carries(ss[n].txs[t], LastAnswer(acts, t, n))
    ensures Delivered(ss[n], t)
  {
    hide Inv, Enabled, Apply, Carries, Delivered;
    if n > 0 {
      RunCarries(ss, acts, n - 1, t);
      RunKeepsInv(ss, acts, n - 1);
      StepKeepsDelivered(ss[n - 1], acts[n - 1], t);
      if t in ss[n].txs {
        assert t in ss[n - 1].txs ==> Carries(ss[n - 1].txs[t], LastAnswer(acts, t, n - 1));
        StepCarries(ss[n - 1], acts[n - 1], t, LastAnswer(acts, t, n - 1));
      }
    } else {
      NothingYet(ss[0], t);
    }
  }

  lemma NothingYet(s: State, t: TxId)
    requires Init(s)
    ensures t !in s.txs && Delivered(s, t)
  {
  }

  /** The gateway's answer is what everybody sees: when a transaction is done with a verdict, the verdict, the
      committed payment, its attempt and its webhook event all say what the gateway said to that transaction. */
  lemma GatewayDecides(ss: seq<State>, acts: seq<Action>, n: nat, t: TxId)
    requires IsRun(ss, acts) && n < |ss| && t in ss[n].txs && ss[n].txs[t].Done?
    requires ss[n].txs[t].outcome in {OutcomeSucceeded, OutcomeFailed}
    ensures var tx, answer := ss[n].txs[t], LastAnswer(acts, t, n);
            && answer.Some? && tx.pid in ss[n].accounts
            && var a := ss[n].accounts[tx.pid];
            && |a.attempts| == |a.deliveries| == 1
            && (answer.value <==> tx.outcome == OutcomeSucceeded)
            && (answer.value <==> a.row.status == Succeeded) && (!answer.value <==> a.row.status == Failed)
            && (answer.value <==> a.attempts[0].status == AttemptSucceeded)
            && (!answer.value <==> a.attempts[0].status == AttemptFailed)
            && (answer.value <==> a.deliveries[0].eventType == PaymentSucceededHook)
            && (!answer.value <==> a.deliveries[0].eventType == PaymentFailedHook)
  {
    RunCarries(ss, acts, n, t);
    AllOrNothingFinalisation(ss, acts, n, ss[n].txs[t].pid);
  }
}
