/** How often the gateway is charged for one payment: every charge beyond the one that counts belongs to a
    transaction that was rolled back, and there is no other bound. */
module ChargeAccount {
  import opened Types
  import opened PaymentRules
  import opened Processing
  import opened ProcessingTheorems

  /** The gateway has been charged and the transaction has neither committed nor been rolled back. */
  predicate HasCharged(tx: Tx) {
    tx.Charged? || tx.Finalised? || (tx.Returning? && (tx.outcome.OutcomeSucceeded? || tx.outcome.OutcomeFailed?))
  }

  ghost predicate OpenCharge(s: State, pid: PaymentId) {
    exists t :: t in s.txs && s.txs[t].pid == pid && HasCharged(s.txs[t])
  }

  predicate IsCharge(s: State, a: Action, pid: PaymentId) {
    a.Charge? && a.t in s.txs && s.txs[a.t].pid == pid
  }

  /** A rollback of a transaction that had charged. */
  predicate IsUndone(s: State, a: Action, pid: PaymentId) {
    a.Rollback? && a.t in s.txs && s.txs[a.t].pid == pid && HasCharged(s.txs[a.t])
  }

  ghost function Charges(ss: seq<State>, acts: seq<Action>, pid: PaymentId, n: nat): nat
    requires n <= |acts| <= |ss|
  {
    if n == 0 then 0 else Charges(ss, acts, pid, n - 1) + (if IsCharge(ss[n - 1], acts[n - 1], pid) then 1 else 0)
  }

  ghost function Undone(ss: seq<State>, acts: seq<Action>, pid: PaymentId, n: nat): nat
    requires n <= |acts| <= |ss|
  {
    if n == 0 then 0 else Undone(ss, acts, pid, n - 1) + (if IsUndone(ss[n - 1], acts[n - 1], pid) then 1 else 0)
  }

  /** One charge of the payment counts: it is final, or a charged transaction is still open. */
  ghost predicate Counts(s: State, pid: PaymentId) {
    TerminalNow(s, pid) || OpenCharge(s, pid)
  }

  lemma ChargedHolds(s: State, t: TxId)
    requires Inv(s) && t in s.txs && (HasCharged(s.txs[t]) || s.txs[t].Opened?)
    ensures var pid := s.txs[t].pid;
            pid in s.accounts && s.accounts[pid].lock.Some? && s.accounts[pid].lock.value.owner == t
            && !TerminalNow(s, pid)
  {
    assert TxInv(s, t, s.txs[t]);
  }

  /** A charge is made while none counts, an undone one counted until then, and no other step changes that. */
  lemma StepAccount(s: State, a: Action, pid: PaymentId)
    requires Inv(s) && Enabled(s, a)
    ensures IsCharge(s, a, pid) ==> !Counts(s, pid) && Counts(Apply(s, a), pid)
    ensures IsUndone(s, a, pid) ==> Counts(s, pid) && !Counts(Apply(s, a), pid)
    ensures !IsCharge(s, a, pid) && !IsUndone(s, a, pid) ==> (Counts(s, pid) <==> Counts(Apply(s, a), pid))
  {
    StepKeepsInv(s, a);
    if IsCharge(s, a, pid) {
      ChargeAccounts(s, a, pid);
    } else if IsUndone(s, a, pid) {
      UndoneAccounts(s, a, pid);
    } else {
      OtherAccounts(s, a, pid);
    }
  }

  lemma ChargeAccounts(s: State, a: Action, pid: PaymentId)
    requires Inv(s) && Enabled(s, a) && IsCharge(s, a, pid)
    ensures !Counts(s, pid) && Counts(Apply(s, a), pid)
  {
    hide Inv;
    ChargedHolds(s, a.t);
    forall u | u in s.txs && s.txs[u].pid == pid ensures !HasCharged(s.txs[u]) {
      if HasCharged(s.txs[u]) {
        ChargedHolds(s, u);
      }
    }
    assert HasCharged(Apply(s, a).txs[a.t]);
  }

  lemma UndoneAccounts(s: State, a: Action, pid: PaymentId)
    requires Inv(s) && Enabled(s, a) && IsUndone(s, a, pid)
    ensures Counts(s, pid) && !Counts(Apply(s, a), pid)
  {
    hide Inv;
    ChargedHolds(s, a.t);
    var s' := Apply(s, a);
    forall u | u in s'.txs && s'.txs[u].pid == pid ensures !HasCharged(s'.txs[u]) {
      if u != a.t && HasCharged(s.txs[u]) {
        ChargedHolds(s, u);
      }
    }
  }

  lemma OtherAccounts(s: State, a: Action, pid: PaymentId)
    requires Inv(s) && Enabled(s, a) && Inv(Apply(s, a)) && !IsCharge(s, a, pid) && !IsUndone(s, a, pid)
    ensures Counts(s, pid) <==> Counts(Apply(s, a), pid)
  {
    var s' := Apply(s, a);
    if TerminalNow(s, pid) {
      StepKeepsFinal(s, a, pid);
    } else {
      if OpenCharge(s, pid) {
        var t :| t in s.txs && s.txs[t].pid == pid && HasCharged(s.txs[t]);
        OpenGoesOn(s, a, t);
      }
      if Counts(s', pid) {
        CountsCameFrom(s, a, pid);
      }
    }
  }

  /** An open charge stays open or is committed. */
  lemma OpenGoesOn(s: State, a: Action, t: TxId)
    requires Inv(s) && Enabled(s, a) && t in s.txs && HasCharged(s.txs[t])
    requires !(a.Rollback? && a.t == t)
    ensures Counts(Apply(s, a), s.txs[t].pid)
  {
    var s', pid := Apply(s, a), s.txs[t].pid;
    assert TxInv(s, t, s.txs[t]);
    if !a.Create? && a.t == t && a.Commit? {
      assert TerminalNow(s', pid);
    } else {
      assert t in s'.txs && s'.txs[t].pid == pid && HasCharged(s'.txs[t]);
    }
  }

  lemma OpenCameFrom(s: State, a: Action, t: TxId)
    requires Inv(s) && Enabled(s, a) && t in Apply(s, a).txs && HasCharged(Apply(s, a).txs[t])
    requires !IsCharge(s, a, Apply(s, a).txs[t].pid)
    ensures t in s.txs && s.txs[t].pid == Apply(s, a).txs[t].pid && HasCharged(s.txs[t])
  {
    assert t in s.txs;
    assert TxInv(s, t, s.txs[t]);
  }

  lemma FinalCameFrom(s: State, a: Action, pid: PaymentId)
    requires Inv(s) && Enabled(s, a) && TerminalNow(Apply(s, a), pid) && !TerminalNow(s, pid)
    ensures OpenCharge(s, pid)
  {
    assert a.Commit? && s.txs[a.t].pid == pid;
    assert TxInv(s, a.t, s.txs[a.t]);
    assert HasCharged(s.txs[a.t]);
  }

  /** What counts after a step that is no charge counted before. */
  lemma CountsCameFrom(s: State, a: Action, pid: PaymentId)
    requires Inv(s) && Enabled(s, a) && !IsCharge(s, a, pid) && Counts(Apply(s, a), pid)
    ensures Counts(s, pid)
  {
    hide Inv, Enabled, Apply, IsCharge, HasCharged, TerminalNow;
    var s' := Apply(s, a);
    if OpenCharge(s', pid) {
      var t :| t in s'.txs && s'.txs[t].pid == pid && HasCharged(s'.txs[t]);
      OpenCameFrom(s, a, t);
    } else if !TerminalNow(s, pid) {
      FinalCameFrom(s, a, pid);
    }
  }

  /** In every run, charges of a payment = charges that were rolled back + one if a charge counts. */
  lemma {:induction false} ChargesAreUndoneOrCount(ss: seq<State>, acts: seq<Action>, n: nat, pid: PaymentId)
    requires IsRun(ss, acts) && n < |ss|
    ensures Charges(ss, acts, pid, n)
         == Undone(ss, acts, pid, n) + (if TerminalNow(ss[n], pid) || OpenCharge(ss[n], pid) then 1 else 0)
  {
    hide Inv, Enabled, Apply;
    if n > 0 {
      ChargesAreUndoneOrCount(ss, acts, n - 1, pid);
      RunKeepsInv(ss, acts, n - 1);
      StepAccount(ss[n - 1], acts[n - 1], pid);
    }
  }

  // ---------------------------------------------------------------------------
  // Any number of charges
  // ---------------------------------------------------------------------------

  ghost predicate Reaches(pid: PaymentId, charges: nat, s: State) {
    exists ss, acts :: IsRun(ss, acts) && ss[|acts|] == s && Charges(ss, acts, pid, |acts|) == charges
  }

  lemma {:induction false} ChargesPrefix(ss: seq<State>, acts: seq<Action>, s: State, a: Action, pid: PaymentId, n: nat)
    requires n <= |acts| < |ss|
    ensures Charges(ss + [s], acts + [a], pid, n) == Charges(ss, acts, pid, n)
  {
    if n > 0 {
      ChargesPrefix(ss, acts, s, a, pid, n - 1);
    }
  }

  lemma Step(pid: PaymentId, charges: nat, s: State, a: Action)
    requires Reaches(pid, charges, s) && Enabled(s, a)
    ensures Reaches(pid, charges + (if IsCharge(s, a, pid) then 1 else 0), Apply(s, a))
  {
    var ss, acts :| IsRun(ss, acts) && ss[|acts|] == s && Charges(ss, acts, pid, |acts|) == charges;
    hide Enabled, Apply;
    var ss', acts' := ss + [Apply(s, a)], acts + [a];
    ChargesPrefix(ss, acts, Apply(s, a), a, pid, |acts|);
    assert ss'[|acts|] == s && acts'[|acts|] == a;
    assert IsRun(ss', acts') by {
      forall i | 0 <= i < |acts'| ensures Enabled(ss'[i], acts'[i]) && ss'[i + 1] == Apply(ss'[i], acts'[i]) {
        if i < |acts| {
          assert Enabled(ss[i], acts[i]) && ss[i + 1] == Apply(ss[i], acts[i]);
        }
      }
    }
  }

  predicate Untouched(s: State, pid: PaymentId) {
    pid in s.accounts && s.accounts[pid] == UNTOUCHED
  }

  lemma RunToCharge(pid: PaymentId, charges: nat, s: State, t: TxId) returns (s': State)
    requires Reaches(pid, charges, s) && Untouched(s, pid) && (t in s.txs ==> Finished(s.txs[t]))
    ensures Reaches(pid, charges, s') && t in s'.txs && s'.txs[t] == Opened(pid, IN_PROCESS, FIRST_ATTEMPT)
    ensures pid in s'.accounts && s'.accounts[pid] == UNTOUCHED.(lock := Some(RowLock(t, IN_PROCESS)))
  {
    hide Reaches;
    var s1 := Apply(s, Begin(t, pid));
    Step(pid, charges, s, Begin(t, pid));
    var s2 := Apply(s1, Load(t, 0.0));
    Step(pid, charges, s1, Load(t, 0.0));
    var s3 := Apply(s2, Claim(t));
    Step(pid, charges, s2, Claim(t));
    s' := Apply(s3, OpenAttempt(t));
    Step(pid, charges, s3, OpenAttempt(t));
  }

  /** One handler run that charges and is then rolled back leaves the payment as it found it. */
  lemma ChargeAndRollBack(pid: PaymentId, charges: nat, s: State, t: TxId) returns (s': State)
    requires Reaches(pid, charges, s) && Untouched(s, pid) && (t in s.txs ==> Finished(s.txs[t]))
    ensures Reaches(pid, charges + 1, s') && Untouched(s', pid) && t in s'.txs && Finished(s'.txs[t])
  {
    hide Reaches;
    var s1 := RunToCharge(pid, charges, s, t);
    var s2 := Apply(s1, Charge(t, true));
    Step(pid, charges, s1, Charge(t, true));
    s' := Apply(s2, Rollback(t));
    Step(pid, charges + 1, s2, Rollback(t));
  }

  /** For every number there is a run that charges one payment that often. */
  lemma {:induction false} ChargedAnyNumberOfTimes(pid: PaymentId, t: TxId, charges: nat) returns (s: State)
    ensures Reaches(pid, charges, s) && Untouched(s, pid) && (t in s.txs ==> Finished(s.txs[t]))
  {
    if charges == 0 {
      var s0 := State(map[], map[]);
      assert IsRun([s0], []) && Charges([s0], [], pid, 0) == 0;
      assert Reaches(pid, 0, s0);
      s := Apply(s0, Create(pid));
      Step(pid, 0, s0, Create(pid));
    } else {
      var before := ChargedAnyNumberOfTimes(pid, t, charges - 1);
      s := ChargeAndRollBack(pid, charges - 1, before, t);
    }
  }
}
