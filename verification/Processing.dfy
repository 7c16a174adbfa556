/** Any number of consumer transactions running `ProcessPaymentHandler.handle` at once: read the payment,
    claim it by compare-and-set, charge the gateway, finalise by a second compare-and-set, add the attempt
    and the webhook delivery, commit. Each statement is a step; an update of a row that another open
    transaction has locked waits for it; a transaction may be rolled back at any moment. */
module Processing {
  import opened Types
  import opened PaymentRules

  type TxId = RunId

  datatype RowLock = RowLock(owner: TxId, draft: PaymentRow)

  /** One payment: the committed row, the lock of an open transaction, committed attempts and deliveries. */
  datatype Account = Account(
    row: PaymentRow,
    lock: Option<RowLock>,
    attempts: seq<AttemptRow>,
    deliveries: seq<DeliveryRow>)

  /** Where a handler transaction stands. `agg` is its in-memory aggregate, `seen` the state it expects in the row. */
  datatype Tx =
    | Started(pid: PaymentId)
    | Loaded(pid: PaymentId, seen: PaymentRow, agg: PaymentRow)
    | Claimed(pid: PaymentId, agg: PaymentRow)
    | Opened(pid: PaymentId, agg: PaymentRow, attempt: AttemptRow)
    | Charged(pid: PaymentId, agg: PaymentRow, attempt: AttemptRow, success: bool)
    | Finalised(pid: PaymentId, agg: PaymentRow, attempt: AttemptRow, success: bool, at: Time)
    | Returning(pid: PaymentId, outcome: Outcome, attempts: seq<AttemptRow>, deliveries: seq<DeliveryRow>)
    | Done(pid: PaymentId, outcome: Outcome)
    | Raised(pid: PaymentId, versionConflict: bool)

  const UNTOUCHED := Account(NEW_PAYMENT, None, [], [])

  datatype State = State(accounts: map<PaymentId, Account>, txs: map<TxId, Tx>)

  datatype Action =
    | Create(newId: PaymentId)
    | Begin(t: TxId, payment: PaymentId)
    | Load(t: TxId, now: Time)
    | Claim(t: TxId)
    | OpenAttempt(t: TxId)
    | Charge(t: TxId, success: bool)
    | Finalise(t: TxId, now: Time)
    | Record(t: TxId)
    | Commit(t: TxId)
    | Rollback(t: TxId)

  predicate Finished(tx: Tx) {
    tx.Done? || tx.Raised?
  }

  predicate LockedBy(a: Account, t: TxId) {
    a.lock.Some? && a.lock.value.owner == t
  }

  function View(a: Account, t: TxId): PaymentRow {
    if LockedBy(a, t) then a.lock.value.draft else a.row
  }

  /** An update that matches the row must wait while somebody else holds its lock. */
  predicate MustWait(a: Account, t: TxId, version: nat, status: PaymentStatus) {
    CasMatches(View(a, t), version, status) && a.lock.Some? && !LockedBy(a, t)
  }

  function Locked(a: Account, t: TxId, draft: PaymentRow): Account {
    a.(lock := Some(RowLock(t, draft)))
  }

  function Unlocked(a: Account, t: TxId): Account {
    if LockedBy(a, t) then a.(lock := None) else a
  }

  predicate Enabled(s: State, a: Action) {
    match a
    case Create(pid) => pid !in s.accounts
    case Begin(t, _) => t !in s.txs || Finished(s.txs[t])
    case Load(t, _) => t in s.txs && s.txs[t].Started?
    case Claim(t) =>
      && t in s.txs && s.txs[t].Loaded? && s.txs[t].pid in s.accounts
      && !MustWait(s.accounts[s.txs[t].pid], t, s.txs[t].seen.version, s.txs[t].seen.status)
    case OpenAttempt(t) => t in s.txs && s.txs[t].Claimed? && s.txs[t].pid in s.accounts
    case Charge(t, _) => t in s.txs && s.txs[t].Opened?
    case Finalise(t, now) =>
      && t in s.txs && s.txs[t].Charged? && s.txs[t].pid in s.accounts
      && !MustWait(s.accounts[s.txs[t].pid], t, s.txs[t].agg.version, s.txs[t].agg.status)
    case Record(t) => t in s.txs && s.txs[t].Finalised?
    case Commit(t) => t in s.txs && s.txs[t].Returning?
    case Rollback(t) => t in s.txs && !Finished(s.txs[t])
  }

  /** `get` and the checks that follow it. */
  function AfterLoad(s: State, pid: PaymentId, now: Time): Tx {
    if pid !in s.accounts then Returning(pid, NotFound, [], [])
    else
      var row := s.accounts[pid].row;
      if TerminalStatus(row.status) then Returning(pid, AlreadyTerminal, [], [])
      else
        match Marked(row, Processing, now)
        case None => Returning(pid, NotPending, [], [])
        case Some(agg) => Loaded(pid, row, agg)
  }

  function SetTx(s: State, t: TxId, tx: Tx): State {
    s.(txs := s.txs[t := tx])
  }

  function Apply(s: State, a: Action): State
    requires Enabled(s, a)
  {
    match a
    case Create(pid) => s.(accounts := s.accounts[pid := Account(NEW_PAYMENT, None, [], [])])
    case Begin(t, pid) => SetTx(s, t, Started(pid))
    case Load(t, now) => SetTx(s, t, AfterLoad(s, s.txs[t].pid, now))
    case Claim(t) =>
      var tx, acc := s.txs[t], s.accounts[s.txs[t].pid];
      if CasMatches(View(acc, t), tx.seen.version, tx.seen.status) then
        SetTx(s, t, Claimed(tx.pid, tx.agg)).(
        accounts := s.accounts[tx.pid := Locked(acc, t, CasUpdated(View(acc, t), Processing, 0.0))])
      else
        SetTx(s, t, Returning(tx.pid, ClaimConflict, [], []))
    case OpenAttempt(t) =>
      var tx, acc := s.txs[t], s.accounts[s.txs[t].pid];
      SetTx(s, t, Opened(tx.pid, tx.agg, AttemptRow(NextNumber(acc.attempts), AttemptProcessing)))
    case Charge(t, success) =>
      var tx := s.txs[t];
      SetTx(s, t, Charged(tx.pid, tx.agg, tx.attempt, success))
    case Finalise(t, now) =>
      var tx, acc := s.txs[t], s.accounts[s.txs[t].pid];
      var target := TerminalOf(tx.success);
      (match Marked(tx.agg, target, now)
       case None => SetTx(s, t, Raised(tx.pid, false)).(accounts := s.accounts[tx.pid := Unlocked(acc, t)])
       case Some(agg) =>
         if CasMatches(View(acc, t), tx.agg.version, tx.agg.status) then
           SetTx(s, t, Finalised(tx.pid, agg, tx.attempt.(status := AttemptOf(tx.success)), tx.success, now)).(
           accounts := s.accounts[tx.pid := Locked(acc, t, CasUpdated(View(acc, t), target, now))])
         else
           SetTx(s, t, Raised(tx.pid, true)).(accounts := s.accounts[tx.pid := Unlocked(acc, t)]))
    case Record(t) =>
      var tx := s.txs[t];
      SetTx(s, t, Returning(tx.pid, OutcomeOf(tx.success), [tx.attempt], [DeliveryRow(HookOf(tx.success), tx.at)]))
    case Commit(t) =>
      var tx := s.txs[t];
      if tx.pid !in s.accounts then SetTx(s, t, Done(tx.pid, tx.outcome))
      else
        var acc := s.accounts[tx.pid];
        SetTx(s, t, Done(tx.pid, tx.outcome)).(
        accounts := s.accounts[tx.pid := Unlocked(acc.(row := View(acc, t),
                                                       attempts := acc.attempts + tx.attempts,
                                                       deliveries := acc.deliveries + tx.deliveries), t)])
    case Rollback(t) =>
      var tx := s.txs[t];
      if tx.pid !in s.accounts then SetTx(s, t, Raised(tx.pid, false))
      else
        SetTx(s, t, Raised(tx.pid, false)).(
        accounts := s.accounts[tx.pid := Unlocked(s.accounts[tx.pid], t)])
  }

  // ---------------------------------------------------------------------------
  // The invariant
  // ---------------------------------------------------------------------------

  /** All or nothing: a committed payment is untouched, or terminal with exactly its one attempt and delivery. */
  ghost predicate AllOrNothing(a: Account) {
    || (a.row == NEW_PAYMENT && a.attempts == [] && a.deliveries == [])
    || exists success, now ::
         && a.row == PaymentRow(TerminalOf(success), 2, Some(now))
         && a.attempts == [AttemptRow(1, AttemptOf(success))]
         && a.deliveries == [DeliveryRow(HookOf(success), now)]
  }

  ghost predicate Holds(s: State, t: TxId, pid: PaymentId, draft: PaymentRow) {
    pid in s.accounts && s.accounts[pid].lock == Some(RowLock(t, draft)) && s.accounts[pid].row == NEW_PAYMENT
  }

  const IN_PROCESS := PaymentRow(Processing, 1, None)
  const FIRST_ATTEMPT := AttemptRow(1, AttemptProcessing)

  ghost predicate TxInv(s: State, t: TxId, tx: Tx) {
    match tx
    case Started(_) => true
    case Loaded(pid, seen, agg) => pid in s.accounts && seen == NEW_PAYMENT && agg == IN_PROCESS
    case Claimed(pid, agg) => agg == IN_PROCESS && Holds(s, t, pid, agg)
    case Opened(pid, agg, attempt) => agg == IN_PROCESS && Holds(s, t, pid, agg) && attempt == FIRST_ATTEMPT
    case Charged(pid, agg, attempt, _) => agg == IN_PROCESS && Holds(s, t, pid, agg) && attempt == FIRST_ATTEMPT
    case Finalised(pid, agg, attempt, success, at) =>
      agg == PaymentRow(TerminalOf(success), 2, Some(at)) && Holds(s, t, pid, agg)
      && attempt == AttemptRow(1, AttemptOf(success))
    case Returning(pid, outcome, attempts, deliveries) =>
      (match outcome
       case OutcomeSucceeded => ReturnsFinal(s, t, pid, attempts, deliveries, true)
       case OutcomeFailed => ReturnsFinal(s, t, pid, attempts, deliveries, false)
       case NotFound => attempts == [] && deliveries == []
       case NotPending => false
       case _ => attempts == [] && deliveries == [] && TerminalNow(s, pid))
    case Done(pid, outcome) => !outcome.NotPending? && (outcome.NotFound? || TerminalNow(s, pid))
    case Raised(_, versionConflict) => !versionConflict
  }

  ghost predicate ReturnsFinal(s: State, t: TxId, pid: PaymentId, attempts: seq<AttemptRow>,
                               deliveries: seq<DeliveryRow>, success: bool)
  {
    exists at ::
      && Holds(s, t, pid, PaymentRow(TerminalOf(success), 2, Some(at)))
      && attempts == [AttemptRow(1, AttemptOf(success))]
      && deliveries == [DeliveryRow(HookOf(success), at)]
  }

  /** The committed payment is terminal. */
  predicate TerminalNow(s: State, pid: PaymentId) {
    pid in s.accounts && TerminalStatus(s.accounts[pid].row.status)
  }

  predicate HoldsLock(tx: Tx, pid: PaymentId) {
    && tx.pid == pid
    && (tx.Claimed? || tx.Opened? || tx.Charged? || tx.Finalised?
        || (tx.Returning? && (tx.outcome.OutcomeSucceeded? || tx.outcome.OutcomeFailed?)))
  }

  ghost predicate AccountInv(s: State, pid: PaymentId)
    requires pid in s.accounts
  {
    var a := s.accounts[pid];
    && AllOrNothing(a)
    && (a.lock.Some? ==>
          a.row == NEW_PAYMENT && a.lock.value.owner in s.txs && HoldsLock(s.txs[a.lock.value.owner], pid))
  }

  ghost predicate Inv(s: State) {
    && (forall pid | pid in s.accounts :: AccountInv(s, pid))
    && (forall t | t in s.txs :: TxInv(s, t, s.txs[t]))
  }

  ghost predicate Init(s: State) {
    s.accounts == map[] && s.txs == map[]
  }

  // ---------------------------------------------------------------------------
  // Every step keeps it
  // ---------------------------------------------------------------------------

  /** The step leaves every payment but `pid` alone, and `pid` stays as it was for everybody but `t`. */
  ghost predicate OnlyTouches(s: State, s': State, t: TxId, pid: PaymentId) {
    && (forall p | p in s.accounts :: p in s'.accounts)
    && (forall p | p in s.accounts && p != pid :: s'.accounts[p] == s.accounts[p])
    && (forall u | u in s.txs && u != t :: u in s'.txs && s'.txs[u] == s.txs[u])
    && (forall u | u in s'.txs && u != t :: u in s.txs)
    && (TerminalNow(s, pid) ==> TerminalNow(s', pid))
    && (pid in s.accounts && s.accounts[pid].lock.Some? && s.accounts[pid].lock.value.owner != t ==>
          s'.accounts[pid] == s.accounts[pid])
  }

  lemma OthersKeepInv(s: State, s': State, t: TxId, pid: PaymentId, u: TxId)
    requires Inv(s) && OnlyTouches(s, s', t, pid) && u in s'.txs && u != t
    ensures TxInv(s', u, s'.txs[u])
  {
    assert TxInv(s, u, s.txs[u]);
  }

  lemma OtherAccountsKeepInv(s: State, s': State, t: TxId, pid: PaymentId, p: PaymentId)
    requires Inv(s) && OnlyTouches(s, s', t, pid) && p in s.accounts && p != pid
    requires t in s.txs ==> !HoldsLock(s.txs[t], p)
    ensures AccountInv(s', p)
  {
    assert AccountInv(s, p);
  }

  lemma TouchKeepsInv(s: State, s': State, t: TxId, pid: PaymentId)
    requires Inv(s) && OnlyTouches(s, s', t, pid)
    requires forall p | p in s'.accounts && p != pid :: p in s.accounts
    requires t in s.txs ==> s.txs[t].pid == pid || Finished(s.txs[t])
    requires t in s'.txs ==> TxInv(s', t, s'.txs[t])
    requires pid in s'.accounts ==> AccountInv(s', pid)
    ensures Inv(s')
  {
    forall p | p in s'.accounts ensures AccountInv(s', p) {
      if p != pid {
        OtherAccountsKeepInv(s, s', t, pid, p);
      }
    }
    forall u | u in s'.txs ensures TxInv(s', u, s'.txs[u]) {
      if u != t {
        OthersKeepInv(s, s', t, pid, u);
      }
    }
  }

  lemma CreateKeepsInv(s: State, a: Action)
    requires Inv(s) && Enabled(s, a) && a.Create?
    ensures Inv(Apply(s, a))
  {
    var s' := Apply(s, a);
    forall p | p in s'.accounts ensures AccountInv(s', p) {
      if p in s.accounts {
        assert AccountInv(s, p);
      }
    }
    forall u | u in s'.txs ensures TxInv(s', u, s'.txs[u]) {
      assert TxInv(s, u, s.txs[u]);
    }
  }

  /** The transaction's own new phase and its payment are as the invariant wants them. */
  lemma OwnStep(s: State, a: Action)
    requires Inv(s) && Enabled(s, a) && !a.Create?
    ensures var s' := Apply(s, a);
            a.t in s'.txs && TxInv(s', a.t, s'.txs[a.t])
  {
    if a.t in s.txs {
      assert TxInv(s, a.t, s.txs[a.t]);
      if s.txs[a.t].pid in s.accounts {
        assert AccountInv(s, s.txs[a.t].pid);
      }
    }
    if a.Record? {
      var tx := s.txs[a.t];
      assert Holds(Apply(s, a), a.t, tx.pid, PaymentRow(TerminalOf(tx.success), 2, Some(tx.at)));
    }
  }

  lemma OwnAccount(s: State, a: Action)
    requires Inv(s) && Enabled(s, a) && !a.Create? && !a.Begin?
    ensures var s' := Apply(s, a);
            s.txs[a.t].pid in s'.accounts ==> AccountInv(s', s.txs[a.t].pid)
  {
    var s' := Apply(s, a);
    var tx := s.txs[a.t];
    assert TxInv(s, a.t, tx);
    if tx.pid in s.accounts {
      assert AccountInv(s, tx.pid);
      if a.Commit? {
        CommitAccount(s, a.t);
      }
    }
  }

  lemma CommitAccount(s: State, t: TxId)
    requires Inv(s) && Enabled(s, Commit(t)) && s.txs[t].pid in s.accounts
    ensures AccountInv(Apply(s, Commit(t)), s.txs[t].pid)
  {
    var tx := s.txs[t];
    var acc, acc' := s.accounts[tx.pid], Apply(s, Commit(t)).accounts[tx.pid];
    assert TxInv(s, t, tx) && AccountInv(s, tx.pid);
    if tx.outcome.OutcomeSucceeded? || tx.outcome.OutcomeFailed? {
      var success := tx.outcome.OutcomeSucceeded?;
      assert ReturnsFinal(s, t, tx.pid, tx.attempts, tx.deliveries, success);
      var at :| Holds(s, t, tx.pid, PaymentRow(TerminalOf(success), 2, Some(at)))
                && tx.attempts == [AttemptRow(1, AttemptOf(success))]
                && tx.deliveries == [DeliveryRow(HookOf(success), at)];
      assert acc'.row == PaymentRow(TerminalOf(success), 2, Some(at));
      assert acc'.attempts == [AttemptRow(1, AttemptOf(success))];
      assert acc'.deliveries == [DeliveryRow(HookOf(success), at)];
    } else {
      assert acc'.attempts == acc.attempts && acc'.deliveries == acc.deliveries;
      assert !LockedBy(acc, t);
    }
  }

  lemma StepTouches(s: State, a: Action)
    requires Inv(s) && Enabled(s, a) && !a.Create?
    ensures OnlyTouches(s, Apply(s, a), a.t, if a.Begin? then a.payment else s.txs[a.t].pid)
  {
    if !a.Begin? {
      var tx := s.txs[a.t];
      assert TxInv(s, a.t, tx);
      if tx.pid in s.accounts {
        assert AccountInv(s, tx.pid);
      }
    }
  }

  /** Every step of every transaction keeps the invariant. */
  lemma StepKeepsInv(s: State, a: Action)
    requires Inv(s) && Enabled(s, a)
    ensures Inv(Apply(s, a))
  {
    if a.Create? {
      CreateKeepsInv(s, a);
    } else {
      StepTouches(s, a);
      OwnStep(s, a);
      if a.Begin? {
        if a.payment in s.accounts {
          assert AccountInv(s, a.payment);
        }
        TouchKeepsInv(s, Apply(s, a), a.t, a.payment);
      } else {
        OwnAccount(s, a);
        TouchKeepsInv(s, Apply(s, a), a.t, s.txs[a.t].pid);
      }
    }
  }
}
