/** What the pipeline as a whole guarantees, in every state of every run. */
module PipelineTheorems {
  import opened Types
  import opened PaymentRules
  import opened Broker
  import opened Pipeline
  import opened PipelineInvariant
  import Creation
  import Lease
  import LeaseInvariant
  import OutboxRows
  import Processing

  ghost predicate IsRun(cfg: Config, ss: seq<State>, acts: seq<Action>) {
    && |ss| == |acts| + 1
    && Init(ss[0])
    && forall i | 0 <= i < |acts| :: Enabled(cfg, ss[i], acts[i]) && ss[i + 1] == Apply(cfg, ss[i], acts[i])
  }

  lemma {:induction false} RunKeepsInv(cfg: Config, ss: seq<State>, acts: seq<Action>, n: nat)
    requires ValidConfig(cfg) && IsRun(cfg, ss, acts) && n < |ss|
    ensures Inv(cfg, ss[n])
  {
    if n > 0 {
      hide Inv, Apply, Enabled;
      RunKeepsInv(cfg, ss, acts, n - 1);
      StepKeepsInv(cfg, ss[n - 1], acts[n - 1]);
    }
  }

  // ---------------------------------------------------------------------------
  // No stranded payment
  // ---------------------------------------------------------------------------

  /** The outbox still has the message: pending, being published, or declared dead (even if purged since). */
  predicate InOutbox(s: State, m: MessageId) {
    && m in s.lease.messages
    && (s.lease.messages[m].died
        || (s.lease.messages[m].row.Some? && !s.lease.messages[m].row.value.status.Processed?))
  }

  /** The broker still has the message: in the main queue, unacked, in the retry queue or in the DLQ. */
  ghost predicate InBroker(s: State, m: MessageId) {
    exists c :: c in s.copies && c.message == m && (!s.copies[c].place.Gone? || s.copies[c].inDlq)
  }

  lemma OutboxOrPublished(c: Lease.Config, s: Lease.State, m: MessageId)
    requires LeaseInvariant.Inv(c, s) && m in s.messages
    ensures || s.messages[m].died
            || (s.messages[m].row.Some? && !s.messages[m].row.value.status.Processed?)
            || (s.messages[m].claims != [] && s.messages[m].claims[|s.messages[m].claims| - 1].ok)
  {
    assert LeaseInvariant.MessageOk(c, s.clock, m, s.messages[m], s.workers);
  }

  lemma MessageOfPayment(api: Creation.State, pid: PaymentId) returns (m: MessageId)
    requires Creation.Inv(api) && pid in api.payments
    ensures m in api.outbox && api.outbox[m] == pid
    ensures forall n | n in api.outbox && api.outbox[n] == pid :: n == m
  {
    m :| m in api.outbox && api.outbox[m] == pid;
  }

  /** In every reachable state, whatever was interleaved and whoever crashed, a committed payment that is not
      terminal still has its message in the outbox or in the broker. */
  lemma NoStrandedPayment(cfg: Config, ss: seq<State>, acts: seq<Action>, n: nat, pid: PaymentId)
    requires ValidConfig(cfg) && IsRun(cfg, ss, acts) && n < |ss|
    requires pid in ss[n].proc.accounts && !Processing.TerminalNow(ss[n].proc, pid)
    ensures exists m ::
              m in ss[n].api.outbox && ss[n].api.outbox[m] == pid && (InOutbox(ss[n], m) || InBroker(ss[n], m))
  {
    hide LeaseInvariant.Inv, Creation.Inv, Processing.Inv, RejectedCount, Enabled, Apply;
    var s := ss[n];
    RunKeepsInv(cfg, ss, acts, n);
    var m := MessageOfPayment(s.api, pid);
    OutboxOrPublished(cfg.lease, s.lease, m);
    if !InOutbox(s, m) {
      var c := CopyId(m, |s.lease.messages[m].claims|);
      assert c in s.copies;
      assert CopyInv(cfg, s, c, s.copies[c]);
      assert InBroker(s, m);
    }
  }

  // ---------------------------------------------------------------------------
  // Conservation in the broker
  // ---------------------------------------------------------------------------

  /** No copy is ever lost: it is in a queue or unacked, or a copy of it reached the DLQ, or its payment is
      finalised. */
  lemma NoCopyLost(cfg: Config, ss: seq<State>, acts: seq<Action>, n: nat, c: CopyId)
    requires ValidConfig(cfg) && IsRun(cfg, ss, acts) && n < |ss| && c in ss[n].copies
    ensures !ss[n].copies[c].place.Gone? || ss[n].copies[c].inDlq || Settled(ss[n], c)
  {
    hide LeaseInvariant.Inv, Creation.Inv, Processing.Inv, RejectedCount, Enabled, Apply;
    RunKeepsInv(cfg, ss, acts, n);
    assert CopyInv(cfg, ss[n], c, ss[n].copies[c]);
  }

  lemma {:induction false} AtMostOnePerRun(charged: set<nat>, runs: nat)
    requires forall r | r in charged :: 1 <= r <= runs
    ensures |charged| <= runs
  {
    if runs == 0 {
      assert charged == {};
    } else {
      AtMostOnePerRun(charged - {runs}, runs - 1);
    }
  }

  function LossesOf(s: State, c: CopyId): nat {
    if c in s.copies then s.copies[c].losses else 0
  }

  predicate CutsOff(a: Action, c: CopyId) {
    (a.ConsumerCrash? || a.ChannelLost?) && a.c == c
  }

  /** How many deliveries of the copy a crash or a lost channel cut off in the first n steps. */
  ghost function CutOffs(acts: seq<Action>, c: CopyId, n: nat): nat
    requires n <= |acts|
  {
    if n == 0 then 0 else CutOffs(acts, c, n - 1) + (if CutsOff(acts[n - 1], c) then 1 else 0)
  }

  lemma StepLosses(cfg: Config, s: State, a: Action, c: CopyId)
    requires Enabled(cfg, s, a)
    ensures LossesOf(Apply(cfg, s, a), c) == LossesOf(s, c) + (if CutsOff(a, c) then 1 else 0)
  {
    hide Lease.Enabled, Lease.Apply, Creation.Enabled, Creation.Apply, Processing.Apply;
  }

  lemma {:induction false} LossesCounted(cfg: Config, ss: seq<State>, acts: seq<Action>, n: nat, c: CopyId)
    requires IsRun(cfg, ss, acts) && n < |ss|
    ensures LossesOf(ss[n], c) == CutOffs(acts, c, n)
  {
    hide Enabled, Apply, CutsOff;
    if n > 0 {
      LossesCounted(cfg, ss, acts, n - 1, c);
      StepLosses(cfg, ss[n - 1], acts[n - 1], c);
    }
  }

  /** Each copy reaches the process handler at most RABBITMQ_MAX_RETRIES times, plus once per delivery that was cut
      off by a crash or a lost channel; and charges at most once per run. */
  lemma RunsPerCopy(cfg: Config, ss: seq<State>, acts: seq<Action>, n: nat, c: CopyId)
    requires ValidConfig(cfg) && IsRun(cfg, ss, acts) && n < |ss| && c in ss[n].copies
    ensures |ss[n].copies[c].charged| <= ss[n].copies[c].runs <= Budget(cfg) + CutOffs(acts, c, n)
  {
    hide LeaseInvariant.Inv, Creation.Inv, Processing.Inv, RejectedCount, Enabled, Apply;
    RunKeepsInv(cfg, ss, acts, n);
    assert CopyInv(cfg, ss[n], c, ss[n].copies[c]);
    LossesCounted(cfg, ss, acts, n, c);
    AtMostOnePerRun(ss[n].copies[c].charged, ss[n].copies[c].runs);
  }

  /** Messages from the outbox are never answered NOT_FOUND or NOT_PENDING, and never fail on a version
      conflict; every outcome that leads to an ack comes with a finalised payment. */
  lemma AckedOutcomes(cfg: Config, ss: seq<State>, acts: seq<Action>, n: nat, t: RunId)
    requires ValidConfig(cfg) && IsRun(cfg, ss, acts) && n < |ss| && t in ss[n].proc.txs
    ensures var tx := ss[n].proc.txs[t];
            && (tx.Returning? || tx.Done? ==> !tx.outcome.NotFound? && !tx.outcome.NotPending?)
            && (tx.Raised? ==> !tx.versionConflict)
            && (tx.Done? ==> Settled(ss[n], t.copy))
  {
    hide LeaseInvariant.Inv, Creation.Inv, Processing.Inv, RejectedCount, Enabled, Apply;
    RunKeepsInv(cfg, ss, acts, n);
    assert TxOk(ss[n], t);
    TxIsFine(ss[n].proc, t);
    if ss[n].proc.txs[t].Done? {
      DoneIsSettled(cfg, ss[n], t);
    }
  }

  lemma TxIsFine(s: Processing.State, t: Processing.TxId)
    requires Processing.Inv(s) && t in s.txs
    ensures s.txs[t].Returning? || s.txs[t].Done? ==> !s.txs[t].outcome.NotPending?
    ensures s.txs[t].Raised? ==> !s.txs[t].versionConflict
  {
    assert Processing.TxInv(s, t, s.txs[t]);
  }

  // ---------------------------------------------------------------------------
  // Charges per payment
  // ---------------------------------------------------------------------------

  function ChargesOf(s: State, c: CopyId): nat {
    if c in s.copies then |s.copies[c].charged| else 0
  }

  /** Totals over the copies number 1 to k of message m. */
  function TotalCharges(s: State, m: MessageId, k: nat): nat {
    if k == 0 then 0 else TotalCharges(s, m, k - 1) + ChargesOf(s, CopyId(m, k))
  }

  ghost function TotalCutOffs(acts: seq<Action>, m: MessageId, k: nat, n: nat): nat
    requires n <= |acts|
  {
    if k == 0 then 0 else TotalCutOffs(acts, m, k - 1, n) + CutOffs(acts, CopyId(m, k), n)
  }

  /** Gateway charges made for a message in the first n steps of a run. */
  ghost function ChargesMade(acts: seq<Action>, m: MessageId, n: nat): nat
    requires n <= |acts|
  {
    if n == 0 then 0
    else ChargesMade(acts, m, n - 1)
         + (if acts[n - 1].Handler? && acts[n - 1].tx.Charge? && acts[n - 1].tx.t.copy.message == m then 1 else 0)
  }

  lemma {:induction false} TotalSame(s: State, s': State, m: MessageId, k: nat)
    requires forall j | 1 <= j <= k :: ChargesOf(s', CopyId(m, j)) == ChargesOf(s, CopyId(m, j))
    ensures TotalCharges(s', m, k) == TotalCharges(s, m, k)
  {
    if k > 0 {
      TotalSame(s, s', m, k - 1);
    }
  }

  lemma {:induction false} TotalOneMore(s: State, s': State, m: MessageId, k: nat, at: nat)
    requires 1 <= at <= k && ChargesOf(s', CopyId(m, at)) == ChargesOf(s, CopyId(m, at)) + 1
    requires forall j | 1 <= j <= k && j != at :: ChargesOf(s', CopyId(m, j)) == ChargesOf(s, CopyId(m, j))
    ensures TotalCharges(s', m, k) == TotalCharges(s, m, k) + 1
  {
    if at == k {
      TotalSame(s, s', m, k - 1);
    } else {
      TotalOneMore(s, s', m, k - 1, at);
    }
  }

  lemma StepCharges(cfg: Config, s: State, a: Action, c: CopyId)
    requires Inv(cfg, s) && Enabled(cfg, s, a)
    ensures ChargesOf(Apply(cfg, s, a), c)
         == ChargesOf(s, c) + (if a.Handler? && a.tx.Charge? && a.tx.t.copy == c then 1 else 0)
  {
    hide Lease.Enabled, Lease.Apply, Creation.Enabled, Creation.Apply, Processing.Apply;
    hide PartsInv, CopiesInv, PublishedInv;
    if a.Handler? && a.tx.Charge? {
      assert TxOk(s, a.tx.t);
    }
  }

  lemma CopyNumbers(cfg: Config, s: State, c: CopyId)
    requires Inv(cfg, s) && c in s.copies
    ensures 1 <= c.attempt <= cfg.lease.policy.maxAttempts
  {
    hide Creation.Inv, Processing.Inv, RejectedCount;
    assert CopyInv(cfg, s, c, s.copies[c]);
    assert LeaseInvariant.MessageOk(cfg.lease, s.lease.clock, c.message, s.lease.messages[c.message], s.lease.workers);
  }

  lemma {:induction false} ChargesCounted(cfg: Config, ss: seq<State>, acts: seq<Action>, n: nat, m: MessageId)
    requires ValidConfig(cfg) && IsRun(cfg, ss, acts) && n < |ss|
    ensures ChargesMade(acts, m, n) == TotalCharges(ss[n], m, cfg.lease.policy.maxAttempts)
  {
    hide Inv;
    var max := cfg.lease.policy.maxAttempts;
    if n == 0 {
      NothingCharged(ss[0], m, max);
    } else {
      var s, a := ss[n - 1], acts[n - 1];
      hide Enabled, Apply;
      ChargesCounted(cfg, ss, acts, n - 1, m);
      RunKeepsInv(cfg, ss, acts, n - 1);
      forall j | 1 <= j <= max
        ensures ChargesOf(ss[n], CopyId(m, j))
             == ChargesOf(s, CopyId(m, j))
                + (if a.Handler? && a.tx.Charge? && a.tx.t.copy == CopyId(m, j) then 1 else 0)
      {
        StepCharges(cfg, s, a, CopyId(m, j));
      }
      if a.Handler? && a.tx.Charge? && a.tx.t.copy.message == m {
        HandledIsCopy(cfg, s, a);
        CopyNumbers(cfg, s, a.tx.t.copy);
        assert CopyId(m, a.tx.t.copy.attempt) == a.tx.t.copy;
        TotalOneMore(s, ss[n], m, max, a.tx.t.copy.attempt);
      } else {
        TotalSame(s, ss[n], m, max);
      }
    }
  }

  lemma HandledIsCopy(cfg: Config, s: State, a: Action)
    requires Enabled(cfg, s, a) && a.Handler?
    ensures a.tx.t.copy in s.copies
  {
  }

  lemma {:induction false} NothingCharged(s: State, m: MessageId, k: nat)
    requires s.copies == map[]
    ensures TotalCharges(s, m, k) == 0
  {
    if k > 0 {
      NothingCharged(s, m, k - 1);
    }
  }

  lemma {:induction false} TotalBounded(cfg: Config, s: State, acts: seq<Action>, n: nat, m: MessageId, k: nat)
    requires n <= |acts|
    requires forall c | c in s.copies :: |s.copies[c].charged| <= Budget(cfg) + CutOffs(acts, c, n)
    ensures TotalCharges(s, m, k) <= k * Budget(cfg) + TotalCutOffs(acts, m, k, n)
  {
    if k > 0 {
      TotalBounded(cfg, s, acts, n, m, k - 1);
      assert k * Budget(cfg) == (k - 1) * Budget(cfg) + Budget(cfg);
    }
  }

  /** Over any run a payment is charged at most OUTBOX_MAX_ATTEMPTS * RABBITMQ_MAX_RETRIES times, plus once for
      each delivery of its message that a crash or a lost channel cut off. */
  lemma ChargesPerPayment(cfg: Config, ss: seq<State>, acts: seq<Action>, n: nat, pid: PaymentId)
    requires ValidConfig(cfg) && IsRun(cfg, ss, acts) && n < |ss| && pid in ss[n].proc.accounts
    ensures exists m :: m in ss[n].api.outbox && ss[n].api.outbox[m] == pid
                        && (forall x | x in ss[n].api.outbox && ss[n].api.outbox[x] == pid :: x == m)
                        && ChargesMade(acts, m, n) <= cfg.lease.policy.maxAttempts * Budget(cfg)
                                                      + TotalCutOffs(acts, m, cfg.lease.policy.maxAttempts, n)
  {
    hide LeaseInvariant.Inv, Creation.Inv, Processing.Inv, RejectedCount, Enabled, Apply;
    RunKeepsInv(cfg, ss, acts, n);
    var m := MessageOfPayment(ss[n].api, pid);
    ChargesCounted(cfg, ss, acts, n, m);
    forall c | c in ss[n].copies ensures |ss[n].copies[c].charged| <= Budget(cfg) + CutOffs(acts, c, n) {
      RunsPerCopy(cfg, ss, acts, n, c);
    }
    TotalBounded(cfg, ss[n], acts, n, m, cfg.lease.policy.maxAttempts);
  }
}
