/** Any number of `CreatePaymentHandler.handle` transactions at once: insert-if-absent on the idempotency key,
    stage the PaymentCreated row, commit both or nothing. An insert waits while another open transaction holds
    the same key. */
module Creation {
  import opened Types
  import opened PaymentRules

  type Key = string
  type RequestId = nat

  datatype Failure = RolledBack | IdempotencyConflict

  /** Where a request stands. `pid` and `msg` are the ids it drew. */
  datatype Request =
    | Begun(key: Key, pid: PaymentId, msg: MessageId)
    | Inserted(key: Key, pid: PaymentId, msg: MessageId)
    | Staged(key: Key, pid: PaymentId, msg: MessageId)
    | Conflicted(key: Key, pid: PaymentId, msg: MessageId)
    | Found(key: Key, existing: PaymentId)
    | Returned(key: Key, result: PaymentId)
    | Failed(failure: Failure)

  /** Committed payments with their keys, every outbox row ever written, open and finished requests, ids drawn. */
  datatype State = State(
    payments: map<PaymentId, Key>,
    outbox: map<MessageId, PaymentId>,
    requests: map<RequestId, Request>,
    drawnPids: set<PaymentId>,
    drawnMsgs: set<MessageId>)

  datatype Action =
    | Start(r: RequestId, key: Key, pid: PaymentId, msg: MessageId)
    | TryInsert(r: RequestId)
    | Lookup(r: RequestId, found: Option<PaymentId>)
    | CollectEvents(r: RequestId)
    | Commit(r: RequestId)
    | Rollback(r: RequestId)

  predicate Open(q: Request) {
    !q.Returned? && !q.Failed?
  }

  /** The request has an uncommitted payment row. */
  predicate HasRow(q: Request) {
    q.Inserted? || q.Staged?
  }

  ghost predicate KeyHeld(s: State, key: Key) {
    exists r :: r in s.requests && HasRow(s.requests[r]) && s.requests[r].key == key
  }

  ghost predicate Enabled(s: State, a: Action) {
    match a
    case Start(r, _, pid, msg) => r !in s.requests && pid !in s.drawnPids && msg !in s.drawnMsgs
    case TryInsert(r) => r in s.requests && s.requests[r].Begun? && !KeyHeld(s, s.requests[r].key)
    case Lookup(r, found) =>
      && r in s.requests && s.requests[r].Conflicted?
      && (match found
          case Some(p) => p in s.payments && s.payments[p] == s.requests[r].key
          case None => !KeyTaken(s.payments, s.requests[r].key))
    case CollectEvents(r) => r in s.requests && s.requests[r].Inserted?
    case Commit(r) => r in s.requests && (s.requests[r].Staged? || s.requests[r].Found?)
    case Rollback(r) => r in s.requests && Open(s.requests[r])
  }

  ghost function Apply(s: State, a: Action): State
    requires Enabled(s, a)
  {
    match a
    case Start(r, key, pid, msg) =>
      s.(requests := s.requests[r := Begun(key, pid, msg)], drawnPids := s.drawnPids + {pid},
         drawnMsgs := s.drawnMsgs + {msg})
    case TryInsert(r) =>
      var q := s.requests[r];
      var q' := if KeyTaken(s.payments, q.key) then Conflicted(q.key, q.pid, q.msg) else Inserted(q.key, q.pid, q.msg);
      s.(requests := s.requests[r := q'])
    case Lookup(r, found) =>
      var key := s.requests[r].key;
      var q' := if found.Some? then Found(key, found.value) else Request.Failed(IdempotencyConflict);
      s.(requests := s.requests[r := q'])
    case CollectEvents(r) =>
      var q := s.requests[r];
      s.(requests := s.requests[r := Staged(q.key, q.pid, q.msg)])
    case Commit(r) =>
      var q := s.requests[r];
      if q.Found? then s.(requests := s.requests[r := Returned(q.key, q.existing)])
      else
        s.(payments := s.payments[q.pid := q.key],
           outbox := s.outbox[q.msg := q.pid],
           requests := s.requests[r := Returned(q.key, q.pid)])
    case Rollback(r) => s.(requests := s.requests[r := Request.Failed(RolledBack)])
  }

  ghost predicate Init(s: State) {
    s == State(map[], map[], map[], {}, {})
  }

  predicate HasIds(q: Request) {
    q.Begun? || q.Inserted? || q.Staged? || q.Conflicted?
  }

  ghost predicate RequestInv(s: State, r: RequestId)
    requires r in s.requests
  {
    var q := s.requests[r];
    && (HasIds(q) ==> q.pid in s.drawnPids && q.msg in s.drawnMsgs && q.pid !in s.payments && q.msg !in s.outbox)
    && (HasRow(q) ==> !KeyTaken(s.payments, q.key))
    && (q.Conflicted? ==> KeyTaken(s.payments, q.key))
    && (q.Found? ==> q.existing in s.payments && s.payments[q.existing] == q.key)
    && (q.Returned? ==> q.result in s.payments && s.payments[q.result] == q.key)
    && (q.Failed? ==> q.failure.RolledBack?)
  }

  /** Outbox rows and committed payments correspond one to one. */
  ghost predicate OneRowEach(s: State) {
    && (forall m | m in s.outbox :: s.outbox[m] in s.payments)
    && (forall m, n | m in s.outbox && n in s.outbox && s.outbox[m] == s.outbox[n] :: m == n)
    && (forall p | p in s.payments :: exists m :: m in s.outbox && s.outbox[m] == p)
  }

  ghost predicate DistinctIds(s: State) {
    forall a, b | a in s.requests && b in s.requests && a != b && HasIds(s.requests[a]) && HasIds(s.requests[b]) ::
      s.requests[a].pid != s.requests[b].pid && s.requests[a].msg != s.requests[b].msg
  }

  ghost predicate DistinctRows(s: State) {
    forall a, b | a in s.requests && b in s.requests && a != b && HasRow(s.requests[a]) && HasRow(s.requests[b]) ::
      s.requests[a].key != s.requests[b].key
  }

  ghost predicate Inv(s: State) {
    && s.payments.Keys <= s.drawnPids && s.outbox.Keys <= s.drawnMsgs
    && (forall r | r in s.requests :: RequestInv(s, r))
    && UniqueKeys(s.payments) && OneRowEach(s) && DistinctIds(s) && DistinctRows(s)
  }

  lemma CommitKeepsRequest(s: State, a: Action, r: RequestId)
    requires Inv(s) && Enabled(s, a) && a.Commit? && s.requests[a.r].Staged? && r in s.requests
    ensures RequestInv(Apply(s, a), r)
  {
    var s', q := Apply(s, a), s.requests[r];
    assert RequestInv(s, a.r) && RequestInv(s, r);
    if q.Conflicted? && r != a.r {
      var p :| p in s.payments && s.payments[p] == q.key;
      assert p in s'.payments && s'.payments[p] == q.key;
    }
  }

  lemma CommitKeepsInv(s: State, a: Action)
    requires Inv(s) && Enabled(s, a) && a.Commit? && s.requests[a.r].Staged?
    ensures Inv(Apply(s, a))
  {
    var s', q := Apply(s, a), s.requests[a.r];
    assert RequestInv(s, a.r);
    forall r | r in s'.requests ensures RequestInv(s', r) {
      CommitKeepsRequest(s, a, r);
    }
    forall p | p in s'.payments ensures exists m :: m in s'.outbox && s'.outbox[m] == p {
      if p == q.pid {
        assert q.msg in s'.outbox;
      } else {
        var m :| m in s.outbox && s.outbox[m] == p;
        assert m in s'.outbox && s'.outbox[m] == p;
      }
    }
  }

  lemma OtherKeepsRequest(s: State, a: Action, r: RequestId)
    requires Inv(s) && Enabled(s, a) && !(a.Commit? && s.requests[a.r].Staged?)
    requires r in Apply(s, a).requests
    ensures RequestInv(Apply(s, a), r)
  {
    if r in s.requests {
      assert RequestInv(s, r);
    }
  }

  /** Every step of every request keeps the invariant. */
  lemma StepKeepsInv(s: State, a: Action)
    requires Inv(s) && Enabled(s, a)
    ensures Inv(Apply(s, a))
  {
    if a.Commit? && s.requests[a.r].Staged? {
      CommitKeepsInv(s, a);
    } else {
      var s' := Apply(s, a);
      forall r | r in s'.requests ensures RequestInv(s', r) {
        OtherKeepsRequest(s, a, r);
      }
      IdsStayDistinct(s, a);
      RowsStayDistinct(s, a);
      assert OneRowEach(s');
    }
  }

  lemma IdsStayDistinct(s: State, a: Action)
    requires Inv(s) && Enabled(s, a)
    ensures DistinctIds(Apply(s, a))
  {
    if a.Start? {
      forall r | r in s.requests && HasIds(s.requests[r])
        ensures s.requests[r].pid != a.pid && s.requests[r].msg != a.msg
      {
        assert RequestInv(s, r);
      }
    }
  }

  lemma RowsStayDistinct(s: State, a: Action)
    requires DistinctRows(s) && Enabled(s, a)
    ensures DistinctRows(Apply(s, a))
  {
  }

  ghost predicate IsRun(ss: seq<State>, acts: seq<Action>) {
    && |ss| == |acts| + 1
    && Init(ss[0])
    && forall i | 0 <= i < |acts| :: Enabled(ss[i], acts[i]) && ss[i + 1] == Apply(ss[i], acts[i])
  }

  lemma {:induction false} RunKeepsInv(ss: seq<State>, acts: seq<Action>, n: nat)
    requires IsRun(ss, acts) && n < |ss|
    ensures Inv(ss[n])
  {
    if n > 0 {
      RunKeepsInv(ss, acts, n - 1);
      StepKeepsInv(ss[n - 1], acts[n - 1]);
    }
  }

  /** Over any interleaving of requests: at most one payment per key, exactly one PaymentCreated row per
      committed payment, and no request ever ends in IdempotencyConflict. */
  lemma IdempotentCreation(ss: seq<State>, acts: seq<Action>, n: nat)
    requires IsRun(ss, acts) && n < |ss|
    ensures UniqueKeys(ss[n].payments) && OneRowEach(ss[n])
    ensures forall r | r in ss[n].requests && ss[n].requests[r].Failed? :: ss[n].requests[r].failure.RolledBack?
  {
    RunKeepsInv(ss, acts, n);
    forall r | r in ss[n].requests && ss[n].requests[r].Failed? ensures ss[n].requests[r].failure.RolledBack? {
      assert RequestInv(ss[n], r);
    }
  }

  /** All successful calls with one key return the same, committed payment, whoever created it. */
  lemma SameKeySamePayment(ss: seq<State>, acts: seq<Action>, n: nat, a: RequestId, b: RequestId)
    requires IsRun(ss, acts) && n < |ss| && a in ss[n].requests && b in ss[n].requests
    requires ss[n].requests[a].Returned? && ss[n].requests[b].Returned?
    requires ss[n].requests[a].key == ss[n].requests[b].key
    ensures ss[n].requests[a].result == ss[n].requests[b].result
    ensures ss[n].requests[a].result in ss[n].payments
  {
    RunKeepsInv(ss, acts, n);
    assert RequestInv(ss[n], a) && RequestInv(ss[n], b);
  }
}
