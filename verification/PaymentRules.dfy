/** The payment state machine as values: statuses, rows, the aggregate's own transitions, and the
    compare-and-set updates of the repository. */
module PaymentRules {
  import opened Types

  datatype PaymentStatus = Pending | Processing | Succeeded | Failed

  datatype AttemptStatus = AttemptCreated | AttemptProcessing | AttemptSucceeded | AttemptFailed

  datatype EventType = PaymentSucceededHook | PaymentFailedHook

  /** The columns of `payments` that ever change. */
  datatype PaymentRow = PaymentRow(status: PaymentStatus, version: nat, processedAt: Option<Time>)

  datatype AttemptRow = AttemptRow(number: nat, status: AttemptStatus)

  datatype DeliveryRow = DeliveryRow(eventType: EventType, createdAt: Time)

  datatype Outcome = OutcomeSucceeded | OutcomeFailed | AlreadyTerminal | NotFound | NotPending | ClaimConflict

  const NEW_PAYMENT := PaymentRow(Pending, 0, None)

  predicate TerminalStatus(s: PaymentStatus) {
    s.Succeeded? || s.Failed?
  }

  /** _VALID_TRANSITIONS */
  predicate MayBecome(current: PaymentStatus, target: PaymentStatus) {
    || (current.Pending? && target.Processing?)
    || (current.Processing? && TerminalStatus(target))
  }

  /** `mark_processing`, `mark_succeeded` and `mark_failed` on the aggregate; None is InvalidStateTransition. */
  function Marked(p: PaymentRow, target: PaymentStatus, now: Time): Option<PaymentRow> {
    if !MayBecome(p.status, target) then None
    else Some(PaymentRow(target, p.version + 1, if TerminalStatus(target) then Some(now) else p.processedAt))
  }

  /** The WHERE clause of the three compare-and-set updates. */
  predicate CasMatches(row: PaymentRow, expectedVersion: nat, expectedStatus: PaymentStatus) {
    row.status == expectedStatus && row.version == expectedVersion
  }

  /** Their SET clause. */
  function CasUpdated(row: PaymentRow, target: PaymentStatus, now: Time): PaymentRow {
    if target.Processing? then row.(status := target, version := row.version + 1)
    else row.(status := target, version := row.version + 1, processedAt := Some(now))
  }

  function TerminalOf(success: bool): PaymentStatus {
    if success then Succeeded else Failed
  }

  function AttemptOf(success: bool): AttemptStatus {
    if success then AttemptSucceeded else AttemptFailed
  }

  function HookOf(success: bool): EventType {
    if success then PaymentSucceededHook else PaymentFailedHook
  }

  function OutcomeOf(success: bool): Outcome {
    if success then OutcomeSucceeded else OutcomeFailed
  }

  /** `begin_attempt`: one more than the largest number so far, starting from 1. */
  function NextNumber(attempts: seq<AttemptRow>): (n: nat)
    ensures 1 <= n && forall a | a in attempts :: a.number < n
    ensures n == 1 || exists a :: a in attempts && a.number == n - 1
  {
    if attempts == [] then 1
    else
      var rest := NextNumber(attempts[..|attempts| - 1]);
      var last := attempts[|attempts| - 1];
      assert forall a | a in attempts :: a in attempts[..|attempts| - 1] || a == last;
      if last.number + 1 <= rest then
        (if rest > 1 then
           var a :| a in attempts[..|attempts| - 1] && a.number == rest - 1; assert a in attempts; rest
         else rest)
      else
        assert last in attempts; last.number + 1
  }

  lemma NextNumberOneMore(attempts: seq<AttemptRow>, i: nat)
    requires i < |attempts|
    ensures var rest := NextNumber(attempts[..i]);
            NextNumber(attempts[..i + 1]) == if attempts[i].number + 1 <= rest then rest else attempts[i].number + 1
  {
    assert attempts[..i + 1][..i] == attempts[..i];
  }

  lemma NoNumberYet()
    ensures NextNumber([]) == 1
  {
  }

  /** Payments by id, with their idempotency keys: is the key used, and is every key used once? */
  predicate KeyTaken(keys: map<PaymentId, string>, key: string) {
    exists p :: p in keys && keys[p] == key
  }

  ghost predicate UniqueKeys(keys: map<PaymentId, string>) {
    forall p, q | p in keys && q in keys && keys[p] == keys[q] :: p == q
  }

  /** Aggregate and row apply the same transition: whenever the update guarded by the aggregate's old version
      and status goes through, row and aggregate are equal again. */
  lemma CasFollowsAggregate(row: PaymentRow, before: PaymentRow, target: PaymentStatus, now: Time)
    requires Marked(before, target, now).Some?
    requires CasMatches(row, before.version, before.status) && row.processedAt == before.processedAt
    ensures CasUpdated(row, target, now) == Marked(before, target, now).value
  {
  }
}
