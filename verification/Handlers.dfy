/** The payment and attempt repositories over a session, and the two handlers that use them, as one undisturbed
    call of each. Interleavings of several calls are the subject of Processing and Creation. */
module Handlers {
  import opened Types
  import opened PaymentRules
  import opened PaymentAggregate
  import opened UnitOfWork
  import Broker
  import OutboxRows
  import Serialization
  import WebhookRules

  // ---------------------------------------------------------------------------
  // Repositories
  // ---------------------------------------------------------------------------

  function Keys(payments: map<PaymentId, PaymentRecord>): map<PaymentId, string> {
    map p | p in payments :: payments[p].data.idempotencyKey
  }

  function WithPayment(t: Tables, id: PaymentId, record: PaymentRecord): Tables {
    t.(payments := t.payments[id := record])
  }

  /** The payment's own columns that an update writes. */
  function WithRow(t: Tables, id: PaymentId, row: PaymentRow): Tables
    requires id in t.payments
  {
    WithPayment(t, id, t.payments[id].(row := row))
  }

  function WithAttempt(t: Tables, id: AttemptId, record: AttemptRecord): Tables {
    t.(attempts := t.attempts[id := record])
  }

  /** The stored attempt with the mutable fields of `current`. */
  function Saved(stored: AttemptRecord, current: AttemptRecord): AttemptRecord {
    stored.(
      status := current.status, error := current.error, response := current.response, updatedAt := current.updatedAt)
  }

  /** The WHERE clause of the compare-and-set updates: id, status and version are as expected. */
  predicate Expected(t: Tables, id: PaymentId, version: nat, status: PaymentStatus) {
    id in t.payments && CasMatches(t.payments[id].row, version, status)
  }

  /** What the insert comes to: done, skipped because the key exists, or refused because the id does. */
  datatype Insertion = Inserted | KeyExists | PrimaryKeyViolation

  class PaymentRepository {
    const session: Session

    constructor (session: Session)
      ensures this.session == session
    {
      this.session := session;
    }

    /** INSERT ... ON CONFLICT (idempotency_key) DO NOTHING. */
    method TryInsert(payment: Payment) returns (r: Insertion)
      modifies session
      ensures r.KeyExists? <==> KeyTaken(Keys(old(session.view.payments)), payment.data.idempotencyKey)
      ensures r.PrimaryKeyViolation? <==> !r.KeyExists? && payment.id in old(session.view.payments)
      ensures session.view ==
              if r.Inserted?
              then WithPayment(old(session.view), payment.id, PaymentRecord(payment.data, payment.Row()))
              else old(session.view)
    {
      if KeyTaken(Keys(session.view.payments), payment.data.idempotencyKey) {
        return KeyExists;
      }
      if payment.id in session.view.payments {
        return PrimaryKeyViolation;
      }
      var record := PaymentRecord(payment.data, payment.Row());
      session.view := session.view.(payments := session.view.payments[payment.id := record]);
      return Inserted;
    }

    method GetByIdempotencyKey(key: string) returns (found: Option<PaymentId>)
      ensures found.Some? <==> KeyTaken(Keys(session.view.payments), key)
      ensures found.Some? ==>
                found.value in session.view.payments && session.view.payments[found.value].data.idempotencyKey == key
    {
      var keys := Keys(session.view.payments);
      if KeyTaken(keys, key) {
        var p :| p in keys && keys[p] == key;
        return Some(p);
      }
      return None;
    }

    /** The compare-and-set all three updates share: SET status, version + 1 and, for a terminal status,
        processed_at WHERE id, status and version are as expected. */
    method CompareAndSet(id: PaymentId, version: nat, status: PaymentStatus, target: PaymentStatus, processedAt: Time)
      returns (hit: bool)
      modifies session
      ensures hit <==> Expected(old(session.view), id, version, status)
      ensures hit <==>
                && id in old(session.view.payments) && old(session.view.payments)[id].row.status == status
                && old(session.view.payments)[id].row.version == version
      ensures session.view ==
              if hit
              then WithRow(old(session.view), id, CasUpdated(old(session.view.payments)[id].row, target, processedAt))
              else old(session.view)
    {
      var payments := session.view.payments;
      hit := id in payments && payments[id].row.status == status && payments[id].row.version == version;
      if hit {
        var row := payments[id].row;
        var updated := row.(status := target, version := row.version + 1);
        if !target.Processing? {
          updated := updated.(processedAt := Some(processedAt));
        }
        session.view := session.view.(payments := payments[id := payments[id].(row := updated)]);
      }
    }

    method BeginProcessing(id: PaymentId, version: nat, status: PaymentStatus) returns (hit: bool)
      modifies session
      ensures hit <==> Expected(old(session.view), id, version, status)
      ensures hit <==>
                && id in old(session.view.payments) && old(session.view.payments)[id].row.status == status
                && old(session.view.payments)[id].row.version == version
      ensures session.view ==
              if hit
              then WithRow(old(session.view), id,
                           PaymentRow(Processing, version + 1, old(session.view.payments)[id].row.processedAt))
              else old(session.view)
    {
      hit := CompareAndSet(id, version, status, Processing, 0.0);
    }

    method MarkSucceeded(id: PaymentId, version: nat, status: PaymentStatus, processedAt: Time) returns (hit: bool)
      modifies session
      ensures hit <==> Expected(old(session.view), id, version, status)
      ensures hit <==>
                && id in old(session.view.payments) && old(session.view.payments)[id].row.status == status
                && old(session.view.payments)[id].row.version == version
      ensures session.view ==
              if hit
              then WithRow(old(session.view), id, PaymentRow(Succeeded, version + 1, Some(processedAt)))
              else old(session.view)
    {
      hit := CompareAndSet(id, version, status, Succeeded, processedAt);
    }

    method MarkFailed(id: PaymentId, version: nat, status: PaymentStatus, processedAt: Time) returns (hit: bool)
      modifies session
      ensures hit <==> Expected(old(session.view), id, version, status)
      ensures hit <==>
                && id in old(session.view.payments) && old(session.view.payments)[id].row.status == status
                && old(session.view.payments)[id].row.version == version
      ensures session.view ==
              if hit
              then WithRow(old(session.view), id, PaymentRow(Failed, version + 1, Some(processedAt)))
              else old(session.view)
    {
      hit := CompareAndSet(id, version, status, Failed, processedAt);
    }
  }

  function AttemptsOf(attempts: map<AttemptId, AttemptRecord>, payment: PaymentId): set<AttemptId> {
    set a | a in attempts && attempts[a].payment == payment
  }

  /** ORDER BY created_at, attempt_number */
  predicate NotAfter(a: AttemptRecord, b: AttemptRecord) {
    a.createdAt < b.createdAt || (a.createdAt == b.createdAt && a.number <= b.number)
  }

  lemma {:induction false} FirstAttemptExists(attempts: map<AttemptId, AttemptRecord>, from: set<AttemptId>)
    returns (m: AttemptId)
    requires from <= attempts.Keys && from != {}
    ensures m in from && forall x | x in from :: NotAfter(attempts[m], attempts[x])
  {
    m :| m in from;
    if from != {m} {
      var rest := FirstAttemptExists(attempts, from - {m});
      if NotAfter(attempts[rest], attempts[m]) {
        m := rest;
      }
    }
  }

  /** The ids of exactly the payment's attempts, each once, by creation time and then by number. */
  ghost predicate Lists(attempts: map<AttemptId, AttemptRecord>, payment: PaymentId, ids: seq<AttemptId>) {
    && (forall a :: a in ids <==> a in attempts && attempts[a].payment == payment)
    && forall i, j | 0 <= i < j < |ids| ::
         && ids[i] != ids[j]
         && var a, b := attempts[ids[i]], attempts[ids[j]];
         a.createdAt < b.createdAt || (a.createdAt == b.createdAt && a.number <= b.number)
  }

  /** The first attempts are listed, those in `left` are not. */
  ghost predicate ListedSoFar(attempts: map<AttemptId, AttemptRecord>, payment: PaymentId, ids: seq<AttemptId>,
                              left: set<AttemptId>)
  {
    && left <= AttemptsOf(attempts, payment)
    && (forall a :: a in ids <==> a in AttemptsOf(attempts, payment) && a !in left)
    && (forall i | 0 <= i < |ids| :: ids[i] in attempts)
    && (forall i, j | 0 <= i < j < |ids| :: ids[i] != ids[j] && NotAfter(attempts[ids[i]], attempts[ids[j]]))
    && (forall a, x | a in ids && x in left :: NotAfter(attempts[a], attempts[x]))
  }

  lemma NothingListed(attempts: map<AttemptId, AttemptRecord>, payment: PaymentId)
    ensures ListedSoFar(attempts, payment, [], AttemptsOf(attempts, payment))
  {
  }

  lemma OneMoreListed(attempts: map<AttemptId, AttemptRecord>, payment: PaymentId, ids: seq<AttemptId>,
                      left: set<AttemptId>, m: AttemptId)
    requires ListedSoFar(attempts, payment, ids, left)
    requires m in left && forall x | x in left :: NotAfter(attempts[m], attempts[x])
    ensures ListedSoFar(attempts, payment, ids + [m], left - {m})
  {
    hide NotAfter;
  }

  lemma AllListed(attempts: map<AttemptId, AttemptRecord>, payment: PaymentId, ids: seq<AttemptId>)
    requires ListedSoFar(attempts, payment, ids, {})
    ensures Lists(attempts, payment, ids)
  {
  }

  class AttemptRepository {
    const session: Session

    constructor (session: Session)
      ensures this.session == session
    {
      this.session := session;
    }

    method Add(attempt: PaymentAttempt)
      modifies session
      ensures session.view == WithAttempt(old(session.view), attempt.id, attempt.Record())
    {
      session.view := session.view.(attempts := session.view.attempts[attempt.id := attempt.Record()]);
    }

    /** Saves the mutable fields of an attempt by id. */
    method Update(attempt: PaymentAttempt)
      modifies session
      ensures session.view ==
              if attempt.id in old(session.view.attempts)
              then WithAttempt(old(session.view), attempt.id,
                               Saved(old(session.view.attempts)[attempt.id], attempt.Record()))
              else old(session.view)
    {
      var attempts := session.view.attempts;
      if attempt.id in attempts {
        var saved := attempts[attempt.id].(status := attempt.status, error := attempt.error);
        saved := saved.(response := attempt.response, updatedAt := attempt.updatedAt);
        session.view := session.view.(attempts := attempts[attempt.id := saved]);
      }
    }

    /** All attempts of a payment, each exactly once, oldest first. */
    method GetByPaymentId(payment: PaymentId) returns (found: seq<PaymentAttempt>, ghost ids: seq<AttemptId>)
      ensures Lists(session.view.attempts, payment, ids) && |found| == |ids|
      ensures forall i | 0 <= i < |found| :: fresh(found[i]) && found[i].id == ids[i]
      ensures forall i | 0 <= i < |found| ::
                ids[i] in session.view.attempts && found[i].Record() == session.view.attempts[ids[i]]
    {
      hide NotAfter, Lists;
      var attempts := session.view.attempts;
      var left := AttemptsOf(attempts, payment);
      found, ids := [], [];
      NothingListed(attempts, payment);
      while left != {}
        invariant ListedSoFar(attempts, payment, ids, left) && |found| == |ids|
        invariant forall i | 0 <= i < |found| :: fresh(found[i]) && found[i].id == ids[i]
        invariant forall i | 0 <= i < |found| :: ids[i] in attempts && found[i].Record() == attempts[ids[i]]
      {
        ghost var first := FirstAttemptExists(attempts, left);
        var m :| m in left && forall x | x in left :: NotAfter(attempts[m], attempts[x]);
        OneMoreListed(attempts, payment, ids, left, m);
        var attempt := new PaymentAttempt.FromRecord(m, attempts[m]);
        found, ids, left := found + [attempt], ids + [m], left - {m};
      }
      AllListed(attempts, payment, ids);
    }
  }

  // ---------------------------------------------------------------------------
  // ProcessPaymentHandler
  // ---------------------------------------------------------------------------

  datatype ProcessError = InvalidStateTransition | GatewayRaised | VersionConflictFinalizing | CommitFailed

  /** The clock readings and ids one call draws. */
  datatype Drawn = Drawn(startedAt: Instant, finishedAt: Instant, attempt: AttemptId, delivery: WebhookRules.DeliveryId)

  datatype Command = Command(payment: PaymentId, correlationId: Option<string>)

  predicate IsFinal(r: Result<Outcome, ProcessError>) {
    r == Ok(OutcomeSucceeded) || r == Ok(OutcomeFailed)
  }

  /** The number is one above every earlier attempt of the payment, starting from 1. */
  ghost predicate NextInLine(attempts: map<AttemptId, AttemptRecord>, payment: PaymentId, number: nat) {
    && (forall a | a in AttemptsOf(attempts, payment) :: attempts[a].number < number)
    && (number == 1 || exists a :: a in AttemptsOf(attempts, payment) && attempts[a].number + 1 == number)
  }

  /** Everything a finalised payment leaves in the tables: one row step of two versions, one attempt, one delivery. */
  ghost predicate FinalisedBy(before: Tables, after: Tables, cmd: Command, drawn: Drawn, g: GatewayResult) {
    && cmd.payment in before.payments
    && var row := before.payments[cmd.payment].row;
    && after.payments == before.payments[cmd.payment := before.payments[cmd.payment].(
         row := PaymentRow(TerminalOf(g.success), row.version + 2, Some(drawn.finishedAt)))]
    && drawn.attempt in after.attempts
    && NextInLine(before.attempts, cmd.payment, after.attempts[drawn.attempt].number)
    && after.attempts == before.attempts[drawn.attempt := AttemptRecord(
         cmd.payment, after.attempts[drawn.attempt].number, AttemptOf(g.success),
         if g.success then None else g.error, if g.success then g.raw else None,
         cmd.correlationId, drawn.startedAt, drawn.finishedAt)]
    && after.deliveries == before.deliveries[drawn.delivery := DeliveryRecord(
         cmd.payment, HookOf(g.success), cmd.correlationId, WebhookRules.NewDelivery(drawn.finishedAt))]
    && after.outbox == before.outbox
  }

  /** Answer, payment, attempt and webhook event all say what the gateway said. */
  ghost predicate SaysAll(success: bool, r: Result<Outcome, ProcessError>, t: Tables, cmd: Command, drawn: Drawn) {
    && cmd.payment in t.payments && drawn.attempt in t.attempts && drawn.delivery in t.deliveries
    && t.deliveries[drawn.delivery].payment == cmd.payment
    && var status, attempt := t.payments[cmd.payment].row.status, t.attempts[drawn.attempt].status;
    var hook := t.deliveries[drawn.delivery].eventType;
    if success
    then r == Ok(OutcomeSucceeded) && status == Succeeded && attempt == AttemptSucceeded && hook == PaymentSucceededHook
    else r == Ok(OutcomeFailed) && status == Failed && attempt == AttemptFailed && hook == PaymentFailedHook
  }

  /** What the call answers, from the row as it was read and as it was when the claim ran. */
  ghost predicate Answered(r: Result<Outcome, ProcessError>, charged: bool, read: map<PaymentId, PaymentRecord>,
                           claimed: map<PaymentId, PaymentRecord>, id: PaymentId, reply: Option<GatewayResult>)
  {
    && (r == Ok(NotFound) <==> id !in read)
    && (r == Ok(AlreadyTerminal) <==> id in read && read[id].row.status in {Succeeded, Failed})
    && (r == Ok(NotPending) <==> id in read && read[id].row.status.Processing?)
    && (r == Ok(ClaimConflict) <==>
          && id in read && read[id].row.status.Pending?
          && !(id in claimed && claimed[id].row.status == Pending && claimed[id].row.version == read[id].row.version))
    && (charged <==>
          && id in read && read[id].row.status.Pending?
          && id in claimed && claimed[id].row.status == Pending && claimed[id].row.version == read[id].row.version)
    && (r == Err(GatewayRaised) <==> charged && reply.None?)
    && (charged && reply.Some? <==> IsFinal(r))
    && (IsFinal(r) ==> r == Ok(OutcomeOf(reply.value.success)))
    && (r.Err? ==> r.error.GatewayRaised?)
  }

  lemma NextNumberIsNextInLine(attempts: map<AttemptId, AttemptRecord>, payment: PaymentId, ids: seq<AttemptId>,
                               rows: seq<AttemptRow>)
    requires Lists(attempts, payment, ids) && |ids| == |rows|
    requires forall i | 0 <= i < |ids| :: ids[i] in attempts && rows[i].number == attempts[ids[i]].number
    ensures NextInLine(attempts, payment, NextNumber(rows))
  {
    forall a | a in AttemptsOf(attempts, payment) ensures attempts[a].number < NextNumber(rows) {
      var i :| 0 <= i < |ids| && ids[i] == a;
      assert rows[i] in rows;
    }
    if NextNumber(rows) != 1 {
      var row :| row in rows && row.number == NextNumber(rows) - 1;
      var i :| 0 <= i < |rows| && rows[i] == row;
      assert ids[i] in AttemptsOf(attempts, payment) && attempts[ids[i]].number + 1 == NextNumber(rows);
    }
  }

  class ProcessPaymentHandler {
    const context: Context

    constructor (context: Context)
      ensures this.context == context
    {
      this.context := context;
    }

    /** The attempt a claimed payment starts. */
    method StartAttempt(session: Session, payment: Payment, cmd: Command, drawn: Drawn)
      returns (attempt: PaymentAttempt)
      requires payment.id == cmd.payment && payment.status.Processing? && drawn.attempt !in session.view.attempts
      modifies session, payment`attempts
      ensures fresh(attempt) && attempt.id == drawn.attempt && payment.attempts != [] && payment.Current() == attempt
      ensures attempt.payment == cmd.payment && NextInLine(old(session.view.attempts), cmd.payment, attempt.number)
      ensures attempt.Record() ==
                AttemptRecord(cmd.payment, attempt.number, AttemptProcessing, None, None, cmd.correlationId,
                              drawn.startedAt, drawn.startedAt)
      ensures session.view == WithAttempt(old(session.view), drawn.attempt, attempt.Record())
    {
      var repository := new AttemptRepository(session);
      hide Lists, NextInLine, NextNumber;
      var existing, ids := repository.GetByPaymentId(payment.id);
      payment.HydrateAttempts(existing);
      NextNumberIsNextInLine(session.view.attempts, cmd.payment, ids, payment.AttemptRows());
      attempt := payment.BeginAttempt(drawn.attempt, cmd.correlationId, drawn.startedAt);
      repository.Add(attempt);
    }

    /** From the gateway's reply on: attempt, aggregate and row go the same way, then the delivery is staged. */
    method Finish(session: Session, payment: Payment, attempt: PaymentAttempt, cmd: Command, drawn: Drawn,
                  g: GatewayResult)
      returns (r: Result<Outcome, ProcessError>)
      requires payment.id == cmd.payment && payment.status.Processing? && payment.Current() == attempt
      requires attempt.id == drawn.attempt && attempt.status.AttemptProcessing? && attempt.error == None
      requires attempt.response == None
      requires cmd.payment in session.view.payments
      requires CasMatches(session.view.payments[cmd.payment].row, payment.version, Processing)
      requires drawn.attempt in session.view.attempts && session.view.attempts[drawn.attempt] == attempt.Record()
      modifies session, payment, attempt
      ensures r == Ok(OutcomeOf(g.success)) && SaysAll(g.success, r, session.view, cmd, drawn)
      ensures payment.Row() == PaymentRow(TerminalOf(g.success), old(payment.version) + 1, Some(drawn.finishedAt))
      ensures session.view == WithRow(old(session.view), cmd.payment, payment.Row()).(
                attempts := old(session.view.attempts)[drawn.attempt := old(attempt.Record()).(
                  status := AttemptOf(g.success), error := if g.success then None else g.error,
                  response := if g.success then g.raw else None, updatedAt := drawn.finishedAt)],
                deliveries := old(session.view.deliveries)[drawn.delivery := DeliveryRecord(
                  cmd.payment, HookOf(g.success), cmd.correlationId, WebhookRules.NewDelivery(drawn.finishedAt))])
    {
      var payments := new PaymentRepository(session);
      var attempts := new AttemptRepository(session);
      var expectedVersion, expectedStatus := payment.version, payment.status;
      var valid, marked, claimed: bool;
      if g.success {
        valid := payment.SucceedAttempt(drawn.finishedAt, g);
        marked := payment.MarkSucceeded(drawn.finishedAt);
        claimed := payments.MarkSucceeded(payment.id, expectedVersion, expectedStatus, drawn.finishedAt);
      } else {
        valid := payment.FailAttempt(drawn.finishedAt, g.error);
        marked := payment.MarkFailed(drawn.finishedAt, g.error);
        claimed := payments.MarkFailed(payment.id, expectedVersion, expectedStatus, drawn.finishedAt);
      }
      if !valid || !marked {
        return Err(InvalidStateTransition);
      }
      if !claimed {
        return Err(VersionConflictFinalizing);
      }
      attempts.Update(attempt);
      session.view := session.view.(deliveries := session.view.deliveries[drawn.delivery := DeliveryRecord(
        cmd.payment, if g.success then PaymentSucceededHook else PaymentFailedHook, cmd.correlationId,
        WebhookRules.NewDelivery(drawn.finishedAt))]);
      r := Ok(if g.success then OutcomeSucceeded else OutcomeFailed);
    }

    /** A claimed payment: start the attempt, charge, finish. `before` are the tables the claim found. */
    method ProcessClaimed(session: Session, payment: Payment, cmd: Command, drawn: Drawn, reply: Option<GatewayResult>,
                          ghost before: Tables)
      returns (r: Result<Outcome, ProcessError>)
      requires payment.id == cmd.payment && payment.status.Processing?
      requires drawn.attempt !in before.attempts && cmd.payment in before.payments
      requires var record := before.payments[cmd.payment];
               && payment.version == record.row.version + 1
               && session.view == before.(payments := before.payments[
                    cmd.payment := record.(row := PaymentRow(Processing, payment.version, record.row.processedAt))])
      modifies session, payment
      ensures reply.None? ==> r == Err(GatewayRaised)
      ensures reply.Some? ==>
                && r == Ok(OutcomeOf(reply.value.success))
                && FinalisedBy(before, session.view, cmd, drawn, reply.value)
                && SaysAll(reply.value.success, r, session.view, cmd, drawn)
    {
      hide NextInLine, AttemptOf, HookOf, OutcomeOf, TerminalOf, SaysAll;
      var attempt := StartAttempt(session, payment, cmd, drawn);
      if reply.None? {
        return Err(GatewayRaised);
      }
      r := Finish(session, payment, attempt, cmd, drawn, reply.value);
    }

    /** `handle` inside its unit of work. `read` is what was committed when the payment was read; the claim and all
        that follows run on the session, where the row lock then keeps the payment as it is. `reply` is None when
        the gateway raises. The finalising update always hits: VersionConflictFinalizing is never the answer. */
    method HandleInside(session: Session, read: map<PaymentId, PaymentRecord>, cmd: Command, drawn: Drawn,
                        reply: Option<GatewayResult>)
      returns (r: Result<Outcome, ProcessError>, charged: bool)
      requires drawn.attempt !in session.view.attempts && drawn.delivery !in session.view.deliveries
      modifies session
      ensures Answered(r, charged, read, old(session.view.payments), cmd.payment, reply)
      ensures IsFinal(r) ==>
                && FinalisedBy(old(session.view), session.view, cmd, drawn, reply.value)
                && SaysAll(reply.value.success, r, session.view, cmd, drawn)
      ensures r.Ok? && !IsFinal(r) ==> session.view == old(session.view)
    {
      hide FinalisedBy, SaysAll;
      charged := false;
      if cmd.payment !in read {
        return Ok(NotFound), false;
      }
      var payment := new Payment.FromRow(cmd.payment, read[cmd.payment].data, read[cmd.payment].row);
      if payment.status in {Succeeded, Failed} {
        return Ok(AlreadyTerminal), false;
      }
      if payment.status != Pending {
        return Ok(NotPending), false;
      }
      var payments := new PaymentRepository(session);
      var expectedVersion, expectedStatus := payment.version, payment.status;
      var valid := payment.MarkProcessing(drawn.startedAt);
      var claimed := payments.BeginProcessing(payment.id, expectedVersion, expectedStatus);
      if !claimed {
        return Ok(ClaimConflict), false;
      }
      charged := true;
      r := ProcessClaimed(session, payment, cmd, drawn, reply, old(session.view));
    }

    /** `handle`: what it answers, and that the database changes if and only if the payment was finalised and the
        commit went through; otherwise the caller sees the error and the database is as it was. */
    method Handle(uow: PaymentsUnitOfWork, read: map<PaymentId, PaymentRecord>, cmd: Command, drawn: Drawn,
                  reply: Option<GatewayResult>, commits: bool)
      returns (r: Result<Outcome, ProcessError>, charged: bool, ghost answer: Result<Outcome, ProcessError>)
      requires drawn.attempt !in uow.db.tables.attempts && drawn.delivery !in uow.db.tables.deliveries
      modifies context, uow, uow.db
      ensures Answered(answer, charged, read, old(uow.db.tables.payments), cmd.payment, reply)
      ensures r == if answer.Ok? && !commits then Err(ProcessError.CommitFailed) else answer
      ensures IsFinal(r) ==>
                && FinalisedBy(old(uow.db.tables), uow.db.tables, cmd, drawn, reply.value)
                && SaysAll(reply.value.success, r, uow.db.tables, cmd, drawn)
      ensures !IsFinal(r) ==> uow.db.tables == old(uow.db.tables)
      ensures context.current == old(context.current) && uow.session == null
    {
      hide Answered, FinalisedBy, SaysAll;
      var token := context.Begin(uow);
      r, charged := HandleInside(uow.session, read, cmd, drawn, reply);
      answer := r;
      var committed := context.End(uow, token, r.Ok?, true, commits);
      if r.Ok? && !committed {
        r := Err(ProcessError.CommitFailed);
      }
    }
  }

  // ---------------------------------------------------------------------------
  // CreatePaymentHandler
  // ---------------------------------------------------------------------------

  datatype CreateError = InvalidPaymentData | IdempotencyConflict | IntegrityError | CommitFailed

  lemma NewKeyStaysUnique(payments: map<PaymentId, PaymentRecord>, id: PaymentId, record: PaymentRecord)
    requires id !in payments && !KeyTaken(Keys(payments), record.data.idempotencyKey)
    ensures UniqueKeys(Keys(payments)) ==> UniqueKeys(Keys(payments[id := record]))
  {
    assert forall p | p in payments :: Keys(payments)[p] == payments[p].data.idempotencyKey;
  }

  lemma CreatedHasBaseFields(id: PaymentId, data: PaymentData)
    ensures HasBaseFields(CreatedEvent(id, data))
  {
  }

  /** A new payment and its PaymentCreated row, and nothing else. */
  ghost predicate CreatedBy(c: Serialization.Codec, before: Tables, after: Tables, id: PaymentId, data: PaymentData,
                            msg: MessageId)
  {
    HasBaseFields(CreatedEvent(id, data))
    && after == before.(payments := before.payments[id := PaymentRecord(data, NEW_PAYMENT)],
                        outbox := before.outbox[msg := OutboxRowOf(c, CreatedEvent(id, data))])
  }

  /** What a reader of a new payment's outbox row finds: a message nobody has tried to publish yet, naming the payment,
      and in its payload the command. */
  ghost predicate Announces(c: Serialization.Codec, r: OutboxRecord, id: PaymentId, d: PaymentData) {
    && r.eventType == "PaymentCreated" && r.aggregateId == Serialization.Uuid(id)
    && r.correlationId == (if d.correlationId.Some? then Serialization.Str(d.correlationId.value)
                           else Serialization.Null)
    && r.row == OutboxRows.Row(d.createdAt, 0, OutboxRows.Pending, None, None, None, None, None)
    && TellsBase(c, r.payload, "PaymentCreated", id, d.correlationId, d.createdAt)
    && TellsCommand(c, r.payload, d)
  }

  lemma NewRowAnnounces(c: Serialization.Codec, id: PaymentId, d: PaymentData)
    ensures HasBaseFields(CreatedEvent(id, d)) && Announces(c, OutboxRowOf(c, CreatedEvent(id, d)), id, d)
  {
    hide TellsBase, TellsCommand, Serialization.Serialize, CreatedFields;
    CreatedHasBase(id, d);
    CreatedPayload(c, id, d);
  }

  /** The consumer reads what was announced: the body is a PaymentCreated of this payment, which goes to the process
      handler while it has retries left, from the first delivery on; and the dates come back as they were. */
  lemma AnnouncedIsProcessed(c: Serialization.Codec, r: OutboxRecord, id: PaymentId, d: PaymentData,
                             deaths: Broker.XDeath, maxRetries: int)
    requires Serialization.Faithful(c) && Announces(c, r, id, d)
    ensures Serialization.BodyOf(c, r.payload) == Broker.Object(Some("PaymentCreated"), Some(id))
    ensures Broker.RejectedCount(deaths).Some? && Broker.RejectedCount(deaths).value < maxRetries ==>
              Broker.RouteOf(Serialization.BodyOf(c, r.payload), deaths, maxRetries) == Broker.Process(id)
    ensures 1 <= maxRetries ==>
              Broker.RouteOf(Serialization.BodyOf(c, r.payload), Broker.NotAList, maxRetries) == Broker.Process(id)
    ensures forall k | k in {"created_at", "occurred_at"} ::
              k in r.payload && r.payload[k].Str? && c.fromIso(r.payload[k].s) == Some(d.createdAt)
  {
    hide TellsCommand;
    assert Holds(r.payload, "created_at", Serialization.Str(c.iso(d.createdAt))) by {
      assert TellsCommand(c, r.payload, d);
      CommandDates(c, r.payload, d);
    }
  }

  lemma CommandDates(c: Serialization.Codec, payload: Serialization.Data, d: PaymentData)
    requires TellsCommand(c, payload, d)
    ensures Holds(payload, "created_at", Serialization.Str(c.iso(d.createdAt)))
  {
  }

  class CreatePaymentHandler {
    const context: Context
    const codec: Serialization.Codec

    constructor (context: Context, codec: Serialization.Codec)
      ensures this.context == context && this.codec == codec
    {
      this.context, this.codec := context, codec;
    }

    /** `handle` inside its unit of work; `valid` says whether key and amount pass the value objects' checks. */
    method HandleInside(uow: PaymentsUnitOfWork, data: PaymentData, valid: bool, id: PaymentId, msg: MessageId)
      returns (r: Result<PaymentId, CreateError>)
      requires uow.session != null && msg !in uow.session.view.outbox
      modifies uow.session, uow`collectedEvents
      ensures uow.session == old(uow.session)
      ensures r == Err(InvalidPaymentData) <==> !valid
      ensures r == Err(IntegrityError) <==>
                valid && !KeyTaken(Keys(old(uow.session.view.payments)), data.idempotencyKey)
                && id in old(uow.session.view.payments)
      ensures r.Err? ==> r.error.InvalidPaymentData? || r.error.IntegrityError?
      ensures r.Ok? && KeyTaken(Keys(old(uow.session.view.payments)), data.idempotencyKey) ==>
                && r.value in old(uow.session.view.payments)
                && old(uow.session.view.payments)[r.value].data.idempotencyKey == data.idempotencyKey
                && uow.session.view == old(uow.session.view) && uow.collectedEvents == old(uow.collectedEvents)
      ensures r.Ok? && !KeyTaken(Keys(old(uow.session.view.payments)), data.idempotencyKey) ==>
                && r == Ok(id) && CreatedBy(codec, old(uow.session.view), uow.session.view, id, data, msg)
                && uow.collectedEvents == old(uow.collectedEvents) + [CreatedEvent(id, data)]
    {
      hide CreatedEvent, OutboxRowOf, HasBaseFields, KeyTaken;
      if !valid {
        return Err(InvalidPaymentData);
      }
      CreatedHasBaseFields(id, data);
      var payment := new Payment.Create(id, data);
      var payments := new PaymentRepository(uow.session);
      var insertion := payments.TryInsert(payment);
      if insertion.PrimaryKeyViolation? {
        return Err(IntegrityError);
      }
      if insertion.KeyExists? {
        var existing := payments.GetByIdempotencyKey(data.idempotencyKey);
        if existing.None? {
          return Err(IdempotencyConflict);
        }
        return Ok(existing.value);
      }
      var events := payment.PullEvents();
      var started := uow.CollectEvents(codec, events, [msg]);
      assert RowsOf(codec, events) == [OutboxRowOf(codec, CreatedEvent(id, data))];
      r := Ok(payment.id);
    }

    /** `handle`: one payment and one outbox row appear together, or neither; a key that was used answers with the
        payment it created; keys stay unique. */
    method Handle(uow: PaymentsUnitOfWork, data: PaymentData, valid: bool, id: PaymentId, msg: MessageId, commits: bool)
      returns (r: Result<PaymentId, CreateError>)
      requires msg !in uow.db.tables.outbox
      modifies context, uow, uow.db
      ensures r == Err(InvalidPaymentData) <==> !valid
      ensures r == Err(IntegrityError) <==>
                valid && !KeyTaken(Keys(old(uow.db.tables.payments)), data.idempotencyKey)
                && id in old(uow.db.tables.payments)
      ensures r.Err? ==> r.error.InvalidPaymentData? || r.error.IntegrityError? || (r.error.CommitFailed? && !commits)
      ensures r.Ok? ==>
                commits && r.value in uow.db.tables.payments
                && uow.db.tables.payments[r.value].data.idempotencyKey == data.idempotencyKey
      ensures r.Ok? && !KeyTaken(Keys(old(uow.db.tables.payments)), data.idempotencyKey) ==>
                r == Ok(id) && CreatedBy(codec, old(uow.db.tables), uow.db.tables, id, data, msg)
      ensures r.Ok? && !KeyTaken(Keys(old(uow.db.tables.payments)), data.idempotencyKey) ==>
                && id in uow.db.tables.payments
                && uow.db.tables.payments[id] == PaymentRecord(data, PaymentRow(Pending, 0, None))
                && msg in uow.db.tables.outbox && Announces(codec, uow.db.tables.outbox[msg], id, data)
                && (Serialization.Faithful(codec) ==>
                      Serialization.BodyOf(codec, uow.db.tables.outbox[msg].payload)
                      == Broker.Object(Some("PaymentCreated"), Some(id)))
      ensures r.Err? || KeyTaken(Keys(old(uow.db.tables.payments)), data.idempotencyKey) ==>
                uow.db.tables == old(uow.db.tables)
      ensures UniqueKeys(Keys(old(uow.db.tables.payments))) ==> UniqueKeys(Keys(uow.db.tables.payments))
      ensures context.current == old(context.current) && uow.session == null
    {
      hide OutboxRowOf, KeyTaken, UniqueKeys, Keys, CreatedEvent, HasBaseFields, Announces, Serialization.BodyOf;
      NewRowAnnounces(codec, id, data);
      if Serialization.Faithful(codec) {
        AnnouncedIsProcessed(codec, OutboxRowOf(codec, CreatedEvent(id, data)), id, data, Broker.NotAList, 1);
      }
      var token := context.Begin(uow);
      ghost var before := uow.session.view;
      r := HandleInside(uow, data, valid, id, msg);
      if r.Ok? && !KeyTaken(Keys(before.payments), data.idempotencyKey) {
        NewKeyStaysUnique(before.payments, id, PaymentRecord(data, NEW_PAYMENT));
      }
      var committed := context.End(uow, token, r.Ok?, true, commits);
      if r.Ok? && !committed {
        r := Err(CreateError.CommitFailed);
      }
    }
  }
}
