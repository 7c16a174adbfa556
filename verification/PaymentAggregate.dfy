/** The Payment aggregate and its attempts as the handlers hold them in memory. */
module PaymentAggregate {
  import opened Types
  import opened PaymentRules
  import Serialization

  type Event = Serialization.Event
  type Value = Serialization.Value
  type AttemptId = nat

  datatype GatewayResult = GatewayResult(success: bool, gatewayId: Option<string>, error: Option<string>,
                                         raw: Option<Value>)

  datatype AttemptRecord = AttemptRecord(
    payment: PaymentId,
    number: nat,
    status: AttemptStatus,
    error: Option<string>,
    response: Option<Value>,
    correlationId: Option<string>,
    createdAt: Time,
    updatedAt: Time)

  /** What never changes about a payment. */
  datatype PaymentData = PaymentData(
    idempotencyKey: string,
    amount: string,
    currency: string,
    description: Option<string>,
    metadata: map<string, Value>,
    webhookUrl: string,
    correlationId: Option<string>,
    createdAt: Instant)

  // ---------------------------------------------------------------------------
  // Events
  // ---------------------------------------------------------------------------

  function Text(s: Option<string>): Value {
    if s.Some? then Serialization.Str(s.value) else Serialization.Null
  }

  function BaseFields(id: PaymentId, correlationId: Option<string>, now: Instant): Serialization.Data {
    map[Serialization.AGGREGATE_ID := Serialization.Uuid(id),
        Serialization.OCCURRED_AT := Serialization.Date(now),
        Serialization.CORRELATION_ID := Text(correlationId)]
  }

  function CreatedEvent(id: PaymentId, d: PaymentData): Event {
    Serialization.Event(Serialization.PaymentCreated, BaseFields(id, d.correlationId, d.createdAt) + CreatedFields(d))
  }

  function CreatedFields(d: PaymentData): Serialization.Data {
    map["amount" := Serialization.Str(d.amount),
        "currency" := Serialization.Str(d.currency),
        "description" := Text(d.description),
        "metadata" := Serialization.Dict(d.metadata),
        "webhook_url" := Serialization.Str(d.webhookUrl),
        "idempotency_key" := Serialization.Str(d.idempotencyKey),
        Serialization.CREATED_AT := Serialization.Date(d.createdAt)]
  }

  function StartedEvent(id: PaymentId, correlationId: Option<string>, now: Instant): Event {
    Serialization.Event(Serialization.PaymentProcessingStarted, BaseFields(id, correlationId, now))
  }

  /** PaymentSucceeded or PaymentFailed, with the time of the transition. */
  function FinishedEvent(id: PaymentId, correlationId: Option<string>, now: Instant, success: bool,
                         reason: Option<string>): Event
  {
    var fields := BaseFields(id, correlationId, now)[Serialization.PROCESSED_AT := Serialization.Date(now)];
    if success then Serialization.Event(Serialization.PaymentSucceeded, fields)
    else Serialization.Event(Serialization.PaymentFailed, fields["reason" := Text(reason)])
  }

  lemma BaseIsWellTyped(id: PaymentId, correlationId: Option<string>, now: Instant)
    ensures BaseFields(id, correlationId, now).Keys
         == {Serialization.AGGREGATE_ID, Serialization.OCCURRED_AT, Serialization.CORRELATION_ID}
    ensures forall k | k in BaseFields(id, correlationId, now) ::
              Serialization.RightType(k, BaseFields(id, correlationId, now)[k])
  {
  }

  /** Every event the aggregate raises is well typed, so its outbox payload is JSON and restores the event. */
  lemma RaisedEventsRoundTrip(c: Serialization.Codec, id: PaymentId, d: PaymentData, now: Instant, success: bool,
                              reason: Option<string>)
    requires Serialization.Faithful(c) && Serialization.IsJson(Serialization.Dict(d.metadata))
    ensures forall e | e in {CreatedEvent(id, d), StartedEvent(id, d.correlationId, now),
                             FinishedEvent(id, d.correlationId, now, success, reason)} ::
              Serialization.WellTyped(e) && Serialization.Deserialize(c, Serialization.Serialize(c, e)) == Ok(e)
  {
    CreatedIsWellTyped(id, d);
    FinishedIsWellTyped(id, d.correlationId, now, success, reason);
    hide CreatedEvent, StartedEvent, FinishedEvent;
    Serialization.RoundTrip(c, CreatedEvent(id, d));
    Serialization.RoundTrip(c, StartedEvent(id, d.correlationId, now));
    Serialization.RoundTrip(c, FinishedEvent(id, d.correlationId, now, success, reason));
  }

  lemma CreatedFieldsAreTyped(d: PaymentData)
    requires Serialization.IsJson(Serialization.Dict(d.metadata))
    ensures forall k | k in CreatedFields(d) :: Serialization.RightType(k, CreatedFields(d)[k])
  {
    hide Serialization.IsJson;
  }

  lemma CreatedIsWellTyped(id: PaymentId, d: PaymentData)
    requires Serialization.IsJson(Serialization.Dict(d.metadata))
    ensures Serialization.WellTyped(CreatedEvent(id, d))
  {
    hide BaseFields, Serialization.RightType, Text;
    BaseIsWellTyped(id, d.correlationId, d.createdAt);
    CreatedFieldsAreTyped(d);
  }

  lemma FinishedIsWellTyped(id: PaymentId, correlationId: Option<string>, now: Instant, success: bool,
                            reason: Option<string>)
    ensures Serialization.WellTyped(StartedEvent(id, correlationId, now))
    ensures Serialization.WellTyped(FinishedEvent(id, correlationId, now, success, reason))
  {
    BaseIsWellTyped(id, correlationId, now);
  }

  /** The value a reader of the payload finds under a key. */
  ghost predicate Holds(payload: Serialization.Data, key: string, v: Value) {
    key in payload && payload[key] == v
  }

  ghost predicate HoldsText(payload: Serialization.Data, key: string, s: Option<string>) {
    Holds(payload, key, if s.Some? then Serialization.Str(s.value) else Serialization.Null)
  }

  /** The payload tells which event it was, of which payment, and when. */
  ghost predicate TellsBase(c: Serialization.Codec, payload: Serialization.Data, name: string, id: PaymentId,
                            correlationId: Option<string>, now: Instant)
  {
    && Holds(payload, "event_type", Serialization.Str(name))
    && Holds(payload, "aggregate_id", Serialization.Str(c.hex(id)))
    && Holds(payload, "occurred_at", Serialization.Str(c.iso(now)))
    && HoldsText(payload, "correlation_id", correlationId)
  }

  /** The payload tells everything the command said, under the names the event class gives it. */
  ghost predicate TellsCommand(c: Serialization.Codec, payload: Serialization.Data, d: PaymentData) {
    && Holds(payload, "amount", Serialization.Str(d.amount))
    && Holds(payload, "currency", Serialization.Str(d.currency))
    && HoldsText(payload, "description", d.description)
    && Holds(payload, "metadata", Serialization.ToJsonable(c, Serialization.Dict(d.metadata)))
    && Holds(payload, "webhook_url", Serialization.Str(d.webhookUrl))
    && Holds(payload, "idempotency_key", Serialization.Str(d.idempotencyKey))
    && Holds(payload, "created_at", Serialization.Str(c.iso(d.createdAt)))
  }

  /** An attribute goes into the payload under its own name. */
  lemma AttributeIsSerialized(c: Serialization.Codec, e: Event, key: string, v: Value)
    requires Holds(e.attrs, key, v) && key != "event_type"
    ensures Holds(Serialization.Serialize(c, e), key, Serialization.ToJsonable(c, v))
  {
  }

  lemma NameIsSerialized(c: Serialization.Codec, e: Event)
    ensures Holds(Serialization.Serialize(c, e), "event_type", Serialization.Str(Serialization.NameOf(e.kind)))
  {
  }

  ghost predicate HasBase(attrs: Serialization.Data, id: PaymentId, correlationId: Option<string>, now: Instant) {
    && Holds(attrs, "aggregate_id", Serialization.Uuid(id))
    && Holds(attrs, "occurred_at", Serialization.Date(now))
    && HoldsText(attrs, "correlation_id", correlationId)
  }

  lemma TextIsSerialized(c: Serialization.Codec, e: Event, key: string, s: Option<string>)
    requires HoldsText(e.attrs, key, s) && key != "event_type"
    ensures HoldsText(Serialization.Serialize(c, e), key, s)
  {
    hide Serialization.Serialize;
    AttributeIsSerialized(c, e, key, if s.Some? then Serialization.Str(s.value) else Serialization.Null);
  }

  lemma BaseIsSerialized(c: Serialization.Codec, e: Event, id: PaymentId, correlationId: Option<string>, now: Instant)
    requires HasBase(e.attrs, id, correlationId, now)
    ensures TellsBase(c, Serialization.Serialize(c, e), Serialization.NameOf(e.kind), id, correlationId, now)
  {
    hide Serialization.Serialize, Serialization.NameOf, Holds, HoldsText;
    NameIsSerialized(c, e);
    AttributeIsSerialized(c, e, "aggregate_id", Serialization.Uuid(id));
    AttributeIsSerialized(c, e, "occurred_at", Serialization.Date(now));
    TextIsSerialized(c, e, "correlation_id", correlationId);
  }

  ghost predicate HasCommand(attrs: Serialization.Data, d: PaymentData) {
    && Holds(attrs, "amount", Serialization.Str(d.amount))
    && Holds(attrs, "currency", Serialization.Str(d.currency))
    && HoldsText(attrs, "description", d.description)
    && Holds(attrs, "metadata", Serialization.Dict(d.metadata))
    && Holds(attrs, "webhook_url", Serialization.Str(d.webhookUrl))
    && Holds(attrs, "idempotency_key", Serialization.Str(d.idempotencyKey))
    && Holds(attrs, "created_at", Serialization.Date(d.createdAt))
  }

  lemma CreatedFieldsHold(d: PaymentData)
    ensures HasCommand(CreatedFields(d), d)
  {
  }

  lemma CreatedHasBase(id: PaymentId, d: PaymentData)
    ensures HasBase(CreatedEvent(id, d).attrs, id, d.correlationId, d.createdAt)
  {
  }

  lemma CreatedHasCommand(id: PaymentId, d: PaymentData)
    ensures HasCommand(CreatedEvent(id, d).attrs, d)
  {
    hide BaseFields, CreatedFields, Text;
    CreatedFieldsHold(d);
  }

  lemma CommandIsSerialized(c: Serialization.Codec, e: Event, d: PaymentData)
    requires HasCommand(e.attrs, d)
    ensures TellsCommand(c, Serialization.Serialize(c, e), d)
  {
    hide Serialization.Serialize, Holds, HoldsText;
    AttributeIsSerialized(c, e, "amount", Serialization.Str(d.amount));
    AttributeIsSerialized(c, e, "currency", Serialization.Str(d.currency));
    TextIsSerialized(c, e, "description", d.description);
    AttributeIsSerialized(c, e, "metadata", Serialization.Dict(d.metadata));
    AttributeIsSerialized(c, e, "webhook_url", Serialization.Str(d.webhookUrl));
    AttributeIsSerialized(c, e, "idempotency_key", Serialization.Str(d.idempotencyKey));
    AttributeIsSerialized(c, e, "created_at", Serialization.Date(d.createdAt));
  }

  lemma CreatedPayload(c: Serialization.Codec, id: PaymentId, d: PaymentData)
    ensures var payload := Serialization.Serialize(c, CreatedEvent(id, d));
            && TellsBase(c, payload, "PaymentCreated", id, d.correlationId, d.createdAt)
            && TellsCommand(c, payload, d)
  {
    hide TellsBase, TellsCommand, HasBase, HasCommand, Serialization.Serialize, BaseFields, CreatedFields;
    var e := CreatedEvent(id, d);
    CreatedHasBase(id, d);
    CreatedHasCommand(id, d);
    BaseIsSerialized(c, e, id, d.correlationId, d.createdAt);
    CommandIsSerialized(c, e, d);
  }

  /** The payloads of the three other events: which transition it was, of which payment, when, and why it failed. */
  lemma TransitionPayloads(c: Serialization.Codec, id: PaymentId, correlationId: Option<string>, now: Instant,
                           reason: Option<string>)
    ensures var payload := Serialization.Serialize(c, StartedEvent(id, correlationId, now));
            TellsBase(c, payload, "PaymentProcessingStarted", id, correlationId, now)
    ensures var payload := Serialization.Serialize(c, FinishedEvent(id, correlationId, now, true, reason));
            && TellsBase(c, payload, "PaymentSucceeded", id, correlationId, now)
            && Holds(payload, "processed_at", Serialization.Str(c.iso(now)))
    ensures var payload := Serialization.Serialize(c, FinishedEvent(id, correlationId, now, false, reason));
            && TellsBase(c, payload, "PaymentFailed", id, correlationId, now)
            && Holds(payload, "processed_at", Serialization.Str(c.iso(now)))
            && HoldsText(payload, "reason", reason)
  {
    TransitionAttrs(id, correlationId, now, reason);
    var started, succeeded := StartedEvent(id, correlationId, now), FinishedEvent(id, correlationId, now, true, reason);
    var failed := FinishedEvent(id, correlationId, now, false, reason);
    hide TellsBase, HasBase, Serialization.Serialize, Holds, HoldsText, BaseFields;
    BaseIsSerialized(c, started, id, correlationId, now);
    BaseIsSerialized(c, succeeded, id, correlationId, now);
    BaseIsSerialized(c, failed, id, correlationId, now);
    AttributeIsSerialized(c, succeeded, "processed_at", Serialization.Date(now));
    AttributeIsSerialized(c, failed, "processed_at", Serialization.Date(now));
    TextIsSerialized(c, failed, "reason", reason);
  }

  lemma TransitionAttrs(id: PaymentId, correlationId: Option<string>, now: Instant, reason: Option<string>)
    ensures HasBase(StartedEvent(id, correlationId, now).attrs, id, correlationId, now)
    ensures HasBase(FinishedEvent(id, correlationId, now, true, reason).attrs, id, correlationId, now)
    ensures HasBase(FinishedEvent(id, correlationId, now, false, reason).attrs, id, correlationId, now)
    ensures Holds(FinishedEvent(id, correlationId, now, true, reason).attrs, "processed_at", Serialization.Date(now))
    ensures Holds(FinishedEvent(id, correlationId, now, false, reason).attrs, "processed_at", Serialization.Date(now))
    ensures HoldsText(FinishedEvent(id, correlationId, now, false, reason).attrs, "reason", reason)
  {
  }

  // ---------------------------------------------------------------------------
  // Entities
  // ---------------------------------------------------------------------------

  predicate AttemptMayBecome(current: AttemptStatus, target: AttemptStatus) {
    || (current.AttemptCreated? && target.AttemptProcessing?)
    || (current.AttemptProcessing? && (target.AttemptSucceeded? || target.AttemptFailed?))
  }

  class PaymentAttempt {
    const id: AttemptId
    const payment: PaymentId
    const number: nat
    const correlationId: Option<string>
    const createdAt: Time
    var status: AttemptStatus
    var error: Option<string>
    var response: Option<Value>
    var updatedAt: Time

    function Record(): AttemptRecord
      reads this
    {
      AttemptRecord(payment, number, status, error, response, correlationId, createdAt, updatedAt)
    }

    constructor FromRecord(id: AttemptId, r: AttemptRecord)
      ensures this.id == id && Record() == r
    {
      this.id, payment, number, correlationId, createdAt := id, r.payment, r.number, r.correlationId, r.createdAt;
      status, error, response, updatedAt := r.status, r.error, r.response, r.updatedAt;
    }

    constructor Create(id: AttemptId, payment: PaymentId, number: nat, correlationId: Option<string>, createdAt: Time)
      ensures this.id == id
      ensures Record() ==
                AttemptRecord(payment, number, AttemptCreated, None, None, correlationId, createdAt, createdAt)
    {
      this.id, this.payment, this.number := id, payment, number;
      this.correlationId, this.createdAt := correlationId, createdAt;
      status, error, response, updatedAt := AttemptCreated, None, None, createdAt;
    }

    method Transition(target: AttemptStatus) returns (valid: bool)
      modifies this`status
      ensures valid <==> AttemptMayBecome(old(status), target)
      ensures status == if valid then target else old(status)
    {
      valid := AttemptMayBecome(status, target);
      if valid {
        status := target;
      }
    }

    method Start(now: Instant) returns (valid: bool)
      modifies this
      ensures valid <==> old(status).AttemptCreated?
      ensures Record() == if valid then old(Record()).(status := AttemptProcessing, updatedAt := now) else old(Record())
    {
      valid := Transition(AttemptProcessing);
      if valid {
        updatedAt := now;
      }
    }

    method Succeed(now: Instant, result: GatewayResult) returns (valid: bool)
      modifies this
      ensures valid <==> old(status).AttemptProcessing?
      ensures Record() == if !valid then old(Record()) else
                old(Record()).(status := AttemptSucceeded, response := result.raw, error := None, updatedAt := now)
    {
      valid := Transition(AttemptSucceeded);
      if valid {
        response, error, updatedAt := result.raw, None, now;
      }
    }

    method Fail(now: Instant, error: Option<string>) returns (valid: bool)
      modifies this
      ensures valid <==> old(status).AttemptProcessing?
      ensures Record() == if !valid then old(Record()) else
                old(Record()).(status := AttemptFailed, error := error, updatedAt := now)
    {
      valid := Transition(AttemptFailed);
      if valid {
        this.error, updatedAt := error, now;
      }
    }
  }

  class Payment {
    const id: PaymentId
    const data: PaymentData
    var status: PaymentStatus
    var version: nat
    var processedAt: Option<Time>
    var events: seq<Event>
    var attempts: seq<PaymentAttempt>

    /** The state the table row keeps. */
    function Row(): PaymentRow
      reads this
    {
      PaymentRow(status, version, processedAt)
    }

    /** Numbers and statuses of the attempts. */
    function AttemptRows(): seq<AttemptRow>
      reads this, attempts
    {
      seq(|attempts|,
          i requires 0 <= i < |attempts| reads this, attempts => AttemptRow(attempts[i].number, attempts[i].status))
    }

    constructor FromRow(id: PaymentId, data: PaymentData, row: PaymentRow)
      ensures this.id == id && this.data == data && Row() == row && events == [] && attempts == []
    {
      this.id, this.data := id, data;
      status, version, processedAt, events, attempts := row.status, row.version, row.processedAt, [], [];
    }

    constructor Create(id: PaymentId, data: PaymentData)
      ensures this.id == id && this.data == data && Row() == NEW_PAYMENT
      ensures events == [CreatedEvent(id, data)] && attempts == []
    {
      this.id, this.data := id, data;
      status, version, processedAt, attempts := Pending, 0, None, [];
      events := [CreatedEvent(id, data)];
    }

    method Transition(target: PaymentStatus) returns (valid: bool)
      modifies this`status
      ensures valid <==> MayBecome(old(status), target)
      ensures status == if valid then target else old(status)
    {
      valid := MayBecome(status, target);
      if valid {
        status := target;
      }
    }

    method MarkProcessing(now: Instant) returns (valid: bool)
      modifies this`status, this`version, this`events
      ensures valid <==> old(status).Pending?
      ensures var marked := Marked(old(Row()), Processing, now);
              valid == marked.Some? && Row() == if valid then marked.value else old(Row())
      ensures valid ==> Row() == PaymentRow(Processing, old(version) + 1, old(processedAt))
      ensures events == old(events) + if valid then [StartedEvent(id, data.correlationId, now)] else []
    {
      valid := Transition(Processing);
      if valid {
        version := version + 1;
        events := events + [StartedEvent(id, data.correlationId, now)];
      }
    }

    method MarkSucceeded(now: Instant) returns (valid: bool)
      modifies this`status, this`version, this`processedAt, this`events
      ensures valid <==> old(status).Processing?
      ensures var marked := Marked(old(Row()), Succeeded, now);
              valid == marked.Some? && Row() == if valid then marked.value else old(Row())
      ensures valid ==> Row() == PaymentRow(Succeeded, old(version) + 1, Some(now))
      ensures events == old(events) + if valid then [FinishedEvent(id, data.correlationId, now, true, None)] else []
    {
      valid := Transition(Succeeded);
      if valid {
        processedAt, version := Some(now), version + 1;
        events := events + [FinishedEvent(id, data.correlationId, now, true, None)];
      }
    }

    method MarkFailed(now: Instant, reason: Option<string>) returns (valid: bool)
      modifies this`status, this`version, this`processedAt, this`events
      ensures valid <==> old(status).Processing?
      ensures var marked := Marked(old(Row()), Failed, now);
              valid == marked.Some? && Row() == if valid then marked.value else old(Row())
      ensures valid ==> Row() == PaymentRow(Failed, old(version) + 1, Some(now))
      ensures events == old(events) + if valid then [FinishedEvent(id, data.correlationId, now, false, reason)] else []
    {
      valid := Transition(Failed);
      if valid {
        processedAt, version := Some(now), version + 1;
        events := events + [FinishedEvent(id, data.correlationId, now, false, reason)];
      }
    }

    method HydrateAttempts(stored: seq<PaymentAttempt>)
      modifies this`attempts
      ensures attempts == stored
    {
      attempts := stored;
    }

    /** max(number of every attempt, default 0) + 1 */
    method NextAttemptNumber() returns (number: nat)
      ensures number == NextNumber(AttemptRows())
    {
      hide NextNumber;
      var largest := 0;
      ghost var rows := AttemptRows();
      NoNumberYet();
      for i := 0 to |attempts|
        invariant largest + 1 == NextNumber(rows[..i])
      {
        NextNumberOneMore(rows, i);
        if attempts[i].number > largest {
          largest := attempts[i].number;
        }
      }
      assert rows[..|attempts|] == rows;
      number := largest + 1;
    }

    /** A new attempt, started, numbered one above all the payment has; refused unless the payment is processing. */
    method BeginAttempt(attemptId: AttemptId, correlationId: Option<string>, now: Instant)
      returns (attempt: PaymentAttempt?)
      modifies this`attempts
      ensures attempt != null <==> status.Processing?
      ensures attempt == null ==> attempts == old(attempts)
      ensures attempt != null ==>
                && fresh(attempt) && attempt.id == attemptId && attempts == old(attempts) + [attempt]
                && attempt.Record() == AttemptRecord(id, NextNumber(old(AttemptRows())), AttemptProcessing, None, None,
                                                     correlationId, now, now)
    {
      if !status.Processing? {
        return null;
      }
      var number := NextAttemptNumber();
      attempt := new PaymentAttempt.Create(attemptId, id, number, correlationId, now);
      var started := attempt.Start(now);
      attempts := attempts + [attempt];
    }

    /** The attempt the next result belongs to. */
    function Current(): PaymentAttempt?
      reads this
    {
      if attempts == [] then null else attempts[|attempts| - 1]
    }

    method SucceedAttempt(now: Instant, result: GatewayResult) returns (valid: bool)
      modifies Current()
      ensures valid <==> status.Processing? && Current() != null && old(Current().status).AttemptProcessing?
      ensures Current() != null && !valid ==> Current().Record() == old(Current().Record())
      ensures valid ==> Current().Record() ==
                        old(Current().Record()).(status := AttemptSucceeded, response := result.raw, error := None,
                                                 updatedAt := now)
    {
      valid := status.Processing? && attempts != [];
      if valid {
        valid := attempts[|attempts| - 1].Succeed(now, result);
      }
    }

    method FailAttempt(now: Instant, error: Option<string>) returns (valid: bool)
      modifies Current()
      ensures valid <==> status.Processing? && Current() != null && old(Current().status).AttemptProcessing?
      ensures Current() != null && !valid ==> Current().Record() == old(Current().Record())
      ensures valid ==>
                Current().Record() ==
                  old(Current().Record()).(status := AttemptFailed, error := error, updatedAt := now)
    {
      valid := status.Processing? && attempts != [];
      if valid {
        valid := attempts[|attempts| - 1].Fail(now, error);
      }
    }

    method PullEvents() returns (pulled: seq<Event>)
      modifies this`events
      ensures pulled == old(events) && events == []
    {
      pulled, events := events, [];
    }
  }
}
