/** The create handler as written, against the state machines the concurrent results are proved about: what an
    undisturbed call leaves in the tables is what the machine's four steps leave in its state, and the outbox row it
    writes is the message the pipeline goes on with. */
module CreationRefinement {
  import opened Types
  import opened PaymentRules
  import opened PaymentAggregate
  import opened UnitOfWork
  import opened Handlers
  import C = Creation
  import Broker
  import Pipeline
  import Serialization

  /** `acts`, one after the other, lead from s to s'. */
  ghost predicate LeadsTo(s: C.State, acts: seq<C.Action>, s': C.State)
    decreases |acts|
  {
    if acts == [] then s' == s
    else C.Enabled(s, acts[0]) && LeadsTo(C.Apply(s, acts[0]), acts[1..], s')
  }

  /** The tables hold the machine's payments with their keys, and every message says what the pipeline takes it to say:
      that it is a PaymentCreated of the payment the machine has it for. */
  ghost predicate Shows(codec: Serialization.Codec, t: Tables, s: C.State) {
    && s.payments == Keys(t.payments)
    && forall m | m in t.outbox ::
         m in s.outbox && Serialization.BodyOf(codec, t.outbox[m].payload) == Pipeline.BodyOf(s.outbox[m])
  }

  function CallSteps(r: C.RequestId, key: string, id: PaymentId, msg: MessageId): seq<C.Action> {
    [C.Start(r, key, id, msg), C.TryInsert(r), C.CollectEvents(r), C.Commit(r)]
  }

  /** A new request, and ids nobody has drawn. */
  ghost predicate Fresh(s: C.State, r: C.RequestId, id: PaymentId, msg: MessageId) {
    r !in s.requests && id !in s.drawnPids && msg !in s.drawnMsgs
  }

  lemma StartHoldsNoKey(s: C.State, r: C.RequestId, key: string, id: PaymentId, msg: MessageId)
    requires Fresh(s, r, id, msg) && !C.KeyHeld(s, key)
    ensures C.Enabled(s, C.Start(r, key, id, msg)) && !C.KeyHeld(C.Apply(s, C.Start(r, key, id, msg)), key)
  {
    var s1 := C.Apply(s, C.Start(r, key, id, msg));
    assert forall x | x in s1.requests && x != r :: x in s.requests && s.requests[x] == s1.requests[x];
  }

  lemma MachineCreates(s: C.State, r: C.RequestId, key: string, id: PaymentId, msg: MessageId) returns (s': C.State)
    requires Fresh(s, r, id, msg) && !KeyTaken(s.payments, key) && !C.KeyHeld(s, key)
    ensures LeadsTo(s, CallSteps(r, key, id, msg), s')
    ensures s'.payments == s.payments[id := key] && s'.outbox == s.outbox[msg := id]
    ensures r in s'.requests && s'.requests[r] == C.Returned(key, id)
  {
    var acts := CallSteps(r, key, id, msg);
    var s1 := C.Apply(s, acts[0]);
    StartHoldsNoKey(s, r, key, id, msg);
    var s2 := C.Apply(s1, acts[1]);
    var s3 := C.Apply(s2, acts[2]);
    s' := C.Apply(s3, acts[3]);
    assert acts[3..] == [C.Commit(r)] && acts[2..][1..] == acts[3..] && acts[1..][1..] == acts[2..];
    assert LeadsTo(s3, acts[3..], s');
    assert LeadsTo(s2, acts[2..], s');
    assert LeadsTo(s1, acts[1..], s');
  }

  /** What creating a payment leaves in the tables is shown by the machine's state after its insertion. */
  lemma CreatedShows(codec: Serialization.Codec, before: Tables, after: Tables, id: PaymentId, data: PaymentData,
                     msg: MessageId, s: C.State, s': C.State)
    requires Serialization.Faithful(codec) && Shows(codec, before, s)
    requires CreatedBy(codec, before, after, id, data, msg)
    requires s'.payments == s.payments[id := data.idempotencyKey] && s'.outbox == s.outbox[msg := id]
    ensures Shows(codec, after, s')
  {
    hide Announces, Serialization.BodyOf, CreatedEvent, OutboxRowOf;
    NewRowAnnounces(codec, id, data);
    AnnouncedIsProcessed(codec, after.outbox[msg], id, data, Broker.NotAList, 1);
  }

  /** A call that creates a payment does in the tables what the machine does in its state: the machine can take the
      call's steps, answers the same, and has the same payments and the same message for the consumer. */
  lemma CreateFollowsMachine(codec: Serialization.Codec, before: Tables, after: Tables, id: PaymentId,
                             data: PaymentData, msg: MessageId, s: C.State, r: C.RequestId)
    requires Serialization.Faithful(codec) && Shows(codec, before, s)
    requires Fresh(s, r, id, msg) && !C.KeyHeld(s, data.idempotencyKey)
    requires !KeyTaken(Keys(before.payments), data.idempotencyKey)
    requires CreatedBy(codec, before, after, id, data, msg)
    ensures exists s' ::
              && LeadsTo(s, CallSteps(r, data.idempotencyKey, id, msg), s') && Shows(codec, after, s')
              && r in s'.requests && s'.requests[r] == C.Returned(data.idempotencyKey, id)
  {
    var s' := MachineCreates(s, r, data.idempotencyKey, id, msg);
    hide LeadsTo, Shows, CreatedBy;
    CreatedShows(codec, before, after, id, data, msg, s, s');
  }

  /** A call whose key is taken: the machine's insert is skipped, it finds the payment that has the key, answers with it
      and commits nothing new. */
  lemma FindFollowsMachine(s: C.State, r: C.RequestId, key: string, id: PaymentId, msg: MessageId, existing: PaymentId)
    requires Fresh(s, r, id, msg) && !C.KeyHeld(s, key) && existing in s.payments && s.payments[existing] == key
    ensures exists s' ::
              && LeadsTo(s, [C.Start(r, key, id, msg), C.TryInsert(r), C.Lookup(r, Some(existing)), C.Commit(r)], s')
              && s'.payments == s.payments && s'.outbox == s.outbox
              && r in s'.requests && s'.requests[r] == C.Returned(key, existing)
  {
    var acts := [C.Start(r, key, id, msg), C.TryInsert(r), C.Lookup(r, Some(existing)), C.Commit(r)];
    var s1 := C.Apply(s, acts[0]);
    StartHoldsNoKey(s, r, key, id, msg);
    var s2 := C.Apply(s1, acts[1]);
    var s3 := C.Apply(s2, acts[2]);
    var s' := C.Apply(s3, acts[3]);
    assert acts[3..] == [C.Commit(r)] && acts[2..][1..] == acts[3..] && acts[1..][1..] == acts[2..];
    assert LeadsTo(s3, acts[3..], s');
    assert LeadsTo(s2, acts[2..], s');
    assert LeadsTo(s1, acts[1..], s');
  }
}
