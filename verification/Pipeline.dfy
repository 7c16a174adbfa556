/** The whole pipeline as one state machine: create requests, outbox workers, the broker's copies of every
    published message, and the consumers' processing transactions, interleaved in any order and crashing
    anywhere. The parts are the state machines of Creation, Lease and Processing; this module adds the
    broker and says which steps happen together. */
module Pipeline {
  import opened Types
  import opened PaymentRules
  import opened Broker
  import Creation
  import Lease
  import Processing

  datatype Config = Config(lease: Lease.Config, maxRetries: int, mainQueue: string, retryQueue: string)

  /** What a consumer is doing with a delivered, unacknowledged copy. */
  datatype Step = Received | Running | ToAck | ToNack | ToDlq

  datatype Place = InMain | Handling(step: Step) | InRetry | Gone

  /** One broker message. `inDlq`: a copy of it reached the DLQ. History: the handler runs started for it, which of
      them charged, and how often a delivery was cut off without an answer. */
  datatype Copy = Copy(place: Place, deaths: XDeath, inDlq: bool, runs: nat, charged: set<nat>, losses: nat)

  const NEW_COPY := Copy(InMain, NotAList, false, 0, {}, 0)

  datatype State = State(
    api: Creation.State,
    lease: Lease.State,
    proc: Processing.State,
    copies: map<CopyId, Copy>)

  datatype Action =
    | Api(request: Creation.Action, at: Time)
    | Worker(act: Lease.Action, left: set<CopyId>)
    | Handler(tx: Processing.Action)
    | Deliver(c: CopyId)
    | Dispatch(c: CopyId)
    | HandlerEnds(c: CopyId)
    | DlqPublish(c: CopyId, accepted: bool, kept: bool)
    | Ack(c: CopyId)
    | Nack(c: CopyId)
    | Expire(c: CopyId)
    | ConsumerCrash(c: CopyId)
    | ChannelLost(c: CopyId)

  /** The publishes that end with this worker step, each named by the copy it may have left in the broker. */
  ghost function Ending(s: Lease.State, a: Lease.Action): set<CopyId> {
    match a
    case FinishPublish(w, id, _) =>
      if w in s.workers && s.workers[w].Publishing? && id in s.workers[w].batch
      then {CopyId(id, s.workers[w].batch[id])}
      else {}
    case Crash(w) =>
      set id, k | id in s.messages && 0 <= k < |s.messages[id].claims|
                  && s.messages[id].claims[k].worker == w
                  && s.messages[id].claims[k].start.Some? && s.messages[id].claims[k].finish.None? :: CopyId(id, k + 1)
    case _ => {}
  }

  /** Commit of a request that inserts: payment row and outbox row appear together. */
  predicate Creates(s: Creation.State, a: Creation.Action) {
    a.Commit? && a.r in s.requests && s.requests[a.r].Staged?
  }

  /** The message body the outbox stored: a PaymentCreated event naming its payment. */
  function BodyOf(pid: PaymentId): Body {
    Object(Some(PAYMENT_CREATED), Some(pid))
  }

  predicate At(s: State, c: CopyId, place: Place) {
    c in s.copies && s.copies[c].place == place
  }

  /** The latest handler run of a copy. */
  function Current(s: State, c: CopyId): RunId
    requires c in s.copies
  {
    RunId(c, s.copies[c].runs)
  }

  predicate IsHandlerStep(a: Processing.Action) {
    !a.Create? && !a.Begin?
  }

  ghost predicate Enabled(cfg: Config, s: State, a: Action) {
    match a
    case Api(request, at) =>
      && Creation.Enabled(s.api, request)
      && (Creates(s.api, request) ==>
            && Lease.Enabled(cfg.lease, s.lease, Lease.Insert(s.api.requests[request.r].msg, at))
            && Processing.Enabled(s.proc, Processing.Create(s.api.requests[request.r].pid)))
    case Worker(act, left) =>
      && !act.Insert?
      && Lease.Enabled(cfg.lease, s.lease, act)
      && left <= Ending(s.lease, act)
      && (act.FinishPublish? && act.ok ==> left == Ending(s.lease, act))
    case Handler(tx) => IsHandlerStep(tx) && tx.t.copy in s.copies && Processing.Enabled(s.proc, tx)
    case Deliver(c) => At(s, c, InMain)
    case Dispatch(c) =>
      && At(s, c, Handling(Received)) && c.message in s.api.outbox
      && Processing.Enabled(s.proc, Processing.Begin(RunId(c, s.copies[c].runs + 1), s.api.outbox[c.message]))
    case HandlerEnds(c) =>
      && At(s, c, Handling(Running))
      && Current(s, c) in s.proc.txs && Processing.Finished(s.proc.txs[Current(s, c)])
    case DlqPublish(c, _, _) => At(s, c, Handling(ToDlq))
    case Ack(c) => At(s, c, Handling(ToAck))
    case Nack(c) => At(s, c, Handling(ToNack))
    case Expire(c) => At(s, c, InRetry)
    case ConsumerCrash(c) => c in s.copies && s.copies[c].place.Handling?
    case ChannelLost(c) => c in s.copies && s.copies[c].place.Handling?
  }

  function Put(s: State, c: CopyId, copy: Copy): State {
    s.(copies := s.copies[c := copy])
  }

  predicate Unfinished(s: State, t: RunId) {
    t in s.proc.txs && !Processing.Finished(s.proc.txs[t])
  }

  /** The broker takes an unanswered delivery back. */
  function Requeued(k: Copy): Copy {
    k.(place := InMain, losses := k.losses + 1)
  }

  ghost function Apply(cfg: Config, s: State, a: Action): State
    requires Enabled(cfg, s, a)
  {
    match a
    case Api(request, at) =>
      var s1 := s.(api := Creation.Apply(s.api, request));
      if Creates(s.api, request) then
        s1.(lease := Lease.Apply(cfg.lease, s.lease, Lease.Insert(s.api.requests[request.r].msg, at)),
            proc := Processing.Apply(s.proc, Processing.Create(s.api.requests[request.r].pid)))
      else s1
    case Worker(act, left) =>
      s.(lease := Lease.Apply(cfg.lease, s.lease, act),
         copies := map c | c in s.copies.Keys + left :: if c in s.copies then s.copies[c] else NEW_COPY)
    case Handler(tx) =>
      var s1 := s.(proc := Processing.Apply(s.proc, tx));
      if tx.Charge?
      then Put(s1, tx.t.copy, s.copies[tx.t.copy].(charged := s.copies[tx.t.copy].charged + {tx.t.run}))
      else s1
    case Deliver(c) => Put(s, c, s.copies[c].(place := Handling(Received)))
    case Dispatch(c) =>
      (match RouteOf(BodyOf(s.api.outbox[c.message]), s.copies[c].deaths, cfg.maxRetries)
       case Process(pid) =>
         Put(s, c, s.copies[c].(place := Handling(Running), runs := s.copies[c].runs + 1)).(
         proc := Processing.Apply(s.proc, Processing.Begin(RunId(c, s.copies[c].runs + 1), pid)))
       case SendToDlq => Put(s, c, s.copies[c].(place := Handling(ToDlq)))
       case Ignore => Put(s, c, s.copies[c].(place := Handling(ToAck)))
       case Raise => Put(s, c, s.copies[c].(place := Handling(ToNack))))
    case HandlerEnds(c) =>
      var answer := if s.proc.txs[Current(s, c)].Done? then ToAck else ToNack;
      Put(s, c, s.copies[c].(place := Handling(answer)))
    case DlqPublish(c, accepted, kept) =>
      Put(s, c, s.copies[c].(place := Handling(if accepted then ToAck else ToNack),
                             inDlq := s.copies[c].inDlq || accepted || kept))
    case Ack(c) => Put(s, c, s.copies[c].(place := Gone))
    case Nack(c) =>
      Put(s, c, s.copies[c].(place := InRetry, deaths := Bury(s.copies[c].deaths, cfg.mainQueue, REJECTED)))
    case Expire(c) =>
      Put(s, c, s.copies[c].(place := InMain, deaths := Bury(s.copies[c].deaths, cfg.retryQueue, EXPIRED)))
    case ConsumerCrash(c) =>
      var s1 := Put(s, c, Requeued(s.copies[c]));
      if Unfinished(s, Current(s, c)) then s1.(proc := Processing.Apply(s.proc, Processing.Rollback(Current(s, c))))
        else s1
    case ChannelLost(c) => Put(s, c, Requeued(s.copies[c]))
  }

  ghost predicate Init(s: State) {
    Creation.Init(s.api) && Lease.Init(s.lease) && Processing.Init(s.proc) && s.copies == map[]
  }
}
