/** The consumer's routing rules and the dead-letter cycle main -> retry -> main they rely on. */
module Broker {
  import opened Types
  import opened PaymentRules

  // ---------------------------------------------------------------------------
  // x-death
  // ---------------------------------------------------------------------------

  /** The count of an entry: absent, something `int()` reads, or something it raises on. */
  datatype Count = Missing | Number(n: int) | Unreadable

  datatype DeathEntry = NotADict | Dict(queue: string, reason: string, count: Count)

  datatype XDeath = NotAList | Entries(entries: seq<DeathEntry>)

  const REJECTED := "rejected"
  const EXPIRED := "expired"

  /** What an entry adds to the sum; None when `int()` raises. */
  function EntryCount(e: DeathEntry): Option<int> {
    if !e.Dict? || e.reason != REJECTED then Some(0)
    else
      match e.count
      case Missing => Some(1)
      case Number(n) => Some(n)
      case Unreadable => None
  }

  function Plus(a: Option<int>, b: Option<int>): Option<int> {
    if a.Some? && b.Some? then Some(a.value + b.value) else None
  }

  function SumRejected(entries: seq<DeathEntry>): Option<int> {
    if entries == [] then Some(0) else Plus(EntryCount(entries[0]), SumRejected(entries[1..]))
  }

  /** `_rejected_count`; None when it raises. */
  function RejectedCount(x: XDeath): Option<int> {
    match x
    case NotAList => Some(0)
    case Entries(entries) => SumRejected(entries)
  }

  predicate SameDeath(e: DeathEntry, queue: string, reason: string) {
    e.Dict? && e.queue == queue && e.reason == reason
  }

  /** Index of the entry for this queue and reason, or the length when there is none. */
  function FindDeath(entries: seq<DeathEntry>, queue: string, reason: string): (i: nat)
    ensures i <= |entries|
    ensures i < |entries| ==> SameDeath(entries[i], queue, reason)
  {
    if entries == [] then 0
    else if SameDeath(entries[0], queue, reason) then 0
    else 1 + FindDeath(entries[1..], queue, reason)
  }

  function OneMore(count: Count): Count {
    match count
    case Missing => Number(2)
    case Number(n) => Number(n + 1)
    case Unreadable => Unreadable
  }

  /** RabbitMQ's bookkeeping on a dead-letter event: the entry of (queue, reason) moves to the front with its
      count raised; a first event adds an entry with count 1. */
  function Bury(x: XDeath, queue: string, reason: string): XDeath {
    match x
    case NotAList => Entries([Dict(queue, reason, Number(1))])
    case Entries(entries) =>
      var i := FindDeath(entries, queue, reason);
      if i == |entries| then Entries([Dict(queue, reason, Number(1))] + entries)
      else Entries([Dict(queue, reason, OneMore(entries[i].count))] + (entries[..i] + entries[i + 1..]))
  }

  lemma {:induction false} FindDeathIsFirst(entries: seq<DeathEntry>, queue: string, reason: string)
    ensures forall j | 0 <= j < FindDeath(entries, queue, reason) :: !SameDeath(entries[j], queue, reason)
  {
    if entries != [] && !SameDeath(entries[0], queue, reason) {
      FindDeathIsFirst(entries[1..], queue, reason);
      forall j | 0 <= j < FindDeath(entries, queue, reason) ensures !SameDeath(entries[j], queue, reason) {
        if j > 0 {
          assert entries[j] == entries[1..][j - 1];
        }
      }
    }
  }

  /** The header after a dead-letter event, entry by entry: the first entry of that queue and reason comes to the front
      with one more (an entry without a count counted 1), or a new one with 1 does, and the others stay in order. */
  lemma BuryExactly(entries: seq<DeathEntry>, queue: string, reason: string) returns (i: nat)
    ensures i <= |entries|
    ensures forall j | 0 <= j < i :: entries[j].Dict? && entries[j].queue == queue ==> entries[j].reason != reason
    ensures i < |entries| ==> entries[i].Dict? && entries[i].queue == queue && entries[i].reason == reason
    ensures Bury(Entries(entries), queue, reason) == Entries(
              if i == |entries| then [Dict(queue, reason, Number(1))] + entries
              else [Dict(queue, reason,
                         match entries[i].count
                         case Missing => Number(2)
                         case Number(k) => Number(k + 1)
                         case Unreadable => Unreadable)] + (entries[..i] + entries[i + 1..]))
  {
    FindDeathIsFirst(entries, queue, reason);
    i := FindDeath(entries, queue, reason);
    hide FindDeath;
  }

  lemma {:induction false} SumRemoved(entries: seq<DeathEntry>, i: nat)
    requires i < |entries|
    ensures SumRejected(entries) == Plus(EntryCount(entries[i]), SumRejected(entries[..i] + entries[i + 1..]))
  {
    if i == 0 {
      assert entries[..0] + entries[1..] == entries[1..];
    } else {
      SumRemoved(entries[1..], i - 1);
      var rest := entries[..i] + entries[i + 1..];
      assert rest[0] == entries[0] && rest[1..] == entries[1..][..i - 1] + entries[1..][i..];
    }
  }

  /** What the consumer counts: every entry with reason "rejected" adds its count, or 1 when it has none, wherever it
      stands, and makes the whole count unreadable when its own is; any other entry adds nothing. */
  lemma EntriesAddUp(a: seq<DeathEntry>, e: DeathEntry, b: seq<DeathEntry>)
    ensures RejectedCount(NotAList) == RejectedCount(Entries([])) == Some(0)
    ensures var rest, all := RejectedCount(Entries(a + b)), RejectedCount(Entries(a + [e] + b));
            if !(e.Dict? && e.reason == "rejected") then all == rest
            else if rest.None? || e.count.Unreadable? then all == None
            else all == Some(rest.value + if e.count.Missing? then 1 else e.count.n)
  {
    SumRemoved(a + [e] + b, |a|);
    assert (a + [e] + b)[..|a|] + (a + [e] + b)[|a| + 1..] == a + b;
  }

  /** Whatever the header looked like, a rejection raises the retry count by one, and nothing else changes it: the
      consumer's count is the number of its own nacks. A count that cannot be read stays so. */
  lemma BuryCounts(x: XDeath, queue: string, reason: string)
    ensures RejectedCount(Bury(x, queue, reason)) == Plus(RejectedCount(x), Some(if reason == REJECTED then 1 else 0))
  {
    if x.NotAList? {
      var first := Dict(queue, reason, Number(1));
      assert [first][1..] == [];
      assert SumRejected([first]) == Plus(EntryCount(first), Some(0));
    } else {
      var i := FindDeath(x.entries, queue, reason);
      if i < |x.entries| {
        SumRemoved(x.entries, i);
        var rest := x.entries[..i] + x.entries[i + 1..];
        assert ([Dict(queue, reason, OneMore(x.entries[i].count))] + rest)[1..] == rest;
      } else {
        assert ([Dict(queue, reason, Number(1))] + x.entries)[1..] == x.entries;
      }
    }
  }

  // ---------------------------------------------------------------------------
  // Routing
  // ---------------------------------------------------------------------------

  datatype Body = Undecodable | NotAnObject | Object(eventType: Option<string>, aggregateId: Option<PaymentId>)

  const PAYMENT_CREATED := "PaymentCreated"

  datatype Route = SendToDlq | Ignore | Process(payment: PaymentId) | Raise

  /** `_route` up to the point where it acts. */
  function RouteOf(body: Body, deaths: XDeath, maxRetries: int): Route {
    match body
    case Undecodable => SendToDlq
    case NotAnObject => SendToDlq
    case Object(eventType, aggregateId) =>
      if eventType != Some(PAYMENT_CREATED) then Ignore
      else if RejectedCount(deaths).None? then Raise
      else if RejectedCount(deaths).value >= maxRetries then SendToDlq
      else if aggregateId.None? then Raise
      else Process(aggregateId.value)
  }

  /** What the process handler does with a message: an outcome, or an exception. */
  datatype Handled = Returned(outcome: Outcome) | Threw

  class Delivery {
    const body: Body
    const deaths: XDeath
    var acked: bool
    var nacked: bool

    constructor (body: Body, deaths: XDeath)
      ensures this.body == body && this.deaths == deaths && !acked && !nacked
    {
      this.body, this.deaths := body, deaths;
      acked, nacked := false, false;
    }
  }

  class PaymentConsumerHandler {
    const maxRetries: int
    var dlq: seq<(Body, XDeath)>

    constructor (maxRetries: int)
      ensures this.maxRetries == maxRetries && dlq == []
    {
      this.maxRetries := maxRetries;
      dlq := [];
    }

    predicate BelongsInDlq(msg: Delivery) {
      || !msg.body.Object?
      || (&& msg.body.eventType == Some(PAYMENT_CREATED)
          && RejectedCount(msg.deaths).Some? && RejectedCount(msg.deaths).value >= maxRetries)
    }

    /** Publishes a copy to the DLQ with the original headers; `up` says whether the broker accepts it. */
    method PublishToDlq(msg: Delivery, up: bool) returns (threw: bool)
      modifies this
      ensures threw == !up
      ensures dlq == if up then old(dlq) + [(msg.body, msg.deaths)] else old(dlq)
    {
      if up {
        dlq := dlq + [(msg.body, msg.deaths)];
      }
      threw := !up;
    }

    /** Handles one delivery. Exactly one of ack and nack is sent. An unreadable message, or a PaymentCreated without
        retries left, belongs in the DLQ: it is copied there and acked, or nacked when that fails. A foreign event is
        acked. Any other PaymentCreated with an id and a readable retry count is processed, and acked exactly when the
        handler returned. */
    method Handle(msg: Delivery, handler: PaymentId -> Handled, up: bool) returns (processed: Option<PaymentId>)
      requires !msg.acked && !msg.nacked
      modifies this, msg
      ensures msg.acked != msg.nacked
      ensures processed.Some? <==>
                msg.body.Object? && msg.body.eventType == Some(PAYMENT_CREATED) && msg.body.aggregateId.Some?
                && RejectedCount(msg.deaths).Some? && RejectedCount(msg.deaths).value < maxRetries
      ensures processed.Some? ==> processed == msg.body.aggregateId
      ensures dlq == if BelongsInDlq(msg) && up then old(dlq) + [(msg.body, msg.deaths)] else old(dlq)
      ensures msg.acked <==>
                || (BelongsInDlq(msg) && up)
                || (msg.body.Object? && msg.body.eventType != Some(PAYMENT_CREATED))
                || (processed.Some? && handler(processed.value).Returned?)
    {
      processed := None;
      var threw := false;
      match RouteOf(msg.body, msg.deaths, maxRetries) {
        case SendToDlq =>
          threw := PublishToDlq(msg, up);
        case Ignore =>
        case Raise =>
          threw := true;
        case Process(payment) =>
          processed := Some(payment);
          threw := handler(payment).Threw?;
      }
      if threw {
        msg.nacked := true;
      } else {
        msg.acked := true;
      }
    }
  }

  // ---------------------------------------------------------------------------
  // Topology
  // ---------------------------------------------------------------------------

  datatype Settings = Settings(routingKey: string, queue: string, retryQueue: string)

  /** Bindings of the direct exchange: the subscriber binds the main queue under its own name,
      `declare_topology` binds the retry queue under its name. */
  function QueuesFor(s: Settings, key: string): set<string> {
    (if key == s.queue then {s.queue} else {}) + (if key == s.retryQueue then {s.retryQueue} else {})
  }

  /** Dead-letter routing keys of the two queues. */
  function DeadLetterKey(s: Settings, queue: string): Option<string> {
    if queue == s.queue then Some(s.retryQueue) else if queue == s.retryQueue then Some(s.routingKey) else None
  }

  /** With two distinct queues, a published message reaches exactly the main queue, a rejected one goes to the
      retry queue and comes back, if and only if the routing key is the name of the main queue. */
  lemma CycleClosesExactlyWhen(s: Settings)
    requires s.queue != s.retryQueue
    ensures (&& QueuesFor(s, s.routingKey) == {s.queue}
             && QueuesFor(s, DeadLetterKey(s, s.queue).value) == {s.retryQueue}
             && QueuesFor(s, DeadLetterKey(s, s.retryQueue).value) == {s.queue})
       <==> s.routingKey == s.queue
  {
    if s.routingKey != s.queue {
      assert s.queue !in QueuesFor(s, s.routingKey);
    }
  }
}
