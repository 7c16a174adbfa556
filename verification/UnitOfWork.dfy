/** One database session per unit of work, its commit and rollback, the staging of events as outbox rows, and
    the wrapper that runs a handler inside it. */
module UnitOfWork {
  import opened Types
  import opened PaymentRules
  import opened PaymentAggregate
  import OutboxRows
  import Serialization
  import WebhookRules

  datatype PaymentRecord = PaymentRecord(data: PaymentData, row: PaymentRow)

  datatype OutboxRecord = OutboxRecord(
    eventType: string,
    aggregateId: Value,
    payload: Serialization.Data,
    correlationId: Value,
    row: OutboxRows.Row)

  datatype DeliveryRecord = DeliveryRecord(payment: PaymentId, eventType: EventType, correlationId: Option<string>,
                                           delivery: WebhookRules.Delivery)

  /** The four tables. */
  datatype Tables = Tables(
    payments: map<PaymentId, PaymentRecord>,
    attempts: map<AttemptId, AttemptRecord>,
    deliveries: map<WebhookRules.DeliveryId, DeliveryRecord>,
    outbox: map<MessageId, OutboxRecord>)

  class Database {
    var tables: Tables

    constructor (tables: Tables)
      ensures this.tables == tables
    {
      this.tables := tables;
    }
  }

  /** An open session: what its transaction sees, committed data and its own writes. */
  class Session {
    var view: Tables

    constructor (view: Tables)
      ensures this.view == view
    {
      this.view := view;
    }
  }

  /** What an event's class promises about its fields; the staging code reads three of them. */
  predicate HasBaseFields(e: Event) {
    && Serialization.AGGREGATE_ID in e.attrs && Serialization.CORRELATION_ID in e.attrs
    && Serialization.OCCURRED_AT in e.attrs && e.attrs[Serialization.OCCURRED_AT].Date?
  }

  /** The outbox row `collect_events` adds for an event. */
  function OutboxRowOf(c: Serialization.Codec, e: Event): OutboxRecord
    requires HasBaseFields(e)
  {
    OutboxRecord(
      Serialization.NameOf(e.kind),
      e.attrs[Serialization.AGGREGATE_ID],
      Serialization.Serialize(c, e),
      e.attrs[Serialization.CORRELATION_ID],
      OutboxRows.FreshRow(e.attrs[Serialization.OCCURRED_AT].t))
  }

  predicate AllHaveBaseFields(events: seq<Event>) {
    forall i | 0 <= i < |events| :: HasBaseFields(events[i])
  }

  function RowsOf(c: Serialization.Codec, events: seq<Event>): seq<OutboxRecord>
    requires AllHaveBaseFields(events)
  {
    seq(|events|, i requires 0 <= i < |events| => OutboxRowOf(c, events[i]))
  }

  /** The outbox after adding the first n rows one by one, under the ids drawn for them. */
  function Staged(outbox: map<MessageId, OutboxRecord>, rows: seq<OutboxRecord>, ids: seq<MessageId>, n: nat)
    : map<MessageId, OutboxRecord>
    requires n <= |ids| == |rows|
  {
    if n == 0 then outbox else Staged(outbox, rows, ids, n - 1)[ids[n - 1] := rows[n - 1]]
  }

  predicate FreshIds(outbox: map<MessageId, OutboxRecord>, ids: seq<MessageId>) {
    && (forall i | 0 <= i < |ids| :: ids[i] !in outbox)
    && (forall i, j | 0 <= i < j < |ids| :: ids[i] != ids[j])
  }

  lemma OneMoreKey(outbox: map<MessageId, OutboxRecord>, id: MessageId, row: OutboxRecord)
    requires id !in outbox
    ensures |outbox[id := row]| == |outbox| + 1
  {
    assert outbox[id := row].Keys == outbox.Keys + {id};
  }

  /** With fresh ids no event is lost or written twice: row i is under ids[i], nothing that was there changes, and
      exactly one row per event is added. */
  lemma {:induction false} StagedOnceEach(outbox: map<MessageId, OutboxRecord>, rows: seq<OutboxRecord>,
                                          ids: seq<MessageId>, n: nat)
    requires n <= |ids| == |rows| && FreshIds(outbox, ids)
    ensures var staged := Staged(outbox, rows, ids, n);
            && (forall i | 0 <= i < n :: ids[i] in staged && staged[ids[i]] == rows[i])
            && (forall m | m in outbox :: m in staged && staged[m] == outbox[m])
            && (forall m | m in staged && m !in outbox :: exists i :: 0 <= i < n && ids[i] == m)
            && |staged| == |outbox| + n
  {
    if n > 0 {
      StagedOnceEach(outbox, rows, ids, n - 1);
      OneMoreKey(Staged(outbox, rows, ids, n - 1), ids[n - 1], rows[n - 1]);
    }
  }

  class PaymentsUnitOfWork {
    const db: Database
    var session: Session?
    var committed: bool
    var rolledBack: bool
    var collectedEvents: seq<Event>

    constructor (db: Database)
      ensures this.db == db && session == null && !committed && !rolledBack && collectedEvents == []
    {
      this.db := db;
      session, committed, rolledBack, collectedEvents := null, false, false, [];
    }

    method Enter()
      modifies this
      ensures session != null && fresh(session) && session.view == db.tables
      ensures !committed && !rolledBack && collectedEvents == []
    {
      session := new Session(db.tables);
      committed, rolledBack, collectedEvents := false, false, [];
    }

    /** Everything the session wrote becomes visible at once, or, when there is no session or the database refuses
        the commit, the call raises and nothing does. */
    method Commit(accepted: bool) returns (raised: bool)
      modifies this`committed, db
      ensures raised <==> session == null || !accepted
      ensures db.tables == if raised then old(db.tables) else session.view
      ensures committed == (!raised || old(committed))
    {
      if session == null || !accepted {
        return true;
      }
      db.tables := session.view;
      committed := true;
      return false;
    }

    /** The first rollback discards what was staged; a second one does nothing, not even to newly staged work. */
    method Rollback()
      modifies this`rolledBack, session
      ensures rolledBack == (old(rolledBack) || session != null)
      ensures session != null ==> session.view == if old(rolledBack) then old(session.view) else db.tables
    {
      if session == null || rolledBack {
        return;
      }
      session.view := db.tables;
      rolledBack := true;
    }

    /** Leaving never writes to the database: what was not committed is gone with the session. */
    method Exit(failed: bool)
      modifies this`session, this`rolledBack, session
      ensures session == null
      ensures rolledBack == (old(rolledBack) || (failed && !old(committed) && old(session) != null))
    {
      if failed && !committed && !rolledBack {
        Rollback();
      }
      session := null;
    }

    /** Stages one outbox row per event in the current transaction. */
    method CollectEvents(c: Serialization.Codec, events: seq<Event>, ids: seq<MessageId>) returns (started: bool)
      requires |ids| == |events| && AllHaveBaseFields(events)
      modifies this`collectedEvents, session
      ensures started <==> session != null
      ensures started ==>
                session.view ==
                  old(session.view).(outbox := Staged(old(session.view.outbox), RowsOf(c, events), ids, |ids|))
      ensures collectedEvents == old(collectedEvents) + if started then events else []
    {
      started := session != null;
      if started {
        ghost var outbox, rows := session.view.outbox, RowsOf(c, events);
        for i := 0 to |events|
          invariant session == old(session)
          invariant session.view == old(session.view).(outbox := Staged(outbox, rows, ids, i))
          invariant collectedEvents == old(collectedEvents) + events[..i]
        {
          collectedEvents := collectedEvents + [events[i]];
          session.view := session.view.(outbox := session.view.outbox[ids[i] := OutboxRowOf(c, events[i])]);
        }
        assert events[..|events|] == events;
      }
    }
  }

  /** The context variable through which handlers find their unit of work. */
  class Context {
    var current: PaymentsUnitOfWork?

    constructor ()
      ensures current == null
    {
      current := null;
    }

    /** First half of the `transactional` wrapper: open the session and publish the unit of work. */
    method Begin(uow: PaymentsUnitOfWork) returns (token: PaymentsUnitOfWork?)
      modifies this, uow
      ensures token == old(current) && current == uow
      ensures uow.session != null && fresh(uow.session) && uow.session.view == uow.db.tables
      ensures !uow.committed && !uow.rolledBack && uow.collectedEvents == []
    {
      uow.Enter();
      token := current;
      current := uow;
    }

    /** Second half: commit if the handler returned, restore the context in either case, close the session.
        The database holds the handler's writes if and only if it returned, the wrapper commits and the database
        accepts; a refused commit raises like the handler itself and is rolled back. */
    method End(uow: PaymentsUnitOfWork, token: PaymentsUnitOfWork?, returned: bool, commit: bool, accepted: bool)
      returns (committed: bool)
      requires uow.session != null && !uow.committed
      modifies this, uow, uow.session, uow.db
      ensures current == token && uow.session == null
      ensures committed <==> returned && commit && accepted
      ensures uow.db.tables == if committed then old(uow.session.view) else old(uow.db.tables)
      ensures uow.committed == committed
      ensures uow.rolledBack == (old(uow.rolledBack) || !returned || (commit && !accepted))
    {
      var raised := !returned;
      if returned && commit {
        raised := uow.Commit(accepted);
      }
      current := token;
      uow.Exit(raised);
      committed := returned && commit && !raised;
    }
  }
}
