/** JSON serialization of domain events for the outbox payload, over arbitrary attribute values. */
module Serialization {
  import opened Types
  import Broker

  /** A Python value as an event attribute may hold it. `Other` is any type the serializer does not know. */
  datatype Value =
    | Null
    | Bool(b: bool)
    | Int(i: int)
    | Float(f: real)
    | Str(s: string)
    | Date(t: Instant)
    | Uuid(id: PaymentId)
    | List(items: seq<Value>)
    | Tuple(items: seq<Value>)
    | Dict(entries: map<string, Value>)
    | Other(tag: nat, truthy: bool)

  /** isoformat and fromisoformat, str and UUID(...), taken as given. */
  datatype Codec = Codec(
    iso: Instant -> string,
    fromIso: string -> Option<Instant>,
    hex: PaymentId -> string,
    fromHex: string -> Option<PaymentId>)

  /** Reading back what was written gives the same date or id. */
  ghost predicate Faithful(c: Codec) {
    && (forall t: Instant :: c.iso(t) != "" && c.fromIso(c.iso(t)) == Some(t))
    && (forall u: PaymentId :: c.fromHex(c.hex(u)) == Some(u))
  }

  function Tally(n: nat): string {
    seq(n, _ => '1')
  }

  function Micros(t: Instant): int {
    (t * 1000000.0).Floor
  }

  function FromMicros(n: int): (t: Instant)
    ensures Micros(t) == n
  {
    n as real / 1000000.0
  }

  function SignedTally(t: Instant): string {
    if Micros(t) < 0 then "-" + Tally(-Micros(t)) else "+" + Tally(Micros(t))
  }

  function ParseSignedTally(s: string): Option<Instant> {
    if s == "" then None else Some(FromMicros(if s[0] == '-' then 1 - |s| else |s| - 1))
  }

  function ParseTally(s: string): Option<PaymentId> {
    Some(|s|)
  }

  lemma InstantIsItsMicros(t: Instant)
    ensures FromMicros(Micros(t)) == t
  {
  }

  lemma TallyKeepsInstants(t: Instant)
    ensures SignedTally(t) != "" && ParseSignedTally(SignedTally(t)) == Some(t)
  {
    hide FromMicros, Micros;
    InstantIsItsMicros(t);
  }

  const TALLY_CODEC := Codec(SignedTally, ParseSignedTally, Tally, ParseTally)

  /** Such codecs exist, so what is proved for every faithful codec is proved for something. */
  lemma FaithfulCodecExists()
    ensures exists c :: Faithful(c)
  {
    hide SignedTally, ParseSignedTally;
    var c := TALLY_CODEC;
    forall t: Instant ensures c.iso(t) != "" && c.fromIso(c.iso(t)) == Some(t) {
      TallyKeepsInstants(t);
    }
    assert Faithful(c);
  }

  /** `_to_jsonable` */
  function ToJsonable(c: Codec, v: Value): Value
    decreases v
  {
    match v
    case Date(t) => Str(c.iso(t))
    case Uuid(id) => Str(c.hex(id))
    case Dict(entries) => Dict(map k | k in entries :: ToJsonable(c, entries[k]))
    case List(items) => List(seq(|items|, i requires 0 <= i < |items| => ToJsonable(c, items[i])))
    case Tuple(items) => List(seq(|items|, i requires 0 <= i < |items| => ToJsonable(c, items[i])))
    case _ => v
  }

  /** No date, id or tuple at any depth. */
  predicate Plain(v: Value)
    decreases v
  {
    match v
    case Date(_) => false
    case Uuid(_) => false
    case Tuple(_) => false
    case List(items) => forall i | 0 <= i < |items| :: Plain(items[i])
    case Dict(entries) => forall k | k in entries :: Plain(entries[k])
    case _ => true
  }

  /** An unknown type at some depth. */
  predicate HasUnknown(v: Value)
    decreases v
  {
    match v
    case Other(_, _) => true
    case List(items) => exists i | 0 <= i < |items| :: HasUnknown(items[i])
    case Tuple(items) => exists i | 0 <= i < |items| :: HasUnknown(items[i])
    case Dict(entries) => exists k | k in entries :: HasUnknown(entries[k])
    case _ => false
  }

  /** json.dumps accepts the value, and json.loads gives it back as it was. */
  predicate IsJson(v: Value) {
    Plain(v) && !HasUnknown(v)
  }

  /** Serialized values are plain, whatever went in ... */
  lemma {:induction false} JsonableIsPlain(c: Codec, v: Value)
    ensures Plain(ToJsonable(c, v))
    decreases v
  {
    match v
    case Dict(entries) =>
      forall k | k in entries ensures Plain(ToJsonable(c, entries[k])) { JsonableIsPlain(c, entries[k]); }
    case List(items) =>
      forall i | 0 <= i < |items| ensures Plain(ToJsonable(c, items[i])) { JsonableIsPlain(c, items[i]); }
    case Tuple(items) =>
      forall i | 0 <= i < |items| ensures Plain(ToJsonable(c, items[i])) { JsonableIsPlain(c, items[i]); }
    case _ =>
  }

  /** ... and exactly the plain values are left as they are. */
  lemma {:induction false} PlainIsFixed(c: Codec, v: Value)
    requires Plain(v)
    ensures ToJsonable(c, v) == v
    decreases v
  {
    match v
    case Dict(entries) =>
      forall k | k in entries ensures ToJsonable(c, entries[k]) == entries[k] { PlainIsFixed(c, entries[k]); }
    case List(items) =>
      forall i | 0 <= i < |items| ensures ToJsonable(c, items[i]) == items[i] { PlainIsFixed(c, items[i]); }
    case _ =>
  }

  lemma FixedExactlyWhenPlain(c: Codec, v: Value)
    ensures ToJsonable(c, v) == v <==> Plain(v)
  {
    JsonableIsPlain(c, v);
    if Plain(v) {
      PlainIsFixed(c, v);
    }
  }

  lemma JsonableIsIdempotent(c: Codec, v: Value)
    ensures ToJsonable(c, ToJsonable(c, v)) == ToJsonable(c, v)
  {
    JsonableIsPlain(c, v);
    PlainIsFixed(c, ToJsonable(c, v));
  }

  /** Unknown types are passed through, not turned into strings: the payload is JSON if and only if there were none. */
  lemma {:induction false} UnknownPassesThrough(c: Codec, v: Value)
    ensures HasUnknown(ToJsonable(c, v)) <==> HasUnknown(v)
    decreases v
  {
    match v
    case Dict(entries) =>
      var out := ToJsonable(c, v).entries;
      forall k | k in entries ensures HasUnknown(out[k]) <==> HasUnknown(entries[k]) {
        UnknownPassesThrough(c, entries[k]);
      }
    case List(items) =>
      var out := ToJsonable(c, v).items;
      forall i | 0 <= i < |items| ensures HasUnknown(out[i]) <==> HasUnknown(items[i]) {
        UnknownPassesThrough(c, items[i]);
      }
    case Tuple(items) =>
      var out := ToJsonable(c, v).items;
      forall i | 0 <= i < |items| ensures HasUnknown(out[i]) <==> HasUnknown(items[i]) {
        UnknownPassesThrough(c, items[i]);
      }
    case _ =>
  }

  // ---------------------------------------------------------------------------
  // Events
  // ---------------------------------------------------------------------------

  datatype Kind = PaymentCreated | PaymentProcessingStarted | PaymentSucceeded | PaymentFailed

  function NameOf(kind: Kind): string {
    match kind
    case PaymentCreated => "PaymentCreated"
    case PaymentProcessingStarted => "PaymentProcessingStarted"
    case PaymentSucceeded => "PaymentSucceeded"
    case PaymentFailed => "PaymentFailed"
  }

  /** EVENT_TYPES.get */
  function KindOf(name: string): (kind: Option<Kind>)
    ensures kind.Some? ==> NameOf(kind.value) == name
  {
    if name == "PaymentCreated" then Some(PaymentCreated)
    else if name == "PaymentProcessingStarted" then Some(PaymentProcessingStarted)
    else if name == "PaymentSucceeded" then Some(PaymentSucceeded)
    else if name == "PaymentFailed" then Some(PaymentFailed)
    else None
  }

  const EVENT_TYPE := "event_type"
  const AGGREGATE_ID := "aggregate_id"
  const CORRELATION_ID := "correlation_id"
  const OCCURRED_AT := "occurred_at"
  const CREATED_AT := "created_at"
  const PROCESSED_AT := "processed_at"
  const DATE_FIELDS := [OCCURRED_AT, CREATED_AT, PROCESSED_AT]

  /** The dataclass fields of an event type. */
  function Fields(kind: Kind): set<string> {
    {AGGREGATE_ID, OCCURRED_AT, CORRELATION_ID}
    + match kind
      case PaymentCreated => {"amount", "currency", "description", "metadata", "webhook_url", "idempotency_key",
                              CREATED_AT}
      case PaymentProcessingStarted => {}
      case PaymentSucceeded => {PROCESSED_AT}
      case PaymentFailed => {"reason", PROCESSED_AT}
  }

  type Data = map<string, Value>

  datatype Event = Event(kind: Kind, attrs: Data)

  /** An instance has exactly the fields of its class; their values are not checked at construction. */
  predicate IsInstance(e: Event) {
    e.attrs.Keys == Fields(e.kind)
  }

  function Jsonables(c: Codec, attrs: Data): Data {
    map k | k in attrs :: ToJsonable(c, attrs[k])
  }

  /** `serialize_event` */
  function Serialize(c: Codec, e: Event): Data {
    Jsonables(c, e.attrs)[EVENT_TYPE := Str(NameOf(e.kind))]
  }

  datatype Error =
    | MissingEventType
    | UnknownEventType
    | Unhashable
    | NotAUuid
    | NotADate
    | UnexpectedField
    | MissingField

  predicate Truthy(v: Value) {
    match v
    case Null => false
    case Bool(b) => b
    case Int(i) => i != 0
    case Float(f) => f != 0.0
    case Str(s) => s != ""
    case List(items) => items != []
    case Tuple(items) => items != []
    case Dict(entries) => entries != map[]
    case Other(_, truthy) => truthy
    case _ => true
  }

  function EventClass(data: Data): Result<Kind, Error> {
    if EVENT_TYPE !in data || !Truthy(data[EVENT_TYPE]) then Err(MissingEventType)
    else
      match data[EVENT_TYPE]
      case Str(name) => (match KindOf(name) case Some(kind) => Ok(kind) case None => Err(UnknownEventType))
      case List(_) => Err(Unhashable)
      case Dict(_) => Err(Unhashable)
      case _ => Err(UnknownEventType)
  }

  function ParseId(c: Codec, v: Value): Result<Value, Error> {
    if !v.Str? then Ok(v) else match c.fromHex(v.s) case Some(u) => Ok(Uuid(u)) case None => Err(NotAUuid)
  }

  function ParseDate(c: Codec, v: Value): Result<Value, Error> {
    if !Truthy(v) then Ok(v)
    else if !v.Str? then Err(NotADate)
    else match c.fromIso(v.s) case Some(t) => Ok(Date(t)) case None => Err(NotADate)
  }

  /** The second loop: typed date fields, in order, the first bad one raises. */
  function RestoreDates(c: Codec, payload: Data, keys: seq<string>): Result<Data, Error> {
    if keys == [] then Ok(payload)
    else if keys[0] !in payload then RestoreDates(c, payload, keys[1..])
    else
      match ParseDate(c, payload[keys[0]])
      case Ok(v) => RestoreDates(c, payload[keys[0] := v], keys[1..])
      case Err(e) => Err(e)
  }

  /** The dataclass constructor; correlation_id defaults to None. */
  function Construct(kind: Kind, payload: Data): Result<Event, Error> {
    if exists k :: k in payload && k !in Fields(kind) then Err(UnexpectedField)
    else if exists k :: k in Fields(kind) && k !in payload && k != CORRELATION_ID then Err(MissingField)
    else Ok(Event(kind, if CORRELATION_ID in payload then payload else payload[CORRELATION_ID := Null]))
  }

  function RestoreId(c: Codec, payload: Data): Result<Data, Error> {
    if AGGREGATE_ID !in payload || !payload[AGGREGATE_ID].Str? then Ok(payload)
    else
      match ParseId(c, payload[AGGREGATE_ID])
      case Ok(v) => Ok(payload[AGGREGATE_ID := v])
      case Err(e) => Err(e)
  }

  function Restore(c: Codec, payload: Data): Result<Data, Error> {
    match RestoreId(c, payload)
    case Ok(withId) => RestoreDates(c, withId, DATE_FIELDS)
    case Err(e) => Err(e)
  }

  function Deserialize(c: Codec, data: Data): Result<Event, Error> {
    match EventClass(data)
    case Err(e) => Err(e)
    case Ok(kind) =>
      match Restore(c, data - {EVENT_TYPE})
      case Ok(restored) => Construct(kind, restored)
      case Err(e) => Err(e)
  }

  /** `deserialize_event` with its two loops over the payload dictionary. */
  method DeserializeEvent(c: Codec, data: Data) returns (r: Result<Event, Error>)
    ensures r == Deserialize(c, data)
  {
    var cls := EventClass(data);
    if cls.Err? {
      return Err(cls.error);
    }
    var payload := data - {EVENT_TYPE};
    if AGGREGATE_ID in payload && payload[AGGREGATE_ID].Str? {
      var id := c.fromHex(payload[AGGREGATE_ID].s);
      if id.None? {
        return Err(NotAUuid);
      }
      payload := payload[AGGREGATE_ID := Uuid(id.value)];
    }
    ghost var start := payload;
    assert RestoreId(c, data - {EVENT_TYPE}) == Ok(start);
    for i := 0 to |DATE_FIELDS|
      invariant RestoreDates(c, payload, DATE_FIELDS[i..]) == RestoreDates(c, start, DATE_FIELDS)
    {
      var key := DATE_FIELDS[i];
      assert DATE_FIELDS[i..][0] == key && DATE_FIELDS[i..][1..] == DATE_FIELDS[i + 1..];
      if key in payload {
        var parsed := ParseDate(c, payload[key]);
        if parsed.Err? {
          return Err(parsed.error);
        }
        payload := payload[key := parsed.value];
      }
    }
    r := Construct(cls.value, payload);
  }

  // ---------------------------------------------------------------------------
  // Round trip
  // ---------------------------------------------------------------------------

  /** The values Python takes for false. */
  predicate Falsy(v: Value) {
    || v in {Null, Bool(false), Int(0), Float(0.0), Str(""), List([]), Tuple([]), Dict(map[])}
    || (v.Other? && !v.truthy)
  }

  /** The value a field can hold and come back unchanged: an id where an id is expected, a date where a date is
      expected, plain JSON elsewhere; plus the plain values the restoring code lets through untouched. */
  predicate Restorable(field: string, v: Value) {
    if field == "aggregate_id" then v.Uuid? || (Plain(v) && !v.Str?)
    else if field in {"occurred_at", "created_at", "processed_at"} then v.Date? || (Plain(v) && Falsy(v))
    else Plain(v)
  }

  /** What restoring makes of a serialized field. */
  function Parsed(c: Codec, field: string, j: Value): Result<Value, Error> {
    if field == AGGREGATE_ID then ParseId(c, j) else if field in DATE_FIELDS then ParseDate(c, j) else Ok(j)
  }

  /** What a field holds after serialization and restoring. */
  function Back(c: Codec, field: string, v: Value): Result<Value, Error> {
    Parsed(c, field, ToJsonable(c, v))
  }

  lemma TruthyJsonable(c: Codec, v: Value)
    requires Faithful(c) && !v.Uuid?
    ensures Truthy(ToJsonable(c, v)) <==> Truthy(v)
  {
    match v
    case Dict(entries) =>
      if entries != map[] {
        var k :| k in entries;
        assert k in ToJsonable(c, v).entries;
      }
    case _ =>
  }

  lemma BackIsSame(c: Codec, field: string, v: Value)
    requires Faithful(c)
    ensures Back(c, field, v) == Ok(v) <==> Restorable(field, v)
  {
    FixedExactlyWhenPlain(c, v);
    if !v.Uuid? {
      TruthyJsonable(c, v);
    }
  }

  lemma {:induction false} DatesPointwise(c: Codec, payload: Data, keys: seq<string>)
    requires forall i, j | 0 <= i < j < |keys| :: keys[i] != keys[j]
    ensures RestoreDates(c, payload, keys).Ok? <==> forall k | k in keys && k in payload :: ParseDate(c, payload[k]).Ok?
    ensures RestoreDates(c, payload, keys).Ok? ==>
              RestoreDates(c, payload, keys).value
              == map k | k in payload :: if k in keys then ParseDate(c, payload[k]).value else payload[k]
    decreases |keys|
  {
    if keys != [] {
      var key, rest := keys[0], keys[1..];
      assert keys == [key] + rest && key !in rest;
      if key in payload {
        var parsed := ParseDate(c, payload[key]);
        if parsed.Ok? {
          DatesPointwise(c, payload[key := parsed.value], rest);
        } else {
          assert key in keys;
        }
      } else {
        DatesPointwise(c, payload, rest);
      }
    }
  }

  lemma RestorePointwise(c: Codec, payload: Data)
    ensures Restore(c, payload).Ok? <==> forall k | k in payload :: Parsed(c, k, payload[k]).Ok?
    ensures Restore(c, payload).Ok? ==>
              Restore(c, payload).value == map k | k in payload :: Parsed(c, k, payload[k]).value
  {
    hide RestoreDates, ParseDate;
    var id := RestoreId(c, payload);
    if id.Ok? {
      DatesPointwise(c, id.value, DATE_FIELDS);
      assert AGGREGATE_ID !in DATE_FIELDS;
      forall k | k in payload && k in DATE_FIELDS
        ensures id.value[k] == payload[k] && Parsed(c, k, payload[k]) == ParseDate(c, id.value[k])
      {
      }
    } else {
      assert Parsed(c, AGGREGATE_ID, payload[AGGREGATE_ID]).Err?;
    }
  }

  lemma ClassOfSerialized(c: Codec, e: Event)
    requires IsInstance(e)
    ensures EventClass(Serialize(c, e)) == Ok(e.kind)
    ensures Serialize(c, e) - {EVENT_TYPE} == Jsonables(c, e.attrs)
  {
    assert NameOf(e.kind) != "" && KindOf(NameOf(e.kind)) == Some(e.kind);
    assert EVENT_TYPE !in Fields(e.kind);
  }

  lemma DeserializeSerialized(c: Codec, e: Event)
    requires IsInstance(e)
    ensures var r := Deserialize(c, Serialize(c, e));
            && (r.Ok? <==> forall k | k in e.attrs :: Back(c, k, e.attrs[k]).Ok?)
            && (r.Ok? ==> r.value == Event(e.kind, map k | k in e.attrs :: Back(c, k, e.attrs[k]).value))
  {
    hide Restore, Parsed, EventClass, Serialize, ToJsonable;
    var js := Jsonables(c, e.attrs);
    ClassOfSerialized(c, e);
    RestorePointwise(c, js);
    assert forall k | k in e.attrs :: Back(c, k, e.attrs[k]) == Parsed(c, k, js[k]);
    if Restore(c, js).Ok? {
      var restored := Restore(c, js).value;
      assert restored.Keys == Fields(e.kind);
      assert Construct(e.kind, restored) == Ok(Event(e.kind, restored));
    }
  }

  /** An event survives the round trip if and only if every one of its attributes is restorable. */
  lemma RoundTripExactlyWhen(c: Codec, e: Event)
    requires Faithful(c) && IsInstance(e)
    ensures Deserialize(c, Serialize(c, e)) == Ok(e) <==> forall k | k in e.attrs :: Restorable(k, e.attrs[k])
  {
    hide Back, Restorable, Deserialize, Serialize;
    DeserializeSerialized(c, e);
    forall k | k in e.attrs ensures Back(c, k, e.attrs[k]) == Ok(e.attrs[k]) <==> Restorable(k, e.attrs[k]) {
      BackIsSame(c, k, e.attrs[k]);
    }
    var back := Deserialize(c, Serialize(c, e));
    if back.Ok? {
      assert back.value == e <==> forall k | k in e.attrs :: Back(c, k, e.attrs[k]).value == e.attrs[k];
    }
  }

  lemma TruthyUnlessFalsy(v: Value)
    ensures Truthy(v) <==> !Falsy(v)
  {
  }

  /** Which dictionaries `deserialize_event` refuses, and with which error: the type is looked at first, then the id,
      then the dates, then whether the fields are those of the class, of which only correlation_id may be left out. */
  lemma RefusedExactlyWhen(c: Codec, data: Data)
    ensures var r, payload := Deserialize(c, data), data - {"event_type"};
            var name := if "event_type" in data then data["event_type"] else Null;
            var known := name.Str? && name.s in {"PaymentCreated", "PaymentProcessingStarted", "PaymentSucceeded",
                                                 "PaymentFailed"};
            var badId := "aggregate_id" in payload && payload["aggregate_id"].Str?
                         && c.fromHex(payload["aggregate_id"].s).None?;
            var badDate := exists k :: k in payload && BadDate(c, k, payload[k]);
            && (r == Err(MissingEventType) <==> Falsy(name))
            && (r == Err(Unhashable) <==> !Falsy(name) && (name.List? || name.Dict?))
            && (r == Err(UnknownEventType) <==> !Falsy(name) && !name.List? && !name.Dict? && !known)
            && (r == Err(NotAUuid) <==> known && badId)
            && (r == Err(NotADate) <==> known && !badId && badDate)
            && (known && !badId && !badDate ==>
                  var fields := Fields(KindOf(name.s).value);
                  && (r == Err(UnexpectedField) <==> !(payload.Keys <= fields))
                  && (r == Err(MissingField) <==>
                        payload.Keys <= fields && !(fields - {"correlation_id"} <= payload.Keys))
                  && (r.Ok? <==> fields - {"correlation_id"} <= payload.Keys <= fields))
  {
    var name := if "event_type" in data then data["event_type"] else Null;
    TruthyUnlessFalsy(name);
    var payload := data - {"event_type"};
    RestoreFailsExactlyWhen(c, payload);
    hide Restore, Truthy, Falsy, BadDate, Fields;
  }

  /** A date field whose value is there but is no date string. */
  predicate BadDate(c: Codec, field: string, v: Value) {
    field in {"occurred_at", "created_at", "processed_at"} && !Falsy(v) && (!v.Str? || c.fromIso(v.s).None?)
  }

  lemma RestoreFailsExactlyWhen(c: Codec, payload: Data)
    ensures var r := Restore(c, payload);
            var badId := "aggregate_id" in payload && payload["aggregate_id"].Str?
                         && c.fromHex(payload["aggregate_id"].s).None?;
            && (r == Err(NotAUuid) <==> badId)
            && (r == Err(NotADate) <==> !badId && exists k :: k in payload && BadDate(c, k, payload[k]))
            && (r.Err? ==> r.error in {NotAUuid, NotADate})
            && (r.Ok? ==> r.value.Keys == payload.Keys)
  {
    RestorePointwise(c, payload);
    RestoreErrors(c, payload);
    forall k | k in payload && k != AGGREGATE_ID
      ensures Parsed(c, k, payload[k]).Err? <==> BadDate(c, k, payload[k])
    {
      TruthyUnlessFalsy(payload[k]);
    }
    assert forall k | k in payload && BadDate(c, k, payload[k]) :: k != AGGREGATE_ID;
    hide RestoreDates, Parsed, BadDate;
  }

  lemma {:induction false} DateErrors(c: Codec, payload: Data, keys: seq<string>)
    ensures RestoreDates(c, payload, keys).Err? ==> RestoreDates(c, payload, keys).error == NotADate
    decreases |keys|
  {
    if keys != [] {
      if keys[0] in payload && ParseDate(c, payload[keys[0]]).Ok? {
        DateErrors(c, payload[keys[0] := ParseDate(c, payload[keys[0]]).value], keys[1..]);
      } else {
        DateErrors(c, payload, keys[1..]);
      }
    }
  }

  lemma RestoreErrors(c: Codec, payload: Data)
    ensures var r := Restore(c, payload);
            && (r == Err(NotAUuid) <==> RestoreId(c, payload).Err?)
            && (r.Err? ==> r.error in {NotAUuid, NotADate})
  {
    var id := RestoreId(c, payload);
    if id.Ok? {
      DateErrors(c, id.value, DATE_FIELDS);
    }
  }

  /** The annotated field types; metadata is a JSON object of any depth. */
  predicate RightType(field: string, v: Value) {
    if field == AGGREGATE_ID then v.Uuid?
    else if field in DATE_FIELDS then v.Date?
    else if field == "metadata" then v.Dict? && IsJson(v)
    else v.Str? || (v.Null? && field in {CORRELATION_ID, "description", "reason"})
  }

  predicate WellTyped(e: Event) {
    IsInstance(e) && forall k | k in e.attrs :: RightType(k, e.attrs[k])
  }

  lemma RightTypeIsRestorable(c: Codec, field: string, v: Value)
    requires RightType(field, v)
    ensures Restorable(field, v) && IsJson(ToJsonable(c, v))
  {
    JsonableIsPlain(c, v);
    UnknownPassesThrough(c, v);
  }

  /** Every well-typed event of the four types comes back equal, and its payload is JSON. */
  lemma RoundTrip(c: Codec, e: Event)
    requires Faithful(c) && WellTyped(e)
    ensures Deserialize(c, Serialize(c, e)) == Ok(e)
    ensures forall k | k in Serialize(c, e) :: IsJson(Serialize(c, e)[k])
  {
    hide RightType, Restorable, Deserialize, ToJsonable, Fields, NameOf;
    forall k | k in e.attrs ensures Restorable(k, e.attrs[k]) && IsJson(ToJsonable(c, e.attrs[k])) {
      RightTypeIsRestorable(c, k, e.attrs[k]);
    }
    RoundTripExactlyWhen(c, e);
  }

  /** What the consumer reads from the body of a published event: its type, and the payment as `UUID(...)` parses it. */
  function BodyOf(c: Codec, data: Data): Broker.Body {
    Broker.Object(
      if EVENT_TYPE in data && data[EVENT_TYPE].Str? then Some(data[EVENT_TYPE].s) else None,
      if AGGREGATE_ID in data && data[AGGREGATE_ID].Str? then c.fromHex(data[AGGREGATE_ID].s) else None)
  }

  lemma BodyOfSerialized(c: Codec, e: Event)
    requires Faithful(c) && IsInstance(e) && AGGREGATE_ID in e.attrs && e.attrs[AGGREGATE_ID].Uuid?
    ensures BodyOf(c, Serialize(c, e)) == Broker.Object(Some(NameOf(e.kind)), Some(e.attrs[AGGREGATE_ID].id))
  {
    hide NameOf, Fields;
    assert EVENT_TYPE != AGGREGATE_ID;
  }

  lemma OnlyCreatedIsNamedSo(kind: Kind)
    ensures NameOf(kind) == Broker.PAYMENT_CREATED <==> kind.PaymentCreated?
  {
    assert NameOf(kind)[7] == Broker.PAYMENT_CREATED[7] <==> kind.PaymentCreated?;
  }

  /** Outbox and consumer agree on the payload: a serialized PaymentCreated is routed to the process handler with
      the very payment that raised it, as long as it has retries left; the other three events are acked unread. */
  lemma ConsumerReadsTheEvent(c: Codec, e: Event, deaths: Broker.XDeath, maxRetries: int)
    requires Faithful(c) && WellTyped(e)
    ensures AGGREGATE_ID in e.attrs && e.attrs[AGGREGATE_ID].Uuid?
    ensures Broker.RouteOf(BodyOf(c, Serialize(c, e)), deaths, maxRetries)
         == if !e.kind.PaymentCreated? then Broker.Ignore
            else if Broker.RejectedCount(deaths).None? then Broker.Raise
            else if Broker.RejectedCount(deaths).value >= maxRetries then Broker.SendToDlq
            else Broker.Process(e.attrs[AGGREGATE_ID].id)
  {
    hide Broker.RejectedCount, BodyOf, Serialize, NameOf;
    assert AGGREGATE_ID in Fields(e.kind);
    BodyOfSerialized(c, e);
    OnlyCreatedIsNamedSo(e.kind);
  }
}
