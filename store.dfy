/**
 The booking store of a booking widget: one `booking` record (date, time,
 service, confirmation flag) and the two mutations that change it.

 `setBooking(payload)` replaces the record by the object spread
 `{ ...booking, ...payload }`, so every key present in the payload wins,
 an explicit `null` or `confirmed: false` included, and every absent key
 keeps its prior value. `confirmBooking()` writes `confirmed = true`.

 The record is modelled twice: as a typed `Booking` value, which the store
 holds, and as the JavaScript object it is at run time (a map from keys to
 values), where the spread is a map union. `MergeIsSpread` ties the two.
 */
module Store {

  datatype Option<T> = None | Some(value: T)

  // The store keeps whatever the caller gives it and never inspects these
  // values, so their representation is left unconstrained.
  type Date = string
  type Time = string
  type ServiceId = string

  /** The booking record; `None` stands for JavaScript `null`. */
  datatype Booking = Booking(
    date: Option<Date>,
    time: Option<Time>,
    service: Option<ServiceId>,
    confirmed: bool)

  /**
   A partial booking as passed to `setBooking`. The outer `Option` says
   whether the key is present at all; for the nullable fields the inner one
   says whether its value is `null`.
   */
  datatype Payload = Payload(
    date: Option<Option<Date>>,
    time: Option<Option<Time>>,
    service: Option<Option<ServiceId>>,
    confirmed: Option<bool>)

  /** The record the store starts with: nothing chosen, not confirmed. */
  const Initial: Booking := Booking(None, None, None, false)

  /** The payload `{}`. */
  const NoKeys: Payload := Payload(None, None, None, None)

  /** The payload `{ confirmed: true }`. */
  const ConfirmedKeyOnly: Payload := Payload(None, None, None, Some(true))

  // ---------------------------------------------------------------------
  // The two mutations as functions of the record
  // ---------------------------------------------------------------------

  /** One key of a spread: the later (payload) value wins when present. */
  function Override<T>(prior: T, key: Option<T>): T {
    match key
    case Some(v) => v
    case None => prior
  }

  /** `{ ...b, ...p }` restricted to the four booking keys. */
  function Merge(b: Booking, p: Payload): (r: Booking)
    ensures p.date.Some? ==> r.date == p.date.value
    ensures p.time.Some? ==> r.time == p.time.value
    ensures p.service.Some? ==> r.service == p.service.value
    ensures p.confirmed.Some? ==> r.confirmed == p.confirmed.value
    ensures p.date.None? ==> r.date == b.date
    ensures p.time.None? ==> r.time == b.time
    ensures p.service.None? ==> r.service == b.service
    ensures p.confirmed.None? ==> r.confirmed == b.confirmed
  {
    Booking(
      Override(b.date, p.date),
      Override(b.time, p.time),
      Override(b.service, p.service),
      Override(b.confirmed, p.confirmed))
  }

  /** `booking.confirmed = true`, as a function of the record. */
  function Confirm(b: Booking): (r: Booking)
    ensures r.confirmed
    ensures r.date == b.date && r.time == b.time && r.service == b.service
  {
    b.(confirmed := true)
  }

  // ---------------------------------------------------------------------
  // The store object
  // ---------------------------------------------------------------------

  /** The store's state: the single booking record it owns. */
  class BookingStore {
    var booking: Booking

    /** A fresh store holds the initial record. */
    constructor ()
      ensures booking == Initial
      ensures booking.date.None? && booking.time.None? && booking.service.None?
      ensures !booking.confirmed
    {
      booking := Initial;
    }

    /** `setBooking`: the record becomes the spread of the old one and `payload`. */
    method SetBooking(payload: Payload)
      modifies this`booking
      ensures booking == Merge(old(booking), payload)
      ensures payload.confirmed == Some(false) ==> !booking.confirmed
    {
      booking := Merge(booking, payload);
    }

    /** `confirmBooking`: the flag is set, whatever it was; nothing else moves. */
    method ConfirmBooking()
      modifies this`booking
      ensures booking == Confirm(old(booking))
      ensures booking.confirmed
      ensures booking.date == old(booking.date)
      ensures booking.time == old(booking.time)
      ensures booking.service == old(booking.service)
    {
      booking := booking.(confirmed := true);
    }
  }

  // ---------------------------------------------------------------------
  // Properties of one or two mutations
  // ---------------------------------------------------------------------

  /** `setBooking({})` leaves the record as it was. */
  lemma MergeNoKeys(b: Booking)
    ensures Merge(b, NoKeys) == b
  {
  }

  /** Applying the same payload twice gives the record applying it once gives. */
  lemma MergeIdempotent(b: Booking, p: Payload)
    ensures Merge(Merge(b, p), p) == Merge(b, p)
  {
  }

  /** Payloads that set no key in common. */
  predicate Disjoint(p: Payload, q: Payload) {
    && (p.date.None? || q.date.None?)
    && (p.time.None? || q.time.None?)
    && (p.service.None? || q.service.None?)
    && (p.confirmed.None? || q.confirmed.None?)
  }

  /** Two `setBooking` calls on disjoint keys commute. */
  lemma MergeDisjointCommute(b: Booking, p: Payload, q: Payload)
    requires Disjoint(p, q)
    ensures Merge(Merge(b, p), q) == Merge(Merge(b, q), p)
  {
  }

  /** `confirmBooking()` is `setBooking({ confirmed: true })`. */
  lemma ConfirmIsMerge(b: Booking)
    ensures Confirm(b) == Merge(b, ConfirmedKeyOnly)
  {
  }

  /** Confirming twice is confirming once. */
  lemma ConfirmIdempotent(b: Booking)
    ensures Confirm(Confirm(b)) == Confirm(b)
  {
  }

  /**
   The flag is not one-way: `setBooking({ confirmed: false })` after
   `confirmBooking()` leaves the booking unconfirmed.
   */
  lemma ConfirmationCanBeUndone(b: Booking)
    ensures Confirm(b).confirmed
    ensures !Merge(Confirm(b), Payload(None, None, None, Some(false))).confirmed
  {
  }

  // ---------------------------------------------------------------------
  // Composing payloads: what a run of mutations amounts to
  // ---------------------------------------------------------------------

  /** The later of two writes to one key: `later` when it is present. */
  function Latest<T>(earlier: Option<T>, later: Option<T>): Option<T> {
    if later.Some? then later else earlier
  }

  /** The payload `{ ...p, ...q }`: the keys of both, the value of `q` where both have one. */
  function Then(p: Payload, q: Payload): (r: Payload)
    ensures q.date.Some? ==> r.date == q.date
    ensures q.time.Some? ==> r.time == q.time
    ensures q.service.Some? ==> r.service == q.service
    ensures q.confirmed.Some? ==> r.confirmed == q.confirmed
    ensures q.date.None? ==> r.date == p.date
    ensures q.time.None? ==> r.time == p.time
    ensures q.service.None? ==> r.service == p.service
    ensures q.confirmed.None? ==> r.confirmed == p.confirmed
  {
    Payload(
      Latest(p.date, q.date),
      Latest(p.time, q.time),
      Latest(p.service, q.service),
      Latest(p.confirmed, q.confirmed))
  }

  /** Merging two payloads in turn is merging their composition. */
  lemma MergeThen(b: Booking, p: Payload, q: Payload)
    ensures Merge(Merge(b, p), q) == Merge(b, Then(p, q))
  {
  }

  /** A committed mutation. */
  datatype Mutation = SetBooking(payload: Payload) | ConfirmBooking

  /** The record after one mutation. */
  function Apply(b: Booking, m: Mutation): Booking {
    match m
    case SetBooking(p) => Merge(b, p)
    case ConfirmBooking => Confirm(b)
  }

  /** The record after a run of mutations, first to last. */
  function Run(b: Booking, ms: seq<Mutation>): Booking
    decreases |ms|
  {
    if ms == [] then b else Run(Apply(b, ms[0]), ms[1..])
  }

  /** The payload a mutation amounts to. */
  function AsPayload(m: Mutation): Payload {
    match m
    case SetBooking(p) => p
    case ConfirmBooking => ConfirmedKeyOnly
  }

  /** The composition of a run's payloads. */
  function Net(ms: seq<Mutation>): Payload
    decreases |ms|
  {
    if ms == [] then NoKeys else Then(AsPayload(ms[0]), Net(ms[1..]))
  }

  /** A run of mutations merges its net payload into the starting record. */
  lemma {:induction false} RunIsMerge(b: Booking, ms: seq<Mutation>)
    ensures Run(b, ms) == Merge(b, Net(ms))
    decreases |ms|
  {
    if ms == [] {
      MergeNoKeys(b);
    } else {
      var m := ms[0];
      if m.ConfirmBooking? {
        ConfirmIsMerge(b);
      }
      assert Apply(b, m) == Merge(b, AsPayload(m));
      RunIsMerge(Apply(b, m), ms[1..]);
      MergeThen(b, AsPayload(m), Net(ms[1..]));
    }
  }

  /** The net payload of a run extended by one mutation. */
  lemma {:induction false} NetSnoc(ms: seq<Mutation>, m: Mutation)
    ensures Net(ms + [m]) == Then(Net(ms), AsPayload(m))
    decreases |ms|
  {
    if ms == [] {
      assert [] + [m] == [m];
    } else {
      assert (ms + [m])[1..] == ms[1..] + [m];
      NetSnoc(ms[1..], m);
    }
  }

  /** The `confirmed` value written by the last mutation that writes it, if any. */
  function LastConfirmedWrite(ms: seq<Mutation>): Option<bool>
    decreases |ms|
  {
    if ms == [] then None
    else
      var last := AsPayload(ms[|ms| - 1]).confirmed;
      if last.Some? then last else LastConfirmedWrite(ms[..|ms| - 1])
  }

  /**
   After a run, the booking is confirmed exactly when the last mutation that
   wrote `confirmed` wrote `true`, or none wrote it and it was confirmed before.
   */
  lemma {:induction false} ConfirmedIsLastWrite(b: Booking, ms: seq<Mutation>)
    ensures Run(b, ms).confirmed <==>
      (LastConfirmedWrite(ms) == Some(true) || (LastConfirmedWrite(ms) == None && b.confirmed))
    decreases |ms|
  {
    NetConfirmedIsLastWrite(ms);
    RunIsMerge(b, ms);
  }

  /** The net payload writes `confirmed` as the last writer in the run did. */
  lemma {:induction false} NetConfirmedIsLastWrite(ms: seq<Mutation>)
    ensures Net(ms).confirmed == LastConfirmedWrite(ms)
    decreases |ms|
  {
    if ms != [] {
      var init, last := ms[..|ms| - 1], ms[|ms| - 1];
      assert ms == init + [last];
      NetSnoc(init, last);
      NetConfirmedIsLastWrite(init);
    }
  }

  /**
   The honest form of "confirmation is one-way": a confirmed booking stays
   confirmed through any run in which no `setBooking` writes `confirmed: false`.
   */
  lemma {:induction false} ConfirmedPersistsUnlessReset(b: Booking, ms: seq<Mutation>)
    requires b.confirmed
    requires forall i :: 0 <= i < |ms| ==> AsPayload(ms[i]).confirmed != Some(false)
    ensures Run(b, ms).confirmed
    decreases |ms|
  {
    if ms != [] {
      assert AsPayload(ms[0]).confirmed != Some(false);
      assert forall i :: 0 <= i < |ms[1..]| ==> ms[1..][i] == ms[i + 1];
      ConfirmedPersistsUnlessReset(Apply(b, ms[0]), ms[1..]);
    }
  }

  /** Choosing a date, then a time, keeps both. */
  lemma DateThenTime(b: Booking, d: Option<Date>, t: Option<Time>)
    ensures var r := Run(b, [SetBooking(Payload(Some(d), None, None, None)),
                             SetBooking(Payload(None, Some(t), None, None))]);
      r.date == d && r.time == t && r.service == b.service && r.confirmed == b.confirmed
  {
    var first, second := SetBooking(Payload(Some(d), None, None, None)),
                         SetBooking(Payload(None, Some(t), None, None));
    assert [first, second][1..] == [second];
    assert [second][1..] == [];
    assert Run(b, [first, second]) == Run(Apply(b, first), [second]);
    assert Run(Apply(b, first), [second]) == Run(Apply(Apply(b, first), second), []);
  }

  /**
   Choosing a date and a service, then confirming, from the initial record:
   the time stays unset and the booking is confirmed.
   */
  lemma ChooseThenConfirm()
    ensures Run(Initial, [
        SetBooking(Payload(Some(Some("2024-06-01")), None, Some(Some("haircut")), None)),
        ConfirmBooking]) ==
      Booking(Some("2024-06-01"), None, Some("haircut"), true)
  {
  }

  // ---------------------------------------------------------------------
  // The record as a JavaScript object, where `...` is a map union
  // ---------------------------------------------------------------------

  datatype Key = DateKey | TimeKey | ServiceKey | ConfirmedKey

  /** The run-time values the record's keys hold. */
  datatype Value = Null | Text(text: string) | Flag(flag: bool)

  type JsObject = map<Key, Value>

  const BookingKeys: set<Key> := {DateKey, TimeKey, ServiceKey, ConfirmedKey}

  /** `{ ...a, ...b }`: the keys of both, the value of `b` where both have one. */
  function Spread(a: JsObject, b: JsObject): (r: JsObject)
    ensures r.Keys == a.Keys + b.Keys
    ensures forall k :: k in b ==> r[k] == b[k]
    ensures forall k :: k in a && k !in b ==> r[k] == a[k]
  {
    a + b
  }

  /** A nullable field's run-time value. */
  function Nullable(v: Option<string>): (r: Value)
    ensures r == Null <==> v.None?
    ensures v.Some? ==> r.Text? && r.text == v.value
  {
    match v
    case None => Null
    case Some(s) => Text(s)
  }

  /** The object the store holds for a record: all four keys are present. */
  function ToObject(b: Booking): (o: JsObject)
    ensures o.Keys == BookingKeys
  {
    map[DateKey := Nullable(b.date), TimeKey := Nullable(b.time),
        ServiceKey := Nullable(b.service), ConfirmedKey := Flag(b.confirmed)]
  }

  /** Distinct records are distinct objects. */
  lemma ToObjectInjective(b: Booking, c: Booking)
    requires ToObject(b) == ToObject(c)
    ensures b == c
  {
  }

  /** `o` with key `k` set to `v` when `v` is present. */
  function PutIfPresent(o: JsObject, k: Key, v: Option<Value>): JsObject {
    match v
    case Some(x) => o[k := x]
    case None => o
  }

  /** The run-time value of a nullable payload key, when the key is present. */
  function NullableKey(key: Option<Option<string>>): Option<Value> {
    match key
    case Some(v) => Some(Nullable(v))
    case None => None
  }

  /** The run-time value of the payload's `confirmed` key, when present. */
  function FlagKey(key: Option<bool>): Option<Value> {
    match key
    case Some(c) => Some(Flag(c))
    case None => None
  }

  /** The object a payload is: exactly the keys it sets. */
  function PayloadObject(p: Payload): (o: JsObject)
    ensures DateKey in o <==> p.date.Some?
    ensures TimeKey in o <==> p.time.Some?
    ensures ServiceKey in o <==> p.service.Some?
    ensures ConfirmedKey in o <==> p.confirmed.Some?
    ensures p.date.Some? ==> o[DateKey] == Nullable(p.date.value)
    ensures p.time.Some? ==> o[TimeKey] == Nullable(p.time.value)
    ensures p.service.Some? ==> o[ServiceKey] == Nullable(p.service.value)
    ensures p.confirmed.Some? ==> o[ConfirmedKey] == Flag(p.confirmed.value)
  {
    var withDate := PutIfPresent(map[], DateKey, NullableKey(p.date));
    var withTime := PutIfPresent(withDate, TimeKey, NullableKey(p.time));
    var withService := PutIfPresent(withTime, ServiceKey, NullableKey(p.service));
    PutIfPresent(withService, ConfirmedKey, FlagKey(p.confirmed))
  }

  /**
   `Merge` is the object spread of the source: the merged record, as an
   object, is the old record's object spread with the payload's.
   */
  lemma MergeIsSpread(b: Booking, p: Payload)
    ensures ToObject(Merge(b, p)) == Spread(ToObject(b), PayloadObject(p))
  {
  }

  /** `confirmBooking` is the property assignment `booking.confirmed = true`. */
  lemma ConfirmIsAssignment(b: Booking)
    ensures ToObject(Confirm(b)) == ToObject(b)[ConfirmedKey := Flag(true)]
  {
  }
}
