# Booking store

A model of the state container of a small booking widget
(`src/store/index.js`). The store owns one `booking` record with the keys
`date`, `time`, `service` (each `null` until chosen) and `confirmed`
(initially `false`), and two mutations:

- `setBooking(payload)` replaces the record by `{ ...booking, ...payload }`:
  every key the payload carries wins, an explicit `null` or
  `confirmed: false` included, and every key it does not carry keeps its
  value;
- `confirmBooking()` writes `booking.confirmed = true` whatever it was.

Everything lives in module `Store` (`store.dfy`):

- `Booking` is the record, with `None` for `null`; `Payload` is a partial
  record whose outer `Option` says whether a key is present at all, so
  "absent" and "present with value `null`" stay apart.
- `Merge` and `Confirm` are the two mutations as functions of the record;
  class `BookingStore` holds the record in a field and its constructor and
  methods `SetBooking` and `ConfirmBooking` change it in place, specified by
  those functions.
- The record is also modelled as the JavaScript object it is at run time
  (`JsObject`, a map from key to value), where the spread is a map union
  (`Spread`) and `confirmBooking` is a property assignment; `MergeIsSpread`
  and `ConfirmIsAssignment` show that the record-level functions are exactly
  those object operations.
- `Run` applies a sequence of committed mutations; `RunIsMerge` shows a run
  amounts to one merge of its composed payload (`Net`), and
  `ConfirmedIsLastWrite` that the final `confirmed` flag is the value of the
  last mutation that wrote it.

The confirmation flag is not one-way. Although it reads as a switch from
unconfirmed to confirmed, the code lets `setBooking({ confirmed: false })`
(or any payload carrying `confirmed: false`) reset it, because the payload
spread comes last (`src/store/index.js:14`). The model follows the code:
`ConfirmationCanBeUndone` exhibits the reset, and
`ConfirmedPersistsUnlessReset` states the invariant that does hold.

## Model

| member | source | states |
|---|---|---|
| `Store.BookingStore.constructor` | src/store/index.js:5-10 | a fresh store holds `date`, `time`, `service` all null and `confirmed` false |
| `Store.BookingStore.SetBooking` | src/store/index.js:13-15 | the new record is the old one merged with the payload; a payload carrying `confirmed: false` leaves the booking unconfirmed |
| `Store.BookingStore.ConfirmBooking` | src/store/index.js:16-18 | afterwards `confirmed` is true whatever it was, and `date`, `time`, `service` are unchanged |
| `Store.Merge` | src/store/index.js:14 | each key present in the payload takes the payload's value (explicit null and `confirmed: false` included); each absent key keeps its prior value |
| `Store.Confirm` | src/store/index.js:17 | the result is confirmed and agrees with the input on `date`, `time` and `service` |
| `Store.MergeNoKeys` | src/store/index.js:14 | `setBooking({})` leaves the record unchanged |
| `Store.MergeIdempotent` | src/store/index.js:14 | applying the same payload twice gives the record applying it once gives |
| `Store.MergeDisjointCommute` | src/store/index.js:14 | two payloads that set no key in common commute |
| `Store.DateThenTime` | src/store/index.js:14 | `{date: D}` then `{time: T}` yields both `D` and `T`, other keys unchanged |
| `Store.ConfirmIsMerge` | src/store/index.js:14-17 | `confirmBooking()` has the effect of `setBooking({confirmed: true})` |
| `Store.ConfirmIdempotent` | src/store/index.js:17 | confirming twice gives the record confirming once gives |
| `Store.ConfirmationCanBeUndone` | src/store/index.js:14-17 | after `confirmBooking()`, `setBooking({confirmed: false})` makes the booking unconfirmed again |
| `Store.Then` | src/store/index.js:14 | the composed payload carries the keys of both, the later payload's value winning |
| `Store.MergeThen` | src/store/index.js:14 | merging two payloads in turn equals merging their composition once |
| `Store.RunIsMerge` | src/store/index.js:13-18 | any sequence of mutations leaves the record a single merge of the composed payload of the sequence would |
| `Store.ConfirmedIsLastWrite` | src/store/index.js:13-18 | after a sequence, the booking is confirmed iff the last mutation writing `confirmed` wrote true, or none wrote it and it was confirmed before |
| `Store.ConfirmedPersistsUnlessReset` | src/store/index.js:13-18 | a confirmed booking stays confirmed through any sequence in which no `setBooking` carries `confirmed: false` |
| `Store.ChooseThenConfirm` | src/store/index.js:5-18 | from the initial record, setting date and service then confirming gives that date and service, no time, confirmed |
| `Store.Spread` | src/store/index.js:14 | `{...a, ...b}` has the keys of both objects, with `b`'s value wherever `b` has the key |
| `Store.ToObject` | src/store/index.js:5-10 | the record's run-time object has exactly the four booking keys |
| `Store.ToObjectInjective` | src/store/index.js:5-10 | distinct records have distinct run-time objects, so a record is determined by its object |
| `Store.PayloadObject` | src/store/index.js:13-14 | a payload's object has exactly the keys the payload carries, with their values |
| `Store.MergeIsSpread` | src/store/index.js:14 | the merged record's object is the old record's object spread with the payload's object |
| `Store.ConfirmIsAssignment` | src/store/index.js:17 | the confirmed record's object is the old object with `confirmed` assigned `true` |

## Left out

- The `createStore` container of the vuex library (reactivity, `commit` and dispatch, devtools, plugins): third-party code that is not part of this model; the mutations use nothing of it but the state and the payload.
- Payload keys other than the four booking keys: the spread would copy them into the record as well; the model fixes the record to its four keys.
- Values are typed per key (strings or null for `date`, `time`, `service`, a boolean for `confirmed`); the code stores any value it is given without validation, and no operation inspects the values.
- Object identity: `setBooking` allocates a new object rather than changing the old one; the model keeps only the resulting value in the store's field.
- Concurrency and the UI that commits the mutations: all calls are synchronous and single-writer, and none of that code is in the store.
