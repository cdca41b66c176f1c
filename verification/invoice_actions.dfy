/**
 The three invoice server actions as transitions of an abstract invoice
 store. The database is a map from invoice id to row; whether the one SQL
 statement an action issues goes through or throws is an input, since the
 database is outside the model. Each action yields exactly one outcome: a
 returned form state, or a revalidation of the invoice list followed by a
 redirect to it.
 */
module InvoiceActions {
  import opened InvoiceForm
  import Strings

  type Id = string

  /** One row of the `invoices` table. `amount` holds cents. */
  datatype Invoice = Invoice(customerId: string, amount: real, status: Status, date: string)

  type Store = map<Id, Invoice>

  /** How the one SQL statement of an action ends: it goes through, or it
      throws with the given error text. */
  datatype StoreReply = Succeeds | Throws(error: string)

  /** The object an action returns to the form. The update failure object
      spells its key `messsage`, so it is a shape of its own. */
  datatype Returned =
    | ErrorsAndMessage(errors: FieldErrors, message: string)
    | Message(message: string)
    | Messsage(messsage: string)

  /** What an action does when it finishes: return a value (having first
      revalidated the invoice list or not), or revalidate the invoice list
      and redirect to `path`. */
  datatype Outcome =
    | Return(value: Returned, revalidated: bool)
    | RevalidateAndRedirect(path: string)

  /** The outcome of an action together with the store it leaves behind. */
  datatype Step = Step(outcome: Outcome, store: Store)

  const InvoicesPath := "/dashboard/invoices"
  const CreateMissingFields := "Missing Fields. Failed to Create Invoice."
  const UpdateMissingFields := "Missing Fields. Failed to Update Invoice"
  const DeletedMessage := "Deleted Invoice."

  function CreateDbError(e: string): string { "Database Error: " + e + " // Failed to Create Invoice." }
  function UpdateDbError(e: string): string { "Database Error: " + e + " // Failed to Update Invoice" }
  function DeleteDbError(e: string): string { "Database Error: " + e + " // Failed to Delete Invoice." }

  /** What a form rendering the returned state finds in `state.message`,
      the key the `State` type declares. */
  datatype ShownMessage = NoMessage | Shows(text: string)

  function StateMessage(r: Returned): ShownMessage {
    match r
    case ErrorsAndMessage(_, m) => Shows(m)
    case Message(m) => Shows(m)
    case Messsage(_) => NoMessage
  }

  /** `amount * 100`: the amount in cents, without rounding. */
  function ToCents(amount: real): real { amount * 100.0 }

  /** `new Date().toISOString().split('T')[0]` for the timestamp `now`. */
  function DateOf(now: string): string { Strings.BeforeFirst(now, 'T') }

  /** A row this code could have written: a positive amount and a date with
      no time part. */
  ghost predicate GoodRow(inv: Invoice) {
    inv.amount > 0.0 && 'T' !in inv.date
  }

  ghost predicate GoodStore(store: Store) {
    forall id :: id in store ==> GoodRow(store[id])
  }

  /** `createInvoice`. The database assigns the new row's id; `freshId`
      stands for it and is not yet in use. `now` is the clock's ISO
      timestamp. */
  function CreateInvoice(store: Store, d: Draft, toNumber: string -> JsNumber, now: string, freshId: Id, reply: StoreReply): (s: Step)
    requires freshId !in store
    ensures s.outcome.RevalidateAndRedirect? <==> Validate(d, toNumber).Valid? && reply.Succeeds?
    ensures s.outcome.RevalidateAndRedirect? ==>
      && s.outcome.path == InvoicesPath
      && s.store.Keys == store.Keys + {freshId}
      && (forall id :: id in store ==> s.store[id] == store[id])
      && s.store[freshId].customerId == Validate(d, toNumber).customerId
      && s.store[freshId].amount == 100.0 * Validate(d, toNumber).amount
      && s.store[freshId].status == Validate(d, toNumber).status
      && s.store[freshId].date <= now && 'T' !in s.store[freshId].date
      && (|s.store[freshId].date| < |now| ==> now[|s.store[freshId].date|] == 'T')
    ensures s.outcome.Return? ==> s.store == store && !s.outcome.revalidated
    ensures Validate(d, toNumber).Invalid? ==>
      s.outcome.value == ErrorsAndMessage(Validate(d, toNumber).errors, CreateMissingFields)
    ensures Validate(d, toNumber).Valid? && reply.Throws? ==>
      s.outcome.value == Message(CreateDbError(reply.error))
  {
    match Validate(d, toNumber)
    case Invalid(errors) => Step(Return(ErrorsAndMessage(errors, CreateMissingFields), false), store)
    case Valid(customerId, amount, status) =>
      var row := Invoice(customerId, ToCents(amount), status, DateOf(now));
      match reply
      case Throws(e) => Step(Return(Message(CreateDbError(e)), false), store)
      case Succeeds => Step(RevalidateAndRedirect(InvoicesPath), store[freshId := row])
  }

  /** `updateInvoice` as written: the failure object carries its text under
      the key `messsage`. An `UPDATE` whose `WHERE id` matches no row
      succeeds and changes nothing. */
  function UpdateInvoice(store: Store, id: Id, d: Draft, toNumber: string -> JsNumber, reply: StoreReply): (s: Step)
    ensures s.outcome.RevalidateAndRedirect? <==> Validate(d, toNumber).Valid? && reply.Succeeds?
    ensures s.outcome.RevalidateAndRedirect? ==> s.outcome.path == InvoicesPath
    ensures s.store.Keys == store.Keys
    ensures forall k :: k in store && k != id ==> s.store[k] == store[k]
    ensures id in store ==> s.store[id].date == store[id].date
    ensures s.outcome.RevalidateAndRedirect? && id in store ==>
      && s.store[id].customerId == Validate(d, toNumber).customerId
      && s.store[id].amount == 100.0 * Validate(d, toNumber).amount
      && s.store[id].status == Validate(d, toNumber).status
    ensures s.outcome.Return? ==> s.store == store && !s.outcome.revalidated
    ensures Validate(d, toNumber).Invalid? ==>
      s.outcome.value == ErrorsAndMessage(Validate(d, toNumber).errors, UpdateMissingFields)
    ensures Validate(d, toNumber).Valid? && reply.Throws? ==>
      s.outcome.value == Messsage(UpdateDbError(reply.error))
  {
    match Validate(d, toNumber)
    case Invalid(errors) => Step(Return(ErrorsAndMessage(errors, UpdateMissingFields), false), store)
    case Valid(customerId, amount, status) =>
      match reply
      case Throws(e) => Step(Return(Messsage(UpdateDbError(e)), false), store)
      case Succeeds =>
        var updated :=
          if id in store then store[id := store[id].(customerId := customerId, amount := ToCents(amount), status := status)]
          else store;
        Step(RevalidateAndRedirect(InvoicesPath), updated)
  }

  /** `updateInvoice` with the failure key spelled `message`, as the `State`
      type and the other two actions spell it. Everything else, the store
      included, is as in `UpdateInvoice`. */
  function UpdateInvoiceFixed(store: Store, id: Id, d: Draft, toNumber: string -> JsNumber, reply: StoreReply): (s: Step)
    ensures s.store == UpdateInvoice(store, id, d, toNumber, reply).store
    ensures !(Validate(d, toNumber).Valid? && reply.Throws?) ==> s == UpdateInvoice(store, id, d, toNumber, reply)
    ensures s.outcome.Return? ==> !s.outcome.revalidated
    ensures s.outcome.RevalidateAndRedirect? <==> Validate(d, toNumber).Valid? && reply.Succeeds?
    ensures s.outcome.Return? ==> StateMessage(s.outcome.value).Shows?
    ensures Validate(d, toNumber).Valid? && reply.Throws? ==>
      s.outcome.value == Message(UpdateDbError(reply.error))
  {
    var s := UpdateInvoice(store, id, d, toNumber, reply);
    if s.outcome.Return? && s.outcome.value.Messsage? then
      Step(Return(Message(s.outcome.value.messsage), s.outcome.revalidated), s.store)
    else
      s
  }

  /** `deleteInvoice`: a `DELETE` of a row that is not there succeeds too. */
  function DeleteInvoice(store: Store, id: Id, reply: StoreReply): (s: Step)
    ensures s.outcome.Return?
    ensures reply.Succeeds? ==>
      && s.outcome == Return(Message(DeletedMessage), true)
      && s.store.Keys == store.Keys - {id}
      && (forall k :: k in s.store ==> s.store[k] == store[k])
    ensures reply.Throws? ==>
      s == Step(Return(Message(DeleteDbError(reply.error)), false), store)
  {
    match reply
    case Throws(e) => Step(Return(Message(DeleteDbError(e)), false), store)
    case Succeeds => Step(Return(Message(DeletedMessage), true), store - {id})
  }

  /** Create and delete report a database error under `message`; update
      reports it under `messsage`. */
  lemma DbErrorShapes(store: Store, id: Id, d: Draft, toNumber: string -> JsNumber, now: string, freshId: Id, e: string)
    requires freshId !in store
    requires Validate(d, toNumber).Valid?
    ensures CreateInvoice(store, d, toNumber, now, freshId, Throws(e)).outcome.value.Message?
    ensures UpdateInvoice(store, id, d, toNumber, Throws(e)).outcome.value.Messsage?
    ensures DeleteInvoice(store, id, Throws(e)).outcome.value.Message?
  {
  }

  /** As written, a valid update whose statement throws returns an object
      with no `message`: the form shows nothing of the database error. */
  lemma UpdateDbErrorIsNotShown(store: Store, id: Id, d: Draft, toNumber: string -> JsNumber, e: string)
    requires Validate(d, toNumber).Valid?
    ensures StateMessage(UpdateInvoice(store, id, d, toNumber, Throws(e)).outcome.value) == NoMessage
  {
  }

  /** Create and delete, like the corrected update, always give the form a
      message when they return. */
  lemma ReturnedStatesShowMessage(store: Store, id: Id, d: Draft, toNumber: string -> JsNumber, now: string, freshId: Id, reply: StoreReply)
    requires freshId !in store
    ensures CreateInvoice(store, d, toNumber, now, freshId, reply).outcome.Return? ==>
      StateMessage(CreateInvoice(store, d, toNumber, now, freshId, reply).outcome.value).Shows?
    ensures StateMessage(DeleteInvoice(store, id, reply).outcome.value).Shows?
  {
  }

  /** Every action keeps every row a positive amount with a date and no time. */
  lemma ActionsPreserveGoodStore(store: Store, id: Id, d: Draft, toNumber: string -> JsNumber, now: string, freshId: Id, reply: StoreReply)
    requires GoodStore(store)
    requires freshId !in store
    ensures GoodStore(CreateInvoice(store, d, toNumber, now, freshId, reply).store)
    ensures GoodStore(UpdateInvoice(store, id, d, toNumber, reply).store)
    ensures GoodStore(DeleteInvoice(store, id, reply).store)
  {
  }

  /** Deleting the same id twice leaves the store as deleting it once, and
      the second delete reports success again. */
  lemma DeleteTwice(store: Store, id: Id)
    ensures DeleteInvoice(DeleteInvoice(store, id, Succeeds).store, id, Succeeds) ==
      DeleteInvoice(store, id, Succeeds)
  {
  }

  /** Submitting customer "c1", amount "0" and status "pending" is a
      validation failure that leaves the store alone. */
  lemma ZeroAmountIsRejected(store: Store, toNumber: string -> JsNumber, now: string, freshId: Id, reply: StoreReply)
    requires freshId !in store
    requires toNumber("0") == Finite(0.0)
    ensures var s := CreateInvoice(store, Draft(Text("c1"), Text("0"), Text("pending")), toNumber, now, freshId, reply);
      && s.store == store
      && s.outcome.Return?
      && s.outcome.value.ErrorsAndMessage?
      && s.outcome.value.errors.amount == [Custom(AmountError)]
  {
  }

  /** Submitting customer "c1", amount "50" and status "paid" inserts one
      row of 5000 cents dated by the clock, then redirects to the list. */
  lemma FiftyDollarsAreStoredAsCents(store: Store, toNumber: string -> JsNumber, freshId: Id)
    requires freshId !in store
    requires toNumber("50") == Finite(50.0)
    ensures var s := CreateInvoice(store, Draft(Text("c1"), Text("50"), Text("paid")), toNumber, "2024-05-01T10:20:30.000Z", freshId, Succeeds);
      && s.outcome == RevalidateAndRedirect(InvoicesPath)
      && s.store == store[freshId := Invoice("c1", 5000.0, Paid, "2024-05-01")]
  {
    var now := "2024-05-01T10:20:30.000Z";
    assert "2024-05-01" == now[..10];
    Strings.BeforeFirstUnique(now, 'T', "2024-05-01");
  }
}
