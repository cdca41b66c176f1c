/**
 The invoice form schema of the server actions: how the three submitted
 fields `customerId`, `amount` and `status` are read, coerced and checked
 before an invoice is created or updated. Create and update use the same
 schema (the full schema without `id` and `date`).
 */
module InvoiceForm {

  /** What `FormData.get(name)` yields: `null` when the field was not
      submitted, the text of an ordinary entry, or an uploaded file. */
  datatype FormValue = Missing | Text(text: string) | Upload

  /** The untrusted field bag a create or update form submits. */
  datatype Draft = Draft(customerId: FormValue, amount: FormValue, status: FormValue)

  /** A JavaScript number as `Number(...)` produces it; finite values are
      modelled exactly, as reals. */
  datatype JsNumber = Finite(value: real) | NaN

  /** The closed invoice-status enum. */
  datatype Status = Pending | Paid

  /** A message attached to one field: one of the schema's own texts, or one
      of zod's built-in messages, which the model names without spelling out. */
  datatype FieldMessage = Custom(text: string) | NotANumber | NotAnEnumValue

  /** The `fieldErrors` of a failed parse; an empty list stands for a field
      the flattened error object leaves out. */
  datatype FieldErrors = FieldErrors(customerId: seq<FieldMessage>, amount: seq<FieldMessage>, status: seq<FieldMessage>)

  /** The outcome of `safeParse`: the parsed fields, or the field errors. */
  datatype Validated =
    | Valid(customerId: string, amount: real, status: Status)
    | Invalid(errors: FieldErrors)

  const CustomerError := "Please select a customer"
  const AmountError := "Please enter an amount greater than $0."
  const StatusError := "Please select an invoice status."

  const NoErrors := FieldErrors([], [], [])

  function StatusName(s: Status): string {
    match s
    case Pending => "pending"
    case Paid => "paid"
  }

  /** `Number(v)`, the coercion in front of the amount check: `Number(null)`
      and `Number("")` are 0, a file becomes NaN, and any other text goes
      through the engine's string-to-number conversion `toNumber`, which the
      model leaves as a parameter. */
  function CoerceNumber(v: FormValue, toNumber: string -> JsNumber): JsNumber {
    match v
    case Missing => Finite(0.0)
    case Upload => NaN
    case Text(t) => if t == "" then Finite(0.0) else toNumber(t)
  }

  /** The message of the `customerId` rule, if the value breaks it:
      `z.string()` with a custom invalid-type message. */
  function CustomerIdIssue(v: FormValue): seq<FieldMessage> {
    if v.Text? then [] else [Custom(CustomerError)]
  }

  /** The message of the `amount` rule, if the value breaks it:
      `z.coerce.number()` (NaN is an invalid number, with zod's own message)
      followed by `.gt(0)` with a custom message. */
  function AmountIssue(v: FormValue, toNumber: string -> JsNumber): seq<FieldMessage> {
    match CoerceNumber(v, toNumber)
    case NaN => [NotANumber]
    case Finite(x) => if x > 0.0 then [] else [Custom(AmountError)]
  }

  /** The message of the `status` rule, if the value breaks it: `z.enum`
      with a custom invalid-type message for a non-string and zod's own
      message for a string outside the enum. */
  function StatusIssue(v: FormValue): seq<FieldMessage> {
    match v
    case Text(t) => if t == "pending" || t == "paid" then [] else [NotAnEnumValue]
    case _ => [Custom(StatusError)]
  }

  function ParseStatus(t: string): Status
    requires t == "pending" || t == "paid"
  {
    if t == "pending" then Pending else Paid
  }

  /** The three rules of the schema, stated directly on the draft. */
  ghost predicate SchemaAccepts(d: Draft, toNumber: string -> JsNumber) {
    && d.customerId.Text?
    && CoerceNumber(d.amount, toNumber).Finite?
    && CoerceNumber(d.amount, toNumber).value > 0.0
    && d.status.Text?
    && d.status.text in {"pending", "paid"}
  }

  /** `safeParse` of the create/update schema. Every field is checked, so a
      failed parse reports every broken field, each with one message. */
  function Validate(d: Draft, toNumber: string -> JsNumber): (r: Validated)
    ensures r.Valid? <==> SchemaAccepts(d, toNumber)
    ensures r.Valid? ==>
      && d.customerId == Text(r.customerId)
      && CoerceNumber(d.amount, toNumber) == Finite(r.amount)
      && r.amount > 0.0
      && d.status == Text(StatusName(r.status))
    ensures r.Invalid? ==>
      && r.errors != NoErrors
      && |r.errors.customerId| <= 1 && |r.errors.amount| <= 1 && |r.errors.status| <= 1
  {
    var errors := FieldErrors(CustomerIdIssue(d.customerId), AmountIssue(d.amount, toNumber), StatusIssue(d.status));
    if errors == NoErrors then
      Valid(d.customerId.text, CoerceNumber(d.amount, toNumber).value, ParseStatus(d.status.text))
    else
      Invalid(errors)
  }

  /** The field errors of a parse; none for a successful one. */
  function ErrorsOf(r: Validated): FieldErrors {
    if r.Invalid? then r.errors else NoErrors
  }

  /** `customerId` fails exactly when it is not a string (a missing field or
      a file), and then with "Please select a customer". */
  lemma CustomerIdRule(d: Draft, toNumber: string -> JsNumber)
    ensures ErrorsOf(Validate(d, toNumber)).customerId == [Custom(CustomerError)] <==> !d.customerId.Text?
    ensures ErrorsOf(Validate(d, toNumber)).customerId == [] <==> d.customerId.Text?
  {
  }

  /** Any string passes the `customerId` rule, the empty one included. */
  lemma EmptyCustomerIdPasses(d: Draft, toNumber: string -> JsNumber)
    requires d.customerId == Text("")
    requires CoerceNumber(d.amount, toNumber) == Finite(12.5)
    requires d.status == Text("paid")
    ensures Validate(d, toNumber) == Valid("", 12.5, Paid)
  {
  }

  /** The coerced amount passes exactly when it is a number greater than 0;
      a number at or below 0 gets the custom message. */
  lemma AmountRule(d: Draft, toNumber: string -> JsNumber)
    ensures ErrorsOf(Validate(d, toNumber)).amount == [] <==>
      CoerceNumber(d.amount, toNumber).Finite? && CoerceNumber(d.amount, toNumber).value > 0.0
    ensures ErrorsOf(Validate(d, toNumber)).amount == [Custom(AmountError)] <==>
      CoerceNumber(d.amount, toNumber).Finite? && CoerceNumber(d.amount, toNumber).value <= 0.0
  {
  }

  /** A missing or empty amount coerces to 0 and is rejected with
      "Please enter an amount greater than $0.". */
  lemma MissingAmountRejected(d: Draft, toNumber: string -> JsNumber)
    requires d.amount == Missing || d.amount == Text("")
    ensures Validate(d, toNumber).Invalid?
    ensures Validate(d, toNumber).errors.amount == [Custom(AmountError)]
  {
  }

  /** `status` passes exactly when it is "pending" or "paid"; a value that
      is not a string gets "Please select an invoice status.". */
  lemma StatusRule(d: Draft, toNumber: string -> JsNumber)
    ensures ErrorsOf(Validate(d, toNumber)).status == [] <==>
      d.status == Text("pending") || d.status == Text("paid")
    ensures ErrorsOf(Validate(d, toNumber)).status == [Custom(StatusError)] <==> !d.status.Text?
  {
  }
}
