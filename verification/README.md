# Invoice dashboard: validation, writes, search and access gate

A Dafny model of the decision logic of a small invoice-management dashboard.
It covers three independent pieces:

- **The invoice server actions** (`app/lib/actions.ts`). The form schema
  checks three submitted fields: `customerId` must be a string; `amount` is
  coerced to a number and must be greater than 0; `status` must be
  `pending` or `paid`. `createInvoice`, `updateInvoice` and `deleteInvoice`
  act on the `invoices` table. Here the table is a map from invoice id to
  row, and whether the one SQL statement goes through or throws is an input.
  Each action ends in exactly one outcome. It either returns a form state
  (field errors with a message, or a message alone) or revalidates the
  invoice list and redirects to it.
- **The search box's `handleSearch`** (`app/ui/search.tsx`). It copies the
  current query parameters and applies `URLSearchParams` `set`/`delete` to
  `query`, following section 6.2 of the WHATWG URL Standard. It then hands
  `pathname?params` to the router. Parameters are a `seq<(string, string)>`.
- **The `authorized` callback** (`app/auth.config.ts`). From the signed-in
  flag and the pathname it decides allow, deny (sent to `/login`), or
  redirect to `/dashboard`. The decision rests on a raw `startsWith`.

Modules: `Strings` (`startsWith`, `split(c)[0]`), `InvoiceForm` (schema),
`InvoiceActions` (the three actions), `UrlSearchParams` (the list and its
operations), `Search` (`handleSearch`), `AuthConfig` (the callback).

Several inputs stand in for things outside the model:

- The database's reply is a `StoreReply`: it `Succeeds` or `Throws(error)`.
- The id the database assigns to a new row is `freshId`, which must not be in use.
- The clock's ISO timestamp is `now`.
- The engine's string-to-number conversion is `toNumber`.
- The form-urlencoded percent-encoder is `encode`.

The model follows the code, which differs from what one might expect here:

- An empty `customerId` passes: `z.string()` accepts every string.
- The "Please select an invoice status." message only appears when `status`
  is not a string. A string outside the enum gets zod's own message.
- `amount * 100` has no rounding.
- The search box neither debounces nor resets `page` to 1.

## Model

| member | source | states |
|---|---|---|
| Strings.StartsWith | app/auth.config.ts:11 | `startsWith` holds exactly when the prefix is an initial segment of the pathname |
| Strings.BeforeFirst | app/lib/actions.ts:59 | `split('T')[0]` is the prefix of the timestamp before its first `T`, holding no `T`, and all of it when there is no `T` |
| Strings.BeforeFirstUnique | app/lib/actions.ts:59 | those three properties determine the date part uniquely |
| InvoiceForm.Validate | app/lib/actions.ts:9-24 | a parse succeeds exactly when the three schema rules hold; on success the parsed fields are the submitted ones with a positive amount; a failure reports at least one field, one message per field |
| InvoiceForm.CustomerIdRule | app/lib/actions.ts:11-13 | `customerId` fails, with "Please select a customer", exactly when it is not a string |
| InvoiceForm.EmptyCustomerIdPasses | app/lib/actions.ts:11-13 | an empty string is an acceptable customer id |
| InvoiceForm.AmountRule | app/lib/actions.ts:15-17 | the coerced amount passes exactly when it is a number above 0; a number at or below 0 gets "Please enter an amount greater than $0." |
| InvoiceForm.MissingAmountRejected | app/lib/actions.ts:15-17 | a missing or empty amount coerces to 0 and is rejected with the custom message |
| InvoiceForm.StatusRule | app/lib/actions.ts:18-20 | `status` passes exactly when it is "pending" or "paid"; a non-string gets "Please select an invoice status." |
| InvoiceActions.CreateInvoice | app/lib/actions.ts:35-74 | redirects to the invoice list exactly when the draft is valid and the insert goes through, then adding one row with the customer, 100 times the amount, the status and the timestamp's text before its first `T`; otherwise the store is unchanged and the field errors with "Missing Fields. Failed to Create Invoice." or the database-error message is returned |
| InvoiceActions.UpdateInvoice | app/lib/actions.ts:78-114 | redirects exactly when the draft is valid and the update goes through; only the named row's customer, amount and status change, its date and all other rows stay; failures return the field errors with "Missing Fields. Failed to Update Invoice" or the database error under the misspelled key |
| InvoiceActions.UpdateInvoiceFixed | app/lib/actions.ts:107-109 | the update with its failure key spelled `message`: identical to the as-written update (store, redirect, field-error result) except that a database error is returned under `message`, not revalidated, so every returned state carries a message |
| InvoiceActions.DeleteInvoice | app/lib/actions.ts:117-126 | never redirects; on success removes exactly the row with that id, revalidates the list and returns "Deleted Invoice."; on failure returns the database-error message and changes nothing |
| InvoiceActions.DbErrorShapes | app/lib/actions.ts:66-69 | create and delete report a database error under `message`, update under `messsage` |
| InvoiceActions.UpdateDbErrorIsNotShown | app/lib/actions.ts:107-108 | a valid update whose statement throws returns no `message` for the form to show |
| InvoiceActions.ReturnedStatesShowMessage | app/lib/actions.ts:26-33 | every state create and delete return has a `message` |
| InvoiceActions.ActionsPreserveGoodStore | app/lib/actions.ts:58-65 | every action keeps each row's amount positive and its date free of a time part |
| InvoiceActions.DeleteTwice | app/lib/actions.ts:117-122 | deleting an id a second time succeeds with the same message and the same store |
| InvoiceActions.ZeroAmountIsRejected | app/lib/actions.ts:45-50 | creating with amount "0" fails validation on the amount and inserts nothing |
| InvoiceActions.FiftyDollarsAreStoredAsCents | app/lib/actions.ts:58-73 | creating with amount "50" inserts one row of 5000 cents with the timestamp's date, then redirects to the list |
| UrlSearchParams.Delete | app/ui/search.tsx:22 | `delete` leaves no entry of the name, keeps every other name's entries in order, and yields a subsequence of the input |
| UrlSearchParams.Set | app/ui/search.tsx:20 | `set` replaces the first entry of the name and drops the rest, or appends a new entry when there is none |
| UrlSearchParams.SetLeavesOneEntry | app/ui/search.tsx:20 | after `set` exactly one entry has the name, with the given value |
| UrlSearchParams.SetKeepsOthers | app/ui/search.tsx:20 | `set` leaves the entries of every other name as they were, in order |
| UrlSearchParams.SetKeepsOthersInOrder | app/ui/search.tsx:20 | `set` keeps all entries of other names in their original relative order |
| UrlSearchParams.SetIdempotent | app/ui/search.tsx:20 | setting the same value twice equals setting it once |
| UrlSearchParams.DeleteIdempotent | app/ui/search.tsx:22 | deleting twice equals deleting once |
| UrlSearchParams.Serialize | app/ui/search.tsx:27 | the serialized string is empty exactly when there are no entries |
| Search.SearchParams | app/ui/search.tsx:17-23 | a non-empty term leaves exactly one `query` entry, holding the term; the empty term leaves none; every other entry stays, in its original order |
| Search.SearchUrl | app/ui/search.tsx:27 | the URL is the pathname, `?`, then the serialized new parameters; nothing follows the `?` exactly when the term is empty and every entry was a `query` entry |
| Search.NonEmptyTermSetsQuery | app/ui/search.tsx:19-20 | for a non-empty term there is exactly one `query` entry, equal to the term |
| Search.EmptyTermDropsQuery | app/ui/search.tsx:21-22 | for the empty term there is no `query` entry |
| Search.OtherParamsKept | app/ui/search.tsx:17-23 | every entry not named `query` is kept, in its original order relative to all the others, and each name's entries are unchanged |
| Search.PageKept | app/ui/search.tsx:17-27 | the `page` entries are neither reset nor set |
| Search.SearchIdempotent | app/ui/search.tsx:17-23 | searching the same term twice gives the parameters of searching once |
| Search.SearchFromSecondPage | app/ui/search.tsx:15-28 | from `page=2`, typing "abc" gives `?page=2&query=abc` |
| AuthConfig.Authorized | app/auth.config.ts:9-20 | allow exactly when signed in and on the dashboard, or signed out and off it; deny exactly when signed out on the dashboard; redirect to "/dashboard" exactly when signed in off it |
| AuthConfig.DashboardXIsProtected | app/auth.config.ts:11 | "/dashboardX" counts as the dashboard |
| AuthConfig.RedirectTargetAllowed | app/auth.config.ts:16-17 | the redirect target is itself allowed for a signed-in user |
| AuthConfig.SignInPageReachable | app/auth.config.ts:5-7 | a signed-out visitor may open the sign-in page; a signed-in one is sent to the dashboard |
| AuthConfig.KnownDecisions | app/auth.config.ts:9-20 | signed out on "/dashboard/invoices" is denied, signed in on "/login" is redirected, signed in on "/dashboard" is allowed |

## Findings

| source | as written | input that shows it | evidently intended | confidence | as-written member | corrected member |
|---|---|---|---|---|---|---|
| app/lib/actions.ts:107-108 | the update failure object uses the key `messsage` | a valid update whose `UPDATE` throws | the key `message`, as in `State` and the other actions, so the form shows the database error | high; not executed | InvoiceActions.UpdateDbErrorIsNotShown | InvoiceActions.UpdateInvoiceFixed |

`InvoiceActions.UpdateInvoice` keeps the key as written. `UpdateInvoiceFixed`
has the same store behaviour and always gives the form a message.

## Left out

- The Postgres client: the table is a map. SQL text, bound parameters and the
  database's id generation are not modelled; `freshId` stands for the new id.
  Whether a statement fails is an input, and the error text is a string.
- Concurrency between actions: each action is one atomic step on the map.
- `revalidatePath`, `redirect` and `Response.redirect` are outcome
  constructors, not effects. The redirect URL keeps only its path.
  `console.log` is left out.
- The unused `prevState` argument, and the `id` and `date` fields of the
  schema, which both actions omit.
- JavaScript floating point: amounts are reals, so `amount * 100` is exact.
- InvoiceForm.Validate: `Number()` on text is the parameter `toNumber`,
  except that the empty string converts to 0. Infinities are not modelled,
  so an amount of `Infinity` is outside the model.
- zod's own messages (a NaN amount, a status string outside the enum) are
  named, not spelled out. Zod's other internals are left out.
- Debouncing and a `page=1` reset: the search box's code does neither.
- UrlSearchParams.Serialize: percent-encoding is the parameter `encode`.
  Only the `name=value` and `&` structure is modelled.
- The `Search` JSX, the icon and `defaultValue`, the `providers` list, and
  next.config.mjs: these are rendering and configuration with no logic.
