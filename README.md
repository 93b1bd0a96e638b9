# Frontfacturas: the invoicing workflow, modelled in Dafny

Frontfacturas is the web front end of a restaurant's self-service invoicing
(CFDI) portal. It has two screens, and this project models the logic of both.

- The customer screen (`src/App.tsx`). A diner:
  - looks up a dining check by date and ticket number (*numcheque*);
  - picks one of the orders found;
  - fills in a fiscal form (legal name, RFC, tax system, e-mail, postal code,
    CFDI use, payment form);
  - asks the backend to generate the invoice;
  - then has it e-mailed.
- The admin screen (`src/pages/Admin.tsx`). It keeps an admin token in the
  browser's `localStorage`. It lists invoices and customers through the admin
  endpoints, with a free-text filter. Each invoice row shows links to its
  PDF, XML and ZIP files.

The files:

- `js.dfy` (module `Js`) holds the JavaScript semantics the screens rely on:
  - values that may be missing;
  - the truthiness of numbers and strings, and `x || fallback`;
  - `String.prototype.trim`, with the full ECMAScript white-space and
    line-terminator set;
  - `padStart`;
  - `String(n)` for integers, with a reference reader `ReadInt` that undoes it.
- `io.dfy` (module `Io`) holds what a handler sees of the network and what it
  shows the user.
  - An awaited `fetch` plus `r.json()` ends in one `Outcome`: `Ok(payload)`,
    `HttpError(error?)` (a non-2xx status) or `NetworkError(message?)` (the call
    threw).
  - The toast a handler raises is a `Notice`, recorded by kind and text.
- `invoice_app.dfy` (module `InvoiceApp`) models the customer screen.
  - The screen's `useState` slots are the fields of the class `InvoiceWorkflow`.
  - Each asynchronous handler (`lookup`, `generarFactura`, `enviarFacturaEmail`)
    is split at its `await`:
    - a `Begin…` method runs the synchronous part: the guards, the resets and
      the request it would send;
    - a `Finish…` method takes the call's `Outcome` and runs the rest,
      including the `finally` that clears the loading flag.
  - The pure helpers are functions:
    - the default date;
    - the `selectedOrder` lookup;
    - the form rules;
    - the `disabled` predicates.
- `admin.dfy` (module `AdminPanel`) models the admin screen.
  - `localStorage` is a class holding a string map.
  - The screen is the class `Admin`, with the same Begin/Finish split for
    `fetchInvoices` and `fetchCustomers`.
  - The per-row file links are a function.

Where a handler closes over a value at the moment it was invoked, its
`Finish…` step receives that value. `FinishGenerate` takes the request built
from the form values. `FinishSendEmail` takes the recipient captured by
`BeginSendEmail`.

The backend's base URL (`VITE_API_BASE`) is the constant `api` of each screen.
The clock is replaced by the `(year, month0, day)` arguments of
`TodayUtcYYYYMMDD`.

Some of the code's behaviour is easy to overlook. The model follows the code:

- A new lookup does not clear `lastCustomerEmail`. `BeginLookup` keeps it.
- A failed generation does not restore the earlier state. `BeginGenerate` has
  already cleared `pdfUrl`. `FinishGenerate` on a failure leaves everything else
  as it was, including the earlier `invoiceId` and `zipUrl`.
- `generarFactura` guards on the truthiness of `selectedOrderId`. An order whose
  id is 0 therefore enables the form but generates nothing
  (`ZeroIdEnablesFormButNotGeneration`).
- A successful generation whose reply has no `pdfUrl` renders the template
  literal `${API}${data.pdfUrl}` with the text `undefined`, and one whose
  `pdfUrl` is `null` renders it with the text `null` (`TemplateText`). Either
  way the PDF link is not empty.
- antd's `required` rule rejects a missing or empty value but accepts one made
  only of spaces, because the rules do not set `whitespace: true`. The `len: 3`
  rule is checked only on a non-empty value.
- The admin fetches have a `try`/`finally` but no `catch`. A thrown call (a
  `NetworkError`) raises no notice: loading ends and the rows stay as they were.

## Model

| member | source | states |
|---|---|---|
| Js.OrElse | src/App.tsx:126-127 | the logical-or fallback on a string that may be missing: the value when it is non-empty, else the fallback; the result is empty only if the fallback is |
| Js.TrimStartSplits | src/App.tsx:73 | the leading-white-space strip leaves the suffix of `s` that starts at its first non-white-space character, and what it drops is all white space |
| Js.TrimEndSplits | src/App.tsx:73 | the trailing-white-space strip leaves the prefix of `s` that ends at its last non-white-space character, and what it drops is all white space |
| Js.TrimSpec | src/App.tsx:73 | `s.trim()` (the function `Trim`) is no longer than `s`, is empty exactly when `s` is all white space, and otherwise neither starts nor ends with white space |
| Js.TrimKeepsUnpadded | src/App.tsx:80 | a string with no white space at either end is its own trim |
| Js.TrimIdempotent | src/App.tsx:80 | trimming a trimmed text changes nothing |
| Js.NatToStringDigits | src/App.tsx:38-39 | `String(n)` (the function `NatToString`) for a non-negative integer is a non-empty run of decimal digits, with no leading zero, that denotes `n` |
| Js.IntToStringReadsBack | src/App.tsx:37-40 | `ReadInt` reads back `String(i)` (the function `IntToString`) as `i`, and the text starts with a minus sign exactly when `i` is negative |
| Js.IntToStringInjective | src/App.tsx:161 | different integer ids are rendered as different texts, so a route built from an id names that id alone |
| Js.PadStartShape | src/App.tsx:38-39 | `s.padStart(width, fill)` (the function `PadStart`) has length `width` or the length of `s`, whichever is larger; it ends with `s`, and is `fill` before that |
| Js.PadStartKeepsValue | src/App.tsx:38-39 | padding a digit string with zeros keeps it a digit string with the same value |
| Js.TemplateText | src/App.tsx:138 | a template literal renders a present string as itself, an absent field as `undefined` and `null` as `null`; the text is empty only for a present empty string |
| Io.FailureNotice | src/App.tsx:84-98 | a failed call raises an error notice: the server's `error` for a non-OK status, the exception's `message` for a thrown call, each replaced by its fallback text when missing or empty |
| InvoiceApp.TwoDigitsReadsBack | src/App.tsx:38-39 | a month or day number below 100 is written by `TwoDigits` as exactly two digits that denote it |
| InvoiceApp.TodayUtcLayout | src/App.tsx:35-41 | the default date (the function `TodayUtcYYYYMMDD`) is the year as `String` renders it, a dash, two digits denoting the UTC month plus one, a dash, and two digits denoting the UTC day |
| InvoiceApp.FindOrderIndex | src/App.tsx:60 | `find` stops at the first position whose order has the id, or past the end when none has it; no earlier order has the id |
| InvoiceApp.SelectedOrder | src/App.tsx:59-62 | there is a selected order exactly when an id is selected and some listed order has it; it is then the first such order |
| InvoiceApp.FiscalFormErrors | src/App.tsx:295-323 | the form passes exactly when the legal name and RFC are non-empty and the tax system is present and 3 characters long; each of the four rules (three "required", one `len: 3`) reports its own message for its field exactly when it fails, and no other error is reported |
| InvoiceApp.UntouchedFormFailsRequiredRules | src/App.tsx:295-344 | the form as first rendered, with only the initial values 601, G03 and 03, fails exactly the "required" rules of the legal name and the RFC, in that order |
| InvoiceApp.FormDisabled | src/App.tsx:289-293 | the fiscal form is disabled exactly when nothing is selected or no listed order has the selected id |
| InvoiceApp.InvoiceRequestFor | src/App.tsx:116-128 | the generation request carries the order id and the customer fields as entered; an empty or missing CFDI use becomes "G03" and an empty or missing payment form becomes "03" |
| InvoiceApp.GuardedSelectionEnablesForm | src/App.tsx:289-293 | whenever the generation guard accepts the selection, the form was enabled for it |
| InvoiceApp.ZeroIdEnablesFormButNotGeneration | src/App.tsx:105-108 | an order with id 0 enables the form, yet the truthiness guard treats it as no selection |
| InvoiceApp.InvoiceWorkflow.constructor | src/App.tsx:44-57 | the screen starts with today's UTC date, an empty ticket number, no orders, no selection, no invoice, empty links and e-mail, and every flag off |
| InvoiceApp.InvoiceWorkflow.ChangeDate | src/App.tsx:199-205 | the picked day becomes the date; clearing the picker makes it empty |
| InvoiceApp.InvoiceWorkflow.ChangeNumcheque | src/App.tsx:212-216 | the typed text becomes the ticket number |
| InvoiceApp.InvoiceWorkflow.BeginLookup | src/App.tsx:64-80 | called only while no lookup is loading (the button at line 221 is disabled then); every search first clears the invoice, both links, the results and the selection and closes the dialog, but keeps the captured e-mail; it issues a query (date, trimmed ticket number) and sets the loading flag exactly when the date and the trimmed ticket number are non-empty, and otherwise warns and leaves the flag off |
| InvoiceApp.InvoiceWorkflow.FinishLookup | src/App.tsx:81-101 | an OK reply's orders (or none) become the results; exactly one result is selected at once and enables the form; none or several leave the form disabled with an information notice; a failure leaves no results and no selection; loading always ends |
| InvoiceApp.InvoiceWorkflow.SelectOrder | src/App.tsx:238-241 | choosing a listed order selects its id and enables the form |
| InvoiceApp.InvoiceWorkflow.BeginGenerate | src/App.tsx:104-129 | a request is issued exactly when the selection is truthy (not missing, not 0); it is the request `InvoiceRequestFor` builds, the PDF link is cleared and loading set; otherwise a warning and no state change |
| InvoiceApp.InvoiceWorkflow.SubmitFiscalForm | src/App.tsx:289-347 | called only while no generation is loading (the submit button at line 347 ignores clicks then); a disabled form reports nothing and raises no notice; an enabled one reports the rule errors and, when one fails, raises no notice; with no errors it goes on as `generarFactura`, warning "Selecciona una orden." for a falsy selection; a truthy selection of a displayed order with a passing form always sends the request |
| InvoiceApp.InvoiceWorkflow.FinishGenerate | src/App.tsx:131-147 | on success the invoice id, the PDF link (base URL prefixed), the ZIP link (prefixed, or empty without one) and the captured e-mail are recorded and the dialog opens, and e-mailing becomes possible exactly when the id is truthy and the e-mail non-empty; on failure nothing else changes; loading always ends |
| InvoiceApp.InvoiceWorkflow.CloseModal | src/App.tsx:356 | cancelling the dialog closes it |
| InvoiceApp.InvoiceWorkflow.BeginSendEmail | src/App.tsx:149-375 | called only while no delivery is in progress (the button at line 374 ignores clicks then); the e-mail request to `/api/invoices/{id}/send-email` is issued exactly when the send button of line 375 is enabled (`SendEmailEnabled`: truthy invoice id, non-empty e-mail); the two guard failures warn in order; no invoice or selection state changes |
| InvoiceApp.SendEmailPathIdentifiesInvoice | src/App.tsx:161 | the e-mail route `/api/invoices/{id}/send-email` names the invoice it was built for: two different ids never give the same path |
| InvoiceApp.InvoiceWorkflow.FinishSendEmail | src/App.tsx:165-175 | success names the captured recipient, a failure raises the error notice, and the sending flag is cleared |
| InvoiceApp.SearchFindsSingleOrder | src/App.tsx:64-101 | a search with a date and a non-blank ticket number sends the date and trimmed ticket number the screen held when it was started, and that ticket number is its own trim; a single-order reply selects that order and enables the form with no invoice left over; the date, ticket number and captured e-mail are untouched |
| InvoiceApp.GenerateThenSearchAgain | src/App.tsx:64-147 | with a truthy selection, a valid form is sent for the selected order and its PDF is shown under the base URL; a new search then clears the invoice and links but keeps the captured e-mail, and the send button is disabled |
| AdminPanel.LocalStorage.GetItem | src/pages/Admin.tsx:40 | `getItem` finds the stored value exactly when the key was set |
| AdminPanel.LocalStorage.SetItem | src/pages/Admin.tsx:132 | `setItem` stores the value under the key and leaves every other key alone |
| AdminPanel.StoredToken | src/pages/Admin.tsx:40 | the initial token is the stored one, or empty when none is stored |
| AdminPanel.SavedTokenIsRestored | src/pages/Admin.tsx:131-134 | after the token is saved, the initial token read from storage is that token |
| AdminPanel.FileLink | src/pages/Admin.tsx:93-99 | each file link is the row's media URL when it is non-empty, else the backend route `{api}/api/invoices/{id}/pdf` (or `xml`, `zip`), and never empty |
| AdminPanel.DownloadRouteIdentifiesInvoice | src/pages/Admin.tsx:94-99 | two fallback routes (the function `DownloadRoute`) of the same kind are equal only for the same invoice id |
| AdminPanel.DownloadRoutesDiffer | src/pages/Admin.tsx:94-99 | the PDF, XML and ZIP fallback routes of one invoice are three different links |
| AdminPanel.Admin.constructor | src/pages/Admin.tsx:40-45 | the screen starts with the stored token, an empty filter, no rows and loading off |
| AdminPanel.Admin.EditToken | src/pages/Admin.tsx:145-148 | the typed text becomes the token |
| AdminPanel.Admin.EditFilter | src/pages/Admin.tsx:155-159 | the typed text becomes the filter |
| AdminPanel.Admin.SaveToken | src/pages/Admin.tsx:131-134 | the current token, exactly, is written under "adminToken", and a success notice is raised |
| AdminPanel.Admin.BeginFetchInvoices | src/pages/Admin.tsx:47-53 | loading is set and the invoice query carries the current filter, limit "100", offset "0" and the current token |
| AdminPanel.Admin.FinishFetchInvoices | src/pages/Admin.tsx:54-59 | an OK reply's rows (or none) replace the invoices and nothing else; a non-OK reply keeps them and raises the server's error or "Error cargando facturas"; a thrown call keeps them silently; loading always ends |
| AdminPanel.Admin.BeginFetchCustomers | src/pages/Admin.tsx:62-68 | loading is set and the customer query carries the current filter, limit "100", offset "0" and the current token |
| AdminPanel.Admin.FinishFetchCustomers | src/pages/Admin.tsx:69-74 | an OK reply's rows (or none) replace the customers and nothing else; a non-OK reply keeps them and raises the server's error or "Error cargando clientes"; a thrown call keeps them silently; loading always ends |
| AdminPanel.Admin.Mount | src/pages/Admin.tsx:77-80 | the invoice query runs at mount exactly when the token is non-empty |
| AdminPanel.SaveThenReload | src/pages/Admin.tsx:131-134 | saving a token and opening the screen again starts it with that token, and its mount-time query runs, carrying the token, exactly when the token is non-empty |

## Left out

- `fetch`, the HTTP transport, JSON decoding and the `URLSearchParams` encoding
  of the query strings. Each call is a request value from a `Begin…` step and an
  `Outcome` given to a `Finish…` step. The backend's matching rules are not
  visible from the front end.
- A reply whose body is not JSON is folded into `NetworkError`, since the
  awaited `r.json()` throws. So is a 2xx reply of the lookup, of the generation
  or of either admin fetch whose body decodes to `null`, since `data.orders`,
  `data.invoiceId` or `data.rows` then throws. Two `null` bodies do not throw:
  a non-2xx reply reads `data?.error`, so it is `HttpError(None)` and the
  handler's own fallback text is shown; and a 2xx reply of the e-mail delivery
  never reads `data`, so it is `Ok(())` and the success notice is shown.
- Asynchrony. The busy flags `loadingLookup`, `loadingInvoice` and
  `sendingEmail` block a second call of the same handler, so `BeginLookup`,
  `SubmitFiscalForm` and `BeginSendEmail` require their flag off. Calls of
  different handlers can still overlap in the code (a new search while a
  generation is loading, say), and their stale replies are not modelled: the
  steps run in sequence. `FinishLookup` therefore requires `LookupPending`, the
  state `BeginLookup` leaves behind, which nothing the user can see changes
  while loading.
- The admin screen's single `loading` flag, shared by both fetches, is modelled
  sequentially. The race in which one fetch ends while the other is still
  loading is not.
- React rendering and state batching. A handler's setters are applied in order,
  as one step.
- antd and layout: the tables, pagination, tabs, the iframe and the spinners.
  The toasts of the `message` API are recorded only as a `Notice` of the right
  kind and text.
- The PDF and ZIP link buttons' `disabled` props. They are the emptiness of
  `pdfUrl` and `zipUrl`, which are modelled fields but have no predicate of
  their own.
- `dayjs`, the `DatePicker`'s parsing of the date, and the clock. `TodayUtcYYYYMMDD`
  takes the UTC year, month (0-11) and day as arguments.
- `import.meta.env.VITE_API_BASE`, which is the constant `api` of each screen.
- The display of order totals and of the admin table columns, which is
  presentation only.
- `IntToString` is JavaScript's `String(n)` only for integers below 10^21 in
  magnitude. Ids are JavaScript numbers decoded from JSON, and `String` writes
  larger ones in exponent notation and rounds ids beyond 2^53; neither is
  modelled.
- `NaN` identifiers. Ids are integers, so `Number(e.target.value)` in the radio
  group is the id itself.
- `localStorage` beyond a string map, for example quotas and other tabs.
