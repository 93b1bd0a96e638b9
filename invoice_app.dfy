/** The customer screen of `src/App.tsx`: look up a dining check by date and
    ticket number (numcheque), pick one of the orders found, fill in the fiscal
    form, generate the invoice, then e-mail it.

    The screen's `useState` slots are the fields of `InvoiceWorkflow`. Each
    asynchronous handler is split at its `await`: a `Begin...` step runs the
    synchronous part (guards, resets, the request it would send) and a
    `Finish...` step takes the abstract `Outcome` of the call and runs the rest,
    including the `finally` that clears the loading flag. */
module InvoiceApp {
  import opened Js
  import opened Io

  /** One dining check as the lookup endpoint returns it (its totals are only
      displayed and are not modelled). */
  datatype Order = Order(id: int, folio: string, numcheque: string, mesa: Option<string>,
                         fecha: string, cierre: Option<string>)

  // ---------------------------------------------------------------------------
  // The default search date

  /** `String(n).padStart(2, "0")` for a month or day number. */
  function TwoDigits(n: nat): string
  {
    PadStart(NatToString(n), 2, '0')
  }

  /** A month or day number is written as two digits that denote it. */
  lemma TwoDigitsReadsBack(n: nat)
    requires n < 100
    ensures var r := TwoDigits(n); |r| == 2 && AllDigits(r) && DecimalValue(r) == n
  {
    NatToStringDigits(n);
    PadStartShape(NatToString(n), 2, '0');
    PadStartKeepsValue(NatToString(n), 2);
  }

  /** The date field's initial value for the UTC calendar day `year`,
      `month0` (0 for January, as `getUTCMonth` gives it) and `day`. */
  function TodayUtcYYYYMMDD(year: int, month0: int, day: int): string
    requires 0 <= month0 < 12 && 1 <= day <= 31
  {
    IntToString(year) + "-" + TwoDigits(month0 + 1) + "-" + TwoDigits(day)
  }

  /** `r` reads as the date `y`-`month`-`day`: the year text `y`, a dash, two
      digits that denote the month, a dash, two digits that denote the day. */
  predicate ReadsAsDate(r: string, y: string, month: nat, day: nat)
  {
    |r| == |y| + 6 && r[..|y|] == y && r[|y|] == '-' && r[|y| + 3] == '-' &&
    AllDigits(r[|y| + 1..|y| + 3]) && DecimalValue(r[|y| + 1..|y| + 3]) == month &&
    AllDigits(r[|y| + 4..]) && DecimalValue(r[|y| + 4..]) == day
  }

  /** The default date reads as YYYY-MM-DD: the year as `String` renders it,
      then the month number (January is 1) and the day, each as two digits. */
  lemma TodayUtcLayout(year: int, month0: int, day: int)
    requires 0 <= month0 < 12 && 1 <= day <= 31
    ensures ReadsAsDate(TodayUtcYYYYMMDD(year, month0, day), IntToString(year), month0 + 1, day)
  {
    var y, m, d := IntToString(year), TwoDigits(month0 + 1), TwoDigits(day);
    TwoDigitsReadsBack(month0 + 1);
    TwoDigitsReadsBack(day);
    var r := TodayUtcYYYYMMDD(year, month0, day);
    assert r == y + "-" + m + "-" + d;
    assert r[..|y|] == y;
    assert r[|y| + 1..|y| + 3] == m;
    assert r[|y| + 4..] == d;
  }

  // ---------------------------------------------------------------------------
  // The selected order

  predicate HasOrder(orders: seq<Order>, id: int)
  {
    exists k | 0 <= k < |orders| :: orders[k].id == id
  }

  /** The position `orders.find` stops at: the first order with this id, or
      `|orders|` when there is none. */
  function FindOrderIndex(orders: seq<Order>, id: int): (k: nat)
    ensures k <= |orders|
    ensures forall j | 0 <= j < k :: orders[j].id != id
    ensures k < |orders| ==> orders[k].id == id
  {
    if orders == [] then 0
    else if orders[0].id == id then 0
    else 1 + FindOrderIndex(orders[1..], id)
  }

  /** `orders.find((o) => o.id === selectedOrderId) || null`: the first order
      whose id is the selected one; none when nothing is selected or no order
      has that id. */
  function SelectedOrder(orders: seq<Order>, selectedOrderId: Option<int>): (r: Option<Order>)
    ensures r.Some? <==> selectedOrderId.Some? && HasOrder(orders, selectedOrderId.value)
    ensures r.Some? ==> r.value in orders && r.value.id == selectedOrderId.value
    ensures r.Some? ==> r.value == orders[FindOrderIndex(orders, selectedOrderId.value)]
  {
    match selectedOrderId
    case None => None
    case Some(id) =>
      var k := FindOrderIndex(orders, id);
      if k < |orders| then Some(orders[k]) else None
  }

  // ---------------------------------------------------------------------------
  // The fiscal form

  /** The form's field values as antd hands them to `onFinish`; a field the
      user never filled in is `undefined`. */
  datatype FiscalValues = FiscalValues(legalName: Option<string>, taxId: Option<string>,
                                       taxSystem: Option<string>, email: Option<string>,
                                       zip: Option<string>, cfdiUse: Option<string>,
                                       paymentForm: Option<string>)

  /** The form's `initialValue`s: tax system 601, CFDI use G03, payment form 03. */
  const InitialFiscalValues := FiscalValues(None, None, Some("601"), None, None, Some("G03"), Some("03"))

  datatype FormField = LegalName | TaxSystem | TaxId
  datatype FieldError = FieldError(field: FormField, message: string)

  const RequiredMessage := "Este campo es obligatorio"
  const LengthMessage := "Debe ser de 3 caracteres (ej: 601)"

  /** A `required: true` rule on a string field fails on `undefined` and on the
      empty string (white space alone satisfies it). */
  function RequiredErrors(field: FormField, v: Option<string>): seq<FieldError>
  {
    if StringTruthy(v) then [] else [FieldError(field, RequiredMessage)]
  }

  /** The rules' verdict, field by field in form order. The `len: 3` rule is
      only checked on a non-empty value. */
  function FiscalFormErrors(values: FiscalValues): (errors: seq<FieldError>)
    ensures errors == [] <==>
      StringTruthy(values.legalName) && StringTruthy(values.taxId) &&
      values.taxSystem.Some? && |values.taxSystem.value| == 3
    ensures FieldError(TaxSystem, LengthMessage) in errors <==>
      StringTruthy(values.taxSystem) && |values.taxSystem.value| != 3
    ensures FieldError(LegalName, RequiredMessage) in errors <==> !StringTruthy(values.legalName)
    ensures FieldError(TaxSystem, RequiredMessage) in errors <==> !StringTruthy(values.taxSystem)
    ensures FieldError(TaxId, RequiredMessage) in errors <==> !StringTruthy(values.taxId)
    ensures forall e | e in errors ::
      e in [FieldError(LegalName, RequiredMessage), FieldError(TaxSystem, RequiredMessage),
            FieldError(TaxSystem, LengthMessage), FieldError(TaxId, RequiredMessage)]
  {
    var ts := values.taxSystem;
    RequiredErrors(LegalName, values.legalName) +
    RequiredErrors(TaxSystem, ts) +
    (if StringTruthy(ts) && |ts.value| != 3 then [FieldError(TaxSystem, LengthMessage)] else []) +
    RequiredErrors(TaxId, values.taxId)
  }

  /** The form as first rendered fails exactly the two rules on the fields
      without an initial value, the legal name and the RFC. */
  lemma UntouchedFormFailsRequiredRules()
    ensures FiscalFormErrors(InitialFiscalValues) ==
      [FieldError(LegalName, RequiredMessage), FieldError(TaxId, RequiredMessage)]
  {
  }

  /** The `disabled={!selectedOrder}` prop of the form: disabled exactly when
      nothing is selected or no listed order has the selected id. */
  predicate FormDisabled(orders: seq<Order>, selectedOrderId: Option<int>)
    ensures FormDisabled(orders, selectedOrderId) <==>
      selectedOrderId.None? || !HasOrder(orders, selectedOrderId.value)
  {
    SelectedOrder(orders, selectedOrderId).None?
  }

  // ---------------------------------------------------------------------------
  // Requests and replies

  /** The query parameters of `GET /api/orders/lookup`. */
  datatype LookupRequest = LookupRequest(date: string, numcheque: string)

  /** The decoded body of a successful lookup; `orders` may be missing. */
  datatype LookupReply = LookupReply(orders: Option<seq<Order>>)

  datatype Customer = Customer(legalName: Option<string>, taxId: Option<string>,
                               taxSystem: Option<string>, email: Option<string>,
                               zip: Option<string>)

  /** The JSON body of `POST /api/invoices`. */
  datatype InvoiceRequest = InvoiceRequest(orderId: int, customer: Customer,
                                           cfdiUse: string, paymentForm: string)

  /** The decoded body of a successful generation. `invoiceId ?? null` and the
      truthiness test on `zipUrl` treat `null` and an absent key alike, but the
      template literal on `pdfUrl` does not. */
  datatype InvoiceReply = InvoiceReply(invoiceId: Option<int>, pdfUrl: JsonField<string>,
                                       zipUrl: Option<string>)

  /** `POST {api}{path}` for the e-mail delivery, and the address the success
      notice names (the one captured when the handler was invoked). */
  datatype EmailRequest = EmailRequest(path: string, recipient: string)

  const DefaultCfdiUse := "G03"
  const DefaultPaymentForm := "03"

  /** The generation request for an order: the customer fields are passed
      through as entered, and an empty or missing CFDI use or payment form
      falls back to its default code. */
  function InvoiceRequestFor(orderId: int, values: FiscalValues): (req: InvoiceRequest)
    ensures req.orderId == orderId
    ensures req.customer == Customer(values.legalName, values.taxId, values.taxSystem,
                                     values.email, values.zip)
    ensures req.cfdiUse != "" && req.paymentForm != ""
    ensures StringTruthy(values.cfdiUse) ==> req.cfdiUse == values.cfdiUse.value
    ensures !StringTruthy(values.cfdiUse) ==> req.cfdiUse == DefaultCfdiUse
    ensures StringTruthy(values.paymentForm) ==> req.paymentForm == values.paymentForm.value
    ensures !StringTruthy(values.paymentForm) ==> req.paymentForm == DefaultPaymentForm
  {
    InvoiceRequest(orderId,
                   Customer(values.legalName, values.taxId, values.taxSystem, values.email, values.zip),
                   OrElse(values.cfdiUse, DefaultCfdiUse),
                   OrElse(values.paymentForm, DefaultPaymentForm))
  }

  /** The `disabled={!invoiceId || !lastCustomerEmail}` prop of the send button,
      negated. */
  predicate SendEmailEnabled(invoiceId: Option<int>, lastCustomerEmail: string)
  {
    NumberTruthy(invoiceId) && lastCustomerEmail != ""
  }

  /** The path of `POST /api/invoices/{id}/send-email`. */
  function SendEmailPath(invoiceId: int): string
  {
    "/api/invoices/" + IntToString(invoiceId) + "/send-email"
  }

  /** The e-mail path names the invoice it was built for: two invoices never
      share one. */
  lemma SendEmailPathIdentifiesInvoice(a: int, b: int)
    requires SendEmailPath(a) == SendEmailPath(b)
    ensures a == b
  {
    var prefix := "/api/invoices/";
    var x, y := IntToString(a), IntToString(b);
    assert |x| == |y|;
    assert x == SendEmailPath(a)[|prefix|..|prefix| + |x|];
    assert y == SendEmailPath(b)[|prefix|..|prefix| + |y|];
    IntToStringInjective(a, b);
  }

  /** Whenever the generation guard lets a selection through, the form was
      enabled for it. */
  lemma GuardedSelectionEnablesForm(orders: seq<Order>, selectedOrderId: Option<int>)
    requires selectedOrderId.Some? ==> HasOrder(orders, selectedOrderId.value)
    requires NumberTruthy(selectedOrderId)
    ensures !FormDisabled(orders, selectedOrderId)
  {
  }

  /** The converse does not hold: an order whose id is 0 enables the form, but
      the truthiness guard of the generation handler treats it as no selection. */
  lemma ZeroIdEnablesFormButNotGeneration(orders: seq<Order>, k: nat)
    requires k < |orders| && orders[k].id == 0
    ensures !FormDisabled(orders, Some(0)) && !NumberTruthy(Some(0))
  {
    assert HasOrder(orders, 0);
  }

  // ---------------------------------------------------------------------------
  // The screen's notices

  const MissingSearchInput := "Ingresa fecha y numcheque."
  const LookupFailed := "Error buscando la orden."
  const NoOrderFound := "No se encontró ninguna orden con esos datos."
  const SeveralOrdersFound := "Se encontraron varias. Selecciona la correcta."
  const NoOrderSelected := "Selecciona una orden."
  const GenerationFailed := "Error al generar la factura."
  const InvoiceGenerated := "Factura generada."
  const NoInvoiceToSend := "No hay invoiceId para enviar."
  const NoEmailCaptured := "No capturaste email del cliente."
  const SendFailed := "Error enviando email."
  const SentTo := "Enviado a "

  // ---------------------------------------------------------------------------
  // The screen's state

  class InvoiceWorkflow {
    /** The backend's base URL (`VITE_API_BASE`). */
    const api: string

    var date: string
    var numcheque: string
    var orders: seq<Order>
    var selectedOrderId: Option<int>
    var invoiceId: Option<int>
    var pdfModalOpen: bool
    var sendingEmail: bool
    var lastCustomerEmail: string
    var zipUrl: string
    var pdfUrl: string
    var loadingLookup: bool
    var loadingInvoice: bool

    /** A selection always names one of the orders on display. */
    ghost predicate Valid()
      reads this
    {
      selectedOrderId.Some? ==> HasOrder(orders, selectedOrderId.value)
    }

    /** The screen as first rendered on the UTC day `year`-`month0`-`day`. */
    constructor (api: string, year: int, month0: int, day: int)
      requires 0 <= month0 < 12 && 1 <= day <= 31
      ensures Valid()
      ensures this.api == api && date == TodayUtcYYYYMMDD(year, month0, day) && numcheque == ""
      ensures orders == [] && selectedOrderId == None
      ensures invoiceId == None && pdfUrl == "" && zipUrl == "" && lastCustomerEmail == ""
      ensures !pdfModalOpen && !sendingEmail && !loadingLookup && !loadingInvoice
    {
      this.api := api;
      date := TodayUtcYYYYMMDD(year, month0, day);
      numcheque := "";
      orders := [];
      selectedOrderId := None;
      invoiceId := None;
      pdfModalOpen := false;
      sendingEmail := false;
      lastCustomerEmail := "";
      zipUrl := "";
      pdfUrl := "";
      loadingLookup := false;
      loadingInvoice := false;
    }

    /** The date picker's `onChange`: the picked day formatted as YYYY-MM-DD,
        or the empty string when the picker is cleared. */
    method ChangeDate(picked: Option<string>)
      modifies this`date
      ensures date == if picked.Some? then picked.value else ""
    {
      date := if picked.Some? then picked.value else "";
    }

    /** The ticket-number input's `onChange`. */
    method ChangeNumcheque(text: string)
      modifies this`numcheque
      ensures numcheque == text
    {
      numcheque := text;
    }

    /** `lookup` up to its `await`: every earlier result is cleared first; then,
        unless the date or the trimmed ticket number is empty, the lookup is
        marked in progress and its query is issued. The captured e-mail is kept.
        The search button, the only way to call it, is disabled while a lookup
        is loading. */
    method BeginLookup() returns (request: Option<LookupRequest>, notice: Notice)
      requires Valid() && !loadingLookup
      modifies this`invoiceId, this`pdfModalOpen, this`zipUrl, this`pdfUrl, this`orders,
               this`selectedOrderId, this`loadingLookup
      ensures Valid()
      ensures invoiceId == None && !pdfModalOpen && zipUrl == "" && pdfUrl == ""
      ensures orders == [] && selectedOrderId == None
      ensures lastCustomerEmail == old(lastCustomerEmail)
      ensures !SendEmailEnabled(invoiceId, lastCustomerEmail) && FormDisabled(orders, selectedOrderId)
      ensures request.None? <==> date == "" || Trim(numcheque) == ""
      ensures request.None? ==> !loadingLookup && notice == Warning(MissingSearchInput)
      ensures request.Some? ==> request.value == LookupRequest(date, Trim(numcheque)) &&
                                loadingLookup && notice == Quiet
    {
      var ticket := Trim(numcheque);
      invoiceId := None;
      pdfModalOpen := false;
      zipUrl := "";
      pdfUrl := "";
      orders := [];
      selectedOrderId := None;
      if date == "" || ticket == "" {
        request, notice := None, Warning(MissingSearchInput);
      } else {
        loadingLookup := true;
        request, notice := Some(LookupRequest(date, ticket)), Quiet;
      }
    }

    /** What `BeginLookup` leaves behind once it has issued a query. Nothing
        the user can do before the reply touches it: the results list is not
        shown and the search button is disabled while loading. */
    predicate LookupPending()
      reads this
    {
      loadingLookup && orders == [] && selectedOrderId == None
    }

    /** `lookup` after its `await`. A reply's list (or `[]` when it has none)
        becomes the results; a single result is selected at once, none or
        several leave the form disabled. A failed call leaves the results empty.
        The loading flag is cleared on every path. */
    method FinishLookup(outcome: Outcome<LookupReply>) returns (notice: Notice)
      requires Valid() && LookupPending()
      modifies this`orders, this`selectedOrderId, this`loadingLookup
      ensures Valid() && !loadingLookup
      ensures !outcome.Ok? ==> orders == [] && selectedOrderId == None &&
                               notice == FailureNotice(outcome, LookupFailed)
      ensures outcome.Ok? ==>
        orders == (if outcome.payload.orders.Some? then outcome.payload.orders.value else [])
      ensures outcome.Ok? ==>
        selectedOrderId == if |orders| == 1 then Some(orders[0].id) else None
      ensures outcome.Ok? ==> (FormDisabled(orders, selectedOrderId) <==> |orders| != 1)
      ensures outcome.Ok? ==>
        notice == if |orders| == 0 then Info(NoOrderFound)
                  else if |orders| == 1 then Quiet
                  else Info(SeveralOrdersFound)
    {
      match outcome {
        case HttpError(_) =>
          notice := FailureNotice(outcome, LookupFailed);
        case NetworkError(_) =>
          notice := FailureNotice(outcome, LookupFailed);
        case Ok(data) =>
          var list := if data.orders.Some? then data.orders.value else [];
          orders := list;
          notice := Quiet;
          if |list| == 0 {
            notice := Info(NoOrderFound);
          }
          if |list| == 1 {
            selectedOrderId := Some(list[0].id);
            assert HasOrder(orders, list[0].id);
          }
          if |list| > 1 {
            notice := Info(SeveralOrdersFound);
          }
      }
      loadingLookup := false;
    }

    /** The radio group's `onChange` on the `k`-th listed order. */
    method SelectOrder(k: nat)
      requires Valid() && k < |orders|
      modifies this`selectedOrderId
      ensures Valid()
      ensures selectedOrderId == Some(orders[k].id)
      ensures !FormDisabled(orders, selectedOrderId)
    {
      selectedOrderId := Some(orders[k].id);
      assert HasOrder(orders, orders[k].id);
    }

    /** `generarFactura` up to its `await`: with no truthy selection (none, or
        id 0) it only warns; otherwise it clears the PDF link, marks the
        generation in progress and issues the request. */
    method BeginGenerate(values: FiscalValues) returns (request: Option<InvoiceRequest>, notice: Notice)
      requires Valid()
      modifies this`pdfUrl, this`loadingInvoice
      ensures Valid()
      ensures request.Some? <==> NumberTruthy(selectedOrderId)
      ensures request.None? ==> pdfUrl == old(pdfUrl) && loadingInvoice == old(loadingInvoice) &&
                                notice == Warning(NoOrderSelected)
      ensures request.Some? ==> request.value == InvoiceRequestFor(selectedOrderId.value, values) &&
                                pdfUrl == "" && loadingInvoice && notice == Quiet
    {
      if !NumberTruthy(selectedOrderId) {
        notice := Warning(NoOrderSelected);
        request := None;
        return;
      }
      pdfUrl := "";
      loadingInvoice := true;
      request := Some(InvoiceRequestFor(selectedOrderId.value, values));
      notice := Quiet;
    }

    /** Submitting the fiscal form: nothing happens while the form is disabled;
        antd runs the field rules and calls `generarFactura` only when every
        rule passes, so a form that fails a rule sends nothing and raises no
        notice. The submit button ignores clicks while a generation is loading. */
    method SubmitFiscalForm(values: FiscalValues)
      returns (request: Option<InvoiceRequest>, errors: seq<FieldError>, notice: Notice)
      requires Valid() && !loadingInvoice
      modifies this`pdfUrl, this`loadingInvoice
      ensures Valid()
      ensures errors == if FormDisabled(orders, selectedOrderId) then [] else FiscalFormErrors(values)
      ensures request.Some? <==>
        !FormDisabled(orders, selectedOrderId) && errors == [] && NumberTruthy(selectedOrderId)
      ensures request.Some? ==> request.value == InvoiceRequestFor(selectedOrderId.value, values) &&
                                pdfUrl == "" && loadingInvoice
      ensures request.None? ==> pdfUrl == old(pdfUrl) && !loadingInvoice
      ensures FormDisabled(orders, selectedOrderId) || errors != [] ==> notice == Quiet
      ensures !FormDisabled(orders, selectedOrderId) && errors == [] ==>
        notice == if NumberTruthy(selectedOrderId) then Quiet else Warning(NoOrderSelected)
      ensures NumberTruthy(selectedOrderId) && FiscalFormErrors(values) == [] ==> request.Some?
    {
      if FormDisabled(orders, selectedOrderId) {
        return None, [], Quiet;
      }
      errors := FiscalFormErrors(values);
      if errors != [] {
        return None, errors, Quiet;
      }
      request, notice := BeginGenerate(values);
    }

    /** `generarFactura` after its `await`. A reply records the invoice: its id
        (or none), the PDF link and the ZIP link (when there is one) resolved
        against the base URL, and the e-mail entered in the form; the review
        dialog opens. A failed call records nothing: only the PDF link, cleared
        by `BeginGenerate`, has changed. The loading flag is cleared. */
    method FinishGenerate(request: InvoiceRequest, outcome: Outcome<InvoiceReply>) returns (notice: Notice)
      requires Valid()
      modifies this`invoiceId, this`pdfUrl, this`zipUrl, this`lastCustomerEmail,
               this`pdfModalOpen, this`loadingInvoice
      ensures Valid() && !loadingInvoice
      ensures outcome.Ok? ==>
        invoiceId == outcome.payload.invoiceId &&
        pdfUrl == api + TemplateText(outcome.payload.pdfUrl) &&
        zipUrl == (if StringTruthy(outcome.payload.zipUrl) then api + outcome.payload.zipUrl.value else "") &&
        lastCustomerEmail == OrElse(request.customer.email, "") &&
        pdfModalOpen && notice == Success(InvoiceGenerated)
      ensures outcome.Ok? ==>
        (SendEmailEnabled(invoiceId, lastCustomerEmail) <==>
           NumberTruthy(outcome.payload.invoiceId) && StringTruthy(request.customer.email))
      ensures !outcome.Ok? ==>
        invoiceId == old(invoiceId) && pdfUrl == old(pdfUrl) && zipUrl == old(zipUrl) &&
        lastCustomerEmail == old(lastCustomerEmail) && pdfModalOpen == old(pdfModalOpen) &&
        notice == FailureNotice(outcome, GenerationFailed)
    {
      match outcome {
        case HttpError(_) =>
          notice := FailureNotice(outcome, GenerationFailed);
        case NetworkError(_) =>
          notice := FailureNotice(outcome, GenerationFailed);
        case Ok(data) =>
          invoiceId := data.invoiceId;
          pdfUrl := api + TemplateText(data.pdfUrl);
          zipUrl := if StringTruthy(data.zipUrl) then api + data.zipUrl.value else "";
          lastCustomerEmail := OrElse(request.customer.email, "");
          pdfModalOpen := true;
          notice := Success(InvoiceGenerated);
      }
      loadingInvoice := false;
    }

    /** The review dialog's `onCancel`. */
    method CloseModal()
      modifies this`pdfModalOpen
      ensures !pdfModalOpen
    {
      pdfModalOpen := false;
    }

    /** `enviarFacturaEmail` up to its `await`: it sends only for a truthy
        invoice id and a captured e-mail, the very condition that enables the
        send button, and it touches no invoice or selection state. The button
        ignores clicks while a delivery is in progress. */
    method BeginSendEmail() returns (request: Option<EmailRequest>, notice: Notice)
      requires Valid() && !sendingEmail
      modifies this`sendingEmail
      ensures request.Some? <==> SendEmailEnabled(invoiceId, lastCustomerEmail)
      ensures request.Some? ==>
        request.value == EmailRequest(SendEmailPath(invoiceId.value), lastCustomerEmail) &&
        sendingEmail && notice == Quiet
      ensures request.None? ==> !sendingEmail
      ensures !NumberTruthy(invoiceId) ==> notice == Warning(NoInvoiceToSend)
      ensures NumberTruthy(invoiceId) && lastCustomerEmail == "" ==>
        notice == Warning(NoEmailCaptured)
    {
      if !NumberTruthy(invoiceId) {
        return None, Warning(NoInvoiceToSend);
      }
      if lastCustomerEmail == "" {
        return None, Warning(NoEmailCaptured);
      }
      sendingEmail := true;
      request := Some(EmailRequest(SendEmailPath(invoiceId.value), lastCustomerEmail));
      notice := Quiet;
    }

    /** `enviarFacturaEmail` after its `await`: only a notice, and the sending
        flag cleared; the invoice state is left as it was. */
    method FinishSendEmail(request: EmailRequest, outcome: Outcome<()>) returns (notice: Notice)
      modifies this`sendingEmail
      ensures !sendingEmail
      ensures outcome.Ok? ==> notice == Success(SentTo + request.recipient)
      ensures !outcome.Ok? ==> notice == FailureNotice(outcome, SendFailed)
    {
      if outcome.Ok? {
        notice := Success(SentTo + request.recipient);
      } else {
        notice := FailureNotice(outcome, SendFailed);
      }
      sendingEmail := false;
    }
  }

  /** Searching with a date and a non-blank ticket number: the query carries the
      trimmed ticket number, and a reply with a single order selects it at once
      and enables the fiscal form, with any earlier invoice gone. */
  method SearchFindsSingleOrder(w: InvoiceWorkflow, order: Order) returns (lookup: LookupRequest)
    requires w.Valid() && !w.loadingLookup && w.date != "" && !AllWhiteSpace(w.numcheque)
    modifies w`invoiceId, w`pdfModalOpen, w`zipUrl, w`pdfUrl, w`orders, w`selectedOrderId,
             w`loadingLookup
    ensures lookup == LookupRequest(old(w.date), Trim(old(w.numcheque)))
    ensures Trim(lookup.numcheque) == lookup.numcheque
    ensures w.date == old(w.date) && w.numcheque == old(w.numcheque)
    ensures w.lastCustomerEmail == old(w.lastCustomerEmail)
    ensures w.orders == [order] && w.selectedOrderId == Some(order.id)
    ensures !FormDisabled(w.orders, w.selectedOrderId)
    ensures w.invoiceId == None && w.pdfUrl == "" && !w.loadingLookup
  {
    TrimSpec(w.numcheque);
    var issued, _ := w.BeginLookup();
    lookup := issued.value;
    ghost var query := LookupRequest(w.date, Trim(w.numcheque));
    assert lookup == query;
    var _ := w.FinishLookup(Ok(LookupReply(Some([order]))));
    assert w.orders == [order] && w.selectedOrderId == Some(order.id);
    assert HasOrder(w.orders, order.id);
    TrimIdempotent(w.numcheque);
  }

  /** With an order selected whose id is truthy, a fiscal form that passes its
      rules is sent for that order with the default codes filled in, and the
      backend's reply opens the dialog on the PDF path resolved against the base
      URL. A new search afterwards clears the invoice and its links but keeps
      the captured e-mail, and the send button is disabled again. */
  method GenerateThenSearchAgain(w: InvoiceWorkflow, values: FiscalValues, reply: InvoiceReply)
    returns (sent: InvoiceRequest, pdfShown: string)
    requires w.Valid() && !w.loadingLookup && !w.loadingInvoice && NumberTruthy(w.selectedOrderId)
    requires FiscalFormErrors(values) == []
    modifies w
    ensures sent == InvoiceRequestFor(old(w.selectedOrderId).value, values)
    ensures pdfShown == w.api + TemplateText(reply.pdfUrl)
    ensures w.invoiceId == None && w.pdfUrl == "" && w.zipUrl == "" && !w.pdfModalOpen
    ensures w.lastCustomerEmail == OrElse(values.email, "")
    ensures !SendEmailEnabled(w.invoiceId, w.lastCustomerEmail)
  {
    var request, _, _ := w.SubmitFiscalForm(values);
    sent := request.value;
    var _ := w.FinishGenerate(sent, Ok(reply));
    assert w.pdfModalOpen;
    pdfShown := w.pdfUrl;
    var _, _ := w.BeginLookup();
  }
}
