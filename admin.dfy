/** The admin screen of `src/pages/Admin.tsx`: an admin token kept in the
    browser's `localStorage`, a free-text filter, and two list queries (invoices
    and customers) that send the token in the `x-admin-token` header. As in
    `InvoiceApp`, each asynchronous handler is split at its `await` into a
    `Begin...` step that issues the query and a `Finish...` step that takes the
    abstract `Outcome`. */
module AdminPanel {
  import opened Js
  import opened Io

  /** The storage key of the admin token. */
  const TokenKey := "adminToken"

  /** Every query asks for the first page of at most 100 rows. */
  const PageLimit := "100"
  const PageOffset := "0"

  const InvoicesPath := "/api/admin/invoices"
  const CustomersPath := "/api/admin/customers"

  /** The browser's `localStorage`: a string-to-string map that outlives the page. */
  class LocalStorage {
    var items: map<string, string>

    constructor (items: map<string, string>)
      ensures this.items == items
    {
      this.items := items;
    }

    /** `getItem`: the stored value, or `null` for a key never set. */
    method GetItem(key: string) returns (v: Option<string>)
      ensures v.Some? <==> key in items
      ensures v.Some? ==> v.value == items[key]
    {
      v := if key in items then Some(items[key]) else None;
    }

    /** `setItem`: stores `value` under `key`, replacing what was there. */
    method SetItem(key: string, value: string)
      modifies this
      ensures items == old(items)[key := value]
    {
      items := items[key := value];
    }
  }

  /** The token the screen starts with: `localStorage.getItem("adminToken") || ""`,
      which is the stored string, or empty when nothing is stored. */
  function StoredToken(items: map<string, string>): (token: string)
    ensures TokenKey in items ==> token == items[TokenKey]
    ensures TokenKey !in items ==> token == ""
  {
    OrElse(if TokenKey in items then Some(items[TokenKey]) else None, "")
  }

  /** Whatever was saved under the token key is what a later start-up reads. */
  lemma SavedTokenIsRestored(items: map<string, string>, token: string)
    ensures StoredToken(items[TokenKey := token]) == token
  {
  }

  // ---------------------------------------------------------------------------
  // Rows and queries

  datatype InvoiceRow = InvoiceRow(invoiceId: int, orderId: int, facturapiInvoiceId: string,
                                   createdAt: string, emailedAt: Option<string>,
                                   uploadedAt: Option<string>, mediaPdfUrl: Option<string>,
                                   mediaXmlUrl: Option<string>, mediaZipUrl: Option<string>,
                                   folio: string, numcheque: string, fecha: string, total: string,
                                   customerId: Option<int>, taxId: Option<string>,
                                   legalName: Option<string>, email: Option<string>)

  datatype CustomerRow = CustomerRow(id: int, taxId: string, legalName: string, taxSystem: string,
                                     email: string, zip: Option<string>,
                                     facturapiCustomerId: Option<string>,
                                     createdAt: string, updatedAt: string)

  /** `GET {api}{path}?q&limit&offset` with the `x-admin-token` header. */
  datatype AdminQuery = AdminQuery(path: string, q: string, limit: string, offset: string,
                                   adminToken: string)

  /** The decoded body of a successful list query; `rows` may be missing. */
  datatype RowsReply<R> = RowsReply(rows: Option<seq<R>>)

  function RowsOrEmpty<R>(reply: RowsReply<R>): seq<R>
  {
    if reply.rows.Some? then reply.rows.value else []
  }

  // ---------------------------------------------------------------------------
  // The file links of an invoice row

  datatype FileKind = Pdf | Xml | Zip

  function FileSuffix(kind: FileKind): string
  {
    match kind
    case Pdf => "pdf"
    case Xml => "xml"
    case Zip => "zip"
  }

  function MediaUrl(row: InvoiceRow, kind: FileKind): Option<string>
  {
    match kind
    case Pdf => row.mediaPdfUrl
    case Xml => row.mediaXmlUrl
    case Zip => row.mediaZipUrl
  }

  /** The backend's download route for one file of an invoice. */
  function DownloadRoute(api: string, invoiceId: int, kind: FileKind): string
  {
    api + "/api/invoices/" + IntToString(invoiceId) + "/" + FileSuffix(kind)
  }

  /** The link the "Archivos" column renders for one file of a row: the row's
      media URL when it is non-empty, else the backend's download route. */
  function FileLink(api: string, row: InvoiceRow, kind: FileKind): (url: string)
    ensures StringTruthy(MediaUrl(row, kind)) ==> url == MediaUrl(row, kind).value
    ensures !StringTruthy(MediaUrl(row, kind)) ==> url == DownloadRoute(api, row.invoiceId, kind)
    ensures url != ""
  {
    OrElse(MediaUrl(row, kind), DownloadRoute(api, row.invoiceId, kind))
  }

  /** Two download routes of the same kind agree only for the same invoice:
      a fallback link never points at another row's file. */
  lemma DownloadRouteIdentifiesInvoice(api: string, a: int, b: int, kind: FileKind)
    requires DownloadRoute(api, a, kind) == DownloadRoute(api, b, kind)
    ensures a == b
  {
    RouteSegmentsAgree(api, IntToString(a), IntToString(b), FileSuffix(kind));
    IntToStringInjective(a, b);
  }

  /** Two routes that differ only in the id segment agree in that segment. */
  lemma RouteSegmentsAgree(api: string, x: string, y: string, suffix: string)
    requires api + "/api/invoices/" + x + "/" + suffix == api + "/api/invoices/" + y + "/" + suffix
    ensures x == y
  {
    var prefix := api + "/api/invoices/";
    var s := prefix + x + "/" + suffix;
    assert x == s[|prefix|..|prefix| + |x|];
    assert y == (prefix + y + "/" + suffix)[|prefix|..|prefix| + |y|];
  }

  /** The three download routes of one invoice are three different links. */
  lemma DownloadRoutesDiffer(api: string, invoiceId: int, k1: FileKind, k2: FileKind)
    requires k1 != k2
    ensures DownloadRoute(api, invoiceId, k1) != DownloadRoute(api, invoiceId, k2)
  {
    var r1, r2 := DownloadRoute(api, invoiceId, k1), DownloadRoute(api, invoiceId, k2);
    assert r1[|r1| - 3..] == FileSuffix(k1);
    assert r2[|r2| - 3..] == FileSuffix(k2);
  }

  // ---------------------------------------------------------------------------
  // The screen's state

  class Admin {
    /** The backend's base URL (`VITE_API_BASE`). */
    const api: string
    const storage: LocalStorage

    var token: string
    var q: string
    var loading: bool
    var invoices: seq<InvoiceRow>
    var customers: seq<CustomerRow>

    /** The screen as first rendered: the token is read from storage. */
    constructor (api: string, storage: LocalStorage)
      ensures this.api == api && this.storage == storage
      ensures token == StoredToken(storage.items)
      ensures q == "" && !loading && invoices == [] && customers == []
    {
      this.api := api;
      this.storage := storage;
      var stored := storage.GetItem(TokenKey);
      token := OrElse(stored, "");
      q := "";
      loading := false;
      invoices := [];
      customers := [];
    }

    /** The token input's `onChange`. */
    method EditToken(text: string)
      modifies this`token
      ensures token == text
    {
      token := text;
    }

    /** The filter input's `onChange`. */
    method EditFilter(text: string)
      modifies this`q
      ensures q == text
    {
      q := text;
    }

    /** `saveToken`: writes the current token, exactly, under the token key. */
    method SaveToken() returns (notice: Notice)
      modifies storage
      ensures storage.items == old(storage.items)[TokenKey := token]
      ensures notice == Success("Token guardado")
    {
      storage.SetItem(TokenKey, token);
      notice := Success("Token guardado");
    }

    /** `fetchInvoices` up to its `await`: the query for the current filter and
        token; the table shows as loading. */
    method BeginFetchInvoices() returns (query: AdminQuery)
      modifies this`loading
      ensures loading
      ensures query == AdminQuery(InvoicesPath, q, PageLimit, PageOffset, token)
    {
      loading := true;
      query := AdminQuery(InvoicesPath, q, PageLimit, PageOffset, token);
    }

    /** `fetchInvoices` after its `await`: a reply's rows (or none) replace the
        invoice list; a non-OK reply leaves it and raises an error notice; a
        thrown call escapes the handler (no catch) with the list untouched. The
        customer list is never touched, and loading ends on every path. */
    method FinishFetchInvoices(outcome: Outcome<RowsReply<InvoiceRow>>) returns (notice: Notice)
      modifies this`loading, this`invoices
      ensures !loading
      ensures outcome.Ok? ==> invoices == RowsOrEmpty(outcome.payload) && notice == Quiet
      ensures !outcome.Ok? ==> invoices == old(invoices)
      ensures outcome.HttpError? ==> notice == Error(OrElse(outcome.error, "Error cargando facturas"))
      ensures outcome.NetworkError? ==> notice == Quiet
    {
      notice := Quiet;
      match outcome {
        case Ok(data) => invoices := RowsOrEmpty(data);
        case HttpError(e) => notice := Error(OrElse(e, "Error cargando facturas"));
        case NetworkError(_) =>
      }
      loading := false;
    }

    /** `fetchCustomers` up to its `await`. */
    method BeginFetchCustomers() returns (query: AdminQuery)
      modifies this`loading
      ensures loading
      ensures query == AdminQuery(CustomersPath, q, PageLimit, PageOffset, token)
    {
      loading := true;
      query := AdminQuery(CustomersPath, q, PageLimit, PageOffset, token);
    }

    /** `fetchCustomers` after its `await`: the mirror image of
        `FinishFetchInvoices` on the customer list. */
    method FinishFetchCustomers(outcome: Outcome<RowsReply<CustomerRow>>) returns (notice: Notice)
      modifies this`loading, this`customers
      ensures !loading
      ensures outcome.Ok? ==> customers == RowsOrEmpty(outcome.payload) && notice == Quiet
      ensures !outcome.Ok? ==> customers == old(customers)
      ensures outcome.HttpError? ==> notice == Error(OrElse(outcome.error, "Error cargando clientes"))
      ensures outcome.NetworkError? ==> notice == Quiet
    {
      notice := Quiet;
      match outcome {
        case Ok(data) => customers := RowsOrEmpty(data);
        case HttpError(e) => notice := Error(OrElse(e, "Error cargando clientes"));
        case NetworkError(_) =>
      }
      loading := false;
    }

    /** The mount effect: the invoice query runs if and only if a token was
        found in storage. */
    method Mount() returns (query: Option<AdminQuery>)
      modifies this`loading
      ensures query.Some? <==> token != ""
      ensures query.Some? ==> loading && query.value == AdminQuery(InvoicesPath, q, PageLimit, PageOffset, token)
      ensures query.None? ==> loading == old(loading)
    {
      query := None;
      if token != "" {
        var issued := BeginFetchInvoices();
        query := Some(issued);
      }
    }
  }

  /** Saving a token and opening the screen again: the new screen starts with
      that token, and its mount-time invoice query runs, carrying the token,
      exactly when the token is non-empty. */
  method SaveThenReload(api: string, storage: LocalStorage, typed: string)
    returns (reloaded: Admin, query: Option<AdminQuery>)
    modifies storage
    ensures storage.items == old(storage.items)[TokenKey := typed]
    ensures reloaded.token == typed
    ensures query.Some? <==> typed != ""
    ensures query.Some? ==> query.value.adminToken == typed && query.value.path == InvoicesPath
  {
    var screen := new Admin(api, storage);
    screen.EditToken(typed);
    var _ := screen.SaveToken();
    SavedTokenIsRestored(old(storage.items), typed);
    reloaded := new Admin(api, storage);
    query := reloaded.Mount();
  }
}
