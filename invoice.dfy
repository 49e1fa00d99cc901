/**
 * The record types of app/schemas/invoice.py with their defaults, and the
 * validation each performs when built from keyword arguments
 * (`Model(**kw)`): a required field must be present, a field without
 * `Optional` rejects None, unknown keywords are ignored, and values are
 * converted as pydantic's lax mode does (a `str` field takes only strings;
 * a `float` field takes numbers, booleans and numeric strings).
 */
module Schemas {
  import opened Results
  import opened PyJson

  datatype SupplierInfo = SupplierInfo(
    name: Option<string> := None,
    taxId: Option<string> := None,
    address: Option<string> := None,
    phone: Option<string> := None,
    email: Option<string> := None)

  datatype InvoiceItem = InvoiceItem(
    description: string,
    quantity: real,
    unitPrice: real,
    discountPercentage: real := 0.0,
    subtotal: real,
    taxAmount: Option<real> := None)

  datatype TaxInfo = TaxInfo(
    icaPercentage: Option<real> := None,
    icaAmount: Option<real> := None,
    fuentePercentage: Option<real> := None,
    fuenteAmount: Option<real> := None,
    ivaPercentage: Option<real> := None,
    ivaAmount: Option<real> := None)

  datatype InvoiceTotals = InvoiceTotals(
    subtotal: real,
    discountTotal: real := 0.0,
    taxTotal: real := 0.0,
    retentionTotal: real := 0.0,
    total: real)

  datatype InvoiceResponse = InvoiceResponse(
    invoiceId: string,
    documentType: Option<string> := None,
    series: Option<string> := None,
    number: Option<string> := None,
    issueDate: Option<string> := None,
    dueDate: Option<string> := None,
    supplier: Option<SupplierInfo> := None,
    currency: Option<string> := Some("COP"),
    items: seq<InvoiceItem> := [],
    taxes: Option<TaxInfo> := None,
    totals: Option<InvoiceTotals> := None,
    rawText: Option<string> := None,
    confidenceScore: Option<real> := None,
    processingNotes: Option<seq<string>> := None)

  datatype ProcessingStatus = ProcessingStatus(
    status: string,
    message: string,
    invoiceId: Option<string> := None,
    errorDetails: Option<string> := None)

  /** The lax `float` conversion of one value; None where validation fails. */
  function AsFloat(v: Json, parse: NumberParser): Option<real>
  {
    match v
    case JNum(n) => Some(n)
    case JBool(b) => Some(if b then 1.0 else 0.0)
    case JStr(s) => parse(s)
    case _ => None
  }

  /** An `Optional[str] = None` field: absent or None gives None, a string is kept. */
  function OptionalStr(kw: map<string, Json>, key: string, model: string): Result<Option<string>, PyError>
  {
    match Get(kw, key)
    case JNull => Success(None)
    case JStr(s) => Success(Some(s))
    case _ => Failure(ValidationError(model))
  }

  /** A required `str` field. */
  function RequiredStr(kw: map<string, Json>, key: string, model: string): Result<string, PyError>
  {
    match Get(kw, key)
    case JStr(s) => Success(s)
    case _ => Failure(ValidationError(model))
  }

  /** A required `float` field: absent or None is rejected. */
  function RequiredFloat(kw: map<string, Json>, key: string, parse: NumberParser, model: string): Result<real, PyError>
  {
    if key !in kw then Failure(ValidationError(model))
    else match AsFloat(kw[key], parse)
      case Some(x) => Success(x)
      case None => Failure(ValidationError(model))
  }

  /** A `float = d` field: absent gives `d`; None is still rejected. */
  function FloatOr(kw: map<string, Json>, key: string, d: real, parse: NumberParser, model: string): Result<real, PyError>
  {
    if key !in kw then Success(d) else RequiredFloat(kw, key, parse, model)
  }

  /** An `Optional[float] = None` field. */
  function OptionalFloat(kw: map<string, Json>, key: string, parse: NumberParser, model: string): Result<Option<real>, PyError>
  {
    if Get(kw, key) == JNull then Success(None)
    else match AsFloat(kw[key], parse)
      case Some(x) => Success(Some(x))
      case None => Failure(ValidationError(model))
  }

  /** An `Optional[str]` field holds `v`: None exactly when the keyword is absent or None,
      and otherwise the keyword's string. */
  predicate StrFieldIs(kw: map<string, Json>, key: string, v: Option<string>) {
    match v
    case None => Get(kw, key) == JNull
    case Some(s) => Get(kw, key) == JStr(s)
  }

  /** An `Optional[float]` field holds `v`: None exactly when the keyword is absent or None,
      and otherwise the keyword's value as a float. */
  predicate FloatFieldIs(kw: map<string, Json>, key: string, v: Option<real>, parse: NumberParser) {
    match v
    case None => Get(kw, key) == JNull
    case Some(x) => Get(kw, key) != JNull && AsFloat(Get(kw, key), parse) == Some(x)
  }

  /** `SupplierInfo(**kw)`: every field optional, None by default. */
  function SupplierFromKeywords(kw: map<string, Json>): (r: Result<SupplierInfo, PyError>)
    ensures r.Success? <==>
      forall key :: key in kw && key in {"name", "tax_id", "address", "phone", "email"} ==>
        kw[key].JNull? || kw[key].JStr?
    ensures r.Success? ==> StrFieldIs(kw, "name", r.value.name)
    ensures r.Success? ==> StrFieldIs(kw, "tax_id", r.value.taxId)
    ensures r.Success? ==> StrFieldIs(kw, "address", r.value.address)
    ensures r.Success? ==> StrFieldIs(kw, "phone", r.value.phone)
    ensures r.Success? ==> StrFieldIs(kw, "email", r.value.email)
    ensures kw == map[] ==> r == Success(SupplierInfo(None, None, None, None, None))
  {
    var name :- OptionalStr(kw, "name", "SupplierInfo");
    var taxId :- OptionalStr(kw, "tax_id", "SupplierInfo");
    var address :- OptionalStr(kw, "address", "SupplierInfo");
    var phone :- OptionalStr(kw, "phone", "SupplierInfo");
    var email :- OptionalStr(kw, "email", "SupplierInfo");
    Success(SupplierInfo(name, taxId, address, phone, email))
  }

  /** `InvoiceItem(**kw)`: `description`, `quantity`, `unit_price` and `subtotal` are required;
      `discount_percentage` defaults to 0.0 and `tax_amount` to None. */
  function ItemFromKeywords(kw: map<string, Json>, parse: NumberParser): (r: Result<InvoiceItem, PyError>)
    ensures r.Success? <==>
      && "description" in kw && kw["description"].JStr?
      && "quantity" in kw && AsFloat(kw["quantity"], parse).Some?
      && "unit_price" in kw && AsFloat(kw["unit_price"], parse).Some?
      && ("discount_percentage" in kw ==> AsFloat(kw["discount_percentage"], parse).Some?)
      && "subtotal" in kw && AsFloat(kw["subtotal"], parse).Some?
      && (Get(kw, "tax_amount") != JNull ==> AsFloat(kw["tax_amount"], parse).Some?)
    ensures r.Success? ==>
      && kw["description"] == JStr(r.value.description)
      && AsFloat(kw["quantity"], parse) == Some(r.value.quantity)
      && AsFloat(kw["unit_price"], parse) == Some(r.value.unitPrice)
      && AsFloat(kw["subtotal"], parse) == Some(r.value.subtotal)
      && r.value.discountPercentage == (if "discount_percentage" in kw then AsFloat(kw["discount_percentage"], parse).value else 0.0)
      && r.value.taxAmount == (if Get(kw, "tax_amount") == JNull then None else AsFloat(kw["tax_amount"], parse))
  {
    var description :- RequiredStr(kw, "description", "InvoiceItem");
    var quantity :- RequiredFloat(kw, "quantity", parse, "InvoiceItem");
    var unitPrice :- RequiredFloat(kw, "unit_price", parse, "InvoiceItem");
    var discount :- FloatOr(kw, "discount_percentage", 0.0, parse, "InvoiceItem");
    var subtotal :- RequiredFloat(kw, "subtotal", parse, "InvoiceItem");
    var taxAmount :- OptionalFloat(kw, "tax_amount", parse, "InvoiceItem");
    Success(InvoiceItem(description := description, quantity := quantity, unitPrice := unitPrice,
                        discountPercentage := discount, subtotal := subtotal, taxAmount := taxAmount))
  }

  /** The six numeric fields of `TaxInfo`, in declaration order. */
  const TaxFields: seq<string> :=
    ["ica_percentage", "ica_amount", "fuente_percentage", "fuente_amount", "iva_percentage", "iva_amount"]

  /** `TaxInfo(**kw)`: six optional numbers, None by default. */
  function TaxesFromKeywords(kw: map<string, Json>, parse: NumberParser): (r: Result<TaxInfo, PyError>)
    ensures r.Success? <==>
      forall key :: key in TaxFields && key in kw && kw[key] != JNull ==> AsFloat(kw[key], parse).Some?
    ensures r.Success? ==> FloatFieldIs(kw, "ica_percentage", r.value.icaPercentage, parse)
    ensures r.Success? ==> FloatFieldIs(kw, "ica_amount", r.value.icaAmount, parse)
    ensures r.Success? ==> FloatFieldIs(kw, "fuente_percentage", r.value.fuentePercentage, parse)
    ensures r.Success? ==> FloatFieldIs(kw, "fuente_amount", r.value.fuenteAmount, parse)
    ensures r.Success? ==> FloatFieldIs(kw, "iva_percentage", r.value.ivaPercentage, parse)
    ensures r.Success? ==> FloatFieldIs(kw, "iva_amount", r.value.ivaAmount, parse)
    ensures kw == map[] ==> r == Success(TaxInfo(None, None, None, None, None, None))
  {
    var icaP :- OptionalFloat(kw, "ica_percentage", parse, "TaxInfo");
    var icaA :- OptionalFloat(kw, "ica_amount", parse, "TaxInfo");
    var fuenteP :- OptionalFloat(kw, "fuente_percentage", parse, "TaxInfo");
    var fuenteA :- OptionalFloat(kw, "fuente_amount", parse, "TaxInfo");
    var ivaP :- OptionalFloat(kw, "iva_percentage", parse, "TaxInfo");
    var ivaA :- OptionalFloat(kw, "iva_amount", parse, "TaxInfo");
    Success(TaxInfo(icaP, icaA, fuenteP, fuenteA, ivaP, ivaA))
  }

  /** `InvoiceTotals(**kw)`: `subtotal` and `total` are required; the other three default to 0.0. */
  function TotalsFromKeywords(kw: map<string, Json>, parse: NumberParser): (r: Result<InvoiceTotals, PyError>)
    ensures r.Success? <==>
      && "subtotal" in kw && AsFloat(kw["subtotal"], parse).Some?
      && ("discount_total" in kw ==> AsFloat(kw["discount_total"], parse).Some?)
      && ("tax_total" in kw ==> AsFloat(kw["tax_total"], parse).Some?)
      && ("retention_total" in kw ==> AsFloat(kw["retention_total"], parse).Some?)
      && "total" in kw && AsFloat(kw["total"], parse).Some?
    ensures r.Success? ==>
      && Some(r.value.subtotal) == AsFloat(kw["subtotal"], parse)
      && Some(r.value.total) == AsFloat(kw["total"], parse)
      && r.value.discountTotal == (if "discount_total" in kw then AsFloat(kw["discount_total"], parse).value else 0.0)
      && r.value.taxTotal == (if "tax_total" in kw then AsFloat(kw["tax_total"], parse).value else 0.0)
      && r.value.retentionTotal == (if "retention_total" in kw then AsFloat(kw["retention_total"], parse).value else 0.0)
  {
    var subtotal :- RequiredFloat(kw, "subtotal", parse, "InvoiceTotals");
    var discount :- FloatOr(kw, "discount_total", 0.0, parse, "InvoiceTotals");
    var tax :- FloatOr(kw, "tax_total", 0.0, parse, "InvoiceTotals");
    var retention :- FloatOr(kw, "retention_total", 0.0, parse, "InvoiceTotals");
    var total :- RequiredFloat(kw, "total", parse, "InvoiceTotals");
    Success(InvoiceTotals(subtotal := subtotal, discountTotal := discount, taxTotal := tax,
                          retentionTotal := retention, total := total))
  }

  /** `InvoiceResponse(invoice_id=id)`: every other field at its default. */
  function NewInvoiceResponse(invoiceId: string): (r: InvoiceResponse)
    ensures r.invoiceId == invoiceId
    ensures r.currency == Some("COP") && r.items == []
    ensures r.documentType == r.series == r.number == r.issueDate == r.dueDate == None
    ensures r.supplier == None && r.taxes == None && r.totals == None
    ensures r.rawText == None && r.confidenceScore == None && r.processingNotes == None
  {
    InvoiceResponse(invoiceId := invoiceId)
  }

  /** `ProcessingStatus(**kw)`: `status` and `message` are required strings;
      `invoice_id` and `error_details` are optional. */
  function StatusFromKeywords(kw: map<string, Json>): (r: Result<ProcessingStatus, PyError>)
    ensures r.Success? <==>
      && "status" in kw && kw["status"].JStr?
      && "message" in kw && kw["message"].JStr?
      && (Get(kw, "invoice_id") == JNull || kw["invoice_id"].JStr?)
      && (Get(kw, "error_details") == JNull || kw["error_details"].JStr?)
    ensures r.Success? ==> kw["status"] == JStr(r.value.status) && kw["message"] == JStr(r.value.message)
    ensures r.Success? ==> StrFieldIs(kw, "invoice_id", r.value.invoiceId)
    ensures r.Success? ==> StrFieldIs(kw, "error_details", r.value.errorDetails)
  {
    var status :- RequiredStr(kw, "status", "ProcessingStatus");
    var message :- RequiredStr(kw, "message", "ProcessingStatus");
    var invoiceId :- OptionalStr(kw, "invoice_id", "ProcessingStatus");
    var errorDetails :- OptionalStr(kw, "error_details", "ProcessingStatus");
    Success(ProcessingStatus(status, message, invoiceId := invoiceId, errorDetails := errorDetails))
  }
}
