/**
 * `_convert_to_invoice_response` of app/services/ai_extractor.py: builds the
 * invoice record from the parsed reply. Supplier, items, taxes and totals are
 * each converted only when the reply's value is truthy; items, taxes and
 * totals first go through `_validate_numeric_fields`, which changes the
 * nested dicts inside `data` itself. The first failing step raises.
 */
module Assembly {
  import opened Results
  import opened PyJson
  import opened Schemas
  import opened Coercion

  /** The numeric fields coerced in each item, in the order the source lists them. */
  const ItemFields: seq<string> := ["quantity", "unit_price", "discount_percentage", "subtotal"]

  /** The numeric fields coerced in `totals`. */
  const TotalsFields: seq<string> := ["subtotal", "discount_total", "tax_total", "retention_total", "total"]

  /** How many characters of the source text the record keeps. */
  const RawTextLimit: nat := 1000

  /** `SupplierInfo(**data['supplier'])` when `data.get('supplier')` is truthy, else None. */
  function SupplierOf(d: map<string, Json>): Result<Option<SupplierInfo>, PyError>
  {
    if !Truthy(Get(d, "supplier")) then Success(None)
    else match d["supplier"]
      case JObj(m) =>
        (match SupplierFromKeywords(m)
         case Success(s) => Success(Some(s))
         case Failure(e) => Failure(e))
      case _ => Failure(TypeError("supplier"))
  }

  /** One element of `data['items']`: coerced in place, then `InvoiceItem(**item)`. */
  function ItemOf(x: Json, parse: NumberParser): Result<InvoiceItem, PyError>
  {
    match x
    case JObj(m) => ItemFromKeywords(CoerceFields(m, ItemFields, parse), parse)
    case _ => Failure(TypeError("items"))
  }

  /** A loop over results that stops at the first failure. */
  function Collect<T>(rs: seq<Result<T, PyError>>): Result<seq<T>, PyError>
  {
    if rs == [] then Success([])
    else
      var init :- Collect(rs[..|rs| - 1]);
      var last :- rs[|rs| - 1];
      Success(init + [last])
  }

  /** What each element of the items list gives. */
  function ItemResults(xs: seq<Json>, parse: NumberParser): (rs: seq<Result<InvoiceItem, PyError>>)
    ensures |rs| == |xs| && forall k :: 0 <= k < |xs| ==> rs[k] == ItemOf(xs[k], parse)
  {
    seq(|xs|, k requires 0 <= k < |xs| => ItemOf(xs[k], parse))
  }

  /** The loop over the elements: the first element that fails ends it with that failure. */
  function MakeItems(xs: seq<Json>, parse: NumberParser): Result<seq<InvoiceItem>, PyError>
  {
    Collect(ItemResults(xs, parse))
  }

  /** The `items` list of the record: empty unless `data.get('items')` is truthy. */
  function ItemsOf(d: map<string, Json>, parse: NumberParser): Result<seq<InvoiceItem>, PyError>
  {
    if !Truthy(Get(d, "items")) then Success([])
    else match d["items"]
      case JArr(xs) => MakeItems(xs, parse)
      case _ => Failure(TypeError("items"))
  }

  /** `_validate_numeric_fields(data[key], fields)` when `data.get(key)` is truthy: the coerced
      dict, or None when the step is skipped. */
  function NestedOf(d: map<string, Json>, key: string, fields: seq<string>, parse: NumberParser)
    : Result<Option<map<string, Json>>, PyError>
  {
    if !Truthy(Get(d, key)) then Success(None)
    else match d[key]
      case JObj(m) => Success(Some(CoerceFields(m, fields, parse)))
      case _ => Failure(TypeError(key))
  }

  /** The `taxes` of the record. */
  function TaxesOf(d: map<string, Json>, parse: NumberParser): Result<Option<TaxInfo>, PyError>
  {
    var nested :- NestedOf(d, "taxes", TaxFields, parse);
    if nested.None? then Success(None)
    else
      var taxes :- TaxesFromKeywords(nested.value, parse);
      Success(Some(taxes))
  }

  /** The `totals` of the record. */
  function TotalsOf(d: map<string, Json>, parse: NumberParser): Result<Option<InvoiceTotals>, PyError>
  {
    var nested :- NestedOf(d, "totals", TotalsFields, parse);
    if nested.None? then Success(None)
    else
      var totals :- TotalsFromKeywords(nested.value, parse);
      Success(Some(totals))
  }

  /** `currency=data.get('currency', 'COP')`: the default applies only when the key is absent. */
  function CurrencyOf(d: map<string, Json>): Result<Option<string>, PyError>
  {
    if "currency" !in d then Success(Some("COP"))
    else match d["currency"]
      case JNull => Success(None)
      case JStr(s) => Success(Some(s))
      case _ => Failure(ValidationError("InvoiceResponse"))
  }

  /** `raw_text[:1000] if raw_text else None`. */
  function RawTextOf(rawText: string): (r: Option<string>)
  {
    if rawText == "" then None
    else if |rawText| <= RawTextLimit then Some(rawText)
    else Some(rawText[..RawTextLimit])
  }

  /** What `_convert_to_invoice_response(data, invoice_id, raw_text)` returns or raises. */
  function Assemble(d: map<string, Json>, invoiceId: string, rawText: string, parse: NumberParser)
    : Result<InvoiceResponse, PyError>
  {
    var supplier :- SupplierOf(d);
    var items :- ItemsOf(d, parse);
    var taxes :- TaxesOf(d, parse);
    var totals :- TotalsOf(d, parse);
    BuildResponse(d, invoiceId, supplier, items, taxes, totals, rawText)
  }

  /** One element of `data['items']` after the in-place coercion. */
  function CoerceItem(x: Json, parse: NumberParser): Json
  {
    match x
    case JObj(m) => JObj(CoerceFields(m, ItemFields, parse))
    case _ => x
  }

  /** `data` after the items loop has coerced every element. */
  function NormalizeItems(d: map<string, Json>, parse: NumberParser): map<string, Json>
  {
    if Truthy(Get(d, "items")) && d["items"].JArr? then
      var xs := d["items"].elems;
      d["items" := JArr(seq(|xs|, k requires 0 <= k < |xs| => CoerceItem(xs[k], parse)))]
    else d
  }

  /** `data` after `_validate_numeric_fields(data[key], fields)` has run, when it runs. */
  function NormalizeNested(d: map<string, Json>, key: string, fields: seq<string>, parse: NumberParser)
    : map<string, Json>
  {
    if Truthy(Get(d, key)) && d[key].JObj? then d[key := JObj(CoerceFields(d[key].fields, fields, parse))]
    else d
  }

  /** `data` after a conversion that succeeded: items, taxes and totals coerced in place. */
  function Normalize(d: map<string, Json>, parse: NumberParser): map<string, Json>
  {
    NormalizeNested(NormalizeNested(NormalizeItems(d, parse), "taxes", TaxFields, parse), "totals", TotalsFields, parse)
  }

  /** The keys the conversion may change in place. */
  predicate Nested(key: string) {
    key == "items" || key == "taxes" || key == "totals"
  }

  /** `e` has the keys of `d` and differs from it only at `items`, `taxes` or `totals`. */
  predicate Untouched(d: map<string, Json>, e: map<string, Json>) {
    e.Keys == d.Keys && forall key :: key in d && !Nested(key) ==> e[key] == d[key]
  }

  /** The items loop: each element is coerced in place, written back into `data['items']`, and
      validated; the first failure ends the conversion. */
  method ConvertItems(data: PyDict, parse: NumberParser) returns (r: Result<seq<InvoiceItem>, PyError>)
    modifies data
    ensures r == ItemsOf(old(data.entries), parse)
    ensures r.Success? ==> data.entries == NormalizeItems(old(data.entries), parse)
    ensures data.entries.Keys == old(data.entries).Keys
    ensures forall key :: key in old(data.entries) && key != "items" ==> data.entries[key] == old(data.entries)[key]
  {
    var value := Get(data.entries, "items");
    if !Truthy(value) {
      return Success([]);
    }
    if !value.JArr? {
      return Failure(TypeError("items"));
    }
    var xs := value.elems;
    var items: seq<InvoiceItem> := [];
    ghost var d := data.entries;
    ghost var results := ItemResults(xs, parse);
    var list := xs;
    assert d["items" := JArr(list)] == d;
    for i := 0 to |xs|
      invariant |list| == |xs|
      invariant forall k :: 0 <= k < i ==> list[k] == CoerceItem(xs[k], parse)
      invariant forall k :: i <= k < |xs| ==> list[k] == xs[k]
      invariant data.entries == d["items" := JArr(list)]
      invariant Collect(results[..i]) == Success(items)
    {
      CollectStep(results, i);
      var x := xs[i];
      if !x.JObj? {
        CollectStops(results, i);
        return Failure(TypeError("items"));
      }
      var itemDict := new PyDict(x.fields);
      var itemData := ValidateNumericFields(itemDict, ItemFields, parse);
      list := list[i := JObj(itemData.entries)];
      data.entries := data.entries["items" := JArr(list)];
      var item := ItemFromKeywords(itemData.entries, parse);
      if item.Failure? {
        CollectStops(results, i);
        return Failure(item.error);
      }
      items := items + [item.value];
    }
    assert results[..|xs|] == results;
    assert list == seq(|xs|, k requires 0 <= k < |xs| => CoerceItem(xs[k], parse));
    return Success(items);
  }

  /** `_validate_numeric_fields(data[key], fields)` guarded by `if data.get(key):`. */
  method CoerceNested(data: PyDict, key: string, fields: seq<string>, parse: NumberParser)
    returns (r: Result<Option<map<string, Json>>, PyError>)
    modifies data
    ensures r == NestedOf(old(data.entries), key, fields, parse)
    ensures data.entries == NormalizeNested(old(data.entries), key, fields, parse)
  {
    var value := Get(data.entries, key);
    if !Truthy(value) {
      return Success(None);
    }
    if !value.JObj? {
      return Failure(TypeError(key));
    }
    var nested := new PyDict(value.fields);
    var coerced := ValidateNumericFields(nested, fields, parse);
    data.entries := data.entries[key := JObj(coerced.entries)];
    return Success(Some(coerced.entries));
  }

  /** The supplier step: `SupplierInfo(**data['supplier'])` when `data.get('supplier')` is truthy. */
  method ConvertSupplier(data: PyDict) returns (r: Result<Option<SupplierInfo>, PyError>)
    ensures r == SupplierOf(data.entries)
    ensures !Truthy(Get(data.entries, "supplier")) <==> r == Success(None)
    ensures Truthy(Get(data.entries, "supplier")) && !data.entries["supplier"].JObj? ==>
      r == Failure(TypeError("supplier"))
    ensures Truthy(Get(data.entries, "supplier")) && data.entries["supplier"].JObj? ==>
      var info := SupplierFromKeywords(data.entries["supplier"].fields);
      && (r.Success? <==> info.Success?)
      && (r.Success? ==> r.value == Some(info.value))
      && (r.Failure? ==> r.error == info.error)
  {
    var s := Get(data.entries, "supplier");
    if !Truthy(s) {
      return Success(None);
    }
    if !s.JObj? {
      return Failure(TypeError("supplier"));
    }
    var info := SupplierFromKeywords(s.fields);
    if info.Failure? {
      return Failure(info.error);
    }
    return Success(Some(info.value));
  }

  /** The taxes step: coerced in place, then `TaxInfo(**tax_data)`. */
  method ConvertTaxes(data: PyDict, parse: NumberParser) returns (r: Result<Option<TaxInfo>, PyError>)
    modifies data
    ensures r == TaxesOf(old(data.entries), parse)
    ensures data.entries == NormalizeNested(old(data.entries), "taxes", TaxFields, parse)
    ensures Untouched(old(data.entries), data.entries)
  {
    var taxData := CoerceNested(data, "taxes", TaxFields, parse);
    if taxData.Failure? {
      return Failure(taxData.error);
    }
    if taxData.value.None? {
      return Success(None);
    }
    var info := TaxesFromKeywords(taxData.value.value, parse);
    if info.Failure? {
      return Failure(info.error);
    }
    return Success(Some(info.value));
  }

  /** The totals step: coerced in place, then `InvoiceTotals(**total_data)`. */
  method ConvertTotals(data: PyDict, parse: NumberParser) returns (r: Result<Option<InvoiceTotals>, PyError>)
    modifies data
    ensures r == TotalsOf(old(data.entries), parse)
    ensures data.entries == NormalizeNested(old(data.entries), "totals", TotalsFields, parse)
    ensures Untouched(old(data.entries), data.entries)
  {
    var totalData := CoerceNested(data, "totals", TotalsFields, parse);
    if totalData.Failure? {
      return Failure(totalData.error);
    }
    if totalData.value.None? {
      return Success(None);
    }
    var info := TotalsFromKeywords(totalData.value.value, parse);
    if info.Failure? {
      return Failure(info.error);
    }
    return Success(Some(info.value));
  }

  /** `_convert_to_invoice_response(data, invoice_id, raw_text)`. */
  method ConvertToInvoiceResponse(data: PyDict, invoiceId: string, rawText: string, parse: NumberParser)
    returns (r: Result<InvoiceResponse, PyError>)
    modifies data
    ensures r == Assemble(old(data.entries), invoiceId, rawText, parse)
    ensures r.Success? ==> data.entries == Normalize(old(data.entries), parse)
    ensures Untouched(old(data.entries), data.entries)
  {
    ghost var d := data.entries;
    var supplier := ConvertSupplier(data);
    if supplier.Failure? {
      return Failure(supplier.error);
    }
    var items := ConvertItems(data, parse);
    assert Untouched(d, data.entries);
    if items.Failure? {
      return Failure(items.error);
    }
    ghost var d1 := data.entries;
    NestedKeysApart(d, d1, parse);
    var taxes := ConvertTaxes(data, parse);
    ghost var d2 := data.entries;
    UntouchedTrans(d, d1, d2);
    if taxes.Failure? {
      return Failure(taxes.error);
    }
    var totals := ConvertTotals(data, parse);
    UntouchedTrans(d, d2, data.entries);
    if totals.Failure? {
      return Failure(totals.error);
    }
    r := BuildResponse(data.entries, invoiceId, supplier.value, items.value, taxes.value, totals.value, rawText);
    ResponseFields(d, data.entries, invoiceId, supplier.value, items.value, taxes.value, totals.value, rawText);
  }

  /** `InvoiceResponse(invoice_id=..., document_type=data.get('document_type'), ...)`. */
  function BuildResponse(d: map<string, Json>, invoiceId: string, supplier: Option<SupplierInfo>,
                         items: seq<InvoiceItem>, taxes: Option<TaxInfo>, totals: Option<InvoiceTotals>,
                         rawText: string): Result<InvoiceResponse, PyError>
  {
    var documentType :- OptionalStr(d, "document_type", "InvoiceResponse");
    var series :- OptionalStr(d, "series", "InvoiceResponse");
    var number :- OptionalStr(d, "number", "InvoiceResponse");
    var issueDate :- OptionalStr(d, "issue_date", "InvoiceResponse");
    var dueDate :- OptionalStr(d, "due_date", "InvoiceResponse");
    var currency :- CurrencyOf(d);
    Success(InvoiceResponse(
      invoiceId := invoiceId, documentType := documentType, series := series, number := number,
      issueDate := issueDate, dueDate := dueDate, supplier := supplier, currency := currency,
      items := items, taxes := taxes, totals := totals, rawText := RawTextOf(rawText)))
  }

  // ---------------------------------------------------------------------------------------------
  // Proof steps for the methods

  /** One more result: the collected prefix grows by it, or fails with it. */
  lemma CollectStep<T>(rs: seq<Result<T, PyError>>, i: nat)
    requires i < |rs|
    ensures Collect(rs[..i + 1]) ==
      match Collect(rs[..i])
      case Failure(e) => Failure(e)
      case Success(init) => if rs[i].Failure? then Failure(rs[i].error) else Success(init + [rs[i].value])
  {
    var ys := rs[..i + 1];
    assert ys[..|ys| - 1] == rs[..i];
  }

  /** A failing result ends the loop: the whole list fails with the first failure. */
  lemma CollectStops<T>(rs: seq<Result<T, PyError>>, i: nat)
    requires i < |rs| && Collect(rs[..i]).Success? && rs[i].Failure?
    ensures Collect(rs) == Failure(rs[i].error)
  {
    CollectStep(rs, i);
    CollectPrefixFailure(rs, i + 1);
  }

  /** Once a prefix fails, every longer list fails the same way. */
  lemma {:induction false} CollectPrefixFailure<T>(rs: seq<Result<T, PyError>>, n: nat)
    requires n <= |rs| && Collect(rs[..n]).Failure?
    ensures Collect(rs) == Collect(rs[..n])
    decreases |rs| - n
  {
    if n == |rs| {
      assert rs[..n] == rs;
    } else {
      CollectStep(rs, n);
      CollectPrefixFailure(rs, n + 1);
    }
  }

  /** The items step does not touch `taxes` or `totals`, and the taxes step does not touch `totals`. */
  lemma NestedKeysApart(d: map<string, Json>, d1: map<string, Json>, parse: NumberParser)
    requires d1 == NormalizeItems(d, parse)
    ensures TaxesOf(d1, parse) == TaxesOf(d, parse)
    ensures TotalsOf(NormalizeNested(d1, "taxes", TaxFields, parse), parse) == TotalsOf(d, parse)
  {
    assert Get(d1, "taxes") == Get(d, "taxes");
    var d2 := NormalizeNested(d1, "taxes", TaxFields, parse);
    assert Get(d2, "totals") == Get(d, "totals");
  }

  lemma UntouchedTrans(d: map<string, Json>, e: map<string, Json>, f: map<string, Json>)
    requires Untouched(d, e) && Untouched(e, f)
    ensures Untouched(d, f)
  {
  }

  /** The response fields are read from keys the conversion does not change. */
  lemma ResponseFields(d: map<string, Json>, e: map<string, Json>, invoiceId: string,
                       supplier: Option<SupplierInfo>, items: seq<InvoiceItem>,
                       taxes: Option<TaxInfo>, totals: Option<InvoiceTotals>, rawText: string)
    requires Untouched(d, e)
    ensures BuildResponse(e, invoiceId, supplier, items, taxes, totals, rawText) ==
      BuildResponse(d, invoiceId, supplier, items, taxes, totals, rawText)
  {
    assert Get(e, "document_type") == Get(d, "document_type");
    assert Get(e, "series") == Get(d, "series");
    assert Get(e, "number") == Get(d, "number");
    assert Get(e, "issue_date") == Get(d, "issue_date");
    assert Get(e, "due_date") == Get(d, "due_date");
    assert CurrencyOf(e) == CurrencyOf(d);
  }
}
