/**
 * What `_convert_to_invoice_response` promises about the record it builds:
 * which parts are skipped, how the items list follows the reply's list,
 * the currency default, the raw-text cut, and the errors a malformed reply
 * raises.
 */
module AssemblyFacts {
  import opened Results
  import opened PyJson
  import opened Schemas
  import opened Coercion
  import opened Assembly

  /** The loop over results succeeds exactly when every result does, and then keeps them all,
      in order; otherwise it fails with the error of the first failure. */
  lemma {:induction false} CollectSpec<T>(rs: seq<Result<T, PyError>>)
    ensures Collect(rs).Success? <==> forall k :: 0 <= k < |rs| ==> rs[k].Success?
    ensures Collect(rs).Success? ==>
      |Collect(rs).value| == |rs| && forall k :: 0 <= k < |rs| ==> Collect(rs).value[k] == rs[k].value
    ensures Collect(rs).Failure? ==>
      exists k :: 0 <= k < |rs| && rs[k] == Failure(Collect(rs).error) &&
        forall j :: 0 <= j < k ==> rs[j].Success?
  {
    if rs != [] {
      var init := rs[..|rs| - 1];
      CollectSpec(init);
      if Collect(init).Failure? {
        var k :| 0 <= k < |init| && init[k] == Failure(Collect(init).error) &&
          forall j :: 0 <= j < k ==> init[j].Success?;
        assert rs[k] == init[k];
      } else if rs[|rs| - 1].Failure? {
        assert forall j :: 0 <= j < |rs| - 1 ==> rs[j] == init[j];
      } else {
        forall k | 0 <= k < |rs| ensures rs[k].Success? {
          if k < |rs| - 1 {
            assert rs[k] == init[k];
          }
        }
      }
    }
  }

  /** `items` is empty when `data.get('items')` is falsy; otherwise the reply's list is
      converted element by element: one item per element, in order, or the first
      element's error. */
  lemma ItemsSpec(d: map<string, Json>, parse: NumberParser)
    ensures !Truthy(Get(d, "items")) ==> ItemsOf(d, parse) == Success([])
    ensures Truthy(Get(d, "items")) && !d["items"].JArr? ==> ItemsOf(d, parse) == Failure(TypeError("items"))
    ensures Truthy(Get(d, "items")) && d["items"].JArr? ==>
      var xs := d["items"].elems;
      && (ItemsOf(d, parse).Success? <==> forall k :: 0 <= k < |xs| ==> ItemOf(xs[k], parse).Success?)
      && (ItemsOf(d, parse).Success? ==>
            |ItemsOf(d, parse).value| == |xs| &&
            forall k :: 0 <= k < |xs| ==> Success(ItemsOf(d, parse).value[k]) == ItemOf(xs[k], parse))
  {
    if Truthy(Get(d, "items")) && d["items"].JArr? {
      var xs := d["items"].elems;
      CollectSpec(ItemResults(xs, parse));
    }
  }

  /** An element that is not a dict stops the conversion with a TypeError; one without a
      description, or with an explicit null discount (left alone by the coercion, then
      rejected by the non-optional float field), with a validation error. */
  lemma ItemOfRejects(x: Json, parse: NumberParser)
    ensures !x.JObj? ==> ItemOf(x, parse) == Failure(TypeError("items"))
    ensures x.JObj? && "description" !in x.fields ==> ItemOf(x, parse) == Failure(ValidationError("InvoiceItem"))
    ensures x.JObj? && "discount_percentage" in x.fields && x.fields["discount_percentage"] == JNull ==>
      ItemOf(x, parse) == Failure(ValidationError("InvoiceItem"))
  {
    if x.JObj? {
      CoerceFieldsSpec(x.fields, ItemFields, parse);
    }
  }

  /** Coercion happens before validation: a numeric string with thousands separators is a
      valid quantity even though the parser itself rejects the separator. */
  lemma ItemQuantityCoerced(m: map<string, Json>, parse: NumberParser)
    requires "description" in m && m["description"].JStr?
    requires "quantity" in m && m["quantity"] == JStr("1,000")
    requires "unit_price" in m && m["unit_price"] == JNum(5.0)
    requires "subtotal" in m && m["subtotal"] == JNum(5000.0)
    requires "discount_percentage" !in m && "tax_amount" !in m
    requires parse("1000") == Some(1000.0)
    ensures ItemOf(JObj(m), parse).Success?
    ensures ItemOf(JObj(m), parse).value.quantity == 1000.0
    ensures ItemOf(JObj(m), parse).value.discountPercentage == 0.0
    ensures ItemOf(JObj(m), parse).value.taxAmount == None
  {
    CoerceFieldsSpec(m, ItemFields, parse);
    ThousandsSeparator(parse);
    var c := CoerceFields(m, ItemFields, parse);
    assert c["quantity"] == JNum(1000.0);
    assert c["unit_price"] == JNum(5.0);
    assert c["subtotal"] == JNum(5000.0);
  }

  /** `supplier`, `taxes` and `totals` are None exactly when the reply's value is falsy. */
  lemma OptionalPartsSpec(d: map<string, Json>, parse: NumberParser)
    ensures !Truthy(Get(d, "supplier")) <==> SupplierOf(d) == Success(None)
    ensures !Truthy(Get(d, "taxes")) <==> TaxesOf(d, parse) == Success(None)
    ensures !Truthy(Get(d, "totals")) <==> TotalsOf(d, parse) == Success(None)
    ensures Truthy(Get(d, "supplier")) && !d["supplier"].JObj? ==> SupplierOf(d) == Failure(TypeError("supplier"))
    ensures Truthy(Get(d, "taxes")) && !d["taxes"].JObj? ==> TaxesOf(d, parse) == Failure(TypeError("taxes"))
    ensures Truthy(Get(d, "totals")) && !d["totals"].JObj? ==> TotalsOf(d, parse) == Failure(TypeError("totals"))
  {
  }

  /** `currency` falls back to "COP" only when the key is absent: an explicit null stays None. */
  lemma CurrencySpec(d: map<string, Json>)
    ensures "currency" !in d ==> CurrencyOf(d) == Success(Some("COP"))
    ensures "currency" in d && d["currency"] == JNull ==> CurrencyOf(d) == Success(None)
    ensures "currency" in d && d["currency"].JStr? ==> CurrencyOf(d) == Success(Some(d["currency"].s))
    ensures CurrencyOf(d).Success? <==> "currency" !in d || d["currency"].JNull? || d["currency"].JStr?
  {
  }

  /** `raw_text` is None for empty text and otherwise the first `min(len, 1000)` characters. */
  lemma RawTextSpec(rawText: string)
    ensures RawTextOf(rawText).None? <==> rawText == ""
    ensures RawTextOf(rawText).Some? ==>
      var kept := RawTextOf(rawText).value;
      && |kept| == (if |rawText| <= RawTextLimit then |rawText| else RawTextLimit)
      && kept == rawText[..|kept|]
  {
  }

  /** A successful conversion: the id is the one given, the five text fields are the reply's
      strings (None when absent or null), the optional parts are present exactly
      when the reply's value is truthy, the items follow the reply's list, the currency and raw
      text follow their rules, and no score is set yet. */
  lemma AssembleSpec(d: map<string, Json>, invoiceId: string, rawText: string, parse: NumberParser)
    requires Assemble(d, invoiceId, rawText, parse).Success?
    ensures var r := Assemble(d, invoiceId, rawText, parse).value;
      && r.invoiceId == invoiceId
      && (r.supplier.Some? <==> Truthy(Get(d, "supplier")))
      && (r.taxes.Some? <==> Truthy(Get(d, "taxes")))
      && (r.totals.Some? <==> Truthy(Get(d, "totals")))
      && (!Truthy(Get(d, "items")) ==> r.items == [])
      && (Truthy(Get(d, "items")) ==>
            d["items"].JArr? && |r.items| == |d["items"].elems| &&
            forall k :: 0 <= k < |r.items| ==> Success(r.items[k]) == ItemOf(d["items"].elems[k], parse))
      && StrFieldIs(d, "document_type", r.documentType)
      && StrFieldIs(d, "series", r.series)
      && StrFieldIs(d, "number", r.number)
      && StrFieldIs(d, "issue_date", r.issueDate)
      && StrFieldIs(d, "due_date", r.dueDate)
      && Success(r.currency) == CurrencyOf(d)
      && r.rawText == RawTextOf(rawText)
      && r.confidenceScore == None && r.processingNotes == None
  {
    AssembleSucceeds(d, invoiceId, rawText, parse);
    var supplier := SupplierOf(d).value;
    var items := ItemsOf(d, parse).value;
    var taxes := TaxesOf(d, parse).value;
    var totals := TotalsOf(d, parse).value;
    AssembleUnfold(d, invoiceId, rawText, parse);
    BuildResponseSpec(d, invoiceId, supplier, items, taxes, totals, rawText);
    ItemsSpec(d, parse);
    OptionalPartsSpec(d, parse);
  }

  /** A conversion that succeeds has every step succeed. */
  lemma AssembleSucceeds(d: map<string, Json>, invoiceId: string, rawText: string, parse: NumberParser)
    requires Assemble(d, invoiceId, rawText, parse).Success?
    ensures SupplierOf(d).Success? && ItemsOf(d, parse).Success?
    ensures TaxesOf(d, parse).Success? && TotalsOf(d, parse).Success?
  {
  }

  /** When every step succeeds, the conversion is the record built from the steps' results. */
  lemma AssembleUnfold(d: map<string, Json>, invoiceId: string, rawText: string, parse: NumberParser)
    requires SupplierOf(d).Success? && ItemsOf(d, parse).Success?
    requires TaxesOf(d, parse).Success? && TotalsOf(d, parse).Success?
    ensures Assemble(d, invoiceId, rawText, parse) ==
      BuildResponse(d, invoiceId, SupplierOf(d).value, ItemsOf(d, parse).value, TaxesOf(d, parse).value,
                    TotalsOf(d, parse).value, rawText)
  {
  }

  /** The record built from the steps' results keeps them and reads the scalar fields. */
  lemma BuildResponseSpec(d: map<string, Json>, invoiceId: string, supplier: Option<SupplierInfo>,
                          items: seq<InvoiceItem>, taxes: Option<TaxInfo>, totals: Option<InvoiceTotals>,
                          rawText: string)
    requires BuildResponse(d, invoiceId, supplier, items, taxes, totals, rawText).Success?
    ensures var r := BuildResponse(d, invoiceId, supplier, items, taxes, totals, rawText).value;
      && r.invoiceId == invoiceId
      && r.supplier == supplier && r.items == items && r.taxes == taxes && r.totals == totals
      && StrFieldIs(d, "document_type", r.documentType)
      && StrFieldIs(d, "series", r.series)
      && StrFieldIs(d, "number", r.number)
      && StrFieldIs(d, "issue_date", r.issueDate)
      && StrFieldIs(d, "due_date", r.dueDate)
      && Success(r.currency) == CurrencyOf(d)
      && r.rawText == RawTextOf(rawText)
      && r.confidenceScore == None && r.processingNotes == None
  {
  }

  /** An empty reply object gives the record with every default. */
  lemma AssembleEmpty(invoiceId: string, rawText: string, parse: NumberParser)
    ensures Assemble(map[], invoiceId, rawText, parse) ==
      Success(InvoiceResponse(invoiceId := invoiceId, rawText := RawTextOf(rawText)))
  {
  }

  /** The steps run in order and the first failure is the one raised: a malformed supplier wins
      over anything later in the reply. */
  lemma SupplierFailsFirst(d: map<string, Json>, invoiceId: string, rawText: string, parse: NumberParser)
    requires Truthy(Get(d, "supplier")) && !d["supplier"].JObj?
    ensures Assemble(d, invoiceId, rawText, parse) == Failure(TypeError("supplier"))
  {
  }

  /** `totals` without `subtotal` is rejected, even when `total` is a valid amount. */
  lemma TotalsNeedSubtotal(d: map<string, Json>, invoiceId: string, rawText: string, parse: NumberParser)
    requires SupplierOf(d).Success? && ItemsOf(d, parse).Success? && TaxesOf(d, parse).Success?
    requires "totals" in d && d["totals"].JObj? && "subtotal" !in d["totals"].fields
    requires d["totals"].fields != map[]
    ensures Assemble(d, invoiceId, rawText, parse) == Failure(ValidationError("InvoiceTotals"))
  {
    CoerceFieldsSpec(d["totals"].fields, TotalsFields, parse);
  }

  /** Converting the already-converted dict again gives the same record: the coercion the
      conversion leaves behind in `data` is a fixed point. */
  lemma AssembleOfNormalize(d: map<string, Json>, invoiceId: string, rawText: string, parse: NumberParser)
    requires Assemble(d, invoiceId, rawText, parse).Success?
    ensures Assemble(Normalize(d, parse), invoiceId, rawText, parse) == Assemble(d, invoiceId, rawText, parse)
  {
    var n := Normalize(d, parse);
    NormalizeUntouched(d, parse);
    assert SupplierOf(n) == SupplierOf(d) by {
      assert Get(n, "supplier") == Get(d, "supplier");
    }
    NormalizeItemsFixed(d, n, parse);
    NormalizeNestedFixed(d, n, "taxes", TaxFields, parse);
    NormalizeNestedFixed(d, n, "totals", TotalsFields, parse);
    assert TaxesOf(n, parse) == TaxesOf(d, parse);
    assert TotalsOf(n, parse) == TotalsOf(d, parse);
    AssembleSucceeds(d, invoiceId, rawText, parse);
    AssembleUnfold(d, invoiceId, rawText, parse);
    AssembleUnfold(n, invoiceId, rawText, parse);
    ResponseFields(d, n, invoiceId, SupplierOf(d).value, ItemsOf(d, parse).value, TaxesOf(d, parse).value,
                   TotalsOf(d, parse).value, rawText);
  }

  /** Normalising changes only `items`, `taxes` and `totals`. */
  lemma NormalizeUntouched(d: map<string, Json>, parse: NumberParser)
    ensures Untouched(d, Normalize(d, parse))
  {
    var d1 := NormalizeItems(d, parse);
    var d2 := NormalizeNested(d1, "taxes", TaxFields, parse);
    assert Untouched(d, d1);
    assert Untouched(d1, d2);
    assert Untouched(d2, Normalize(d, parse));
    UntouchedTrans(d, d1, d2);
    UntouchedTrans(d, d2, Normalize(d, parse));
  }

  /** The items of the normalised dict convert to the same items. */
  lemma NormalizeItemsFixed(d: map<string, Json>, n: map<string, Json>, parse: NumberParser)
    requires n == Normalize(d, parse)
    ensures ItemsOf(n, parse) == ItemsOf(d, parse)
  {
    var d1 := NormalizeItems(d, parse);
    assert Get(n, "items") == Get(d1, "items");
    if Truthy(Get(d, "items")) && d["items"].JArr? {
      var xs := d["items"].elems;
      var ys := d1["items"].elems;
      assert |ys| == |xs|;
      forall k | 0 <= k < |xs| ensures ItemOf(ys[k], parse) == ItemOf(xs[k], parse) {
        if xs[k].JObj? {
          CoerceFieldsIdempotent(xs[k].fields, ItemFields, parse);
        }
      }
      assert ItemResults(ys, parse) == ItemResults(xs, parse);
    }
  }

  /** A nested dict of the normalised dict converts to the same record. */
  lemma NormalizeNestedFixed(d: map<string, Json>, n: map<string, Json>, key: string, fields: seq<string>,
                             parse: NumberParser)
    requires n == Normalize(d, parse)
    requires (key == "taxes" && fields == TaxFields) || (key == "totals" && fields == TotalsFields)
    ensures NestedOf(n, key, fields, parse) == NestedOf(d, key, fields, parse)
  {
    var d1 := NormalizeItems(d, parse);
    var d2 := NormalizeNested(d1, "taxes", TaxFields, parse);
    assert Get(d1, key) == Get(d, key);
    if Truthy(Get(d, key)) && d[key].JObj? {
      var m := d[key].fields;
      CoerceFieldsSpec(m, fields, parse);
      CoerceFieldsIdempotent(m, fields, parse);
      assert CoerceFields(m, fields, parse) != map[] by {
        var x :| x in m;
        assert x in CoerceFields(m, fields, parse);
      }
      assert n[key] == JObj(CoerceFields(m, fields, parse));
    } else {
      assert Get(n, key) == Get(d, key);
    }
  }
  /** The exceptions the conversion itself can raise: `**` on a non-mapping (TypeError) or a
      record type rejecting its fields (ValidationError). */
  predicate ConversionError(e: PyError) {
    e.TypeError? || e.ValidationError?
  }

  /** The conversion raises nothing but a TypeError or a ValidationError. */
  lemma AssembleErrors(d: map<string, Json>, invoiceId: string, rawText: string, parse: NumberParser)
    ensures Assemble(d, invoiceId, rawText, parse).Failure? ==>
      ConversionError(Assemble(d, invoiceId, rawText, parse).error)
  {
    ItemsErrors(d, parse);
    PartErrors(d, parse);
    if SupplierOf(d).Success? && ItemsOf(d, parse).Success? && TaxesOf(d, parse).Success?
       && TotalsOf(d, parse).Success? {
      AssembleUnfold(d, invoiceId, rawText, parse);
      BuildResponseErrors(d, invoiceId, SupplierOf(d).value, ItemsOf(d, parse).value, TaxesOf(d, parse).value,
                          TotalsOf(d, parse).value, rawText);
    }
  }

  lemma PartErrors(d: map<string, Json>, parse: NumberParser)
    ensures SupplierOf(d).Failure? ==> ConversionError(SupplierOf(d).error)
    ensures TaxesOf(d, parse).Failure? ==> ConversionError(TaxesOf(d, parse).error)
    ensures TotalsOf(d, parse).Failure? ==> ConversionError(TotalsOf(d, parse).error)
  {
    SupplierErrors(d);
    TaxesErrors(d, parse);
    TotalsErrors(d, parse);
  }

  lemma SupplierErrors(d: map<string, Json>)
    ensures SupplierOf(d).Failure? ==> ConversionError(SupplierOf(d).error)
  {
  }

  lemma TaxesErrors(d: map<string, Json>, parse: NumberParser)
    ensures TaxesOf(d, parse).Failure? ==> ConversionError(TaxesOf(d, parse).error)
  {
  }

  lemma TotalsErrors(d: map<string, Json>, parse: NumberParser)
    ensures TotalsOf(d, parse).Failure? ==> ConversionError(TotalsOf(d, parse).error)
  {
  }

  lemma BuildResponseErrors(d: map<string, Json>, invoiceId: string, supplier: Option<SupplierInfo>,
                            items: seq<InvoiceItem>, taxes: Option<TaxInfo>, totals: Option<InvoiceTotals>,
                            rawText: string)
    ensures var r := BuildResponse(d, invoiceId, supplier, items, taxes, totals, rawText);
      r.Failure? ==> ConversionError(r.error)
  {
  }

  lemma ItemsErrors(d: map<string, Json>, parse: NumberParser)
    ensures ItemsOf(d, parse).Failure? ==> ConversionError(ItemsOf(d, parse).error)
  {
    if Truthy(Get(d, "items")) && d["items"].JArr? {
      var xs := d["items"].elems;
      var rs := ItemResults(xs, parse);
      CollectSpec(rs);
      if Collect(rs).Failure? {
        var k :| 0 <= k < |rs| && rs[k] == Failure(Collect(rs).error) && forall j :: 0 <= j < k ==> rs[j].Success?;
        ItemErrors(xs[k], parse);
      }
    }
  }

  lemma ItemErrors(x: Json, parse: NumberParser)
    ensures ItemOf(x, parse).Failure? ==> ConversionError(ItemOf(x, parse).error)
  {
  }
}
