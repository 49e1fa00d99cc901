/**
 * `extract_invoice_data` of app/services/ai_extractor.py, from the model's
 * reply onward: the reply is stripped, the JSON candidate recovered and
 * parsed, the record assembled (which coerces the nested dicts of the
 * parsed object in place) and the confidence computed over that same,
 * now coerced, object. Any exception is re-raised with one of two
 * message prefixes.
 */
module Extractor {
  import opened Results
  import opened PyJson
  import opened PyText
  import opened Schemas
  import opened Coercion
  import opened Assembly
  import opened Confidence
  import opened JsonRecovery
  import opened AssemblyFacts

  /** What `extract_invoice_data(text)` returns or raises, given the model's `reply`, `json.loads`,
      the id `uuid4` produced and `float`. A parsed value that is not a dict fails at its first
      `.get`, in the assembly step. */
  function ExtractInvoice(text: string, reply: string, invoiceId: string, parseJson: JsonParser,
                          parse: NumberParser): Result<InvoiceResponse, PyError>
  {
    var content := Strip(reply);
    match parseJson(ExtractJson(content))
    case None => Failure(JsonDecodeError(content))
    case Some(v) =>
      if !v.JObj? then Failure(AttributeError("supplier"))
      else Process(v.fields, invoiceId, text, parse)
  }

  /** The steps after `json.loads`: the record is built from the dict, then scored over the same
      dict, which the conversion has coerced in place. */
  function Process(d: map<string, Json>, invoiceId: string, text: string, parse: NumberParser)
    : Result<InvoiceResponse, PyError>
  {
    var response :- Assemble(d, invoiceId, text, parse);
    var score :- ConfidenceOf(Normalize(d, parse));
    Success(response.(confidenceScore := Some(score)))
  }

  /** The start of the message of the exception `extract_invoice_data` re-raises. */
  function ErrorPrefix(e: PyError): (prefix: string)
    ensures e.JsonDecodeError? <==> prefix == "Error interpretando respuesta de IA: "
    ensures !e.JsonDecodeError? <==> prefix == "Error procesando factura con IA: "
  {
    if e.JsonDecodeError? then "Error interpretando respuesta de IA: "
    else "Error procesando factura con IA: "
  }

  /** `extract_invoice_data(text)` after the chat call: `reply` is what the model answered to
      `CreateExtractionPrompt(text)`. */
  method ExtractInvoiceData(text: string, reply: string, invoiceId: string, parseJson: JsonParser,
                            parse: NumberParser) returns (r: Result<InvoiceResponse, PyError>)
    ensures r == ExtractInvoice(text, reply, invoiceId, parseJson, parse)
  {
    var content := Strip(reply);
    var jsonContent := ExtractJsonFromResponse(content);
    var extracted := parseJson(jsonContent);
    if extracted.None? {
      return Failure(JsonDecodeError(content));
    }
    if !extracted.value.JObj? {
      return Failure(AttributeError("supplier"));
    }
    r := ProcessData(extracted.value.fields, invoiceId, text, parse);
  }

  /** Conversion and scoring over one dict object `data`. */
  method ProcessData(fields: map<string, Json>, invoiceId: string, text: string, parse: NumberParser)
    returns (r: Result<InvoiceResponse, PyError>)
    ensures r == Process(fields, invoiceId, text, parse)
  {
    var data := new PyDict(fields);
    var invoiceResponse := ConvertToInvoiceResponse(data, invoiceId, text, parse);
    if invoiceResponse.Failure? {
      return Failure(invoiceResponse.error);
    }
    var confidenceScore := CalculateConfidenceScore(data.entries, text);
    if confidenceScore.Failure? {
      return Failure(confidenceScore.error);
    }
    r := Success(invoiceResponse.value.(confidenceScore := Some(confidenceScore.value)));
  }

  // ---------------------------------------------------------------------------------------------
  // Properties of the whole pipeline

  /** A reply `json.loads` rejects is reported with the stripped reply, under the
      "interpreting" prefix; every other failure carries the "processing" prefix. */
  lemma DecodeFailureReported(text: string, reply: string, invoiceId: string, parseJson: JsonParser,
                              parse: NumberParser)
    ensures var r := ExtractInvoice(text, reply, invoiceId, parseJson, parse);
      (r.Failure? && ErrorPrefix(r.error) == "Error interpretando respuesta de IA: ")
      <==> parseJson(ExtractJson(Strip(reply))).None?
    ensures var r := ExtractInvoice(text, reply, invoiceId, parseJson, parse);
      parseJson(ExtractJson(Strip(reply))).None? ==> r == Failure(JsonDecodeError(Strip(reply)))
  {
    var r := ExtractInvoice(text, reply, invoiceId, parseJson, parse);
    match parseJson(ExtractJson(Strip(reply)))
    case None =>
    case Some(v) =>
      if v.JObj? {
        var a := Assemble(v.fields, invoiceId, text, parse);
        if a.Success? {
          assert r.Failure? ==> r == ConfidenceOf(Normalize(v.fields, parse)).PropagateFailure();
          NoDecodeErrorFromScoring(Normalize(v.fields, parse));
        } else {
          AssembleErrors(v.fields, invoiceId, text, parse);
        }
      }
  }

  /** A successful extraction comes from a dict reply and is its processed record. */
  lemma ExtractedRecord(text: string, reply: string, invoiceId: string, parseJson: JsonParser,
                        parse: NumberParser)
    requires ExtractInvoice(text, reply, invoiceId, parseJson, parse).Success?
    ensures var v := parseJson(ExtractJson(Strip(reply)));
      && v.Some? && v.value.JObj?
      && Process(v.value.fields, invoiceId, text, parse) == ExtractInvoice(text, reply, invoiceId, parseJson, parse)
  {
  }

  /** A processed record is the converted record with the score set and nothing else changed;
      the score lies in [0, 1] and is a whole number of twentieths, so rounding to two decimals
      kept it exact. */
  lemma ProcessedRecord(d: map<string, Json>, invoiceId: string, text: string, parse: NumberParser)
    requires Process(d, invoiceId, text, parse).Success?
    ensures Assemble(d, invoiceId, text, parse).Success?
    ensures var r := Process(d, invoiceId, text, parse).value;
      && r.(confidenceScore := None) == Assemble(d, invoiceId, text, parse).value
      && r.invoiceId == invoiceId
      && r.rawText == RawTextOf(text)
      && r.confidenceScore.Some?
      && 0.0 <= r.confidenceScore.value <= 1.0
      && (r.confidenceScore.value * 20.0).Floor as real == r.confidenceScore.value * 20.0
  {
    var n := Normalize(d, parse);
    AssembleSpec(d, invoiceId, text, parse);
    ConfidenceInRange(n);
    var h := Halves(n);
    assert ConfidenceOf(n).value * 20.0 == h as real;
  }

  /** Once the record has been assembled, scoring fails exactly when `supplier` or `totals` is
      present with a value that is not a dict; it is then an AttributeError naming that key. */
  lemma ScoringFailsOnlyOnParts(d: map<string, Json>, invoiceId: string, text: string, parse: NumberParser)
    requires Assemble(d, invoiceId, text, parse).Success?
    ensures ConfidenceOf(Normalize(d, parse)).Failure? <==>
      ("supplier" in d && !d["supplier"].JObj?) || ("totals" in d && !d["totals"].JObj?)
    ensures "supplier" in d && !d["supplier"].JObj? ==>
      ConfidenceOf(Normalize(d, parse)) == Failure(AttributeError("supplier"))
  {
    var e := Normalize(d, parse);
    NormalizeKeepsParts(d, parse);
    ItemsAfterAssembly(d, invoiceId, text, parse);
  }

  /** A reply whose `totals` gives `total` but no `subtotal` fails validation of InvoiceTotals. */
  lemma TotalsWithoutSubtotalFail(text: string, reply: string, invoiceId: string, parseJson: JsonParser,
                                  parse: NumberParser)
    requires parseJson(ExtractJson(Strip(reply))) ==
      Some(JObj(map["document_type" := JStr("Factura"), "number" := JStr("F-1"),
                    "totals" := JObj(map["total" := JStr("1,000")])]))
    ensures ExtractInvoice(text, reply, invoiceId, parseJson, parse) == Failure(ValidationError("InvoiceTotals"))
  {
    var d := map["document_type" := JStr("Factura"), "number" := JStr("F-1"),
                 "totals" := JObj(map["total" := JStr("1,000")])];
    assert "total" in d["totals"].fields;
    TotalsNeedSubtotal(d, invoiceId, text, parse);
  }

  /** With a subtotal as well, the reply is accepted: the total is read as 1000.0, the currency
      defaults to COP and the score is document_type 1.0 + number 1.5 + totals.total 2.0 = 4.5
      of 10. */
  lemma ScenarioWithSubtotal(text: string, reply: string, invoiceId: string, parseJson: JsonParser,
                             parse: NumberParser)
    requires parse("1000") == Some(1000.0)
    requires parseJson(ExtractJson(Strip(reply))) ==
      Some(JObj(map["document_type" := JStr("Factura"), "number" := JStr("F-1"),
                    "totals" := JObj(map["subtotal" := JStr("1,000"), "total" := JStr("1,000")])]))
    ensures ExtractInvoice(text, reply, invoiceId, parseJson, parse) == Success(InvoiceResponse(
      invoiceId := invoiceId, documentType := Some("Factura"), number := Some("F-1"),
      totals := Some(InvoiceTotals(subtotal := 1000.0, total := 1000.0)), rawText := RawTextOf(text),
      confidenceScore := Some(0.45)))
  {
    var d := map["document_type" := JStr("Factura"), "number" := JStr("F-1"),
                 "totals" := JObj(map["subtotal" := JStr("1,000"), "total" := JStr("1,000")])];
    SubtotalScenarioRecord(parse, invoiceId, text);
    SubtotalScenarioNormalized(parse);
    ExtractInvoiceOf(text, reply, invoiceId, parseJson, parse, d, Assemble(d, invoiceId, text, parse).value, 0.45);
  }

  /** A total the number parser rejects is coerced to 0.0 before scoring, so it earns no
      points although the reply's string is non-empty. */
  lemma UnparseableTotalScoresNothing(text: string, reply: string, invoiceId: string, parseJson: JsonParser,
                                      parse: NumberParser)
    requires parse("N/A") == None
    requires parseJson(ExtractJson(Strip(reply))) ==
      Some(JObj(map["totals" := JObj(map["subtotal" := JNum(100.0), "total" := JStr("N/A")])]))
    ensures ExtractInvoice(text, reply, invoiceId, parseJson, parse) == Success(InvoiceResponse(
      invoiceId := invoiceId, totals := Some(InvoiceTotals(subtotal := 100.0, total := 0.0)),
      rawText := RawTextOf(text), confidenceScore := Some(0.0)))
  {
    var d := map["totals" := JObj(map["subtotal" := JNum(100.0), "total" := JStr("N/A")])];
    UnparseableTotalScenario(parse, invoiceId, text);
    ExtractInvoiceOf(text, reply, invoiceId, parseJson, parse, d, Assemble(d, invoiceId, text, parse).value, 0.0);
  }

  /** `"supplier": null` gets through the assembly step (a falsy supplier is skipped) and then
      raises in scoring. */
  lemma NullSupplierRaises(text: string, reply: string, invoiceId: string, parseJson: JsonParser,
                           parse: NumberParser)
    requires parseJson(ExtractJson(Strip(reply))) == Some(JObj(map["supplier" := JNull]))
    ensures Assemble(map["supplier" := JNull], invoiceId, text, parse).Success?
    ensures ExtractInvoice(text, reply, invoiceId, parseJson, parse) == Failure(AttributeError("supplier"))
  {
    var d := map["supplier" := JNull];
    NullPartsRaise(Normalize(d, parse));
  }

  // ---------------------------------------------------------------------------------------------
  // Proof steps

  /** A reply whose object converts and scores: the record with that score. */
  lemma ExtractInvoiceOf(text: string, reply: string, invoiceId: string, parseJson: JsonParser,
                         parse: NumberParser, d: map<string, Json>, response: InvoiceResponse, score: real)
    requires parseJson(ExtractJson(Strip(reply))) == Some(JObj(d))
    requires Assemble(d, invoiceId, text, parse) == Success(response)
    requires ConfidenceOf(Normalize(d, parse)) == Success(score)
    ensures ExtractInvoice(text, reply, invoiceId, parseJson, parse) == Success(response.(confidenceScore := Some(score)))
  {
  }

  lemma SubtotalScenarioNormalized(parse: NumberParser)
    requires parse("1000") == Some(1000.0)
    ensures var d := map["document_type" := JStr("Factura"), "number" := JStr("F-1"),
                         "totals" := JObj(map["subtotal" := JStr("1,000"), "total" := JStr("1,000")])];
      ConfidenceOf(Normalize(d, parse)) == Success(0.45)
  {
    var d := map["document_type" := JStr("Factura"), "number" := JStr("F-1"),
                 "totals" := JObj(map["subtotal" := JStr("1,000"), "total" := JStr("1,000")])];
    var coerced := d["totals" := JObj(map["subtotal" := JNum(1000.0), "total" := JNum(1000.0)])];
    SubtotalScenarioScore();
    ThousandsSeparator(parse);
    TotalsPair(d, JStr("1,000"), JStr("1,000"), parse);
    assert "total" in d["totals"].fields;
    NormalizeOnlyTotals(d, parse);
    assert Normalize(d, parse) == coerced;
  }

  lemma UnparseableTotalScenario(parse: NumberParser, invoiceId: string, text: string)
    requires parse("N/A") == None
    ensures var d := map["totals" := JObj(map["subtotal" := JNum(100.0), "total" := JStr("N/A")])];
      && Assemble(d, invoiceId, text, parse) == Success(InvoiceResponse(
           invoiceId := invoiceId, totals := Some(InvoiceTotals(subtotal := 100.0, total := 0.0)),
           rawText := RawTextOf(text)))
      && ConfidenceOf(Normalize(d, parse)) == Success(0.0)
  {
    var coerced := map["totals" := JObj(map["subtotal" := JNum(100.0), "total" := JNum(0.0)])];
    UnparseableTotalRecord(parse, invoiceId, text);
    UnparseableTotalNormalized(parse);
    ConfidenceZero(coerced);
  }

  lemma UnparseableTotalNormalized(parse: NumberParser)
    requires parse("N/A") == None
    ensures Normalize(map["totals" := JObj(map["subtotal" := JNum(100.0), "total" := JStr("N/A")])], parse)
      == map["totals" := JObj(map["subtotal" := JNum(100.0), "total" := JNum(0.0)])]
  {
    var d := map["totals" := JObj(map["subtotal" := JNum(100.0), "total" := JStr("N/A")])];
    UnparseableAmount(parse);
    TotalsPair(d, JNum(100.0), JStr("N/A"), parse);
    assert "total" in d["totals"].fields;
    NormalizeOnlyTotals(d, parse);
  }

  lemma SubtotalScenarioRecord(parse: NumberParser, invoiceId: string, text: string)
    requires parse("1000") == Some(1000.0)
    ensures var totals := map["subtotal" := JStr("1,000"), "total" := JStr("1,000")];
      var d := map["document_type" := JStr("Factura"), "number" := JStr("F-1"), "totals" := JObj(totals)];
      Assemble(d, invoiceId, text, parse) == Success(InvoiceResponse(
        invoiceId := invoiceId, documentType := Some("Factura"), number := Some("F-1"),
        totals := Some(InvoiceTotals(subtotal := 1000.0, total := 1000.0)), rawText := RawTextOf(text)))
  {
    var totals := map["subtotal" := JStr("1,000"), "total" := JStr("1,000")];
    var d := map["document_type" := JStr("Factura"), "number" := JStr("F-1"), "totals" := JObj(totals)];
    ThousandsSeparator(parse);
    TotalsPair(d, JStr("1,000"), JStr("1,000"), parse);
    OnlyTotals(d, invoiceId, text, parse);
    SubtotalScenarioBuild(d, invoiceId, text, TotalsOf(d, parse).value);
  }

  lemma SubtotalScenarioBuild(d: map<string, Json>, invoiceId: string, text: string, totals: Option<InvoiceTotals>)
    requires d == map["document_type" := JStr("Factura"), "number" := JStr("F-1"),
                      "totals" := JObj(map["subtotal" := JStr("1,000"), "total" := JStr("1,000")])]
    ensures BuildResponse(d, invoiceId, None, [], None, totals, text) == Success(InvoiceResponse(
      invoiceId := invoiceId, documentType := Some("Factura"), number := Some("F-1"), totals := totals,
      rawText := RawTextOf(text)))
  {
    assert OptionalStr(d, "document_type", "InvoiceResponse") == Success(Some("Factura"));
    assert OptionalStr(d, "number", "InvoiceResponse") == Success(Some("F-1"));
    assert "series" !in d && "issue_date" !in d && "due_date" !in d && "currency" !in d;
  }

  /** Without items or taxes, only `totals` is changed by the in-place coercion. */
  lemma NormalizeOnlyTotals(d: map<string, Json>, parse: NumberParser)
    requires "items" !in d && "taxes" !in d
    requires "totals" in d && d["totals"].JObj? && d["totals"].fields != map[]
    ensures Normalize(d, parse) == d["totals" := JObj(CoerceFields(d["totals"].fields, TotalsFields, parse))]
  {
    assert NormalizeItems(d, parse) == d;
    assert NormalizeNested(d, "taxes", TaxFields, parse) == d;
  }

  lemma UnparseableTotalRecord(parse: NumberParser, invoiceId: string, text: string)
    requires parse("N/A") == None
    ensures var d := map["totals" := JObj(map["subtotal" := JNum(100.0), "total" := JStr("N/A")])];
      Assemble(d, invoiceId, text, parse) == Success(InvoiceResponse(
        invoiceId := invoiceId, totals := Some(InvoiceTotals(subtotal := 100.0, total := 0.0)),
        rawText := RawTextOf(text)))
  {
    var d := map["totals" := JObj(map["subtotal" := JNum(100.0), "total" := JStr("N/A")])];
    UnparseableAmount(parse);
    TotalsPair(d, JNum(100.0), JStr("N/A"), parse);
    OnlyTotals(d, invoiceId, text, parse);
    TotalsOnlyBuild(d, invoiceId, text, TotalsOf(d, parse).value);
  }

  lemma UnparseableAmount(parse: NumberParser)
    requires parse("N/A") == None
    ensures CoerceValue(JStr("N/A"), parse) == JNum(0.0)
  {
    assert Unseparated("N/A") == "N/A";
  }

  lemma TotalsOnlyBuild(d: map<string, Json>, invoiceId: string, text: string, totals: Option<InvoiceTotals>)
    requires d.Keys == {"totals"}
    ensures BuildResponse(d, invoiceId, None, [], None, totals, text) == Success(InvoiceResponse(
      invoiceId := invoiceId, totals := totals, rawText := RawTextOf(text)))
  {
    assert "document_type" !in d && "series" !in d && "number" !in d;
    assert "issue_date" !in d && "due_date" !in d && "currency" !in d;
  }

  lemma SubtotalScenarioScore()
    ensures ConfidenceOf(map["document_type" := JStr("Factura"), "number" := JStr("F-1"),
      "totals" := JObj(map["subtotal" := JNum(1000.0), "total" := JNum(1000.0)])]) == Success(0.45)
  {
    var e := map["document_type" := JStr("Factura"), "number" := JStr("F-1"),
      "totals" := JObj(map["subtotal" := JNum(1000.0), "total" := JNum(1000.0)])];
    ScoreSteps(e);
    assert Halves(e) == 9;
  }

  /** A `totals` dict holding just a subtotal and a total, each coerced to a number, gives
      those two amounts and the defaults. */
  lemma TotalsPair(d: map<string, Json>, subtotal: Json, total: Json, parse: NumberParser)
    requires "totals" in d && d["totals"] == JObj(map["subtotal" := subtotal, "total" := total])
    requires !subtotal.JNull? && !total.JNull?
    ensures CoerceFields(d["totals"].fields, TotalsFields, parse) ==
      map["subtotal" := CoerceValue(subtotal, parse), "total" := CoerceValue(total, parse)]
      && TotalsOf(d, parse) == Success(Some(InvoiceTotals(
           subtotal := CoerceValue(subtotal, parse).n, total := CoerceValue(total, parse).n)))
  {
    var raw := map["subtotal" := subtotal, "total" := total];
    var m := map["subtotal" := CoerceValue(subtotal, parse), "total" := CoerceValue(total, parse)];
    CoerceFieldsSpec(raw, TotalsFields, parse);
    assert CoerceFields(raw, TotalsFields, parse) == m;
    assert "subtotal" in raw;
    assert NestedOf(d, "totals", TotalsFields, parse) == Success(Some(m));
    assert TotalsFromKeywords(m, parse).Success?;
  }

  /** A reply with neither supplier, items nor taxes: the record is built around its totals. */
  lemma OnlyTotals(d: map<string, Json>, invoiceId: string, text: string, parse: NumberParser)
    requires "supplier" !in d && "items" !in d && "taxes" !in d
    requires TotalsOf(d, parse).Success?
    ensures Assemble(d, invoiceId, text, parse) ==
      BuildResponse(d, invoiceId, None, [], None, TotalsOf(d, parse).value, text)
  {
    assert SupplierOf(d) == Success(None);
    assert ItemsOf(d, parse) == Success([]);
    assert TaxesOf(d, parse) == Success(None);
    AssembleUnfold(d, invoiceId, text, parse);
  }

  lemma NoDecodeErrorFromScoring(d: map<string, Json>)
    ensures ConfidenceOf(d).Failure? ==> !ConfidenceOf(d).error.JsonDecodeError?
  {
  }

  lemma NormalizeKeepsParts(d: map<string, Json>, parse: NumberParser)
    ensures "supplier" in Normalize(d, parse) <==> "supplier" in d
    ensures "supplier" in d ==> Normalize(d, parse)["supplier"] == d["supplier"]
    ensures "totals" in Normalize(d, parse) <==> "totals" in d
    ensures "totals" in d ==> (Normalize(d, parse)["totals"].JObj? <==> d["totals"].JObj?)
    ensures "items" in Normalize(d, parse) <==> "items" in d
    ensures "items" in d ==> (Normalize(d, parse)["items"].JArr? <==> d["items"].JArr?)
    ensures "items" in d ==> (Truthy(Normalize(d, parse)["items"]) <==> Truthy(d["items"]))
  {
  }

  lemma ItemsAfterAssembly(d: map<string, Json>, invoiceId: string, text: string, parse: NumberParser)
    requires Assemble(d, invoiceId, text, parse).Success?
    ensures Truthy(Get(d, "items")) ==> d["items"].JArr?
  {
  }
}
