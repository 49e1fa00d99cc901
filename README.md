# Invoice extraction pipeline, modelled in Dafny

This project models the part of the invoice API that turns a language model's reply into an invoice record. That part is `AIExtractor` in `app/services/ai_extractor.py`, together with `clean_text` and the pydantic record types it fills.

The model follows a reply through each step:

1. The extraction prompt is built around the invoice text.
2. The reply is stripped, and a JSON candidate is recovered from it. This tries a greedy `{…}` span, then a line scan, then the whole reply.
3. `json.loads` parses the candidate. It is a parameter of the model.
4. Numeric fields are coerced in place.
5. The `InvoiceResponse` record is assembled, with pydantic validation.
6. The weighted confidence score is computed over the same, now coerced, dict.

Modules:

- `Results`: `Option` and `Result`.
- `PyJson`: the parsed JSON values, Python truthiness, `dict.get`, and the kinds of exception.
- `PyText`: `str.strip`, `split('\n')`, `'\n'.join`, and `split()` into words.
- `Utils`: `clean_text`.
- `Schemas`: the record types and their keyword validation.
- `Prompt`: the prompt template.
- `JsonRecovery`: `_extract_json_from_response`.
- `Coercion`: `_validate_numeric_fields`, over a `PyDict` class whose entries change in place.
- `Assembly`: `_convert_to_invoice_response`.
- `AssemblyFacts`: properties of the conversion.
- `Confidence`: `_calculate_confidence_score`.
- `Extractor`: `extract_invoice_data` from the reply onward.

Each imperative source function is a method, proved equal to a specification function:

- the line loop of the JSON recovery;
- the coercion loop;
- the item loop and the conversion steps that change `data`;
- the sequence of score additions.

Lemmas then state what the source promises about those specification functions.

In these places the code's behaviour may surprise a caller; the model follows the code:

- **A totals object needs a subtotal.** A reply whose `totals` holds only a `total` is rejected, because `InvoiceTotals` requires `subtotal` (`Extractor.TotalsWithoutSubtotalFail`).
- **Scoring sees the coerced values.** The nested dicts coerced during conversion are the same objects that are scored afterwards. A `totals.total` of `"N/A"` is therefore 0.0 by then and earns nothing (`Extractor.UnparseableTotalScoresNothing`).
- **A present `null` raises during scoring.** `data.get('supplier', {})` returns `None` for a present `null`, so a reply with `"supplier": null` passes conversion and then raises (`Extractor.NullSupplierRaises`). The same holds for `totals`.
- **A null discount is rejected.** An explicit `null` under an item's `discount_percentage` is left alone by the coercion and then rejected by the non-optional float field.
- **A reply that is not a dict fails at its first `.get`.** A JSON list or a bare number fails at `data.get('supplier')`, which raises AttributeError.

## Model

| member | source | states |
|---|---|---|
| Utils.CleanText | app/core/utils.py:57-70 | empty input gives ""; the output is no longer than the input, has no character below code 32, and has no leading, trailing or doubled whitespace |
| Utils.CleanTextIdempotent | app/core/utils.py:57-70 | `clean_text(clean_text(s)) == clean_text(s)` |
| Utils.CleanTextKeepsVisible | app/core/utils.py:65-68 | the non-whitespace, non-control characters of the input are exactly the non-space characters of the output, in their order |
| Utils.DropControl | app/core/utils.py:65 | the filter keeps exactly the characters with code >= 32 and `\n`, `\r`, `\t`, and never lengthens the text; a single character is kept exactly when it passes the test |
| Utils.DropControlAppend | app/core/utils.py:65 | the filter works character by character: filtering a concatenation is concatenating the filtered parts, so order and multiplicity are kept |
| Utils.CleanTextWords | app/core/utils.py:65-68 | `clean_text(s).split()` equals the words of `s` once control characters are dropped; with the single-spacing of `Utils.CleanText` this fixes the result as those words joined by single spaces |
| PyText.Strip | app/services/ai_extractor.py:112 | `strip()` is the contiguous middle of the string between an all-whitespace prefix and suffix, and neither of its ends is whitespace |
| PyText.JoinSplit | app/services/ai_extractor.py:153 | joining the lines of `split('\n')` with `'\n'` gives back the original string |
| Prompt.Framed | app/services/ai_extractor.py:20-84 | the result is the prefix, then the text verbatim, then the suffix: each is found again at its own position, for every text including the empty one; `CreateExtractionPrompt(text)` is `Framed(PromptPrefix, text, PromptSuffix)` |
| Prompt.UnframedFramed | app/services/ai_extractor.py:24-84 | cutting a prefix's and a suffix's lengths off a framed text gives the text back unchanged |
| Prompt.FramedInjective | app/services/ai_extractor.py:24-84 | under a fixed prefix and suffix, two texts with the same framed result are equal |
| Prompt.PromptInjective | app/services/ai_extractor.py:24-84 | two invoice texts with the same prompt are equal |
| Prompt.FramedEnds | app/services/ai_extractor.py:28-82 | with a prefix ending in a header line and a suffix ending in a cue line, the text comes right after the header and the whole ends with the cue; for the prompt, the text follows `TEXTO DE LA FACTURA:` and the prompt ends with `JSON:` |
| JsonRecovery.ExtractJsonFromResponse | app/services/ai_extractor.py:143-169 | returns `ExtractJson(content)`; with a brace span the result starts with `{` and ends with `}`; with no span and no opening line it is the input unchanged |
| JsonRecovery.CollectJsonLines | app/services/ai_extractor.py:153-163 | the loop with its `in_json` flag collects the lines from the first opening line through the first closing line at or after it, or to the end |
| JsonRecovery.FirstToLastBrace | app/services/ai_extractor.py:148-150 | when `content[a]` is the first `{` and `content[b-1]` the last `}`, after it, the result is exactly `content[a..b]` |
| JsonRecovery.ProseAroundObject | app/services/ai_extractor.py:148-150 | prose without `{`, an object text, then prose without `}` gives back the object text |
| JsonRecovery.OpenBeforeClose | app/services/ai_extractor.py:148-163 | an opening line at or before a closing line means the greedy span exists, so the regular expression would have matched |
| JsonRecovery.LineScanRunsToEnd | app/services/ai_extractor.py:153-166 | when the line scan is reached and finds an opening line, it runs to the last line, and the result is the suffix of the reply from that line |
| JsonRecovery.ExtractJsonIsSlice | app/services/ai_extractor.py:143-169 | in every branch the result is one contiguous substring of the input |
| JsonRecovery.ScanEnds | app/services/ai_extractor.py:157-166 | the scan is empty without an opening line, stops at the first closing line, or else runs to the end |
| JsonRecovery.OpensIsStrippedStart | app/services/ai_extractor.py:158 | a line opens exactly when its stripped form is non-empty and starts with `{` |
| JsonRecovery.ClosesIsStrippedEnd | app/services/ai_extractor.py:162 | a line closes exactly when its stripped form ends with `}` (`EndsWithBrace`: non-empty, last character `}`) |
| Coercion.ValidateNumericFields | app/services/ai_extractor.py:223-241 | returns the same dict object; its new entries are the old ones with every listed present non-null field coerced, field by field in order |
| Coercion.CoerceValue | app/services/ai_extractor.py:229-239 | a present, non-null value always becomes a number; no ValueError or TypeError escapes (overflow: see Left out) |
| Coercion.CoerceFieldsSpec | app/services/ai_extractor.py:227-239 | the keys do not change; a listed present non-null field holds its coerced value; absent, null and unlisted entries are untouched |
| Coercion.CoercedFieldsAreNumbers | app/services/ai_extractor.py:227-239 | after coercion every listed field that is present holds a number or null |
| Coercion.CoerceFieldsIdempotent | app/services/ai_extractor.py:227-239 | coercing twice is coercing once |
| Coercion.SeparatorIgnored | app/services/ai_extractor.py:233 | a `,` or a space anywhere in a string field does not change the number it becomes |
| Coercion.ThousandsSeparator | app/services/ai_extractor.py:233-234 | `"1,000"` becomes `float("1000")` |
| Coercion.OnlySeparators | app/services/ai_extractor.py:233-234 | every string made only of `,` and spaces is empty once cleaned and becomes 0.0 |
| Coercion.CoerceValueCases | app/services/ai_extractor.py:229-239 | numbers are kept; booleans give 1.0 or 0.0; a string is read without its separators; an empty cleaned string, a string `float` rejects, a list or a dict give 0.0 |
| Coercion.Unseparated | app/services/ai_extractor.py:233 | removing `,` and spaces keeps every other character and never lengthens the string |
| Schemas.SupplierFromKeywords | app/schemas/invoice.py:6-11 | every field is optional and None by default; validation fails exactly when a field holds something other than a string or null; each of the five fields is None when its keyword is absent or null and otherwise that keyword's string |
| Schemas.ItemFromKeywords | app/schemas/invoice.py:13-19 | description, quantity, unit_price and subtotal are required; discount_percentage defaults to 0.0 and tax_amount to None; validation succeeds exactly when each present field has an acceptable value |
| Schemas.TaxesFromKeywords | app/schemas/invoice.py:21-27 | six optional numbers; validation fails exactly when a non-null field is not a number; each of the six fields is None when its keyword is absent or null and otherwise that keyword's value as a float |
| Schemas.TotalsFromKeywords | app/schemas/invoice.py:29-34 | subtotal and total are required; discount_total, tax_total and retention_total are their keyword's value as a float when present and 0.0 when absent; validation fails exactly when a required field is missing or a present field is not a number |
| Schemas.NewInvoiceResponse | app/schemas/invoice.py:36-50 | only invoice_id is required; currency defaults to "COP", items to [], and the other fields to None |
| Schemas.StatusFromKeywords | app/schemas/invoice.py:52-56 | status and message are required strings and are kept; invoice_id and error_details are None when absent or null and otherwise their keyword's string |
| Assembly.ConvertSupplier | app/services/ai_extractor.py:176-178 | the result is None exactly when `data.get('supplier')` is falsy; a truthy non-dict raises TypeError; a dict gives the `SupplierInfo` it validates to, or that validation's error |
| Assembly.ConvertItems | app/services/ai_extractor.py:181-186 | the item loop returns `ItemsOf(data)`; on success each element of `data['items']` has been coerced in place, and no other entry changes |
| Assembly.CoerceNested | app/services/ai_extractor.py:189-203 | the nested dict under the key is coerced and written back, exactly when `data.get(key)` is truthy |
| Assembly.ConvertTaxes | app/services/ai_extractor.py:189-195 | returns `TaxesOf(data)`; `data['taxes']` is coerced in place and nothing outside items, taxes and totals changes |
| Assembly.ConvertTotals | app/services/ai_extractor.py:198-203 | returns `TotalsOf(data)`; `data['totals']` is coerced in place and nothing outside items, taxes and totals changes |
| Assembly.ConvertToInvoiceResponse | app/services/ai_extractor.py:171-221 | returns `Assemble(old data)`; after a success `data` is the normalised (coerced) dict; in every case only items, taxes and totals change |
| AssemblyFacts.CollectSpec | app/services/ai_extractor.py:183-186 | the loop succeeds exactly when every element does and then keeps them all in order; otherwise it raises the first failing element's error |
| AssemblyFacts.ItemsSpec | app/services/ai_extractor.py:181-186 | items are [] when `items` is absent or falsy; otherwise there is one item per element, in order, or the first element's error |
| AssemblyFacts.ItemOfRejects | app/services/ai_extractor.py:183-186 | a non-dict element raises TypeError; a missing description or an explicit null discount fails InvoiceItem validation |
| AssemblyFacts.ItemQuantityCoerced | app/services/ai_extractor.py:185-186 | coercion precedes validation: a quantity of `"1,000"` validates as 1000.0, with discount 0.0 and no tax amount |
| AssemblyFacts.OptionalPartsSpec | app/services/ai_extractor.py:176-203 | supplier, taxes and totals are None exactly when the reply's value is falsy; a truthy non-dict raises TypeError |
| AssemblyFacts.CurrencySpec | app/services/ai_extractor.py:214 | currency is "COP" only when the key is absent; an explicit null stays None; a string is kept; anything else fails validation |
| AssemblyFacts.RawTextSpec | app/services/ai_extractor.py:218 | raw_text is None exactly for empty text, and otherwise the first min(len, 1000) characters |
| AssemblyFacts.AssembleSpec | app/services/ai_extractor.py:171-221 | a successful conversion carries the given id, document_type, series, number, issue_date and due_date as the reply's strings (None when absent or null), has the optional parts exactly when they are truthy, the items element by element, the currency and raw text by their rules, and no score |
| AssemblyFacts.AssembleEmpty | app/services/ai_extractor.py:171-221 | an empty object gives the record with every default |
| AssemblyFacts.SupplierFailsFirst | app/services/ai_extractor.py:177-178 | a truthy supplier that is not a dict raises TypeError before anything else is looked at |
| AssemblyFacts.TotalsNeedSubtotal | app/services/ai_extractor.py:198-203 | a non-empty totals object without subtotal fails InvoiceTotals validation |
| AssemblyFacts.AssembleOfNormalize | app/services/ai_extractor.py:171-241 | converting the dict the conversion left behind gives the same record: the in-place coercion is a fixed point |
| AssemblyFacts.AssembleErrors | app/services/ai_extractor.py:171-221 | the conversion raises only TypeError or ValidationError |
| Confidence.GetOrEmpty | app/services/ai_extractor.py:257-259 | `data.get(key, {})`: the empty dict when absent, the value (None included) when present |
| Confidence.CalculateConfidenceScore | app/services/ai_extractor.py:243-272 | the sequence of additions, the division by `max_score`, the cap and the rounding give `ConfidenceOf(data)`: the weighted sum over 10, or the exception scoring raises |
| Confidence.HalvesBounded | app/services/ai_extractor.py:247-269 | the score never exceeds `max_score`, so the cap at 1.0 never applies |
| Confidence.WeightsTotal | app/services/ai_extractor.py:251-266 | the eight weights add up to 10 |
| Confidence.Round2Exact | app/services/ai_extractor.py:272 | rounding to two decimals leaves every whole number of twentieths unchanged |
| Confidence.ConfidenceInRange | app/services/ai_extractor.py:269-272 | the confidence lies in [0, 1] |
| Confidence.ConfidenceFull | app/services/ai_extractor.py:251-272 | the confidence is 1.0 exactly when all eight signals hold |
| Confidence.ConfidenceZero | app/services/ai_extractor.py:251-272 | the confidence is 0.0 exactly when no signal holds |
| Confidence.ConfidenceOfEmpty | app/services/ai_extractor.py:251-272 | `{}` scores 0.0 |
| Confidence.ConfidenceMonotone | app/services/ai_extractor.py:251-272 | adding a satisfied signal never lowers the confidence |
| Confidence.NullPartsRaise | app/services/ai_extractor.py:257-259 | a present null supplier raises AttributeError; so does a present null totals once the supplier is a dict |
| Confidence.WeightedSumBounded | app/services/ai_extractor.py:251-266 | the weighted sum of the signals never exceeds the sum of the weights |
| Confidence.WeightedSumMonotone | app/services/ai_extractor.py:251-266 | more signals never give a smaller sum |
| Extractor.ExtractInvoiceData | app/services/ai_extractor.py:112-129 | strip, recover, parse, convert, then score the same dict: the result is `ExtractInvoice(...)` |
| Extractor.ProcessData | app/services/ai_extractor.py:125-129 | conversion followed by scoring over the dict the conversion changed |
| Extractor.ErrorPrefix | app/services/ai_extractor.py:134-141 | a JSON decode error is re-raised as "Error interpretando respuesta de IA"; every other error as "Error procesando factura con IA" |
| Extractor.DecodeFailureReported | app/services/ai_extractor.py:116-141 | the "interpreting" prefix appears exactly when `json.loads` rejected the candidate, and that failure carries the stripped reply |
| Extractor.ExtractedRecord | app/services/ai_extractor.py:116-129 | a success comes from a reply that parses to a dict, and is that dict's processed record |
| Extractor.ProcessedRecord | app/services/ai_extractor.py:125-129 | the result is the converted record with only the score set; the score is in [0, 1] and a whole number of twentieths |
| Extractor.ScoringFailsOnlyOnParts | app/services/ai_extractor.py:125-129 | once conversion succeeded, scoring fails exactly when supplier or totals is present and not a dict, and a bad supplier raises AttributeError |
| Extractor.TotalsWithoutSubtotalFail | app/services/ai_extractor.py:116-129 | a reply with a total but no subtotal fails with InvoiceTotals validation |
| Extractor.ScenarioWithSubtotal | app/services/ai_extractor.py:116-129 | with a subtotal, `"1,000"` totals are read as 1000.0, the currency defaults to COP and the confidence is 0.45 |
| Extractor.UnparseableTotalScoresNothing | app/services/ai_extractor.py:125-129 | a total of `"N/A"` becomes 0.0 before scoring and earns no points |
| Extractor.NullSupplierRaises | app/services/ai_extractor.py:257 | `"supplier": null` passes conversion and raises AttributeError in scoring |

## Left out

- The OpenAI chat call (app/services/ai_extractor.py:95-109) and the client's construction are not modelled, because they are network calls. The model starts from the reply string, which is a parameter.
- `Extractor.ExtractInvoiceData` does not build the prompt. The prompt only feeds the chat call; `Prompt.CreateExtractionPrompt` models it on its own.
- Prompt.CreateExtractionPrompt: its slicing, round-trip and header facts are proved for `Framed` with any prefix and suffix, and hold for the prompt through its definition `Framed(PromptPrefix, text, PromptSuffix)`; only injectivity is stated about the fixed wording itself.
- `json.loads` and `float()` on strings are parameters: `JsonParser` and `NumberParser`. Their grammars, and IEEE double rounding and overflow, are not modelled. Numbers are reals.
- Coercion.CoerceValue: a JSON integer too large for a double makes `float()` raise OverflowError, which the `except (ValueError, TypeError)` does not catch; numbers are reals here, so the model keeps every number and does not raise.
- `uuid.uuid4()` is not modelled, because it is random. The id is a parameter.
- Logging, and the `str(e)` text of the re-raised exceptions, are not modelled. `Extractor.ErrorPrefix` models only the two message prefixes.
- Pydantic is modelled as version 2 in lax mode:
  - a `str` field accepts only strings;
  - a `float` field accepts numbers and booleans;
  - a `float` field also accepts strings that the number parser accepts. Pydantic's own number grammar is approximated by that parser.
- Extra keyword arguments are ignored, as pydantic does by default.
- The aliasing between `data` and its nested dicts is modelled by writing each coerced nested value back into the parent entry. Object identity itself is not modelled.
- `Assembly.ConvertItems` and `Assembly.ConvertToInvoiceResponse`: after a failure they state only which keys may have changed, not the partially coerced contents. The source raises at that point, and the dict is not used again.
- `clean_text(None)` is not modelled, because the model's strings are never None. `PyText.IsSpace` lists the characters Python's `str.isspace()` accepts. Characters are Dafny `char`s, which are Unicode scalar values, so the lone surrogates (U+D800 to U+DFFF) that a Python `str` may hold are not modelled.
- The 50-character minimum on extracted text is not modelled. It lives in the HTTP endpoint, outside this component.
- app/services/pdf_processor.py is not part of this model. It wraps PDF libraries and the file system.
- The HTTP layers (the FastAPI endpoints and the server scripts), the background task, app/core/config.py, the I/O helpers of app/core/utils.py (`setup_logging`, `ensure_directory`, `get_file_size_mb`) and the test scripts are not part of this model.
