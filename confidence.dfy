/**
 * `_calculate_confidence_score` of app/services/ai_extractor.py: a weighted
 * presence check over eight signals of the extracted data, divided by 10,
 * capped at 1 and rounded to two decimals. The weights 1.0, 1.5, 1.0, 1.5,
 * 2.0, 2.0, 0.5, 0.5 are kept as whole half-points (2, 3, 2, 3, 4, 4, 1, 1
 * out of 20), so every score is a whole number of twentieths and the
 * rounding is exact.
 */
module Confidence {
  import opened Results
  import opened PyJson

  /** The weight of each signal in half-points, in the order the source checks them:
      document_type, number, issue_date, supplier.name, totals.total, items, currency, taxes. */
  const Weights: seq<nat> := [2, 3, 2, 3, 4, 4, 1, 1]

  /** `max_score = 10.0`, in half-points. */
  const MaxHalves: nat := 20

  /** `data.get(key, {})`. */
  function GetOrEmpty(d: map<string, Json>, key: string): (v: Json)
    ensures key !in d ==> v == JObj(map[])
    ensures key in d ==> v == d[key]
  {
    if key in d then d[key] else JObj(map[])
  }

  /** The exception scoring raises, if any: `.get` on a supplier or totals value that is not a
      dict (None included), and `len` on a truthy number or boolean under `items`. */
  function ScoreError(d: map<string, Json>): Option<PyError>
  {
    if !GetOrEmpty(d, "supplier").JObj? then Some(AttributeError("supplier"))
    else if !GetOrEmpty(d, "totals").JObj? then Some(AttributeError("totals"))
    else if Truthy(Get(d, "items")) && (d["items"].JNum? || d["items"].JBool?) then Some(TypeError("items"))
    else None
  }

  /** Which of the eight checks pass. The supplier and totals checks read `.get(...)` of a
      dict; where the value is not one, scoring raises instead (see `ScoreError`). For `items`,
      `len(...) > 0` holds of every truthy value that has a length. */
  function Signals(d: map<string, Json>): (s: seq<bool>)
    ensures |s| == |Weights|
  {
    var supplier := GetOrEmpty(d, "supplier");
    var totals := GetOrEmpty(d, "totals");
    [ Truthy(Get(d, "document_type")),
      Truthy(Get(d, "number")),
      Truthy(Get(d, "issue_date")),
      supplier.JObj? && Truthy(Get(supplier.fields, "name")),
      totals.JObj? && Truthy(Get(totals.fields, "total")),
      Truthy(Get(d, "items")),
      Truthy(Get(d, "currency")),
      Truthy(Get(d, "taxes")) ]
  }

  /** The weights of the first `k` signals that pass, added up. */
  function WeightedSum(signals: seq<bool>, weights: seq<nat>, k: nat): nat
    requires |signals| == |weights| && k <= |signals|
  {
    if k == 0 then 0
    else WeightedSum(signals, weights, k - 1) + (if signals[k - 1] then weights[k - 1] else 0)
  }

  /** The sum of the first `k` weights. */
  function Total(weights: seq<nat>, k: nat): nat
    requires k <= |weights|
  {
    if k == 0 then 0 else Total(weights, k - 1) + weights[k - 1]
  }

  /** The score in half-points. */
  function Halves(d: map<string, Json>): nat
  {
    WeightedSum(Signals(d), Weights, |Weights|)
  }

  /** What `_calculate_confidence_score(data, text)` returns or raises. */
  function ConfidenceOf(d: map<string, Json>): Result<real, PyError>
  {
    match ScoreError(d)
    case Some(e) => Failure(e)
    case None => Success(Halves(d) as real / MaxHalves as real)
  }

  /** `round(x, 2)` for the values that arise here, which are never halfway between two
      hundredths. */
  function Round2(x: real): real
  {
    (x * 100.0 + 0.5).Floor as real / 100.0
  }

  /** `_calculate_confidence_score(data, text)`; `text` is not used by the source either. */
  method CalculateConfidenceScore(data: map<string, Json>, text: string) returns (r: Result<real, PyError>)
    ensures r == ConfidenceOf(data)
  {
    ScoreSteps(data);
    var score := 0.0;
    if Truthy(Get(data, "document_type")) {
      score := score + 1.0;
    }
    assert 2.0 * score == Partial(data, 1) as real;
    if Truthy(Get(data, "number")) {
      score := score + 1.5;
    }
    assert 2.0 * score == Partial(data, 2) as real;
    if Truthy(Get(data, "issue_date")) {
      score := score + 1.0;
    }
    assert 2.0 * score == Partial(data, 3) as real;
    var supplier := GetOrEmpty(data, "supplier");
    if !supplier.JObj? {
      return Failure(AttributeError("supplier"));
    }
    if Truthy(Get(supplier.fields, "name")) {
      score := score + 1.5;
    }
    assert 2.0 * score == Partial(data, 4) as real;
    var totals := GetOrEmpty(data, "totals");
    if !totals.JObj? {
      return Failure(AttributeError("totals"));
    }
    if Truthy(Get(totals.fields, "total")) {
      score := score + 2.0;
    }
    assert 2.0 * score == Partial(data, 5) as real;
    var items := Get(data, "items");
    if Truthy(items) {
      if items.JNum? || items.JBool? {
        return Failure(TypeError("items"));   // len() of a number
      }
      score := score + 2.0;
    }
    NoScoreError(data);
    assert 2.0 * score == Partial(data, 6) as real;
    if Truthy(Get(data, "currency")) {
      score := score + 0.5;
    }
    assert 2.0 * score == Partial(data, 7) as real;
    if Truthy(Get(data, "taxes")) {
      score := score + 0.5;
    }
    assert 2.0 * score == Halves(data) as real;
    HalvesBounded(data);
    var confidence := score / 10.0;   // max_score
    ScoreToConfidence(score, Halves(data));
    if confidence > 1.0 {
      confidence := 1.0;
    }
    assert confidence == score / 10.0;
    r := Success(Round2(confidence));
  }

  /** The score in half-points after the first `k` checks. */
  ghost function Partial(d: map<string, Json>, k: nat): nat
  {
    if k <= |Weights| then WeightedSum(Signals(d), Weights, k) else Halves(d)
  }

  /** The score after each check, in terms of the checks themselves. */
  lemma ScoreSteps(d: map<string, Json>)
    ensures var supplier, totals := GetOrEmpty(d, "supplier"), GetOrEmpty(d, "totals");
      && Partial(d, 1) == (if Truthy(Get(d, "document_type")) then 2 else 0)
      && Partial(d, 2) == Partial(d, 1) + (if Truthy(Get(d, "number")) then 3 else 0)
      && Partial(d, 3) == Partial(d, 2) + (if Truthy(Get(d, "issue_date")) then 2 else 0)
      && Partial(d, 4) == Partial(d, 3) + (if supplier.JObj? && Truthy(Get(supplier.fields, "name")) then 3 else 0)
      && Partial(d, 5) == Partial(d, 4) + (if totals.JObj? && Truthy(Get(totals.fields, "total")) then 4 else 0)
      && Partial(d, 6) == Partial(d, 5) + (if Truthy(Get(d, "items")) then 4 else 0)
      && Partial(d, 7) == Partial(d, 6) + (if Truthy(Get(d, "currency")) then 1 else 0)
      && Halves(d) == Partial(d, 7) + (if Truthy(Get(d, "taxes")) then 1 else 0)
  {
    var s, w := Signals(d), Weights;
    assert WeightedSum(s, w, 0) == 0;
    assert w[0] == 2 && w[1] == 3 && w[2] == 2 && w[3] == 3 && w[4] == 4 && w[5] == 4 && w[6] == 1 && w[7] == 1;
  }

  /** The three raising lookups passed: scoring raises nothing. */
  lemma NoScoreError(d: map<string, Json>)
    requires GetOrEmpty(d, "supplier").JObj? && GetOrEmpty(d, "totals").JObj?
    requires Truthy(Get(d, "items")) ==> !Get(d, "items").JNum? && !Get(d, "items").JBool?
    ensures ScoreError(d).None?
  {
  }

  /** A score of `h` half-points over `max_score = 10.0` is `h` twentieths, at most one, and
      already rounded to two decimals. */
  lemma ScoreToConfidence(score: real, h: nat)
    requires score == h as real / 2.0 && h <= MaxHalves
    ensures score / 10.0 == h as real / 20.0 <= 1.0
    ensures Round2(score / 10.0) == h as real / 20.0
  {
    Round2Exact(h);
  }

  // ---------------------------------------------------------------------------------------------
  // Properties

  /** No weight is counted twice: the score is at most the sum of the weights. */
  lemma {:induction false} WeightedSumBounded(signals: seq<bool>, weights: seq<nat>, k: nat)
    requires |signals| == |weights| && k <= |signals|
    ensures WeightedSum(signals, weights, k) <= Total(weights, k)
  {
    if k > 0 {
      WeightedSumBounded(signals, weights, k - 1);
    }
  }

  /** The weights add up to `max_score`. */
  lemma WeightsTotal()
    ensures Total(Weights, |Weights|) == MaxHalves
  {
    var w := Weights;
    assert Total(w, 1) == 2;
    assert Total(w, 2) == 5;
    assert Total(w, 3) == 7;
    assert Total(w, 4) == 10;
    assert Total(w, 5) == 14;
    assert Total(w, 6) == 18;
    assert Total(w, 7) == 19;
  }

  /** The score never exceeds `max_score`, so the cap `min(..., 1.0)` never applies. */
  lemma HalvesBounded(d: map<string, Json>)
    ensures Halves(d) <= MaxHalves
  {
    WeightedSumBounded(Signals(d), Weights, |Weights|);
    WeightsTotal();
  }

  /** A whole number of twentieths has at most two decimals: rounding to two decimals keeps it. */
  lemma Round2Exact(h: nat)
    ensures Round2(h as real / 20.0) == h as real / 20.0
  {
    var x := h as real / 20.0;
    assert x * 100.0 == (5 * h) as real;
    assert (x * 100.0 + 0.5).Floor == 5 * h;
  }

  /** The confidence always lies in [0, 1]. */
  lemma ConfidenceInRange(d: map<string, Json>)
    ensures ConfidenceOf(d).Success? ==> 0.0 <= ConfidenceOf(d).value <= 1.0
  {
    HalvesBounded(d);
  }

  /** The score is every weight exactly when every signal passes. */
  lemma {:induction false} WeightedSumFull(signals: seq<bool>, weights: seq<nat>, k: nat)
    requires |signals| == |weights| && k <= |signals|
    requires forall i :: 0 <= i < |weights| ==> weights[i] > 0
    ensures WeightedSum(signals, weights, k) == Total(weights, k) <==> forall i :: 0 <= i < k ==> signals[i]
  {
    if k > 0 {
      WeightedSumFull(signals, weights, k - 1);
      WeightedSumBounded(signals, weights, k - 1);
    }
  }

  /** The score is nothing exactly when no signal passes. */
  lemma {:induction false} WeightedSumEmpty(signals: seq<bool>, weights: seq<nat>, k: nat)
    requires |signals| == |weights| && k <= |signals|
    requires forall i :: 0 <= i < |weights| ==> weights[i] > 0
    ensures WeightedSum(signals, weights, k) == 0 <==> forall i :: 0 <= i < k ==> !signals[i]
  {
    if k > 0 {
      WeightedSumEmpty(signals, weights, k - 1);
    }
  }

  /** Passing more signals never lowers the score. */
  lemma {:induction false} WeightedSumMonotone(s: seq<bool>, t: seq<bool>, weights: seq<nat>, k: nat)
    requires |s| == |t| == |weights| && k <= |s|
    requires forall i :: 0 <= i < |s| && s[i] ==> t[i]
    ensures WeightedSum(s, weights, k) <= WeightedSum(t, weights, k)
  {
    if k > 0 {
      WeightedSumMonotone(s, t, weights, k - 1);
    }
  }

  /** All eight signals give 1.0 and only they do. */
  lemma ConfidenceFull(d: map<string, Json>)
    requires ScoreError(d).None?
    ensures ConfidenceOf(d) == Success(1.0) <==> forall i :: 0 <= i < |Weights| ==> Signals(d)[i]
  {
    WeightsTotal();
    WeightedSumFull(Signals(d), Weights, |Weights|);
  }

  /** No signal gives 0.0 and only that does. */
  lemma ConfidenceZero(d: map<string, Json>)
    requires ScoreError(d).None?
    ensures ConfidenceOf(d) == Success(0.0) <==> forall i :: 0 <= i < |Weights| ==> !Signals(d)[i]
  {
    WeightedSumEmpty(Signals(d), Weights, |Weights|);
  }

  /** An empty reply object scores 0.0. */
  lemma ConfidenceOfEmpty()
    ensures ConfidenceOf(map[]) == Success(0.0)
  {
    ConfidenceZero(map[]);
  }

  /** Adding a satisfied signal never lowers the confidence. */
  lemma ConfidenceMonotone(d: map<string, Json>, e: map<string, Json>)
    requires ScoreError(d).None? && ScoreError(e).None?
    requires forall i :: 0 <= i < |Weights| && Signals(d)[i] ==> Signals(e)[i]
    ensures ConfidenceOf(d).value <= ConfidenceOf(e).value
  {
    WeightedSumMonotone(Signals(d), Signals(e), Weights, |Weights|);
  }

  /** `"supplier": null` raises at `.get('name')`; so does `"totals": null` at `.get('total')`
      when the supplier is fine. */
  lemma NullPartsRaise(d: map<string, Json>)
    ensures "supplier" in d && d["supplier"] == JNull ==> ConfidenceOf(d) == Failure(AttributeError("supplier"))
    ensures GetOrEmpty(d, "supplier").JObj? && "totals" in d && d["totals"] == JNull ==>
      ConfidenceOf(d) == Failure(AttributeError("totals"))
  {
  }
}
