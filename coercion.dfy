/**
 * `_validate_numeric_fields` of app/services/ai_extractor.py: for each listed
 * field that is present and not None, the value is replaced, in the dict
 * itself, by a number: a string loses its `,` and `' '` characters and is
 * read with `float` (an empty result reads as 0.0), anything else goes
 * through `float`, and whatever `float` rejects becomes 0.0.
 */
module Coercion {
  import opened Results
  import opened PyJson

  /** A Python dict that is changed in place. */
  class PyDict {
    var entries: map<string, Json>

    constructor (entries: map<string, Json>)
      ensures this.entries == entries
    {
      this.entries := entries;
    }
  }

  /** `s.replace(',', '').replace(' ', '')`. */
  function Unseparated(s: string): (r: string)
    ensures |r| <= |s|
    ensures forall c :: c in r <==> c in s && c != ',' && c != ' '
  {
    if s == [] then []
    else (if s[0] == ',' || s[0] == ' ' then [] else [s[0]]) + Unseparated(s[1..])
  }

  /** The number a present, non-None field ends up holding. */
  function CoerceValue(v: Json, parse: NumberParser): (r: Json)
    requires !v.JNull?
    ensures r.JNum?
  {
    match v
    case JStr(s) =>
      var cleaned := Unseparated(s);
      if cleaned == "" then JNum(0.0)
      else if parse(cleaned).Some? then JNum(parse(cleaned).value)
      else JNum(0.0)
    case JNum(n) => JNum(n)
    case JBool(b) => JNum(if b then 1.0 else 0.0)
    case _ => JNum(0.0)
  }

  /** One field: replaced when present and not None, otherwise left alone. */
  function CoerceField(d: map<string, Json>, field: string, parse: NumberParser): map<string, Json>
  {
    if field in d && d[field] != JNull then d[field := CoerceValue(d[field], parse)] else d
  }

  /** The dict after the fields have been handled in order. */
  function CoerceFields(d: map<string, Json>, fields: seq<string>, parse: NumberParser): map<string, Json>
  {
    if fields == [] then d
    else CoerceField(CoerceFields(d, fields[..|fields| - 1], parse), fields[|fields| - 1], parse)
  }

  /** `_validate_numeric_fields(data, fields)`: changes `data` in place and returns it. */
  method ValidateNumericFields(data: PyDict, fields: seq<string>, parse: NumberParser) returns (same: PyDict)
    modifies data
    ensures same == data
    ensures data.entries == CoerceFields(old(data.entries), fields, parse)
  {
    for i := 0 to |fields|
      invariant data.entries == CoerceFields(old(data.entries), fields[..i], parse)
    {
      var field := fields[i];
      assert fields[..i + 1][..i] == fields[..i];
      if field in data.entries && data.entries[field] != JNull {
        var value := data.entries[field];
        var number: real;
        match value {
          case JStr(s) =>
            var cleaned := Unseparated(s);
            if cleaned == "" {
              number := 0.0;
            } else {
              var parsed := parse(cleaned);
              if parsed.Some? {
                number := parsed.value;
              } else {
                number := 0.0;   // ValueError, caught
              }
            }
          case JNum(n) =>
            number := n;
          case JBool(b) =>
            number := if b then 1.0 else 0.0;
          case _ =>
            number := 0.0;       // TypeError, caught
        }
        assert JNum(number) == CoerceValue(value, parse);
        data.entries := data.entries[field := JNum(number)];
      }
    }
    assert fields[..|fields|] == fields;
    return data;
  }

  /** The keys do not change; a listed field that is present and not None holds its coerced
      value; every other entry is untouched. */
  lemma {:induction false} CoerceFieldsSpec(d: map<string, Json>, fields: seq<string>, parse: NumberParser)
    ensures CoerceFields(d, fields, parse).Keys == d.Keys
    ensures forall key :: key in d && key in fields && d[key] != JNull ==>
      CoerceFields(d, fields, parse)[key] == CoerceValue(d[key], parse)
    ensures forall key :: key in d && (key !in fields || d[key] == JNull) ==>
      CoerceFields(d, fields, parse)[key] == d[key]
  {
    if fields != [] {
      var init := fields[..|fields| - 1];
      var last := fields[|fields| - 1];
      CoerceFieldsSpec(d, init, parse);
      forall key | key in d && key in fields && d[key] != JNull
        ensures CoerceFields(d, fields, parse)[key] == CoerceValue(d[key], parse)
      {
        if key != last {
          assert key in init by {
            var k :| 0 <= k < |fields| && fields[k] == key;
            assert init[k] == key;
          }
        } else if key in init {
          CoerceValueIdempotent(d[key], parse);
        }
      }
      forall key | key in d && (key !in fields || d[key] == JNull)
        ensures CoerceFields(d, fields, parse)[key] == d[key]
      {
      }
    }
  }

  /** A number goes through unchanged, so coercing twice is coercing once. */
  lemma CoerceValueIdempotent(v: Json, parse: NumberParser)
    requires !v.JNull?
    ensures CoerceValue(CoerceValue(v, parse), parse) == CoerceValue(v, parse)
  {
  }

  /** Running the coercion a second time over the same fields changes nothing. */
  lemma CoerceFieldsIdempotent(d: map<string, Json>, fields: seq<string>, parse: NumberParser)
    ensures CoerceFields(CoerceFields(d, fields, parse), fields, parse) == CoerceFields(d, fields, parse)
  {
    var once := CoerceFields(d, fields, parse);
    var twice := CoerceFields(once, fields, parse);
    CoerceFieldsSpec(d, fields, parse);
    CoerceFieldsSpec(once, fields, parse);
    forall key | key in twice
      ensures twice[key] == once[key]
    {
      if key in fields && d[key] != JNull {
        CoerceValueIdempotent(d[key], parse);
      }
    }
  }

  /** After coercion every listed field that is present holds a number or None. */
  lemma CoercedFieldsAreNumbers(d: map<string, Json>, fields: seq<string>, parse: NumberParser)
    ensures forall key :: key in fields && key in CoerceFields(d, fields, parse) ==>
      CoerceFields(d, fields, parse)[key].JNum? || CoerceFields(d, fields, parse)[key] == JNull
  {
    CoerceFieldsSpec(d, fields, parse);
  }

  /** A `,` or a space anywhere in a string field makes no difference to the number it becomes. */
  lemma SeparatorIgnored(a: string, sep: char, b: string, parse: NumberParser)
    requires sep == ',' || sep == ' '
    ensures CoerceValue(JStr(a + [sep] + b), parse) == CoerceValue(JStr(a + b), parse)
  {
    UnseparatedAppend(a + [sep], b);
    UnseparatedAppend(a, [sep]);
    UnseparatedAppend(a, b);
    assert Unseparated([sep]) == [];
    assert Unseparated(a + [sep]) == Unseparated(a);
    assert Unseparated(a + [sep] + b) == Unseparated(a + b);
  }

  /** An amount with a thousands separator: `"1,000"` is read as `float("1000")`. */
  lemma ThousandsSeparator(parse: NumberParser)
    requires parse("1000") == Some(1000.0)
    ensures CoerceValue(JStr("1,000"), parse) == JNum(1000.0)
  {
    SeparatorIgnored("1", ',', "000", parse);
    assert "1" + [','] + "000" == "1,000";
    assert "1" + "000" == "1000";
    UnseparatedOfPlain("1000");
  }

  /** Removing separators works piece by piece. */
  lemma {:induction false} UnseparatedAppend(a: string, b: string)
    ensures Unseparated(a + b) == Unseparated(a) + Unseparated(b)
  {
    if a != [] {
      assert (a + b)[1..] == a[1..] + b;
      UnseparatedAppend(a[1..], b);
    } else {
      assert a + b == b;
    }
  }

  /** A string without separators is left as it is. */
  lemma {:induction false} UnseparatedOfPlain(s: string)
    requires forall i :: 0 <= i < |s| ==> s[i] != ',' && s[i] != ' '
    ensures Unseparated(s) == s
  {
    if s != [] {
      UnseparatedOfPlain(s[1..]);
    }
  }

  /** Only separators: the cleaned string is empty and the field becomes 0.0. */
  lemma {:induction false} OnlySeparators(s: string, parse: NumberParser)
    requires forall i :: 0 <= i < |s| ==> s[i] == ',' || s[i] == ' '
    ensures Unseparated(s) == ""
    ensures CoerceValue(JStr(s), parse) == JNum(0.0)
  {
    if s != [] {
      OnlySeparators(s[1..], parse);
    }
  }

  /** Every kind of value a listed field can hold, and the number it becomes: numbers are kept,
      booleans count as 1.0 and 0.0, a string is read without its separators, and an empty
      cleaned string, a string `float` rejects, a list or a dict all give 0.0. */
  lemma CoerceValueCases(v: Json, parse: NumberParser)
    requires !v.JNull?
    ensures v.JNum? ==> CoerceValue(v, parse) == v
    ensures v.JBool? ==> CoerceValue(v, parse) == JNum(if v.b then 1.0 else 0.0)
    ensures v.JStr? && Unseparated(v.s) != "" && parse(Unseparated(v.s)).Some? ==>
      CoerceValue(v, parse) == JNum(parse(Unseparated(v.s)).value)
    ensures v.JStr? && (Unseparated(v.s) == "" || parse(Unseparated(v.s)).None?) ==>
      CoerceValue(v, parse) == JNum(0.0)
    ensures v.JArr? || v.JObj? ==> CoerceValue(v, parse) == JNum(0.0)
  {
  }
}
