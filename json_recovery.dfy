/**
 * `_extract_json_from_response` of app/services/ai_extractor.py: finds the
 * JSON text inside the model's reply. First the regular expression
 * `\{.*\}` (with DOTALL), i.e. the span from the first `{` to the last `}`;
 * failing that, a scan over the lines; failing that, the whole reply.
 */
module JsonRecovery {
  import opened Results
  import opened PyText

  /** Some `{` has a `}` somewhere after it: exactly when the regular expression matches. */
  predicate HasBraceSpan(content: string) {
    exists i, j :: 0 <= i < j < |content| && content[i] == '{' && content[j] == '}'
  }

  /** The bounds `[a, b)` of the regular-expression match: leftmost start, greedy end. */
  function BraceSpan(content: string): (span: Option<(nat, nat)>)
    ensures span.Some? <==> HasBraceSpan(content)
    ensures span.Some? ==>
      var (a, b) := span.value;
      && a < b <= |content| && content[a] == '{' && content[b - 1] == '}'
      && (forall k :: 0 <= k < a ==> content[k] != '{')
      && (forall k :: b <= k < |content| ==> content[k] != '}')
  {
    match (IndexOf(content, '{'), LastIndexOf(content, '}'))
    case (Some(a), Some(z)) => if a < z then Some((a, z + 1)) else None
    case _ => None
  }

  /** `line.strip().startswith('{')`: the first character that is not whitespace is `{`
      (`OpensIsStrippedStart` ties this to `Strip`). */
  predicate Opens(line: string)
    decreases |line|
  {
    line != [] && if IsSpace(line[0]) then Opens(line[1..]) else line[0] == '{'
  }

  /** `line.strip().endswith('}')`: the last character that is not whitespace is `}`
      (`ClosesIsStrippedEnd` ties this to `Strip`). */
  predicate Closes(line: string)
    decreases |line|
  {
    line != [] && if IsSpace(line[|line| - 1]) then Closes(line[..|line| - 1]) else line[|line| - 1] == '}'
  }

  /** Where the `{` of an opening line sits: only whitespace before it. */
  function OpeningBrace(line: string): (x: nat)
    requires Opens(line)
    ensures x < |line| && line[x] == '{'
    ensures forall k :: 0 <= k < x ==> IsSpace(line[k])
    decreases |line|
  {
    if IsSpace(line[0]) then 1 + OpeningBrace(line[1..]) else 0
  }

  /** Where the `}` of a closing line sits: only whitespace after it. */
  function ClosingBrace(line: string): (y: nat)
    requires Closes(line)
    ensures y < |line| && line[y] == '}'
    ensures forall k :: y < k < |line| ==> IsSpace(line[k])
    decreases |line|
  {
    if IsSpace(line[|line| - 1]) then ClosingBrace(line[..|line| - 1]) else |line| - 1
  }

  /** A `{` with only whitespace before it makes the line open. */
  lemma {:induction false} OpensAt(line: string, x: nat)
    requires x < |line| && line[x] == '{'
    requires forall k :: 0 <= k < x ==> IsSpace(line[k])
    ensures Opens(line)
    decreases x
  {
    if x > 0 {
      OpensAt(line[1..], x - 1);
    }
  }

  /** `Opens` is `line.strip().startswith('{')`. */
  lemma OpensIsStrippedStart(line: string)
    ensures Opens(line) <==> Strip(line) != [] && Strip(line)[0] == '{'
  {
    var t, a := Strip(line), StripStart(line);
    if Opens(line) {
      var x := OpeningBrace(line);
      assert !IsSpace(line[x]);
    }
    if t != [] && t[0] == '{' {
      assert line[a] == t[0];
      OpensAt(line, a);
    }
  }

  /** `t.endswith('}')`. */
  predicate EndsWithBrace(t: string) {
    t != [] && t[|t| - 1] == '}'
  }

  /** `Closes` is `line.strip().endswith('}')`. */
  lemma ClosesIsStrippedEnd(line: string)
    ensures Closes(line) <==> EndsWithBrace(Strip(line))
  {
    ClosesAfterLStrip(line);
    ClosesIsRStrippedEnd(LStrip(line));
    assert Strip(line) == RStrip(LStrip(line));
  }

  /** Leading whitespace does not change whether a line closes. */
  lemma {:induction false} ClosesAfterLStrip(s: string)
    ensures Closes(s) == Closes(LStrip(s))
    decreases |s|
  {
    if s != [] && IsSpace(s[0]) {
      ClosesAfterLStrip(s[1..]);
      ClosesAfterSpace(s);
    }
  }

  /** Dropping one leading whitespace character does not change whether a line closes. */
  lemma {:induction false} ClosesAfterSpace(s: string)
    requires s != [] && IsSpace(s[0])
    ensures Closes(s) == Closes(s[1..])
    decreases |s|
  {
    if |s| > 1 && IsSpace(s[|s| - 1]) {
      ClosesAfterSpace(s[..|s| - 1]);
      assert s[1..][..|s| - 2] == s[..|s| - 1][1..];
    }
  }

  /** `Closes` is `s.rstrip().endswith('}')`. */
  lemma {:induction false} ClosesIsRStrippedEnd(s: string)
    ensures Closes(s) <==> EndsWithBrace(RStrip(s))
    decreases |s|
  {
    if s != [] && IsSpace(s[|s| - 1]) {
      ClosesIsRStrippedEnd(s[..|s| - 1]);
    }
  }

  /** The index of the first line at or after `from` that opens, or `|lines|` when there is none. */
  function FirstOpeningFrom(lines: seq<string>, from: nat): (i: nat)
    requires from <= |lines|
    ensures from <= i <= |lines|
    ensures i < |lines| ==> Opens(lines[i])
    decreases |lines| - from
  {
    if from == |lines| then from
    else if Opens(lines[from]) then from
    else FirstOpeningFrom(lines, from + 1)
  }

  /** The index of the first line that opens, or `|lines|` when there is none. */
  function FirstOpening(lines: seq<string>): nat
  {
    FirstOpeningFrom(lines, 0)
  }

  /** The index of the first line at or after `from` that closes, or `|lines|` when there is none. */
  function FirstClosingFrom(lines: seq<string>, from: nat): (j: nat)
    requires from <= |lines|
    ensures from <= j <= |lines|
    ensures j < |lines| ==> Closes(lines[j])
    decreases |lines| - from
  {
    if from == |lines| then from
    else if Closes(lines[from]) then from
    else FirstClosingFrom(lines, from + 1)
  }

  /** No line between `from` and the first opening line opens. */
  lemma {:induction false} BeforeFirstOpening(lines: seq<string>, from: nat, k: nat)
    requires from <= |lines| && from <= k < FirstOpeningFrom(lines, from)
    ensures !Opens(lines[k])
    decreases |lines| - from
  {
    if from < k {
      BeforeFirstOpening(lines, from + 1, k);
    }
  }

  /** No line between `from` and the first closing line closes. */
  lemma {:induction false} BeforeFirstClosing(lines: seq<string>, from: nat, k: nat)
    requires from <= |lines| && from <= k < FirstClosingFrom(lines, from)
    ensures !Closes(lines[k])
    decreases |lines| - from
  {
    if from < k {
      BeforeFirstClosing(lines, from + 1, k);
    }
  }

  /** The lines the scan collects: from the first opening line up to and including the first
      closing line at or after it, or to the end; none when no line opens. */
  function LineScan(lines: seq<string>): seq<string>
  {
    var i := FirstOpening(lines);
    if i == |lines| then []
    else
      var j := FirstClosingFrom(lines, i);
      if j == |lines| then lines[i..] else lines[i..j + 1]
  }

  /** What `_extract_json_from_response(content)` returns. */
  function ExtractJson(content: string): string
  {
    match BraceSpan(content)
    case Some((a, b)) => content[a..b]
    case None =>
      var jsonLines := LineScan(SplitOn(content, '\n'));
      if jsonLines != [] then JoinWith("\n", jsonLines) else content
  }

  /** `_extract_json_from_response`: the regular expression, then the line loop with its
      `in_json` flag and `json_lines` accumulator, then the whole reply. */
  method ExtractJsonFromResponse(content: string) returns (json: string)
    ensures json == ExtractJson(content)
    ensures HasBraceSpan(content) ==> json != [] && json[0] == '{' && json[|json| - 1] == '}'
    ensures !HasBraceSpan(content) && FirstOpening(SplitOn(content, '\n')) == |SplitOn(content, '\n')|
      ==> json == content
  {
    var span := BraceSpan(content);
    if span.Some? {
      json := content[span.value.0..span.value.1];
      return;
    }
    var jsonLines := CollectJsonLines(SplitOn(content, '\n'));
    NoSpanFallback(content);
    if jsonLines != [] {
      json := JoinWith("\n", jsonLines);
    } else {
      json := content;
    }
  }

  /** Without a brace span, the result is the joined line scan, or the reply when the scan is empty. */
  lemma NoSpanFallback(content: string)
    requires BraceSpan(content).None?
    ensures var jsonLines := LineScan(SplitOn(content, '\n'));
      ExtractJson(content) == if jsonLines != [] then JoinWith("\n", jsonLines) else content
  {
  }

  /** The loop of `_extract_json_from_response` over the lines, with its `in_json` flag and
      `json_lines` accumulator. */
  method CollectJsonLines(lines: seq<string>) returns (jsonLines: seq<string>)
    ensures jsonLines == LineScan(lines)
  {
    ghost var first := FirstOpening(lines);
    jsonLines := [];
    var inJson := false;
    var k := 0;
    while k < |lines|
      invariant k <= |lines|
      invariant !inJson ==> jsonLines == [] && k <= first
      invariant inJson ==> first < k && jsonLines == lines[first..k] && k <= FirstClosingFrom(lines, first)
    {
      var line := lines[k];
      if Opens(line) {
        if !inJson && k < first {
          BeforeFirstOpening(lines, 0, k);
        }
        inJson := true;
      }
      if inJson {
        jsonLines := jsonLines + [line];
        SliceExtend(lines, first, k);
      }
      if Closes(line) && inJson {
        if k < FirstClosingFrom(lines, first) {
          BeforeFirstClosing(lines, first, k);
        }
        ScanEnds(lines);
        break;
      }
      k := k + 1;
    }
    if k == |lines| {
      ScanEnds(lines);
      if inJson {
        SliceToEnd(lines, first);
      }
    }
  }

  /** The three ways the scan can end: no opening line, a closing line, or the last line. */
  lemma ScanEnds(lines: seq<string>)
    ensures var i := FirstOpening(lines);
      && (i == |lines| ==> LineScan(lines) == [])
      && (i < |lines| && FirstClosingFrom(lines, i) < |lines| ==>
            LineScan(lines) == lines[i..FirstClosingFrom(lines, i) + 1])
      && (i < |lines| && FirstClosingFrom(lines, i) == |lines| ==> LineScan(lines) == lines[i..])
  {
  }

  /** The regular-expression span, characterised without reference to how it is found:
      when `content[a]` is the first `{` and `content[b - 1]` the last `}`, the result is `content[a..b]`. */
  lemma FirstToLastBrace(content: string, a: nat, b: nat)
    requires a < b <= |content| && content[a] == '{' && content[b - 1] == '}'
    requires forall k :: 0 <= k < a ==> content[k] != '{'
    requires forall k :: b <= k < |content| ==> content[k] != '}'
    ensures ExtractJson(content) == content[a..b]
  {
    assert HasBraceSpan(content) by {
      assert content[a] == '{' && content[b - 1] == '}';
      if a == b - 1 {
        assert false;
      }
    }
  }

  /** A reply made of prose without `{`, one object text, and prose without `}` gives back the object text. */
  lemma ProseAroundObject(before: string, body: string, after: string)
    requires body != [] && body[0] == '{' && body[|body| - 1] == '}'
    requires forall k :: 0 <= k < |before| ==> before[k] != '{'
    requires forall k :: 0 <= k < |after| ==> after[k] != '}'
    ensures |body| >= 2
    ensures ExtractJson(before + body + after) == body
  {
    var content := before + body + after;
    var a, b := |before|, |before| + |body|;
    assert content[a] == '{';
    assert content[b - 1] == '}';
    FirstToLastBrace(content, a, b);
    assert content[a..b] == body;
  }

  /** The opening `{` of line `i` and the closing `}` of line `j` sit at increasing positions of
      `content` when `i < j`, or when `i == j` (the `}` then ends a stripped line that starts with `{`). */
  lemma OpenBeforeClose(content: string, i: nat, j: nat)
    requires i <= j < |SplitOn(content, '\n')|
    requires Opens(SplitOn(content, '\n')[i]) && Closes(SplitOn(content, '\n')[j])
    ensures HasBraceSpan(content)
  {
    var p := OpeningAt(content, i);
    var q := ClosingAt(content, j);
    if i < j {
      PartOffsetsIncrease(content, '\n', i, j);
    } else {
      BracesOrdered(SplitOn(content, '\n')[i]);
    }
    assert content[p] == '{' && content[q] == '}' && p < q;
  }

  /** Where, inside the reply, the `{` of opening line `i` sits. */
  function OpeningAt(content: string, i: nat): (p: nat)
    requires i < |SplitOn(content, '\n')| && Opens(SplitOn(content, '\n')[i])
    ensures var line, off := SplitOn(content, '\n')[i], PartOffset(content, '\n', i);
      && off <= p < off + |line| && p < |content| && content[p] == '{'
      && p == off + OpeningBrace(line)
  {
    var line, off := SplitOn(content, '\n')[i], PartOffset(content, '\n', i);
    PartSlice(content, '\n', i);
    CharOfSlice(content, line, off, OpeningBrace(line));
    off + OpeningBrace(line)
  }

  /** Where, inside the reply, the `}` of closing line `j` sits. */
  function ClosingAt(content: string, j: nat): (q: nat)
    requires j < |SplitOn(content, '\n')| && Closes(SplitOn(content, '\n')[j])
    ensures var line, off := SplitOn(content, '\n')[j], PartOffset(content, '\n', j);
      && off <= q < off + |line| && q < |content| && content[q] == '}'
      && q == off + ClosingBrace(line)
  {
    var line, off := SplitOn(content, '\n')[j], PartOffset(content, '\n', j);
    PartSlice(content, '\n', j);
    CharOfSlice(content, line, off, ClosingBrace(line));
    off + ClosingBrace(line)
  }

  /** A line that both opens and closes has its `}` after its `{`: the stripped line is at least `{}`. */
  lemma BracesOrdered(line: string)
    requires Opens(line) && Closes(line)
    ensures OpeningBrace(line) < ClosingBrace(line)
  {
  }

  /** The line scan only runs when no `{` precedes a `}`; then no line after the opening one can
      close, so the scan collects every line to the end, which is a suffix of the reply. */
  lemma LineScanRunsToEnd(content: string)
    requires !HasBraceSpan(content)
    requires FirstOpening(SplitOn(content, '\n')) < |SplitOn(content, '\n')|
    ensures var lines := SplitOn(content, '\n'); var i := FirstOpening(lines);
      && LineScan(lines) == lines[i..]
      && ExtractJson(content) == content[PartOffset(content, '\n', i)..]
  {
    var lines := SplitOn(content, '\n');
    var i := FirstOpening(lines);
    var j := FirstClosingFrom(lines, i);
    if j < |lines| {
      OpenBeforeClose(content, i, j);
      assert false;
    }
    PartsSuffix(content, '\n', i);
  }

  /** Whatever the branch, the result is one contiguous piece of the reply. */
  lemma ExtractJsonIsSlice(content: string)
    ensures exists a, b :: 0 <= a <= b <= |content| && ExtractJson(content) == content[a..b]
  {
    var lines := SplitOn(content, '\n');
    match BraceSpan(content)
    case Some((a, b)) =>
      assert ExtractJson(content) == content[a..b];
    case None =>
      if FirstOpening(lines) < |lines| {
        LineScanRunsToEnd(content);
        var a := PartOffset(content, '\n', FirstOpening(lines));
        assert ExtractJson(content) == content[a..|content|];
      } else {
        assert ExtractJson(content) == content[0..|content|];
      }
  }
}
