/**
 * The few pieces of Python's `str` behaviour the pipeline relies on:
 * `isspace`, `strip`, `split(sep)`, `split()`, `sep.join(parts)`, `find`
 * and `rfind` on one character.
 */
module PyText {
  import opened Results

  /** `c.isspace()`: the characters `str.split()` and `str.strip()` treat as whitespace. */
  predicate IsSpace(c: char) {
    var n := c as int;
    (9 <= n <= 13) || (28 <= n <= 32) || n == 0x85 || n == 0xA0 || n == 0x1680
    || (0x2000 <= n <= 0x200A) || n == 0x2028 || n == 0x2029 || n == 0x202F
    || n == 0x205F || n == 0x3000
  }

  /** `s.lstrip()`: drops the longest whitespace prefix. */
  function LStrip(s: string): (r: string)
    ensures |r| <= |s| && r == s[|s| - |r|..]
    ensures r == [] || !IsSpace(r[0])
    ensures forall i :: 0 <= i < |s| - |r| ==> IsSpace(s[i])
  {
    if s != [] && IsSpace(s[0]) then LStrip(s[1..]) else s
  }

  /** `s.rstrip()`: drops the longest whitespace suffix. */
  function RStrip(s: string): (r: string)
    ensures |r| <= |s| && r == s[..|r|]
    ensures r == [] || !IsSpace(r[|r| - 1])
    ensures forall i :: |r| <= i < |s| ==> IsSpace(s[i])
  {
    if s != [] && IsSpace(s[|s| - 1]) then RStrip(s[..|s| - 1]) else s
  }

  /** Where `s.strip()` begins inside `s`. */
  function StripStart(s: string): nat
  {
    |s| - |LStrip(s)|
  }

  /** `s.strip()`: the part of `s` between its whitespace prefix and suffix. */
  function Strip(s: string): (r: string)
    ensures StripStart(s) + |r| <= |s| && r == s[StripStart(s)..StripStart(s) + |r|]
    ensures r == [] || (!IsSpace(r[0]) && !IsSpace(r[|r| - 1]))
    ensures forall i :: 0 <= i < StripStart(s) ==> IsSpace(s[i])
    ensures forall i :: StripStart(s) + |r| <= i < |s| ==> IsSpace(s[i])
  {
    RStrip(LStrip(s))
  }

  /** `s.find(c)` for a single character, as an option. */
  function IndexOf(s: string, c: char): (r: Option<nat>)
    ensures r.None? ==> forall i :: 0 <= i < |s| ==> s[i] != c
    ensures r.Some? ==> r.value < |s| && s[r.value] == c
    ensures r.Some? ==> forall i :: 0 <= i < r.value ==> s[i] != c
  {
    if s == [] then None
    else if s[0] == c then Some(0)
    else match IndexOf(s[1..], c)
      case None => None
      case Some(i) => Some(i + 1)
  }

  /** `s.rfind(c)` for a single character, as an option. */
  function LastIndexOf(s: string, c: char): (r: Option<nat>)
    ensures r.None? ==> forall i :: 0 <= i < |s| ==> s[i] != c
    ensures r.Some? ==> r.value < |s| && s[r.value] == c
    ensures r.Some? ==> forall i :: r.value < i < |s| ==> s[i] != c
  {
    if s == [] then None
    else if s[|s| - 1] == c then Some(|s| - 1)
    else LastIndexOf(s[..|s| - 1], c)
  }

  /** `sep.join(parts)`. */
  function JoinWith(sep: string, parts: seq<string>): string
  {
    if parts == [] then ""
    else if |parts| == 1 then parts[0]
    else parts[0] + sep + JoinWith(sep, parts[1..])
  }

  /** `s.find(c, from)` for a single character: the first `c` at or after `from`. */
  function IndexFrom(s: string, c: char, from: nat): (r: Option<nat>)
    requires from <= |s|
    ensures r.None? ==> forall i :: from <= i < |s| ==> s[i] != c
    ensures r.Some? ==> from <= r.value < |s| && s[r.value] == c
    ensures r.Some? ==> forall i :: from <= i < r.value ==> s[i] != c
    decreases |s| - from
  {
    if from == |s| then None
    else if s[from] == c then Some(from)
    else IndexFrom(s, c, from + 1)
  }

  /** The parts of `s[from..].split(sep)` for a one-character separator: always at least one,
      empty parts kept. */
  function SplitFrom(s: string, sep: char, from: nat): (parts: seq<string>)
    requires from <= |s|
    ensures |parts| >= 1
    decreases |s| - from
  {
    match IndexFrom(s, sep, from)
    case None => [s[from..]]
    case Some(i) => [s[from..i]] + SplitFrom(s, sep, i + 1)
  }

  /** `s.split(sep)` for a one-character separator. */
  function SplitOn(s: string, sep: char): (parts: seq<string>)
    ensures |parts| >= 1
  {
    SplitFrom(s, sep, 0)
  }

  /** Splitting and joining again with the same separator gives back the input. */
  lemma JoinSplit(s: string, sep: char)
    ensures JoinWith([sep], SplitOn(s, sep)) == s
  {
    JoinSplitFrom(s, sep, 0);
    assert s[0..] == s;
  }

  lemma {:induction false} JoinSplitFrom(s: string, sep: char, from: nat)
    requires from <= |s|
    ensures JoinWith([sep], SplitFrom(s, sep, from)) == s[from..]
    decreases |s| - from
  {
    match IndexFrom(s, sep, from)
    case None =>
    case Some(i) =>
      var parts := SplitFrom(s, sep, from);
      var later := SplitFrom(s, sep, i + 1);
      assert parts == [s[from..i]] + later;
      HeadTail(parts);
      JoinSplitFrom(s, sep, i + 1);
      calc {
        JoinWith([sep], parts);
        parts[0] + [sep] + JoinWith([sep], parts[1..]);
        s[from..i] + [sep] + s[i + 1..];
        { assert s[from..] == s[from..i] + [sep] + s[i + 1..]; }
        s[from..];
      }
  }

  /** Where part `k` of `SplitFrom(s, sep, from)` begins inside `s`. */
  function PartOffsetFrom(s: string, sep: char, from: nat, k: nat): (offset: nat)
    requires from <= |s| && k < |SplitFrom(s, sep, from)|
    ensures from <= offset <= |s|
    decreases |s| - from
  {
    if k == 0 then from
    else PartOffsetFrom(s, sep, IndexFrom(s, sep, from).value + 1, k - 1)
  }

  /** Where part `k` of `SplitOn(s, sep)` begins inside `s`. */
  function PartOffset(s: string, sep: char, k: nat): (offset: nat)
    requires k < |SplitOn(s, sep)|
    ensures offset <= |s|
  {
    PartOffsetFrom(s, sep, 0, k)
  }

  /** Part `k` of a split is the slice of `s` that starts at its offset; the character right after
      it, when there is one, is the separator. */
  lemma {:induction false} PartSliceFrom(s: string, sep: char, from: nat, k: nat)
    requires from <= |s| && k < |SplitFrom(s, sep, from)|
    ensures var off, part := PartOffsetFrom(s, sep, from, k), SplitFrom(s, sep, from)[k];
      off + |part| <= |s| && part == s[off..off + |part|]
    decreases |s| - from
  {
    match IndexFrom(s, sep, from)
    case None =>
      assert SplitFrom(s, sep, from) == [s[from..]];
    case Some(i) =>
      var rest := SplitFrom(s, sep, i + 1);
      assert SplitFrom(s, sep, from) == [s[from..i]] + rest;
      if k > 0 {
        assert SplitFrom(s, sep, from)[k] == rest[k - 1];
        assert PartOffsetFrom(s, sep, from, k) == PartOffsetFrom(s, sep, i + 1, k - 1);
        PartSliceFrom(s, sep, i + 1, k - 1);
      }
  }

  /** Part `k` of `SplitOn(s, sep)` is the slice of `s` that starts at `PartOffset(s, sep, k)`. */
  lemma PartSlice(s: string, sep: char, k: nat)
    requires k < |SplitOn(s, sep)|
    ensures PartOffset(s, sep, k) + |SplitOn(s, sep)[k]| <= |s|
    ensures SplitOn(s, sep)[k] == s[PartOffset(s, sep, k)..PartOffset(s, sep, k) + |SplitOn(s, sep)[k]|]
  {
    PartSliceFrom(s, sep, 0, k);
  }

  /** The parts from `k` on, joined again, are the suffix of `s` from their offset. */
  lemma {:induction false} PartsSuffixFrom(s: string, sep: char, from: nat, k: nat)
    requires from <= |s| && k < |SplitFrom(s, sep, from)|
    ensures JoinWith([sep], SplitFrom(s, sep, from)[k..]) == s[PartOffsetFrom(s, sep, from, k)..]
    decreases |s| - from
  {
    var parts := SplitFrom(s, sep, from);
    if k == 0 {
      JoinSplitFrom(s, sep, from);
      assert parts[0..] == parts;
    } else {
      var i := IndexFrom(s, sep, from).value;
      assert parts == [s[from..i]] + SplitFrom(s, sep, i + 1);
      assert parts[k..] == SplitFrom(s, sep, i + 1)[k - 1..];
      PartsSuffixFrom(s, sep, i + 1, k - 1);
    }
  }

  /** The parts from `k` on, joined again, are the suffix of `s` from `PartOffset(s, sep, k)`. */
  lemma PartsSuffix(s: string, sep: char, k: nat)
    requires k < |SplitOn(s, sep)|
    ensures PartOffset(s, sep, k) <= |s|
    ensures JoinWith([sep], SplitOn(s, sep)[k..]) == s[PartOffset(s, sep, k)..]
  {
    PartsSuffixFrom(s, sep, 0, k);
  }

  /** Offsets of later parts lie strictly beyond the end of earlier parts (the separator sits between). */
  lemma {:induction false} PartOffsetsIncreaseFrom(s: string, sep: char, from: nat, j: nat, k: nat)
    requires from <= |s| && j < k < |SplitFrom(s, sep, from)|
    ensures PartOffsetFrom(s, sep, from, j) + |SplitFrom(s, sep, from)[j]| < PartOffsetFrom(s, sep, from, k)
    decreases |s| - from
  {
    PartStep(s, sep, from, k);
    if j > 0 {
      PartStep(s, sep, from, j);
      PartOffsetsIncreaseFrom(s, sep, IndexFrom(s, sep, from).value + 1, j - 1, k - 1);
    }
  }

  /** One step of the split: past the first separator, part `k` is part `k - 1` of the rest. */
  lemma PartStep(s: string, sep: char, from: nat, k: nat)
    requires from <= |s| && 0 < k < |SplitFrom(s, sep, from)|
    ensures IndexFrom(s, sep, from).Some?
    ensures var i := IndexFrom(s, sep, from).value;
      && SplitFrom(s, sep, from)[0] == s[from..i]
      && k - 1 < |SplitFrom(s, sep, i + 1)|
      && SplitFrom(s, sep, from)[k] == SplitFrom(s, sep, i + 1)[k - 1]
      && PartOffsetFrom(s, sep, from, k) == PartOffsetFrom(s, sep, i + 1, k - 1)
  {
  }

  /** Offsets of later parts of `SplitOn(s, sep)` lie strictly beyond the end of earlier parts. */
  lemma PartOffsetsIncrease(s: string, sep: char, j: nat, k: nat)
    requires j < k < |SplitOn(s, sep)|
    ensures PartOffset(s, sep, j) + |SplitOn(s, sep)[j]| < PartOffset(s, sep, k)
  {
    PartOffsetsIncreaseFrom(s, sep, 0, j, k);
  }

  /** A word of `s.split()`: non-empty and free of whitespace. */
  predicate IsWord(w: string) {
    w != [] && forall i :: 0 <= i < |w| ==> !IsSpace(w[i])
  }

  /** The longest prefix of `s` free of whitespace. */
  function TakeWord(s: string): (w: string)
    ensures |w| <= |s| && w == s[..|w|]
    ensures forall i :: 0 <= i < |w| ==> !IsSpace(w[i])
    ensures |w| == |s| || IsSpace(s[|w|])
  {
    if s == [] || IsSpace(s[0]) then [] else [s[0]] + TakeWord(s[1..])
  }

  /** `s.split()`: the maximal runs of non-whitespace characters, in order. */
  function Words(s: string): (ws: seq<string>)
    ensures forall k :: 0 <= k < |ws| ==> IsWord(ws[k])
    decreases |s|
  {
    var t := LStrip(s);
    if t == [] then [] else
      var w := TakeWord(t);
      assert |w| > 0;
      var ws := [w] + Words(t[|w|..]);
      assert ws[0] == w && ws[1..] == Words(t[|w|..]);
      ws
  }

  /** The characters of `s` that are not whitespace, in order. */
  function NonSpace(s: string): string
  {
    if s == [] then [] else (if IsSpace(s[0]) then [] else [s[0]]) + NonSpace(s[1..])
  }

  /** All characters of all parts, in order. */
  function Concat(parts: seq<string>): string
  {
    if parts == [] then [] else parts[0] + Concat(parts[1..])
  }

  /** Whitespace occurs only as single `' '` characters between two non-whitespace characters. */
  predicate SingleSpaced(r: string) {
    (r == [] || (!IsSpace(r[0]) && !IsSpace(r[|r| - 1])))
    && forall i :: 0 <= i < |r| && IsSpace(r[i]) ==>
         r[i] == ' ' && 0 < i < |r| - 1 && !IsSpace(r[i - 1]) && !IsSpace(r[i + 1])
  }

  /** Skipping one leading whitespace character does not change the words. */
  lemma WordsSkipSpace(u: string)
    requires u != [] && IsSpace(u[0])
    ensures Words(u) == Words(u[1..])
  {
    assert LStrip(u) == LStrip(u[1..]);
  }

  /** A whitespace-free prefix followed by whitespace (or nothing) is exactly the first word. */
  lemma {:induction false} TakeWordOfConcat(w: string, t: string)
    requires forall i :: 0 <= i < |w| ==> !IsSpace(w[i])
    requires t == [] || IsSpace(t[0])
    ensures TakeWord(w + t) == w
  {
    if w != [] {
      assert (w + t)[1..] == w[1..] + t;
      TakeWordOfConcat(w[1..], t);
    }
  }

  /** A word followed by whitespace (or nothing) is the first word of the split. */
  lemma WordsCons(w: string, u: string)
    requires IsWord(w)
    requires u == [] || IsSpace(u[0])
    ensures Words(w + u) == [w] + Words(u)
  {
    assert (w + u)[0] == w[0];
    assert LStrip(w + u) == w + u;
    TakeWordOfConcat(w, u);
    assert (w + u)[|w|..] == u;
  }

  /** `' '.join(ws).split() == ws` when every element is a word. */
  lemma {:induction false} WordsOfJoin(ws: seq<string>)
    requires forall k :: 0 <= k < |ws| ==> IsWord(ws[k])
    ensures Words(JoinWith(" ", ws)) == ws
  {
    if |ws| == 1 {
      WordsCons(ws[0], []);
      assert ws[0] + [] == ws[0];
    } else if |ws| > 1 {
      var w := ws[0];
      var tail := ws[1..];
      var rest := JoinWith(" ", tail);
      var gap := " " + rest;
      JoinCons(" ", ws);
      WordsCons(w, gap);
      WordsSkipSpace(gap);
      assert gap[1..] == rest;
      WordsOfJoin(tail);
      HeadTail(ws);
      calc {
        Words(JoinWith(" ", ws));
        Words(w + gap);
        [w] + Words(gap);
        [w] + Words(rest);
        [w] + tail;
        ws;
      }
    }
  }

  lemma HeadTail<T>(s: seq<T>)
    requires s != []
    ensures s == [s[0]] + s[1..]
  {
  }

  lemma SliceExtend<T>(s: seq<T>, i: nat, k: nat)
    requires i <= k < |s|
    ensures s[i..k + 1] == s[i..k] + [s[k]]
  {
  }

  lemma SliceToEnd<T>(s: seq<T>, i: nat)
    requires i <= |s|
    ensures s[i..|s|] == s[i..]
  {
  }

  /** A character of a slice is the character of the whole at the shifted index. */
  lemma CharOfSlice(s: string, part: string, off: nat, x: nat)
    requires off + |part| <= |s| && part == s[off..off + |part|]
    requires x < |part|
    ensures s[off + x] == part[x]
  {
  }

  lemma JoinCons(sep: string, ws: seq<string>)
    requires |ws| > 1
    ensures JoinWith(sep, ws) == ws[0] + (sep + JoinWith(sep, ws[1..]))
  {
  }

  /** `' '.join(ws)` of words is single-spaced and trimmed. */
  lemma {:induction false} JoinOfWordsSingleSpaced(ws: seq<string>)
    requires forall k :: 0 <= k < |ws| ==> IsWord(ws[k])
    ensures SingleSpaced(JoinWith(" ", ws))
    ensures ws != [] ==> JoinWith(" ", ws) != []
  {
    if |ws| > 1 {
      var w := ws[0];
      var rest := JoinWith(" ", ws[1..]);
      JoinOfWordsSingleSpaced(ws[1..]);
      var j := JoinWith(" ", ws);
      assert j == w + " " + rest;
      forall i | 0 <= i < |j|
        ensures IsSpace(j[i]) ==> j[i] == ' ' && 0 < i < |j| - 1 && !IsSpace(j[i - 1]) && !IsSpace(j[i + 1])
      {
        if i < |w| {
          assert j[i] == w[i];
        } else if i > |w| {
          assert j[i] == rest[i - |w| - 1];
          if i - |w| - 1 > 0 {
            assert j[i - 1] == rest[i - |w| - 2];
          }
          if i + 1 < |j| {
            assert j[i + 1] == rest[i - |w|];
          }
        }
      }
    }
  }

  /** The words of `s`, concatenated, are the non-whitespace characters of `s` in order. */
  lemma {:induction false} ConcatWords(s: string)
    ensures Concat(Words(s)) == NonSpace(s)
    decreases |s|
  {
    var t := LStrip(s);
    NonSpaceOfSpaces(s, |s| - |t|);
    if t != [] {
      var w := TakeWord(t);
      var u := t[|w|..];
      assert t == w + u;
      NonSpaceAppend(w, u);
      NonSpaceOfWord(w);
      ConcatWords(u);
      assert Words(s)[1..] == Words(u);
    }
  }

  /** Dropping a whitespace prefix does not change the non-whitespace characters. */
  lemma {:induction false} NonSpaceOfSpaces(s: string, n: nat)
    requires n <= |s|
    requires forall i :: 0 <= i < n ==> IsSpace(s[i])
    ensures NonSpace(s) == NonSpace(s[n..])
  {
    if n > 0 {
      NonSpaceOfSpaces(s[1..], n - 1);
      assert s[1..][n - 1..] == s[n..];
    }
  }

  lemma {:induction false} NonSpaceAppend(a: string, b: string)
    ensures NonSpace(a + b) == NonSpace(a) + NonSpace(b)
  {
    if a == [] {
      assert a + b == b;
    } else {
      var head := if IsSpace(a[0]) then [] else [a[0]];
      assert (a + b)[0] == a[0];
      assert (a + b)[1..] == a[1..] + b;
      NonSpaceAppend(a[1..], b);
      calc {
        NonSpace(a + b);
        head + NonSpace(a[1..] + b);
        head + (NonSpace(a[1..]) + NonSpace(b));
        (head + NonSpace(a[1..])) + NonSpace(b);
        NonSpace(a) + NonSpace(b);
      }
    }
  }

  lemma {:induction false} NonSpaceOfWord(w: string)
    requires forall i :: 0 <= i < |w| ==> !IsSpace(w[i])
    ensures NonSpace(w) == w
  {
    if w != [] {
      NonSpaceOfWord(w[1..]);
    }
  }

  /** Joining words with `' '` keeps exactly their characters, in order, besides the separators. */
  lemma {:induction false} NonSpaceOfJoin(ws: seq<string>)
    requires forall k :: 0 <= k < |ws| ==> IsWord(ws[k])
    ensures NonSpace(JoinWith(" ", ws)) == Concat(ws)
  {
    if |ws| == 1 {
      NonSpaceOfWord(ws[0]);
      assert Concat(ws) == ws[0] + Concat([]);
    } else if |ws| > 1 {
      var w := ws[0];
      var rest := JoinWith(" ", ws[1..]);
      NonSpaceOfJoin(ws[1..]);
      JoinCons(" ", ws);
      NonSpaceOfWord(w);
      NonSpaceGap(w, rest);
    }
  }

  lemma NonSpaceGap(w: string, rest: string)
    requires NonSpace(w) == w
    ensures NonSpace(w + (" " + rest)) == w + NonSpace(rest)
  {
    NonSpaceAppend(w, " " + rest);
    NonSpaceAppend(" ", rest);
    assert NonSpace(" ") == [];
  }

  /** `' '.join(s.split())` is never longer than `s`. */
  lemma {:induction false} JoinWordsLength(s: string)
    ensures |JoinWith(" ", Words(s))| <= |s|
    decreases |s|
  {
    var t := LStrip(s);
    if t != [] {
      var w := TakeWord(t);
      var u := t[|w|..];
      assert Words(s) == [w] + Words(u);
      if Words(u) != [] {
        assert u != [] && IsSpace(u[0]);
        WordsSkipSpace(u);
        JoinWordsLength(u[1..]);
        assert JoinWith(" ", Words(s)) == w + " " + JoinWith(" ", Words(u));
      }
    }
  }

  /** The first word of `s` and what follows it. */
  lemma WordsStep(s: string)
    requires LStrip(s) != []
    ensures var t := LStrip(s); var w := TakeWord(t);
      IsWord(w) && Words(s) == [w] + Words(t[|w|..])
  {
  }

  /** A non-whitespace character of `s` is kept by `NonSpace`. */
  lemma {:induction false} InNonSpace(s: string, i: nat)
    requires i < |s| && !IsSpace(s[i])
    ensures s[i] in NonSpace(s)
  {
    if i > 0 {
      InNonSpace(s[1..], i - 1);
    }
  }

  /** `NonSpace` keeps only non-whitespace characters of its input. */
  lemma {:induction false} FromNonSpace(s: string, c: char)
    requires c in NonSpace(s)
    ensures c in s && !IsSpace(c)
  {
    if s != [] {
      if IsSpace(s[0]) || c != s[0] {
        FromNonSpace(s[1..], c);
      }
    }
  }
}
