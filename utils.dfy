/**
 * `clean_text` of app/core/utils.py: drops control characters, then
 * collapses every run of whitespace to one space and trims both ends.
 */
module Utils {
  import opened PyText

  /** A character the first pass keeps: code 32 or above, or one of `\n`, `\r`, `\t`. */
  predicate Kept(c: char) {
    c as int >= 32 || c == '\n' || c == '\r' || c == '\t'
  }

  /** The first pass: the kept characters of `s`, in order. */
  function DropControl(s: string): (r: string)
    ensures |r| <= |s|
    ensures forall i :: 0 <= i < |r| ==> Kept(r[i])
    ensures forall c :: c in r <==> c in s && Kept(c)
    ensures |s| == 1 ==> (Kept(s[0]) <==> r == s) && (!Kept(s[0]) <==> r == [])
  {
    if s == [] then []
    else (if Kept(s[0]) then [s[0]] else []) + DropControl(s[1..])
  }

  /** The first pass works character by character: it filters each part of a concatenation on its own. */
  lemma {:induction false} DropControlAppend(a: string, b: string)
    ensures DropControl(a + b) == DropControl(a) + DropControl(b)
  {
    if a == [] {
      assert a + b == b;
    } else {
      assert (a + b)[0] == a[0];
      assert (a + b)[1..] == a[1..] + b;
      DropControlAppend(a[1..], b);
      var head := if Kept(a[0]) then [a[0]] else [];
      calc {
        DropControl(a + b);
        head + DropControl(a[1..] + b);
        head + (DropControl(a[1..]) + DropControl(b));
        (head + DropControl(a[1..])) + DropControl(b);
        DropControl(a) + DropControl(b);
      }
    }
  }

  /** A character that survives both passes: printable and not whitespace. */
  predicate Visible(c: char) {
    c as int >= 32 && !IsSpace(c)
  }

  /** The visible characters of `s`, in order. */
  function VisibleChars(s: string): string
  {
    if s == [] then []
    else (if Visible(s[0]) then [s[0]] else []) + VisibleChars(s[1..])
  }

  /** `clean_text(text)`. */
  function CleanText(text: string): (r: string)
    ensures text == "" ==> r == ""
    ensures |r| <= |text|
    ensures forall i :: 0 <= i < |r| ==> r[i] as int >= 32
    ensures SingleSpaced(r)
  {
    if text == "" then ""
    else
      var kept := DropControl(text);
      var r := JoinWith(" ", Words(kept));
      JoinWordsLength(kept);
      JoinOfWordsSingleSpaced(Words(kept));
      JoinedWordsFrom(kept);
      r
  }

  /** Every character of the words of `s` joined by spaces is a space or a non-space character of `s`. */
  lemma JoinedWordsFrom(s: string)
    ensures var r := JoinWith(" ", Words(s));
      forall i :: 0 <= i < |r| ==> r[i] == ' ' || (r[i] in s && !IsSpace(r[i]))
  {
    var r := JoinWith(" ", Words(s));
    forall i | 0 <= i < |r| && r[i] != ' '
      ensures r[i] in s && !IsSpace(r[i])
    {
      if !IsSpace(r[i]) {
        InNonSpace(r, i);
        NonSpaceOfJoin(Words(s));
        ConcatWords(s);
        FromNonSpace(s, r[i]);
      } else {
        JoinOfWordsSingleSpaced(Words(s));
      }
    }
  }

  /** The words of the result are the words of the text once its control characters are dropped;
      with `SingleSpaced`, this fixes the result as those words joined by single spaces. */
  lemma CleanTextWords(text: string)
    ensures Words(CleanText(text)) == Words(DropControl(text))
  {
    if text != "" {
      WordsOfJoin(Words(DropControl(text)));
    }
  }

  /** Cleaning twice is cleaning once. */
  lemma CleanTextIdempotent(text: string)
    ensures CleanText(CleanText(text)) == CleanText(text)
  {
    var r := CleanText(text);
    if r != "" {
      var kept := DropControl(text);
      DropControlOfPrintable(r);
      WordsOfJoin(Words(kept));
    }
  }

  /** A string with no control characters passes the first pass unchanged. */
  lemma {:induction false} DropControlOfPrintable(s: string)
    requires forall i :: 0 <= i < |s| ==> s[i] as int >= 32
    ensures DropControl(s) == s
  {
    if s != [] {
      DropControlOfPrintable(s[1..]);
    }
  }

  /** The characters that are neither control characters nor whitespace survive, in their order,
      and the only other characters of the result are the single separating spaces. */
  lemma CleanTextKeepsVisible(text: string)
    ensures NonSpace(CleanText(text)) == VisibleChars(text)
  {
    if text != "" {
      var kept := DropControl(text);
      NonSpaceOfJoin(Words(kept));
      ConcatWords(kept);
      NonSpaceOfDropControl(text);
    }
  }

  lemma {:induction false} NonSpaceOfDropControl(s: string)
    ensures NonSpace(DropControl(s)) == VisibleChars(s)
  {
    if s != [] {
      NonSpaceOfDropControl(s[1..]);
      var head := if Kept(s[0]) then [s[0]] else [];
      NonSpaceAppend(head, DropControl(s[1..]));
      assert NonSpace(head) == (if Visible(s[0]) then [s[0]] else []);
    }
  }
}
