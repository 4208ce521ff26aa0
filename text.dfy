/**
 * Python's string primitives that the scraper relies on (str.isspace, str.split,
 * str.join, str.strip, str.lower, str.upper) and the scraper's whitespace
 * normalisation `_clean_text`, with the properties that make it a normal form.
 */
module Text {

  /** Python's str.isspace(): the characters str.split() splits on and re's \s matches. */
  predicate IsSpace(c: char) {
    var n := c as int;
    (9 <= n <= 13) || (28 <= n <= 32) || n == 0x85 || n == 0xA0 || n == 0x1680
    || (0x2000 <= n <= 0x200A) || n == 0x2028 || n == 0x2029 || n == 0x202F
    || n == 0x205F || n == 0x3000
  }

  predicate NoSpace(s: string) {
    forall i :: 0 <= i < |s| ==> !IsSpace(s[i])
  }

  predicate AllSpace(s: string) {
    forall i :: 0 <= i < |s| ==> IsSpace(s[i])
  }

  /** One element of str.split(): a non-empty run of non-whitespace characters. */
  predicate IsWord(w: string) {
    |w| > 0 && NoSpace(w)
  }

  predicate AllWords(ws: seq<string>) {
    forall k :: 0 <= k < |ws| ==> IsWord(ws[k])
  }

  /** The run of non-whitespace characters at the front of s. */
  function LeadingWord(s: string): (w: string)
    ensures |w| <= |s| && w == s[..|w|] && NoSpace(w)
    ensures |w| == |s| || IsSpace(s[|w|])
  {
    if s == [] || IsSpace(s[0]) then [] else [s[0]] + LeadingWord(s[1..])
  }

  /** str.split() with no separator: the maximal non-whitespace runs of s, in order. */
  function Split(s: string): (ws: seq<string>)
    ensures AllWords(ws)
    ensures ws == [] <==> AllSpace(s)
    decreases |s|
  {
    if s == [] then []
    else if IsSpace(s[0]) then
      assert AllSpace(s) <==> AllSpace(s[1..]) by {
        if AllSpace(s[1..]) {
          forall i | 0 <= i < |s| ensures IsSpace(s[i]) {
            if i > 0 { assert s[i] == s[1..][i - 1]; }
          }
        }
      }
      Split(s[1..])
    else
      var w := LeadingWord(s);
      [w] + Split(s[|w|..])
  }

  /** The non-whitespace characters of s, in order. */
  function NonSpace(s: string): string {
    if s == [] then [] else (if IsSpace(s[0]) then [] else [s[0]]) + NonSpace(s[1..])
  }

  /** ''.join(ws) */
  function Concat(ws: seq<string>): string {
    if ws == [] then [] else ws[0] + Concat(ws[1..])
  }

  /** sep.join(ws) */
  function Join(sep: string, ws: seq<string>): string {
    if |ws| == 0 then ""
    else if |ws| == 1 then ws[0]
    else ws[0] + sep + Join(sep, ws[1..])
  }

  function StripLeft(s: string): string {
    if s != [] && IsSpace(s[0]) then StripLeft(s[1..]) else s
  }

  function StripRight(s: string): string {
    if s != [] && IsSpace(s[|s| - 1]) then StripRight(s[..|s| - 1]) else s
  }

  /** str.strip() with no argument: drop leading and trailing whitespace. */
  function Strip(s: string): string {
    StripRight(StripLeft(s))
  }

  /** str.lower(), on the ASCII letters. */
  function LowerChar(c: char): char {
    if 'A' <= c <= 'Z' then (c as int + 32) as char else c
  }

  function Lower(s: string): (r: string)
    ensures |r| == |s| && forall i :: 0 <= i < |s| ==> r[i] == LowerChar(s[i])
  {
    seq(|s|, i requires 0 <= i < |s| => LowerChar(s[i]))
  }

  /** str.upper(), on the ASCII letters. */
  function UpperChar(c: char): char {
    if 'a' <= c <= 'z' then (c as int - 32) as char else c
  }

  function Upper(s: string): (r: string)
    ensures |r| == |s| && forall i :: 0 <= i < |s| ==> r[i] == UpperChar(s[i])
  {
    seq(|s|, i requires 0 <= i < |s| => UpperChar(s[i]))
  }

  /** `_clean_text`: "" for empty input, else ' '.join(text.split()).strip(). */
  function CleanText(text: string): string {
    if text == "" then "" else Strip(Join(" ", Split(text)))
  }

  /** No whitespace at either end. */
  predicate Trimmed(s: string) {
    |s| > 0 ==> !IsSpace(s[0]) && !IsSpace(s[|s| - 1])
  }

  /** No two whitespace characters next to each other. */
  predicate SingleSpaced(s: string) {
    forall i :: 0 <= i < |s| - 1 ==> !IsSpace(s[i]) || !IsSpace(s[i + 1])
  }

  /** Every whitespace character is a plain space. */
  predicate PlainSpaces(s: string) {
    forall i :: 0 <= i < |s| && IsSpace(s[i]) ==> s[i] == ' '
  }

  predicate Tidy(s: string) {
    Trimmed(s) && SingleSpaced(s) && PlainSpaces(s)
  }

  lemma {:induction false} LeadingWordOf(w: string, t: string)
    requires NoSpace(w) && (t == [] || IsSpace(t[0]))
    ensures LeadingWord(w + t) == w
  {
    if w == [] {
      assert w + t == t;
    } else {
      assert (w + t)[0] == w[0];
      assert (w + t)[1..] == w[1..] + t;
      LeadingWordOf(w[1..], t);
      assert [w[0]] + w[1..] == w;
    }
  }

  /** A word followed by whitespace or nothing splits off as the first element. */
  lemma SplitWordThen(w: string, t: string)
    requires IsWord(w) && (t == [] || IsSpace(t[0]))
    ensures Split(w + t) == [w] + Split(t)
  {
    LeadingWordOf(w, t);
    assert (w + t)[0] == w[0];
    assert (w + t)[|w|..] == t;
  }

  lemma SplitSpaceThen(t: string)
    ensures Split(" " + t) == Split(t)
  {
    assert (" " + t)[1..] == t;
  }

  /** A leading whitespace character of any kind is skipped. */
  lemma SplitWhitespaceThen(c: char, t: string)
    requires IsSpace(c)
    ensures Split([c] + t) == Split(t)
  {
    assert ([c] + t)[1..] == t;
  }

  /** A leading run of whitespace, of any length and kind, is skipped. */
  lemma {:induction false} SplitSpaceRun(sp: string, t: string)
    requires AllSpace(sp)
    ensures Split(sp + t) == Split(t)
  {
    if sp != [] {
      assert AllSpace(sp[1..]) by {
        forall i | 0 <= i < |sp[1..]| ensures IsSpace(sp[1..][i]) { assert sp[1..][i] == sp[i + 1]; }
      }
      SplitSpaceRun(sp[1..], t);
      assert sp + t == [sp[0]] + (sp[1..] + t);
      SplitWhitespaceThen(sp[0], sp[1..] + t);
    } else {
      assert sp + t == t;
    }
  }

  lemma AllWordsTail(ws: seq<string>)
    requires |ws| > 0 && AllWords(ws)
    ensures IsWord(ws[0]) && AllWords(ws[1..])
  {
    forall k | 0 <= k < |ws[1..]| ensures IsWord(ws[1..][k]) {
      assert ws[1..][k] == ws[k + 1];
    }
  }

  lemma SplitJoinCons(ws: seq<string>)
    requires |ws| > 1 && IsWord(ws[0]) && Split(Join(" ", ws[1..])) == ws[1..]
    ensures Split(Join(" ", ws)) == ws
  {
    var w, rest := ws[0], Join(" ", ws[1..]);
    assert Join(" ", ws) == w + (" " + rest);
    SplitWordThen(w, " " + rest);
    SplitSpaceThen(rest);
    assert [w] + ws[1..] == ws;
  }

  /** Splitting a space-joined list of words gives the words back. */
  lemma {:induction false} SplitJoin(ws: seq<string>)
    requires AllWords(ws)
    ensures Split(Join(" ", ws)) == ws
  {
    if |ws| == 1 {
      AllWordsTail(ws);
      SplitWordThen(ws[0], []);
      assert ws[0] + [] == ws[0];
    } else if |ws| > 1 {
      AllWordsTail(ws);
      SplitJoin(ws[1..]);
      SplitJoinCons(ws);
    }
  }

  lemma {:induction false} NonSpaceAppend(a: string, b: string)
    ensures NonSpace(a + b) == NonSpace(a) + NonSpace(b)
  {
    if a == [] {
      assert a + b == b;
    } else {
      var head := if IsSpace(a[0]) then [] else [a[0]];
      assert (a + b)[0] == a[0];
      assert (a + b)[1..] == a[1..] + b;
      NonSpaceAppend(a[1..], b);
      calc {
        NonSpace(a + b);
        head + NonSpace(a[1..] + b);
        head + (NonSpace(a[1..]) + NonSpace(b));
        (head + NonSpace(a[1..])) + NonSpace(b);
        NonSpace(a) + NonSpace(b);
      }
    }
  }

  lemma {:induction false} NonSpaceOfWord(w: string)
    requires NoSpace(w)
    ensures NonSpace(w) == w
  {
    if w != [] {
      assert NoSpace(w[1..]) by {
        forall i | 0 <= i < |w[1..]| ensures !IsSpace(w[1..][i]) { assert w[1..][i] == w[i + 1]; }
      }
      NonSpaceOfWord(w[1..]);
      assert [w[0]] + w[1..] == w;
    }
  }

  /**
   * The words of s are its non-whitespace characters, in order: splitting
   * only drops whitespace and neither adds, drops nor reorders anything else.
   */
  lemma {:induction false} SplitConcat(s: string)
    ensures Concat(Split(s)) == NonSpace(s)
    decreases |s|
  {
    if s != [] {
      if IsSpace(s[0]) {
        SplitConcat(s[1..]);
      } else {
        var w := LeadingWord(s);
        assert |w| > 0;
        var rest := s[|w|..];
        SplitConcat(rest);
        assert s == w + rest;
        NonSpaceAppend(w, rest);
        NonSpaceOfWord(w);
        assert Split(s) == [w] + Split(rest);
        assert ([w] + Split(rest))[1..] == Split(rest);
      }
    }
  }

  /** A space-joined list of words is tidy, and non-empty when the list is. */
  lemma {:induction false} JoinTidy(ws: seq<string>)
    requires AllWords(ws)
    ensures Tidy(Join(" ", ws))
    ensures |ws| > 0 ==> |Join(" ", ws)| > 0
  {
    if |ws| == 1 {
      assert IsWord(ws[0]);
    } else if |ws| > 1 {
      var w, r := ws[0], Join(" ", ws[1..]);
      assert IsWord(w) && IsWord(ws[1]);
      assert AllWords(ws[1..]) by {
        forall k | 0 <= k < |ws[1..]| ensures IsWord(ws[1..][k]) { assert ws[1..][k] == ws[k + 1]; }
      }
      JoinTidy(ws[1..]);
      var j := w + " " + r;
      assert Join(" ", ws) == j;
      assert |r| > 0;
      forall i | 0 <= i < |j|
        ensures IsSpace(j[i]) ==> j[i] == ' ' && 0 < i < |j| - 1
        ensures i < |j| - 1 ==> !IsSpace(j[i]) || !IsSpace(j[i + 1])
      {
        if i < |w| {
          assert j[i] == w[i];
        } else if i == |w| {
          assert j[i] == ' ';
          assert j[i + 1] == r[0];
        } else {
          assert j[i] == r[i - |w| - 1];
          if i < |j| - 1 { assert j[i + 1] == r[i - |w|]; }
        }
      }
      assert j[0] == w[0];
      assert j[|j| - 1] == r[|r| - 1];
    }
  }

  lemma StripTrimmed(s: string)
    requires Trimmed(s)
    ensures Strip(s) == s
  {
  }

  lemma {:induction false} CleanTextIsJoin(text: string)
    ensures CleanText(text) == Join(" ", Split(text))
  {
    if text != "" {
      JoinTidy(Split(text));
      StripTrimmed(Join(" ", Split(text)));
    }
  }

  /**
   * The shape `_clean_text` promises: no whitespace at either end, no two
   * whitespace characters in a row, and only plain spaces; the result is
   * empty exactly when the text was all whitespace (in particular for "").
   */
  lemma CleanTextShape(text: string)
    ensures Tidy(CleanText(text))
    ensures CleanText(text) == "" <==> AllSpace(text)
  {
    CleanTextIsJoin(text);
    JoinTidy(Split(text));
  }

  /** Cleaning changes only whitespace: the words of the text survive, in order. */
  lemma {:induction false} CleanTextKeepsWords(text: string)
    ensures Split(CleanText(text)) == Split(text)
  {
    CleanTextIsJoin(text);
    SplitJoin(Split(text));
  }

  /** Cleaning changes nothing but whitespace: the text's other characters survive, in order, and nothing is added. */
  lemma CleanTextKeepsNonSpace(text: string)
    ensures NonSpace(CleanText(text)) == NonSpace(text)
  {
    CleanTextKeepsWords(text);
    SplitConcat(CleanText(text));
    SplitConcat(text);
  }

  /** Leading whitespace of any kind makes no difference to `_clean_text`. */
  lemma CleanTextDropsLeadingSpace(sp: string, text: string)
    requires AllSpace(sp)
    ensures CleanText(sp + text) == CleanText(text)
  {
    CleanTextIsJoin(sp + text);
    CleanTextIsJoin(text);
    SplitSpaceRun(sp, text);
  }

  /** A run of whitespace of any length and kind between two words becomes one plain space. */
  lemma CleanTextCollapsesRun(a: string, sp: string, b: string)
    requires IsWord(a) && IsWord(b) && |sp| > 0 && AllSpace(sp)
    ensures CleanText(a + sp + b) == a + " " + b
  {
    CleanTextIsJoin(a + sp + b);
    assert a + sp + b == a + (sp + b);
    assert (sp + b)[0] == sp[0];
    SplitWordThen(a, sp + b);
    SplitSpaceRun(sp, b);
    SplitWordThen(b, []);
    assert b + [] == b;
    assert Split(a + sp + b) == [a, b];
  }

  /** Cleaning twice is cleaning once. */
  lemma CleanTextIdempotent(text: string)
    ensures CleanText(CleanText(text)) == CleanText(text)
  {
    CleanTextKeepsWords(text);
    CleanTextIsJoin(text);
    CleanTextIsJoin(CleanText(text));
  }
}
