/** The scanner that blanks literals and comments before token scans, and the
    matchers that run on its output. */
module Lexer {
  import opened Outcomes
  import opened Text

  /** Which characters count as letters and digits; the delimiters of literals
      and comments do not. */
  ghost predicate Sane(alnum: char -> bool) {
    !alnum(' ') && !alnum('"') && !alnum('#') && !alnum('/') && !alnum('\'')
  }

  predicate WordChar(alnum: char -> bool, c: char) { alnum(c) || c == '_' }

  // ---- tokens at the front of the text ----

  datatype Token = Keep | Blank(length: nat) | Quoted(length: nat)

  function Hashes(s: string): (n: nat)
    ensures n <= |s| && (forall i :: 0 <= i < n ==> s[i] == '#') && (n < |s| ==> s[n] != '#')
  {
    if s == "" || s[0] != '#' then 0 else Hashes(s[1..]) + 1
  }

  /** Hash marks and a quote: their number, if that is how the text starts. */
  function HashQuote(s: string): Option<nat> {
    if Hashes(s) < |s| && s[Hashes(s)] == '"' then Some(Hashes(s)) else None
  }

  /** The length of a raw string's opening and the number of its hash marks. */
  function RawOpening(s: string): (r: Option<(nat, nat)>)
    ensures r.Some? ==> 2 <= r.value.0 <= |s|
  {
    var p := if s != "" && (s[0] == 'b' || s[0] == 'c') then 1 else 0;
    if |s| <= p || s[p] != 'r' then None
    else
      var h := HashQuote(s[p + 1..]);
      if h.None? then None else Some((p + 1 + h.value + 1, h.value))
  }

  function Repeat(c: char, n: nat): (s: string)
    ensures |s| == n && forall i :: 0 <= i < n ==> s[i] == c
  {
    seq(n, i => c)
  }

  function Spaces(n: nat): (s: string)
    ensures |s| == n && forall i :: 0 <= i < n ==> s[i] == ' '
  {
    Repeat(' ', n)
  }

  /** Up to and including the terminator, or to the end of the text. */
  function Through(s: string, from: nat, terminator: string): (n: nat)
    requires from <= |s|
    ensures from <= n <= |s|
  {
    var at := Find(s[from..], terminator);
    if at.Some? then from + at.value + |terminator| else |s|
  }

  /** Up to but not including the character, or to the end of the text. */
  function Before(s: string, terminator: char): (n: nat)
    ensures n <= |s| && (n < |s| ==> s[n] == terminator)
  {
    var at := Find(s, [terminator]);
    if at.Some? then at.value else |s|
  }

  /** The length of the string literal whose scan has come to `j`; an escape at
      the very end of the text counts two characters. */
  function StringLength(s: string, j: nat): (n: nat)
    requires j <= |s| + 1
    ensures j <= n <= |s| + 1
    decreases |s| + 1 - j
  {
    if j >= |s| then j
    else if s[j] == '\\' then StringLength(s, j + 2)
    else if s[j] == '"' then j + 1
    else StringLength(s, j + 1)
  }

  predicate RawHead(c: char) { c == 'b' || c == 'r' || c == 'c' }

  /** The token at the front; `prev` says whether a word character precedes. */
  function First(prev: bool, s: string): (t: Token)
    requires s != ""
    ensures t.Blank? ==> 1 <= t.length <= |s|
    ensures t.Quoted? ==> 2 <= t.length <= |s| + 1 && s[0] == '"'
  {
    var raw := if RawHead(s[0]) && !prev then RawOpening(s) else None;
    if raw.Some? then Blank(Through(s, raw.value.0, "\"" + Repeat('#', raw.value.1)))
    else if s[0] == '/' && |s| > 1 && s[1] == '/' then
      Blank(Before(s, '\n'))
    else if s[0] == '/' && |s| > 1 && s[1] == '*' then Blank(Through(s, 2, "*/"))
    else if s[0] == '"' then
      var n := StringLength(s, 1);
      if n >= 2 then Quoted(n) else Blank(n)
    else if s[0] == '\'' && |s| > 1 && s[1] == '\\' then Blank(Through(s, 2, "'"))
    else if s[0] == '\'' && |s| > 2 && s[2] == '\'' then Blank(3)
    else Keep
  }

  function Length(t: Token): nat { match t case Keep => 1 case Blank(n) => n case Quoted(n) => n }

  /** What is written for a token that starts with `c`. */
  function Written(t: Token, c: char): (o: string)
    requires t.Quoted? ==> t.length >= 2
    ensures |o| == Length(t)
  {
    match t case Keep => [c] case Blank(n) => Spaces(n) case Quoted(n) => Quotes(n)
  }

  /** What is left of the text. */
  function Strip(alnum: char -> bool, prev: bool, s: string): string
    decreases |s|
  {
    if s == "" then ""
    else
      var t := First(prev, s);
      Written(t, s[0]) + if Length(t) > |s| then "" else Strip(alnum, WordChar(alnum, s[Length(t) - 1]), s[Length(t)..])
  }

  function Quotes(n: nat): (q: string)
    requires n >= 2
    ensures |q| == n && q[0] == '"' && q[n - 1] == '"' && forall i :: 1 <= i < n - 1 ==> q[i] == ' '
  {
    "\"" + Spaces(n - 2) + "\""
  }

  // ---- positions are kept ----

  /** The scan ends in a string literal that the text ends within an escape. */
  predicate Dangling(alnum: char -> bool, prev: bool, s: string)
    decreases |s|
  {
    s != ""
    && var t := First(prev, s);
    Length(t) > |s| || Dangling(alnum, WordChar(alnum, s[Length(t) - 1]), s[Length(t)..])
  }

  lemma {:induction false} LongStringEndsInBackslash(s: string, j: nat)
    requires 1 <= j <= |s| && StringLength(s, j) == |s| + 1
    ensures s[|s| - 1] == '\\'
    decreases |s| - j
  {
    if j < |s| && s[j] == '\\' {
      if j + 2 <= |s| { LongStringEndsInBackslash(s, j + 2); }
    } else if j < |s| && s[j] != '"' {
      LongStringEndsInBackslash(s, j + 1);
    }
  }

  lemma {:induction false} DanglingEndsInBackslash(alnum: char -> bool, prev: bool, s: string)
    requires Dangling(alnum, prev, s)
    ensures s[|s| - 1] == '\\'
    decreases |s|
  {
    var n := Length(First(prev, s));
    if n > |s| {
      hide RawOpening, Through, Before;
      LongStringEndsInBackslash(s, 1);
    } else {
      hide First, WordChar;
      DanglingEndsInBackslash(alnum, WordChar(alnum, s[n - 1]), s[n..]);
    }
  }

  /** Such a text is a quote and a backslash; its output has three characters. */
  lemma {:induction false} DanglingOutput(alnum: char -> bool)
    ensures Dangling(alnum, false, "\"\\") && |Strip(alnum, false, "\"\\")| == 3
  {
    var s := "\"\\";
    assert StringLength(s, 1) == 3;
    assert First(false, s) == Quoted(3);
    KeepsLength(alnum, false, s);
  }

  /** Every character of the text is kept, or a space or a quote stands there;
      what goes beyond the text is a quote. */
  predicate Over(o: string, s: string) {
    |o| >= |s| && (forall i :: 0 <= i < |s| ==> o[i] == s[i] || o[i] == ' ' || o[i] == '"')
    && forall i :: |s| <= i < |o| ==> o[i] == '"'
  }

  lemma {:induction false} OverJoin(e: string, o: string, s: string)
    requires |e| <= |s| && Over(e, s[..|e|]) && Over(o, s[|e|..])
    ensures Over(e + o, s)
  {
    var k := |e|;
    forall i | 0 <= i < |s| ensures (e + o)[i] == s[i] || (e + o)[i] == ' ' || (e + o)[i] == '"' {
      if i < k { assert s[..k][i] == s[i]; } else { assert s[k..][i - k] == s[i] && (e + o)[i] == o[i - k]; }
    }
    assert forall i :: |s| <= i < |e + o| ==> (e + o)[i] == o[i - k];
  }

  lemma {:induction false} WrittenOver(t: Token, s: string, n: nat)
    requires s != "" && n <= |s| && (t.Quoted? ==> t.length >= 2)
    requires n == Length(t) || (t.Quoted? && n == |s| && Length(t) == |s| + 1)
    ensures Over(Written(t, s[0]), s[..n])
  {
  }

  /** The output is as long as the text, or one longer exactly when the text
      ends inside an escape of an unterminated string. */
  lemma {:induction false} KeepsLength(alnum: char -> bool, prev: bool, s: string)
    ensures |Strip(alnum, prev, s)| == |s| + if Dangling(alnum, prev, s) then 1 else 0
    decreases |s|
  {
    hide First, WordChar, Written;
    if s != "" {
      var n := Length(First(prev, s));
      if n <= |s| { KeepsLength(alnum, WordChar(alnum, s[n - 1]), s[n..]); }
    }
  }

  lemma {:induction false} LongToken(prev: bool, s: string)
    requires s != "" && Length(First(prev, s)) > |s|
    ensures First(prev, s) == Quoted(|s| + 1)
  {
    hide RawOpening, Through, Before;
  }

  /** Every output character is the text's own, a space or a quote; the one that
      a dangling text adds is a quote. */
  lemma {:induction false} KeepsCharacters(alnum: char -> bool, prev: bool, s: string)
    ensures Over(Strip(alnum, prev, s), s)
    decreases |s|
  {
    hide First, WordChar, Over, Written;
    if s == "" {
      EmptyOver();
    } else {
      var t := First(prev, s);
      var n := Length(t);
      if n <= |s| {
        KeepsCharacters(alnum, WordChar(alnum, s[n - 1]), s[n..]);
        WrittenOver(t, s, n);
        OverJoin(Written(t, s[0]), Strip(alnum, WordChar(alnum, s[n - 1]), s[n..]), s);
      } else {
        LongToken(prev, s);
        WrittenOver(t, s, |s|);
        assert s[..|s|] == s && Written(t, s[0]) + "" == Written(t, s[0]);
      }
    }
  }

  lemma {:induction false} EmptyOver()
    ensures Over("", "")
  {
  }

  // ---- running the scanner twice ----

  function Rest(alnum: char -> bool, prev: bool, s: string): string
    requires s != ""
  {
    var n := Length(First(prev, s));
    if n > |s| then "" else Strip(alnum, WordChar(alnum, s[n - 1]), s[n..])
  }

  lemma {:induction false} Unfold(alnum: char -> bool, prev: bool, s: string)
    requires s != ""
    ensures Strip(alnum, prev, s) == Written(First(prev, s), s[0]) + Rest(alnum, prev, s)
  {
  }

  /** The first output character is the text's first, or a space. */
  lemma {:induction false} FirstOut(alnum: char -> bool, prev: bool, s: string)
    requires s != ""
    ensures Strip(alnum, prev, s) != "" && (Strip(alnum, prev, s)[0] == s[0] || Strip(alnum, prev, s)[0] == ' ')
    ensures First(prev, s).Keep? ==> Strip(alnum, prev, s) == [s[0]] + Strip(alnum, WordChar(alnum, s[0]), s[1..])
    ensures s[0] != '"' && Strip(alnum, prev, s)[0] != ' ' ==> First(prev, s).Keep?
  {
    Unfold(alnum, prev, s);
    hide First, WordChar, Strip;
  }

  lemma {:induction false} SecondWritten(t: Token, c: char, r: string)
    requires t.Quoted? ==> t.length >= 2
    ensures Length(t) > 1 ==> (Written(t, c) + r)[1] != '\''
  {
  }

  /** The second output character is a quote mark only where the text has one. */
  lemma {:induction false} SecondOut(alnum: char -> bool, prev: bool, s: string)
    requires |Strip(alnum, prev, s)| > 1 && Strip(alnum, prev, s)[1] == '\''
    ensures |s| > 1 && s[1] == '\''
  {
    hide First, WordChar;
    if s != "" {
      var t, o := First(prev, s), Strip(alnum, prev, s);
      Unfold(alnum, prev, s);
      SecondWritten(t, s[0], Rest(alnum, prev, s));
      hide Strip, Rest, Written;
      FirstOut(alnum, prev, s);
      if t.Keep? {
        assert o[1] == Strip(alnum, WordChar(alnum, s[0]), s[1..])[0];
        RestNonEmpty(alnum, WordChar(alnum, s[0]), s[1..]);
        FirstOut(alnum, WordChar(alnum, s[0]), s[1..]);
      }
    }
  }

  lemma {:induction false} RestNonEmpty(alnum: char -> bool, prev: bool, s: string)
    ensures Strip(alnum, prev, s) != "" ==> s != ""
  {
  }

  lemma {:induction false} HashQuoteCons(s: string)
    requires s != ""
    ensures s[0] == '"' ==> HashQuote(s) == Some(0)
    ensures s[0] != '"' && s[0] != '#' ==> HashQuote(s) == None
    ensures s[0] == '#' ==> HashQuote(s).Some? == HashQuote(s[1..]).Some?
  {
    if s[0] == '#' && Hashes(s) < |s| { assert s[Hashes(s)] == s[1..][Hashes(s[1..])]; }
  }

  /** Blanking never makes an opening of a raw string. */
  lemma {:induction false} HashQuoteThere(alnum: char -> bool, prev: bool, s: string)
    requires HashQuote(Strip(alnum, prev, s)).Some?
    ensures HashQuote(s).Some?
    decreases |s|
  {
    hide First, WordChar, HashQuote;
    if s != "" {
      var o := Strip(alnum, prev, s);
      FirstOut(alnum, prev, s);
      HashQuoteCons(o);
      HashQuoteCons(s);
      if s[0] == '#' {
        assert o[1..] == Strip(alnum, WordChar(alnum, s[0]), s[1..]);
        HashQuoteThere(alnum, WordChar(alnum, s[0]), s[1..]);
      }
    } else {
      EmptyNoHashQuote();
    }
  }

  lemma {:induction false} EmptyNoHashQuote()
    ensures HashQuote("").None?
  {
  }

  lemma {:induction false} RawOpeningThere(alnum: char -> bool, s: string)
    requires s != "" && RawHead(s[0]) && RawOpening([s[0]] + Strip(alnum, true, s[1..])).Some?
    ensures RawOpening(s).Some?
  {
    var r := Strip(alnum, true, s[1..]);
    var o := [s[0]] + r;
    hide First, HashQuote;
    assert o[1..] == r;
    if s[0] == 'r' {
      HashQuoteThere(alnum, true, s[1..]);
    } else {
      assert r != "" && r[0] == 'r';
      RestNonEmpty(alnum, true, s[1..]);
      FirstOut(alnum, true, s[1..]);
      assert o[2..] == r[1..] == Strip(alnum, WordChar(alnum, 'r'), s[2..]);
      HashQuoteThere(alnum, WordChar(alnum, 'r'), s[2..]);
    }
  }

  /** What makes the first character start a token. */
  predicate Opens(prev: bool, s: string)
    requires s != ""
  {
    (RawHead(s[0]) && !prev && RawOpening(s).Some?) || s[0] == '"'
    || (s[0] == '/' && |s| > 1 && (s[1] == '/' || s[1] == '*'))
    || (s[0] == '\'' && |s| > 1 && (s[1] == '\\' || (|s| > 2 && s[2] == '\'')))
  }

  lemma {:induction false} KeepsIfNothingOpens(prev: bool, s: string)
    requires s != ""
    ensures First(prev, s).Keep? <==> !Opens(prev, s)
  {
    hide Through, Before, RawOpening, StringLength;
  }

  /** A character that was kept is kept again. */
  lemma {:induction false} StillKept(alnum: char -> bool, prev: bool, s: string)
    requires s != "" && First(prev, s).Keep? && (RawHead(s[0]) ==> WordChar(alnum, s[0]))
    ensures First(prev, [s[0]] + Strip(alnum, WordChar(alnum, s[0]), s[1..])).Keep?
  {
    var w := WordChar(alnum, s[0]);
    var r := Strip(alnum, w, s[1..]);
    var o := [s[0]] + r;
    KeepsIfNothingOpens(prev, s);
    KeepsIfNothingOpens(prev, o);
    hide First, Strip, RawOpening, WordChar;
    RestNonEmpty(alnum, w, s[1..]);
    if r != "" { FirstOut(alnum, w, s[1..]); }
    if RawHead(s[0]) && RawOpening(o).Some? { RawOpeningThere(alnum, s); }
    if s[0] == '\'' && |o| > 2 && o[2] == '\'' { SecondOut(alnum, w, s[1..]); }
  }

  lemma {:induction false} ThroughEnd(s: string, from: nat, terminator: string)
    requires from <= |s| && terminator != ""
    ensures Through(s, from, terminator) == |s|
      || (from < Through(s, from, terminator) && s[Through(s, from, terminator) - 1] == terminator[|terminator| - 1])
  {
    var at := Find(s[from..], terminator);
    if at.Some? {
      var k := |terminator| - 1;
      assert s[from..][at.value..at.value + |terminator|][k] == s[from + at.value + k];
    }
  }

  /** Behind a blanked token no word goes on, or a new line starts. */
  lemma {:induction false} BlankEnd(alnum: char -> bool, prev: bool, s: string)
    requires Sane(alnum) && s != "" && First(prev, s).Blank?
    ensures var n := First(prev, s).length; n == |s| || !WordChar(alnum, s[n - 1]) || s[n] == '\n'
  {
    hide Through, Before, StringLength;
    var raw := RawOpening(s);
    if raw.Some? {
      var terminator := "\"" + Repeat('#', raw.value.1);
      ThroughEnd(s, raw.value.0, terminator);
      assert terminator[|terminator| - 1] == '"' || terminator[|terminator| - 1] == '#';
    }
    if |s| > 1 {
      ThroughEnd(s, 2, "*/");
      ThroughEnd(s, 2, "'");
    }
    LoneQuote(s);
  }

  lemma {:induction false} LoneQuote(s: string)
    requires s != ""
    ensures StringLength(s, 1) < 2 ==> |s| == 1 && StringLength(s, 1) == 1
  {
  }

  lemma {:induction false} SpaceKept(prev: bool, s: string)
    requires s != "" && s[0] == ' '
    ensures First(prev, s).Keep?
  {
  }

  lemma {:induction false} OneSpaceKept(alnum: char -> bool, prev: bool, r: string)
    requires Sane(alnum)
    ensures Strip(alnum, prev, [' '] + r) == [' '] + Strip(alnum, false, r)
  {
    var s := [' '] + r;
    assert s[1..] == r && !WordChar(alnum, ' ');
    SpaceKept(prev, s);
    hide Strip, First, WordChar;
    FirstOut(alnum, prev, s);
  }

  lemma {:induction false} SpacesCons(n: nat, r: string)
    requires n > 0
    ensures Spaces(n) + r == [' '] + (Spaces(n - 1) + r)
  {
  }

  lemma {:induction false} SpacesKept(alnum: char -> bool, prev: bool, n: nat, r: string)
    requires Sane(alnum) && n > 0
    ensures Strip(alnum, prev, Spaces(n) + r) == Spaces(n) + Strip(alnum, false, r)
  {
    SpacesCons(n, r);
    SpacesCons(n, Strip(alnum, false, r));
    hide *;
    OneSpaceKept(alnum, prev, Spaces(n - 1) + r);
    if n > 1 {
      SpacesKept(alnum, false, n - 1, r);
    } else {
      NoSpaces(r);
      NoSpaces(Strip(alnum, false, r));
    }
  }

  lemma {:induction false} NoSpaces(r: string)
    ensures Spaces(0) + r == r
  {
  }

  lemma {:induction false} PrevIrrelevant(alnum: char -> bool, s: string)
    requires s == "" || !RawHead(s[0])
    ensures Strip(alnum, true, s) == Strip(alnum, false, s)
  {
    hide Through, Before, StringLength, RawOpening, WordChar;
  }

  lemma {:induction false} QuotesLength(s: string, n: nat, j: nat)
    requires 2 <= n <= |s| && s[..n] == Quotes(n) && 1 <= j < n
    ensures StringLength(s, j) == n
    decreases n - j
  {
    assert s[j] == s[..n][j];
    if j < n - 1 { QuotesLength(s, n, j + 1); }
  }

  lemma {:induction false} StringEnd(s: string, j: nat)
    requires 1 <= j <= |s|
    ensures StringLength(s, j) >= |s| || s[StringLength(s, j) - 1] == '"'
    decreases |s| - j
  {
    if j < |s| {
      if s[j] == '\\' {
        if j + 2 <= |s| { StringEnd(s, j + 2); }
      } else if s[j] != '"' {
        StringEnd(s, j + 1);
      }
    }
  }

  /** The three heads of raw strings are letters. */
  ghost predicate Letters(alnum: char -> bool) { alnum('b') && alnum('r') && alnum('c') }

  /** Running the scanner on its own output changes nothing. */
  lemma {:induction false} Idempotent(alnum: char -> bool, prev: bool, s: string)
    requires Sane(alnum) && Letters(alnum)
    ensures Strip(alnum, prev, Strip(alnum, prev, s)) == Strip(alnum, prev, s)
    decreases |s|
  {
    if s != "" {
      var t, r := First(prev, s), Rest(alnum, prev, s);
      var n := Length(t);
      Unfold(alnum, prev, s);
      if n <= |s| { Idempotent(alnum, WordChar(alnum, s[n - 1]), s[n..]); }
      match t {
        case Keep => AgainKept(alnum, prev, s);
        case Blank(k) => AgainBlank(alnum, prev, s);
        case Quoted(k) => AgainQuoted(alnum, prev, s);
      }
    }
  }

  lemma {:induction false} AgainKept(alnum: char -> bool, prev: bool, s: string)
    requires Letters(alnum) && s != "" && First(prev, s).Keep?
    requires Strip(alnum, WordChar(alnum, s[0]), Rest(alnum, prev, s)) == Rest(alnum, prev, s)
    ensures Strip(alnum, prev, Strip(alnum, prev, s)) == Strip(alnum, prev, s)
  {
    StillKept(alnum, prev, s);
    FirstOut(alnum, prev, s);
    var o := Strip(alnum, prev, s);
    assert o[1..] == Rest(alnum, prev, s);
    hide Strip, First, WordChar;
    FirstOut(alnum, prev, o);
  }

  lemma {:induction false} AgainBlank(alnum: char -> bool, prev: bool, s: string)
    requires Sane(alnum) && s != "" && First(prev, s).Blank?
    requires Strip(alnum, WordChar(alnum, s[First(prev, s).length - 1]), Rest(alnum, prev, s)) == Rest(alnum, prev, s)
    ensures Strip(alnum, prev, Strip(alnum, prev, s)) == Strip(alnum, prev, s)
  {
    var n, r := First(prev, s).length, Rest(alnum, prev, s);
    Unfold(alnum, prev, s);
    BlankEnd(alnum, prev, s);
    EmptyStrips(alnum);
    if n < |s| && s[n] == '\n' {
      FirstOut(alnum, WordChar(alnum, s[n - 1]), s[n..]);
      PrevIrrelevant(alnum, r);
    }
    hide Strip, First, WordChar;
    SpacesKept(alnum, prev, n, r);
  }

  lemma {:induction false} EmptyStrips(alnum: char -> bool)
    ensures forall p :: Strip(alnum, p, "") == ""
  {
  }

  lemma {:induction false} AgainQuoted(alnum: char -> bool, prev: bool, s: string)
    requires Sane(alnum) && s != "" && First(prev, s).Quoted?
    requires var n := First(prev, s).length;
      n <= |s| ==> Strip(alnum, WordChar(alnum, s[n - 1]), Rest(alnum, prev, s)) == Rest(alnum, prev, s)
    ensures Strip(alnum, prev, Strip(alnum, prev, s)) == Strip(alnum, prev, s)
  {
    var n, r, o := First(prev, s).length, Rest(alnum, prev, s), Strip(alnum, prev, s);
    Unfold(alnum, prev, s);
    assert o == Quotes(n) + r;
    QuotedRestIsStripped(alnum, prev, s);
    QuotedOut(o, n, r);
    hide *;
    QuotesLength(o, n, 1);
    QuotedAgain(prev, o);
    Unfold(alnum, prev, o);
    QuotedRest(alnum, prev, o);
    WrittenQuotes(n, o[0]);
  }

  lemma {:induction false} WrittenQuotes(n: nat, c: char)
    requires n >= 2
    ensures Written(Quoted(n), c) == Quotes(n) && Length(Quoted(n)) == n
  {
  }

  lemma {:induction false} QuotedOut(o: string, n: nat, r: string)
    requires n >= 2 && o == Quotes(n) + r
    ensures n <= |o| && o[..n] == Quotes(n) && o[n..] == r && o[0] == '"' && o[n - 1] == '"'
  {
  }

  /** Behind a string the scan goes on as behind no word. */
  lemma {:induction false} QuotedRestIsStripped(alnum: char -> bool, prev: bool, s: string)
    requires Sane(alnum) && s != "" && First(prev, s).Quoted?
    requires var n := First(prev, s).length;
      n <= |s| ==> Strip(alnum, WordChar(alnum, s[n - 1]), Rest(alnum, prev, s)) == Rest(alnum, prev, s)
    ensures Strip(alnum, false, Rest(alnum, prev, s)) == Rest(alnum, prev, s)
  {
    hide *;
    var n := First(prev, s).length;
    QuotedShape(prev, s);
    QuotedLength(prev, s);
    if n >= |s| {
      NothingBehind(alnum, prev, s);
      EmptyStrips(alnum);
    } else {
      StringEnd(s, 1);
      QuoteIsNoWord(alnum);
    }
  }

  lemma {:induction false} QuotedLength(prev: bool, s: string)
    requires s != "" && First(prev, s).Quoted?
    ensures Length(First(prev, s)) == First(prev, s).length
  {
    hide First;
  }

  lemma {:induction false} QuoteIsNoWord(alnum: char -> bool)
    requires Sane(alnum)
    ensures !WordChar(alnum, '"')
  {
  }

  lemma {:induction false} QuotedShape(prev: bool, s: string)
    requires s != "" && First(prev, s).Quoted?
    ensures First(prev, s).length == StringLength(s, 1)
  {
    hide RawOpening, StringLength, Through, Before;
  }

  lemma {:induction false} QuotedAgain(prev: bool, o: string)
    requires o != "" && o[0] == '"' && StringLength(o, 1) >= 2
    ensures First(prev, o) == Quoted(StringLength(o, 1))
  {
    hide RawOpening, StringLength, Through, Before;
  }

  lemma {:induction false} QuotedRest(alnum: char -> bool, prev: bool, o: string)
    requires Sane(alnum) && o != "" && First(prev, o).Quoted? && First(prev, o).length <= |o| && o[First(prev, o).length - 1] == '"'
    ensures Rest(alnum, prev, o) == Strip(alnum, false, o[First(prev, o).length..])
  {
    hide First, Strip;
  }

  lemma {:induction false} NothingBehind(alnum: char -> bool, prev: bool, s: string)
    requires s != "" && Length(First(prev, s)) >= |s|
    ensures Rest(alnum, prev, s) == ""
  {
    hide First;
  }

  // ---- the code ----

  function StripNoise(alnum: char -> bool, text: string): string { Strip(alnum, false, text) }

  predicate PrevWord(alnum: char -> bool, text: string, i: nat)
    requires i <= |text|
  {
    i > 0 && WordChar(alnum, text[i - 1])
  }

  /** The inner scan of a string literal. */
  method StringEndAt(text: string, i: nat) returns (j: nat)
    requires i < |text|
    ensures j == i + StringLength(text[i..], 1)
  {
    var s := text[i..];
    j := i + 1;
    while j < |text|
      invariant i + 1 <= j <= |text| + 1 && StringLength(s, j - i) == StringLength(s, 1)
    {
      assert s[j - i] == text[j];
      if text[j] == '\\' {
        j := j + 2;
        continue;
      }
      if text[j] == '"' {
        j := j + 1;
        return;
      }
      j := j + 1;
    }
  }

  /** The branches of the scanner: where the token ends and what is written. */
  method ScanToken(alnum: char -> bool, text: string, i: nat) returns (j: nat, piece: string)
    requires i < |text|
    ensures var t := First(PrevWord(alnum, text, i), text[i..]); j == i + Length(t) && piece == Written(t, text[i])
  {
    hide StringLength, RawOpening, Through, Before, PrevWord, Spaces, Quotes;
    var s := text[i..];
    var raw := if RawHead(text[i]) && !PrevWord(alnum, text, i) then RawOpening(s) else None;
    if raw.Some? {
      j := i + Through(s, raw.value.0, "\"" + Repeat('#', raw.value.1));
      piece := Spaces(j - i);
    } else if text[i] == '/' && i + 1 < |text| && text[i + 1] == '/' {
      j := i + Before(s, '\n');
      piece := Spaces(j - i);
    } else if text[i] == '/' && i + 1 < |text| && text[i + 1] == '*' {
      j := i + Through(s, 2, "*/");
      piece := Spaces(j - i);
    } else if text[i] == '"' {
      j := StringEndAt(text, i);
      piece := if j - i >= 2 then Quotes(j - i) else Spaces(j - i);
    } else if text[i] == '\'' && i + 1 < |text| && text[i + 1] == '\\' {
      j := i + Through(s, 2, "'");
      piece := Spaces(j - i);
    } else if text[i] == '\'' && i + 2 < |text| && text[i + 2] == '\'' {
      j := i + 3;
      piece := Spaces(3);
    } else {
      j := i + 1;
      piece := [text[i]];
    }
  }

  /** What the scanner writes from position `i` on. */
  function From(alnum: char -> bool, text: string, i: nat): string {
    if i > |text| then "" else Strip(alnum, PrevWord(alnum, text, i), text[i..])
  }

  /** The scanner: one token at a time, each blanked in place. */
  method Scan(alnum: char -> bool, text: string) returns (out: string)
    ensures out == StripNoise(alnum, text)
  {
    hide From, First, Written, PrevWord;
    out := "";
    var i := 0;
    FromStart(alnum, text);
    while i < |text|
      invariant 0 <= i && StripNoise(alnum, text) == out + From(alnum, text, i)
      decreases |text| - i
    {
      var j, piece := ScanToken(alnum, text, i);
      ScanStep(alnum, text, i);
      Concat(out, piece, From(alnum, text, j));
      out := out + piece;
      i := j;
    }
    FromEnd(alnum, text, i);
  }

  lemma {:induction false} FromStart(alnum: char -> bool, text: string)
    ensures "" + From(alnum, text, 0) == StripNoise(alnum, text)
  {
    hide Strip;
    assert text[0..] == text;
  }

  lemma {:induction false} FromEnd(alnum: char -> bool, text: string, i: nat)
    requires i >= |text|
    ensures From(alnum, text, i) == ""
  {
    hide PrevWord, First;
  }

  lemma {:induction false} ScanStep(alnum: char -> bool, text: string, i: nat)
    requires i < |text|
    ensures Length(First(PrevWord(alnum, text, i), text[i..])) > 0
    ensures From(alnum, text, i) == Written(First(PrevWord(alnum, text, i), text[i..]), text[i])
      + From(alnum, text, i + Length(First(PrevWord(alnum, text, i), text[i..])))
  {
    var s, prev := text[i..], PrevWord(alnum, text, i);
    TokenLength(prev, s);
    Unfold(alnum, prev, s);
    RestIsFrom(alnum, text, i);
    hide *;
    FromIs(alnum, text, i);
  }

  lemma {:induction false} TokenLength(prev: bool, s: string)
    requires s != ""
    ensures Length(First(prev, s)) > 0
  {
  }

  lemma {:induction false} FromIs(alnum: char -> bool, text: string, i: nat)
    ensures i <= |text| ==> From(alnum, text, i) == Strip(alnum, PrevWord(alnum, text, i), text[i..])
    ensures i > |text| ==> From(alnum, text, i) == ""
    ensures i < |text| ==> text[i..][0] == text[i]
  {
  }

  lemma {:induction false} PrevIs(alnum: char -> bool, text: string, i: nat, n: nat)
    requires i + n <= |text| && n > 0
    ensures PrevWord(alnum, text, i + n) == WordChar(alnum, text[i..][n - 1]) && text[i..][n..] == text[i + n..]
  {
    assert text[i..][n - 1] == text[i + n - 1];
  }

  lemma {:induction false} RestIs(alnum: char -> bool, prev: bool, s: string)
    requires s != ""
    ensures var n := Length(First(prev, s));
      n > 0 && Rest(alnum, prev, s) == if n > |s| then "" else Strip(alnum, WordChar(alnum, s[n - 1]), s[n..])
  {
    TokenLength(prev, s);
    hide First, Strip, WordChar;
  }

  lemma {:induction false} RestIsFrom(alnum: char -> bool, text: string, i: nat)
    requires i < |text|
    ensures Rest(alnum, PrevWord(alnum, text, i), text[i..])
      == From(alnum, text, i + Length(First(PrevWord(alnum, text, i), text[i..])))
  {
    hide *;
    var n := Length(First(PrevWord(alnum, text, i), text[i..]));
    RestIs(alnum, PrevWord(alnum, text, i), text[i..]);
    FromIs(alnum, text, i + n);
    if n <= |text[i..]| { PrevIs(alnum, text, i, n); }
  }

  lemma {:induction false} Concat(a: string, b: string, c: string)
    ensures a + (b + c) == a + b + c
  {
  }

  // ---- braces ----

  /** Open braces minus closed ones between two positions. */
  function Depth(s: string, from: nat, end: nat): int
    requires from <= end <= |s|
    decreases end
  {
    if from == end then 0
    else Depth(s, from, end - 1) + if s[end - 1] == '{' then 1 else if s[end - 1] == '}' then -1 else 0
  }

  datatype Block = NoBlock | Unclosed(opening: nat) | Closed(opening: nat, closing: nat)

  /** The block that follows `start`: its first brace, and the first position at
      which the depth is back to zero, if there is one. */
  method BodyOf(clean: string, start: nat) returns (b: Block)
    ensures b.NoBlock? ==> forall k :: start <= k < |clean| ==> clean[k] != '{'
    ensures !b.NoBlock? ==> start <= b.opening < |clean| && clean[b.opening] == '{'
    ensures !b.NoBlock? ==> forall k :: start <= k < b.opening ==> clean[k] != '{'
    ensures b.Closed? ==> b.opening < b.closing < |clean| && clean[b.closing] == '}' && Depth(clean, b.opening, b.closing + 1) == 0
    ensures b.Closed? ==> forall k :: b.opening < k <= b.closing ==> Depth(clean, b.opening, k) > 0
    ensures b.Unclosed? ==> forall k :: b.opening < k <= |clean| ==> Depth(clean, b.opening, k) > 0
  {
    var i := start;
    while i < |clean| && clean[i] != '{'
      invariant start <= i && forall k :: start <= k < i && k < |clean| ==> clean[k] != '{'
    {
      i := i + 1;
    }
    if i >= |clean| { return NoBlock; }
    var opening, depth := i, 0;
    while i < |clean|
      invariant opening <= i <= |clean| && depth == Depth(clean, opening, i)
      invariant forall k :: opening < k <= i ==> Depth(clean, opening, k) > 0
    {
      if clean[i] == '{' {
        depth := depth + 1;
      } else if clean[i] == '}' {
        depth := depth - 1;
        if depth == 0 { return Closed(opening, i); }
      }
      i := i + 1;
    }
    b := Unclosed(opening);
  }

  /** Open parentheses and brackets minus closed ones. */
  function Nesting(s: string, from: nat, end: nat): int
    requires from <= end <= |s|
    decreases end
  {
    if from == end then 0
    else
      var c := s[end - 1];
      Nesting(s, from, end - 1) + if c == '(' || c == '[' then 1 else if c == ')' || c == ']' then -1 else 0
  }

  predicate Ends(s: string, from: nat, k: nat)
    requires from <= k < |s|
  {
    (s[k] == '{' || s[k] == ';') && Nesting(s, from, k) <= 0
  }

  datatype SignatureEnd = BodyAt(index: nat) | DeclarationAt(index: nat) | NoEnd

  /** Where a signature ends: the first brace or semicolon outside every
      parenthesis and bracket. */
  method FindSignatureEnd(clean: string, start: nat) returns (e: SignatureEnd)
    requires start <= |clean|
    ensures e.NoEnd? ==> forall k :: start <= k < |clean| ==> !Ends(clean, start, k)
    ensures !e.NoEnd? ==> start <= e.index < |clean| && Ends(clean, start, e.index) && (e.BodyAt? <==> clean[e.index] == '{')
    ensures !e.NoEnd? ==> forall k :: start <= k < e.index ==> !Ends(clean, start, k)
  {
    var depth := 0;
    var i := start;
    while i < |clean|
      invariant start <= i <= |clean| && depth == Nesting(clean, start, i)
      invariant forall k :: start <= k < i ==> !Ends(clean, start, k)
    {
      var c := clean[i];
      if c == '(' || c == '[' {
        depth := depth + 1;
      } else if c == ')' || c == ']' {
        depth := depth - 1;
      } else if depth <= 0 {
        if c == '{' { return BodyAt(i); }
        if c == ';' { return DeclarationAt(i); }
      }
      i := i + 1;
    }
    e := NoEnd;
  }
}