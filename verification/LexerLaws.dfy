/** What the scanner does to each kind of token: one law for each, about the
    whole output. Together with the empty text they say what the output is. */
module LexerLaws {
  import opened Outcomes
  import opened Text
  import opened Lexer

  /** The first occurrence from `from` on. */
  ghost predicate FirstAt(s: string, p: string, from: nat, k: nat) {
    from <= k && Occurs(s, p, k) && forall i :: from <= i < k ==> !Occurs(s, p, i)
  }

  ghost predicate NoneFrom(s: string, p: string, from: nat) { forall i :: from <= i ==> !Occurs(s, p, i) }

  lemma {:induction false} ThroughFirst(s: string, p: string, from: nat, k: nat)
    requires from <= |s| && FirstAt(s, p, from, k)
    ensures Through(s, from, p) == k + |p| && k + |p| <= |s|
  {
    var rest := s[from..];
    assert Occurs(rest, p, k - from);
    forall i | 0 <= i < k - from ensures !Occurs(rest, p, i) { assert !Occurs(s, p, from + i); }
  }

  lemma {:induction false} ThroughNone(s: string, p: string, from: nat)
    requires from <= |s| && NoneFrom(s, p, from)
    ensures Through(s, from, p) == |s|
  {
    forall i ensures !Occurs(s[from..], p, i) { assert Occurs(s[from..], p, i) ==> Occurs(s, p, from + i); }
  }

  /** Behind a blanked token the scan goes on as at the start of a text. */
  lemma {:induction false} BlankLaw(alnum: char -> bool, prev: bool, s: string, n: nat)
    requires Sane(alnum) && s != "" && First(prev, s) == Blank(n)
    ensures n <= |s| && Strip(alnum, prev, s) == Spaces(n) + Strip(alnum, false, s[n..])
  {
    Unfold(alnum, prev, s);
    BlankEnd(alnum, prev, s);
    hide First, Strip, WordChar;
    if n < |s| && s[n] == '\n' { PrevIrrelevant(alnum, s[n..]); }
    if n == |s| { EmptyStrips(alnum); }
  }

  /** A line comment: all of it, up to the line feed, which stays. */
  lemma {:induction false} LineComment(alnum: char -> bool, prev: bool, s: string, k: nat)
    requires Sane(alnum) && "//" <= s && k <= |s|
    requires (forall i :: 0 <= i < k ==> s[i] != '\n') && (k < |s| ==> s[k] == '\n')
    ensures Strip(alnum, prev, s) == Spaces(k) + Strip(alnum, false, s[k..])
  {
    assert s[0] == '/' && s[1] == '/';
    BeforeIs(s, '\n', k);
    hide Strip;
    BlankLaw(alnum, prev, s, k);
  }

  lemma {:induction false} BeforeIs(s: string, c: char, k: nat)
    requires k <= |s| && (forall i :: 0 <= i < k ==> s[i] != c) && (k < |s| ==> s[k] == c)
    ensures Before(s, c) == k
  {
    if k < |s| { assert Occurs(s, [c], k); }
    forall i | 0 <= i < k ensures !Occurs(s, [c], i) { assert s[i] != c; }
  }

  /** A block comment, up to and including the first terminator behind its
      opening. */
  lemma {:induction false} BlockComment(alnum: char -> bool, prev: bool, s: string, k: nat)
    requires Sane(alnum) && "/*" <= s && FirstAt(s, "*/", 2, k)
    ensures Strip(alnum, prev, s) == Spaces(k + 2) + Strip(alnum, false, s[k + 2..])
  {
    assert s[0] == '/' && s[1] == '*';
    ThroughFirst(s, "*/", 2, k);
    hide Strip, Through;
    BlankLaw(alnum, prev, s, k + 2);
  }

  lemma {:induction false} OpenBlockComment(alnum: char -> bool, prev: bool, s: string)
    requires Sane(alnum) && "/*" <= s && NoneFrom(s, "*/", 2)
    ensures Strip(alnum, prev, s) == Spaces(|s|)
  {
    assert s[0] == '/' && s[1] == '*';
    ThroughNone(s, "*/", 2);
    hide Through;
    BlankLaw(alnum, prev, s, |s|);
  }

  // ---- raw strings ----

  /** A raw string opens here: its prefix, its hash marks and a quote. */
  predicate RawAt(s: string, p: string, h: nat) {
    (p == "r" || p == "br" || p == "cr") && p + Repeat('#', h) + "\"" <= s
  }

  function RawEnd(h: nat): (e: string)
    ensures |e| == 1 + h
  {
    "\"" + Repeat('#', h)
  }

  lemma {:induction false} HashesAre(t: string, h: nat)
    requires h < |t| && t[h] != '#' && forall i :: 0 <= i < h ==> t[i] == '#'
    ensures Hashes(t) == h
  {
    if h > 0 { HashesAre(t[1..], h - 1); }
  }

  lemma {:induction false} RawOpens(s: string, p: string, h: nat)
    requires RawAt(s, p, h)
    ensures RawOpening(s) == Some((|p| + h + 1, h)) && RawHead(s[0]) && |p| + h + 1 <= |s|
  {
    var opening := p + Repeat('#', h) + "\"";
    assert s[..|opening|] == opening;
    var t := s[|p|..];
    assert s[|p| - 1] == opening[|p| - 1] == 'r';
    forall i | 0 <= i < h ensures t[i] == '#' { assert t[i] == opening[|p| + i]; }
    assert t[h] == opening[|p| + h] == '"';
    HashesAre(t, h);
  }

  lemma {:induction false} OnlyRawOpens(s: string)
    requires RawOpening(s).Some?
    ensures exists p, h :: RawAt(s, p, h)
  {
    var b := s[0] == 'b' || s[0] == 'c';
    var p := if b then [s[0]] + "r" else "r";
    var t := s[|p|..];
    var h := Hashes(t);
    var opening := p + Repeat('#', h) + "\"";
    forall i | 0 <= i < |opening| ensures s[i] == opening[i] {
      if i >= |p| { assert s[i] == t[i - |p|]; }
    }
    assert s[..|opening|] == opening;
    assert RawAt(s, p, h);
  }

  /** A raw string not behind a word character, up to and including the first
      quote behind its opening that is followed by as many hash marks. */
  lemma {:induction false} RawString(alnum: char -> bool, s: string, p: string, h: nat, k: nat)
    requires Sane(alnum) && RawAt(s, p, h) && FirstAt(s, RawEnd(h), |p| + h + 1, k)
    ensures Strip(alnum, false, s) == Spaces(k + 1 + h) + Strip(alnum, false, s[k + 1 + h..])
  {
    hide *;
    RawFirst(s, p, h);
    ThroughFirst(s, RawEnd(h), |p| + h + 1, k);
    BlankLaw(alnum, false, s, k + 1 + h);
  }

  lemma {:induction false} OpenRawString(alnum: char -> bool, s: string, p: string, h: nat)
    requires Sane(alnum) && RawAt(s, p, h) && NoneFrom(s, RawEnd(h), |p| + h + 1)
    ensures Strip(alnum, false, s) == Spaces(|s|)
  {
    hide *;
    RawFirst(s, p, h);
    ThroughNone(s, RawEnd(h), |p| + h + 1);
    NothingStrips(alnum, s);
    BlankLaw(alnum, false, s, |s|);
  }

  lemma {:induction false} NothingStrips(alnum: char -> bool, s: string)
    ensures Spaces(|s|) + Strip(alnum, false, s[|s|..]) == Spaces(|s|)
  {
    EmptyStrips(alnum);
    hide Strip;
    assert s[|s|..] == "";
  }

  lemma {:induction false} RawFirst(s: string, p: string, h: nat)
    requires RawAt(s, p, h)
    ensures s != "" && |p| + h + 1 <= |s| && First(false, s) == Blank(Through(s, |p| + h + 1, RawEnd(h)))
  {
    RawOpens(s, p, h);
    hide RawOpening, Through, Before, StringLength, RawAt;
  }

  // ---- strings ----

  /** How many backslashes stand in a row before `k`, inside the literal. */
  function Backslashes(s: string, k: nat): nat
    requires k <= |s|
  {
    if k > 1 && s[k - 1] == '\\' then Backslashes(s, k - 1) + 1 else 0
  }

  /** A quote that no backslash escapes. */
  predicate ClosesAt(s: string, k: nat) { 1 <= k < |s| && s[k] == '"' && Backslashes(s, k) % 2 == 0 }

  lemma {:induction false} LengthToQuote(s: string, j: nat, k: nat)
    requires 1 <= j <= k && ClosesAt(s, k) && Backslashes(s, j) % 2 == 0 && forall i :: j <= i < k ==> !ClosesAt(s, i)
    ensures StringLength(s, j) == k + 1
    decreases k - j
  {
    if j < k {
      assert !ClosesAt(s, j);
      if s[j] == '\\' {
        assert Backslashes(s, j + 1) % 2 == 1;
        if j + 1 < k { assert Backslashes(s, j + 2) % 2 == 0; }
        LengthToQuote(s, j + 2, k);
      } else {
        LengthToQuote(s, j + 1, k);
      }
    }
  }

  lemma {:induction false} LengthToEnd(s: string, j: nat)
    requires 1 <= j <= |s| && Backslashes(s, j) % 2 == 0 && forall i :: j <= i < |s| ==> !ClosesAt(s, i)
    ensures StringLength(s, j) == |s| + Backslashes(s, |s|) % 2
    decreases |s| - j
  {
    if j < |s| {
      assert !ClosesAt(s, j);
      if s[j] == '\\' {
        assert Backslashes(s, j + 1) % 2 == 1;
        if j + 2 <= |s| {
          assert Backslashes(s, j + 2) % 2 == 0;
          LengthToEnd(s, j + 2);
        }
      } else {
        LengthToEnd(s, j + 1);
      }
    }
  }

  lemma {:induction false} QuotedLaw(alnum: char -> bool, prev: bool, s: string, n: nat)
    requires Sane(alnum) && s != "" && First(prev, s) == Quoted(n)
    ensures Strip(alnum, prev, s) == Quotes(n) + if n < |s| && s[n - 1] == '"' then Strip(alnum, false, s[n..]) else Rest(alnum, prev, s)
    ensures n >= |s| ==> Strip(alnum, prev, s) == Quotes(n)
  {
    Unfold(alnum, prev, s);
    hide First, Strip;
    if n < |s| && s[n - 1] == '"' { QuotedRest(alnum, prev, s); }
    if n >= |s| { NothingBehind(alnum, prev, s); }
  }

  /** A string up to and including its first unescaped quote; only the two
      quotes are left of it. */
  lemma {:induction false} StringLiteral(alnum: char -> bool, prev: bool, s: string, k: nat)
    requires Sane(alnum) && s != "" && s[0] == '"' && ClosesAt(s, k) && forall i :: 0 <= i < k ==> !ClosesAt(s, i)
    ensures Strip(alnum, prev, s) == "\"" + Spaces(k - 1) + "\"" + Strip(alnum, false, s[k + 1..])
  {
    LengthToQuote(s, 1, k);
    QuotedAgain(prev, s);
    hide First, Strip, StringLength;
    QuotedLaw(alnum, prev, s, k + 1);
    if k + 1 == |s| { EmptyStrips(alnum); }
  }

  /** A string that is not closed: all of it is blanked between two quotes, which
      takes one character more when the text ends within an escape; a single
      quote at the end of the text is blanked itself. */
  lemma {:induction false} OpenString(alnum: char -> bool, prev: bool, s: string)
    requires Sane(alnum) && s != "" && s[0] == '"' && forall i :: 0 <= i < |s| ==> !ClosesAt(s, i)
    ensures |s| == 1 ==> Strip(alnum, prev, s) == " "
    ensures |s| > 1 ==> Strip(alnum, prev, s) == "\"" + Spaces(|s| - 2 + Backslashes(s, |s|) % 2) + "\""
  {
    LengthToEnd(s, 1);
    if |s| > 1 {
      QuotedAgain(prev, s);
      hide First, Strip, StringLength;
      QuotedLaw(alnum, prev, s, |s| + Backslashes(s, |s|) % 2);
    } else {
      assert First(prev, s) == Blank(1);
      BlankLaw(alnum, prev, s, 1);
      assert Spaces(1) == " ";
    }
  }

  // ---- character literals ----

  /** An escaped character literal, up to and including the first quote mark
      behind its backslash. */
  lemma {:induction false} EscapedChar(alnum: char -> bool, prev: bool, s: string, k: nat)
    requires Sane(alnum) && "'\\" <= s && FirstAt(s, "'", 2, k)
    ensures Strip(alnum, prev, s) == Spaces(k + 1) + Strip(alnum, false, s[k + 1..])
  {
    assert s[0] == '\'' && s[1] == '\\';
    ThroughFirst(s, "'", 2, k);
    hide Strip, Through;
    BlankLaw(alnum, prev, s, k + 1);
  }

  lemma {:induction false} OpenEscapedChar(alnum: char -> bool, prev: bool, s: string)
    requires Sane(alnum) && "'\\" <= s && NoneFrom(s, "'", 2)
    ensures Strip(alnum, prev, s) == Spaces(|s|)
  {
    assert s[0] == '\'' && s[1] == '\\';
    ThroughNone(s, "'", 2);
    hide Through;
    BlankLaw(alnum, prev, s, |s|);
  }

  lemma {:induction false} PlainChar(alnum: char -> bool, prev: bool, s: string)
    requires Sane(alnum) && |s| > 2 && s[0] == '\'' && s[1] != '\\' && s[2] == '\''
    ensures Strip(alnum, prev, s) == Spaces(3) + Strip(alnum, false, s[3..])
  {
    assert First(prev, s) == Blank(3);
    hide Strip, First;
    BlankLaw(alnum, prev, s, 3);
  }

  // ---- everything else ----

  /** A character that starts no literal and no comment stays. */
  lemma {:induction false} OtherKept(alnum: char -> bool, prev: bool, s: string)
    requires s != "" && s[0] != '"' && !("//" <= s) && !("/*" <= s) && !("'\\" <= s)
    requires !(|s| > 2 && s[0] == '\'' && s[2] == '\'') && (prev || forall p, h :: !RawAt(s, p, h))
    ensures Strip(alnum, prev, s) == [s[0]] + Strip(alnum, alnum(s[0]) || s[0] == '_', s[1..])
  {
    if !prev && RawOpening(s).Some? { OnlyRawOpens(s); }
    if |s| > 1 { assert [s[0], s[1]] <= s; }
    hide Strip, RawOpening;
    KeepsIfNothingOpens(prev, s);
    FirstOut(alnum, prev, s);
  }

  /** An example: comment prose does not reach the scans that follow. */
  lemma {:induction false} ProseIsBlanked(alnum: char -> bool)
    requires Sane(alnum)
    ensures StripNoise(alnum, "// run() {") == Spaces(10)
  {
    var s := "// run() {";
    LineComment(alnum, false, s, 10);
    assert s[10..] == "";
    EmptyStrips(alnum);
  }
}
