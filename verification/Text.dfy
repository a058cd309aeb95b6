/** Outcome types shared by every component. */
module Outcomes {
  datatype Option<+T> = None | Some(value: T)
  datatype Result<+T, +E> = Ok(value: T) | Err(error: E)
}

/** The string operations the components call: substring search, the one-pass
    non-overlapping `replace`, trimming, and line and word splitting. A string
    is a sequence of Unicode scalar values. */
module Text {
  import opened Outcomes

  /** `p` starts at index `i` of `s`. */
  predicate Occurs(s: string, p: string, i: int) {
    0 <= i && i + |p| <= |s| && s[i..i + |p|] == p
  }

  ghost predicate Contains(s: string, p: string) {
    exists i :: Occurs(s, p, i)
  }

  lemma PrefixOccurs(s: string, p: string)
    ensures p <= s <==> Occurs(s, p, 0)
  {
  }

  lemma TailOccurs(s: string, p: string, n: nat, i: nat)
    requires n <= |s|
    ensures Occurs(s[n..], p, i) <==> Occurs(s, p, n + i)
  {
    assert n + i + |p| <= |s| ==> s[n..][i..i + |p|] == s[n + i..n + i + |p|];
  }

  /** The first index at which `p` starts. */
  function Find(s: string, p: string): (r: Option<nat>)
    ensures r.Some? ==> r.value + |p| <= |s|
    ensures r.Some? ==> Occurs(s, p, r.value) && forall i :: 0 <= i < r.value ==> !Occurs(s, p, i)
    ensures r.None? ==> !Contains(s, p)
  {
    FindFrom(s, p, 0)
  }

  lemma {:induction false} OneChar(s: string, c: char, i: nat)
    ensures Occurs(s, [c], i) <==> i < |s| && s[i] == c
  {
    if i < |s| { assert s[i..i + 1] == [s[i]]; }
  }

  lemma FindsEarliest(s: string, p: string, j: nat)
    requires Occurs(s, p, j)
    ensures Find(s, p).Some? && Find(s, p).value <= j
  {
  }

  function FindFrom(s: string, p: string, from: nat): (r: Option<nat>)
    requires from <= |s|
    requires forall i :: 0 <= i < from ==> !Occurs(s, p, i)
    ensures r.Some? ==> Occurs(s, p, r.value) && forall i :: 0 <= i < r.value ==> !Occurs(s, p, i)
    ensures r.None? ==> !Contains(s, p)
    decreases |s| - from
  {
    if Occurs(s, p, from) then Some(from)
    else if from == |s| then None
    else FindFrom(s, p, from + 1)
  }

  /** One left-to-right pass that rewrites every non-overlapping match. */
  function Replace(s: string, pat: string, rep: string): string
    requires pat != ""
  {
    if s == "" then ""
    else if pat <= s then rep + Replace(s[|pat|..], pat, rep)
    else [s[0]] + Replace(s[1..], pat, rep)
  }

  /** A pass for a one-character pattern distributes over concatenation. */
  lemma {:induction false} ReplaceCharConcat(a: string, b: string, c: char, rep: string)
    ensures Replace(a + b, [c], rep) == Replace(a, [c], rep) + Replace(b, [c], rep)
  {
    if a == "" {
      assert a + b == b;
    } else {
      assert (a + b)[1..] == a[1..] + b;
      ReplaceCharConcat(a[1..], b, c, rep);
      assert ([c] <= a + b) == (a[0] == c) == ([c] <= a);
      assert Replace(a, [c], rep) == (if a[0] == c then rep else [a[0]]) + Replace(a[1..], [c], rep);
    }
  }

  /** A pass leaves alone a prefix in which no match starts. */
  lemma {:induction false} ReplaceSkip(a: string, b: string, pat: string, rep: string)
    requires pat != ""
    requires forall i :: 0 <= i < |a| ==> !Occurs(a + b, pat, i)
    ensures Replace(a + b, pat, rep) == a + Replace(b, pat, rep)
  {
    if a == "" {
      assert a + b == b;
    } else {
      var s := a + b;
      assert s[1..] == a[1..] + b;
      assert !(pat <= s) by {
        if pat <= s { assert s[0..0 + |pat|] == pat; assert Occurs(s, pat, 0); }
      }
      forall i | 0 <= i < |a[1..]| ensures !Occurs(a[1..] + b, pat, i) {
        if Occurs(a[1..] + b, pat, i) {
          assert s[i + 1..i + 1 + |pat|] == s[1..][i..i + |pat|];
          assert Occurs(s, pat, i + 1);
        }
      }
      ReplaceSkip(a[1..], b, pat, rep);
    }
  }

  /** A pass rewrites a match at the front and goes on behind it. */
  lemma ReplaceHit(b: string, pat: string, rep: string)
    requires pat != ""
    ensures Replace(pat + b, pat, rep) == rep + Replace(b, pat, rep)
  {
    assert pat <= pat + b;
    assert (pat + b)[|pat|..] == b;
  }

  lemma ReplaceNone(s: string, pat: string, rep: string)
    requires pat != "" && !Contains(s, pat)
    ensures Replace(s, pat, rep) == s
  {
    assert s + "" == s;
    ReplaceSkip(s, "", pat, rep);
  }

  function LowerChar(c: char): char { if 'A' <= c <= 'Z' then (c as int + 32) as char else c }

  /** ASCII lower case. */
  function Lower(s: string): (r: string)
    ensures |r| == |s| && forall i :: 0 <= i < |s| ==> r[i] == LowerChar(s[i])
  {
    seq(|s|, i requires 0 <= i < |s| => LowerChar(s[i]))
  }

  /** The White_Space property of the Unicode character database. */
  predicate IsSpace(c: char) {
    var u := c as int;
    9 <= u <= 13 || u == 0x20 || u == 0x85 || u == 0xA0 || u == 0x1680 || 0x2000 <= u <= 0x200A
    || u == 0x2028 || u == 0x2029 || u == 0x202F || u == 0x205F || u == 0x3000
  }

  function TrimStart(s: string): (r: string)
    ensures |r| <= |s| && r == s[|s| - |r|..] && (r != "" ==> !IsSpace(r[0]))
  {
    if s != "" && IsSpace(s[0]) then TrimStart(s[1..]) else s
  }

  function TrimEnd(s: string): (r: string)
    ensures |r| <= |s| && r == s[..|r|] && (r != "" ==> !IsSpace(r[|r| - 1]))
    ensures forall i :: |r| <= i < |s| ==> IsSpace(s[i])
  {
    if s != "" && IsSpace(s[|s| - 1]) then TrimEnd(s[..|s| - 1]) else s
  }

  function Trim(s: string): string { TrimEnd(TrimStart(s)) }

  predicate Blank(s: string) { Trim(s) == "" }

  /** The pieces between the separators, at least one. */
  function Split(s: string, sep: char): (r: seq<string>)
    ensures |r| >= 1
  {
    if s == "" then [""]
    else
      var rest := Split(s[1..], sep);
      if s[0] == sep then [""] + rest else [[s[0]] + rest[0]] + rest[1..]
  }

  function Join(parts: seq<string>, sep: string): string {
    if parts == [] then ""
    else if |parts| == 1 then parts[0]
    else parts[0] + sep + Join(parts[1..], sep)
  }

  /** Splitting at a separator undoes joining pieces that do not hold it. */
  lemma {:induction false} SplitJoin(parts: seq<string>, sep: char)
    requires parts != [] && forall p :: p in parts ==> sep !in p
    ensures Split(Join(parts, [sep]), sep) == parts
  {
    assert parts[0] in parts;
    if |parts| == 1 {
      SplitAtom(parts[0], "", sep);
      assert parts[0] + "" == parts[0];
    } else {
      var tail := Join(parts[1..], [sep]);
      SplitJoin(parts[1..], sep);
      SplitFront(parts[0], tail, sep);
      assert Join(parts, [sep]) == parts[0] + ([sep] + tail);
      assert parts == [parts[0]] + parts[1..];
    }
  }

  lemma SplitFront(a: string, b: string, sep: char)
    requires sep !in a
    ensures Split(a + ([sep] + b), sep) == [a] + Split(b, sep)
  {
    SplitSep(b, sep);
    SplitAtom(a, [sep] + b, sep);
    assert a + "" == a;
  }

  lemma SplitSep(b: string, sep: char)
    ensures Split([sep] + b, sep) == [""] + Split(b, sep)
  {
    assert ([sep] + b)[1..] == b;
  }

  lemma {:induction false} SplitAtom(a: string, b: string, sep: char)
    requires sep !in a
    ensures Split(a + b, sep) == [a + Split(b, sep)[0]] + Split(b, sep)[1..]
  {
    var r := Split(b, sep);
    if a == "" {
      assert a + b == b && a + r[0] == r[0];
      assert r == [r[0]] + r[1..];
    } else {
      assert a[0] in a;
      assert (a + b)[1..] == a[1..] + b;
      SplitAtom(a[1..], b, sep);
      assert [a[0]] + (a[1..] + r[0]) == a + r[0];
    }
  }

  /** `\n` and `\r\n` line ends; a final empty line is dropped. */
  function Lines(s: string): seq<string> {
    var parts := Split(s, '\n');
    var kept := if parts[|parts| - 1] == "" then parts[..|parts| - 1] else parts;
    seq(|kept|, i requires 0 <= i < |kept| => if i < |parts| - 1 then StripCr(kept[i]) else kept[i])
  }

  function StripCr(s: string): string {
    if s != "" && s[|s| - 1] == '\r' then s[..|s| - 1] else s
  }

  /** Text made of lines, each closed by `\n`. */
  function Unlines(lines: seq<string>): string {
    if lines == [] then "" else lines[0] + "\n" + Unlines(lines[1..])
  }

  lemma {:induction false} UnlinesIsJoin(lines: seq<string>)
    ensures Unlines(lines) == Join(lines + [""], "\n")
  {
    if lines != [] {
      assert (lines + [""])[1..] == lines[1..] + [""];
      UnlinesIsJoin(lines[1..]);
    }
  }

  /** Reading back newline-free lines returns them, without a trailing `\r`. */
  lemma LinesUnlines(lines: seq<string>)
    requires forall l :: l in lines ==> '\n' !in l
    ensures |Lines(Unlines(lines))| == |lines|
    ensures forall i :: 0 <= i < |lines| ==> Lines(Unlines(lines))[i] == StripCr(lines[i])
  {
    UnlinesIsJoin(lines);
    var parts := lines + [""];
    SplitJoin(parts, '\n');
    assert parts[|parts| - 1] == "" && parts[..|parts| - 1] == lines;
  }
}
