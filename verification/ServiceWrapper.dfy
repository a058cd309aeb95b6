/** The Windows wrapper script: printed with doubled quotes and percent signs,
    and read back to find the home it starts the daemon for. */
module ServiceWrapper {
  import opened Outcomes
  import opened Text
  import opened ServiceTask
  import opened ServiceUnit

  function CmdEscape(s: string): string { Replace(Replace(s, "%", "%%"), "\"", "\"\"") }

  function CmdUnescape(s: string): string { Replace(Replace(s, "\"\"", "\""), "%%", "%") }

  const HOME_PREFIX := "set \"ORGASMIC_HOME="

  function WrapperLines(spec: ServiceSpec): seq<string> {
    ["@echo off",
     "set \"PATH=" + CmdEscape(spec.path) + "\"",
     HOME_PREFIX + CmdEscape(spec.home) + "\"",
     "set \"ORGASMIC_LOG_MIRROR=off\"",
     "cd /d \"" + CmdEscape(spec.cwd) + "\"",
     "\"" + CmdEscape(spec.exe) + "\" serve >> \"" + CmdEscape(spec.stdout) + "\" 2>> \"" + CmdEscape(spec.stderr) + "\""]
  }

  function CrLines(lines: seq<string>): seq<string> {
    seq(|lines|, i requires 0 <= i < |lines| => lines[i] + "\r")
  }

  function RenderWrapper(spec: ServiceSpec): string { Unlines(CrLines(WrapperLines(spec))) }

  function WrapperLineHome(line: string): seq<string> {
    var t := Trim(line);
    if HOME_PREFIX <= t && |t| > |HOME_PREFIX| && t[|t| - 1] == '"' then [CmdUnescape(t[|HOME_PREFIX|..|t| - 1])] else []
  }

  function WrapperHomes(lines: seq<string>): seq<string> {
    if lines == [] then [] else WrapperLineHome(lines[0]) + WrapperHomes(lines[1..])
  }

  function ParseWrapper(raw: string): Parsed<string> { ExactlyOneHome(WrapperHomes(Lines(raw))) }

  method ParseWindowsWrapperOwnerHome(raw: string) returns (r: Parsed<string>)
    ensures r == ParseWrapper(raw)
  {
    hide Lines, WrapperLineHome;
    var lines, homes: seq<string> := Lines(raw), [];
    assert lines[0..] == lines;
    for n := 0 to |lines|
      invariant WrapperHomes(lines) == homes + WrapperHomes(lines[n..])
    {
      assert lines[n..][0] == lines[n] && lines[n..][1..] == lines[n + 1..];
      homes := homes + WrapperLineHome(lines[n]);
    }
    assert lines[|lines|..] == [];
    r := ExactlyOneHome(homes);
  }

  /** The text with every character of `S` written twice. */
  function Twice(S: set<char>, s: string): string {
    if s == "" then "" else (if s[0] in S then [s[0], s[0]] else [s[0]]) + Twice(S, s[1..])
  }

  lemma {:induction false} DoublePass(S: set<char>, c: char, s: string)
    requires c !in S
    ensures Replace(Twice(S, s), [c], [c, c]) == Twice(S + {c}, s)
  {
    if s != "" {
      var d, rest := s[0], Twice(S, s[1..]);
      DoublePass(S, c, s[1..]);
      if d == c {
        ReplaceHit(rest, [c], [c, c]);
      } else {
        var head := if d in S then [d, d] else [d];
        assert forall i :: 0 <= i < |head| ==> head[i] == d;
        forall i | 0 <= i < |head| ensures !Occurs(head + rest, [c], i) {
          assert (head + rest)[i..i + 1] == [d];
        }
        ReplaceSkip(head, rest, [c], [c, c]);
      }
    }
  }

  lemma {:induction false} HalvePass(S: set<char>, c: char, s: string)
    requires c in S
    ensures Replace(Twice(S, s), [c, c], [c]) == Twice(S - {c}, s)
  {
    if s != "" {
      var d, rest := s[0], Twice(S, s[1..]);
      HalvePass(S, c, s[1..]);
      if d == c {
        ReplaceHit(rest, [c, c], [c]);
      } else {
        var head := if d in S then [d, d] else [d];
        forall i | 0 <= i < |head| ensures !Occurs(head + rest, [c, c], i) {
          assert (head + rest)[i] == d;
          assert i + 2 <= |head + rest| ==> (head + rest)[i..i + 2][0] == d;
        }
        ReplaceSkip(head, rest, [c, c], [c]);
      }
    }
  }

  lemma {:induction false} TwiceNothing(s: string)
    ensures Twice({}, s) == s
  {
    if s != "" { TwiceNothing(s[1..]); }
  }

  /** Halving the runs of quotes and percent signs undoes doubling them. */
  lemma CmdRoundTrip(s: string)
    ensures CmdUnescape(CmdEscape(s)) == s
  {
    TwiceNothing(s);
    var percent, both := {'%'}, {'%', '"'};
    DoublePass({}, '%', s);
    assert {} + {'%'} == percent;
    DoublePass(percent, '"', s);
    assert percent + {'"'} == both;
    HalvePass(both, '"', s);
    assert both - {'"'} == percent;
    HalvePass(percent, '%', s);
    assert percent - {'%'} == {};
  }

  lemma CmdEscapeNewline(s: string)
    requires '\n' !in s
    ensures '\n' !in CmdEscape(s)
  {
    TwiceNothing(s);
    DoublePass({}, '%', s);
    DoublePass({'%'}, '"', s);
    assert {} + {'%'} == {'%'};
    TwiceNewline({'%'} + {'"'}, s);
  }

  lemma {:induction false} TwiceNewline(S: set<char>, s: string)
    requires '\n' !in s
    ensures '\n' !in Twice(S, s)
  {
    if s != "" {
      assert s[0] in s;
      TwiceNewline(S, s[1..]);
    }
  }

  /** A line that differs from the home assignment within its prefix. */
  lemma OtherLine(line: string, k: nat)
    requires k < |HOME_PREFIX| && line != "" && !IsSpace(line[0]) && k < |line| && line[k] != HOME_PREFIX[k]
    ensures WrapperLineHome(line) == []
  {
    var t := Trim(line);
    assert TrimStart(line) == line;
    assert t == line[..|t|];
    assert k < |t| ==> t[k] == line[k];
  }

  lemma HomeLine(home: string)
    ensures WrapperLineHome(HOME_PREFIX + CmdEscape(home) + "\"") == [home]
  {
    hide CmdEscape, CmdUnescape;
    var line := HOME_PREFIX + CmdEscape(home) + "\"";
    assert line[0] == 's' && line[|line| - 1] == '"';
    assert TrimStart(line) == line && TrimEnd(line) == line;
    assert line[|HOME_PREFIX|..|line| - 1] == CmdEscape(home);
    CmdRoundTrip(home);
  }

  lemma WrapperLinesHomes(spec: ServiceSpec)
    ensures WrapperHomes(WrapperLines(spec)) == [spec.home]
  {
    hide CmdEscape, CmdUnescape, WrapperLineHome;
    var l := WrapperLines(spec);
    OtherLine(l[0], 0);
    OtherLine(l[1], 5);
    HomeLine(spec.home);
    OtherLine(l[3], 14);
    OtherLine(l[4], 0);
    OtherLine(l[5], 0);
    SixLines(l);
  }

  lemma SixLines(l: seq<string>)
    requires |l| == 6
    requires forall i :: 0 <= i < 6 && i != 2 ==> WrapperLineHome(l[i]) == []
    ensures WrapperHomes(l) == WrapperLineHome(l[2])
  {
    hide WrapperLineHome;
    assert l == [l[0], l[1], l[2], l[3], l[4], l[5]];
    assert WrapperHomes([l[5]]) == [];
    assert WrapperHomes([l[4], l[5]]) == [];
    assert WrapperHomes([l[3], l[4], l[5]]) == [];
    assert WrapperHomes([l[2], l[3], l[4], l[5]]) == WrapperLineHome(l[2]);
    assert WrapperHomes([l[1], l[2], l[3], l[4], l[5]]) == WrapperLineHome(l[2]);
  }

  lemma WrapperLinesShape(spec: ServiceSpec)
    requires SingleLine(spec)
    ensures forall i :: 0 <= i < |WrapperLines(spec)| ==> '\n' !in WrapperLines(spec)[i]
  {
    hide CmdEscape;
    CmdEscapeNewline(spec.path);
    CmdEscapeNewline(spec.home);
    CmdEscapeNewline(spec.cwd);
    CmdEscapeNewline(spec.exe);
    CmdEscapeNewline(spec.stdout);
    CmdEscapeNewline(spec.stderr);
  }

  /** For every spec whose fields hold no line feed the parser returns the home
      the wrapper was printed for; a blank home is refused. */
  lemma WrapperRoundTrip(spec: ServiceSpec)
    requires SingleLine(spec)
    ensures ParseWrapper(RenderWrapper(spec)) == if Blank(spec.home) then Err(Empty) else Ok(spec.home)
  {
    hide WrapperLines, Lines, Unlines, Blank, WrapperHomes;
    var lines := WrapperLines(spec);
    var printed := CrLines(lines);
    WrapperLinesShape(spec);
    forall i | 0 <= i < |printed| ensures '\n' !in printed[i] && StripCr(printed[i]) == lines[i] {
      assert '\n' !in lines[i];
    }
    LinesUnlines(printed);
    assert Lines(RenderWrapper(spec)) == lines;
    WrapperLinesHomes(spec);
  }
}
