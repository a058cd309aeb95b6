/** What the printed definitions say, field by field, and how the tokens that
    are never printed are read. */
module ServiceFields {
  import opened Outcomes
  import opened Text
  import opened Utf8
  import ServiceXml
  import opened ServiceTask
  import opened ServiceUnit
  import opened ServiceWrapper

  // ---- the systemd unit ----

  /** The directive is on exactly one line, with this value. */
  ghost predicate Sole(lines: seq<string>, key: string, value: string) {
    exists i :: 0 <= i < |lines| && IsDirective(lines[i], key, value) && forall j :: 0 <= j < |lines| && j != i ==> !(key <= lines[j])
  }

  predicate IsDirective(line: string, key: string, value: string) { line == key + value }

  lemma {:induction false} Unlike(line: string, key: string, k: nat)
    requires k < |key| && (k >= |line| || line[k] != key[k])
    ensures !(key <= line)
  {
  }

  /** An assignment is no other directive. */
  lemma {:induction false} UnlikeAssignment(key: string)
    requires |key| > 1 && (key[0] != 'E' || key[1] != 'n')
    ensures forall pair: (string, string) :: !(key <= EnvLine(pair.0, pair.1))
  {
    forall pair: (string, string) ensures !(key <= EnvLine(pair.0, pair.1)) {
      Unlike(EnvLine(pair.0, pair.1), key, if key[0] != 'E' then 0 else 1);
    }
  }

  lemma {:induction false} SoleInUnit(spec: ServiceSpec, i: nat, key: string, value: string)
    requires |key| > 1 && (key[0] != 'E' || key[1] != 'n')
    requires i < 15 && (if i < 8 then UnitHead(spec)[i] else UnitTail(spec)[i - 8]) == key + value
    requires forall j :: 0 <= j < 8 && j != i ==> !(key <= UnitHead(spec)[j])
    requires forall j :: 0 <= j < 7 && j + 8 != i ==> !(key <= UnitTail(spec)[j])
    ensures Sole(UnitLines(spec), key, value)
  {
    UnlikeAssignment(key);
    hide UnitEnvironment, EnvLine;
    var h, e, t := UnitHead(spec), EnvLines(UnitEnvironment(spec)), UnitTail(spec);
    assert |h| == 8 && |t| == 7;
    hide UnitHead, UnitTail;
    var lines, at := h + e + t, if i < 8 then i else i + |e|;
    assert IsDirective(lines[at], key, value);
    forall j | 0 <= j < |lines| && j != at ensures !(key <= lines[j]) {
      if j < 8 { assert lines[j] == h[j]; } else if j >= 8 + |e| { assert lines[j] == t[j - 8 - |e|]; } else { assert lines[j] == e[j - 8]; }
    }
  }

  /** Every other field of the unit is on one line: the command line, whose
      first token is the executable, the working directory and the two logs. */
  lemma {:induction false} UnitSays(spec: ServiceSpec)
    ensures Sole(UnitLines(spec), "ExecStart=", QuoteArg(spec.exe) + " serve")
    ensures Sole(UnitLines(spec), "WorkingDirectory=", spec.cwd)
    ensures Sole(UnitLines(spec), "StandardOutput=append:", spec.stdout)
    ensures Sole(UnitLines(spec), "StandardError=append:", spec.stderr)
    ensures Sole(UnitLines(spec), "Restart=", "on-failure")
  {
    hide QuoteArg, Sole, UnitLines;
    SaysCommand(spec);
    SaysDirectory(spec);
    SaysOutput(spec);
    SaysError(spec);
    SaysRestart(spec);
  }

  lemma {:induction false} SaysCommand(spec: ServiceSpec)
    ensures Sole(UnitLines(spec), "ExecStart=", QuoteArg(spec.exe) + " serve")
  {
    hide QuoteArg, Sole, UnitLines;
    var h, t, key := UnitHead(spec), UnitTail(spec), "ExecStart=";
    Unlike(h[0], key, 0);
    Unlike(h[1], key, 0);
    Unlike(h[2], key, 0);
    Unlike(h[3], key, 0);
    Unlike(h[4], key, 0);
    Unlike(h[5], key, 0);
    Unlike(h[7], key, 0);
    Unlike(t[0], key, 0);
    Unlike(t[1], key, 0);
    Unlike(t[2], key, 0);
    Unlike(t[3], key, 0);
    Unlike(t[4], key, 0);
    Unlike(t[5], key, 0);
    Unlike(t[6], key, 0);
    SoleInUnit(spec, 6, key, QuoteArg(spec.exe) + " serve");
  }

  lemma {:induction false} SaysDirectory(spec: ServiceSpec)
    ensures Sole(UnitLines(spec), "WorkingDirectory=", spec.cwd)
  {
    hide QuoteArg, Sole, UnitLines;
    var h, t, key := UnitHead(spec), UnitTail(spec), "WorkingDirectory=";
    Unlike(h[0], key, 0);
    Unlike(h[1], key, 0);
    Unlike(h[2], key, 0);
    Unlike(h[3], key, 0);
    Unlike(h[4], key, 0);
    Unlike(h[5], key, 0);
    Unlike(h[6], key, 0);
    Unlike(t[0], key, 0);
    Unlike(t[1], key, 0);
    Unlike(t[2], key, 0);
    Unlike(t[3], key, 0);
    Unlike(t[4], key, 0);
    Unlike(t[5], key, 0);
    Unlike(t[6], key, 1);
    SoleInUnit(spec, 7, key, spec.cwd);
  }

  lemma {:induction false} SaysOutput(spec: ServiceSpec)
    ensures Sole(UnitLines(spec), "StandardOutput=append:", spec.stdout)
  {
    hide QuoteArg, Sole, UnitLines;
    var h, t, key := UnitHead(spec), UnitTail(spec), "StandardOutput=append:";
    Unlike(h[0], key, 0);
    Unlike(h[1], key, 0);
    Unlike(h[2], key, 0);
    Unlike(h[3], key, 0);
    Unlike(h[4], key, 0);
    Unlike(h[5], key, 0);
    Unlike(h[6], key, 0);
    Unlike(h[7], key, 0);
    Unlike(t[1], key, 8);
    Unlike(t[2], key, 0);
    Unlike(t[3], key, 0);
    Unlike(t[4], key, 0);
    Unlike(t[5], key, 0);
    Unlike(t[6], key, 0);
    SoleInUnit(spec, 8, key, spec.stdout);
  }

  lemma {:induction false} SaysError(spec: ServiceSpec)
    ensures Sole(UnitLines(spec), "StandardError=append:", spec.stderr)
  {
    hide QuoteArg, Sole, UnitLines;
    var h, t, key := UnitHead(spec), UnitTail(spec), "StandardError=append:";
    Unlike(h[0], key, 0);
    Unlike(h[1], key, 0);
    Unlike(h[2], key, 0);
    Unlike(h[3], key, 0);
    Unlike(h[4], key, 0);
    Unlike(h[5], key, 0);
    Unlike(h[6], key, 0);
    Unlike(h[7], key, 0);
    Unlike(t[0], key, 8);
    Unlike(t[2], key, 0);
    Unlike(t[3], key, 0);
    Unlike(t[4], key, 0);
    Unlike(t[5], key, 0);
    Unlike(t[6], key, 0);
    SoleInUnit(spec, 9, key, spec.stderr);
  }

  lemma {:induction false} SaysRestart(spec: ServiceSpec)
    ensures Sole(UnitLines(spec), "Restart=", "on-failure")
  {
    hide QuoteArg, Sole, UnitLines;
    var h, t, key := UnitHead(spec), UnitTail(spec), "Restart=";
    Unlike(h[0], key, 0);
    Unlike(h[1], key, 0);
    Unlike(h[2], key, 0);
    Unlike(h[3], key, 0);
    Unlike(h[4], key, 0);
    Unlike(h[5], key, 0);
    Unlike(h[6], key, 0);
    Unlike(h[7], key, 0);
    Unlike(t[0], key, 0);
    Unlike(t[1], key, 0);
    Unlike(t[3], key, 7);
    Unlike(t[4], key, 0);
    Unlike(t[5], key, 0);
    Unlike(t[6], key, 0);
    SoleInUnit(spec, 10, key, "on-failure");
  }

  /** The quoted assignment is on some line of its own. */
  ghost predicate Assigns(lines: seq<string>, token: string) {
    exists j :: 0 <= j < |lines| && AssignsOn(lines[j], token)
  }

  predicate AssignsOn(line: string, token: string) {
    "Environment=" <= line && line[12..] != "" && !IsSpace(line[12]) && TakeToken(line[12..]) == Ok((token, ""))
  }

  lemma {:induction false} EnvLineAssigns(key: string, value: string, token: string)
    ensures AssignsOn(EnvLine(key, value), token) <==> token == key + "=" + value
  {
    hide QuoteArg, TakeToken;
    var line, quoted := EnvLine(key, value), QuoteArg(key + "=" + value);
    QuotedToken(key + "=" + value);
    QuoteArgShape(key + "=" + value);
    assert line[12..] == quoted && line[12] == quoted[0];
  }

  lemma {:induction false} QuietAssignsNothing(line: string, token: string)
    requires Quiet(line)
    ensures !AssignsOn(line, token)
  {
    hide TakeToken;
    assert "Environment="[0] == 'E' && "Environment="[1] == 'n';
  }

  /** The assignments of the unit, read back: the home, the path, the mirror
      switch, and the scan timeout if there is one, and nothing else. */
  lemma {:induction false} UnitAssigns(spec: ServiceSpec, token: string)
    requires SingleLine(spec)
    ensures Assigns(UnitLines(spec), token)
      <==> (token == "ORGASMIC_HOME=" + spec.home || token == "PATH=" + spec.path || token == "ORGASMIC_LOG_MIRROR=off"
            || (spec.projectScanTimeout.Some? && token == "ORGASMIC_PROJECT_SCAN_TIMEOUT_SECS=" + spec.projectScanTimeout.value))
  {
    hide UnitHead, UnitTail, UnitEnvironment, EnvLine, TakeToken, Quiet, AssignsOn;
    var h, env, t := UnitHead(spec), UnitEnvironment(spec), UnitTail(spec);
    HeadLines(spec);
    TailLines(spec);
    forall j | 0 <= j < |h| ensures !AssignsOn(h[j], token) { QuietAssignsNothing(h[j], token); }
    forall j | 0 <= j < |t| ensures !AssignsOn(t[j], token) { QuietAssignsNothing(t[j], token); }
    forall j | 0 <= j < |env| ensures AssignsOn(EnvLines(env)[j], token) <==> token == env[j].0 + "=" + env[j].1 {
      EnvLineAssigns(env[j].0, env[j].1, token);
    }
    AssignsParts(h, EnvLines(env), t, token);
    EnvironmentTokens(spec, token);
  }

  lemma {:induction false} AssignsParts(h: seq<string>, e: seq<string>, t: seq<string>, token: string)
    requires (forall j :: 0 <= j < |h| ==> !AssignsOn(h[j], token)) && forall j :: 0 <= j < |t| ==> !AssignsOn(t[j], token)
    ensures Assigns(h + e + t, token) <==> Assigns(e, token)
  {
    hide AssignsOn;
    var lines := h + e + t;
    if j :| 0 <= j < |e| && AssignsOn(e[j], token) { assert lines[|h| + j] == e[j]; }
    if j :| 0 <= j < |lines| && AssignsOn(lines[j], token) {
      assert |h| <= j < |h| + |e| && lines[j] == e[j - |h|];
    }
  }

  lemma {:induction false} EnvironmentTokens(spec: ServiceSpec, token: string)
    ensures (exists j :: 0 <= j < |UnitEnvironment(spec)| && TokenOf(UnitEnvironment(spec)[j]) == token)
      <==> (token == "ORGASMIC_HOME=" + spec.home || token == "PATH=" + spec.path || token == "ORGASMIC_LOG_MIRROR=off"
            || (spec.projectScanTimeout.Some? && token == "ORGASMIC_PROJECT_SCAN_TIMEOUT_SECS=" + spec.projectScanTimeout.value))
  {
    var env := UnitEnvironment(spec);
    assert "ORGASMIC_HOME" + "=" == "ORGASMIC_HOME=" && "PATH" + "=" == "PATH=";
    assert "ORGASMIC_LOG_MIRROR" + "=" + "off" == "ORGASMIC_LOG_MIRROR=off";
    assert "ORGASMIC_PROJECT_SCAN_TIMEOUT_SECS" + "=" == "ORGASMIC_PROJECT_SCAN_TIMEOUT_SECS=";
    assert TokenOf(env[0]) == "ORGASMIC_HOME=" + spec.home && TokenOf(env[1]) == "PATH=" + spec.path;
    assert TokenOf(env[|env| - 1]) == "ORGASMIC_LOG_MIRROR=off";
    if spec.projectScanTimeout.Some? {
      assert TokenOf(env[2]) == "ORGASMIC_PROJECT_SCAN_TIMEOUT_SECS=" + spec.projectScanTimeout.value;
    }
  }

  function TokenOf(pair: (string, string)): string { pair.0 + "=" + pair.1 }

  /** The command line, read back: the executable and the word `serve`. */
  lemma {:induction false} CommandTokens(exe: string)
    ensures TakeToken(QuoteArg(exe) + " serve") == Ok((exe, " serve"))
  {
    QuotedBefore(exe, " serve");
  }

  /** A quoted argument is undone wherever it stands. */
  lemma {:induction false} QuotedBefore(s: string, rest: string)
    ensures TakeToken(QuoteArg(s) + rest) == Ok((s, rest))
  {
    QuotePasses(s);
    var t := QuoteArg(s) + rest;
    assert t == "\"" + (Slashed(s) + ("\"" + rest));
    SlashedCloses(s, rest);
    assert t[1..] == Slashed(s) + ("\"" + rest);
    assert t[1..][..|Slashed(s)|] == Slashed(s);
    assert t[1..][|Slashed(s)| + 1..] == rest;
    UnescapeSlashed(s);
    DecodeEncode(s);
    hide UnescapeBytes, CloseQuote, Slashed, QuoteArg, Decode;
  }

  // ---- tokens that are never printed ----

  /** The sixteen digits in both cases. */
  lemma {:induction false} HexDigitIs(c: char)
    requires IsHex(c)
    ensures c == "0123456789abcdef"[HexDigit(c)] || c == "0123456789ABCDEF"[HexDigit(c)]
  {
  }

  /** An escaped byte stands for itself, before anything. */
  lemma {:induction false} HexEscape(high: char, low: char, rest: string)
    requires IsHex(high) && IsHex(low)
    ensures UnescapeBytes(['\\', 'x', high, low] + rest) == Prepend([HexDigit(high) * 16 + HexDigit(low)], UnescapeBytes(rest))
  {
    var s := ['\\', 'x', high, low] + rest;
    assert s[4..] == rest;
  }

  /** Any other escaped character stands for itself, and so does a backslash at
      the end. */
  lemma {:induction false} PlainEscape(c: char, rest: string)
    requires c != 'x'
    ensures UnescapeBytes(['\\', c] + rest) == Prepend(EncodeChar(c), UnescapeBytes(rest))
    ensures UnescapeBytes("\\") == Prepend(EncodeChar('\\'), Ok([]))
  {
    var s := ['\\', c] + rest;
    assert s[2..] == rest;
  }

  /** An escaped byte without two digits is malformed. */
  lemma {:induction false} BadHex(rest: string)
    requires |rest| < 2 || !IsHex(rest[0]) || !IsHex(rest[1])
    ensures UnescapeBytes(['\\', 'x'] + rest) == Err(Malformed)
  {
    var s := ['\\', 'x'] + rest;
    assert |rest| >= 2 ==> s[2] == rest[0] && s[3] == rest[1];
  }

  /** So is a quoted token whose quote is never closed. */
  lemma {:induction false} OpenQuote(s: string)
    ensures TakeToken("\"" + Slashed(s)) == Err(Malformed)
  {
    SlashedNeverCloses(s);
    var t := "\"" + Slashed(s);
    assert t[1..] == Slashed(s);
  }

  lemma {:induction false} SlashedNeverCloses(s: string)
    ensures CloseQuote(Slashed(s)).None?
  {
    if s != "" {
      SlashedNeverCloses(s[1..]);
      var t := Slashed(s);
      if s[0] == '\\' || s[0] == '"' {
        assert t[0] == '\\' && t[2..] == Slashed(s[1..]);
      } else {
        assert t[0] == s[0] && t[1..] == Slashed(s[1..]);
      }
    }
  }

  /** White space before an assignment and around a line of the wrapper does not
      change what is read. */
  lemma {:induction false} Indented(space: string, line: string)
    requires (forall c :: c in space ==> IsSpace(c)) && line != "" && !IsSpace(line[0])
    ensures LineHomes(space + line) == LineHomes(line)
  {
    SpaceTrimmed(space, line);
    SpaceTrimmed("", line);
    assert "" + line == line;
    hide TokenHomes, TrimStart;
  }

  lemma {:induction false} SpaceTrimmed(space: string, line: string)
    requires (forall c :: c in space ==> IsSpace(c)) && line != "" && !IsSpace(line[0])
    ensures TrimStart(space + line) == line
  {
    if space != "" {
      assert (space + line)[1..] == space[1..] + line && (space + line)[0] == space[0];
      SpaceTrimmed(space[1..], line);
    } else {
      assert space + line == line;
    }
    hide IsSpace;
  }

  /** The values of a tag, pair by pair: the text in front opens no tag, the
      content holds no end tag. */
  lemma {:induction false} TagPairs(front: string, content: string, back: string, open: string, close: string)
    requires open != "" && close != ""
    requires forall i :: 0 <= i < |front| ==> !Occurs(front + (open + (content + (close + back))), open, i)
    requires forall i :: 0 <= i < |content| ==> !Occurs(content + (close + back), close, i)
    ensures TagValues(front + (open + (content + (close + back))), open, close)
         == [ServiceXml.XmlUnescape(content)] + TagValues(back, open, close)
  {
    hide *;
    var inner := content + (close + back);
    FoundAt(front, open, inner);
    FoundAt(content, close, back);
    SplitAround(front, open, inner);
    SplitAround(content, close, back);
    TagValuesStep(front + (open + inner), open, close, |front|, |content|);
  }

  lemma {:induction false} SplitAround(a: string, p: string, b: string)
    ensures (a + (p + b))[..|a|] == a && (a + (p + b))[|a| + |p|..] == b
  {
  }

  lemma {:induction false} FoundAt(a: string, p: string, b: string)
    requires forall i :: 0 <= i < |a| ==> !Occurs(a + (p + b), p, i)
    ensures Find(a + (p + b), p) == Some(|a|)
  {
    var s := a + (p + b);
    assert s[|a|..|a| + |p|] == p;
    FindsEarliest(s, p, |a|);
  }

  /** Without an opening tag there is no value. */
  lemma {:induction false} NoTag(s: string, open: string, close: string)
    requires open != "" && close != "" && forall i :: !Occurs(s, open, i)
    ensures TagValues(s, open, close) == []
  {
    hide Occurs;
  }

  /** A plain word is a token up to the next white space. */
  lemma {:induction false} PlainToken(word: string, rest: string)
    requires word != "" && word[0] != '"' && '\\' !in word && forall c :: c in word ==> !IsSpace(c)
    requires rest == "" || IsSpace(rest[0])
    ensures TakeToken(word + rest) == Ok((word, rest))
  {
    var s := word + rest;
    SpaceBehind(word, rest);
    assert s[..|word|] == word && s[|word|..] == rest && s[0] == word[0];
    PlainBytes(word);
    DecodeEncode(word);
    hide UnescapeBytes, FindSpace, Decode;
  }

  lemma {:induction false} SpaceBehind(word: string, rest: string)
    requires (forall c :: c in word ==> !IsSpace(c)) && (rest == "" || IsSpace(rest[0]))
    ensures FindSpace(word + rest) == |word|
  {
    var s := word + rest;
    forall i | 0 <= i < |word| ensures !IsSpace(s[i]) { assert s[i] == word[i]; }
    if |word| < |s| { assert s[|word|] == rest[0]; }
    hide IsSpace;
  }

  lemma {:induction false} PlainBytes(word: string)
    requires '\\' !in word
    ensures UnescapeBytes(word) == Ok(Encode(word))
  {
    if word != "" { PlainBytes(word[1..]); }
  }

  /** Several assignments on one line are all read, in order. */
  lemma {:induction false} NextToken(token: string, rest: string)
    ensures TokenHomes(QuoteArg(token) + rest) == Prepend(HomeOfToken(token), TokenHomes(rest))
  {
    hide QuoteArg, TakeToken, HomeOfToken;
    QuotedBefore(token, rest);
    QuoteArgShape(token);
    var s := QuoteArg(token) + rest;
    assert s[0] == '"' && TrimStart(s) == s;
  }

  // ---- the other definitions ----

  predicate EscapedAs(v: string, value: string) { CmdUnescape(v) == value }

  /** The wrapper script sets the path, changes to the directory and then starts
      the executable with both logs, each value escaped so that halving gives it
      back. */
  lemma {:induction false} WrapperSays(spec: ServiceSpec) returns (path: string, cwd: string, exe: string, out: string, err: string)
    ensures EscapedAs(path, spec.path) && EscapedAs(cwd, spec.cwd) && EscapedAs(exe, spec.exe)
    ensures EscapedAs(out, spec.stdout) && EscapedAs(err, spec.stderr)
    ensures var lines := WrapperLines(spec);
      |lines| == 6 && lines[0] == "@echo off" && lines[1] == "set \"PATH=" + path + "\"" && lines[3] == "set \"ORGASMIC_LOG_MIRROR=off\""
      && lines[4] == "cd /d \"" + cwd + "\"" && lines[5] == "\"" + exe + "\" serve >> \"" + out + "\" 2>> \"" + err + "\""
  {
    path, cwd, exe, out, err := CmdEscape(spec.path), CmdEscape(spec.cwd), CmdEscape(spec.exe), CmdEscape(spec.stdout), CmdEscape(spec.stderr);
    CmdRoundTrip(spec.path);
    CmdRoundTrip(spec.cwd);
    CmdRoundTrip(spec.exe);
    CmdRoundTrip(spec.stdout);
    CmdRoundTrip(spec.stderr);
    hide CmdEscape, CmdUnescape;
  }

  /** The task definition names the working directory in its own tag. */
  lemma {:induction false} TaskSays(cwd: string, wrapper: string) returns (before: string, x: string, after: string)
    ensures RenderTask(cwd, wrapper) == before + ("<WorkingDirectory>" + (x + ("</WorkingDirectory>" + after)))
    ensures ServiceXml.XmlUnescape(x) == cwd && '<' !in x
  {
    x := ServiceXml.XmlEscape(cwd);
    ServiceXml.UnescapeInvertsEscape(cwd);
    EscapedNoOpen(cwd);
    var rest := COMMAND_OPEN + (ServiceXml.XmlEscape(wrapper) + COMMAND_CLOSE);
    before := Head() + rest + "\n      ";
    after := "\n" + AFTER_CWD[1];
    hide Head, ServiceXml.XmlEscape;
    TailIs(cwd);
    hide Tail;
    assert RenderTask(cwd, wrapper) == Head() + rest + Tail(cwd);
  }

  lemma {:induction false} TailIs(cwd: string)
    ensures Tail(cwd) == "\n      " + ("<WorkingDirectory>" + (ServiceXml.XmlEscape(cwd) + ("</WorkingDirectory>" + ("\n" + AFTER_CWD[1]))))
  {
    BeforeIs();
    AfterIs();
    var x, end := ServiceXml.XmlEscape(cwd), "\n" + AFTER_CWD[1];
    hide ServiceXml.XmlEscape, Concat;
    Regroup("\n      ", "<WorkingDirectory>", x, "</WorkingDirectory>", end);
  }

  lemma {:induction false} BeforeIs()
    ensures Concat(BEFORE_CWD) == "\n      " + "<WorkingDirectory>"
  {
    assert BEFORE_CWD[1..] == [];
    OnePiece(BEFORE_CWD[0]);
    assert BEFORE_CWD == [BEFORE_CWD[0]];
  }

  lemma {:induction false} OnePiece(s: string)
    ensures Concat([s]) == s
  {
    assert [s][1..] == [];
  }

  lemma {:induction false} TwoPieces(s: string, t: string)
    ensures Concat([s, t]) == s + t
  {
    OnePiece(t);
    assert [s, t][1..] == [t];
  }

  lemma {:induction false} AfterIs()
    ensures |AFTER_CWD| == 2 && Concat(AFTER_CWD) == "</WorkingDirectory>" + ("\n" + AFTER_CWD[1])
  {
    TwoPieces(AFTER_CWD[0], AFTER_CWD[1]);
    hide Concat;
    assert AFTER_CWD == [AFTER_CWD[0], AFTER_CWD[1]];
    assert AFTER_CWD[0] == "</WorkingDirectory>" + "\n";
  }

  lemma {:induction false} Regroup(a: string, b: string, c: string, d: string, e: string)
    ensures ((a + b) + c) + (d + e) == a + (b + (c + (d + e)))
  {
  }
}
