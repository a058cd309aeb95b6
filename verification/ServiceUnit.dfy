/** The systemd unit: printed with quoted assignments, and read back through a
    tokenizer and an unescaper to find the home that owns the service. */
module ServiceUnit {
  import opened Outcomes
  import opened Text
  import opened Utf8
  import opened ServiceTask

  datatype ServiceSpec = ServiceSpec(
    exe: string, home: string, cwd: string, stdout: string, stderr: string,
    path: string, projectScanTimeout: Option<string>)

  type Parsed<T> = Result<T, HomeError>

  // ---- printing ----

  function QuoteArg(value: string): string {
    "\"" + Replace(Replace(value, "\\", "\\\\"), "\"", "\\\"") + "\""
  }

  function QuoteEnv(key: string, value: string): string { QuoteArg(key + "=" + value) }

  function EnvLine(key: string, value: string): string { "Environment=" + QuoteEnv(key, value) }

  function UnitHead(spec: ServiceSpec): seq<string> {
    ["[Unit]", "Description=orgasmic daemon", "After=network.target", "", "[Service]", "Type=simple",
     "ExecStart=" + QuoteArg(spec.exe) + " serve", "WorkingDirectory=" + spec.cwd]
  }

  function UnitEnvironment(spec: ServiceSpec): seq<(string, string)> {
    [("ORGASMIC_HOME", spec.home), ("PATH", spec.path)]
    + (if spec.projectScanTimeout.Some? then [("ORGASMIC_PROJECT_SCAN_TIMEOUT_SECS", spec.projectScanTimeout.value)] else [])
    + [("ORGASMIC_LOG_MIRROR", "off")]
  }

  function UnitTail(spec: ServiceSpec): seq<string> {
    ["StandardOutput=append:" + spec.stdout, "StandardError=append:" + spec.stderr, "Restart=on-failure", "RestartSec=2",
     "", "[Install]", "WantedBy=default.target"]
  }

  function EnvLines(env: seq<(string, string)>): seq<string> {
    seq(|env|, i requires 0 <= i < |env| => EnvLine(env[i].0, env[i].1))
  }

  function UnitLines(spec: ServiceSpec): seq<string> {
    UnitHead(spec) + EnvLines(UnitEnvironment(spec)) + UnitTail(spec)
  }

  function RenderUnit(spec: ServiceSpec): string { Unlines(UnitLines(spec)) }

  // ---- parsing: the functions the loops below are proved against ----

  predicate IsHex(c: char) { '0' <= c <= '9' || 'a' <= c <= 'f' || 'A' <= c <= 'F' }

  function HexDigit(c: char): (d: int)
    requires IsHex(c)
    ensures 0 <= d < 16
  {
    if c <= '9' then c as int - '0' as int else if c <= 'F' then c as int - 'A' as int + 10 else c as int - 'a' as int + 10
  }

  /** `\xHH` is one byte, any other `\c` is the character `c`, and a final
      backslash stands for itself. */
  function UnescapeBytes(s: string): Parsed<seq<Byte>> {
    if s == "" then Ok([])
    else if s[0] == '\\' && |s| > 1 && s[1] == 'x' then
      if |s| >= 4 && IsHex(s[2]) && IsHex(s[3]) then Prepend([HexDigit(s[2]) * 16 + HexDigit(s[3])], UnescapeBytes(s[4..]))
      else Err(Malformed)
    else if s[0] == '\\' && |s| > 1 then Prepend(EncodeChar(s[1]), UnescapeBytes(s[2..]))
    else Prepend(EncodeChar(s[0]), UnescapeBytes(s[1..]))
  }

  function Prepend<T>(front: seq<T>, rest: Parsed<seq<T>>): Parsed<seq<T>> {
    if rest.Ok? then Ok(front + rest.value) else rest
  }

  function FromUtf8(b: seq<Byte>): Parsed<string> {
    match Decode(b) case Some(s) => Ok(s) case None => Err(Malformed)
  }

  function Unescape(s: string): Parsed<string> {
    match UnescapeBytes(s) case Ok(b) => FromUtf8(b) case Err(e) => Err(e)
  }

  /** The first quote that no backslash covers. */
  function CloseQuote(q: string): (r: Option<nat>)
    ensures r.Some? ==> r.value < |q|
  {
    if q == "" then None
    else if q[0] == '"' then Some(0)
    else if q[0] == '\\' then
      if |q| == 1 then None else Shift(CloseQuote(q[2..]), 2)
    else Shift(CloseQuote(q[1..]), 1)
  }

  function Shift(r: Option<nat>, n: nat): Option<nat> {
    match r case None => None case Some(i) => Some(i + n)
  }

  function FindSpace(s: string): (r: nat)
    ensures r <= |s| && (r < |s| ==> IsSpace(s[r])) && forall i :: 0 <= i < r ==> !IsSpace(s[i])
  {
    if s == "" || IsSpace(s[0]) then 0 else FindSpace(s[1..]) + 1
  }

  /** One token and the text behind it. */
  function TakeToken(rest: string): (r: Parsed<(string, string)>)
    requires rest != "" && !IsSpace(rest[0])
    ensures r.Ok? ==> |r.value.1| < |rest|
  {
    if rest[0] == '"' then
      match CloseQuote(rest[1..])
      case None => Err(Malformed)
      case Some(i) => WithRest(Unescape(rest[1..][..i]), rest[1..][i + 1..])
    else
      WithRest(Unescape(rest[..FindSpace(rest)]), rest[FindSpace(rest)..])
  }

  function WithRest(token: Parsed<string>, rest: string): Parsed<(string, string)> {
    if token.Ok? then Ok((token.value, rest)) else Err(token.error)
  }

  const HOME_KEY := "ORGASMIC_HOME="

  function HomeOfToken(token: string): seq<string> {
    if HOME_KEY <= token then [token[|HOME_KEY|..]] else []
  }

  function TokenHomes(rest: string): Parsed<seq<string>>
    decreases |rest|
  {
    var r := TrimStart(rest);
    if r == "" then Ok([])
    else match TakeToken(r)
      case Err(e) => Err(e)
      case Ok(taken) => Prepend(HomeOfToken(taken.0), TokenHomes(taken.1))
  }

  const ENV_KEY := "Environment="

  function LineHomes(line: string): Parsed<seq<string>> {
    var t := TrimStart(line);
    if ENV_KEY <= t then TokenHomes(t[|ENV_KEY|..]) else Ok([])
  }

  function LinesHomes(lines: seq<string>): Parsed<seq<string>> {
    if lines == [] then Ok([])
    else match LineHomes(lines[0])
      case Err(e) => Err(e)
      case Ok(homes) => Prepend(homes, LinesHomes(lines[1..]))
  }

  function ParseUnit(raw: string): Parsed<string> {
    match LinesHomes(Lines(raw)) case Ok(homes) => ExactlyOneHome(homes) case Err(e) => Err(e)
  }

  // ---- parsing: the loops ----

  lemma PrependTwice<T>(a: seq<T>, b: seq<T>, rest: Parsed<seq<T>>)
    ensures Prepend(a, Prepend(b, rest)) == Prepend(a + b, rest)
    ensures Prepend([], rest) == rest
    ensures Prepend(a, Ok([])) == Ok(a)
  {
    if rest.Ok? {
      assert a + (b + rest.value) == a + b + rest.value;
      assert [] + rest.value == rest.value;
    }
    assert a + [] == a;
  }

  method SystemdUnescape(value: string) returns (r: Parsed<string>)
    ensures r == Unescape(value)
  {
    hide EncodeChar, FromUtf8;
    var out: seq<Byte>, i := [], 0;
    assert value[0..] == value;
    PrependTwice<Byte>([], [], UnescapeBytes(value));
    while i < |value|
      invariant 0 <= i <= |value|
      invariant UnescapeBytes(value) == Prepend(out, UnescapeBytes(value[i..]))
    {
      ghost var rest := value[i..];
      if value[i] == '\\' && i + 1 < |value| && value[i + 1] == 'x' {
        if i + 3 >= |value| || !IsHex(value[i + 2]) || !IsHex(value[i + 3]) {
          return Err(Malformed);
        }
        var byte: Byte := HexDigit(value[i + 2]) * 16 + HexDigit(value[i + 3]);
        assert value[i + 4..] == rest[4..];
        PrependTwice(out, [byte], UnescapeBytes(value[i + 4..]));
        out := out + [byte];
        i := i + 4;
      } else if value[i] == '\\' && i + 1 < |value| {
        assert value[i + 2..] == rest[2..];
        PrependTwice(out, EncodeChar(value[i + 1]), UnescapeBytes(value[i + 2..]));
        out := out + EncodeChar(value[i + 1]);
        i := i + 2;
      } else {
        assert value[i + 1..] == rest[1..];
        PrependTwice(out, EncodeChar(value[i]), UnescapeBytes(value[i + 1..]));
        out := out + EncodeChar(value[i]);
        i := i + 1;
      }
    }
    assert value[i..] == "";
    PrependTwice(out, [], Ok([]));
    r := FromUtf8(out);
  }

  method TakeSystemdToken(rest: string) returns (r: Parsed<(string, string)>)
    requires rest != "" && !IsSpace(rest[0])
    ensures r == TakeToken(rest)
  {
    hide Unescape, FindSpace;
    if rest[0] == '"' {
      var quoted, escaped := rest[1..], false;
      for idx := 0 to |quoted|
        invariant escaped ==> idx > 0
        invariant CloseQuote(quoted) == if escaped then Shift(CloseQuote(quoted[idx - 1..]), idx - 1) else Shift(CloseQuote(quoted[idx..]), idx)
        invariant escaped ==> quoted[idx - 1] == '\\'
      {
        if escaped {
          assert quoted[idx - 1..][2..] == quoted[idx + 1..];
          escaped := false;
        } else if quoted[idx] == '\\' {
          escaped := true;
        } else if quoted[idx] == '"' {
          var token := SystemdUnescape(quoted[..idx]);
          return WithRest(token, quoted[idx + 1..]);
        } else {
          assert quoted[idx..][1..] == quoted[idx + 1..];
        }
      }
      return Err(Malformed);
    }
    var idx := FindSpace(rest);
    var token := SystemdUnescape(rest[..idx]);
    return WithRest(token, rest[idx..]);
  }

  /** The token loop of one assignment line. */
  method CollectTokenHomes(assignments: string) returns (r: Parsed<seq<string>>)
    ensures r == TokenHomes(assignments)
  {
    hide TakeToken, TrimStart, HomeOfToken;
    var homes: seq<string>, rest := [], assignments;
    PrependTwice<string>([], [], TokenHomes(assignments));
    while true
      invariant TokenHomes(assignments) == Prepend(homes, TokenHomes(rest))
      decreases |rest|
    {
      var trimmed := TrimStart(rest);
      if trimmed == "" {
        PrependTwice(homes, [], Ok([]));
        return Ok(homes);
      }
      var taken := TakeSystemdToken(trimmed);
      if taken.Err? { return Err(taken.error); }
      PrependTwice(homes, HomeOfToken(taken.value.0), TokenHomes(taken.value.1));
      homes := homes + HomeOfToken(taken.value.0);
      rest := taken.value.1;
    }
  }

  method ParseSystemdOwnerHome(raw: string) returns (r: Parsed<string>)
    ensures r == ParseUnit(raw)
  {
    hide TokenHomes, TrimStart, Lines;
    var lines, homes: seq<string> := Lines(raw), [];
    assert lines[0..] == lines;
    PrependTwice<string>([], [], LinesHomes(lines));
    for n := 0 to |lines|
      invariant LinesHomes(lines) == Prepend(homes, LinesHomes(lines[n..]))
    {
      assert lines[n..][0] == lines[n] && lines[n..][1..] == lines[n + 1..];
      var t := TrimStart(lines[n]);
      var found: seq<string> := [];
      if ENV_KEY <= t {
        var collected := CollectTokenHomes(t[|ENV_KEY|..]);
        if collected.Err? { return Err(collected.error); }
        found := collected.value;
      }
      PrependTwice(homes, found, LinesHomes(lines[n + 1..]));
      homes := homes + found;
    }
    assert lines[|lines|..] == [];
    PrependTwice(homes, [], Ok([]));
    r := ExactlyOneHome(homes);
  }

  // ---- the round trip ----

  /** The text with a backslash before every backslash and every quote. */
  function Slashed(s: string): string {
    if s == "" then "" else (if s[0] == '\\' || s[0] == '"' then ['\\', s[0]] else [s[0]]) + Slashed(s[1..])
  }

  /** The two replacing passes are one simultaneous escape. */
  lemma {:induction false} QuotePasses(s: string)
    ensures Replace(Replace(s, "\\", "\\\\"), "\"", "\\\"") == Slashed(s)
  {
    if s != "" {
      var c, rest := [s[0]], s[1..];
      assert s == c + rest;
      ReplaceCharConcat(c, rest, '\\', "\\\\");
      var c1 := if s[0] == '\\' then "\\\\" else c;
      assert c[1..] == "";
      assert Replace(c, "\\", "\\\\") == c1;
      ReplaceCharConcat(c1, Replace(rest, "\\", "\\\\"), '"', "\\\"");
      QuotePasses(rest);
      QuoteOne(s[0]);
    }
  }

  lemma QuoteOne(d: char)
    ensures Replace(if d == '\\' then "\\\\" else [d], "\"", "\\\"") == if d == '\\' || d == '"' then ['\\', d] else [d]
  {
    var c := if d == '\\' then "\\\\" else [d];
    if d == '"' {
      assert c[1..] == "";
    } else {
      assert c[0] != '"' && c[1..] == if d == '\\' then "\\" else "";
    }
  }

  lemma {:induction false} UnescapeSlashed(s: string)
    ensures UnescapeBytes(Slashed(s)) == Ok(Encode(s))
  {
    if s != "" {
      UnescapeSlashed(s[1..]);
      var t := Slashed(s);
      if s[0] == '\\' || s[0] == '"' {
        assert t[0] == '\\' && t[1] == s[0] && t[2..] == Slashed(s[1..]);
      } else {
        assert t[0] == s[0] && t[1..] == Slashed(s[1..]);
      }
    }
  }

  lemma {:induction false} SlashedCloses(s: string, rest: string)
    ensures CloseQuote(Slashed(s) + ("\"" + rest)) == Some(|Slashed(s)|)
  {
    var t := Slashed(s) + ("\"" + rest);
    if s == "" {
      assert t == "\"" + rest;
    } else {
      SlashedCloses(s[1..], rest);
      if s[0] == '\\' || s[0] == '"' {
        assert t[0] == '\\' && t[2..] == Slashed(s[1..]) + ("\"" + rest);
      } else {
        assert t[0] == s[0] && t[1..] == Slashed(s[1..]) + ("\"" + rest);
      }
    }
  }

  /** The tokenizer and unescaper undo the quoting of any argument. */
  lemma QuotedToken(s: string)
    ensures TakeToken(QuoteArg(s)) == Ok((s, ""))
  {
    QuotePasses(s);
    var t := QuoteArg(s);
    SlashedCloses(s, "");
    assert t[1..] == Slashed(s) + ("\"" + "");
    assert t[1..][..|Slashed(s)|] == Slashed(s);
    UnescapeSlashed(s);
    DecodeEncode(s);
  }

  /** A printed assignment gives a home exactly when its key names the home. */
  lemma EnvLineHomes(key: string, value: string)
    ensures LineHomes(EnvLine(key, value)) == Ok(HomeOfToken(key + "=" + value))
  {
    QuotedAssignment(key + "=" + value);
    AssignmentLine(QuoteEnv(key, value));
  }

  lemma AssignmentLine(assignment: string)
    ensures LineHomes(ENV_KEY + assignment) == TokenHomes(assignment)
  {
    hide TokenHomes;
    var line := ENV_KEY + assignment;
    assert line[0] == 'E';
    assert TrimStart(line) == line;
    assert ENV_KEY <= line && line[|ENV_KEY|..] == assignment;
  }

  lemma QuotedAssignment(token: string)
    ensures TokenHomes(QuoteArg(token)) == Ok(HomeOfToken(token))
  {
    hide QuoteArg, TakeToken, HomeOfToken;
    QuotedToken(token);
    QuoteArgShape(token);
    assert TrimStart(QuoteArg(token)) == QuoteArg(token);
    assert TokenHomes("") == Ok([]);
    PrependTwice(HomeOfToken(token), [], Ok([]));
  }

  lemma QuoteArgShape(s: string)
    ensures |QuoteArg(s)| >= 2 && QuoteArg(s)[0] == '"' && QuoteArg(s)[|QuoteArg(s)| - 1] == '"'
    ensures '\n' !in s ==> '\n' !in QuoteArg(s)
  {
    QuotePasses(s);
    SlashedNewline(s);
  }

  lemma {:induction false} SlashedNewline(s: string)
    ensures '\n' !in s ==> '\n' !in Slashed(s)
  {
    if s != "" { SlashedNewline(s[1..]); }
  }

  /** A line that does not open with `En` is no assignment. */
  predicate Quiet(line: string) {
    line == "" || (!IsSpace(line[0]) && (line[0] != 'E' || (|line| > 1 && line[1] != 'n' && line[1] != '\r')))
  }

  lemma QuietLine(line: string)
    requires Quiet(line)
    ensures LineHomes(line) == LineHomes(StripCr(line)) == Ok([])
  {
    hide TokenHomes;
    EnvKeyStart();
    NoKey(line);
    NoKey(StripCr(line));
  }

  lemma EnvKeyStart()
    ensures |ENV_KEY| > 1 && ENV_KEY[0] == 'E' && ENV_KEY[1] == 'n'
  {
  }

  lemma NoKey(line: string)
    requires line == "" || (!IsSpace(line[0]) && (line[0] != 'E' || (|line| > 1 && line[1] != 'n') || |line| == 1))
    ensures LineHomes(line) == Ok([])
  {
    hide TokenHomes;
    if |line| > 1 { KeyFront(line); } else { EnvKeyStart(); }
  }

  lemma KeyFront(line: string)
    requires |line| > 1
    ensures ENV_KEY <= line ==> line[0] == 'E' && line[1] == 'n'
  {
    EnvKeyStart();
  }

  /** Reading a unit whose assignments stand between quiet lines. */
  ghost predicate AllQuiet(lines: seq<string>) { forall i :: 0 <= i < |lines| ==> LineHomes(lines[i]) == Ok([]) }

  lemma {:induction false} QuietLines(a: seq<string>, b: seq<string>)
    requires AllQuiet(a)
    ensures LinesHomes(a + b) == LinesHomes(b)
  {
    if a == [] {
      assert a + b == b;
    } else {
      assert (a + b)[1..] == a[1..] + b;
      assert LineHomes(a[0]) == Ok([]);
      QuietLines(a[1..], b);
      if LinesHomes(b).Ok? { assert [] + LinesHomes(b).value == LinesHomes(b).value; }
    }
  }

  function EnvHomes(env: seq<(string, string)>): seq<string> {
    if env == [] then [] else HomeOfToken(env[0].0 + "=" + env[0].1) + EnvHomes(env[1..])
  }

  lemma {:induction false} EnvLinesHomes(env: seq<(string, string)>, after: seq<string>)
    requires AllQuiet(after)
    ensures LinesHomes(EnvLines(env) + after) == Ok(EnvHomes(env))
  {
    if env == [] {
      assert EnvLines(env) + after == after + [];
      QuietLines(after, []);
    } else {
      assert EnvLines(env) + after == [EnvLine(env[0].0, env[0].1)] + (EnvLines(env[1..]) + after);
      EnvLineHomes(env[0].0, env[0].1);
      EnvLinesHomes(env[1..], after);
    }
  }

  lemma OtherKeys(value: string)
    ensures HomeOfToken("PATH" + "=" + value) == []
    ensures HomeOfToken("ORGASMIC_PROJECT_SCAN_TIMEOUT_SECS" + "=" + value) == []
    ensures HomeOfToken("ORGASMIC_LOG_MIRROR" + "=" + value) == []
  {
    assert ("ORGASMIC_PROJECT_SCAN_TIMEOUT_SECS" + "=" + value)[9] == 'P' && HOME_KEY[9] == 'H';
    assert ("ORGASMIC_LOG_MIRROR" + "=" + value)[9] == 'L';
    assert ("PATH" + "=" + value)[0] == 'P' && HOME_KEY[0] == 'O';
  }

  lemma SpecHomes(spec: ServiceSpec)
    ensures EnvHomes(UnitEnvironment(spec)) == [spec.home]
  {
    var token := "ORGASMIC_HOME" + "=" + spec.home;
    assert HOME_KEY <= token && token[|HOME_KEY|..] == spec.home;
    OtherKeys(spec.path);
    OtherKeys("off");
    if spec.projectScanTimeout.Some? { OtherKeys(spec.projectScanTimeout.value); }
    EnvHomesTail(spec);
  }

  lemma EnvHomesTail(spec: ServiceSpec)
    requires HomeOfToken("PATH" + "=" + spec.path) == []
    requires HomeOfToken("ORGASMIC_LOG_MIRROR" + "=" + "off") == []
    requires spec.projectScanTimeout.Some? ==>
      HomeOfToken("ORGASMIC_PROJECT_SCAN_TIMEOUT_SECS" + "=" + spec.projectScanTimeout.value) == []
    ensures EnvHomes(UnitEnvironment(spec)) == HomeOfToken("ORGASMIC_HOME" + "=" + spec.home)
  {
    hide HomeOfToken;
    var env := UnitEnvironment(spec);
    var last := [("ORGASMIC_LOG_MIRROR", "off")];
    assert EnvHomes(last) == [];
    if spec.projectScanTimeout.Some? {
      assert env[2..] == [("ORGASMIC_PROJECT_SCAN_TIMEOUT_SECS", spec.projectScanTimeout.value)] + last;
      assert env[2..][1..] == last;
    } else {
      assert env[2..] == last;
    }
    assert env[1..][1..] == env[2..] && env[1..][0] == ("PATH", spec.path);
    assert EnvHomes(env[1..]) == [];
  }

  ghost predicate SingleLine(spec: ServiceSpec) {
    '\n' !in spec.exe && '\n' !in spec.home && '\n' !in spec.cwd && '\n' !in spec.stdout && '\n' !in spec.stderr
    && '\n' !in spec.path && (spec.projectScanTimeout.Some? ==> '\n' !in spec.projectScanTimeout.value)
  }

  lemma HeadLines(spec: ServiceSpec)
    requires SingleLine(spec)
    ensures forall i :: 0 <= i < |UnitHead(spec)| ==> Quiet(UnitHead(spec)[i]) && '\n' !in UnitHead(spec)[i]
  {
    hide QuoteArg;
    QuoteArgShape(spec.exe);
  }

  lemma TailLines(spec: ServiceSpec)
    requires SingleLine(spec)
    ensures forall i :: 0 <= i < |UnitTail(spec)| ==> Quiet(UnitTail(spec)[i]) && '\n' !in UnitTail(spec)[i]
  {
  }

  lemma EnvLineShape(key: string, value: string)
    requires '\n' !in key && '\n' !in value
    ensures '\n' !in EnvLine(key, value) && StripCr(EnvLine(key, value)) == EnvLine(key, value)
  {
    hide QuoteArg;
    QuoteArgShape(key + "=" + value);
    var line := EnvLine(key, value);
    assert line[|line| - 1] == '"';
  }

  lemma StrippedQuiet(lines: seq<string>, stripped: seq<string>)
    requires |stripped| == |lines| && forall i :: 0 <= i < |lines| ==> stripped[i] == StripCr(lines[i])
    requires forall i :: 0 <= i < |lines| ==> Quiet(lines[i])
    ensures AllQuiet(stripped)
  {
    forall i | 0 <= i < |stripped| ensures LineHomes(stripped[i]) == Ok([]) {
      QuietLine(lines[i]);
    }
  }

  lemma EnvironmentLines(spec: ServiceSpec)
    requires SingleLine(spec)
    ensures var env := EnvLines(UnitEnvironment(spec));
      forall i :: 0 <= i < |env| ==> '\n' !in env[i] && StripCr(env[i]) == env[i]
  {
    hide EnvLine;
    var env := UnitEnvironment(spec);
    forall i | 0 <= i < |env| ensures '\n' !in EnvLine(env[i].0, env[i].1) && StripCr(EnvLine(env[i].0, env[i].1)) == EnvLine(env[i].0, env[i].1) {
      EnvLineShape(env[i].0, env[i].1);
    }
  }

  lemma StripSlices(h: seq<string>, e: seq<string>, t: seq<string>, read: seq<string>)
    requires |read| == |h + e + t| && forall i :: 0 <= i < |read| ==> read[i] == StripCr((h + e + t)[i])
    requires forall i :: 0 <= i < |e| ==> StripCr(e[i]) == e[i]
    ensures forall i :: 0 <= i < |h| ==> read[..|h|][i] == StripCr(h[i])
    ensures read[|h|..|h| + |e|] == e
    ensures forall i :: 0 <= i < |t| ==> read[|h| + |e|..][i] == StripCr(t[i])
  {
    hide StripCr;
    var lines := h + e + t;
    forall i | 0 <= i < |e| ensures read[|h| + i] == e[i] { assert lines[|h| + i] == e[i]; }
    forall i | 0 <= i < |t| ensures read[|h| + |e| + i] == StripCr(t[i]) { assert lines[|h| + |e| + i] == t[i]; }
  }

  /** Quiet sections around the assignments do not change what is read. */
  lemma SectionsHomes(h: seq<string>, env: seq<(string, string)>, t: seq<string>, read: seq<string>)
    requires var lines := h + EnvLines(env) + t;
      |read| == |lines| && forall i :: 0 <= i < |read| ==> read[i] == StripCr(lines[i])
    requires forall i :: 0 <= i < |h| ==> Quiet(h[i])
    requires forall i :: 0 <= i < |t| ==> Quiet(t[i])
    requires forall i :: 0 <= i < |env| ==> StripCr(EnvLines(env)[i]) == EnvLines(env)[i]
    ensures LinesHomes(read) == Ok(EnvHomes(env))
  {
    hide StripCr, Quiet, LinesHomes, EnvHomes, AllQuiet, EnvLine;
    var e := EnvLines(env);
    var rh, re, rt := read[..|h|], read[|h|..|h| + |e|], read[|h| + |e|..];
    StripSlices(h, e, t, read);
    StrippedQuiet(h, rh);
    StrippedQuiet(t, rt);
    QuietLines(rh, re + rt);
    EnvLinesHomes(env, rt);
    assert read == rh + (re + rt);
  }

  /** For every spec whose fields hold no line feed the parser returns the home
      the unit was printed for; a blank home is refused. */
  lemma UnitRoundTrip(spec: ServiceSpec)
    requires SingleLine(spec)
    ensures ParseUnit(RenderUnit(spec)) == if Blank(spec.home) then Err(Empty) else Ok(spec.home)
  {
    hide UnitHead, UnitTail, UnitEnvironment, StripCr, Lines, Unlines, Blank, LinesHomes, EnvHomes, Quiet;
    HeadLines(spec);
    TailLines(spec);
    EnvironmentLines(spec);
    LinesUnlines(UnitLines(spec));
    SectionsHomes(UnitHead(spec), UnitEnvironment(spec), UnitTail(spec), Lines(RenderUnit(spec)));
    SpecHomes(spec);
  }

  // ---- a line break in a field ----

  lemma {:induction false} UnlinesAppend(a: seq<string>, b: seq<string>)
    ensures Unlines(a + b) == Unlines(a) + Unlines(b)
  {
    if a == [] {
      assert a + b == b;
    } else {
      assert (a + b)[1..] == a[1..] + b;
      UnlinesAppend(a[1..], b);
    }
  }

  /** A line that holds a line break prints like two. */
  lemma UnlinesBreak(a: seq<string>, x: string, y: string, b: seq<string>)
    ensures Unlines(a + [x + "\n" + y] + b) == Unlines(a + [x, y] + b)
  {
    var one, two := [x + "\n" + y] + b, [x, y] + b;
    UnlinesAppend(a, one);
    UnlinesAppend(a, two);
    UnlinesFront(x + "\n" + y, b);
    UnlinesFront(x, [y] + b);
    UnlinesFront(y, b);
    hide Unlines;
    assert a + [x + "\n" + y] + b == a + one && a + [x, y] + b == a + two && two == [x] + ([y] + b);
  }

  lemma UnlinesFront(x: string, b: seq<string>)
    ensures Unlines([x] + b) == x + "\n" + Unlines(b)
  {
    assert ([x] + b)[1..] == b;
  }

  /** The spec with a working directory that goes on, behind a line break, with
      an assignment of another home. */
  function WithSecondHome(spec: ServiceSpec, other: string): ServiceSpec {
    spec.(cwd := spec.cwd + "\n" + EnvLine("ORGASMIC_HOME", other))
  }

  lemma SecondHomeLines(spec: ServiceSpec, other: string)
    ensures RenderUnit(WithSecondHome(spec, other))
         == Unlines(UnitHead(spec) + EnvLines([("ORGASMIC_HOME", other)] + UnitEnvironment(spec)) + UnitTail(spec))
  {
    hide EnvLine, QuoteArg, Unlines;
    var bad, line := WithSecondHome(spec, other), EnvLine("ORGASMIC_HOME", other);
    var front, env := UnitHead(spec)[..7], EnvLines(UnitEnvironment(spec));
    var last := "WorkingDirectory=" + spec.cwd;
    assert UnitHead(spec) == front + [last];
    assert "WorkingDirectory=" + (spec.cwd + "\n" + line) == last + "\n" + line;
    assert UnitHead(bad) == front + [last + "\n" + line];
    SameOtherLines(spec, other);
    OneMoreLine(spec, other);
    hide UnitHead, UnitTail, EnvLines, UnitEnvironment;
    UnlinesBreak(front, last, line, env + UnitTail(spec));
    assert front + [last, line] + (env + UnitTail(spec)) == (front + [last]) + ([line] + env) + UnitTail(spec);
    assert front + [last + "\n" + line] + (env + UnitTail(spec)) == (front + [last + "\n" + line]) + env + UnitTail(spec);
  }

  lemma SameOtherLines(spec: ServiceSpec, other: string)
    ensures UnitEnvironment(WithSecondHome(spec, other)) == UnitEnvironment(spec)
    ensures UnitTail(WithSecondHome(spec, other)) == UnitTail(spec)
  {
  }

  lemma OneMoreLine(spec: ServiceSpec, other: string)
    ensures EnvLines([("ORGASMIC_HOME", other)] + UnitEnvironment(spec))
         == [EnvLine("ORGASMIC_HOME", other)] + EnvLines(UnitEnvironment(spec))
  {
    hide UnitEnvironment, EnvLine;
  }

  /** The failing case: with a line break in a field the unit can name a second
      home, and is refused although its own home is printed. */
  lemma LineBreakBreaksUnit(spec: ServiceSpec, other: string)
    requires SingleLine(spec) && '\n' !in other
    ensures ParseUnit(RenderUnit(WithSecondHome(spec, other))) == Err(Ambiguous)
  {
    hide UnitHead, UnitTail, UnitEnvironment, StripCr, Lines, Unlines, Blank, LinesHomes, EnvHomes, Quiet, EnvLine, QuoteArg;
    var env := [("ORGASMIC_HOME", other)] + UnitEnvironment(spec);
    HeadLines(spec);
    TailLines(spec);
    EnvironmentLines(spec);
    EnvLineShape("ORGASMIC_HOME", other);
    assert EnvLines(env) == [EnvLine("ORGASMIC_HOME", other)] + EnvLines(UnitEnvironment(spec));
    SecondHomeLines(spec, other);
    LinesUnlines(UnitHead(spec) + EnvLines(env) + UnitTail(spec));
    SectionsHomes(UnitHead(spec), env, UnitTail(spec), Lines(RenderUnit(WithSecondHome(spec, other))));
    SpecHomes(spec);
    TwoHomes(spec, other);
  }

  lemma TwoHomes(spec: ServiceSpec, other: string)
    requires EnvHomes(UnitEnvironment(spec)) == [spec.home]
    ensures EnvHomes([("ORGASMIC_HOME", other)] + UnitEnvironment(spec)) == [other, spec.home]
  {
    var env, token := [("ORGASMIC_HOME", other)] + UnitEnvironment(spec), "ORGASMIC_HOME" + "=" + other;
    assert HOME_KEY <= token && token[|HOME_KEY|..] == other;
    hide UnitEnvironment, HomeOfToken;
    assert env[1..] == UnitEnvironment(spec);
  }
}
