/** The Windows scheduled-task definition: printed as XML, and read back to
    find the wrapper script that owns the registration. */
module ServiceTask {
  import opened Outcomes
  import opened Text
  import opened ServiceXml

  datatype HomeError = Missing | Empty | Ambiguous | Malformed

  /** A definition names its owner exactly once, and not with a blank. */
  function ExactlyOneHome(homes: seq<string>): (r: Result<string, HomeError>)
    ensures r.Ok? <==> |homes| == 1 && !Blank(homes[0])
    ensures r.Ok? ==> homes == [r.value]
    ensures r == Err(Missing) <==> homes == []
    ensures r == Err(Empty) <==> |homes| == 1 && Blank(homes[0])
    ensures r == Err(Ambiguous) <==> |homes| > 1
  {
    if |homes| == 1 && !Blank(homes[0]) then Ok(homes[0])
    else if homes == [] then Err(Missing)
    else if |homes| == 1 then Err(Empty)
    else Err(Ambiguous)
  }

  const COMMAND_OPEN := "<Command>"
  const COMMAND_CLOSE := "</Command>"

  const PREAMBLE := [
    "<?xml version=\"1.0\" ", "encoding=\"UTF-8\"?>\n", "<Task version=\"1.4\" "]
  const NAMESPACE := [
    "xmlns=\"http://schemas.microsoft.com", "/windows/2004/02/mit/task\">\n"]
  const REGISTRATION := [
    "<RegistrationInfo>\n", "    <Description>orgasmic daemon", "</Description>\n", "  </RegistrationInfo>\n"]
  const TRIGGERS := [
    "<Triggers>\n", "    <LogonTrigger>\n", "      <Enabled>true</Enabled>\n", "    </LogonTrigger>\n", "  </Triggers>\n"]
  const PRINCIPALS := [
    "<Principals>\n", "    <Principal id=\"Author\">\n", "      <LogonType>InteractiveToken", "</LogonType>\n"]
  const RUN_LEVEL := [
    "      <RunLevel>LeastPrivilege", "</RunLevel>\n", "    </Principal>\n  </Principals>\n"]
  const INSTANCES := [
    "<Settings>\n", "    <MultipleInstancesPolicy>IgnoreNew", "</MultipleInstancesPolicy>\n"]
  const BATTERIES := [
    "    <DisallowStartIfOnBatteries>false", "</DisallowStartIfOnBatteries>\n"]
  const STOPPING := ["    <StopIfGoingOnBatteries>false", "</StopIfGoingOnBatteries>\n"]
  const STARTING := [
    "    <AllowHardTerminate>true", "</AllowHardTerminate>\n", "    <StartWhenAvailable>true", "</StartWhenAvailable>\n"]
  const NETWORK := [
    "    <RunOnlyIfNetworkAvailable>", "false</RunOnlyIfNetworkAvailable>\n"]
  const ENABLING := ["    <Enabled>true</Enabled>\n", "  </Settings>\n"]
  const ACTIONS := ["<Actions Context=\"Author\">\n", "    <Exec>\n      "]
  const BEFORE_CWD := ["\n      <WorkingDirectory>"]
  const AFTER_CWD := ["</WorkingDirectory>\n", "    </Exec>\n  </Actions>\n</Task>\n"]

  function Concat(pieces: seq<string>): string {
    if pieces == [] then "" else pieces[0] + Concat(pieces[1..])
  }

  function Head(): string {
    Concat(Opening()) + Concat(Body())
  }

  function Opening(): seq<string> { PREAMBLE + NAMESPACE + REGISTRATION + TRIGGERS + PRINCIPALS + RUN_LEVEL }

  function Body(): seq<string> { INSTANCES + BATTERIES + STOPPING + STARTING + NETWORK + ENABLING + ACTIONS }

  function Tail(cwd: string): string { Concat(BEFORE_CWD) + XmlEscape(cwd) + Concat(AFTER_CWD) }

  function RenderTask(cwd: string, wrapper: string): string {
    Head() + (COMMAND_OPEN + (XmlEscape(wrapper) + (COMMAND_CLOSE + Tail(cwd))))
  }

  /** The unescaped content of every `open` ... `close` pair, left to right. */
  function TagValues(rest: string, open: string, close: string): seq<string>
    requires open != "" && close != ""
    decreases |rest|
  {
    match Find(rest, open)
    case None => []
    case Some(offset) =>
      var afterOpen := rest[offset + |open|..];
      match Find(afterOpen, close)
      case None => []
      case Some(end) => [XmlUnescape(afterOpen[..end])] + TagValues(afterOpen[end + |close|..], open, close)
  }

  lemma TagValuesStep(rest: string, open: string, close: string, offset: nat, end: nat)
    requires open != "" && close != "" && Find(rest, open) == Some(offset)
    requires Find(rest[offset + |open|..], close) == Some(end)
    ensures var afterOpen := rest[offset + |open|..];
      TagValues(rest, open, close)
      == [XmlUnescape(afterOpen[..end])] + TagValues(afterOpen[end + |close|..], open, close)
  {
    hide XmlUnescape, Find, Occurs, Contains;
  }

  lemma TagValuesEnd(rest: string, open: string, close: string)
    requires open != "" && close != ""
    ensures Find(rest, open).None? ==> TagValues(rest, open, close) == []
    ensures Find(rest, open).Some? && Find(rest[Find(rest, open).value + |open|..], close).None? ==> TagValues(rest, open, close) == []
  {
    hide XmlUnescape, Find, Occurs, Contains;
  }

  method XmlTagValues(raw: string, tag: string) returns (values: seq<string>)
    ensures values == TagValues(raw, "<" + tag + ">", "</" + tag + ">")
  {
    hide XmlUnescape, Find, Occurs, Contains, TagValues;
    var open, close := "<" + tag + ">", "</" + tag + ">";
    values := [];
    var rest := raw;
    while true
      invariant TagValues(raw, open, close) == values + TagValues(rest, open, close)
      decreases |rest|
    {
      TagValuesEnd(rest, open, close);
      var offset := Find(rest, open);
      if offset.None? { return; }
      var afterOpen := rest[offset.value + |open|..];
      var end := Find(afterOpen, close);
      if end.None? { return; }
      var next := afterOpen[end.value + |close|..];
      TagValuesStep(rest, open, close, offset.value, end.value);
      values := values + [XmlUnescape(afterOpen[..end.value])];
      rest := next;
    }
  }

  function ParseTaskWrapper(raw: string): Result<string, HomeError> {
    ExactlyOneHome(TagValues(raw, COMMAND_OPEN, COMMAND_CLOSE))
  }

  /** No tag that starts with `C` opens in `s`, nor across its end. */
  ghost predicate NoOpen(s: string) {
    forall i :: 0 <= i < |s| && s[i] == '<' ==> i + 1 < |s| && s[i + 1] != 'C'
  }

  ghost predicate AllNoOpen(pieces: seq<string>) { forall k :: 0 <= k < |pieces| ==> NoOpen(pieces[k]) }

  lemma PreamblePieces()
    ensures AllNoOpen(PREAMBLE)
  {
    assert NoOpen(PREAMBLE[0]) && NoOpen(PREAMBLE[1]) && NoOpen(PREAMBLE[2]);
  }

  lemma NamespacePieces()
    ensures AllNoOpen(NAMESPACE)
  {
    assert NoOpen(NAMESPACE[0]) && NoOpen(NAMESPACE[1]);
  }

  lemma RegistrationPieces()
    ensures AllNoOpen(REGISTRATION)
  {
    assert NoOpen(REGISTRATION[0]) && NoOpen(REGISTRATION[1]) && NoOpen(REGISTRATION[2]) && NoOpen(REGISTRATION[3]);
  }

  lemma TriggersPieces()
    ensures AllNoOpen(TRIGGERS)
  {
    assert NoOpen(TRIGGERS[0]) && NoOpen(TRIGGERS[1]) && NoOpen(TRIGGERS[2]) && NoOpen(TRIGGERS[3]) && NoOpen(TRIGGERS[4]);
  }

  lemma PrincipalsPieces()
    ensures AllNoOpen(PRINCIPALS)
  {
    assert NoOpen(PRINCIPALS[0]) && NoOpen(PRINCIPALS[1]) && NoOpen(PRINCIPALS[2]) && NoOpen(PRINCIPALS[3]);
  }

  lemma RunLevelPieces()
    ensures AllNoOpen(RUN_LEVEL)
  {
    assert NoOpen(RUN_LEVEL[0]) && NoOpen(RUN_LEVEL[1]) && NoOpen(RUN_LEVEL[2]);
  }

  lemma InstancesPieces()
    ensures AllNoOpen(INSTANCES)
  {
    assert NoOpen(INSTANCES[0]) && NoOpen(INSTANCES[1]) && NoOpen(INSTANCES[2]);
  }

  lemma BatteriesPieces()
    ensures AllNoOpen(BATTERIES)
  {
    assert NoOpen(BATTERIES[0]) && NoOpen(BATTERIES[1]);
  }

  lemma StoppingPieces()
    ensures AllNoOpen(STOPPING)
  {
    assert NoOpen(STOPPING[0]) && NoOpen(STOPPING[1]);
  }

  lemma StartingPieces()
    ensures AllNoOpen(STARTING)
  {
    assert NoOpen(STARTING[0]) && NoOpen(STARTING[1]) && NoOpen(STARTING[2]) && NoOpen(STARTING[3]);
  }

  lemma NetworkPieces()
    ensures AllNoOpen(NETWORK)
  {
    assert NoOpen(NETWORK[0]) && NoOpen(NETWORK[1]);
  }

  lemma EnablingPieces()
    ensures AllNoOpen(ENABLING)
  {
    assert NoOpen(ENABLING[0]) && NoOpen(ENABLING[1]);
  }

  lemma ActionsPieces()
    ensures AllNoOpen(ACTIONS)
  {
    assert NoOpen(ACTIONS[0]) && NoOpen(ACTIONS[1]);
  }

  lemma BeforeCwdPieces()
    ensures AllNoOpen(BEFORE_CWD)
  {
    assert NoOpen(BEFORE_CWD[0]);
  }

  lemma AfterCwdPieces()
    ensures AllNoOpen(AFTER_CWD)
  {
    assert NoOpen(AFTER_CWD[0]) && NoOpen(AFTER_CWD[1]);
  }

  lemma {:induction false} ConcatNoOpen(pieces: seq<string>)
    requires AllNoOpen(pieces)
    ensures NoOpen(Concat(pieces))
  {
    if pieces != [] {
      ConcatNoOpen(pieces[1..]);
      AppendNoOpen(pieces[0], Concat(pieces[1..]));
    }
  }

  lemma AppendNoOpen(a: string, b: string)
    requires NoOpen(a) && NoOpen(b)
    ensures NoOpen(a + b)
  {
  }

  lemma EscapedNoOpen(s: string)
    ensures NoOpen(XmlEscape(s)) && '<' !in XmlEscape(s)
  {
    EscapedIsPlain(s);
  }

  lemma JoinAllNoOpen(a: seq<string>, b: seq<string>)
    requires AllNoOpen(a) && AllNoOpen(b)
    ensures AllNoOpen(a + b)
  {
  }

  lemma HeadNoOpen()
    ensures NoOpen(Head())
  {
    OpeningNoOpen();
    BodyNoOpen();
    AppendNoOpen(Concat(Opening()), Concat(Body()));
  }

  lemma OpeningNoOpen()
    ensures NoOpen(Concat(Opening()))
  {
    PreamblePieces();
    NamespacePieces();
    RegistrationPieces();
    TriggersPieces();
    PrincipalsPieces();
    RunLevelPieces();
    JoinAllNoOpen(PREAMBLE, NAMESPACE);
    JoinAllNoOpen(PREAMBLE + NAMESPACE, REGISTRATION);
    JoinAllNoOpen(PREAMBLE + NAMESPACE + REGISTRATION, TRIGGERS);
    JoinAllNoOpen(PREAMBLE + NAMESPACE + REGISTRATION + TRIGGERS, PRINCIPALS);
    JoinAllNoOpen(PREAMBLE + NAMESPACE + REGISTRATION + TRIGGERS + PRINCIPALS, RUN_LEVEL);
    ConcatNoOpen(Opening());
  }

  lemma BodyNoOpen()
    ensures NoOpen(Concat(Body()))
  {
    InstancesPieces();
    BatteriesPieces();
    StoppingPieces();
    StartingPieces();
    NetworkPieces();
    EnablingPieces();
    ActionsPieces();
    JoinAllNoOpen(INSTANCES, BATTERIES);
    JoinAllNoOpen(INSTANCES + BATTERIES, STOPPING);
    JoinAllNoOpen(INSTANCES + BATTERIES + STOPPING, STARTING);
    JoinAllNoOpen(INSTANCES + BATTERIES + STOPPING + STARTING, NETWORK);
    JoinAllNoOpen(INSTANCES + BATTERIES + STOPPING + STARTING + NETWORK, ENABLING);
    JoinAllNoOpen(INSTANCES + BATTERIES + STOPPING + STARTING + NETWORK + ENABLING, ACTIONS);
    ConcatNoOpen(Body());
  }

  lemma TailNoOpen(cwd: string)
    ensures NoOpen(Tail(cwd))
  {
    BeforeCwdPieces();
    AfterCwdPieces();
    ConcatNoOpen(BEFORE_CWD);
    ConcatNoOpen(AFTER_CWD);
    EscapedNoOpen(cwd);
    AppendNoOpen(Concat(BEFORE_CWD), XmlEscape(cwd));
    AppendNoOpen(Concat(BEFORE_CWD) + XmlEscape(cwd), Concat(AFTER_CWD));
  }

  /** In text that opens no such tag, followed by anything, none is found
      before the end of that text. */
  lemma NoOpenNoMatch(s: string, rest: string)
    requires NoOpen(s)
    ensures forall i :: 0 <= i < |s| ==> !Occurs(s + rest, COMMAND_OPEN, i)
  {
    var t := s + rest;
    forall i | 0 <= i < |s| ensures !Occurs(t, COMMAND_OPEN, i) {
      assert t[i] == s[i];
      if s[i] == '<' {
        assert t[i + 1] == s[i + 1];
      }
      assert i + |COMMAND_OPEN| <= |t| ==> t[i..i + |COMMAND_OPEN|][0] == t[i] && t[i..i + |COMMAND_OPEN|][1] == t[i + 1];
    }
  }

  lemma NoOpenNoTag(s: string)
    requires NoOpen(s)
    ensures TagValues(s, COMMAND_OPEN, COMMAND_CLOSE) == []
  {
    NoOpenNoMatch(s, "");
    assert s + "" == s;
    assert Find(s, COMMAND_OPEN).None?;
  }

  /** A match is found where it stands if nothing matches before it. */
  lemma FindAt(s: string, p: string, rest: string)
    requires forall i :: 0 <= i < |s| ==> !Occurs(s + (p + rest), p, i)
    ensures Find(s + (p + rest), p) == Some(|s|)
  {
    var t := s + (p + rest);
    assert t[|s|..|s| + |p|] == p;
    assert Occurs(t, p, |s|);
    assert !(Find(t, p).None?);
  }

  lemma FindClose(s: string, rest: string)
    requires '<' !in s
    ensures Find(s + (COMMAND_CLOSE + rest), COMMAND_CLOSE) == Some(|s|)
  {
    var t := s + (COMMAND_CLOSE + rest);
    forall i | 0 <= i < |s| ensures !Occurs(t, COMMAND_CLOSE, i) {
      assert t[i] == s[i] && s[i] in s;
      assert i + |COMMAND_CLOSE| <= |t| ==> t[i..i + |COMMAND_CLOSE|][0] == t[i];
    }
    FindAt(s, COMMAND_CLOSE, rest);
  }

  /** Between text that opens no such tag, the one element is found whole. */
  lemma ElementBetween(head: string, wrapper: string, tail: string)
    requires NoOpen(head) && NoOpen(tail)
    ensures TagValues(head + (COMMAND_OPEN + (XmlEscape(wrapper) + (COMMAND_CLOSE + tail))), COMMAND_OPEN, COMMAND_CLOSE)
      == [wrapper]
  {
    hide XmlEscape, XmlUnescape, Find, Contains, Occurs;
    var body := XmlEscape(wrapper);
    var afterOpen := body + (COMMAND_CLOSE + tail);
    var raw := head + (COMMAND_OPEN + afterOpen);
    NoOpenNoMatch(head, COMMAND_OPEN + afterOpen);
    FindAt(head, COMMAND_OPEN, afterOpen);
    assert raw[|head| + |COMMAND_OPEN|..] == afterOpen;
    EscapedNoOpen(wrapper);
    FindClose(body, tail);
    assert afterOpen[|body| + |COMMAND_CLOSE|..] == tail && afterOpen[..|body|] == body;
    TagValuesStep(raw, COMMAND_OPEN, COMMAND_CLOSE, |head|, |body|);
    NoOpenNoTag(tail);
    UnescapeInvertsEscape(wrapper);
  }

  /** The parser returns the wrapper the printer was given, for every working
      directory; a blank wrapper is reported, never accepted. */
  lemma TaskRoundTrip(cwd: string, wrapper: string)
    ensures ParseTaskWrapper(RenderTask(cwd, wrapper)) == if Blank(wrapper) then Err(Empty) else Ok(wrapper)
  {
    HeadNoOpen();
    TailNoOpen(cwd);
    ElementBetween(Head(), wrapper, Tail(cwd));
  }
}
