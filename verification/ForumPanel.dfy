/** Participants: their textual form, the panel rules and the identity that
    decides who may read whose report. */
module ForumPanel {
  import opened Outcomes
  import opened Text
  import ForumIds

  datatype Participant = Participant(mode: string, harness: string, dispatchModel: string, effort: string,
                                     vendor: string, model: string)

  datatype ParticipantError = FieldCount | FieldText | UnknownVendor | EmptyModel

  /** The fields between the commas, trimmed. */
  function Fields(raw: string): (fields: seq<string>)
    ensures |fields| == |Split(raw, ',')|
  {
    var parts := Split(raw, ',');
    seq(|parts|, i requires 0 <= i < |parts| => Trim(parts[i]))
  }

  predicate OneLine(s: string) { '\n' !in s && '\r' !in s && '·' !in s }

  /** Vendor and model, normalized for comparison. */
  function Identity(harness: string, dispatchModel: string): Result<(string, string), ParticipantError> {
    var slash := Find(dispatchModel, "/");
    if slash.Some? then
      Ok((Lower(Trim(dispatchModel[..slash.value])), Lower(Trim(dispatchModel[slash.value + 1..]))))
    else if harness == "codex" then Ok(("openai", Lower(dispatchModel)))
    else if harness == "claude" then Ok(("anthropic", Lower(dispatchModel)))
    else Err(UnknownVendor)
  }

  function ParseFields(f: seq<string>): Result<Participant, ParticipantError> {
    if |f| != 4 || exists i :: 0 <= i < |f| && f[i] == "" then Err(FieldCount)
    else if exists i :: 0 <= i < |f| && !OneLine(f[i]) then Err(FieldText)
    else
      var identity := Identity(f[1], f[2]);
      if identity.Err? then Err(identity.error)
      else if identity.value.0 == "" || identity.value.1 == "" then Err(EmptyModel)
      else Ok(Participant(f[0], f[1], f[2], f[3], identity.value.0, identity.value.1))
  }

  function ParseParticipant(raw: string): Result<Participant, ParticipantError> { ParseFields(Fields(raw)) }

  /** The form the manifest keeps: the four fields as given. */
  datatype Spec = Spec(mode: string, harness: string, model: string, effort: string)

  function SpecOf(p: Participant): Spec { Spec(p.mode, p.harness, p.dispatchModel, p.effort) }

  function SpecFields(s: Spec): seq<string> { [s.mode, s.harness, s.model, s.effort] }

  function ReadSpec(s: Spec): Result<Participant, ParticipantError> { ParseParticipant(Join(SpecFields(s), ",")) }

  // ---- whom a participant denotes ----

  /** The first slash of a model name. */
  predicate SlashAt(model: string, k: nat) { k < |model| && model[k] == '/' && forall i :: 0 <= i < k ==> model[i] != '/' }

  lemma {:induction false} SlashIs(model: string, k: nat)
    requires SlashAt(model, k)
    ensures Find(model, "/") == Some(k)
  {
    OneChar(model, '/', k);
    FindsEarliest(model, "/", k);
    OneChar(model, '/', Find(model, "/").value);
  }

  lemma {:induction false} NoSlash(model: string)
    requires '/' !in model
    ensures Find(model, "/").None?
  {
    forall i: nat ensures !Occurs(model, "/", i) { OneChar(model, '/', i); }
  }

  /** The vendor and the model of a name with a slash are what stands before and
      behind the first one, without case and outer white space. */
  lemma {:induction false} NamedVendor(harness: string, model: string, k: nat)
    requires SlashAt(model, k)
    ensures Identity(harness, model) == Ok((Lower(Trim(model[..k])), Lower(Trim(model[k + 1..]))))
  {
    SlashIs(model, k);
    hide Find, Lower, Trim;
  }

  /** Without a slash the harness must tell the vendor. */
  lemma {:induction false} HarnessVendor(harness: string, model: string)
    requires '/' !in model
    ensures Identity(harness, model).Ok? <==> harness == "codex" || harness == "claude"
    ensures harness == "codex" ==> Identity(harness, model) == Ok(("openai", Lower(model)))
    ensures harness == "claude" ==> Identity(harness, model) == Ok(("anthropic", Lower(model)))
  {
    NoSlash(model);
    hide Find, Lower;
  }

  /** A participant is read exactly from four visible one-line fields whose model
      names a vendor and a model; it has these fields and that identity. */
  lemma {:induction false} ParsesExactly(raw: string)
    ensures var f := Fields(raw);
      ParseParticipant(raw).Ok?
      <==> (|f| == 4 && (forall s :: s in f ==> s != "" && OneLine(s)) && Identity(f[1], f[2]).Ok?
            && Identity(f[1], f[2]).value.0 != "" && Identity(f[1], f[2]).value.1 != "")
    ensures ParseParticipant(raw).Ok? ==>
      var p := ParseParticipant(raw).value;
      Fields(raw) == [p.mode, p.harness, p.dispatchModel, p.effort] && Identity(p.harness, p.dispatchModel) == Ok((p.vendor, p.model))
  {
    hide Fields, Identity, OneLine;
    var f := Fields(raw);
    if |f| == 4 { FourFields(f); }
  }

  lemma {:induction false} FourFields(f: seq<string>)
    requires |f| == 4
    ensures f == [f[0], f[1], f[2], f[3]]
    ensures (forall s :: s in f ==> s != "" && OneLine(s)) <==> forall i :: 0 <= i < 4 ==> f[i] != "" && OneLine(f[i])
  {
    hide OneLine;
    forall i | 0 <= i < 4 ensures f[i] in f {}
  }

  /** One model is one reviewer whatever runs it: a name on the codex harness,
      and the same name with its vendor, in any case, on any other. */
  lemma {:induction false} SameModelAnyHarness(harness: string, vendor: string, model: string, other: string)
    requires '/' !in model && '/' !in vendor && Trim(vendor) == vendor && Trim(model) == model && Trim(other) == other
    requires Lower(vendor) == "openai" && Lower(other) == Lower(model)
    ensures Identity(harness, vendor + ("/" + other)) == Identity("codex", model)
  {
    hide *;
    var name := vendor + ("/" + other);
    SlashBetween(vendor, other);
    NamedVendor(harness, name, |vendor|);
    HarnessVendor("codex", model);
  }

  lemma {:induction false} SlashBetween(vendor: string, other: string)
    requires '/' !in vendor
    ensures var name := vendor + ("/" + other);
      |vendor| < |name| && SlashAt(name, |vendor|) && name[..|vendor|] == vendor && name[|vendor| + 1..] == other
  {
    var name := vendor + ("/" + other);
    forall i | 0 <= i < |vendor| ensures name[i] != '/' { assert name[i] in vendor; }
    assert name[|vendor| + 1..] == other;
  }

  // ---- the manifest's form reads back as the same participant ----

  lemma {:induction false} PiecesHoldNoSep(s: string, sep: char)
    ensures forall i :: 0 <= i < |Split(s, sep)| ==> sep !in Split(s, sep)[i]
  {
    if s != "" { PiecesHoldNoSep(s[1..], sep); }
  }

  /** Trimmed text is a stretch of the text, and trimming it again keeps it. */
  lemma TrimShape(s: string)
    ensures Trim(Trim(s)) == Trim(s) && forall c :: c in Trim(s) ==> c in s
  {
    var a, t := TrimStart(s), Trim(s);
    assert t == a[..|t|] && a == s[|s| - |a|..];
    forall c | c in t ensures c in s {
      var i :| 0 <= i < |t| && t[i] == c;
      assert s[|s| - |a| + i] == c;
    }
    if t != "" {
      assert t[0] == a[0];
      assert TrimStart(t) == t;
      assert TrimEnd(t) == t;
    }
  }

  lemma FieldClean(raw: string, i: nat)
    requires i < |Fields(raw)|
    ensures ',' !in Fields(raw)[i] && Trim(Fields(raw)[i]) == Fields(raw)[i]
  {
    PiecesHoldNoSep(raw, ',');
    hide Split, Trim;
    TrimShape(Split(raw, ',')[i]);
  }

  /** Writing down the four fields and parsing them again gives them back. */
  lemma FieldsRoundTrip(raw: string)
    requires |Fields(raw)| == 4
    ensures Fields(Join(Fields(raw), ",")) == Fields(raw)
  {
    hide Split, Trim, Join;
    var f := Fields(raw);
    hide Fields;
    forall i | 0 <= i < |f| ensures ',' !in f[i] && Trim(f[i]) == f[i] { FieldClean(raw, i); }
    SplitJoin(f, ',');
    FieldsOfPieces(Join(f, ","), f);
  }

  lemma FieldsOfPieces(raw: string, f: seq<string>)
    requires Split(raw, ',') == f && forall i :: 0 <= i < |f| ==> Trim(f[i]) == f[i]
    ensures Fields(raw) == f
  {
    hide Split, Trim;
  }

  /** The manifest keeps what identifies a participant: reading it back gives
      the same participant, vendor and model included. */
  lemma SpecRoundTrip(raw: string)
    requires ParseParticipant(raw).Ok?
    ensures ReadSpec(SpecOf(ParseParticipant(raw).value)) == ParseParticipant(raw)
  {
    hide Identity, OneLine, Join, Fields;
    var f := Fields(raw);
    FieldsRoundTrip(raw);
    assert SpecFields(SpecOf(ParseParticipant(raw).value)) == f;
  }

  // ---- panels ----

  /** The author of a report is the model, whatever transport runs it. */
  predicate SameReviewer(a: Participant, b: Participant) { a.vendor == b.vendor && a.model == b.model }

  predicate DifferentModels(panel: seq<Participant>) {
    forall i, j :: 0 <= i < j < |panel| ==> !SameReviewer(panel[i], panel[j])
  }

  datatype PanelError = TooFew | RepeatedModel | NoTransport

  predicate AllRunnable(panel: seq<Participant>, available: set<(string, string)>) {
    forall i :: 0 <= i < |panel| ==> (panel[i].mode, panel[i].harness) in available
  }

  /** The panel rules; `available` holds the ready unattended transports. */
  function ValidatePanel(panel: seq<Participant>, fast: bool, available: set<(string, string)>): (e: Option<PanelError>)
    ensures e.None? <==> |panel| >= (if fast then 1 else 2) && DifferentModels(panel) && AllRunnable(panel, available)
  {
    if |panel| < (if fast then 1 else 2) then Some(TooFew)
    else if !DifferentModels(panel) then Some(RepeatedModel)
    else if !AllRunnable(panel, available) then Some(NoTransport)
    else None
  }

  function ParseAll(raws: seq<string>): (r: Result<seq<Participant>, ParticipantError>)
    ensures r.Ok? ==> |r.value| == |raws| && forall i :: 0 <= i < |raws| ==> ParseParticipant(raws[i]) == Ok(r.value[i])
  {
    if raws == [] then Ok([])
    else
      var first := ParseParticipant(raws[0]);
      if first.Err? then Err(first.error)
      else
        var rest := ParseAll(raws[1..]);
        if rest.Err? then rest else Ok([first.value] + rest.value)
  }

  function Specs(panel: seq<Participant>): (specs: seq<Spec>)
    ensures |specs| == |panel|
  {
    seq(|panel|, i requires 0 <= i < |panel| => SpecOf(panel[i]))
  }

  function ReadAll(specs: seq<Spec>): (r: Result<seq<Participant>, ParticipantError>)
    ensures r.Ok? ==> |r.value| == |specs|
  {
    if specs == [] then Ok([])
    else
      var first := ReadSpec(specs[0]);
      if first.Err? then Err(first.error)
      else
        var rest := ReadAll(specs[1..]);
        if rest.Err? then rest else Ok([first.value] + rest.value)
  }

  /** A panel that was parsed is read back from the manifest unchanged. */
  lemma {:induction false} PanelRoundTrip(raws: seq<string>)
    requires ParseAll(raws).Ok?
    ensures ReadAll(Specs(ParseAll(raws).value)) == ParseAll(raws)
  {
    hide ParseParticipant, ReadSpec, SpecOf;
    if raws != [] {
      var panel, rest := ParseAll(raws).value, ParseAll(raws[1..]).value;
      PanelRoundTrip(raws[1..]);
      SpecRoundTrip(raws[0]);
      assert panel == [ParseParticipant(raws[0]).value] + rest;
      SpecsCons(panel[0], rest);
      hide Specs, ParseAll;
      var specs := Specs(panel);
      assert specs[1..] == Specs(rest) && specs[0] == SpecOf(panel[0]);
    } else {
      assert Specs([]) == [];
    }
  }

  lemma SpecsCons(p: Participant, rest: seq<Participant>)
    ensures Specs([p] + rest) == [SpecOf(p)] + Specs(rest)
  {
  }

  datatype CuratorError = BadSpec(error: ParticipantError) | BadIndex

  /** A curator is a participant of its own or a 1-based panel index. */
  function ResolveCurator(panel: seq<Participant>, raw: string): Result<Participant, CuratorError> {
    if ',' in raw then
      match ParseParticipant(raw)
      case Ok(p) => Ok(p)
      case Err(e) => Err(BadSpec(e))
    else
      var index := ForumIds.ParseUsize(Trim(raw));
      if index.Some? && 1 <= index.value <= |panel| then Ok(panel[index.value - 1]) else Err(BadIndex)
  }

  lemma {:induction false} PlainDigits(s: string)
    requires ForumIds.Digits(s)
    ensures ',' !in s && Trim(s) == s
  {
    if s != "" { assert ForumIds.Digit(s[0]) && ForumIds.Digit(s[|s| - 1]); }
  }

  /** A number names the participant of that place, counted from one; any other
      number is refused. */
  lemma {:induction false} CuratorByIndex(panel: seq<Participant>, n: nat)
    requires |panel| < ForumIds.USIZE
    ensures ResolveCurator(panel, ForumIds.Decimal(n)) == if 1 <= n <= |panel| then Ok(panel[n - 1]) else Err(BadIndex)
  {
    ForumIds.ValueOfDecimal(n);
    ForumIds.ParseDecimal(n);
    hide ForumIds.Decimal, ForumIds.ParseUsize, Trim;
    PlainDigits(ForumIds.Decimal(n));
  }

  /** A spec of its own is read like a participant. */
  lemma {:induction false} CuratorBySpec(panel: seq<Participant>, raw: string)
    requires ParseParticipant(raw).Ok?
    ensures ResolveCurator(panel, raw) == Ok(ParseParticipant(raw).value)
  {
    if ',' !in raw { ForumIds.SplitWhole(raw, ','); }
    hide OneLine, Identity;
  }
}
