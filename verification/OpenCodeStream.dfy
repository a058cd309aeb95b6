/** The OpenCode normalizer: streamed deltas merged with snapshots of the same
    part, and the turn that is open. */
module OpenCodeStream {
  import opened Outcomes

  /** Text is measured and sliced in UTF-16 code units. */
  type Units = seq<bv16>

  datatype PartKind = TextPart | ReasoningPart | ToolPart | OtherPart

  datatype ToolStatus = Pending | Running | Completed | Failed

  /** The native events that touch the state, with missing and empty fields
      alike as `None` or the empty text. */
  datatype Native =
    | MessageUpdated(id: Option<string>, role: Option<string>)
    | MessageRemoved(id: Option<string>)
    | PartDelta(part: Option<string>, delta: Units, reasoning: bool)
    | PartUpdated(part: Option<string>, message: Option<string>, kind: PartKind, text: Units, ended: bool, status: ToolStatus)
    | Idle
    | Retry
    | SessionFailed
    | Ignored

  datatype Event = Event(session: Option<string>, native: Native)

  datatype Emission =
    | ContentDelta(part: string, reasoning: bool, delta: Units)
    | MessageCompleted(part: string)
    | ToolItem(status: ToolStatus)
    | TurnStarted(turn: nat)
    | TurnCompleted(turn: nat, ok: bool)
    | RuntimeError
    | RuntimeWarning

  /** `minted` counts the turn ids given out so far. */
  datatype State = State(session: string, turn: Option<nat>, minted: nat, roles: map<string, string>, parts: map<string, Units>)

  function Stored(s: State, part: string): Units { if part in s.parts then s.parts[part] else [] }

  // ---- one native event ----

  predicate Foreign(s: State, e: Event) { e.session.Some? && e.session.value != s.session }

  /** A snapshot counts when its message is the assistant's. */
  predicate Speaks(s: State, n: Native)
    requires n.PartUpdated?
  {
    n.message.Some? && n.message.value in s.roles && s.roles[n.message.value] == "assistant" && n.part.Some?
  }

  predicate HasText(n: Native)
    requires n.PartUpdated?
  {
    n.kind == TextPart || n.kind == ReasoningPart
  }

  /** The snapshot is longer than what is stored. */
  predicate Longer(s: State, n: Native)
    requires n.PartUpdated?
  {
    Speaks(s, n) && HasText(n) && |n.text| > |Stored(s, n.part.value)|
  }

  /** What a longer snapshot adds; all of it when it does not continue the
      stored text. */
  function Added(previous: Units, text: Units): Units {
    if previous <= text then text[|previous|..] else text
  }

  function After(s: State, e: Event): State {
    if Foreign(s, e) then s
    else
      match e.native
      case MessageUpdated(id, role) =>
        if id.Some? && role.Some? then s.(roles := s.roles[id.value := role.value]) else s
      case MessageRemoved(id) => if id.Some? then s.(roles := s.roles - {id.value}) else s
      case PartDelta(part, delta, _) =>
        if part.None? || delta == [] || s.turn.None? then s
        else s.(parts := s.parts[part.value := Stored(s, part.value) + delta])
      case PartUpdated(part, _, _, text, _, _) =>
        if Longer(s, e.native) then s.(parts := s.parts[part.value := text]) else s
      case Idle => s.(turn := None)
      case SessionFailed => s.(turn := None)
      case _ => s
  }

  /** A turn that ends, if one is open. */
  function EndsTurn(s: State, ok: bool): seq<Emission> { if s.turn.Some? then [TurnCompleted(s.turn.value, ok)] else [] }

  /** The longer text, the completed message, the tool item. */
  function SnapshotEmits(s: State, n: Native): (r: seq<Emission>)
    requires n.PartUpdated?
    ensures forall i :: 0 <= i < |r| ==> !r[i].TurnCompleted?
  {
    (if Longer(s, n) then [ContentDelta(n.part.value, n.kind == ReasoningPart, Added(Stored(s, n.part.value), n.text))] else [])
    + ItemEmits(s, n)
  }

  function ItemEmits(s: State, n: Native): (r: seq<Emission>)
    requires n.PartUpdated?
    ensures forall i :: 0 <= i < |r| ==> !r[i].ContentDelta? && !r[i].TurnCompleted?
  {
    (if Speaks(s, n) && n.kind == TextPart && n.ended then [MessageCompleted(n.part.value)] else [])
    + (if n.kind == ToolPart then [ToolItem(n.status)] else [])
  }

  function Emits(s: State, e: Event): seq<Emission> {
    if Foreign(s, e) then []
    else
      match e.native
      case PartDelta(part, delta, reasoning) =>
        if part.None? || delta == [] || s.turn.None? then [] else [ContentDelta(part.value, reasoning, delta)]
      case PartUpdated(_, _, _, _, _, _) => SnapshotEmits(s, e.native)
      case Idle => EndsTurn(s, true)
      case Retry => [RuntimeWarning]
      case SessionFailed => EndsTurn(s, false) + [RuntimeError]
      case _ => []
  }

  // ---- the code ----

  class OpenCodeState {
    const sessionId: string
    var turnId: Option<nat>
    var minted: nat
    var messageRoles: map<string, string>
    var partText: map<string, Units>

    constructor (sessionId: string)
      ensures View() == State(sessionId, None, 0, map[], map[])
    {
      this.sessionId := sessionId;
      turnId, minted, messageRoles, partText := None, 0, map[], map[];
    }

    function View(): State reads this { State(sessionId, turnId, minted, messageRoles, partText) }

    method Normalize(e: Event) returns (events: seq<Emission>)
      modifies this
      ensures View() == After(old(View()), e) && events == Emits(old(View()), e)
    {
      events := [];
      if e.session.Some? && e.session.value != sessionId { return; }
      match e.native {
        case MessageUpdated(id, role) =>
          if id.Some? && role.Some? { messageRoles := messageRoles[id.value := role.value]; }
        case MessageRemoved(id) =>
          if id.Some? { messageRoles := messageRoles - {id.value}; }
        case PartDelta(part, delta, reasoning) =>
          if part.None? || delta == [] || turnId.None? { return; }
          var previous := if part.value in partText then partText[part.value] else [];
          partText := partText[part.value := previous + delta];
          events := [ContentDelta(part.value, reasoning, delta)];
        case PartUpdated(_, _, _, _, _, _) =>
          events := NormalizeSnapshot(e.native);
        case Idle =>
          if turnId.Some? {
            events := [TurnCompleted(turnId.value, true)];
            turnId := None;
          }
        case Retry =>
          events := [RuntimeWarning];
        case SessionFailed =>
          if turnId.Some? {
            events := [TurnCompleted(turnId.value, false)];
            turnId := None;
          }
          events := events + [RuntimeError];
        case Ignored =>
      }
    }

    /** The branch of `Normalize` for a snapshot of a part. */
    method NormalizeSnapshot(n: Native) returns (events: seq<Emission>)
      requires n.PartUpdated?
      modifies this`partText
      ensures events == SnapshotEmits(old(View()), n)
      ensures partText == if Longer(old(View()), n) then old(partText)[n.part.value := n.text] else old(partText)
    {
      events := [];
      var role := if n.message.Some? && n.message.value in messageRoles then messageRoles[n.message.value] else "";
      if role == "assistant" && n.part.Some? {
        var previous := if n.part.value in partText then partText[n.part.value] else [];
        if (n.kind == TextPart || n.kind == ReasoningPart) && |n.text| > |previous| {
          var delta := if previous <= n.text then n.text[|previous|..] else n.text;
          partText := partText[n.part.value := n.text];
          events := events + [ContentDelta(n.part.value, n.kind == ReasoningPart, delta)];
        }
        if n.kind == TextPart && n.ended { events := events + [MessageCompleted(n.part.value)]; }
      }
      if n.kind == ToolPart { events := events + [ToolItem(n.status)]; }
    }

    /** A send opens a turn unless one is open, and remembers its id. */
    method BeginSend() returns (turn: nat, events: seq<Emission>)
      modifies this
      ensures (View(), turn, events) == Begun(old(View()))
    {
      events := [];
      if turnId.None? {
        turnId := Some(minted);
        minted := minted + 1;
        events := [TurnStarted(turnId.value)];
      }
      turn := turnId.value;
    }

    /** A send that failed closes its turn if that is still open, and reports
        the turn as completed in any case. */
    method FailSend(turn: nat) returns (events: seq<Emission>)
      modifies this
      ensures (View(), events) == SendFailed(old(View()), turn)
    {
      if turnId == Some(turn) { turnId := None; }
      events := [TurnCompleted(turn, false)];
    }

    /** The event stream ended or failed while the session was not stopped. */
    method FailTransport() returns (events: seq<Emission>)
      modifies this
      ensures (View(), events) == TransportFailed(old(View()))
    {
      events := [];
      if turnId.Some? {
        events := [TurnCompleted(turnId.value, false)];
        turnId := None;
      }
      events := events + [RuntimeError];
    }
  }

  function Begun(s: State): (State, nat, seq<Emission>) {
    if s.turn.Some? then (s, s.turn.value, [])
    else (s.(turn := Some(s.minted), minted := s.minted + 1), s.minted, [TurnStarted(s.minted)])
  }

  function SendFailed(s: State, turn: nat): (State, seq<Emission>) {
    (if s.turn == Some(turn) then s.(turn := None) else s, [TurnCompleted(turn, false)])
  }

  function TransportFailed(s: State): (State, seq<Emission>) { (s.(turn := None), EndsTurn(s, false) + [RuntimeError]) }

  // ---- every sequence of events and sends ----

  datatype Op = Native(e: Event) | Begin | Fail(turn: nat) | Lost

  datatype Run = Run(state: State, emitted: seq<Emission>)

  function Step(r: Run, op: Op): Run {
    match op
    case Native(e) => Run(After(r.state, e), r.emitted + Emits(r.state, e))
    case Begin => Run(Begun(r.state).0, r.emitted + Begun(r.state).2)
    case Fail(turn) => Run(SendFailed(r.state, turn).0, r.emitted + SendFailed(r.state, turn).1)
    case Lost => Run(TransportFailed(r.state).0, r.emitted + TransportFailed(r.state).1)
  }

  function OpEmits(s: State, op: Op): seq<Emission> {
    match op
    case Native(e) => Emits(s, e)
    case Begin => Begun(s).2
    case Fail(turn) => SendFailed(s, turn).1
    case Lost => TransportFailed(s).1
  }

  function RunAll(session: string, ops: seq<Op>): Run {
    if ops == [] then Run(State(session, None, 0, map[], map[]), [])
    else Step(RunAll(session, ops[..|ops| - 1]), ops[|ops| - 1])
  }

  /** The concatenation of the deltas emitted for a part. */
  function Told(emitted: seq<Emission>, part: string): Units {
    if emitted == [] then []
    else
      var last := emitted[|emitted| - 1];
      Told(emitted[..|emitted| - 1], part) + if last.ContentDelta? && last.part == part then last.delta else []
  }

  /** A longer snapshot of this part that does not continue the stored text. */
  predicate Disagrees(s: State, op: Op, part: string) {
    op.Native? && !Foreign(s, op.e) && op.e.native.PartUpdated? && op.e.native.part == Some(part)
    && Longer(s, op.e.native) && !(Stored(s, part) <= op.e.native.text)
  }

  predicate EverDisagreed(session: string, ops: seq<Op>, part: string) {
    ops != [] && (EverDisagreed(session, ops[..|ops| - 1], part)
      || Disagrees(RunAll(session, ops[..|ops| - 1]).state, ops[|ops| - 1], part))
  }

  predicate SuffixOf(a: Units, b: Units) { |a| <= |b| && b[|b| - |a|..] == a }

  lemma {:induction false} ToldAppend(emitted: seq<Emission>, more: seq<Emission>, part: string)
    ensures Told(emitted + more, part) == Told(emitted, part) + Told(more, part)
  {
    if more == [] {
      assert emitted + more == emitted;
    } else {
      var n := |more| - 1;
      assert (emitted + more)[..|emitted| + n] == emitted + more[..n] && (emitted + more)[|emitted| + n] == more[n];
      ToldAppend(emitted, more[..n], part);
      var add: Units := if more[n].ContentDelta? && more[n].part == part then more[n].delta else [];
      assert Told(emitted + more, part) == Told(emitted + more[..n], part) + add;
      assert Told(more, part) == Told(more[..n], part) + add;
      hide Told;
      Associative(Told(emitted, part), Told(more[..n], part), add);
    }
  }

  lemma {:induction false} Associative(a: Units, b: Units, c: Units)
    ensures (a + b) + c == a + (b + c)
  {
  }

  lemma {:induction false} ToldOne(x: Emission, part: string)
    ensures Told([x], part) == if x.ContentDelta? && x.part == part then x.delta else []
  {
    assert [x][..0] == [];
    assert Told([x], part) == Told([], part) + if x.ContentDelta? && x.part == part then x.delta else [];
  }

  lemma {:induction false} ToldQuiet(more: seq<Emission>, part: string)
    requires forall i :: 0 <= i < |more| ==> !more[i].ContentDelta?
    ensures Told(more, part) == []
  {
    if more != [] { ToldQuiet(more[..|more| - 1], part); }
  }

  /** What one event tells about a part. */
  function Tells(s: State, e: Event, part: string): Units {
    if Foreign(s, e) then []
    else if e.native.PartDelta? && e.native.part == Some(part) && s.turn.Some? then e.native.delta
    else if e.native.PartUpdated? && e.native.part == Some(part) && Longer(s, e.native)
    then Added(Stored(s, part), e.native.text)
    else []
  }

  lemma {:induction false} ToldFirst(first: Emission, rest: seq<Emission>, part: string)
    requires forall i :: 0 <= i < |rest| ==> !rest[i].ContentDelta?
    ensures Told([first] + rest, part) == if first.ContentDelta? && first.part == part then first.delta else []
  {
    hide Told;
    ToldOne(first, part);
    ToldQuiet(rest, part);
    ToldAppend([first], rest, part);
  }

  lemma {:induction false} SnapshotTells(s: State, n: Native, part: string)
    requires n.PartUpdated?
    ensures Told(SnapshotEmits(s, n), part)
         == if n.part == Some(part) && Longer(s, n) then Added(Stored(s, part), n.text) else []
  {
    hide Told, ItemEmits, Added, Stored;
    if Longer(s, n) {
      ToldFirst(ContentDelta(n.part.value, n.kind == ReasoningPart, Added(Stored(s, n.part.value), n.text)), ItemEmits(s, n), part);
    } else {
      assert SnapshotEmits(s, n) == ItemEmits(s, n);
      ToldQuiet(ItemEmits(s, n), part);
    }
  }

  lemma {:induction false} EmitsTells(s: State, e: Event, part: string)
    ensures Told(Emits(s, e), part) == Tells(s, e, part)
  {
    hide Told, SnapshotEmits, Longer, Added, Stored;
    if !Foreign(s, e) && e.native.PartUpdated? {
      SnapshotTells(s, e.native, part);
    } else if !Foreign(s, e) && e.native.PartDelta? && Emits(s, e) != [] {
      ToldOne(Emits(s, e)[0], part);
    } else {
      ToldQuiet(Emits(s, e), part);
    }
  }

  /** What one step tells about a part is what it adds to the stored text,
      except for a disagreeing snapshot, which is told and stored in full. */
  lemma {:induction false} StepTells(r: Run, op: Op, part: string)
    ensures r.emitted <= Step(r, op).emitted
    ensures TellsRight(r.state, op, Step(r, op).state, Told(Step(r, op).emitted[|r.emitted|..], part), part)
  {
    var more := OpEmits(r.state, op);
    StepEmits(r, op);
    hide Step, Told, Emits;
    if op.Native? {
      EmitsTells(r.state, op.e, part);
      AfterStores(r.state, op.e, part);
    } else {
      ToldQuiet(more, part);
    }
  }

  lemma {:induction false} StepEmits(r: Run, op: Op)
    ensures Step(r, op).emitted == r.emitted + OpEmits(r.state, op) && Step(r, op).emitted[|r.emitted|..] == OpEmits(r.state, op)
    ensures op.Native? ==> Step(r, op).state == After(r.state, op.e)
    ensures !op.Native? ==> Step(r, op).state.parts == r.state.parts
  {
    hide After, Emits;
  }

  predicate TellsRight(s: State, op: Op, s': State, told: Units, part: string) {
    var was, now := Stored(s, part), Stored(s', part);
    if Disagrees(s, op, part) then told == now && |now| > |was| > 0 else now == was + told
  }

  lemma {:induction false} AfterStores(s: State, e: Event, part: string)
    ensures TellsRight(s, Native(e), After(s, e), Tells(s, e, part), part)
  {
  }

  /** For every part and every sequence of events and sends: the stored text is
      a suffix of what was told, and the two are equal if and only if no longer
      snapshot ever disagreed with the stored text. */
  lemma {:induction false} StoredIsTold(session: string, ops: seq<Op>, part: string)
    ensures SuffixOf(Stored(RunAll(session, ops).state, part), Told(RunAll(session, ops).emitted, part))
    ensures Stored(RunAll(session, ops).state, part) == Told(RunAll(session, ops).emitted, part)
      <==> !EverDisagreed(session, ops, part)
  {
    hide Step, Stored, Disagrees;
    if ops != [] {
      var r, op := RunAll(session, ops[..|ops| - 1]), ops[|ops| - 1];
      var r' := Step(r, op);
      StoredIsTold(session, ops[..|ops| - 1], part);
      StepTells(r, op, part);
      var more := r'.emitted[|r.emitted|..];
      assert r'.emitted == r.emitted + more;
      ToldAppend(r.emitted, more, part);
      hide Told;
      var stored, told, add := Stored(r.state, part), Told(r.emitted, part), Told(more, part);
      if !Disagrees(r.state, op, part) { SuffixGrows(stored, told, add); }
    } else {
      NothingTold(session, part);
    }
  }

  lemma {:induction false} SuffixGrows(a: Units, b: Units, c: Units)
    requires SuffixOf(a, b)
    ensures SuffixOf(a + c, b + c) && (a + c == b + c <==> a == b)
  {
    if a + c == b + c { assert a == (a + c)[..|a|]; }
  }

  lemma {:induction false} NothingTold(session: string, part: string)
    ensures Stored(RunAll(session, []).state, part) == [] && Told(RunAll(session, []).emitted, part) == []
  {
  }

  /** Stored text never gets shorter. */
  lemma {:induction false} StoredGrows(session: string, ops: seq<Op>, more: seq<Op>, part: string)
    ensures |Stored(RunAll(session, ops).state, part)| <= |Stored(RunAll(session, ops + more).state, part)|
  {
    hide Step, Stored, Disagrees, Told;
    if more == [] {
      assert ops + more == ops;
    } else {
      var n := |more| - 1;
      assert (ops + more)[..|ops| + n] == ops + more[..n];
      StoredGrows(session, ops, more[..n], part);
      StepTells(RunAll(session, ops + more[..n]), more[n], part);
    }
  }

  /** Replaying a snapshot tells nothing and changes nothing. */
  lemma {:induction false} ReplayIsSilent(r: Run, e: Event, part: string)
    requires e.native.PartUpdated?
    ensures Step(Step(r, Native(e)), Native(e)).state == Step(r, Native(e)).state
    ensures Told(Step(Step(r, Native(e)), Native(e)).emitted, part) == Told(Step(r, Native(e)).emitted, part)
  {
    var once := Step(r, Native(e));
    ReplayAfter(r.state, e, part);
    hide Emits, After, Tells, Told;
    EmitsTells(once.state, e, part);
    ToldAppend(once.emitted, Emits(once.state, e), part);
  }

  lemma {:induction false} ReplayAfter(s: State, e: Event, part: string)
    requires e.native.PartUpdated?
    ensures After(After(s, e), e) == After(s, e) && Tells(After(s, e), e, part) == []
  {
  }

  /** The snapshot is another session's, holds no text, or was read as the
      assistant's. */
  predicate Settled(s: State, e: Event)
    requires e.native.PartUpdated?
  {
    Foreign(s, e) || !HasText(e.native) || Speaks(s, e.native)
  }

  /** Replaying a settled snapshot after any later events and sends tells nothing
      and changes nothing. */
  lemma {:induction false} LaterReplayIsSilent(session: string, ops: seq<Op>, e: Event, more: seq<Op>)
    requires e.native.PartUpdated? && Settled(RunAll(session, ops).state, e)
    ensures var now := RunAll(session, ops + [Native(e)] + more).state;
      After(now, e) == now && forall part :: Tells(now, e, part) == []
  {
    var first := ops + [Native(e)];
    assert first[..|first| - 1] == ops;
    var s, once, now := RunAll(session, ops).state, RunAll(session, first).state, RunAll(session, first + more).state;
    SessionStays(session, ops);
    SessionStays(session, first + more);
    if e.native.part.Some? {
      StoredGrows(session, first, more, e.native.part.value);
    }
    hide RunAll;
    if !Foreign(s, e) && Speaks(s, e.native) && HasText(e.native) { SnapshotIsStored(s, e); }
  }

  lemma {:induction false} SnapshotIsStored(s: State, e: Event)
    requires e.native.PartUpdated? && !Foreign(s, e) && Speaks(s, e.native) && HasText(e.native)
    ensures |Stored(After(s, e), e.native.part.value)| >= |e.native.text|
  {
  }

  lemma {:induction false} SessionStays(session: string, ops: seq<Op>)
    ensures RunAll(session, ops).state.session == session
  {
    if ops != [] {
      SessionStays(session, ops[..|ops| - 1]);
      hide Emits;
    }
  }

  /** The failing case: a snapshot that came before its message's role was known
      is told when it is replayed afterwards. */
  lemma {:induction false} UnsettledIsTold(session: string, part: string, message: string, text: Units)
    requires text != []
    ensures var e := Event(None, PartUpdated(Some(part), Some(message), TextPart, text, false, Pending));
      var before := RunAll(session, [Native(e)]).state;
      var now := RunAll(session, [Native(e), Native(Event(None, MessageUpdated(Some(message), Some("assistant"))))]).state;
      Stored(before, part) == [] && Tells(now, e, part) == text
  {
    var e := Event(None, PartUpdated(Some(part), Some(message), TextPart, text, false, Pending));
    var known := Native(Event(None, MessageUpdated(Some(message), Some("assistant"))));
    var a, b := [Native(e)], [Native(e), known];
    assert a[..0] == [] && b[..1] == a;
    assert RunAll(session, a) == Step(RunAll(session, []), a[0]);
    assert RunAll(session, b) == Step(RunAll(session, a), b[1]);
  }

  // ---- turns ----

  function Completions(emitted: seq<Emission>, turn: nat): nat {
    if emitted == [] then 0
    else
      var last := emitted[|emitted| - 1];
      Completions(emitted[..|emitted| - 1], turn) + if last.TurnCompleted? && last.turn == turn then 1 else 0
  }

  function Failures(ops: seq<Op>, turn: nat): nat {
    if ops == [] then 0
    else Failures(ops[..|ops| - 1], turn) + if ops[|ops| - 1] == Fail(turn) then 1 else 0
  }

  lemma {:induction false} CompletionsAppend(emitted: seq<Emission>, more: seq<Emission>, turn: nat)
    ensures Completions(emitted + more, turn) == Completions(emitted, turn) + Completions(more, turn)
  {
    if more == [] {
      assert emitted + more == emitted;
    } else {
      var n := |more| - 1;
      assert (emitted + more)[..|emitted| + n] == emitted + more[..n];
      CompletionsAppend(emitted, more[..n], turn);
    }
  }

  function Completes(s: State, op: Op, turn: nat): nat {
    match op
    case Native(e) => if !Foreign(s, e) && (e.native.Idle? || e.native.SessionFailed?) && s.turn == Some(turn) then 1 else 0
    case Begin => 0
    case Fail(t) => if t == turn then 1 else 0
    case Lost => if s.turn == Some(turn) then 1 else 0
  }

  lemma {:induction false} CompletionsQuiet(more: seq<Emission>, turn: nat)
    requires forall i :: 0 <= i < |more| ==> !more[i].TurnCompleted?
    ensures Completions(more, turn) == 0
  {
    if more != [] { CompletionsQuiet(more[..|more| - 1], turn); }
  }

  lemma {:induction false} CompletionsFirst(x: Emission, more: seq<Emission>, turn: nat)
    requires forall i :: 0 <= i < |more| ==> !more[i].TurnCompleted?
    ensures Completions([x] + more, turn) == if x.TurnCompleted? && x.turn == turn then 1 else 0
  {
    CompletionsQuiet(more, turn);
    CompletionsAppend([x], more, turn);
    assert [x][..0] == [];
    assert Completions([x], turn) == Completions([], turn) + if x.TurnCompleted? && x.turn == turn then 1 else 0;
  }

  lemma {:induction false} StepCompletes(r: Run, op: Op, turn: nat)
    ensures Completions(Step(r, op).emitted, turn) == Completions(r.emitted, turn) + Completes(r.state, op, turn)
  {
    var more := OpEmits(r.state, op);
    StepEmits(r, op);
    CompletionsAppend(r.emitted, more, turn);
    hide Completions, SnapshotEmits, Step;
    if more != [] && more[0].TurnCompleted? {
      assert more == [more[0]] + more[1..];
      CompletionsFirst(more[0], more[1..], turn);
    } else {
      CompletionsQuiet(more, turn);
    }
  }

  /** A turn that is no longer open. */
  function Ended(s: State, turn: nat): nat { if turn < s.minted && s.turn != Some(turn) then 1 else 0 }

  /** How often the turn, while open, was ended by an event or the transport. */
  function OtherEnds(session: string, ops: seq<Op>, turn: nat): nat {
    if ops == [] then 0
    else
      var last := ops[|ops| - 1];
      OtherEnds(session, ops[..|ops| - 1], turn)
      + if last.Fail? then 0 else Completes(RunAll(session, ops[..|ops| - 1]).state, last, turn)
  }

  lemma {:induction false} StepEnds(s: State, op: Op, turn: nat)
    requires s.turn.Some? ==> s.turn.value < s.minted
    ensures var s' := Step(Run(s, []), op).state;
      (s'.turn.Some? ==> s'.turn.value < s'.minted)
      && (if op.Fail? then 0 else Completes(s, op, turn)) + Ended(s, turn) <= Ended(s', turn)
  {
  }

  lemma {:induction false} FailCompletes(s: State, op: Op, turn: nat)
    requires op.Fail?
    ensures Completes(s, op, turn) == if op == Fail(turn) then 1 else 0
  {
  }

  /** Exactly as often as a turn's sends failed, and once more if it was ended
      otherwise, which happens at most once, is it reported completed. */
  lemma {:induction false} CompletionCount(session: string, ops: seq<Op>, turn: nat)
    ensures RunAll(session, ops).state.turn.Some? ==> RunAll(session, ops).state.turn.value < RunAll(session, ops).state.minted
    ensures Completions(RunAll(session, ops).emitted, turn) == Failures(ops, turn) + OtherEnds(session, ops, turn)
    ensures OtherEnds(session, ops, turn) <= Ended(RunAll(session, ops).state, turn) <= 1
  {
    hide Step, Ended, Completes, Completions;
    EndedBound(RunAll(session, ops).state, turn);
    if ops != [] {
      var r, op := RunAll(session, ops[..|ops| - 1]), ops[|ops| - 1];
      CompletionCount(session, ops[..|ops| - 1], turn);
      StepCompletes(r, op, turn);
      StepEnds(r.state, op, turn);
      SameState(r, op);
      if op.Fail? { FailCompletes(r.state, op, turn); }
    } else {
      CompletionsQuiet([], turn);
    }
  }

  /** A turn is reported completed at most once if and only if none of its
      sends failed, or one did and the turn was not ended otherwise. */
  lemma {:induction false} CompletedOnce(session: string, ops: seq<Op>, turn: nat)
    ensures Completions(RunAll(session, ops).emitted, turn) <= 1
       <==> Failures(ops, turn) == 0 || (Failures(ops, turn) == 1 && OtherEnds(session, ops, turn) == 0)
  {
    CompletionCount(session, ops, turn);
  }

  /** Once a turn has ended only its failing sends report it again. */
  lemma {:induction false} EndedStays(session: string, ops: seq<Op>, more: seq<Op>, turn: nat)
    requires Ended(RunAll(session, ops).state, turn) == 1
    ensures Ended(RunAll(session, ops + more).state, turn) == 1
    ensures OtherEnds(session, ops + more, turn) == OtherEnds(session, ops, turn)
  {
    hide Step, Ended, Completes, Completions;
    if more == [] {
      assert ops + more == ops;
    } else {
      var n := |more| - 1;
      assert (ops + more)[..|ops| + n] == ops + more[..n];
      EndedStays(session, ops, more[..n], turn);
      var r := RunAll(session, ops + more[..n]);
      CompletionCount(session, ops + more[..n], turn);
      EndedBound(RunAll(session, ops + more).state, turn);
      StepEnds(r.state, more[n], turn);
      SameState(r, more[n]);
    }
  }

  lemma {:induction false} EndedBound(s: State, turn: nat)
    ensures 0 <= Ended(s, turn) <= 1
  {
  }

  lemma {:induction false} SameState(r: Run, op: Op)
    ensures Step(r, op).state == Step(Run(r.state, []), op).state
  {
  }

  /** The bound is reached: when the session goes idle before its send fails,
      the turn is reported completed twice. */
  lemma {:induction false} CompletedTwice(session: string)
    ensures Completions(RunAll(session, [Begin, Native(Event(None, Idle)), Fail(0)]).emitted, 0) == 2
  {
    var a, b, c := [Begin], [Begin, Native(Event(None, Idle))], [Begin, Native(Event(None, Idle)), Fail(0)];
    assert a[..0] == [] && b[..1] == a && c[..2] == b;
    var r0, r1, r2 := RunAll(session, []), RunAll(session, a), RunAll(session, b);
    StepCompletes(r0, Begin, 0);
    StepCompletes(r1, b[1], 0);
    StepCompletes(r2, c[2], 0);
  }

  // ---- what is reported ----

  /** The session's own event. */
  predicate Own(s: State, op: Op) { op.Native? && (op.e.session.None? || op.e.session == Some(s.session)) }

  /** `delta` takes the stored text to the snapshot's, or is all of it. */
  predicate Carries(previous: Units, text: Units, delta: Units) {
    if previous <= text then previous + delta == text else delta == text
  }

  /** Which step reports what, with every payload. */
  predicate Reports(s: State, op: Op, x: Emission) {
    match x
    case TurnStarted(turn) => op.Begin? && s.turn.None? && turn == s.minted
    case TurnCompleted(turn, true) => Own(s, op) && op.e.native.Idle? && s.turn == Some(turn)
    case TurnCompleted(turn, false) =>
      op == Fail(turn) || (s.turn == Some(turn) && (op.Lost? || (Own(s, op) && op.e.native.SessionFailed?)))
    case ContentDelta(part, reasoning, delta) => Own(s, op) && ReportsText(s, op.e.native, part, reasoning, delta)
    case MessageCompleted(part) =>
      Own(s, op) && op.e.native.PartUpdated? && op.e.native.part == Some(part) && Speaks(s, op.e.native)
      && op.e.native.kind == TextPart && op.e.native.ended
    case ToolItem(status) => Own(s, op) && op.e.native.PartUpdated? && op.e.native.kind == ToolPart && op.e.native.status == status
    case RuntimeError => op.Lost? || (Own(s, op) && op.e.native.SessionFailed?)
    case RuntimeWarning => Own(s, op) && op.e.native.Retry?
  }

  /** A streamed delta while a turn is open, or a longer snapshot of the
      assistant's; it is reasoning when the delta's field or the part is. */
  predicate ReportsText(s: State, n: Native, part: string, reasoning: bool, delta: Units) {
    (n == PartDelta(Some(part), delta, reasoning) && delta != [] && s.turn.Some?)
    || (n.PartUpdated? && n.part == Some(part) && Longer(s, n) && reasoning == n.kind.ReasoningPart?
        && Carries(Stored(s, part), n.text, delta))
  }

  /** How many steps of a run report `x`. */
  function Dues(session: string, ops: seq<Op>, x: Emission): nat {
    if ops == [] then 0
    else
      var n := |ops| - 1;
      Dues(session, ops[..n], x) + if Reports(RunAll(session, ops[..n]).state, ops[n], x) then 1 else 0
  }

  lemma {:induction false} SnapshotReports(s: State, n: Native, x: Emission)
    requires n.PartUpdated?
    ensures x.ContentDelta? ==> multiset(SnapshotEmits(s, n))[x] == if ReportsText(s, n, x.part, x.reasoning, x.delta) then 1 else 0
    ensures !x.ContentDelta? ==> multiset(SnapshotEmits(s, n))[x] == multiset(ItemEmits(s, n))[x]
  {
    hide ItemEmits;
    assert x.ContentDelta? ==> x !in ItemEmits(s, n);
    if Longer(s, n) { CarriesAdded(Stored(s, n.part.value), n.text); }
  }

  lemma {:induction false} CarriesAdded(previous: Units, text: Units)
    ensures forall delta :: Carries(previous, text, delta) <==> delta == Added(previous, text)
  {
    forall delta ensures Carries(previous, text, delta) <==> delta == Added(previous, text) {
      if previous <= text {
        assert text == previous + text[|previous|..];
        assert previous + delta == text ==> delta == (previous + delta)[|previous|..];
      }
    }
  }

  lemma {:induction false} StepReports(s: State, op: Op, x: Emission)
    ensures multiset(OpEmits(s, op))[x] == if Reports(s, op, x) then 1 else 0
  {
    hide SnapshotEmits, ReportsText, Speaks, Emits;
    if op.Native? { EventReports(s, op, x); }
  }

  lemma {:induction false} ItemReports(s: State, n: Native, x: Emission)
    requires n.PartUpdated?
    ensures x.MessageCompleted? ==>
      multiset(ItemEmits(s, n))[x] == if n.part == Some(x.part) && Speaks(s, n) && n.kind == TextPart && n.ended then 1 else 0
    ensures x.ToolItem? ==> multiset(ItemEmits(s, n))[x] == if n.kind == ToolPart && n.status == x.status then 1 else 0
    ensures !x.MessageCompleted? && !x.ToolItem? ==> multiset(ItemEmits(s, n))[x] == 0
  {
  }

  lemma {:induction false} EventReports(s: State, op: Op, x: Emission)
    requires op.Native?
    ensures multiset(Emits(s, op.e))[x] == if Reports(s, op, x) then 1 else 0
  {
    hide SnapshotEmits, ItemEmits, Speaks, Longer, Carries;
    if !Foreign(s, op.e) && op.e.native.PartUpdated? {
      hide ReportsText;
      SnapshotReports(s, op.e.native, x);
      ItemReports(s, op.e.native, x);
    } else if !op.e.native.PartUpdated? {
      PlainReports(s, op, x);
    }
  }

  lemma {:induction false} OwnIs(s: State, op: Op)
    requires op.Native?
    ensures Own(s, op) <==> !Foreign(s, op.e)
  {
  }

  lemma {:induction false} PlainReports(s: State, op: Op, x: Emission)
    requires op.Native? && !op.e.native.PartUpdated?
    ensures multiset(Emits(s, op.e))[x] == if Reports(s, op, x) then 1 else 0
  {
    OwnIs(s, op);
    hide SnapshotEmits, Speaks, Longer, Carries, Own, EndsTurn;
    if Foreign(s, op.e) {
      assert Emits(s, op.e) == [];
    } else if op.e.native.PartDelta? {
      DeltaReports(s, op, x);
    } else {
      assert op.e.native.Idle? ==> Emits(s, op.e) == EndsTurn(s, true);
      assert op.e.native.Retry? ==> Emits(s, op.e) == [RuntimeWarning];
      assert op.e.native.SessionFailed? ==> Emits(s, op.e) == EndsTurn(s, false) + [RuntimeError];
      assert !op.e.native.Idle? && !op.e.native.Retry? && !op.e.native.SessionFailed? ==> Emits(s, op.e) == [];
      hide Emits, ReportsText, Foreign;
      if x.ContentDelta? { OtherText(s, op, x); }
      CountOne(RuntimeWarning, x);
      EndReports(s, x);
      IdleReports(s, x);
    }
  }

  lemma {:induction false} OtherText(s: State, op: Op, x: Emission)
    requires op.Native? && !op.e.native.PartUpdated? && !op.e.native.PartDelta? && x.ContentDelta?
    ensures !ReportsText(s, op.e.native, x.part, x.reasoning, x.delta)
  {
  }

  lemma {:induction false} DeltaReports(s: State, op: Op, x: Emission)
    requires op.Native? && op.e.native.PartDelta? && !Foreign(s, op.e)
    ensures multiset(Emits(s, op.e))[x] == if Reports(s, op, x) then 1 else 0
  {
    OwnIs(s, op);
    var n := op.e.native;
    hide SnapshotEmits, Longer, Carries, Own, EndsTurn, Foreign;
    if n.part.None? || n.delta == [] || s.turn.None? {
      assert Emits(s, op.e) == [];
    } else {
      assert Emits(s, op.e) == [ContentDelta(n.part.value, n.reasoning, n.delta)];
      hide Emits;
      CountOne(ContentDelta(n.part.value, n.reasoning, n.delta), x);
    }
  }

  lemma {:induction false} CountOne(y: Emission, x: Emission)
    ensures multiset([y])[x] == if x == y then 1 else 0
  {
  }

  lemma {:induction false} IdleReports(s: State, x: Emission)
    ensures multiset(EndsTurn(s, true))[x] == if s.turn.Some? && x == TurnCompleted(s.turn.value, true) then 1 else 0
  {
    if s.turn.Some? { CountOne(TurnCompleted(s.turn.value, true), x); }
  }

  lemma {:induction false} EndReports(s: State, x: Emission)
    ensures multiset(EndsTurn(s, false) + [RuntimeError])[x]
      == if x == RuntimeError || (s.turn.Some? && x == TurnCompleted(s.turn.value, false)) then 1 else 0
  {
    CountOne(RuntimeError, x);
    if s.turn.Some? {
      CountOne(TurnCompleted(s.turn.value, false), x);
    } else {
      assert EndsTurn(s, false) + [RuntimeError] == [RuntimeError];
    }
  }

  /** Everything that is reported, with its payload: over every sequence of
      events, sends and failures each emission occurs exactly as often as a step
      calls for it. */
  lemma {:induction false} ReportedExactly(session: string, ops: seq<Op>, x: Emission)
    ensures multiset(RunAll(session, ops).emitted)[x] == Dues(session, ops, x)
  {
    hide Step, Reports, OpEmits;
    if ops != [] {
      var r, op := RunAll(session, ops[..|ops| - 1]), ops[|ops| - 1];
      ReportedExactly(session, ops[..|ops| - 1], x);
      StepEmits(r, op);
      StepReports(r.state, op, x);
    }
  }

  /** The order within one step. */
  function Rank(x: Emission): nat {
    match x case ContentDelta(_, _, _) => 0 case MessageCompleted(_) => 1 case TurnCompleted(_, _) => 1 case _ => 2
  }

  /** In one step text comes before the completed message, that before the tool
      item, and the completed turn before the error. */
  lemma {:induction false} ReportedInOrder(s: State, op: Op, i: nat, j: nat)
    requires i < j < |OpEmits(s, op)|
    ensures Rank(OpEmits(s, op)[i]) < Rank(OpEmits(s, op)[j])
  {
    hide Longer, Speaks, Added;
  }

  // ---- what the state remembers ----

  /** The role that the last of the session's events on a message left. */
  function LastRole(session: string, ops: seq<Op>, id: string): Option<string> {
    if ops == [] then None
    else
      var op := ops[|ops| - 1];
      var before := LastRole(session, ops[..|ops| - 1], id);
      if !op.Native? || (op.e.session.Some? && op.e.session.value != session) then before
      else if op.e.native.MessageUpdated? && op.e.native.id == Some(id) && op.e.native.role.Some? then op.e.native.role
      else if op.e.native == MessageRemoved(Some(id)) then None
      else before
  }

  lemma {:induction false} RoleIsLast(session: string, ops: seq<Op>, id: string)
    ensures var roles := RunAll(session, ops).state.roles;
      LastRole(session, ops, id) == if id in roles then Some(roles[id]) else None
  {
    if ops != [] {
      RoleIsLast(session, ops[..|ops| - 1], id);
      SessionStays(session, ops[..|ops| - 1]);
      hide Emits, Longer, Stored, Added, RunAll;
      RunStep(session, ops);
    }
  }

  lemma {:induction false} RunStep(session: string, ops: seq<Op>)
    requires ops != []
    ensures RunAll(session, ops) == Step(RunAll(session, ops[..|ops| - 1]), ops[|ops| - 1])
  {
  }

  /** A step that closes the open turn. */
  predicate Closes(s: State, op: Op) {
    op.Lost? || (op.Fail? && s.turn == Some(op.turn)) || (Own(s, op) && (op.e.native.Idle? || op.e.native.SessionFailed?))
  }

  predicate ClosesAt(session: string, ops: seq<Op>, j: nat)
    requires j < |ops|
  {
    Closes(RunAll(session, ops[..j]).state, ops[j])
  }

  /** A send began, and no later step closed a turn. */
  ghost predicate BegunSince(session: string, ops: seq<Op>) {
    exists i :: 0 <= i < |ops| && ops[i].Begin? && forall j :: i <= j < |ops| ==> !ClosesAt(session, ops, j)
  }

  lemma {:induction false} ClosesEarlier(session: string, ops: seq<Op>, n: nat)
    requires n <= |ops|
    ensures forall j :: 0 <= j < n ==> ClosesAt(session, ops[..n], j) == ClosesAt(session, ops, j)
  {
    forall j | 0 <= j < n ensures ClosesAt(session, ops[..n], j) == ClosesAt(session, ops, j) {
      assert ops[..n][..j] == ops[..j];
      hide RunAll, Closes;
    }
  }

  lemma {:induction false} BegunStep(session: string, ops: seq<Op>)
    requires ops != [] && (ops[|ops| - 1].Begin? ==> !ClosesAt(session, ops, |ops| - 1))
    ensures BegunSince(session, ops)
      <==> ops[|ops| - 1].Begin? || (BegunSince(session, ops[..|ops| - 1]) && !ClosesAt(session, ops, |ops| - 1))
  {
    var n := |ops| - 1;
    ClosesEarlier(session, ops, n);
    hide ClosesAt;
    if BegunSince(session, ops[..n]) && !ClosesAt(session, ops, n) {
      var i :| 0 <= i < n && ops[..n][i].Begin? && forall j :: i <= j < n ==> !ClosesAt(session, ops[..n], j);
      assert ops[i].Begin? && forall j :: i <= j <= n ==> !ClosesAt(session, ops, j);
    }
    if BegunSince(session, ops) && !ops[n].Begin? {
      var i :| 0 <= i <= n && ops[i].Begin? && forall j :: i <= j <= n ==> !ClosesAt(session, ops, j);
      assert ops[..n][i].Begin?;
    }
  }

  /** A turn is open if and only if a send began and no later step closed it; it
      is the last turn that was given out. */
  lemma {:induction false} TurnIsOpen(session: string, ops: seq<Op>)
    ensures RunAll(session, ops).state.turn.Some? <==> BegunSince(session, ops)
    ensures RunAll(session, ops).state.turn.Some? ==> RunAll(session, ops).state.turn == Some(RunAll(session, ops).state.minted - 1)
  {
    hide Closes, Step;
    if ops != [] {
      TurnIsOpen(session, ops[..|ops| - 1]);
      TurnStep(session, ops);
      hide RunAll, BegunSince;
      BegunStep(session, ops);
    }
  }

  lemma {:induction false} TurnStep(session: string, ops: seq<Op>)
    requires ops != []
    ensures var s, s', op := RunAll(session, ops[..|ops| - 1]).state, RunAll(session, ops).state, ops[|ops| - 1];
      (s'.turn.Some? <==> op.Begin? || (s.turn.Some? && !Closes(s, op)))
      && (op.Begin? && s.turn.None? ==> s'.turn == Some(s.minted) && s'.minted == s.minted + 1)
      && (!(op.Begin? && s.turn.None?) ==> s'.minted == s.minted && (s'.turn.Some? ==> s'.turn == s.turn))
      && (op.Begin? ==> !Closes(s, op))
  {
    RunStep(session, ops);
    hide Emits, Longer, RunAll;
  }

  // ---- through the object ----

  /** The object, driven by any sequence of events and sends, emits a text of
      every part that ends with what it stores, reports each turn as often as its
      sends failed and it was ended otherwise, and reports anything exactly as
      often as a step calls for it. */
  method Drive(session: string, ops: seq<Op>) returns (host: OpenCodeState, emitted: seq<Emission>)
    ensures fresh(host) && Run(host.View(), emitted) == RunAll(session, ops)
    ensures forall part :: SuffixOf(Stored(host.View(), part), Told(emitted, part))
    ensures forall turn: nat :: Completions(emitted, turn) == Failures(ops, turn) + OtherEnds(session, ops, turn)
    ensures forall x :: multiset(emitted)[x] == Dues(session, ops, x)
  {
    hide Dues, After, Emits, Begun, SendFailed, TransportFailed, Told, Stored, Completions, Failures, OtherEnds, SuffixOf;
    host := new OpenCodeState(session);
    emitted := [];
    var i := 0;
    assert ops[..0] == [];
    while i < |ops|
      invariant 0 <= i <= |ops| && fresh(host) && Run(host.View(), emitted) == RunAll(session, ops[..i])
    {
      assert ops[..i + 1][..i] == ops[..i];
      var more: seq<Emission>;
      match ops[i] {
        case Native(e) => more := host.Normalize(e);
        case Begin =>
          var turn: nat;
          turn, more := host.BeginSend();
        case Fail(turn) => more := host.FailSend(turn);
        case Lost => more := host.FailTransport();
      }
      emitted := emitted + more;
      i := i + 1;
    }
    assert ops[..i] == ops;
    hide RunAll;
    forall part ensures SuffixOf(Stored(host.View(), part), Told(emitted, part)) { StoredIsTold(session, ops, part); }
    forall turn: nat ensures Completions(emitted, turn) == Failures(ops, turn) + OtherEnds(session, ops, turn) {
      CompletionCount(session, ops, turn);
    }
    forall x ensures multiset(emitted)[x] == Dues(session, ops, x) { ReportedExactly(session, ops, x); }
  }
}
