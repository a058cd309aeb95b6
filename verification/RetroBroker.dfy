/** The retrospective worker's broker and its host: one stdio pair, calls
    serialized on the worker's side, a bounded reply loop on the host's. */
module RetroBroker {
  import opened Outcomes
  import ForumIds
  import Utf8

  /** A tool request: whether it submits the report, and its JSON text. */
  datatype Request = Request(submits: bool, body: string)

  datatype Answer = ReportSubmitted | Value | Failure
  datatype Reply = Reply(id: nat, answer: Answer)
  datatype Wire = Wire(id: nat, request: Request)

  function Text(w: Wire): string { "{\"id\":" + ForumIds.Decimal(w.id) + ",\"request\":" + w.request.body + "}" }

  const LIMIT := 131072
  const BUDGET := 128

  /** Length in UTF-16 code units. */
  function Units(s: string): nat {
    if s == "" then 0 else (if s[0] as int >= 0x1_0000 then 2 else 1) + Units(s[1..])
  }

  /** The worker measures UTF-16 units without the line end, the host UTF-8
      bytes with it. */
  predicate WorkerFits(w: Wire) { Units(Text(w)) <= LIMIT }

  predicate HostFits(w: Wire) { |Utf8.Encode(Text(w))| + 1 <= LIMIT }

  lemma {:induction false} UnitsWithinBytes(s: string)
    ensures Units(s) <= |Utf8.Encode(s)|
  {
    if s != "" {
      UnitsWithinBytes(s[1..]);
      assert Utf8.Encode(s) == Utf8.EncodeChar(s[0]) + Utf8.Encode(s[1..]);
      UnitsOfChar(s[0]);
    }
  }

  lemma {:induction false} UnitsOfChar(c: char)
    ensures (if c as int >= 0x1_0000 then 2 else 1) <= |Utf8.EncodeChar(c)|
  {
  }

  /** The host's limit is the stricter one: whatever it accepts, the worker
      would have sent. */
  lemma {:induction false} HostIsStricter(w: Wire)
    ensures HostFits(w) ==> WorkerFits(w)
  {
    UnitsWithinBytes(Text(w));
  }

  // ---- the two processes and the two streams ----

  datatype Outcome = Resolved | AlreadySubmitted | TooLong | Disconnected | Mismatch | Refused

  datatype State = State(
    // worker
    nextId: nat, submitted: bool, queue: seq<Request>, waiting: Option<Wire>, outcomes: seq<Outcome>,
    // worker to host, host to worker, and whether the host closed its end
    up: seq<Wire>, down: seq<Reply>, closed: bool,
    // host
    handled: nat, hostSubmitted: bool,
    // history
    written: seq<Wire>, sent: seq<Reply>)

  predicate Start(s: State) {
    s == State(0, false, [], None, [], [], [], false, 0, false, [], [])
  }

  /** A tool call joins the promise chain. */
  function Call(s: State, r: Request): State { s.(queue := s.queue + [r]) }

  /** The chain comes to its next call. */
  function Begin(s: State): State
    requires s.waiting.None? && s.queue != []
  {
    var t := s.(queue := s.queue[1..]);
    if s.submitted then t.(outcomes := s.outcomes + [AlreadySubmitted])
    else
      var w := Wire(s.nextId + 1, s.queue[0]);
      if !WorkerFits(w) then t.(nextId := s.nextId + 1, outcomes := s.outcomes + [TooLong])
      else t.(nextId := s.nextId + 1, waiting := Some(w), up := s.up + [w], written := s.written + [w])
  }

  /** The awaited line arrives. */
  function Receive(s: State): State
    requires s.waiting.Some? && s.down != []
  {
    var w, reply := s.waiting.value, s.down[0];
    var o := Judge(w, reply);
    s.(waiting := None, down := s.down[1..], outcomes := s.outcomes + [o],
       submitted := s.submitted || (o == Resolved && w.request.submits && reply.answer == ReportSubmitted))
  }

  function Judge(w: Wire, reply: Reply): Outcome {
    if reply.id != w.id then Mismatch else if reply.answer == Failure then Refused else Resolved
  }

  /** The stream ended instead. */
  function Disconnect(s: State): State
    requires s.waiting.Some?
  {
    s.(waiting := None, outcomes := s.outcomes + [Disconnected])
  }

  /** The host stops reading and closes its end. */
  function Stop(s: State): State { s.(closed := true) }

  /** The host takes the next line; the daemon's answer is given. */
  function Handle(s: State, answer: Answer): State
    requires s.up != []
  {
    var w, t := s.up[0], s.(up := s.up[1..]);
    if !HostFits(w) then Stop(t)
    else
      var reply := Reply(w.id, answer);
      var u := t.(down := s.down + [reply], sent := s.sent + [reply], handled := s.handled + 1,
                  hostSubmitted := s.hostSubmitted || answer == ReportSubmitted);
      if u.hostSubmitted || u.handled >= BUDGET then Stop(u) else u
  }

  datatype Step = DoCall(r: Request) | DoBegin | DoReceive | DoDisconnect | DoHandle(answer: Answer) | DoStop

  ghost predicate Next(s: State, step: Step, s': State) {
    match step
    case DoCall(r) => s' == Call(s, r)
    case DoBegin => s.waiting.None? && s.queue != [] && s' == Begin(s)
    case DoReceive => s.waiting.Some? && s.down != [] && s' == Receive(s)
    case DoDisconnect => s.waiting.Some? && s.down == [] && s.closed && s' == Disconnect(s)
    case DoHandle(answer) => !s.closed && s.up != [] && s' == Handle(s, answer)
    case DoStop => !s.closed && s' == Stop(s)
  }

  // ---- the invariant ----

  predicate Increasing(written: seq<Wire>, top: nat) {
    (forall i, j :: 0 <= i < j < |written| ==> written[i].id < written[j].id)
    && forall i :: 0 <= i < |written| ==> 1 <= written[i].id <= top
  }

  function Count(outcomes: seq<Outcome>, o: Outcome): nat {
    if outcomes == [] then 0 else Count(outcomes[..|outcomes| - 1], o) + if outcomes[|outcomes| - 1] == o then 1 else 0
  }

  /** Written requests that no received reply has answered. */
  function Unanswered(s: State): int {
    |s.written| - Count(s.outcomes, Resolved) - Count(s.outcomes, Refused) - Count(s.outcomes, Mismatch)
  }

  /** While the host reads, the streams hold the awaited exchange and nothing
      else; after it stopped, at most the awaited reply is still to come. */
  predicate Streams(s: State) {
    if s.waiting.None? then s.down == [] && (!s.closed ==> s.up == [])
    else
      var w := s.waiting.value;
      (|s.down| == 1 && s.down[0].id == w.id && (!s.closed ==> s.up == [])) || (s.down == [] && (!s.closed ==> s.up == [w]))
  }

  predicate Echoes(written: seq<Wire>, sent: seq<Reply>) {
    |sent| <= |written| && forall i :: 0 <= i < |sent| ==> sent[i].id == written[i].id
  }

  /** Where the next line to handle comes in the history. */
  predicate Backlog(s: State) {
    !s.closed ==> |s.written| == |s.sent| + |s.up| && s.up == s.written[|s.sent|..]
  }

  predicate Inv(s: State) {
    Increasing(s.written, s.nextId) && Streams(s) && Echoes(s.written, s.sent) && Backlog(s)
    && (s.waiting.Some? ==> s.written != [] && s.waiting.value == s.written[|s.written| - 1])
    && Count(s.outcomes, Mismatch) == 0
    && Unanswered(s) == Count(s.outcomes, Disconnected) + (if s.waiting.Some? then 1 else 0)
    && (!s.closed ==> Count(s.outcomes, Disconnected) == 0)
    && (s.submitted ==> s.hostSubmitted) && (s.hostSubmitted ==> s.closed)
    && |s.sent| == s.handled <= BUDGET && (!s.closed ==> s.handled < BUDGET)
    && forall k :: 0 <= k < |s.down| && s.down[k].answer == ReportSubmitted ==> s.hostSubmitted
  }

  lemma {:induction false} CountAppend(outcomes: seq<Outcome>, x: Outcome, o: Outcome)
    ensures Count(outcomes + [x], o) == Count(outcomes, o) + if x == o then 1 else 0
  {
    assert (outcomes + [x])[..|outcomes|] == outcomes;
  }

  lemma {:induction false} CountAll(outcomes: seq<Outcome>, x: Outcome)
    ensures forall o :: Count(outcomes + [x], o) == Count(outcomes, o) + if x == o then 1 else 0
  {
    forall o ensures Count(outcomes + [x], o) == Count(outcomes, o) + if x == o then 1 else 0 { CountAppend(outcomes, x, o); }
  }

  lemma {:induction false} BeginKeepsInv(s: State)
    requires Inv(s) && s.waiting.None? && s.queue != []
    ensures Inv(Begin(s))
  {
    hide Inv, WorkerFits;
    var t, w := Begin(s), Wire(s.nextId + 1, s.queue[0]);
    if s.submitted {
      SkipKeepsInv(s, t, AlreadySubmitted);
    } else if !WorkerFits(w) {
      SkipKeepsInv(s, t, TooLong);
    } else {
      SendKeepsInv(s, t, w);
    }
  }

  /** A call that writes nothing. */
  lemma {:induction false} SkipKeepsInv(s: State, t: State, o: Outcome)
    requires Inv(s) && s.waiting.None? && (o == AlreadySubmitted || o == TooLong)
    requires t == s.(queue := t.queue, outcomes := s.outcomes + [o], nextId := t.nextId)
    requires s.nextId <= t.nextId <= s.nextId + 1
    ensures Inv(t)
  {
    hide Count, Increasing, Echoes, Streams, Backlog;
    IncreasingMore(s.written, s.nextId, Wire(s.nextId + 1, Request(false, "")));
    CountAll(s.outcomes, o);
    SameStreams(s, t);
  }

  lemma {:induction false} SameStreams(s: State, t: State)
    requires t == s.(queue := t.queue, outcomes := t.outcomes, nextId := t.nextId)
    ensures (Streams(t) <==> Streams(s)) && (Backlog(t) <==> Backlog(s))
  {
  }

  lemma {:induction false} SendKeepsInv(s: State, t: State, w: Wire)
    requires Inv(s) && s.waiting.None? && w.id == s.nextId + 1
    requires t == s.(queue := t.queue, nextId := s.nextId + 1, waiting := Some(w), up := s.up + [w], written := s.written + [w])
    ensures Inv(t)
  {
    hide Count, Increasing;
    IncreasingMore(s.written, s.nextId, w);
  }

  lemma {:induction false} IncreasingMore(written: seq<Wire>, top: nat, w: Wire)
    requires Increasing(written, top) && w.id == top + 1
    ensures Increasing(written, top + 1) && Increasing(written + [w], top + 1)
  {
  }

  lemma {:induction false} ReceiveKeepsInv(s: State)
    requires Inv(s) && s.waiting.Some? && s.down != []
    ensures Inv(Receive(s))
  {
    hide Count, WorkerFits, HostFits;
    CountAll(s.outcomes, Refused);
    CountAll(s.outcomes, Resolved);
  }

  lemma {:induction false} DisconnectKeepsInv(s: State)
    requires Inv(s) && s.waiting.Some? && s.down == [] && s.closed
    ensures Inv(Disconnect(s))
  {
    hide Count, WorkerFits, HostFits;
    CountAll(s.outcomes, Disconnected);
  }

  lemma {:induction false} HandleKeepsInv(s: State, answer: Answer)
    requires Inv(s) && !s.closed && s.up != []
    ensures Inv(Handle(s, answer))
  {
    hide Count, WorkerFits, HostFits, Increasing;
    assert s.up == [s.waiting.value] && s.written[|s.sent|] == s.up[0];
  }

  lemma {:induction false} StepKeepsInv(s: State, step: Step, s': State)
    requires Inv(s) && Next(s, step, s')
    ensures Inv(s')
  {
    hide Inv, Begin, Receive, Handle;
    match step {
      case DoBegin => BeginKeepsInv(s);
      case DoReceive => ReceiveKeepsInv(s);
      case DoDisconnect => DisconnectKeepsInv(s);
      case DoHandle(answer) => HandleKeepsInv(s, answer);
      case DoCall(r) => CallKeepsInv(s, r);
      case DoStop => CallKeepsInv(s, Request(false, ""));
    }
  }

  lemma {:induction false} CallKeepsInv(s: State, r: Request)
    requires Inv(s)
    ensures Inv(Call(s, r)) && Inv(Stop(s))
  {
    hide Count, Increasing, Echoes;
  }

  // ---- runs ----

  ghost predicate Run(states: seq<State>, steps: seq<Step>) {
    |states| == |steps| + 1 && Start(states[0])
    && forall i :: 0 <= i < |steps| ==> Next(states[i], steps[i], states[i + 1])
  }

  lemma {:induction false} RunKeepsInv(states: seq<State>, steps: seq<Step>, i: nat)
    requires Run(states, steps) && i < |states|
    ensures Inv(states[i])
  {
    hide Next;
    if i == 0 {
      StartInv(states[0]);
    } else {
      RunKeepsInv(states, steps, i - 1);
      StepKeepsInv(states[i - 1], steps[i - 1], states[i]);
    }
  }

  lemma {:induction false} StartInv(s: State)
    requires Start(s)
    ensures Inv(s)
  {
  }

  /** In every interleaving: wire ids strictly increase, replies answer the
      requests in order, a reply never mismatches, the host answers at most 128
      lines, a worker that saw its submission accepted has a host that saw it
      too, and while the host reads at most one request is unanswered. After it
      stopped, the others are those whose calls failed for the disconnect. */
  lemma {:induction false} Protocol(states: seq<State>, steps: seq<Step>, i: nat)
    requires Run(states, steps) && i < |states|
    ensures Increasing(states[i].written, states[i].nextId) && Echoes(states[i].written, states[i].sent)
    ensures Mismatch !in states[i].outcomes && states[i].handled <= BUDGET
    ensures states[i].submitted ==> states[i].hostSubmitted
    ensures Unanswered(states[i]) == Count(states[i].outcomes, Disconnected) + if states[i].waiting.Some? then 1 else 0
    ensures !states[i].closed ==> Count(states[i].outcomes, Disconnected) == 0
    ensures Unanswered(states[i]) <= 1
       <==> Count(states[i].outcomes, Disconnected) == 0 || (Count(states[i].outcomes, Disconnected) == 1 && states[i].waiting.None?)
  {
    RunKeepsInv(states, steps, i);
    hide Count, Increasing;
    NoneCounted(states[i].outcomes, Mismatch);
  }

  // ---- what the calls come to ----

  /** The outcomes of the calls that were answered, in order. */
  function Answers(outcomes: seq<Outcome>): seq<Outcome> {
    if outcomes == [] then []
    else
      var last := outcomes[|outcomes| - 1];
      Answers(outcomes[..|outcomes| - 1]) + if last == Resolved || last == Refused || last == Mismatch then [last] else []
  }

  /** Reply `i` said that the report was submitted, to a request to submit it. */
  predicate SubmittedBy(s: State, i: nat) {
    i < |s.sent| && i < |s.written| && s.sent[i].answer == ReportSubmitted && s.written[i].request.submits
  }

  /** The calls that were answered were answered in the order of the replies,
      each refused exactly when its reply is a failure; what is on its way are
      the last replies; the worker knows of the submission exactly when a
      received reply said so, and the host exactly when one it sent did. */
  ghost predicate Settled(s: State) {
    var answers := Answers(s.outcomes);
    |answers| <= |s.sent| && s.down == s.sent[|answers|..]
    && (forall i :: 0 <= i < |answers| ==> answers[i] == if s.sent[i].answer == Failure then Refused else Resolved)
    && (s.submitted <==> exists i :: 0 <= i < |answers| && SubmittedBy(s, i))
    && (s.hostSubmitted <==> exists i :: 0 <= i < |s.sent| && s.sent[i].answer == ReportSubmitted)
  }

  lemma {:induction false} AnswersMore(outcomes: seq<Outcome>, o: Outcome)
    ensures Answers(outcomes + [o]) == Answers(outcomes) + if o == Resolved || o == Refused || o == Mismatch then [o] else []
  {
    assert (outcomes + [o])[..|outcomes|] == outcomes;
  }

  lemma {:induction false} ReceiveSettles(s: State)
    requires Inv(s) && Settled(s) && s.waiting.Some? && s.down != []
    ensures Settled(Receive(s))
  {
    var n, w, reply := |Answers(s.outcomes)|, s.waiting.value, s.down[0];
    assert reply == s.sent[n] && reply.id == w.id == s.written[n].id;
    SameId(s.written, s.nextId, n, |s.written| - 1);
    assert s.written[n] == w;
    hide Answers, Inv, Settled;
    AnswerSettles(s, Receive(s), if reply.answer == Failure then Refused else Resolved);
  }

  lemma {:induction false} AnswerSettles(s: State, t: State, o: Outcome)
    requires Settled(s) && s.down != [] && |Answers(s.outcomes)| < |s.written|
    requires var n := |Answers(s.outcomes)|;
      n < |s.sent| && o == (if s.sent[n].answer == Failure then Refused else Resolved)
      && t.submitted == (s.submitted || (o == Resolved && s.written[n].request.submits && s.sent[n].answer == ReportSubmitted))
    requires t == s.(waiting := None, down := s.down[1..], outcomes := s.outcomes + [o], submitted := t.submitted)
    ensures Settled(t)
  {
    var n := |Answers(s.outcomes)|;
    AnswersMore(s.outcomes, o);
    assert t.down == s.sent[n + 1..];
    hide Answers, SubmittedBy;
    forall i: nat ensures SubmittedBy(t, i) <==> SubmittedBy(s, i) { SubmittedAlike(s, t, i); }
    SubmittedIs(s, n);
    assert (exists i :: 0 <= i < n + 1 && SubmittedBy(t, i)) <==> (exists i :: 0 <= i < n && SubmittedBy(s, i)) || SubmittedBy(s, n);
  }

  lemma {:induction false} SubmittedAlike(s: State, t: State, i: nat)
    requires t.sent == s.sent && t.written == s.written
    ensures SubmittedBy(t, i) <==> SubmittedBy(s, i)
  {
  }

  lemma {:induction false} SubmittedIs(s: State, n: nat)
    requires n < |s.sent| && n < |s.written|
    ensures SubmittedBy(s, n) <==> s.written[n].request.submits && s.sent[n].answer == ReportSubmitted
  {
  }

  lemma {:induction false} SameId(written: seq<Wire>, top: nat, i: nat, j: nat)
    requires Increasing(written, top) && i < |written| && j < |written| && written[i].id == written[j].id
    ensures i == j
  {
  }

  lemma {:induction false} HandleSettles(s: State, answer: Answer)
    requires Inv(s) && Settled(s) && !s.closed && s.up != []
    ensures Settled(Handle(s, answer))
  {
    hide Answers, Inv, HostFits;
    var t, n := Handle(s, answer), |s.sent|;
    assert forall i :: 0 <= i < n ==> t.sent[i] == s.sent[i];
    assert forall i :: 0 <= i < |Answers(s.outcomes)| ==> (SubmittedBy(t, i) <==> SubmittedBy(s, i));
    if |t.sent| > n {
      assert t.sent[n].answer == answer;
      assert t.down == t.sent[|Answers(s.outcomes)|..];
    }
  }

  lemma {:induction false} BeginSettles(s: State)
    requires Inv(s) && Settled(s) && s.waiting.None? && s.queue != []
    ensures Settled(Begin(s))
  {
    AnswersMore(s.outcomes, AlreadySubmitted);
    AnswersMore(s.outcomes, TooLong);
    var t := Begin(s);
    assert |s.sent| <= |s.written| && s.written <= t.written;
    assert t.sent == s.sent && t.down == s.down && t.submitted == s.submitted && t.hostSubmitted == s.hostSubmitted;
    hide Answers, Inv, WorkerFits, Settled;
    assert Answers(t.outcomes) == Answers(s.outcomes);
    NoAnswerSettles(s, t);
  }

  lemma {:induction false} NoAnswerSettles(s: State, t: State)
    requires Settled(s) && |s.sent| <= |s.written| && s.written <= t.written && Answers(t.outcomes) == Answers(s.outcomes)
    requires t.sent == s.sent && t.down == s.down && t.submitted == s.submitted && t.hostSubmitted == s.hostSubmitted
    ensures Settled(t)
  {
    hide Answers;
    assert forall i :: 0 <= i < |s.sent| ==> (SubmittedBy(t, i) <==> SubmittedBy(s, i));
  }

  lemma {:induction false} OtherSettles(s: State, step: Step, s': State)
    requires Settled(s) && Next(s, step, s') && (step.DoCall? || step.DoStop? || step.DoDisconnect?)
    ensures Settled(s')
  {
    AnswersMore(s.outcomes, Disconnected);
    hide Answers;
    assert forall i :: SubmittedBy(s', i) <==> SubmittedBy(s, i);
  }

  /** In every interleaving each call comes to what its own reply says. */
  lemma {:induction false} RepliesReachTheirCalls(states: seq<State>, steps: seq<Step>, i: nat)
    requires Run(states, steps) && i < |states|
    ensures Settled(states[i])
  {
    hide Settled, Inv, Receive, Handle, Begin, Call, Stop, Disconnect;
    if i == 0 {
      StartSettled(states[0]);
    } else {
      RepliesReachTheirCalls(states, steps, i - 1);
      RunKeepsInv(states, steps, i - 1);
      var s, step, s' := states[i - 1], steps[i - 1], states[i];
      assert Next(s, step, s');
      match step {
        case DoReceive => ReceiveSettles(s);
        case DoHandle(answer) => HandleSettles(s, answer);
        case DoBegin => BeginSettles(s);
        case _ => OtherSettles(s, step, s');
      }
    }
  }

  lemma {:induction false} StartSettled(s: State)
    requires Start(s)
    ensures Settled(s)
  {
  }

  // ---- which requests are written ----

  /** The tool calls of a run, in the order they were made. */
  function Calls(steps: seq<Step>): seq<Request> {
    if steps == [] then []
    else
      var last := steps[|steps| - 1];
      Calls(steps[..|steps| - 1]) + if last.DoCall? then [last.r] else []
  }

  /** The requests of the calls that wrote a line. */
  function Wrote(calls: seq<Request>, outcomes: seq<Outcome>): seq<Request>
    requires |calls| == |outcomes|
  {
    if calls == [] then []
    else
      var n := |calls| - 1;
      Wrote(calls[..n], outcomes[..n]) + if outcomes[n] == AlreadySubmitted || outcomes[n] == TooLong then [] else [calls[n]]
  }

  function Requests(written: seq<Wire>): seq<Request> {
    seq(|written|, i requires 0 <= i < |written| => written[i].request)
  }

  /** Calls are dealt with in the order they were made: first those that have an
      outcome, then the one that waits, then the queue. The lines written are
      those of the calls that were neither too late nor too long, in order, and
      every line fits. */
  ghost predicate InTurn(calls: seq<Request>, s: State) {
    var done, waits := |s.outcomes|, if s.waiting.Some? then 1 else 0;
    |calls| == done + waits + |s.queue| && s.queue == calls[done + waits..]
    && Requests(s.written) == Wrote(calls[..done], s.outcomes) + calls[done..done + waits]
    && (forall i :: 0 <= i < |s.written| ==> WorkerFits(s.written[i]))
  }

  lemma {:induction false} WroteMore(calls: seq<Request>, outcomes: seq<Outcome>, r: Request, o: Outcome)
    requires |calls| == |outcomes|
    ensures Wrote(calls + [r], outcomes + [o]) == Wrote(calls, outcomes) + if o == AlreadySubmitted || o == TooLong then [] else [r]
  {
    assert (calls + [r])[..|calls|] == calls && (outcomes + [o])[..|calls|] == outcomes;
  }

  /** The next call, with its outcome. */
  lemma {:induction false} WroteNext(calls: seq<Request>, outcomes: seq<Outcome>, o: Outcome)
    requires |outcomes| < |calls|
    ensures Wrote(calls[..|outcomes| + 1], outcomes + [o])
         == Wrote(calls[..|outcomes|], outcomes) + if o == AlreadySubmitted || o == TooLong then [] else [calls[|outcomes|]]
  {
    var done := |outcomes|;
    assert calls[..done + 1] == calls[..done] + [calls[done]];
    WroteMore(calls[..done], outcomes, calls[done], o);
  }

  lemma {:induction false} SkipInTurn(calls: seq<Request>, s: State, t: State, o: Outcome)
    requires InTurn(calls, s) && s.waiting.None? && s.queue != [] && (o == AlreadySubmitted || o == TooLong)
    requires t.waiting.None? && t.outcomes == s.outcomes + [o] && t.queue == s.queue[1..] && t.written == s.written
    ensures InTurn(calls, t)
  {
    var done := |s.outcomes|;
    WroteNext(calls, s.outcomes, o);
    assert calls[done..done] == [] && calls[done + 1..done + 1] == [];
    hide Wrote, WorkerFits, Requests;
  }

  lemma {:induction false} SendInTurn(calls: seq<Request>, s: State, t: State, w: Wire)
    requires InTurn(calls, s) && s.waiting.None? && s.queue != [] && w.request == s.queue[0] && WorkerFits(w)
    requires t.waiting == Some(w) && t.outcomes == s.outcomes && t.queue == s.queue[1..] && t.written == s.written + [w]
    ensures InTurn(calls, t)
  {
    var done := |s.outcomes|;
    assert s.queue[0] == calls[done];
    assert calls[done..done] == [] && calls[done..done + 1] == [w.request];
    assert Requests(s.written + [w]) == Requests(s.written) + [w.request];
    hide Wrote, WorkerFits, Requests;
  }

  lemma {:induction false} BeginInTurn(calls: seq<Request>, s: State)
    requires InTurn(calls, s) && s.waiting.None? && s.queue != []
    ensures InTurn(calls, Begin(s))
  {
    hide InTurn, WorkerFits;
    var t, w := Begin(s), Wire(s.nextId + 1, s.queue[0]);
    if s.submitted {
      SkipInTurn(calls, s, t, AlreadySubmitted);
    } else if !WorkerFits(w) {
      SkipInTurn(calls, s, t, TooLong);
    } else {
      SendInTurn(calls, s, t, w);
    }
  }

  lemma {:induction false} EndInTurn(calls: seq<Request>, s: State, t: State, o: Outcome)
    requires InTurn(calls, s) && s.waiting.Some? && o != AlreadySubmitted && o != TooLong
    requires t.waiting.None? && t.outcomes == s.outcomes + [o] && t.queue == s.queue && t.written == s.written
    ensures InTurn(calls, t)
  {
    var done := |s.outcomes|;
    WroteNext(calls, s.outcomes, o);
    assert calls[done..done + 1] == [calls[done]] && calls[done + 1..done + 1] == [];
    hide Wrote, WorkerFits, Requests;
  }

  lemma {:induction false} CallInTurn(calls: seq<Request>, s: State, r: Request)
    requires InTurn(calls, s)
    ensures InTurn(calls + [r], Call(s, r))
  {
    var done, waits, more := |s.outcomes|, if s.waiting.Some? then 1 else 0, calls + [r];
    assert more[..done] == calls[..done] && more[done..done + waits] == calls[done..done + waits];
    assert more[done + waits..] == calls[done + waits..] + [r];
    hide Wrote, WorkerFits, Requests;
  }

  lemma {:induction false} HostInTurn(calls: seq<Request>, s: State, step: Step, s': State)
    requires InTurn(calls, s) && Next(s, step, s') && (step.DoHandle? || step.DoStop?)
    ensures InTurn(calls, s')
  {
    hide Wrote, WorkerFits, Requests, HostFits;
  }

  /** In every interleaving the calls are served in the order they were made,
      each with its own request. */
  lemma {:induction false} CallsInTurn(states: seq<State>, steps: seq<Step>, i: nat)
    requires Run(states, steps) && i < |states|
    ensures InTurn(Calls(steps[..i]), states[i])
  {
    hide InTurn, Receive, Handle, Begin, Call, Stop, Disconnect, Judge;
    if i == 0 {
      StartInTurn(states[0]);
    } else {
      CallsInTurn(states, steps, i - 1);
      var s, step, s' := states[i - 1], steps[i - 1], states[i];
      assert steps[..i][..i - 1] == steps[..i - 1] && steps[..i][i - 1] == step && Next(s, step, s');
      var calls := Calls(steps[..i - 1]);
      assert calls + [] == calls;
      assert Calls(steps[..i]) == if step.DoCall? then calls + [step.r] else calls;
      hide Calls;
      match step {
        case DoCall(r) => CallInTurn(calls, s, r);
        case DoBegin => BeginInTurn(calls, s);
        case DoReceive => ReceiveEnds(s); EndInTurn(calls, s, s', Judge(s.waiting.value, s.down[0]));
        case DoDisconnect => DisconnectEnds(s); EndInTurn(calls, s, s', Disconnected);
        case _ => HostInTurn(calls, s, step, s');
      }
    }
  }

  lemma {:induction false} ReceiveEnds(s: State)
    requires s.waiting.Some? && s.down != []
    ensures var t, o := Receive(s), Judge(s.waiting.value, s.down[0]);
      t.waiting.None? && t.outcomes == s.outcomes + [o] && t.queue == s.queue && t.written == s.written
      && o != AlreadySubmitted && o != TooLong
  {
  }

  lemma {:induction false} DisconnectEnds(s: State)
    requires s.waiting.Some?
    ensures var t := Disconnect(s);
      t.waiting.None? && t.outcomes == s.outcomes + [Disconnected] && t.queue == s.queue && t.written == s.written
  {
  }

  lemma {:induction false} StartInTurn(s: State)
    requires Start(s)
    ensures InTurn([], s)
  {
  }

  lemma {:induction false} NoneCounted(outcomes: seq<Outcome>, o: Outcome)
    requires Count(outcomes, o) == 0
    ensures o !in outcomes
  {
    if outcomes != [] {
      NoneCounted(outcomes[..|outcomes| - 1], o);
      assert outcomes == outcomes[..|outcomes| - 1] + [outcomes[|outcomes| - 1]];
    }
  }

  /** Once its submission was accepted the worker writes nothing more. */
  lemma {:induction false} SilentAfterSubmission(states: seq<State>, steps: seq<Step>, i: nat, j: nat)
    requires Run(states, steps) && i <= j < |states| && states[i].submitted
    ensures states[j].submitted && states[j].written == states[i].written && states[j].nextId == states[i].nextId
  {
    if j > i {
      SilentAfterSubmission(states, steps, i, j - 1);
      hide WorkerFits, HostFits;
      assert Next(states[j - 1], steps[j - 1], states[j]);
    }
  }

  // ---- after a disconnect ----

  /** A request whose line fits. */
  function Small(): Request { Request(false, "0") }

  /** The states in which the host has stopped and `n` calls failed for it. */
  function Abandoned(n: nat, ids: nat): State {
    State(ids, false, [], None, seq(n, i => Disconnected), seq(n, i requires 0 <= i < n => Wire(i + 1, Small())), [], true, 0, false,
          seq(n, i requires 0 <= i < n => Wire(i + 1, Small())), [])
  }

  ghost predicate Reaches(s: State) { exists states, steps :: Run(states, steps) && states[|states| - 1] == s }

  lemma {:induction false} ReachesNext(s: State, step: Step, s': State)
    requires Reaches(s) && Next(s, step, s')
    ensures Reaches(s')
  {
    hide Next;
    var states, steps :| Run(states, steps) && states[|states| - 1] == s;
    assert Run(states + [s'], steps + [step]);
  }

  lemma {:induction false} UnitsOfAscii(s: string)
    requires forall i :: 0 <= i < |s| ==> s[i] < 128 as char
    ensures Units(s) == |s|
  {
    if s != "" { UnitsOfAscii(s[1..]); }
  }

  lemma {:induction false} DecimalWidth(i: nat, n: nat)
    requires i <= n
    ensures |ForumIds.Decimal(i)| <= |ForumIds.Decimal(n)|
  {
    if i >= 10 { DecimalWidth(i / 10, n / 10); }
  }

  /** A small line is its id and 19 more characters. */
  lemma {:induction false} SmallFits(i: nat)
    ensures WorkerFits(Wire(i, Small())) <==> |ForumIds.Decimal(i)| + 19 <= LIMIT
  {
    var text := Text(Wire(i, Small()));
    forall k | 0 <= k < |text| ensures text[k] < 128 as char { }
    UnitsOfAscii(text);
  }

  function TenTo(n: nat): nat { if n == 0 then 1 else 10 * TenTo(n - 1) }

  /** So all ids of up to 131053 digits fit. */
  lemma {:induction false} IdsFit(i: nat, n: nat)
    requires i < TenTo(n) && 1 <= n && n + 19 <= LIMIT
    ensures WorkerFits(Wire(i, Small()))
  {
    hide WorkerFits;
    SmallFits(i);
    Digits(i, n);
  }

  lemma {:induction false} Digits(i: nat, n: nat)
    requires i < TenTo(n) && 1 <= n
    ensures |ForumIds.Decimal(i)| <= n
  {
    if i >= 10 { Digits(i / 10, n - 1); }
  }

  /** The bound of one is not kept after the host stopped: however large `n`,
      as long as the line of the last id fits, some run leaves `n` requests
      unanswered, because every queued call still writes its line before it
      finds the stream closed. */
  lemma {:induction false} UnboundedAfterStop(n: nat)
    requires |ForumIds.Decimal(n)| + 19 <= LIMIT
    ensures Reaches(Abandoned(n, n)) && Unanswered(Abandoned(n, n)) == n
  {
    hide WorkerFits, HostFits, Count;
    if n == 0 {
      var s0 := State(0, false, [], None, [], [], [], false, 0, false, [], []);
      StartReaches(s0);
      ReachesNext(s0, DoStop, Stop(s0));
      assert Stop(s0) == Abandoned(0, 0);
    } else {
      DecimalWidth(n - 1, n);
      SmallFits(n);
      UnboundedAfterStop(n - 1);
      var s := Abandoned(n - 1, n - 1);
      var a := Call(s, Small());
      ReachesNext(s, DoCall(Small()), a);
      var b := Begin(a);
      ReachesNext(a, DoBegin, b);
      var c := Disconnect(b);
      ReachesNext(b, DoDisconnect, c);
      assert c == Abandoned(n, n);
    }
    OnlyDisconnects(n);
  }

  lemma {:induction false} OnlyDisconnects(n: nat)
    ensures var o := seq(n, i => Disconnected); Count(o, Resolved) == Count(o, Refused) == Count(o, Mismatch) == 0
  {
    var o: seq<Outcome> := seq(n, i => Disconnected);
    if n > 0 {
      OnlyDisconnects(n - 1);
      assert o[..n - 1] == seq(n - 1, i => Disconnected);
    }
  }

  // ---- the code of the two sides ----

  /** The state a serialized call runs in, the streams aside. */
  function Alone(nextId: nat, submitted: bool, outcomes: seq<Outcome>, written: seq<Wire>, r: Request): State {
    State(nextId, submitted, [r], None, outcomes, [], [], false, 0, submitted, written, [])
  }

  /** One call from its turn in the chain to its result; `line` is what the
      reader delivers, or nothing when the stream ends. */
  function Served(s: State, line: Option<Reply>): State
    requires s.waiting.None? && s.queue != []
  {
    var t := Begin(s);
    if t.waiting.None? then t
    else if line.None? then Disconnect(t)
    else Receive(t.(down := [line.value]))
  }

  /** The broker closure: a counter, a flag, and one call at a time. */
  class Broker {
    var nextId: nat
    var submitted: bool
    var written: seq<Wire>
    var outcomes: seq<Outcome>

    constructor ()
      ensures nextId == 0 && !submitted && written == [] && outcomes == []
    {
      nextId, submitted, written, outcomes := 0, false, [], [];
    }

    method Call(request: Request, line: Option<Reply>) returns (o: Outcome)
      modifies this
      ensures var s := Served(Alone(old(nextId), old(submitted), old(outcomes), old(written), request), line);
        nextId == s.nextId && submitted == s.submitted && written == s.written && outcomes == s.outcomes
      ensures outcomes == old(outcomes) + [o]
    {
      if submitted {
        o := AlreadySubmitted;
      } else {
        nextId := nextId + 1;
        var wire := Wire(nextId, request);
        if !WorkerFits(wire) {
          o := TooLong;
        } else {
          written := written + [wire];
          match line {
            case None => o := Disconnected;
            case Some(reply) =>
              if reply.id != nextId {
                o := Mismatch;
              } else if reply.answer == Failure {
                o := Refused;
              } else {
                o := Resolved;
                if request.submits && reply.answer == ReportSubmitted { submitted := true; }
              }
          }
        }
      }
      outcomes := outcomes + [o];
    }
  }

  /** The host's steps on the lines that are there, one answer for each. */
  function Drain(s: State, answers: seq<Answer>): State
    decreases |answers|
  {
    if s.closed || s.up == [] || answers == [] then s else Drain(Handle(s, answers[0]), answers[1..])
  }

  /** The host before line `i`, with everything so far answered. */
  function AtLine(lines: seq<Wire>, i: nat, sent: seq<Reply>): State
    requires i <= |lines|
  {
    State(0, false, [], None, [], lines[i..], sent, i >= BUDGET, i, false, lines, sent)
  }

  lemma {:induction false} HandleLine(lines: seq<Wire>, i: nat, sent: seq<Reply>, answer: Answer)
    requires i < |lines| && i < BUDGET
    ensures var s, r := Handle(AtLine(lines, i, sent), answer), Reply(lines[i].id, answer);
      if !HostFits(lines[i]) then s.closed && s.sent == sent && !s.hostSubmitted
      else if answer == ReportSubmitted then s.closed && s.sent == sent + [r] && s.hostSubmitted
      else s == AtLine(lines, i + 1, sent + [r])
  {
    hide HostFits;
    assert lines[i..][1..] == lines[i + 1..];
  }

  /** The host's loop: at most 128 lines, one reply each, ending with the
      accepted submission or with a line over its limit. */
  method ReplyLoop(lines: seq<Wire>, answers: seq<Answer>) returns (replies: seq<Reply>, submitted: bool)
    requires |answers| == |lines|
    ensures replies == Drain(AtLine(lines, 0, []), answers).sent
    ensures submitted == Drain(AtLine(lines, 0, []), answers).hostSubmitted
    ensures |replies| <= BUDGET && Echoes(lines, replies)
    ensures forall i :: 0 <= i < |replies| ==> replies[i].answer == answers[i] && HostFits(lines[i])
    ensures forall i :: 0 <= i < |replies| - 1 ==> replies[i].answer != ReportSubmitted
    ensures submitted <==> replies != [] && replies[|replies| - 1].answer == ReportSubmitted
  {
    hide HostFits, Handle;
    assert answers[0..] == answers;
    replies, submitted := [], false;
    var i := 0;
    while i < BUDGET
      invariant 0 <= i <= BUDGET && i <= |lines| && |replies| == i && !submitted
      invariant Drain(AtLine(lines, 0, []), answers) == Drain(AtLine(lines, i, replies), answers[i..])
      invariant forall k :: 0 <= k < i ==> replies[k] == Reply(lines[k].id, answers[k]) && HostFits(lines[k]) && answers[k] != ReportSubmitted
    {
      if i == |lines| { break; }
      assert answers[i..][1..] == answers[i + 1..];
      HandleLine(lines, i, replies, answers[i]);
      if !HostFits(lines[i]) { break; }
      replies := replies + [Reply(lines[i].id, answers[i])];
      submitted := answers[i] == ReportSubmitted;
      i := i + 1;
      if submitted { break; }
    }
  }

  // ---- both sides together ----

  /** Between two calls. */
  predicate Idle(s: State) {
    s.waiting.None? && s.queue == [] && s.down == [] && (!s.closed ==> s.up == [])
  }

  /** One call, the host's answer to its line if the host still reads, and the
      reply or the end of the stream. */
  function Exchange(s: State, r: Request, answer: Answer): State
    requires Idle(s)
  {
    var t := Begin(Call(s, r));
    if t.waiting.None? then t
    else
      var u := if t.closed then t else Handle(t, answer);
      if u.down == [] then Disconnect(u) else Receive(u)
  }

  lemma {:induction false} ExchangeReaches(s: State, r: Request, answer: Answer)
    requires Reaches(s) && Idle(s)
    ensures Reaches(Exchange(s, r, answer)) && Idle(Exchange(s, r, answer))
  {
    hide WorkerFits, HostFits, Reaches;
    var a := Call(s, r);
    ReachesNext(s, DoCall(r), a);
    var t := Begin(a);
    ReachesNext(a, DoBegin, t);
    if t.waiting.Some? {
      var u := t;
      if !t.closed {
        u := Handle(t, answer);
        ReachesNext(t, DoHandle(answer), u);
      }
      if u.down == [] { ReachesNext(u, DoDisconnect, Disconnect(u)); } else { ReachesNext(u, DoReceive, Receive(u)); }
    }
  }

  /** What the worker reads after its line. */
  function LineFor(s: State, r: Request, answer: Answer): Option<Reply> {
    var w := Wire(s.nextId + 1, r);
    if !s.closed && HostFits(w) then Some(Reply(w.id, answer)) else None
  }

  predicate Mirrors(s: State, nextId: nat, submitted: bool, outcomes: seq<Outcome>, written: seq<Wire>) {
    s.nextId == nextId && s.submitted == submitted && s.outcomes == outcomes && s.written == written
  }

  lemma {:induction false} BeginAlone(s: State, r: Request)
    requires Idle(s)
    ensures var t, u := Begin(Alone(s.nextId, s.submitted, s.outcomes, s.written, r)), Begin(Call(s, r));
      Alike(t, u) && Alike(u, t) && t.down == [] && u.down == []
      && u.closed == s.closed && u.sent == s.sent && u.handled == s.handled && u.hostSubmitted == s.hostSubmitted
      && (u.waiting.None? <==> s.submitted || !WorkerFits(Wire(s.nextId + 1, r)))
      && (u.waiting.Some? ==> u.waiting.value == Wire(s.nextId + 1, r) && (!s.closed ==> u.up == [u.waiting.value]))
  {
    hide WorkerFits;
  }

  lemma {:induction false} ExchangeIsServed(s: State, r: Request, answer: Answer)
    requires Idle(s)
    ensures var t := Served(Alone(s.nextId, s.submitted, s.outcomes, s.written, r), LineFor(s, r, answer));
      Mirrors(Exchange(s, r, answer), t.nextId, t.submitted, t.outcomes, t.written)
  {
    BeginAlone(s, r);
    CallReady(s, r);
    var t := Begin(Call(s, r));
    hide *;
    if t.waiting.None? {
      NoneServed(s, r, answer);
    } else if t.closed {
      ClosedServed(s, r, answer);
    } else {
      LineServed(s, r, answer);
    }
  }

  lemma {:induction false} CallReady(s: State, r: Request)
    requires Idle(s)
    ensures Call(s, r).waiting.None? && Call(s, r).queue != []
  {
  }

  lemma {:induction false} NoneServed(s: State, r: Request, answer: Answer)
    requires Idle(s) && Call(s, r).waiting.None? && Call(s, r).queue != [] && Begin(Call(s, r)).waiting.None?
    ensures var t := Served(Alone(s.nextId, s.submitted, s.outcomes, s.written, r), LineFor(s, r, answer));
      Mirrors(Exchange(s, r, answer), t.nextId, t.submitted, t.outcomes, t.written)
  {
    BeginAlone(s, r);
    hide WorkerFits, HostFits, Begin, Call, Alone, Disconnect, Receive, Handle, Idle, Mirrors, LineFor;
  }

  lemma {:induction false} ClosedServed(s: State, r: Request, answer: Answer)
    requires Idle(s) && Call(s, r).waiting.None? && Call(s, r).queue != []
    requires Begin(Call(s, r)).waiting.Some? && Begin(Call(s, r)).closed
    ensures var t := Served(Alone(s.nextId, s.submitted, s.outcomes, s.written, r), LineFor(s, r, answer));
      Mirrors(Exchange(s, r, answer), t.nextId, t.submitted, t.outcomes, t.written)
  {
    BeginAlone(s, r);
    var t, a := Begin(Call(s, r)), Begin(Alone(s.nextId, s.submitted, s.outcomes, s.written, r));
    hide WorkerFits, HostFits, Begin, Call, Alone, Disconnect, Receive, Handle, Idle, Mirrors;
    EndsAlike(t, a);
  }

  lemma {:induction false} LineServed(s: State, r: Request, answer: Answer)
    requires Idle(s) && Call(s, r).waiting.None? && Call(s, r).queue != []
    requires Begin(Call(s, r)).waiting.Some? && !Begin(Call(s, r)).closed
    ensures var t := Served(Alone(s.nextId, s.submitted, s.outcomes, s.written, r), LineFor(s, r, answer));
      Mirrors(Exchange(s, r, answer), t.nextId, t.submitted, t.outcomes, t.written)
  {
    BeginAlone(s, r);
    var t, a := Begin(Call(s, r)), Begin(Alone(s.nextId, s.submitted, s.outcomes, s.written, r));
    hide WorkerFits, HostFits, Begin, Call, Alone, Disconnect, Receive, Handle, Idle, Mirrors;
    OpenServed(t, a, answer);
  }

  lemma {:induction false} OpenServed(t: State, a: State, answer: Answer)
    requires Alike(t, a) && Alike(a, t) && t.waiting.Some? && |t.up| == 1 && t.down == []
    ensures var line := if HostFits(t.up[0]) then Some(Reply(t.up[0].id, answer)) else None;
      var u, v := Handle(t, answer), if line.None? then Disconnect(a) else Receive(a.(down := [line.value]));
      u.waiting.Some? && (u.down == [] <==> line.None?)
      && Mirrors(if u.down == [] then Disconnect(u) else Receive(u), v.nextId, v.submitted, v.outcomes, v.written)
  {
    hide HostFits, Disconnect, Receive, Handle, Mirrors;
    AnsweredAlike(t, a, answer);
  }

  lemma {:induction false} AnsweredAlike(t: State, a: State, answer: Answer)
    requires Alike(t, a) && Alike(a, t) && t.waiting.Some? && |t.up| == 1 && t.down == []
    ensures var u, reply := Handle(t, answer), Reply(t.up[0].id, answer);
      if HostFits(t.up[0]) then
        var v := Receive(a.(down := [reply]));
        u.waiting.Some? && u.down == [reply] && Mirrors(Receive(u), v.nextId, v.submitted, v.outcomes, v.written)
      else
        var v := Disconnect(a);
        u.waiting.Some? && u.down == [] && Mirrors(Disconnect(u), v.nextId, v.submitted, v.outcomes, v.written)
  {
    HandleOne(t, answer);
    var u := Handle(t, answer);
    MirrorsThrough(u, t, a);
    hide HostFits, Disconnect, Receive, Handle;
    if u.down == [] { EndsAlike(u, a); } else { ReceivesAlike(u, a.(down := u.down)); }
  }

  /** The same worker, in two states. */
  predicate Alike(s: State, t: State) { Mirrors(s, t.nextId, t.submitted, t.outcomes, t.written) && s.waiting == t.waiting }

  lemma {:induction false} EndsAlike(s: State, t: State)
    requires Alike(s, t) && s.waiting.Some?
    ensures var u := Disconnect(t); Mirrors(Disconnect(s), u.nextId, u.submitted, u.outcomes, u.written)
  {
  }

  lemma {:induction false} ReceivesAlike(s: State, t: State)
    requires Alike(s, t) && s.waiting.Some? && s.down == t.down && s.down != []
    ensures var u := Receive(t); Mirrors(Receive(s), u.nextId, u.submitted, u.outcomes, u.written)
  {
  }

  lemma {:induction false} MirrorsThrough(u: State, t: State, a: State)
    requires Alike(u, t) && Alike(a, t)
    ensures Alike(u, a) && forall down :: Alike(u, a.(down := down))
  {
  }

  /** The host's answer to the only line there is. */
  lemma {:induction false} HandleOne(t: State, answer: Answer)
    requires |t.up| == 1 && t.down == []
    ensures var u, reply := Handle(t, answer), Reply(t.up[0].id, answer);
      Alike(u, t)
      && if HostFits(t.up[0]) then u.down == [reply] && u.sent == t.sent + [reply] && u.handled == t.handled + 1
         else u.down == [] && u.closed && u.sent == t.sent && u.handled == t.handled
    ensures HostFits(t.up[0]) ==>
      (Handle(t, answer).closed <==> t.closed || t.hostSubmitted || answer == ReportSubmitted || t.handled + 1 >= BUDGET)
  {
    hide HostFits;
  }

  /** What an exchange does on the host's side. */
  lemma {:induction false} ExchangeHost(s: State, r: Request, answer: Answer)
    requires Idle(s) && Inv(s)
    ensures HostSide(s, Exchange(s, r, answer), r, answer)
  {
    assert s.hostSubmitted ==> s.closed;
    BeginAlone(s, r);
    var t := Begin(Call(s, r));
    hide WorkerFits, HostFits, Begin, Call, Inv, Receive, Disconnect, Handle, Alone, Idle;
    if t.waiting.Some? {
      if !t.closed { HandleOne(t, answer); }
      HostUntouched(if t.closed then t else Handle(t, answer));
    }
  }

  lemma {:induction false} HostUntouched(u: State)
    requires u.waiting.Some?
    ensures Disconnect(u).closed == u.closed && Disconnect(u).sent == u.sent && Disconnect(u).handled == u.handled
    ensures u.down != [] ==> Receive(u).closed == u.closed && Receive(u).sent == u.sent && Receive(u).handled == u.handled
  {
  }

  predicate HostSide(s: State, u: State, r: Request, answer: Answer) {
    var w := Wire(s.nextId + 1, r);
    if s.submitted || !WorkerFits(w) || s.closed then u.closed == s.closed && u.sent == s.sent && u.handled == s.handled
    else if !HostFits(w) then u.closed && u.sent == s.sent && u.handled == s.handled
    else
      u.sent == s.sent + [Reply(w.id, answer)] && u.handled == s.handled + 1
      && u.closed == (answer == ReportSubmitted || u.handled >= BUDGET)
  }

  /** The worker's code against a host that does the host's steps: every such
      session is a run of the protocol, so its ids strictly increase, its
      replies come in order, and none mismatches. */
  method Session(requests: seq<Request>, answers: seq<Answer>) returns (broker: Broker, replies: seq<Reply>, ghost s: State)
    requires |answers| == |requests|
    ensures fresh(broker) && Reaches(s) && Mirrors(s, broker.nextId, broker.submitted, broker.outcomes, broker.written)
    ensures replies == s.sent && Echoes(broker.written, replies) && |replies| <= BUDGET
    ensures Increasing(broker.written, broker.nextId) && |broker.outcomes| == |requests| && Mismatch !in broker.outcomes
    ensures broker.submitted ==> s.hostSubmitted
    ensures Settled(s)
  {
    hide WorkerFits, HostFits, Reaches, Exchange, Served, Inv, Settled;
    broker := new Broker();
    replies, s := [], State(0, false, [], None, [], [], [], false, 0, false, [], []);
    StartReaches(s);
    var closed := false;
    var i := 0;
    while i < |requests|
      invariant 0 <= i <= |requests| && fresh(broker) && |broker.outcomes| == i
      invariant Reaches(s) && Idle(s) && Mirrors(s, broker.nextId, broker.submitted, broker.outcomes, broker.written)
      invariant closed == s.closed && replies == s.sent && |replies| == s.handled
    {
      var wire := Wire(broker.nextId + 1, requests[i]);
      var line := if !closed && HostFits(wire) then Some(Reply(wire.id, answers[i])) else None;
      ExchangeReaches(s, requests[i], answers[i]);
      ExchangeIsServed(s, requests[i], answers[i]);
      ReachedInv(s);
      ExchangeHost(s, requests[i], answers[i]);
      if !broker.submitted && WorkerFits(wire) && !closed {
        if line.Some? { replies := replies + [line.value]; }
        closed := line.None? || answers[i] == ReportSubmitted || |replies| >= BUDGET;
      }
      var o := broker.Call(requests[i], line);
      s := Exchange(s, requests[i], answers[i]);
      i := i + 1;
    }
    ReachedFacts(s);
  }

  lemma {:induction false} ReachedInv(s: State)
    requires Reaches(s)
    ensures Inv(s)
  {
    hide Inv;
    var states, steps :| Run(states, steps) && states[|states| - 1] == s;
    RunKeepsInv(states, steps, |states| - 1);
  }

  lemma {:induction false} ReachedSettled(s: State)
    requires Reaches(s)
    ensures Settled(s)
  {
    hide Settled;
    var states, steps :| Run(states, steps) && states[|states| - 1] == s;
    RepliesReachTheirCalls(states, steps, |states| - 1);
  }

  lemma {:induction false} ReachedFacts(s: State)
    requires Reaches(s)
    ensures Increasing(s.written, s.nextId) && Echoes(s.written, s.sent) && Mismatch !in s.outcomes
    ensures |s.sent| <= BUDGET && (s.submitted ==> s.hostSubmitted) && Settled(s)
  {
    ReachedInv(s);
    ReachedSettled(s);
    hide Reaches, Increasing, Count;
    NoneCounted(s.outcomes, Mismatch);
  }

  lemma {:induction false} StartReaches(s: State)
    requires Start(s)
    ensures Reaches(s)
  {
    assert Run([s], []);
  }
}
