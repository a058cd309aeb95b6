/** Waiting for a daemon to boot: polling with a heartbeat budget and an
    absolute ceiling. Times are milliseconds. */
module BootWait {
  import opened Outcomes

  type Heartbeat = (nat, int)

  /** What a starting daemon says about itself. */
  datatype Starting = Starting(pid: Option<nat>, phase: Option<string>, heartbeat: Option<Heartbeat>, startedAt: Option<int>)

  datatype Probe = Up | Unauthorized | Booting(info: Starting) | Down(enriched: Starting) | ProbeError

  /** One round of polling: the probe, whether the spawned process and the
      process in question are alive, the monotonic clock when the heartbeat is
      noted and when elapsed time is checked, and the wall clock. */
  datatype Tick = Tick(probe: Probe, spawnedAlive: bool, alive: bool, notedAt: int, checkedAt: int, utc: int)

  datatype Outcome = Running | TokenMismatch | StaleBoot | Stalled | Backstop | StartFailed | StillBooting(info: Starting) | ProbeFailed

  const BACKSTOP := 900000

  // ---- explicit start ----

  function KnownPid(info: Starting, spawned: Option<nat>): Option<nat> { if info.pid.Some? then info.pid else spawned }

  /** One classification of a booting daemon. */
  function Classify(info: Starting, spawned: Option<nat>, t: Tick, started: int, budget: nat): Option<Outcome> {
    if KnownPid(info, spawned).Some? && !t.alive then Some(StaleBoot)
    else if t.checkedAt - started >= budget then Some(StillBooting(info))
    else None
  }

  function StartDecision(t: Tick, spawned: Option<nat>, started: int, budget: nat): Option<Outcome> {
    match t.probe
    case Up => Some(Running)
    case Unauthorized => Some(TokenMismatch)
    case ProbeError => Some(ProbeFailed)
    case Booting(info) => Classify(info, spawned, t, started, budget)
    case Down(enriched) =>
      if spawned.Some? then if !t.spawnedAlive then Some(StartFailed) else Classify(enriched, spawned, t, started, budget)
      else if t.checkedAt - started >= budget then Some(StartFailed)
      else None
  }

  /** The loop of `daemon start`. It ends with the first round that decides, and
      at the latest with the first round at or after the budget. */
  method WaitForStart(ticks: seq<Tick>, spawned: Option<nat>, started: int, budget: nat) returns (outcome: Option<Outcome>, at: nat)
    ensures at <= |ticks| && (outcome.None? <==> at == |ticks|)
    ensures outcome.Some? ==> outcome == StartDecision(ticks[at], spawned, started, budget)
    ensures forall k :: 0 <= k < at ==> StartDecision(ticks[k], spawned, started, budget).None?
    ensures forall k :: 0 <= k < |ticks| && ticks[k].checkedAt - started >= budget ==> at <= k
  {
    at := 0;
    while at < |ticks|
      invariant 0 <= at <= |ticks|
      invariant forall k :: 0 <= k < at ==> StartDecision(ticks[k], spawned, started, budget).None? && ticks[k].checkedAt - started < budget
    {
      var t := ticks[at];
      match t.probe {
        case Up => return Some(Running), at;
        case Unauthorized => return Some(TokenMismatch), at;
        case ProbeError => return Some(ProbeFailed), at;
        case Booting(info) =>
          var c := Classify(info, spawned, t, started, budget);
          if c.Some? { return c, at; }
        case Down(enriched) =>
          if spawned.Some? {
            if !t.spawnedAlive { return Some(StartFailed), at; }
            var c := Classify(enriched, spawned, t, started, budget);
            if c.Some? { return c, at; }
          } else if t.checkedAt - started >= budget {
            return Some(StartFailed), at;
          }
      }
      at := at + 1;
    }
    outcome := None;
  }

  /** A boot whose known process, if any, is alive. */
  predicate AliveBoot(t: Tick, spawned: Option<nat>) {
    (t.probe.Booting? && (KnownPid(t.probe.info, spawned).Some? ==> t.alive))
    || (t.probe.Down? && spawned.Some? && t.spawnedAlive && t.alive)
  }

  /** Still booting is reported exactly when the budget is used up and no known
      process of the boot is dead. */
  lemma {:induction false} StillBootingExact(t: Tick, spawned: Option<nat>, started: int, budget: nat)
    ensures var d := StartDecision(t, spawned, started, budget);
      (d.Some? && d.value.StillBooting?) <==> (t.checkedAt - started >= budget && AliveBoot(t, spawned))
  {
  }

  /** The boot a round looks at. */
  function Looked(t: Tick, spawned: Option<nat>): Option<Starting> {
    if t.probe.Booting? then Some(t.probe.info)
    else if t.probe.Down? && spawned.Some? && t.spawnedAlive then Some(t.probe.enriched)
    else None
  }

  /** The process of the boot is known and dead. */
  predicate DeadBoot(t: Tick, spawned: Option<nat>) {
    Looked(t, spawned).Some? && (Looked(t, spawned).value.pid.Some? || spawned.Some?) && !t.alive
  }

  /** Which answer `daemon start` gives when, for every answer. */
  lemma {:induction false} StartAnswers(t: Tick, spawned: Option<nat>, started: int, budget: nat)
    ensures var d, over := StartDecision(t, spawned, started, budget), t.checkedAt - started >= budget;
      (d == Some(Running) <==> t.probe.Up?) && (d == Some(TokenMismatch) <==> t.probe.Unauthorized?)
      && (d == Some(ProbeFailed) <==> t.probe.ProbeError?) && (d == Some(StaleBoot) <==> DeadBoot(t, spawned))
      && (d == Some(StartFailed) <==> t.probe.Down? && if spawned.Some? then !t.spawnedAlive else over)
      && (forall info :: d == Some(StillBooting(info)) <==> over && Looked(t, spawned) == Some(info) && !DeadBoot(t, spawned))
      && d != Some(Stalled) && d != Some(Backstop)
  {
  }

  // ---- autostart ----

  /** What the tracker remembers. */
  datatype Progress = Progress(started: int, phase: Option<string>, heartbeat: Option<Heartbeat>, heartbeatAt: int)

  function Begin(now: int): Progress { Progress(now, None, None, now) }

  /** A phase that is named and new is recorded. */
  function NotePhase(p: Progress, info: Starting): Progress {
    if info.phase.Some? && p.phase != info.phase then p.(phase := info.phase) else p
  }

  /** A heartbeat key that differs from the last one counts as alive now. */
  function NoteHeartbeat(p: Progress, info: Starting, now: int): Progress {
    if info.heartbeat.Some? && p.heartbeat != info.heartbeat then p.(heartbeat := info.heartbeat, heartbeatAt := now) else p
  }

  /** Both together: the phase and the key are the last ones named, and the time
      is that of the last key that was new. */
  lemma {:induction false} Noted(p: Progress, info: Starting, now: int)
    ensures var q := NoteHeartbeat(NotePhase(p, info), info, now);
      q.started == p.started && q.phase == (if info.phase.Some? then info.phase else p.phase)
      && q.heartbeat == (if info.heartbeat.Some? then info.heartbeat else p.heartbeat)
      && q.heartbeatAt == (if q.heartbeat == p.heartbeat then p.heartbeatAt else now)
  {
  }

  /** The age of the boot: by its own timestamp when that lies in the past, else
      by the time waited. */
  function BootAge(p: Progress, info: Starting, t: Tick): int {
    if info.startedAt.Some? && t.utc - info.startedAt.value >= 0 then t.utc - info.startedAt.value else t.notedAt - p.started
  }

  class Tracker {
    const wallStarted: int
    var lastPhase: Option<string>
    var lastHeartbeat: Option<Heartbeat>
    var lastHeartbeatAt: int

    constructor (now: int)
      ensures State() == Begin(now)
    {
      wallStarted, lastPhase, lastHeartbeat, lastHeartbeatAt := now, None, None, now;
    }

    function State(): Progress reads this { Progress(wallStarted, lastPhase, lastHeartbeat, lastHeartbeatAt) }

    method ObservePhase(info: Starting) returns (changed: bool)
      modifies this
      ensures State() == NotePhase(old(State()), info) && changed == (State() != old(State()))
    {
      if info.phase.None? || lastPhase == info.phase { return false; }
      lastPhase := info.phase;
      changed := true;
    }

    method ObserveHeartbeat(info: Starting, now: int) returns (changed: bool)
      modifies this
      ensures State() == NoteHeartbeat(old(State()), info, now)
    {
      if info.heartbeat.None? || lastHeartbeat == info.heartbeat { return false; }
      lastHeartbeat := info.heartbeat;
      lastHeartbeatAt := now;
      changed := true;
    }

    /** Dead process, absolute ceiling, then liveness. */
    method Observe(info: Starting, spawned: Option<nat>, t: Tick, budget: nat) returns (failure: Option<Outcome>)
      modifies this
      ensures (State(), failure) == Observed(old(State()), info, spawned, t, budget)
    {
      if KnownPid(info, spawned).Some? && !t.alive { return Some(StaleBoot); }
      if BootAge(State(), info, t) >= BACKSTOP { return Some(Backstop); }
      var phaseChanged := ObservePhase(info);
      var beat := ObserveHeartbeat(info, t.notedAt);
      if t.checkedAt - lastHeartbeatAt < budget { return None; }
      failure := Some(Stalled);
    }
  }

  function Observed(p: Progress, info: Starting, spawned: Option<nat>, t: Tick, budget: nat): (Progress, Option<Outcome>) {
    if KnownPid(info, spawned).Some? && !t.alive then (p, Some(StaleBoot))
    else if BootAge(p, info, t) >= BACKSTOP then (p, Some(Backstop))
    else
      var q := NoteHeartbeat(NotePhase(p, info), info, t.notedAt);
      (q, if t.checkedAt - q.heartbeatAt < budget then None else Some(Stalled))
  }

  function AutoStep(p: Progress, t: Tick, spawned: Option<nat>, budget: nat): (Progress, Option<Outcome>) {
    match t.probe
    case Up => (p, Some(Running))
    case Unauthorized => (p, Some(TokenMismatch))
    case ProbeError => (p, Some(ProbeFailed))
    case Booting(info) => Observed(p, info, spawned, t, budget)
    case Down(enriched) =>
      if spawned.Some? then if t.spawnedAlive then Observed(p, enriched, spawned, t, budget) else (p, Some(StartFailed))
      else if t.checkedAt - p.heartbeatAt >= budget then (p, Some(StartFailed))
      else (p, None)
  }

  /** The tracker after the first `n` rounds, none of which decided. */
  function After(ticks: seq<Tick>, spawned: Option<nat>, started: int, budget: nat): Progress {
    if ticks == [] then Begin(started)
    else AutoStep(After(ticks[..|ticks| - 1], spawned, started, budget), ticks[|ticks| - 1], spawned, budget).0
  }

  function AutoDecision(ticks: seq<Tick>, k: nat, spawned: Option<nat>, started: int, budget: nat): Option<Outcome>
    requires k < |ticks|
  {
    AutoStep(After(ticks[..k], spawned, started, budget), ticks[k], spawned, budget).1
  }

  /** The autostart loop: it ends with the first round that decides. */
  method WaitUntilReady(ticks: seq<Tick>, spawned: Option<nat>, started: int, budget: nat) returns (outcome: Option<Outcome>, at: nat)
    ensures at <= |ticks| && (outcome.None? <==> at == |ticks|)
    ensures outcome.Some? ==> outcome == AutoDecision(ticks, at, spawned, started, budget)
    ensures forall k :: 0 <= k < at ==> AutoDecision(ticks, k, spawned, started, budget).None?
  {
    var progress := new Tracker(started);
    at := 0;
    while at < |ticks|
      invariant 0 <= at <= |ticks| && progress.State() == After(ticks[..at], spawned, started, budget)
      invariant forall k :: 0 <= k < at ==> AutoDecision(ticks, k, spawned, started, budget).None?
    {
      var t := ticks[at];
      assert ticks[..at + 1][..at] == ticks[..at];
      match t.probe {
        case Up => return Some(Running), at;
        case Unauthorized => return Some(TokenMismatch), at;
        case ProbeError => return Some(ProbeFailed), at;
        case Booting(info) =>
          var failure := progress.Observe(info, spawned, t, budget);
          if failure.Some? { return failure, at; }
        case Down(enriched) =>
          if spawned.Some? {
            if !t.spawnedAlive { return Some(StartFailed), at; }
            var failure := progress.Observe(enriched, spawned, t, budget);
            if failure.Some? { return failure, at; }
          } else if t.checkedAt - progress.lastHeartbeatAt >= budget {
            return Some(StartFailed), at;
          }
      }
      at := at + 1;
    }
    outcome := None;
  }

  // ---- what the two limits mean ----

  /** The ceiling is reached: by the boot's own timestamp when that lies in the
      past, else by the time waited. */
  predicate CeilingReached(p: Progress, info: Starting, t: Tick) {
    if info.startedAt.Some? && info.startedAt.value <= t.utc then t.utc >= info.startedAt.value + 900000
    else t.notedAt >= p.started + 900000
  }

  /** Which answer autostart gives when, for every answer: a dead process comes
      before the ceiling, and that before the missing heartbeat. */
  lemma {:induction false} AutoAnswers(p: Progress, t: Tick, spawned: Option<nat>, budget: nat)
    ensures var d, info := AutoStep(p, t, spawned, budget).1, Looked(t, spawned);
      (d == Some(Running) <==> t.probe.Up?) && (d == Some(TokenMismatch) <==> t.probe.Unauthorized?)
      && (d == Some(ProbeFailed) <==> t.probe.ProbeError?) && (d == Some(StaleBoot) <==> DeadBoot(t, spawned))
      && (d == Some(StartFailed) <==>
            t.probe.Down? && if spawned.Some? then !t.spawnedAlive else t.checkedAt - p.heartbeatAt >= budget)
      && (d == Some(Backstop) <==> info.Some? && !DeadBoot(t, spawned) && CeilingReached(p, info.value, t))
      && (d == Some(Stalled) <==>
            info.Some? && !DeadBoot(t, spawned) && !CeilingReached(p, info.value, t)
            && t.checkedAt >= budget + (if info.value.heartbeat in {None, p.heartbeat} then p.heartbeatAt else t.notedAt))
      && (d.Some? ==> !d.value.StillBooting?)
  {
  }

  /** Clocks that advance from round to round. */
  predicate Advancing(ticks: seq<Tick>, started: int) {
    (forall i :: 0 <= i < |ticks| ==> started <= ticks[i].notedAt <= ticks[i].checkedAt)
    && forall i, j :: 0 <= i < j < |ticks| ==> ticks[i].checkedAt <= ticks[j].notedAt
  }

  /** Round `j` shows a heartbeat key that differs from the last one. */
  predicate NewKey(ticks: seq<Tick>, j: nat, spawned: Option<nat>, started: int, budget: nat)
    requires j < |ticks|
  {
    var info := Looked(ticks[j], spawned);
    info.Some? && info.value.heartbeat.Some? && After(ticks[..j], spawned, started, budget).heartbeat != info.value.heartbeat
  }

  ghost predicate Undecided(ticks: seq<Tick>, n: nat, spawned: Option<nat>, started: int, budget: nat) {
    n <= |ticks| && forall k :: 0 <= k < n ==> AutoDecision(ticks, k, spawned, started, budget).None?
  }

  /** The last moment of progress: the start or the last new key. */
  lemma {:induction false} LastProgress(ticks: seq<Tick>, n: nat, spawned: Option<nat>, started: int, budget: nat)
    requires Advancing(ticks, started) && Undecided(ticks, n, spawned, started, budget)
    ensures var p := After(ticks[..n], spawned, started, budget);
      p.started == started && p.heartbeatAt >= started
      && (forall j :: 0 <= j < n && NewKey(ticks, j, spawned, started, budget) ==> ticks[j].notedAt <= p.heartbeatAt)
      && (p.heartbeatAt == started || exists j :: 0 <= j < n && NewKey(ticks, j, spawned, started, budget) && ticks[j].notedAt == p.heartbeatAt)
      && (n > 0 ==> p.heartbeatAt <= ticks[n - 1].checkedAt)
  {
    if n > 0 {
      var m := n - 1;
      LastProgress(ticks, m, spawned, started, budget);
      assert ticks[..n][..m] == ticks[..m] && ticks[..n][m] == ticks[m];
      var p, q := After(ticks[..m], spawned, started, budget), After(ticks[..n], spawned, started, budget);
      assert q == AutoStep(p, ticks[m], spawned, budget).0;
      assert AutoDecision(ticks, m, spawned, started, budget).None?;
      hide After, AutoStep;
      OneStep(p, ticks[m], spawned, budget);
      assert m > 0 ==> ticks[m - 1].checkedAt <= ticks[m].notedAt;
    }
  }

  /** What an undecided round changes. */
  lemma {:induction false} OneStep(p: Progress, t: Tick, spawned: Option<nat>, budget: nat)
    requires AutoStep(p, t, spawned, budget).1.None?
    ensures var q, info := AutoStep(p, t, spawned, budget).0, Looked(t, spawned);
      q.started == p.started
      && if info.Some? && info.value.heartbeat.Some? && p.heartbeat != info.value.heartbeat
         then q.heartbeatAt == t.notedAt && q.heartbeat == info.value.heartbeat
         else q.heartbeatAt == p.heartbeatAt && q.heartbeat == p.heartbeat
  {
  }

  /** A boot the tracker looks at, with no dead process, below the ceiling. */
  predicate LiveBoot(t: Tick, spawned: Option<nat>, started: int) {
    var info := Looked(t, spawned);
    info.Some? && (KnownPid(info.value, spawned).Some? ==> t.alive) && BootAge(Begin(started), info.value, t) < BACKSTOP
  }

  /** For a whole budget neither the wait began nor a new heartbeat key was seen. */
  ghost predicate Silent(ticks: seq<Tick>, k: nat, spawned: Option<nat>, started: int, budget: nat)
    requires k < |ticks|
  {
    ticks[k].checkedAt - started >= budget
    && forall j :: 0 <= j <= k && NewKey(ticks, j, spawned, started, budget) ==> ticks[k].checkedAt - ticks[j].notedAt >= budget
  }

  /** Autostart reports a stall exactly when the tracker looks at a live boot
      below the ceiling and there was silence for a whole budget. */
  lemma {:induction false} StallMeansSilence(ticks: seq<Tick>, k: nat, spawned: Option<nat>, started: int, budget: nat)
    requires k < |ticks| && Advancing(ticks, started) && Undecided(ticks, k, spawned, started, budget)
    ensures AutoDecision(ticks, k, spawned, started, budget) == Some(Stalled)
       <==> LiveBoot(ticks[k], spawned, started) && Silent(ticks, k, spawned, started, budget)
  {
    LastProgress(ticks, k, spawned, started, budget);
    hide After;
    var p := After(ticks[..k], spawned, started, budget);
    StalledStep(p, ticks[k], spawned, budget);
    assert LiveBoot(ticks[k], spawned, started) ==>
      BootAge(p, Looked(ticks[k], spawned).value, ticks[k]) == BootAge(Begin(started), Looked(ticks[k], spawned).value, ticks[k]);
    assert k > 0 ==> ticks[k - 1].checkedAt <= ticks[k].notedAt;
  }

  lemma {:induction false} StalledStep(p: Progress, t: Tick, spawned: Option<nat>, budget: nat)
    ensures AutoStep(p, t, spawned, budget).1 == Some(Stalled)
       <==> LiveBoot(t, spawned, p.started) && t.checkedAt - Latest(p, t, spawned) >= budget
  {
  }

  /** The last moment of progress once the round is noted. */
  function Latest(p: Progress, t: Tick, spawned: Option<nat>): int {
    var info := Looked(t, spawned);
    if info.Some? && info.value.heartbeat.Some? && p.heartbeat != info.value.heartbeat then t.notedAt else p.heartbeatAt
  }

  /** While something new was seen within the budget there is no stall. */
  lemma {:induction false} NoStallWhileBeating(ticks: seq<Tick>, k: nat, j: nat, spawned: Option<nat>, started: int, budget: nat)
    requires j <= k < |ticks| && Advancing(ticks, started) && Undecided(ticks, k, spawned, started, budget)
    requires NewKey(ticks, j, spawned, started, budget) && ticks[k].checkedAt - ticks[j].notedAt < budget
    ensures AutoDecision(ticks, k, spawned, started, budget) != Some(Stalled)
  {
    if AutoDecision(ticks, k, spawned, started, budget) == Some(Stalled) {
      StallMeansSilence(ticks, k, spawned, started, budget);
    }
  }

  /** From time `late` on, every boot that is looked at is over the ceiling. */
  predicate OverCeiling(ticks: seq<Tick>, spawned: Option<nat>, started: int, late: int) {
    forall k :: 0 <= k < |ticks| && ticks[k].notedAt >= late && Looked(ticks[k], spawned).Some? ==>
      BootAge(Begin(started), Looked(ticks[k], spawned).value, ticks[k]) >= BACKSTOP
  }

  lemma {:induction false} LateLookEnds(p: Progress, t: Tick, spawned: Option<nat>, budget: nat)
    requires Looked(t, spawned).Some? && BootAge(p, Looked(t, spawned).value, t) >= BACKSTOP
    ensures AutoStep(p, t, spawned, budget).1.Some?
  {
  }

  lemma {:induction false} LateBlindEnds(p: Progress, t: Tick, spawned: Option<nat>, budget: nat)
    requires Looked(t, spawned).None? && t.checkedAt - p.heartbeatAt >= budget
    ensures AutoStep(p, t, spawned, budget).1.Some?
  {
  }

  lemma {:induction false} SameBootAge(p: Progress, q: Progress, info: Starting, t: Tick)
    requires p.started == q.started
    ensures BootAge(p, info, t) == BootAge(q, info, t)
  {
  }

  /** Nothing is noted after the ceiling. */
  lemma {:induction false} ProgressBeforeCeiling(ticks: seq<Tick>, n: nat, spawned: Option<nat>, started: int, budget: nat, late: int)
    requires Advancing(ticks, started) && Undecided(ticks, n, spawned, started, budget)
    requires OverCeiling(ticks, spawned, started, late) && started <= late
    ensures After(ticks[..n], spawned, started, budget).heartbeatAt <= late
    ensures After(ticks[..n], spawned, started, budget).started == started
  {
    if n > 0 {
      var m := n - 1;
      ProgressBeforeCeiling(ticks, m, spawned, started, budget, late);
      assert ticks[..n][..m] == ticks[..m] && ticks[..n][m] == ticks[m];
      var p := After(ticks[..m], spawned, started, budget);
      assert After(ticks[..n], spawned, started, budget) == AutoStep(p, ticks[m], spawned, budget).0;
      assert AutoDecision(ticks, m, spawned, started, budget).None?;
      hide After, AutoStep, BootAge;
      OneStep(p, ticks[m], spawned, budget);
      if Looked(ticks[m], spawned).Some? && ticks[m].notedAt >= late {
        SameBootAge(p, Begin(started), Looked(ticks[m], spawned).value, ticks[m]);
        LateLookEnds(p, ticks[m], spawned, budget);
      }
    }
  }

  /** Autostart always ends when the boot timestamp stays fixed: once the clocks
      have passed the ceiling by one budget, the next round decides. */
  lemma {:induction false} AutostartEnds(ticks: seq<Tick>, k: nat, spawned: Option<nat>, started: int, budget: nat, late: int)
    requires k < |ticks| && Advancing(ticks, started) && OverCeiling(ticks, spawned, started, late) && started <= late
    requires ticks[k].notedAt >= late + budget
    ensures !Undecided(ticks, k + 1, spawned, started, budget)
  {
    if Undecided(ticks, k, spawned, started, budget) {
      ProgressBeforeCeiling(ticks, k, spawned, started, budget, late);
      var p, t := After(ticks[..k], spawned, started, budget), ticks[k];
      hide After, AutoStep, BootAge;
      if Looked(t, spawned).Some? {
        SameBootAge(p, Begin(started), Looked(t, spawned).value, t);
        LateLookEnds(p, t, spawned, budget);
      } else {
        LateBlindEnds(p, t, spawned, budget);
      }
      assert AutoDecision(ticks, k, spawned, started, budget).Some?;
    }
  }

  /** A fixed timestamp, or none at all, and wall clocks that keep up. */
  predicate FixedStart(ticks: seq<Tick>, spawned: Option<nat>, at: int) {
    forall k :: 0 <= k < |ticks| && Looked(ticks[k], spawned).Some? ==>
      var s := Looked(ticks[k], spawned).value.startedAt; s.None? || s == Some(at)
  }

  /** With a fixed timestamp the ceiling is passed as soon as both clocks are 15
      minutes beyond the starts. */
  lemma {:induction false} FixedStartOverCeiling(ticks: seq<Tick>, spawned: Option<nat>, started: int, late: int, at: int)
    requires FixedStart(ticks, spawned, at) && started + BACKSTOP <= late
    requires forall k :: 0 <= k < |ticks| && ticks[k].notedAt >= late ==> ticks[k].utc - at >= BACKSTOP
    ensures OverCeiling(ticks, spawned, started, late)
  {
  }

  // ---- a boot that restarts for ever ----

  /** A daemon that is reborn in every round, a heartbeat each. */
  function Reborn(n: nat): seq<Tick> {
    seq(n, i requires 0 <= i < n => Tick(Booting(Starting(None, None, Some((i, 0)), Some(1000 * i))), true, true, 1000 * i, 1000 * i, 1000 * i))
  }

  /** When the timestamp moves, there is no bound: every number of rounds can
      pass undecided. */
  lemma {:induction false} RebornNeverEnds(n: nat, k: nat)
    requires k <= n
    ensures Undecided(Reborn(n), k, None, 0, 1) && Advancing(Reborn(n), 0)
    ensures After(Reborn(n)[..k], None, 0, 1).heartbeat == if k == 0 then None else Some((k - 1, 0))
  {
  }
}
