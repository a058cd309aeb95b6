/** The stages of an answer round: launches, the barrier between the stages,
    closing, blind review scopes, and cleanup when something fails. */
module ForumRound {
  import opened Outcomes
  import opened ForumPanel
  import opened ForumIds
  import Text

  datatype Report = Report(participant: Participant, task: string, path: string)

  // ---- who reads whose report ----

  /** Identity-based exclusion: every report of another author, in order. */
  function ReviewScope(sources: seq<Report>, reviewer: Participant): seq<Report> {
    if sources == [] then []
    else (if SameReviewer(reviewer, sources[0].participant) then [] else [sources[0]]) + ReviewScope(sources[1..], reviewer)
  }

  /** Index-based exclusion: every report but the reviewer's own. */
  function OtherReports(reports: seq<Report>, index: nat): seq<Report>
    requires index < |reports|
  {
    reports[..index] + reports[index + 1..]
  }

  lemma {:induction false} ScopeSplits(a: seq<Report>, b: seq<Report>, reviewer: Participant)
    ensures ReviewScope(a + b, reviewer) == ReviewScope(a, reviewer) + ReviewScope(b, reviewer)
  {
    if a == [] {
      assert a + b == b;
    } else {
      assert (a + b)[1..] == a[1..] + b;
      ScopeSplits(a[1..], b, reviewer);
    }
  }

  lemma {:induction false} ScopeOfOthers(sources: seq<Report>, reviewer: Participant)
    requires forall i :: 0 <= i < |sources| ==> !SameReviewer(reviewer, sources[i].participant)
    ensures ReviewScope(sources, reviewer) == sources
  {
    if sources != [] { ScopeOfOthers(sources[1..], reviewer); }
  }

  /** A scope holds exactly the other authors' reports. */
  lemma {:induction false} ScopeMembers(sources: seq<Report>, reviewer: Participant, r: Report)
    ensures r in ReviewScope(sources, reviewer) <==> r in sources && !SameReviewer(reviewer, r.participant)
  {
    if sources != [] { ScopeMembers(sources[1..], reviewer, r); }
  }

  function Panel(reports: seq<Report>): seq<Participant> {
    seq(|reports|, i requires 0 <= i < |reports| => reports[i].participant)
  }

  lemma {:induction false} ScopeAround(front: seq<Report>, own: Report, back: seq<Report>, reviewer: Participant)
    requires SameReviewer(reviewer, own.participant)
    requires forall i :: 0 <= i < |front| ==> !SameReviewer(reviewer, front[i].participant)
    requires forall i :: 0 <= i < |back| ==> !SameReviewer(reviewer, back[i].participant)
    ensures ReviewScope(front + ([own] + back), reviewer) == front + back
  {
    hide SameReviewer;
    ScopeSplits(front, [own] + back, reviewer);
    ScopeSplits([own], back, reviewer);
    ScopeOfOthers(front, reviewer);
    ScopeOfOthers(back, reviewer);
    assert ReviewScope([own], reviewer) == [];
  }

  lemma {:induction false} OthersDiffer(reports: seq<Report>, i: nat, k: nat)
    requires i < |reports| && k < |reports| && k != i && DifferentModels(Panel(reports))
    ensures !SameReviewer(reports[i].participant, reports[k].participant)
  {
    var panel := Panel(reports);
    assert panel[i] == reports[i].participant && panel[k] == reports[k].participant;
  }

  lemma {:induction false} IndexIsIdentity(reports: seq<Report>, i: nat)
    requires i < |reports| && DifferentModels(Panel(reports))
    ensures OtherReports(reports, i) == ReviewScope(reports, reports[i].participant)
  {
    var me := reports[i].participant;
    assert SameReviewer(me, me);
    hide SameReviewer, Panel, DifferentModels, ReviewScope;
    forall k | 0 <= k < |reports| && k != i ensures !SameReviewer(me, reports[k].participant) {
      OthersDiffer(reports, i, k);
    }
    assert reports == reports[..i] + ([reports[i]] + reports[i + 1..]);
    ScopeAround(reports[..i], reports[i], reports[i + 1..], me);
  }

  lemma {:induction false} IdentityNeedsDifferentModels(reports: seq<Report>, i: nat, j: nat)
    requires i < j < |reports| && SameReviewer(reports[i].participant, reports[j].participant)
    ensures OtherReports(reports, i) != ReviewScope(reports, reports[i].participant)
  {
    hide SameReviewer, ReviewScope;
    ScopeMembers(reports, reports[i].participant, reports[j]);
    assert OtherReports(reports, i)[j - 1] == reports[j];
  }

  /** Excluding a reviewer's own report by index is excluding it by identity
      for every reviewer if and only if the panel repeats no model. */
  lemma {:induction false} BlindByIndexIffUnique(reports: seq<Report>)
    ensures (forall i :: 0 <= i < |reports| ==> OtherReports(reports, i) == ReviewScope(reports, reports[i].participant))
      <==> DifferentModels(Panel(reports))
  {
    hide OtherReports, ReviewScope, SameReviewer;
    var panel := Panel(reports);
    if DifferentModels(panel) {
      forall i | 0 <= i < |reports| ensures OtherReports(reports, i) == ReviewScope(reports, reports[i].participant) {
        IndexIsIdentity(reports, i);
      }
    } else {
      var i, j :| 0 <= i < j < |panel| && SameReviewer(panel[i], panel[j]);
      IdentityNeedsDifferentModels(reports, i, j);
    }
  }

  // ---- the script of a round ----

  /** Who is launched, and the reports the brief names. */
  datatype Brief = Brief(to: Participant, reports: seq<Report>)

  /** What a round does to the outside, one event at a time: a promotion carries
      the text that was found, an abort is an attempt to close after a failure. */
  datatype Event =
    | Launched(task: string, brief: Brief)
    | Closed(task: string)
    | Promoted(task: string, promotion: Promotion)
    | Aborted(task: string)

  datatype Promotion = Promotion(path: string, text: string)

  predicate NonEmpty(p: Promotion) { p.path != "" && !Text.Blank(p.text) }

  predicate AllNonEmpty(ps: seq<Promotion>) { forall i :: 0 <= i < |ps| ==> NonEmpty(ps[i]) }

  function Launching(tasks: seq<string>, briefs: seq<Brief>): (s: seq<Event>)
    requires |tasks| == |briefs|
    ensures |s| == |tasks|
  {
    seq(|tasks|, i requires 0 <= i < |tasks| => Launched(tasks[i], briefs[i]))
  }

  function Closing(tasks: seq<string>, ps: seq<Promotion>): (s: seq<Event>)
    requires |tasks| == |ps|
    ensures |s| == 2 * |tasks|
  {
    if tasks == [] then []
    else
      var n := |tasks| - 1;
      Closing(tasks[..n], ps[..n]) + [Closed(tasks[n]), Promoted(tasks[n], ps[n])]
  }

  /** In the first stage nobody sees a report. */
  function NoReports(panel: seq<Participant>): (briefs: seq<Brief>)
    ensures |briefs| == |panel|
  {
    seq(|panel|, i requires 0 <= i < |panel| => Brief(panel[i], []))
  }

  function ReviewBriefs(reports: seq<Report>): (briefs: seq<Brief>)
    ensures |briefs| == |reports|
  {
    seq(|reports|, i requires 0 <= i < |reports| => Brief(reports[i].participant, OtherReports(reports, i)))
  }

  function Reports(panel: seq<Participant>, tasks: seq<string>, ps: seq<Promotion>): (r: seq<Report>)
    requires |panel| == |tasks| == |ps|
    ensures |r| == |panel|
  {
    seq(|panel|, i requires 0 <= i < |panel| => Report(panel[i], tasks[i], ps[i].path))
  }

  /** The first stage when nothing fails: launch all, then close all. */
  function FirstStage(panel: seq<Participant>, tasks: seq<string>, ps: seq<Promotion>): (s: seq<Event>)
    requires |tasks| == |ps| == |panel|
    ensures |s| == 3 * |tasks|
  {
    Launching(tasks, NoReports(panel)) + Closing(tasks, ps)
  }

  function ReviewStage(tasks: seq<string>, reports: seq<Report>, ps: seq<Promotion>): (s: seq<Event>)
    requires |tasks| == |ps| == |reports|
    ensures |s| == 3 * |tasks|
  {
    Launching(tasks, ReviewBriefs(reports)) + Closing(tasks, ps)
  }

  /** The whole round when nothing fails: the reviews come after the barrier. */
  function Script(panel: seq<Participant>, fast: bool, tasks: seq<string>, ps: seq<Promotion>): seq<Event>
    requires |tasks| == |ps| == (if fast then |panel| else 2 * |panel|)
  {
    var n := |panel|;
    FirstStage(panel, tasks[..n], ps[..n])
    + if fast then [] else ReviewStage(tasks[n..], Reports(panel, tasks[..n], ps[..n]), ps[n..])
  }

  lemma {:induction false} ClosingHolds(tasks: seq<string>, ps: seq<Promotion>, i: nat)
    requires |tasks| == |ps| && i < |tasks|
    ensures Closing(tasks, ps)[2 * i] == Closed(tasks[i]) && Closing(tasks, ps)[2 * i + 1] == Promoted(tasks[i], ps[i])
  {
    var n := |tasks| - 1;
    if i < n { ClosingHolds(tasks[..n], ps[..n], i); }
  }

  lemma {:induction false} ClosingLaunchesNothing(tasks: seq<string>, ps: seq<Promotion>, k: nat)
    requires |tasks| == |ps| && k < 2 * |tasks|
    ensures !Closing(tasks, ps)[k].Launched?
  {
    var n := |tasks| - 1;
    if k < 2 * n { ClosingLaunchesNothing(tasks[..n], ps[..n], k); }
  }

  /** The first stage of a script, event by event: every participant is launched
      on its own task without a report to read, then each is closed and its
      report promoted, in order. */
  lemma {:induction false} FirstStageAt(panel: seq<Participant>, fast: bool, tasks: seq<string>, ps: seq<Promotion>, i: nat)
    requires |tasks| == |ps| == (if fast then |panel| else 2 * |panel|) && i < |panel|
    ensures |Script(panel, fast, tasks, ps)| == 3 * |tasks|
    ensures Script(panel, fast, tasks, ps)[i] == Launched(tasks[i], Brief(panel[i], []))
    ensures Script(panel, fast, tasks, ps)[|panel| + 2 * i] == Closed(tasks[i])
    ensures Script(panel, fast, tasks, ps)[|panel| + 2 * i + 1] == Promoted(tasks[i], ps[i])
  {
    var n := |panel|;
    ClosingHolds(tasks[..n], ps[..n], i);
    hide Closing, Reports, ReviewStage;
    var first := FirstStage(panel, tasks[..n], ps[..n]);
    assert first == Launching(tasks[..n], NoReports(panel)) + Closing(tasks[..n], ps[..n]);
    assert first[n + 2 * i] == Closing(tasks[..n], ps[..n])[2 * i];
    assert first[n + 2 * i + 1] == Closing(tasks[..n], ps[..n])[2 * i + 1];
    assert first[i] == Launched(tasks[i], Brief(panel[i], []));
  }

  /** The second stage: every participant is launched on a task of its own, to
      read the others' reports, then each is closed and promoted. */
  lemma {:induction false} ReviewStageAt(panel: seq<Participant>, tasks: seq<string>, ps: seq<Promotion>, i: nat)
    requires |tasks| == |ps| == 2 * |panel| && i < |panel|
    ensures |Script(panel, false, tasks, ps)| == 6 * |panel|
    ensures var s, n := Script(panel, false, tasks, ps), |panel|;
      s[3 * n + i] == Launched(tasks[n + i], Brief(panel[i], OtherReports(Reports(panel, tasks[..n], ps[..n]), i)))
      && s[4 * n + 2 * i] == Closed(tasks[n + i]) && s[4 * n + 2 * i + 1] == Promoted(tasks[n + i], ps[n + i])
  {
    var n := |panel|;
    var reports := Reports(panel, tasks[..n], ps[..n]);
    ClosingHolds(tasks[n..], ps[n..], i);
    assert reports[i].participant == panel[i];
    hide Closing, Reports, FirstStage, OtherReports;
    var second := ReviewStage(tasks[n..], reports, ps[n..]);
    assert second == Launching(tasks[n..], ReviewBriefs(reports)) + Closing(tasks[n..], ps[n..]);
    assert second[n + 2 * i] == Closing(tasks[n..], ps[n..])[2 * i];
    assert second[n + 2 * i + 1] == Closing(tasks[n..], ps[n..])[2 * i + 1];
    assert second[i] == Launched(tasks[n + i], Brief(panel[i], OtherReports(reports, i)));
  }

  lemma {:induction false} LaunchedReview(panel: seq<Participant>, tasks: seq<string>, ps: seq<Promotion>, k: nat)
    requires |tasks| == |ps| == 2 * |panel| && |panel| <= k < 6 * |panel| && Script(panel, false, tasks, ps)[k].Launched?
    ensures 3 * |panel| <= k < 4 * |panel|
    ensures Script(panel, false, tasks, ps)[k] == Launched(tasks[k - 2 * |panel|],
      Brief(panel[k - 3 * |panel|], OtherReports(Reports(panel, tasks[..|panel|], ps[..|panel|]), k - 3 * |panel|)))
  {
    var n, s := |panel|, Script(panel, false, tasks, ps);
    var one, two := Closing(tasks[..n], ps[..n]), Closing(tasks[n..], ps[n..]);
    hide Closing, Reports, OtherReports;
    if k < 3 * n {
      assert s[k] == one[k - n];
      ClosingLaunchesNothing(tasks[..n], ps[..n], k - n);
    } else if k >= 4 * n {
      assert s[k] == two[k - 4 * n];
      ClosingLaunchesNothing(tasks[n..], ps[n..], k - 4 * n);
    }
  }

  lemma {:induction false} ClosedBefore(panel: seq<Participant>, tasks: seq<string>, ps: seq<Promotion>, k: nat, i: nat)
    requires |tasks| == |ps| == 2 * |panel| && i < |panel| && 3 * |panel| <= k <= 6 * |panel|
    ensures Closed(tasks[i]) in Script(panel, false, tasks, ps)[..k]
    ensures Promoted(tasks[i], ps[i]) in Script(panel, false, tasks, ps)[..k]
  {
    var n, s := |panel|, Script(panel, false, tasks, ps);
    ClosingHolds(tasks[..n], ps[..n], i);
    hide Closing, Reports, ReviewStage;
    var at := n + 2 * i;
    assert s[..k][at] == s[at] == Closing(tasks[..n], ps[..n])[2 * i];
    assert s[..k][at + 1] == s[at + 1] == Closing(tasks[..n], ps[..n])[2 * i + 1];
  }

  /** The barrier: whenever a run has come to launching a review, every
      first-stage dispatch is closed, its report promoted and not blank, and
      the brief goes to that participant and names exactly the others' reports. */
  lemma {:induction false} BarrierHolds(panel: seq<Participant>, tasks: seq<string>, ps: seq<Promotion>, log: seq<Event>, k: nat)
    requires |tasks| == |ps| == 2 * |panel| && AllNonEmpty(ps) && log <= Script(panel, false, tasks, ps)
    requires |panel| <= k < |log| && log[k].Launched?
    ensures forall i :: 0 <= i < |panel| ==>
      NonEmpty(ps[i]) && Closed(tasks[i]) in log[..k] && Promoted(tasks[i], ps[i]) in log[..k]
    ensures 3 * |panel| <= k < 4 * |panel|
    ensures log[k].brief == Brief(panel[k - 3 * |panel|], OtherReports(Reports(panel, tasks[..|panel|], ps[..|panel|]), k - 3 * |panel|))
  {
    var s := Script(panel, false, tasks, ps);
    assert log[k] == s[k] && log[..k] == s[..k];
    hide Script, Reports, OtherReports, NonEmpty;
    LaunchedReview(panel, tasks, ps, k);
    forall i | 0 <= i < |panel| ensures Closed(tasks[i]) in log[..k] && Promoted(tasks[i], ps[i]) in log[..k] {
      ClosedBefore(panel, tasks, ps, k, i);
    }
  }

  // ---- the run itself ----

  datatype Failure = Failed | WaitUnknown

  datatype WaitOutcome = Reported | Died | TimedOut | ContactLost

  method Wait() returns (outcome: WaitOutcome)
  {
    var o: WaitOutcome := *;
    outcome := o;
  }

  /** The wait is retried once after losing contact; a second loss leaves the
      workers' state unknown, and a death or a timeout fails at once. */
  method WaitBarrier() returns (failure: Option<Failure>, waits: seq<WaitOutcome>)
    ensures 1 <= |waits| <= 2 && (|waits| == 2 <==> waits[0] == ContactLost)
    ensures failure == (match waits[|waits| - 1]
      case Reported => None
      case ContactLost => Some(WaitUnknown)
      case _ => Some(Failed))
  {
    waits := [];
    while |waits| < 2
      invariant |waits| <= 2 && forall i :: 0 <= i < |waits| ==> waits[i] == ContactLost
    {
      var outcome := Wait();
      waits := waits + [outcome];
      match outcome {
        case Reported => return None, waits;
        case Died => return Some(Failed), waits;
        case TimedOut => return Some(Failed), waits;
        case ContactLost =>
      }
    }
    failure := Some(WaitUnknown);
  }

  datatype Dispatch = Dispatch(task: string, closed: bool)

  /** Launch one dispatch per task; every launched one is open. */
  method LaunchAll(tasks: seq<string>, briefs: seq<Brief>) returns (ok: bool, log: seq<Event>, active: seq<Dispatch>)
    requires |tasks| == |briefs|
    ensures log <= Launching(tasks, briefs) && (ok ==> log == Launching(tasks, briefs))
    ensures |active| == |log| && forall i :: 0 <= i < |active| ==> active[i] == Dispatch(tasks[i], false)
  {
    log, active := [], [];
    var i := 0;
    while i < |tasks|
      invariant 0 <= i <= |tasks| && log == Launching(tasks, briefs)[..i]
      invariant |active| == i && forall k :: 0 <= k < i ==> active[k] == Dispatch(tasks[k], false)
    {
      var launches: bool := *;
      if !launches { return false, log, active; }
      log := log + [Launched(tasks[i], briefs[i])];
      active := active + [Dispatch(tasks[i], false)];
      i := i + 1;
    }
    ok := true;
  }

  /** Close with success, check the promoted report, hand in the evidence and
      finish the task. Any of these may fail, also after the close. */
  method CloseAndFinish(task: string) returns (r: Result<Promotion, Failure>, log: seq<Event>, ghost p: Promotion)
    ensures NonEmpty(p) && log <= [Closed(task), Promoted(task, p)]
    ensures r.Ok? ==> r.value == p && log == [Closed(task), Promoted(task, p)]
    ensures r.Err? ==> r.error == Failed
  {
    log, p := [], Promotion("-", "-");
    var closes: bool := *;
    if !closes { return Err(Failed), log, p; }
    log := log + [Closed(task)];
    var path: string, text: string := *, *;
    if path == "" || Text.Blank(text) { return Err(Failed), log, p; }
    var promotion := Promotion(path, text);
    p := promotion;
    log := log + [Promoted(task, promotion)];
    var finishes: bool := *;
    r := if finishes then Ok(promotion) else Err(Failed);
  }

  /** Close the dispatches of a stage in order. On success all are marked
      closed; a failure leaves the failing one and the later ones unmarked. */
  method CloseAll(tasks: seq<string>, active: seq<Dispatch>, from: nat)
      returns (r: Result<seq<Promotion>, Failure>, log: seq<Event>, marked: seq<Dispatch>, ghost ps: seq<Promotion>)
    requires from + |tasks| == |active| && forall i :: 0 <= i < |tasks| ==> active[from + i] == Dispatch(tasks[i], false)
    ensures |ps| == |tasks| && AllNonEmpty(ps) && log <= Closing(tasks, ps)
    ensures r.Ok? ==> r.value == ps && log == Closing(tasks, ps)
    ensures r.Err? ==> r.error == Failed
    ensures |marked| == |active| && marked[..from] == active[..from]
    ensures forall i :: 0 <= i < |tasks| ==> marked[from + i].task == tasks[i]
    ensures forall i :: 0 <= i < |tasks| && (r.Ok? || marked[from + i].closed) ==> Closed(tasks[i]) in log
  {
    hide NonEmpty, Closing;
    NothingClosed();
    log, ps, marked := [], [], active;
    var promotions: seq<Promotion> := [];
    var i := 0;
    assert tasks[..0] == [];
    while i < |tasks|
      invariant 0 <= i <= |tasks| && |ps| == i && promotions == ps && AllNonEmpty(ps) && log == Closing(tasks[..i], ps)
      invariant |marked| == |active| && marked[..from] == active[..from]
      invariant forall k :: 0 <= k < |tasks| ==> marked[from + k] == Dispatch(tasks[k], k < i)
      invariant forall k :: 0 <= k < i ==> Closed(tasks[k]) in log
    {
      var outcome, events, p := CloseAndFinish(tasks[i]);
      if outcome.Err? {
        ps := ClosingCut(tasks, ps, i, p, events);
        return Err(outcome.error), log + events, marked, ps;
      }
      ClosingGrows(tasks, ps, i, p);
      log := log + events;
      marked := marked[from + i := Dispatch(tasks[i], true)];
      ps := ps + [p];
      promotions := promotions + [outcome.value];
      assert events[0] == Closed(tasks[i]) && events[0] in events;
      i := i + 1;
    }
    assert tasks[..i] == tasks;
    r := Ok(promotions);
  }

  lemma {:induction false} ClosingGrows(tasks: seq<string>, ps: seq<Promotion>, i: nat, p: Promotion)
    requires i < |tasks| && |ps| == i
    ensures Closing(tasks[..i + 1], ps + [p]) == Closing(tasks[..i], ps) + [Closed(tasks[i]), Promoted(tasks[i], p)]
  {
    assert tasks[..i + 1][..i] == tasks[..i] && (ps + [p])[..i] == ps;
  }

  /** Placeholders for the promotions that never came. */
  lemma {:induction false} ClosingPads(tasks: seq<string>, ps: seq<Promotion>, i: nat) returns (all: seq<Promotion>)
    requires |ps| == i <= |tasks| && AllNonEmpty(ps)
    ensures |all| == |tasks| && AllNonEmpty(all) && Closing(tasks[..i], ps) <= Closing(tasks, all)
    decreases |tasks| - i
  {
    if i == |tasks| {
      all := ps;
      assert tasks[..i] == tasks;
    } else {
      PaddingIsNonEmpty();
      var pad := Promotion("-", "-");
      hide NonEmpty, Closing;
      ClosingGrows(tasks, ps, i, pad);
      all := ClosingPads(tasks, ps + [pad], i + 1);
      PrefixTrans(Closing(tasks[..i], ps), Closing(tasks[..i + 1], ps + [pad]), Closing(tasks, all));
    }
  }

  lemma {:induction false} NothingClosed()
    ensures Closing([], []) == []
  {
  }

  lemma {:induction false} PaddingIsNonEmpty()
    ensures NonEmpty(Promotion("-", "-"))
  {
    VisibleIsNotBlank('-');
  }

  lemma {:induction false} VisibleIsNotBlank(c: char)
    requires !Text.IsSpace(c)
    ensures !Text.Blank([c])
  {
    hide Text.IsSpace;
  }

  /** A stage cut short inside the closing of dispatch `i`. */
  lemma {:induction false} ClosingCut(tasks: seq<string>, ps: seq<Promotion>, i: nat, p: Promotion, events: seq<Event>)
      returns (all: seq<Promotion>)
    requires |ps| == i < |tasks| && AllNonEmpty(ps) && NonEmpty(p) && events <= [Closed(tasks[i]), Promoted(tasks[i], p)]
    ensures |all| == |tasks| && AllNonEmpty(all) && Closing(tasks[..i], ps) + events <= Closing(tasks, all)
  {
    hide NonEmpty, Closing;
    ClosingGrows(tasks, ps, i, p);
    all := ClosingPads(tasks, ps + [p], i + 1);
    var done, last, whole := Closing(tasks[..i], ps), [Closed(tasks[i]), Promoted(tasks[i], p)], Closing(tasks, all);
    PrefixOfConcat(done, events, last);
    PrefixTrans(done + events, done + last, whole);
  }

  lemma {:induction false} PrefixOfConcat<T>(a: seq<T>, b: seq<T>, c: seq<T>)
    requires b <= c
    ensures a + b <= a + c
  {
  }

  lemma {:induction false} PrefixTrans<T>(a: seq<T>, b: seq<T>, c: seq<T>)
    requires a <= b <= c
    ensures a <= c
  {
  }

  /** Abort whatever is still marked open; the attempt itself may fail. */
  method BestEffortClose(active: seq<Dispatch>) returns (log: seq<Event>)
    ensures forall k :: 0 <= k < |log| ==> log[k].Aborted?
    ensures forall i :: 0 <= i < |active| && !active[i].closed ==> Aborted(active[i].task) in log
  {
    log := [];
    var i := 0;
    while i < |active|
      invariant 0 <= i <= |active|
      invariant forall k :: 0 <= k < |log| ==> log[k].Aborted?
      invariant forall k :: 0 <= k < i && !active[k].closed ==> Aborted(active[k].task) in log
    {
      if !active[i].closed { log := log + [Aborted(active[i].task)]; }
      i := i + 1;
    }
  }

  // ---- the whole round, with its failures ----

  /** Every launched dispatch is on the list of active ones. */
  ghost predicate Covers(active: seq<Dispatch>, log: seq<Event>) {
    forall k :: 0 <= k < |log| && log[k].Launched? ==> Listed(active, log[k].task)
  }

  ghost predicate Listed(active: seq<Dispatch>, task: string) {
    exists i :: 0 <= i < |active| && active[i].task == task
  }

  /** What is marked closed was closed. */
  ghost predicate MarkedRight(active: seq<Dispatch>, log: seq<Event>) {
    forall i :: 0 <= i < |active| && active[i].closed ==> Closed(active[i].task) in log
  }

  /** Every launched dispatch was closed, or an abort was attempted. */
  ghost predicate Accounted(log: seq<Event>, aborts: seq<Event>) {
    forall k :: 0 <= k < |log| && log[k].Launched? ==> Closed(log[k].task) in log || Aborted(log[k].task) in aborts
  }

  lemma {:induction false} CoversMore(a: seq<Dispatch>, p: seq<Event>, b: seq<Dispatch>, q: seq<Event>)
    requires Covers(a, p) && Covers(b, q)
    ensures Covers(a + b, p + q)
  {
    var log, active := p + q, a + b;
    forall k | 0 <= k < |log| && log[k].Launched? ensures Listed(active, log[k].task) {
      if k < |p| {
        var i :| 0 <= i < |a| && a[i].task == p[k].task;
        assert active[i] == a[i];
      } else {
        var i :| 0 <= i < |b| && b[i].task == q[k - |p|].task;
        assert active[|a| + i] == b[i];
      }
    }
  }

  lemma {:induction false} CoversLaunches(tasks: seq<string>, briefs: seq<Brief>, log: seq<Event>, active: seq<Dispatch>)
    requires |tasks| == |briefs| && log <= Launching(tasks, briefs)
    requires |active| == |log| && forall i :: 0 <= i < |active| ==> active[i] == Dispatch(tasks[i], false)
    ensures Covers(active, log)
  {
    forall k | 0 <= k < |log| && log[k].Launched? ensures Listed(active, log[k].task) {
      assert active[k].task == log[k].task;
    }
  }

  lemma {:induction false} CoversClosing(active: seq<Dispatch>, tasks: seq<string>, ps: seq<Promotion>, log: seq<Event>)
    requires |tasks| == |ps| && log <= Closing(tasks, ps)
    ensures Covers(active, log)
  {
    hide Closing;
    forall k | 0 <= k < |log| ensures !log[k].Launched? { ClosingLaunchesNothing(tasks, ps, k); }
  }

  lemma {:induction false} CoversSameTasks(a: seq<Dispatch>, b: seq<Dispatch>, log: seq<Event>)
    requires Covers(a, log) && |a| == |b| && forall i :: 0 <= i < |a| ==> a[i].task == b[i].task
    ensures Covers(b, log)
  {
    forall k | 0 <= k < |log| && log[k].Launched? ensures Listed(b, log[k].task) {
      var i :| 0 <= i < |a| && a[i].task == log[k].task;
      assert b[i].task == log[k].task;
    }
  }

  lemma {:induction false} AllAccounted(active: seq<Dispatch>, log: seq<Event>, aborts: seq<Event>)
    requires Covers(active, log) && MarkedRight(active, log)
    requires forall i :: 0 <= i < |active| && !active[i].closed ==> Aborted(active[i].task) in aborts
    ensures Accounted(log, aborts)
  {
    forall k | 0 <= k < |log| && log[k].Launched? ensures Closed(log[k].task) in log || Aborted(log[k].task) in aborts {
      var i :| 0 <= i < |active| && active[i].task == log[k].task;
    }
  }

  /** A cut inside the first stage is a cut of the script. */
  lemma {:induction false} CutFirst(panel: seq<Participant>, fast: bool, tasks: seq<string>, p1: seq<Promotion>, log: seq<Event>)
      returns (ps: seq<Promotion>)
    requires |tasks| == (if fast then |panel| else 2 * |panel|) && |p1| == |panel| && AllNonEmpty(p1)
    requires log <= FirstStage(panel, tasks[..|panel|], p1)
    ensures |ps| == |tasks| && AllNonEmpty(ps) && ps[..|panel|] == p1 && log <= Script(panel, fast, tasks, ps)
  {
    hide NonEmpty, FirstStage, ReviewStage, Closing, Reports;
    var n := |panel|;
    var rest := ClosingPads(tasks[n..], [], 0);
    ps := p1 + rest;
    assert ps[..n] == p1;
  }

  lemma {:induction false} CutReview(panel: seq<Participant>, tasks: seq<string>, p1: seq<Promotion>, p2: seq<Promotion>, log: seq<Event>)
    requires |tasks| == 2 * |panel| && |p1| == |p2| == |panel| && AllNonEmpty(p1) && AllNonEmpty(p2)
    requires log <= ReviewStage(tasks[|panel|..], Reports(panel, tasks[..|panel|], p1), p2)
    ensures AllNonEmpty(p1 + p2)
    ensures FirstStage(panel, tasks[..|panel|], p1) + log <= Script(panel, false, tasks, p1 + p2)
    ensures log == ReviewStage(tasks[|panel|..], Reports(panel, tasks[..|panel|], p1), p2)
      ==> FirstStage(panel, tasks[..|panel|], p1) + log == Script(panel, false, tasks, p1 + p2)
  {
    hide NonEmpty, FirstStage, ReviewStage, Closing, Reports;
    var n, ps := |panel|, p1 + p2;
    assert ps[..n] == p1 && ps[n..] == p2;
    PrefixOfConcat(FirstStage(panel, tasks[..n], p1), log, ReviewStage(tasks[n..], Reports(panel, tasks[..n], p1), p2));
  }

  /** One stage: launch, wait, close. Its log is a cut of the stage's script,
      and the active list accounts for what was launched. */
  method RunStage(tasks: seq<string>, briefs: seq<Brief>)
      returns (r: Result<seq<Promotion>, Failure>, log: seq<Event>, active: seq<Dispatch>, ghost ps: seq<Promotion>)
    requires |tasks| == |briefs|
    ensures |ps| == |tasks| && AllNonEmpty(ps) && log <= Launching(tasks, briefs) + Closing(tasks, ps)
    ensures r.Ok? ==> r.value == ps && log == Launching(tasks, briefs) + Closing(tasks, ps)
    ensures Covers(active, log) && MarkedRight(active, log)
    ensures r == Err(WaitUnknown) ==> log == Launching(tasks, briefs)
  {
    hide NonEmpty, Closing, Launching, Covers;
    ps := ClosingPads(tasks, [], 0);
    var ok, launches, launched := LaunchAll(tasks, briefs);
    CoversLaunches(tasks, briefs, launches, launched);
    log, active := launches, launched;
    if !ok { return Err(Failed), log, active, ps; }
    if |tasks| > 0 {
      var failure, waits := WaitBarrier();
      if failure.Some? { return Err(failure.value), log, active, ps; }
    }
    var outcome, events, marked, done := CloseAll(tasks, active, 0);
    CoversClosing([], tasks, done, events);
    CoversMore(active, log, [], events);
    assert active + [] == active;
    CoversSameTasks(active, marked, log + events);
    PrefixOfConcat(log, events, Closing(tasks, done));
    return outcome, log + events, marked, done;
  }

  /** Both stages of an answer round; its log is a cut of their script, and the
      active list accounts for what was launched. */
  method RunBoth(panel: seq<Participant>, fast: bool, tasks: seq<string>)
      returns (r: Result<seq<Promotion>, Failure>, log: seq<Event>, active: seq<Dispatch>, ghost ps: seq<Promotion>)
    requires |tasks| == if fast then |panel| else 2 * |panel|
    ensures |ps| == |tasks| && AllNonEmpty(ps) && log <= Script(panel, fast, tasks, ps)
    ensures r.Ok? ==> r.value == ps && log == Script(panel, fast, tasks, ps)
    ensures Covers(active, log) && MarkedRight(active, log)
  {
    hide NonEmpty, Closing, Launching, Covers, MarkedRight, Reports, Script;
    var n := |panel|;
    var first, events, launched, p1 := RunStage(tasks[..n], NoReports(panel));
    log, active := events, launched;
    ps := CutFirst(panel, fast, tasks, p1, log);
    if first.Err? { return Err(first.error), log, active, ps; }
    if fast {
      WholeFast(panel, tasks, p1);
      return Ok(first.value), log, active, p1;
    }
    var reports := Reports(panel, tasks[..n], first.value);
    var second, more, reviewers, p2 := RunStage(tasks[n..], ReviewBriefs(reports));
    CutReview(panel, tasks, p1, p2, more);
    MarksKept(active, log, reviewers, more);
    CoversMore(active, log, reviewers, more);
    log, active, ps := log + more, active + reviewers, p1 + p2;
    if second.Err? { return Err(second.error), log, active, ps; }
    r := Ok(first.value + second.value);
  }

  /** The cleanup of a run that ended with `r`. */
  method CleanUp(r: Result<seq<Promotion>, Failure>, active: seq<Dispatch>, log: seq<Event>) returns (aborts: seq<Event>)
    requires Covers(active, log) && MarkedRight(active, log)
    ensures r.Ok? ==> aborts == []
    ensures forall k :: 0 <= k < |aborts| ==> aborts[k].Aborted?
    ensures r == Err(WaitUnknown) ==> aborts == []
    ensures r == Err(Failed) ==> Accounted(log, aborts)
  {
    hide Covers, Accounted, MarkedRight;
    aborts := [];
    if r == Err(Failed) {
      aborts := BestEffortClose(active);
      AllAccounted(active, log, aborts);
    }
  }

  /** An answer round whose curator is the caller: both stages and the cleanup.
      Whatever happens, the round does a cut of its script and then only aborts;
      it succeeds exactly on the whole script; unknown workers are left open, and
      any other failure leaves no launched dispatch that was neither closed nor
      tried to abort. */
  method RunStages(panel: seq<Participant>, fast: bool, tasks: seq<string>)
      returns (r: Result<seq<Promotion>, Failure>, log: seq<Event>, aborts: seq<Event>, ghost ps: seq<Promotion>)
    requires |tasks| == if fast then |panel| else 2 * |panel|
    ensures |ps| == |tasks| && AllNonEmpty(ps) && log <= Script(panel, fast, tasks, ps)
    ensures r.Ok? ==> r.value == ps && log == Script(panel, fast, tasks, ps) && aborts == []
    ensures forall k :: 0 <= k < |aborts| ==> aborts[k].Aborted?
    ensures r == Err(WaitUnknown) ==> aborts == []
    ensures r == Err(Failed) ==> Accounted(log, aborts)
  {
    hide NonEmpty, Covers, Accounted, MarkedRight, Script;
    var active: seq<Dispatch>;
    r, log, active, ps := RunBoth(panel, fast, tasks);
    aborts := CleanUp(r, active, log);
  }

  /** All reports of the round, which the curator's brief names. */
  function AllReports(panel: seq<Participant>, fast: bool, tasks: seq<string>, ps: seq<Promotion>): seq<Report>
    requires |tasks| == |ps| && |tasks| == if fast then |panel| else 2 * |panel|
  {
    var n := |panel|;
    Reports(panel, tasks[..n], ps[..n]) + if fast then [] else Reports(panel, tasks[n..], ps[n..])
  }

  /** Each report of a round is by the participant of its place, and its path is
      the one promoted for its task; the first stage comes first. */
  lemma {:induction false} ReportAt(panel: seq<Participant>, fast: bool, tasks: seq<string>, ps: seq<Promotion>, i: nat)
    requires |tasks| == |ps| == (if fast then |panel| else 2 * |panel|) && i < |tasks|
    ensures |AllReports(panel, fast, tasks, ps)| == |tasks|
    ensures AllReports(panel, fast, tasks, ps)[i]
         == Report(panel[if i < |panel| then i else i - |panel|], tasks[i], ps[i].path)
  {
  }

  /** The script of a round with a dispatched curator: the curator comes after
      both stages, and its brief names every report of them. */
  function CuratedScript(panel: seq<Participant>, fast: bool, tasks: seq<string>, ps: seq<Promotion>, curator: string, author: Participant,
                         p: Promotion): seq<Event>
    requires |tasks| == |ps| && |tasks| == if fast then |panel| else 2 * |panel|
  {
    Script(panel, fast, tasks, ps) + (Launching([curator], [Brief(author, AllReports(panel, fast, tasks, ps))]) + Closing([curator], [p]))
  }

  /** The same for a round with a dispatched curator. What comes after the
      curator's close may still fail. */
  method RunCurated(panel: seq<Participant>, fast: bool, tasks: seq<string>, curator: string, author: Participant)
      returns (r: Result<seq<Promotion>, Failure>, log: seq<Event>, aborts: seq<Event>, ghost ps: seq<Promotion>, ghost p: Promotion)
    requires |tasks| == if fast then |panel| else 2 * |panel|
    ensures |ps| == |tasks| && AllNonEmpty(ps) && NonEmpty(p) && log <= CuratedScript(panel, fast, tasks, ps, curator, author, p)
    ensures r.Ok? ==> r.value == ps && log == CuratedScript(panel, fast, tasks, ps, curator, author, p) && aborts == []
    ensures forall k :: 0 <= k < |aborts| ==> aborts[k].Aborted?
    ensures r == Err(WaitUnknown) ==> aborts == []
    ensures r == Err(Failed) ==> Accounted(log, aborts)
  {
    hide NonEmpty, Closing, Launching, Covers, Accounted, MarkedRight, Script, AllReports;
    PaddingIsNonEmpty();
    p := Promotion("-", "-");
    var active: seq<Dispatch>;
    r, log, active, ps := RunBoth(panel, fast, tasks);
    if r.Ok? {
      var last, more, curators, cp := RunStage([curator], [Brief(author, AllReports(panel, fast, tasks, r.value))]);
      p := cp[0];
      assert cp == [p];
      OnlyOne(cp);
      PrefixOfConcat(log, more, Launching([curator], [Brief(author, AllReports(panel, fast, tasks, r.value))]) + Closing([curator], [p]));
      MarksKept(active, log, curators, more);
      CoversMore(active, log, curators, more);
      log, active := log + more, active + curators;
      var assembled: bool := *;
      r := if last.Err? then Err(last.error) else if !assembled then Err(Failed) else r;
    }
    aborts := CleanUp(r, active, log);
  }

  lemma {:induction false} OnlyOne(ps: seq<Promotion>)
    requires AllNonEmpty(ps) && |ps| == 1
    ensures NonEmpty(ps[0])
  {
    hide NonEmpty;
  }

  lemma {:induction false} MarksKept(a: seq<Dispatch>, p: seq<Event>, b: seq<Dispatch>, q: seq<Event>)
    requires MarkedRight(a, p) && MarkedRight(b, q)
    ensures MarkedRight(a + b, p + q)
  {
  }

  lemma {:induction false} WholeFast(panel: seq<Participant>, tasks: seq<string>, p1: seq<Promotion>)
    requires |tasks| == |p1| == |panel|
    ensures Script(panel, true, tasks, p1) == FirstStage(panel, tasks[..|panel|], p1)
  {
    assert p1[..|panel|] == p1;
  }

  /** The briefs of a review round: every reviewer gets the other authors' reports. */
  function Scopes(sources: seq<Report>, reviewers: seq<Participant>): (briefs: seq<Brief>)
    ensures |briefs| == |reviewers|
    ensures forall i :: 0 <= i < |reviewers| ==> briefs[i] == Brief(reviewers[i], ReviewScope(sources, reviewers[i]))
  {
    seq(|reviewers|, i requires 0 <= i < |reviewers| => Brief(reviewers[i], ReviewScope(sources, reviewers[i])))
  }

  /** A review round: one stage over a chosen panel, with the same cleanup. */
  method RunReviews(reviewers: seq<Participant>, sources: seq<Report>, tasks: seq<string>)
      returns (r: Result<seq<Promotion>, Failure>, log: seq<Event>, aborts: seq<Event>, ghost ps: seq<Promotion>)
    requires |tasks| == |reviewers|
    ensures |ps| == |tasks| && AllNonEmpty(ps) && log <= Launching(tasks, Scopes(sources, reviewers)) + Closing(tasks, ps)
    ensures r.Ok? ==> r.value == ps && log == Launching(tasks, Scopes(sources, reviewers)) + Closing(tasks, ps) && aborts == []
    ensures forall k :: 0 <= k < |aborts| ==> aborts[k].Aborted?
    ensures r == Err(WaitUnknown) ==> aborts == []
    ensures r == Err(Failed) ==> Accounted(log, aborts)
  {
    hide NonEmpty, Closing, Launching, Covers, Accounted, MarkedRight, Scopes;
    var active: seq<Dispatch>;
    r, log, active, ps := RunStage(tasks, Scopes(sources, reviewers));
    aborts := CleanUp(r, active, log);
  }
}
