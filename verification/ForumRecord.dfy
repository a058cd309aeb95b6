/** What a recorded round says about the run it records: the reports read back
    from the manifest are those of the run, and the briefs of a review name the
    reports that were recorded before. */
module ForumRecord {
  import opened Outcomes
  import opened ForumPanel
  import opened ForumManifest
  import ForumRound

  /** A run that succeeded: who took part, what was promoted for each task, and
      everything it did to the outside. */
  datatype Recorded = Recorded(panel: seq<Participant>, promotions: seq<ForumRound.Promotion>, log: seq<ForumRound.Event>)

  // ---- answer rounds ----

  /** The new last round is that of the run: its reports, read back, are the
      run's first-stage reports and then its cross-reviews, each with its own
      author, task and promoted path. */
  ghost predicate AnswerRecorded(before: seq<Round>, rounds: seq<Round>, input: Input, fast: bool, run: Recorded) {
    |rounds| == |before| + 1 && rounds[..|before|] == before && RoundOfRun(rounds[|before|], |rounds|, input, fast, run)
  }

  ghost predicate RoundOfRun(last: Round, number: nat, input: Input, fast: bool, run: Recorded) {
    var n, ps, tasks := |run.panel|, run.promotions, ReportTasks(last);
    last.number == number && last.input == input && last.fast == fast && last.kind == (if input.AskInput? then Ask else Critique)
    && ReadAll(last.panel) == Ok(run.panel) && |ps| == |tasks| == (if fast then n else 2 * n) && ForumRound.AllNonEmpty(ps)
    && run.log == ForumRound.Script(run.panel, fast, tasks, ps)
    && CountsMatch(last) && RoundReports(last).Ok? && |RoundReports(last).value.0| == n
    && RoundReports(last).value.0 + RoundReports(last).value.1 == ForumRound.AllReports(run.panel, fast, tasks, ps)
  }

  lemma {:induction false} ZipIsReports(panel: seq<Participant>, tasks: seq<string>, paths: seq<string>, ps: seq<ForumRound.Promotion>)
    requires |panel| == |tasks| == |paths| == |ps| && forall i :: 0 <= i < |ps| ==> paths[i] == ps[i].path
    ensures Zip(panel, tasks, paths) == ForumRound.Reports(panel, tasks, ps)
  {
  }

  lemma {:induction false} AnswerReports(r: Round, panel: seq<Participant>, ps: seq<ForumRound.Promotion>)
    requires CountsMatch(r) && r.kind != Review && ReadAll(r.panel) == Ok(panel)
    requires |ps| == |r.paths| && forall i :: 0 <= i < |ps| ==> r.paths[i] == ps[i].path
    ensures var n := |panel|;
      |ps| == |ReportTasks(r)| == (if r.fast then n else 2 * n) && RoundReports(r).Ok? && |RoundReports(r).value.0| == n
      && RoundReports(r).value.0 + RoundReports(r).value.1 == ForumRound.AllReports(panel, r.fast, ReportTasks(r), ps)
  {
    var n, tasks := |panel|, ReportTasks(r);
    hide ReadAll, Zip, ForumRound.Reports;
    assert tasks[..n] == r.firstStage && tasks[n..] == r.crossReview;
    ZipIsReports(panel, r.firstStage, r.paths[..n], ps[..n]);
    if r.fast { NothingZips(panel, r.paths[n..]); } else { ZipIsReports(panel, r.crossReview, r.paths[n..], ps[n..]); }
  }

  lemma {:induction false} NothingZips(panel: seq<Participant>, paths: seq<string>)
    ensures Zip(panel, [], paths) == []
  {
  }

  // ---- review rounds ----

  /** A stage-one report of a recorded round. */
  ghost predicate StageOneReport(rounds: seq<Round>, number: nat, x: ForumRound.Report) {
    1 <= number <= |rounds| && CountsMatch(rounds[number - 1]) && RoundReports(rounds[number - 1]).Ok?
    && x in RoundReports(rounds[number - 1]).value.0
  }

  /** The brief goes to the reviewer, and names exactly the stage-one reports of
      the selected rounds that are by another model, at least one. */
  ghost predicate BlindBrief(rounds: seq<Round>, reviewed: seq<nat>, reviewer: Participant, brief: ForumRound.Brief) {
    brief.to == reviewer && brief.reports != []
    && forall x :: x in brief.reports <==>
         (exists number :: number in reviewed && StageOneReport(rounds, number, x)) && !SameReviewer(reviewer, x.participant)
  }

  /** The new last round is that of the run, reviewer by reviewer: launched on
      its task with a blind brief, closed, promoted, and recorded with the path
      that was promoted for it. */
  ghost predicate ReviewRecorded(before: seq<Round>, rounds: seq<Round>, reviewed: seq<nat>, focus: Option<string>, run: Recorded) {
    |rounds| == |before| + 1 && rounds[..|before|] == before
    && ReviewOfRun(before, rounds[|before|], |rounds|, reviewed, focus, run)
  }

  ghost predicate ReviewOfRun(before: seq<Round>, last: Round, number: nat, reviewed: seq<nat>, focus: Option<string>, run: Recorded) {
    var n, ps, log := |run.panel|, run.promotions, run.log;
    last.number == number && last.input == ReviewInput(reviewed, focus) && last.kind == Review && !last.fast
    && ReadAll(last.panel) == Ok(run.panel) && CountsMatch(last) && |last.review| == |ps| == n && |log| == 3 * n
    && ForumRound.AllNonEmpty(ps) && RoundReports(last) == Ok(([], ForumRound.Reports(run.panel, last.review, ps)))
    && (forall i :: 0 <= i < n ==> LaunchedBlind(before, reviewed, run.panel[i], last.review[i], log[i]))
    && log[n..] == ForumRound.Closing(last.review, ps)
  }

  ghost predicate LaunchedBlind(before: seq<Round>, reviewed: seq<nat>, reviewer: Participant, task: string, e: ForumRound.Event) {
    e.Launched? && e.task == task && BlindBrief(before, reviewed, reviewer, e.brief)
  }

  lemma {:induction false} ReviewReports(r: Round, panel: seq<Participant>, ps: seq<ForumRound.Promotion>)
    requires CountsMatch(r) && r.kind == Review && ReadAll(r.panel) == Ok(panel)
    requires |ps| == |r.paths| && forall i :: 0 <= i < |ps| ==> r.paths[i] == ps[i].path
    ensures |r.review| == |ps| == |panel| && RoundReports(r) == Ok(([], ForumRound.Reports(panel, r.review, ps)))
  {
    hide ReadAll, Zip, ForumRound.Reports;
    ZipIsReports(panel, r.review, r.paths, ps);
  }

  // ---- what the reviewers read ----

  function StageOne(rounds: seq<Round>, number: nat): seq<ForumRound.Report> {
    if 1 <= number <= |rounds| && CountsMatch(rounds[number - 1]) && RoundReports(rounds[number - 1]).Ok?
    then RoundReports(rounds[number - 1]).value.0 else []
  }

  /** The stage-one reports of the selected rounds, in order. */
  function Sources(rounds: seq<Round>, reviewed: seq<nat>): seq<ForumRound.Report> {
    if reviewed == [] then [] else StageOne(rounds, reviewed[0]) + Sources(rounds, reviewed[1..])
  }

  lemma {:induction false} StageOneIs(rounds: seq<Round>, number: nat, x: ForumRound.Report)
    ensures x in StageOne(rounds, number) <==> StageOneReport(rounds, number, x)
  {
    hide CountsMatch, RoundReports;
  }

  /** The reviewers' sources are exactly the stage-one reports of the selected
      rounds. */
  lemma {:induction false} SourcesExactly(rounds: seq<Round>, reviewed: seq<nat>, x: ForumRound.Report)
    ensures x in Sources(rounds, reviewed) <==> exists number :: number in reviewed && StageOneReport(rounds, number, x)
  {
    hide StageOneReport, StageOne;
    if reviewed != [] {
      SourcesExactly(rounds, reviewed[1..], x);
      StageOneIs(rounds, reviewed[0], x);
      assert forall number :: number in reviewed <==> number == reviewed[0] || number in reviewed[1..];
    }
  }

  /** They come round by round, in the order of the selection. */
  lemma {:induction false} SourcesInOrder(rounds: seq<Round>, front: seq<nat>, number: nat, back: seq<nat>)
    ensures Sources(rounds, front + ([number] + back)) == Sources(rounds, front) + (StageOne(rounds, number) + Sources(rounds, back))
  {
    if front == [] {
      assert front + ([number] + back) == [number] + back && ([number] + back)[1..] == back;
    } else {
      assert (front + ([number] + back))[1..] == front[1..] + ([number] + back);
      SourcesInOrder(rounds, front[1..], number, back);
    }
  }

  /** On a valid manifest every selected round hands over one report for each
      of its stage-one tasks. */
  lemma {:induction false} StageOneComplete(m: Manifest, number: nat)
    requires ValidManifest(m) && Reviewable(m.rounds, |m.rounds|, number)
    ensures Covering(StageOne(m.rounds, number), m.rounds[number - 1].firstStage)
    ensures CountsMatch(m.rounds[number - 1]) && RoundReports(m.rounds[number - 1]).Ok?
    ensures StageOne(m.rounds, number) == RoundReports(m.rounds[number - 1]).value.0
  {
    hide ValidManifest, CountsMatch, Covering, RoundReports;
    RoundReportsComplete(m, number - 1);
  }

  /** The scope of a reviewer over the sources is a blind brief. */
  lemma {:induction false} ScopeIsBlind(rounds: seq<Round>, reviewed: seq<nat>, reviewer: Participant)
    requires ForumRound.ReviewScope(Sources(rounds, reviewed), reviewer) != []
    ensures BlindBrief(rounds, reviewed, reviewer,
      ForumRound.Brief(reviewer, ForumRound.ReviewScope(Sources(rounds, reviewed), reviewer)))
  {
    var sources := Sources(rounds, reviewed);
    hide Sources, StageOneReport, SameReviewer, ForumRound.ReviewScope;
    forall x ensures x in ForumRound.ReviewScope(sources, reviewer) <==>
      (exists number :: number in reviewed && StageOneReport(rounds, number, x)) && !SameReviewer(reviewer, x.participant)
    {
      ForumRound.ScopeMembers(sources, reviewer, x);
      SourcesExactly(rounds, reviewed, x);
    }
  }
}
