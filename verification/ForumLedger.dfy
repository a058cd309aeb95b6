/** The commands that change forums: rounds are allocated, run, recorded and
    curated. One command runs at a time and may fail after any write. */
module ForumLedger {
  import opened Outcomes
  import opened ForumIds
  import opened ForumPanel
  import opened ForumManifest
  import opened ForumRecord
  import ForumRound
  import Text
  import Artifact = ForumArtifact

  // ---- recording a round ----

  function TaskCount(panel: seq<Participant>, fast: bool): nat { if fast then |panel| else 2 * |panel| }

  function PathsOf(ps: seq<ForumRound.Promotion>): (paths: seq<string>)
    ensures |paths| == |ps|
  {
    seq(|ps|, i requires 0 <= i < |ps| => ps[i].path)
  }

  /** The ids of the next round, above every recorded ordinal. */
  function NextIds(m: Manifest, n: nat): seq<string> { StageIds(m.forum, NextOrdinal(AllTasks(m.rounds)), n) }

  function AnswerRound(m: Manifest, input: Input, panel: seq<Participant>, fast: bool, ps: seq<ForumRound.Promotion>): Round
    requires |ps| == TaskCount(panel, fast)
  {
    var ids := NextIds(m, TaskCount(panel, fast));
    Round(|m.rounds| + 1, KindOf(input), fast, input, Specs(panel), ids[..|panel|], ids[|panel|..], [], PathsOf(ps))
  }

  function ReviewRound(m: Manifest, reviewed: seq<nat>, focus: Option<string>, reviewers: seq<Participant>,
                       ps: seq<ForumRound.Promotion>): Round
  {
    Round(|m.rounds| + 1, Review, false, ReviewInput(reviewed, focus), Specs(reviewers), [], [],
          NextIds(m, |reviewers|), PathsOf(ps))
  }

  function Push(m: Manifest, r: Round): Manifest { m.(rounds := m.rounds + [r]) }

  /** There is room for the next `n` ids: none of them wraps around to the
      ordinal of a recorded task, or to another of them. */
  predicate Room(m: Manifest, n: nat) { n <= USIZE && NoneWrapsToTaken(m.forum, AllTasks(m.rounds), n) }

  lemma {:induction false} EarlierRoundsStayValid(m: Manifest, r: Round, i: nat)
    requires i < |m.rounds| && RoundValid(m.forum, m.rounds, i)
    ensures RoundValid(m.forum, m.rounds + [r], i)
  {
    hide CountsMatch, PanelValid, TaskBelongs, FocusValid, KindOf;
    var input := m.rounds[i].input;
    assert (m.rounds + [r])[i] == m.rounds[i];
    if input.ReviewInput? {
      forall k | 0 <= k < |input.reviewed| ensures Reviewable(m.rounds + [r], i, input.reviewed[k]) {
        assert Reviewable(m.rounds, i, input.reviewed[k]);
      }
    }
  }

  /** Pushing a valid round keeps the manifest valid if and only if its tasks
      are new and all different. */
  lemma {:induction false} PushKeepsValid(m: Manifest, r: Round)
    requires ValidManifest(m) && RoundValid(m.forum, m.rounds + [r], |m.rounds|)
    ensures ValidManifest(Push(m, r)) <==> NewTasks(m, ReportTasks(r))
  {
    hide RoundValid, HeadValid, ReportTasks, AllTasks, Distinct;
    var rounds := m.rounds + [r];
    forall i | 0 <= i < |rounds| ensures RoundValid(m.forum, rounds, i) {
      if i < |m.rounds| { EarlierRoundsStayValid(m, r, i); }
    }
    AllTasksGrows(m.rounds, r);
    DistinctJoin(AllTasks(m.rounds), ReportTasks(r));
    SameHead(m, r);
  }

  predicate NewTasks(m: Manifest, tasks: seq<string>) { Distinct(tasks) && forall t :: t in tasks ==> t !in AllTasks(m.rounds) }

  lemma {:induction false} DistinctJoin(a: seq<string>, b: seq<string>)
    requires Distinct(a)
    ensures Distinct(a + b) <==> Distinct(b) && forall t :: t in b ==> t !in a
  {
    var all := a + b;
    if Distinct(all) {
      forall i, j | 0 <= i < j < |b| ensures b[i] != b[j] { assert all[|a| + i] != all[|a| + j]; }
      forall i, j | 0 <= i < |a| && 0 <= j < |b| ensures a[i] != b[j] { assert all[i] != all[|a| + j]; }
    }
    if Distinct(b) && forall t :: t in b ==> t !in a {
      forall i, j | 0 <= i < j < |all| ensures all[i] != all[j] {
        if i < |a| <= j { assert all[j] == b[j - |a|] && b[j - |a|] in b && all[i] in a; }
      }
    }
  }

  lemma {:induction false} SameHead(m: Manifest, r: Round)
    requires HeadValid(m)
    ensures HeadValid(Push(m, r))
  {
  }

  lemma {:induction false} NextIdsFresh(m: Manifest, n: nat)
    requires ForumId(m.forum)
    ensures |NextIds(m, n)| == n && (NewTasks(m, NextIds(m, n)) <==> Room(m, n))
    ensures forall i :: 0 <= i < n ==> TaskBelongs(m.forum, NextIds(m, n)[i])
  {
    StageIdsFresh(m.forum, AllTasks(m.rounds), n);
    var ids, first := NextIds(m, n), NextOrdinal(AllTasks(m.rounds));
    hide TaskPathId, ForumId, NextOrdinal, NoneWrapsToTaken, Distinct, AllTasks, Wrap;
    forall i | 0 <= i < n ensures TaskBelongs(m.forum, ids[i]) { ReportIdIsPath(m.forum, Wrap(first + i)); }
  }

  /** What the intake of an answer round has checked. */
  predicate AnswerInput(input: Input) {
    match input
    case AskInput(question) => Artifact.ValidateQuestion(question).None?
    case CritiqueInput(target, focus, _) => Artifact.ValidateTarget(target).None? && FocusValid(focus)
    case ReviewInput(_, _) => false
  }

  /** A panel given on the command line. */
  predicate GivenPanel(raws: seq<string>, panel: seq<Participant>) { ParseAll(raws) == Ok(panel) }

  lemma {:induction false} GivenPanelValid(raws: seq<string>, panel: seq<Participant>)
    requires GivenPanel(raws, panel) && DifferentModels(panel)
    ensures PanelValid(Specs(panel))
  {
    hide ParseAll, ReadAll, DifferentModels, Specs;
    PanelRoundTrip(raws);
  }

  lemma {:induction false} PromotedPaths(ps: seq<ForumRound.Promotion>)
    requires ForumRound.AllNonEmpty(ps)
    ensures forall i :: 0 <= i < |ps| ==> PathsOf(ps)[i] != ""
  {
    hide Text.Blank;
    forall i | 0 <= i < |ps| ensures PathsOf(ps)[i] != "" { assert ForumRound.NonEmpty(ps[i]); }
  }

  /** The parts of a round's validity. */
  lemma {:induction false} RoundIsValid(forum: string, rounds: seq<Round>, index: nat, tasks: seq<string>)
    requires index < |rounds| && rounds[index].number == index + 1 && rounds[index].kind == KindOf(rounds[index].input)
    requires CountsMatch(rounds[index]) && PanelValid(rounds[index].panel) && InputValid(rounds, index, rounds[index].input)
    requires ReportTasks(rounds[index]) == tasks && forall i :: 0 <= i < |tasks| ==> TaskBelongs(forum, tasks[i])
    requires forall i :: 0 <= i < |rounds[index].paths| ==> rounds[index].paths[i] != ""
    ensures RoundValid(forum, rounds, index)
  {
    hide CountsMatch, PanelValid, InputValid, TaskBelongs;
  }

  lemma {:induction false} AnswerCounts(m: Manifest, input: Input, panel: seq<Participant>, fast: bool, ps: seq<ForumRound.Promotion>)
    requires AnswerInput(input) && |panel| >= (if fast then 1 else 2) && |ps| == TaskCount(panel, fast)
    ensures CountsMatch(AnswerRound(m, input, panel, fast, ps))
    ensures ReportTasks(AnswerRound(m, input, panel, fast, ps)) == NextIds(m, TaskCount(panel, fast))
  {
    hide FocusValid, Specs, PathsOf, NextIds;
    NextIdsCount(m, TaskCount(panel, fast));
  }

  lemma {:induction false} NextIdsCount(m: Manifest, n: nat)
    ensures |NextIds(m, n)| == n
  {
  }

  lemma {:induction false} AnswerInputValid(m: Manifest, r: Round)
    requires AnswerInput(r.input)
    ensures InputValid(m.rounds + [r], |m.rounds|, r.input)
  {
    hide FocusValid;
  }

  /** Recording an answer round produces a manifest its own validator accepts if
      and only if there is room for the ids. */
  lemma {:induction false} AnswerKeepsValid(m: Manifest, input: Input, raws: seq<string>, panel: seq<Participant>, fast: bool,
                                            ps: seq<ForumRound.Promotion>)
    requires ValidManifest(m) && AnswerInput(input) && GivenPanel(raws, panel) && DifferentModels(panel)
    requires |panel| >= (if fast then 1 else 2)
    requires |ps| == TaskCount(panel, fast) && ForumRound.AllNonEmpty(ps)
    ensures ValidManifest(Push(m, AnswerRound(m, input, panel, fast, ps))) <==> Room(m, TaskCount(panel, fast))
  {
    var n, r := TaskCount(panel, fast), AnswerRound(m, input, panel, fast, ps);
    HeadHasForum(m);
    assert r.input == input && r.kind == KindOf(input) && r.number == |m.rounds| + 1
      && r.panel == Specs(panel) && r.paths == PathsOf(ps);
    hide *;
    AnswerCounts(m, input, panel, fast, ps);
    GivenPanelValid(raws, panel);
    NextIdsFresh(m, n);
    PromotedPaths(ps);
    AnswerInputValid(m, r);
    RoundIsValid(m.forum, m.rounds + [r], |m.rounds|, NextIds(m, n));
    PushKeepsValid(m, r);
  }

  lemma {:induction false} HeadHasForum(m: Manifest)
    requires ValidManifest(m)
    ensures ForumId(m.forum)
  {
  }

  /** Different earlier answer rounds. */
  predicate Selection(rounds: seq<Round>, reviewed: seq<nat>) {
    Distinct(reviewed) && forall i :: 0 <= i < |reviewed| ==> Reviewable(rounds, |rounds|, reviewed[i])
  }

  lemma {:induction false} ReviewInputValid(m: Manifest, r: Round)
    requires r.input.ReviewInput? && r.input.reviewed != [] && Selection(m.rounds, r.input.reviewed) && FocusValid(r.input.focus)
    ensures InputValid(m.rounds + [r], |m.rounds|, r.input)
  {
    hide FocusValid;
    var reviewed := r.input.reviewed;
    forall i | 0 <= i < |reviewed| ensures Reviewable(m.rounds + [r], |m.rounds|, reviewed[i]) {
      assert Reviewable(m.rounds, |m.rounds|, reviewed[i]);
    }
  }

  lemma {:induction false} ReviewCounts(m: Manifest, r: Round, reviewers: seq<Participant>, ids: seq<string>)
    requires r.kind == Review && !r.fast && |r.panel| == |reviewers| >= 1 && |r.paths| == |reviewers| == |ids|
    requires r.firstStage == [] && r.crossReview == [] && r.review == ids
    ensures CountsMatch(r) && ReportTasks(r) == ids
  {
  }

  lemma {:induction false} ReviewKeepsValid(m: Manifest, reviewed: seq<nat>, focus: Option<string>, raws: seq<string>,
                                            reviewers: seq<Participant>, ps: seq<ForumRound.Promotion>)
    requires ValidManifest(m) && GivenPanel(raws, reviewers) && DifferentModels(reviewers) && |reviewers| >= 1
    requires reviewed != [] && Selection(m.rounds, reviewed) && FocusValid(focus)
    requires |ps| == |reviewers| && ForumRound.AllNonEmpty(ps)
    ensures ValidManifest(Push(m, ReviewRound(m, reviewed, focus, reviewers, ps))) <==> Room(m, |reviewers|)
  {
    var n, r := |reviewers|, ReviewRound(m, reviewed, focus, reviewers, ps);
    HeadHasForum(m);
    var ids := NextIds(m, n);
    assert r.input == ReviewInput(reviewed, focus) && r.kind == Review == KindOf(r.input) && r.number == |m.rounds| + 1
      && r.panel == Specs(reviewers) && r.paths == PathsOf(ps) && !r.fast
      && r.firstStage == [] && r.crossReview == [] && r.review == ids;
    hide *;
    NextIdsFresh(m, n);
    ReviewCounts(m, r, reviewers, ids);
    GivenPanelValid(raws, reviewers);
    PromotedPaths(ps);
    ReviewInputValid(m, r);
    RoundIsValid(m.forum, m.rounds + [r], |m.rounds|, ids);
    PushKeepsValid(m, r);
  }

  // ---- the recorded rounds, read back ----

  /** The round that is recorded is that of the run. */
  lemma {:induction false} AnswerIsRecorded(m: Manifest, input: Input, raws: seq<string>, fast: bool, run: Recorded)
    requires AnswerInput(input) && GivenPanel(raws, run.panel) && |run.panel| >= (if fast then 1 else 2)
    requires |run.promotions| == TaskCount(run.panel, fast) && ForumRound.AllNonEmpty(run.promotions)
    requires |NextIds(m, TaskCount(run.panel, fast))| == TaskCount(run.panel, fast)
    requires run.log == ForumRound.Script(run.panel, fast, NextIds(m, TaskCount(run.panel, fast)), run.promotions)
    ensures AnswerRecorded(m.rounds, Push(m, AnswerRound(m, input, run.panel, fast, run.promotions)).rounds, input, fast, run)
  {
    hide *;
    var r := AnswerRound(m, input, run.panel, fast, run.promotions);
    AnswerFields(m, input, run.panel, fast, run.promotions);
    AnswerCounts(m, input, run.panel, fast, run.promotions);
    TaskCounts(run.panel, fast);
    ReadBack(raws, run.panel);
    PathsAre(run.promotions);
    AnswerReports(r, run.panel, run.promotions);
    IsRoundOfRun(r, |m.rounds| + 1, input, fast, run);
    PushRecords(m, r, input, fast, run);
  }

  lemma {:induction false} TaskCounts(panel: seq<Participant>, fast: bool)
    ensures TaskCount(panel, fast) == if fast then |panel| else 2 * |panel|
  {
  }

  lemma {:induction false} PathsAre(ps: seq<ForumRound.Promotion>)
    ensures forall i :: 0 <= i < |ps| ==> PathsOf(ps)[i] == ps[i].path
  {
  }

  lemma {:induction false} AnswerFields(m: Manifest, input: Input, panel: seq<Participant>, fast: bool, ps: seq<ForumRound.Promotion>)
    requires AnswerInput(input) && |ps| == TaskCount(panel, fast)
    ensures var r := AnswerRound(m, input, panel, fast, ps);
      r.number == |m.rounds| + 1 && r.input == input && r.fast == fast && r.kind == (if input.AskInput? then Ask else Critique)
      && r.panel == Specs(panel) && r.paths == PathsOf(ps)
  {
    hide NextIds, PathsOf, Specs, FocusValid;
  }

  lemma {:induction false} IsRoundOfRun(r: Round, number: nat, input: Input, fast: bool, run: Recorded)
    requires r.number == number && r.input == input && r.fast == fast && r.kind == if input.AskInput? then Ask else Critique
    requires ReadAll(r.panel) == Ok(run.panel) && ForumRound.AllNonEmpty(run.promotions) && CountsMatch(r)
    requires |run.promotions| == |ReportTasks(r)| == if fast then |run.panel| else 2 * |run.panel|
    requires run.log == ForumRound.Script(run.panel, fast, ReportTasks(r), run.promotions)
    requires RoundReports(r).Ok? && |RoundReports(r).value.0| == |run.panel|
    requires RoundReports(r).value.0 + RoundReports(r).value.1 == ForumRound.AllReports(run.panel, fast, ReportTasks(r), run.promotions)
    ensures RoundOfRun(r, number, input, fast, run)
  {
    hide ForumRound.Script, ForumRound.AllNonEmpty, ForumRound.AllReports, ReadAll, CountsMatch, RoundReports, ReportTasks;
  }

  lemma {:induction false} PushRecords(m: Manifest, r: Round, input: Input, fast: bool, run: Recorded)
    requires RoundOfRun(r, |m.rounds| + 1, input, fast, run)
    ensures AnswerRecorded(m.rounds, Push(m, r).rounds, input, fast, run)
  {
    hide RoundOfRun;
  }

  lemma {:induction false} ReadBack(raws: seq<string>, panel: seq<Participant>)
    requires GivenPanel(raws, panel)
    ensures ReadAll(Specs(panel)) == Ok(panel)
  {
    hide ParseAll, ReadAll, Specs;
    PanelRoundTrip(raws);
  }

  /** What the stage of a review has done when it succeeds. */
  ghost predicate StageOfReview(rounds: seq<Round>, reviewed: seq<nat>, tasks: seq<string>, run: Recorded) {
    var n := |run.panel|;
    |tasks| == |run.promotions| == n && |run.log| == 3 * n && run.log[n..] == ForumRound.Closing(tasks, run.promotions)
    && forall i :: 0 <= i < n ==> LaunchedBlind(rounds, reviewed, run.panel[i], tasks[i], run.log[i])
  }

  lemma {:induction false} StageIsBlind(rounds: seq<Round>, reviewed: seq<nat>, tasks: seq<string>, run: Recorded)
    requires |tasks| == |run.promotions| == |run.panel|
    requires run.log == ForumRound.Launching(tasks, ForumRound.Scopes(Sources(rounds, reviewed), run.panel))
                      + ForumRound.Closing(tasks, run.promotions)
    requires forall i :: 0 <= i < |run.panel| ==> ForumRound.ReviewScope(Sources(rounds, reviewed), run.panel[i]) != []
    ensures StageOfReview(rounds, reviewed, tasks, run)
  {
    hide Sources, ForumRound.ReviewScope, ForumRound.Closing, BlindBrief;
    forall i | 0 <= i < |run.panel| ensures LaunchedBlind(rounds, reviewed, run.panel[i], tasks[i], run.log[i]) {
      ScopeIsBlind(rounds, reviewed, run.panel[i]);
    }
  }

  lemma {:induction false} ReviewIsRecorded(m: Manifest, reviewed: seq<nat>, focus: Option<string>, raws: seq<string>, run: Recorded)
    requires GivenPanel(raws, run.panel) && |run.panel| >= 1 && ForumRound.AllNonEmpty(run.promotions)
    requires StageOfReview(m.rounds, reviewed, NextIds(m, |run.panel|), run)
    ensures ReviewRecorded(m.rounds, Reviewed(m, reviewed, focus, run.panel, run.promotions).rounds, reviewed, focus, run)
  {
    var r, ids := ReviewRound(m, reviewed, focus, run.panel, run.promotions), NextIds(m, |run.panel|);
    assert r.input == ReviewInput(reviewed, focus) && r.kind == Review && r.number == |m.rounds| + 1
      && r.panel == Specs(run.panel) && r.paths == PathsOf(run.promotions) && !r.fast
      && r.firstStage == [] && r.crossReview == [] && r.review == ids;
    hide *;
    StageCounts(m.rounds, reviewed, ids, run);
    ReadBack(raws, run.panel);
    PathsAre(run.promotions);
    ReviewCounts(m, r, run.panel, ids);
    ReviewReports(r, run.panel, run.promotions);
    IsReviewOfRun(m.rounds, r, |m.rounds| + 1, reviewed, focus, run);
    PushRecordsReview(m, r, reviewed, focus, run);
    ReviewedIs(m, reviewed, focus, run.panel, run.promotions);
  }

  lemma {:induction false} StageCounts(rounds: seq<Round>, reviewed: seq<nat>, tasks: seq<string>, run: Recorded)
    requires StageOfReview(rounds, reviewed, tasks, run)
    ensures |tasks| == |run.promotions| == |run.panel|
  {
  }

  lemma {:induction false} ReviewedIs(m: Manifest, reviewed: seq<nat>, focus: Option<string>, panel: seq<Participant>,
                                      ps: seq<ForumRound.Promotion>)
    ensures Reviewed(m, reviewed, focus, panel, ps) == Push(m, ReviewRound(m, reviewed, focus, panel, ps))
  {
  }

  lemma {:induction false} IsReviewOfRun(before: seq<Round>, r: Round, number: nat, reviewed: seq<nat>, focus: Option<string>, run: Recorded)
    requires r.number == number && r.input == ReviewInput(reviewed, focus) && r.kind == Review && !r.fast
    requires ReadAll(r.panel) == Ok(run.panel) && ForumRound.AllNonEmpty(run.promotions) && CountsMatch(r)
    requires StageOfReview(before, reviewed, r.review, run)
    requires |r.review| == |run.promotions| == |run.panel|
    requires RoundReports(r) == Ok(([], ForumRound.Reports(run.panel, r.review, run.promotions)))
    ensures ReviewOfRun(before, r, number, reviewed, focus, run)
  {
    hide ForumRound.AllNonEmpty, ForumRound.Reports, ReadAll, CountsMatch, RoundReports, LaunchedBlind, ForumRound.Closing;
  }

  lemma {:induction false} PushRecordsReview(m: Manifest, r: Round, reviewed: seq<nat>, focus: Option<string>, run: Recorded)
    requires ReviewOfRun(m.rounds, r, |m.rounds| + 1, reviewed, focus, run)
    ensures ReviewRecorded(m.rounds, Push(m, r).rounds, reviewed, focus, run)
  {
    hide ReviewOfRun;
  }

  // ---- when the ordinals have wrapped around ----

  /** A round of one fast answer, with a given task. */
  function OneTask(number: nat, question: string, panel: seq<Participant>, task: string, path: string): Round {
    Round(number, Ask, true, AskInput(question), Specs(panel), [task], [], [], [path])
  }

  /** A forum whose two rounds hold the highest ordinal and zero. */
  function Wrapped(head: Manifest, question: string, panel: seq<Participant>, path: string): Manifest {
    head.(rounds := [OneTask(1, question, panel, ReportId(head.forum, USIZE - 1), path),
                     OneTask(2, question, panel, ReportId(head.forum, 0), path)])
  }

  lemma {:induction false} OneTaskValid(head: Manifest, question: string, raws: seq<string>, panel: seq<Participant>, path: string,
                                        rounds: seq<Round>, index: nat, ordinal: nat)
    requires HeadValid(head) && AnswerInput(AskInput(question)) && GivenPanel(raws, panel) && |panel| == 1 && path != ""
    requires index < |rounds| && rounds[index] == OneTask(index + 1, question, panel, ReportId(head.forum, ordinal), path)
    ensures RoundValid(head.forum, rounds, index) && ReportTasks(rounds[index]) == [ReportId(head.forum, ordinal)]
  {
    hide *;
    HeadIsForum(head);
    ReportIdIsPath(head.forum, ordinal);
    OneModel(panel);
    GivenPanelValid(raws, panel);
    OneTaskParts(rounds, index, question, panel, ReportId(head.forum, ordinal), path);
    BelongsWhen(head.forum, ReportId(head.forum, ordinal));
    RoundIsValid(head.forum, rounds, index, [ReportId(head.forum, ordinal)]);
  }

  lemma {:induction false} HeadIsForum(head: Manifest)
    requires HeadValid(head)
    ensures ForumId(head.forum)
  {
  }

  lemma {:induction false} OneModel(panel: seq<Participant>)
    requires |panel| == 1
    ensures DifferentModels(panel)
  {
  }

  lemma {:induction false} BelongsWhen(forum: string, task: string)
    requires TaskPathId(task) && forum + "." <= task
    ensures TaskBelongs(forum, task)
  {
  }

  lemma {:induction false} OneTaskParts(rounds: seq<Round>, index: nat, question: string, panel: seq<Participant>, task: string,
                                        path: string)
    requires index < |rounds| && rounds[index] == OneTask(index + 1, question, panel, task, path) && |panel| == 1
    requires AnswerInput(AskInput(question))
    ensures rounds[index].number == index + 1 && rounds[index].kind == KindOf(rounds[index].input) && CountsMatch(rounds[index])
    ensures rounds[index].panel == Specs(panel) && rounds[index].paths == [path] && ReportTasks(rounds[index]) == [task]
    ensures InputValid(rounds, index, rounds[index].input)
  {
    hide FocusValid;
  }

  /** The failing case, in a valid manifest: the highest ordinal is taken, so the
      next id wraps around to zero, which is taken too, and recording any round
      is rejected. */
  lemma {:induction false} OverflowCollides(head: Manifest, question: string, raws: seq<string>, panel: seq<Participant>, path: string)
    requires HeadValid(head) && AnswerInput(AskInput(question)) && GivenPanel(raws, panel) && |panel| == 1 && path != ""
    ensures var m := Wrapped(head, question, panel, path);
      ValidManifest(m) && NextId(m) == ReportId(m.forum, 0) && NextId(m) in AllTasks(m.rounds) && forall n: nat :: n > 0 ==> !Room(m, n)
  {
    hide *;
    ManyOrdinals();
    var m := Wrapped(head, question, panel, path);
    var high, zero := ReportId(head.forum, USIZE - 1), ReportId(head.forum, 0);
    WrappedIs(head, question, panel, path);
    OneTaskValid(head, question, raws, panel, path, m.rounds, 0, USIZE - 1);
    OneTaskValid(head, question, raws, panel, path, m.rounds, 1, 0);
    TwoRounds(m.rounds, high, zero);
    OrdinalOfReportId(head.forum, USIZE - 1);
    OrdinalOfReportId(head.forum, 0);
    HighestIs([high, zero]);
    SameHeadWith(head, m);
    TwoTasksValid(m, high, zero);
    ZeroIsNext(m, high, zero);
  }

  lemma {:induction false} ManyOrdinals()
    ensures USIZE > 1
  {
  }

  lemma {:induction false} WrappedIs(head: Manifest, question: string, panel: seq<Participant>, path: string)
    ensures var m := Wrapped(head, question, panel, path);
      m == head.(rounds := m.rounds) && |m.rounds| == 2
      && m.rounds[0] == OneTask(1, question, panel, ReportId(head.forum, USIZE - 1), path)
      && m.rounds[1] == OneTask(2, question, panel, ReportId(head.forum, 0), path)
  {
    hide ReportId, OneTask;
  }

  lemma {:induction false} TwoTasksValid(m: Manifest, a: string, b: string)
    requires HeadValid(m) && |m.rounds| == 2 && RoundValid(m.forum, m.rounds, 0) && RoundValid(m.forum, m.rounds, 1)
    requires AllTasks(m.rounds) == [a, b] && OrdinalOf(a) != OrdinalOf(b)
    ensures ValidManifest(m)
  {
    hide HeadValid, RoundValid, AllTasks, OrdinalOf;
  }

  lemma {:induction false} ZeroIsNext(m: Manifest, a: string, b: string)
    requires AllTasks(m.rounds) == [a, b] && b == ReportId(m.forum, 0) && MaxOrdinal([a, b]) == USIZE - 1 && NextOrdinal([a, b]) == 0
    ensures NextId(m) == ReportId(m.forum, 0) && NextId(m) in AllTasks(m.rounds) && forall n: nat :: n > 0 ==> !Room(m, n)
  {
    hide AllTasks, ReportId, MaxOrdinal, NextOrdinal;
    assert [a, b][1] in [a, b];
  }

  lemma {:induction false} TwoRounds(rounds: seq<Round>, a: string, b: string)
    requires |rounds| == 2 && ReportTasks(rounds[0]) == [a] && ReportTasks(rounds[1]) == [b]
    ensures AllTasks(rounds) == [a, b]
  {
    hide ReportTasks;
    AllTasksGrows([], rounds[0]);
    AllTasksGrows([rounds[0]], rounds[1]);
    assert [] + [rounds[0]] == [rounds[0]] && [rounds[0]] + [rounds[1]] == rounds;
  }

  lemma {:induction false} HighestIs(tasks: seq<string>)
    requires |tasks| == 2 && OrdinalOf(tasks[0]) == Some(USIZE - 1) && OrdinalOf(tasks[1]) == Some(0)
    ensures MaxOrdinal(tasks) == USIZE - 1 && NextOrdinal(tasks) == 0
  {
    hide OrdinalOf;
    assert tasks[0] in tasks;
  }

  lemma {:induction false} SameHeadWith(head: Manifest, m: Manifest)
    requires HeadValid(head) && m == head.(rounds := m.rounds)
    ensures HeadValid(m)
  {
  }

  // ---- selecting rounds to review ----

  datatype SelectError = NoRounds | NoSuchRound | IsReview

  function AnswerRounds(rounds: seq<Round>, from: nat): seq<nat>
    requires from <= |rounds|
    decreases |rounds| - from
  {
    if from == |rounds| then []
    else (if rounds[from].kind != Review then [rounds[from].number] else []) + AnswerRounds(rounds, from + 1)
  }

  function SelectReviewRounds(m: Manifest, requested: Option<nat>): Result<seq<nat>, SelectError> {
    if m.rounds == [] then Err(NoRounds)
    else if requested.Some? then
      var r := requested.value;
      if r == 0 || r > |m.rounds| || m.rounds[r - 1].number != r then Err(NoSuchRound)
      else if m.rounds[r - 1].kind == Review then Err(IsReview)
      else Ok([r])
    else Ok(AnswerRounds(m.rounds, 0))
  }

  predicate Numbered(rounds: seq<Round>) { forall i :: 0 <= i < |rounds| ==> rounds[i].number == i + 1 }

  predicate AllAbove(rs: seq<nat>, n: nat) { forall i :: 0 <= i < |rs| ==> rs[i] > n }

  lemma {:induction false} AnswerRoundsShape(rounds: seq<Round>, from: nat)
    requires from <= |rounds| && Numbered(rounds)
    ensures Selection(rounds, AnswerRounds(rounds, from)) && AllAbove(AnswerRounds(rounds, from), from)
    decreases |rounds| - from
  {
    hide Selection, AllAbove;
    if from < |rounds| {
      AnswerRoundsShape(rounds, from + 1);
      SelectionGrows(rounds, from, AnswerRounds(rounds, from + 1));
    } else {
      NothingSelected(rounds, from);
    }
  }

  lemma {:induction false} NothingSelected(rounds: seq<Round>, from: nat)
    ensures Selection(rounds, []) && AllAbove([], from)
  {
  }

  lemma {:induction false} SelectionGrows(rounds: seq<Round>, from: nat, rest: seq<nat>)
    requires from < |rounds| && Numbered(rounds) && Selection(rounds, rest) && AllAbove(rest, from + 1)
    ensures var rs := (if rounds[from].kind != Review then [rounds[from].number] else []) + rest;
      Selection(rounds, rs) && AllAbove(rs, from)
  {
    if rounds[from].kind == Review { assert [] + rest == rest; }
  }

  lemma {:induction false} AnswerRoundsComplete(rounds: seq<Round>, from: nat, k: nat)
    requires from <= k < |rounds| && Numbered(rounds) && rounds[k].kind != Review
    ensures k + 1 in AnswerRounds(rounds, from)
    decreases k - from
  {
    if k > from { AnswerRoundsComplete(rounds, from + 1, k); }
  }

  /** On a valid manifest the selection names at least one earlier answer
      round, each once, and without a request every answer round there is. */
  lemma {:induction false} SelectionIsReviewable(m: Manifest, requested: Option<nat>)
    requires ValidManifest(m) && SelectReviewRounds(m, requested).Ok?
    ensures SelectReviewRounds(m, requested).value != [] && Selection(m.rounds, SelectReviewRounds(m, requested).value)
    ensures requested.None? ==> forall k :: 0 <= k < |m.rounds| && m.rounds[k].kind != Review ==>
      k + 1 in SelectReviewRounds(m, requested).value
  {
    FirstRoundIsNoReview(m);
    Contiguous(m);
    hide ValidManifest, AnswerRounds, Numbered;
    if requested.None? {
      AnswerRoundsShape(m.rounds, 0);
      hide Selection, AllAbove;
      forall k | 0 <= k < |m.rounds| && m.rounds[k].kind != Review ensures k + 1 in AnswerRounds(m.rounds, 0) {
        AnswerRoundsComplete(m.rounds, 0, k);
      }
      assert 0 + 1 in AnswerRounds(m.rounds, 0);
    } else {
      OneSelected(m.rounds, requested.value);
    }
  }

  lemma {:induction false} AnswerRoundsRise(rounds: seq<Round>, from: nat)
    requires from <= |rounds| && Numbered(rounds)
    ensures Rising(AnswerRounds(rounds, from))
    decreases |rounds| - from
  {
    if from < |rounds| {
      AnswerRoundsRise(rounds, from + 1);
      AnswerRoundsShape(rounds, from + 1);
    }
  }

  /** A requested round is selected, alone, exactly when it is an answer round
      of the forum. */
  lemma {:induction false} RequestedExactly(m: Manifest, n: nat)
    requires ValidManifest(m)
    ensures SelectReviewRounds(m, Some(n)).Ok? <==> 1 <= n <= |m.rounds| && m.rounds[n - 1].kind != Review
    ensures SelectReviewRounds(m, Some(n)).Ok? ==> SelectReviewRounds(m, Some(n)).value == [n]
  {
    Contiguous(m);
    hide ValidManifest, AnswerRounds;
    if 1 <= n <= |m.rounds| { assert m.rounds[n - 1].number == n; }
  }

  predicate Rising(rs: seq<nat>) { forall i, j :: 0 <= i < j < |rs| ==> rs[i] < rs[j] }

  /** Without a request the answer rounds are selected, in their order, unless
      there is no round at all. */
  lemma {:induction false} DefaultExactly(m: Manifest)
    requires ValidManifest(m)
    ensures SelectReviewRounds(m, None).Ok? <==> m.rounds != []
    ensures m.rounds != [] ==> Rising(SelectReviewRounds(m, None).value)
    ensures m.rounds != [] ==> forall n: nat ::
      n in SelectReviewRounds(m, None).value <==> 1 <= n <= |m.rounds| && m.rounds[n - 1].kind != Review
  {
    hide *;
    DefaultIs(m);
    Contiguous(m);
    AnswerRoundsRise(m.rounds, 0);
    forall n: nat ensures n in AnswerRounds(m.rounds, 0) <==> 1 <= n <= |m.rounds| && m.rounds[n - 1].kind != Review {
      AnswerRoundsHold(m.rounds, n);
    }
  }

  lemma {:induction false} DefaultIs(m: Manifest)
    ensures SelectReviewRounds(m, None) == if m.rounds == [] then Err(NoRounds) else Ok(AnswerRounds(m.rounds, 0))
  {
    hide AnswerRounds;
  }

  lemma {:induction false} AnswerRoundsHold(rounds: seq<Round>, n: nat)
    requires Numbered(rounds)
    ensures n in AnswerRounds(rounds, 0) <==> 1 <= n <= |rounds| && rounds[n - 1].kind != Review
  {
    AnswerRoundsShape(rounds, 0);
    hide AnswerRounds, AllAbove;
    var rs := AnswerRounds(rounds, 0);
    if n in rs {
      var i :| 0 <= i < |rs| && rs[i] == n;
      assert Reviewable(rounds, |rounds|, rs[i]);
    }
    if 1 <= n <= |rounds| && rounds[n - 1].kind != Review { AnswerRoundsComplete(rounds, 0, n - 1); }
  }

  lemma {:induction false} OneSelected(rounds: seq<Round>, r: nat)
    requires 1 <= r <= |rounds| && rounds[r - 1].number == r && rounds[r - 1].kind != Review
    ensures Selection(rounds, [r])
  {
  }

  lemma {:induction false} Contiguous(m: Manifest)
    requires ValidManifest(m)
    ensures Numbered(m.rounds)
  {
    forall i | 0 <= i < |m.rounds| ensures m.rounds[i].number == i + 1 { assert RoundValid(m.forum, m.rounds, i); }
  }

  // ---- joining ----

  datatype JoinError =
    | NoForumId | CuratorGiven | UnknownForum | OtherProject | WasDispatched | AlreadyCurated | CurationReserved | ParentClosed

  function OpenStates(): set<string> { {"backlog", "todo", "in_progress", "in_review"} }

  /** May this invocation add to the forum? */
  function ValidateJoin(forum: string, project: string, explicitCurator: bool, m: Option<Manifest>, parentState: string): Option<JoinError> {
    if !ForumId(forum) then Some(NoForumId)
    else if explicitCurator then Some(CuratorGiven)
    else if m.None? then Some(UnknownForum)
    else if m.value.forum != forum || m.value.project != project then Some(OtherProject)
    else if m.value.mode == Dispatched then Some(WasDispatched)
    else if m.value.state == Curated then Some(AlreadyCurated)
    else if m.value.curationTask.Some? then Some(CurationReserved)
    else if parentState !in OpenStates() then Some(ParentClosed)
    else None
  }

  /** What a forum must be to take another round or a curation. */
  predicate MayJoin(forum: string, project: string, m: Manifest, parentState: string) {
    ForumId(forum) && m.forum == forum && m.project == project && m.mode == SelfCurated && m.state == Open && m.curationTask.None?
    && (parentState == "backlog" || parentState == "todo" || parentState == "in_progress" || parentState == "in_review")
  }

  /** What is said again about a forum must be what it has. */
  predicate SameTarget(args: RunArgs, m: Manifest) {
    (args.sourceRef.Some? ==> args.sourceRef.value == m.sourceRef) && (args.artifactId.Some? ==> args.artifactId == m.artifactId)
  }

  lemma {:induction false} JoinExactly(forum: string, project: string, explicitCurator: bool, m: Option<Manifest>, parentState: string)
    ensures ValidateJoin(forum, project, explicitCurator, m, parentState).None?
      <==> !explicitCurator && m.Some? && MayJoin(forum, project, m.value, parentState)
  {
    hide ForumId;
  }

  // ---- what holds of every recorded forum, and how it may change ----

  /** The curation id is the next one after the recorded tasks. */
  predicate CurationIsNext(m: Manifest) { m.curationTask.Some? ==> m.curationTask.value == NextId(m) }

  function NextId(m: Manifest): string { ReportId(m.forum, NextOrdinal(AllTasks(m.rounds))) }

  predicate Kept(m: Manifest) {
    ValidManifest(m) && (m.mode == Dispatched ==> |m.rounds| <= 1)
    && (m.state == Curated ==> m.curationTask.Some?)
    && (m.curationTask.Some? ==> m.rounds != []) && CurationIsNext(m)
  }

  predicate SameForum(m: Manifest, m': Manifest) {
    m'.version == m.version && m'.forum == m.forum && m'.project == m.project && m'.sourceRef == m.sourceRef
    && m'.startedAt == m.startedAt && m'.artifactId == m.artifactId && m'.mode == m.mode
  }

  /** From one command to a later one: identity and history stay, and a forum
      that was dispatched or has its curation reserved does not change at all. */
  predicate Evolves(m: Manifest, m': Manifest) {
    SameForum(m, m') && m.rounds <= m'.rounds
    && (m.mode == Dispatched || m.state == Curated || m.curationTask.Some? ==> m' == m)
  }

  lemma {:induction false} EvolvesTransitively(a: Manifest, b: Manifest, c: Manifest)
    requires Evolves(a, b) && Evolves(b, c)
    ensures Evolves(a, c)
  {
  }

  /** Reserving a curation: the task id and the artifact are written down. */
  function Reserve(m: Manifest, task: string, artifact: string): Manifest {
    m.(curationTask := Some(task), submitted := Some(artifact))
  }

  function CurationTask(m: Manifest): string {
    if m.curationTask.Some? then m.curationTask.value else NextId(m)
  }

  lemma {:induction false} SameRoundsValid(m: Manifest, m': Manifest)
    requires ValidManifest(m) && SameForum(m, m') && m'.rounds == m.rounds
    ensures ValidManifest(m')
  {
    hide RoundValid, AllTasks, Distinct, ForumId, ArtifactId, Text.Blank;
  }

  /** The next id is new if and only if there is room for one. */
  lemma {:induction false} NextIdFresh(m: Manifest)
    ensures NextId(m) !in AllTasks(m.rounds) <==> Room(m, 1)
  {
    StageIdsFresh(m.forum, AllTasks(m.rounds), 1);
    var ids := StageIds(m.forum, NextOrdinal(AllTasks(m.rounds)), 1);
    NextIsWrapped(AllTasks(m.rounds));
    assert ids[0] == NextId(m);
    hide AllTasks, ReportId, MaxOrdinal, StageIds, NextOrdinal, NoneWrapsToTaken;
  }

  lemma {:induction false} NextIsWrapped(tasks: seq<string>)
    ensures Wrap(NextOrdinal(tasks) + 0) == NextOrdinal(tasks)
  {
  }

  lemma {:induction false} ReservationKept(m: Manifest, artifact: string)
    requires Kept(m) && m.curationTask.None? && m.rounds != []
    ensures Kept(Reserve(m, CurationTask(m), artifact)) && Kept(Reserve(m, CurationTask(m), artifact).(state := Curated))
  {
    var reserved := Reserve(m, CurationTask(m), artifact);
    hide ValidManifest, AllTasks, MaxOrdinal, ReportId, NextOrdinal;
    SameRoundsValid(m, reserved);
    SameRoundsValid(m, reserved.(state := Curated));
  }

  lemma {:induction false} PushKept(m: Manifest, r: Round)
    requires Kept(m) && m.curationTask.None? && m.state == Open && (m.mode == Dispatched ==> m.rounds == [])
    requires ValidManifest(Push(m, r))
    ensures Kept(Push(m, r)) && (m.mode == SelfCurated ==> Evolves(m, Push(m, r)))
  {
    hide ValidManifest;
  }

  // ---- the commands ----

  datatype RunArgs = RunArgs(participants: seq<string>, fast: bool, curator: Option<string>, forum: Option<string>,
                             sourceRef: Option<string>, artifactId: Option<string>, project: Option<string>)

  /** What a command finds around it: the ready transports, the current ref,
      freshly minted ids, the clock and the parent task's state. */
  datatype Surroundings = Surroundings(available: set<(string, string)>, ref: string, mintedTask: string,
                                       mintedArtifact: string, now: string, parentState: string)

  datatype CommandError =
    | BadInput | BadParticipant | BadPanel(error: PanelError) | BadCurator | BadArtifactId | WrongProject | CannotJoin(reason: JoinError)
    | SourceRefDiffers | ArtifactDiffers | DaemonFailed | RoundFailed(failure: ForumRound.Failure) | ManifestRejected
    | NothingToReview(select: SelectError) | NoReportsLeft | GateFailed | NoRoundsToCurate

  class Ledger {
    const project: string
    var forums: map<string, Manifest>

    constructor (project: string)
      ensures this.project == project && forums == map[] && Valid()
    {
      this.project := project;
      forums := map[];
    }

    ghost predicate Valid() reads this {
      forall f :: f in forums ==> forums[f].forum == f && Kept(forums[f])
    }

    ghost predicate History(was: map<string, Manifest>) reads this {
      forall f :: f in was ==> f in forums && Evolves(was[f], forums[f])
    }

    /** Writing validates first and replaces the file in one step. */
    method WriteManifest(m: Manifest) returns (e: Option<CommandError>)
      modifies this
      ensures e.None? ==> ValidManifest(m) && forums == old(forums)[m.forum := m]
      ensures e.Some? ==> forums == old(forums)
      ensures e == Some(ManifestRejected) ==> !ValidManifest(m)
      ensures e.Some? ==> e == Some(ManifestRejected) || e == Some(DaemonFailed)
    {
      hide ValidManifest;
      var ok := ValidateManifest(m);
      if !ok { return Some(ManifestRejected); }
      var stored: bool := *;
      if !stored { return Some(DaemonFailed); }
      forums := forums[m.forum := m];
      e := None;
    }

    /** Run a round's stages and record it in a forum that is on disk. */
    method RecordAnswer(m: Manifest, input: Input, raws: seq<string>, panel: seq<Participant>, fast: bool)
        returns (r: Result<Recorded, CommandError>)
      requires Valid() && m.forum in forums && forums[m.forum] == m
      requires m.curationTask.None? && m.state == Open && (m.mode == Dispatched ==> m.rounds == [])
      requires AnswerInput(input) && GivenPanel(raws, panel) && DifferentModels(panel) && |panel| >= if fast then 1 else 2
      modifies this
      ensures r.Ok? ==> r.value.panel == panel && |r.value.promotions| == TaskCount(panel, fast)
      ensures r.Ok? ==> forums == old(forums)[m.forum := Answered(m, input, panel, fast, r.value.promotions)]
      ensures r.Ok? ==> Kept(Answered(m, input, panel, fast, r.value.promotions))
      ensures r.Ok? ==> AnswerRecorded(m.rounds, Answered(m, input, panel, fast, r.value.promotions).rounds, input, fast, r.value)
      ensures r.Err? ==> forums == old(forums)
      ensures r == Err(ManifestRejected) ==> !Room(m, TaskCount(panel, fast))
      ensures r.Ok? ==> Room(m, TaskCount(panel, fast))
    {
      var n := TaskCount(panel, fast);
      var ids := NextIds(m, n);
      NextIdsCount(m, n);
      hide ForumRound.Script, ForumRound.AllNonEmpty, ForumRound.Accounted, AnswerRound, ValidManifest, GivenPanel, AnswerInput;
      hide DifferentModels, Push, Room, NextIds;
      var outcome, log, aborts, ps := ForumRound.RunStages(panel, fast, ids);
      if outcome.Err? { return Err(RoundFailed(outcome.error)); }
      var grown := Push(m, AnswerRound(m, input, panel, fast, outcome.value));
      if m.mode == SelfCurated {
        var compiled: bool := *;
        if !compiled { return Err(DaemonFailed); }
      }
      KeptIsValid(m);
      AnswerKeepsValid(m, input, raws, panel, fast, outcome.value);
      var e := WriteManifest(grown);
      if e.Some? { return Err(e.value); }
      PushKept(m, AnswerRound(m, input, panel, fast, outcome.value));
      assert grown.forum == m.forum by { PushShape(m, AnswerRound(m, input, panel, fast, outcome.value)); }
      r := Ok(Recorded(panel, outcome.value, log));
      AnswerIsRecorded(m, input, raws, fast, r.value);
    }

    /** Add a round to an existing forum. */
    method JoinForum(input: Input, args: RunArgs, panel: seq<Participant>, env: Surroundings)
        returns (r: Result<Recorded, CommandError>)
      requires Valid() && AnswerInput(input) && GivenPanel(args.participants, panel) && args.forum.Some?
      requires DifferentModels(panel) && |panel| >= if args.fast then 1 else 2
      modifies this
      ensures r.Ok? ==> args.forum.value in old(forums) && r.value.panel == panel && |r.value.promotions| == TaskCount(panel, args.fast)
      ensures r.Ok? ==> Joinable(old(forums)[args.forum.value])
      ensures r.Ok? ==> MayJoin(args.forum.value, project, old(forums)[args.forum.value], env.parentState)
      ensures r.Ok? ==> SameTarget(args, old(forums)[args.forum.value])
      ensures r.Ok? ==> forums == old(forums)[args.forum.value :=
        Answered(old(forums)[args.forum.value], input, panel, args.fast, r.value.promotions)]
      ensures r.Ok? ==> AnswerRecorded(old(forums)[args.forum.value].rounds, forums[args.forum.value].rounds, input, args.fast, r.value)
      ensures r.Ok? ==> Kept(forums[args.forum.value])
      ensures r.Err? ==> forums == old(forums)
      ensures r == Err(ManifestRejected) ==> args.forum.value in forums && !Room(forums[args.forum.value], TaskCount(panel, args.fast))
      ensures r.Ok? ==> Room(old(forums)[args.forum.value], TaskCount(panel, args.fast))
    {
      hide Kept, AnswerInput, GivenPanel, DifferentModels, Room, AnswerRound, Push, OpenStates;
      var f := args.forum.value;
      var loaded := if f in forums then Some(forums[f]) else None;
      var refused := ValidateJoin(f, project, false, loaded, env.parentState);
      if refused.Some? { return Err(CannotJoin(refused.value)); }
      JoinExactly(f, project, false, loaded, env.parentState);
      hide MayJoin;
      var m := loaded.value;
      if args.sourceRef.Some? && args.sourceRef.value != m.sourceRef { return Err(SourceRefDiffers); }
      if args.artifactId.Some? && args.artifactId != m.artifactId { return Err(ArtifactDiffers); }
      hide ValidateJoin;
      r := RecordAnswer(m, input, args.participants, panel, args.fast);
    }

    /** The dispatched curation of a forum with a recorded round. */
    method CurateAtOnce(m: Manifest, artifact: string) returns (e: Option<CommandError>)
      requires Kept(m) && m.curationTask.None? && m.rounds != []
      modifies this
      ensures e.None? ==> forums == old(forums)[m.forum := Finished(m, artifact)]
      ensures Kept(Finished(m, artifact)) && Finished(m, artifact).forum == m.forum
      ensures e.Some? ==> forums == old(forums) && e != Some(ManifestRejected)
    {
      hide CurationTask;
      ReservationKept(m, artifact);
      hide Kept;
      KeptIsValid(Finished(m, artifact));
      var curated: bool := *;
      if !curated { return Some(GateFailed); }
      e := WriteManifest(Finished(m, artifact));
    }

    /** Create the parent task and write the empty manifest. */
    method CreateForum(args: RunArgs, env: Surroundings) returns (e: Option<CommandError>)
      requires Valid() && ForumId(env.mintedTask) && !Text.Blank(env.now) && (args.artifactId.Some? ==> ArtifactId(args.artifactId.value))
      modifies this
      ensures e.None? ==> env.mintedTask !in old(forums)
      ensures e.None? ==> forums == old(forums)[env.mintedTask := FreshForum(env.mintedTask, project, args, env)]
      ensures e.None? ==> Kept(FreshForum(env.mintedTask, project, args, env))
      ensures e.Some? ==> forums == old(forums)
      ensures e == Some(ManifestRejected) ==> Text.Blank(project) || Text.Blank(SourceRef(args, env))
      ensures e.None? ==> !Text.Blank(project) && !Text.Blank(SourceRef(args, env))
    {
      hide Kept, ForumId, ArtifactId, Text.Blank, ValidManifest, SourceRef;
      var created: bool := *;
      if !created || env.mintedTask in forums { return Some(DaemonFailed); }
      FreshForumValid(env.mintedTask, project, args, env);
      e := WriteManifest(FreshForum(env.mintedTask, project, args, env));
      if e.None? { FreshForumKept(env.mintedTask, project, args, env); }
    }

    /** A new forum: its first round and, with a curator, the dispatched
        curation. Older forums stay. */
    method OpenForum(input: Input, args: RunArgs, panel: seq<Participant>, env: Surroundings)
        returns (r: Result<Recorded, CommandError>)
      requires Valid() && AnswerInput(input) && GivenPanel(args.participants, panel) && args.forum.None?
      requires DifferentModels(panel) && |panel| >= if args.fast then 1 else 2
      requires ForumId(env.mintedTask) && !Text.Blank(env.now) && (args.artifactId.Some? ==> ArtifactId(args.artifactId.value))
      modifies this
      ensures env.mintedTask !in old(forums) || (r.Err? && forums == old(forums))
      ensures forums == old(forums)
        || (env.mintedTask in forums && forums == old(forums)[env.mintedTask := forums[env.mintedTask]] && Kept(forums[env.mintedTask])
            && forums[env.mintedTask].forum == env.mintedTask)
      ensures r.Ok? ==> r.value.panel == panel && |r.value.promotions| == TaskCount(panel, args.fast) && env.mintedTask in forums
      ensures r.Ok? ==> forums[env.mintedTask] == FirstAnswer(project, input, args, panel, env, r.value.promotions)
      ensures r.Ok? ==> AnswerRecorded([], forums[env.mintedTask].rounds, input, args.fast, r.value)
      ensures r == Err(ManifestRejected) ==>
        Text.Blank(project) || Text.Blank(SourceRef(args, env)) || TaskCount(panel, args.fast) > USIZE
      ensures r.Ok? ==> !Text.Blank(project) && !Text.Blank(SourceRef(args, env)) && TaskCount(panel, args.fast) <= USIZE
    {
      hide Kept, AnswerInput, GivenPanel, DifferentModels, Answered, ForumId, ArtifactId, Text.Blank, ValidManifest, SourceRef;
      hide AnswerRecorded, Room, Finished, TaskCount, MaxOrdinal, AllTasks;
      var e := CreateForum(args, env);
      if e.Some? { return Err(e.value); }
      RoomInFreshForum(env.mintedTask, project, args, env, TaskCount(panel, args.fast));
      var m := FreshForum(env.mintedTask, project, args, env);
      r := RecordAnswer(m, input, args.participants, panel, args.fast);
      if r.Err? { return; }
      AnsweredShape(m, input, panel, args.fast, r.value.promotions);
      if args.curator.None? { return; }
      FinishedRounds(Answered(m, input, panel, args.fast, r.value.promotions), ArtifactOf(args, env));
      e := CurateAtOnce(Answered(m, input, panel, args.fast, r.value.promotions), ArtifactOf(args, env));
      if e.Some? { return Err(e.value); }
    }

    /** `forum ask` and `forum critique`: open a forum or join one, run a round
        and record it; with a curator given, the curation follows at once. A
        join that fails leaves everything as it was, and the manifest's own
        validator rejects only a forum without project or ref, or a round for
        which the ordinals have run out. */
    method RunForum(input: Input, args: RunArgs, env: Surroundings) returns (r: Result<Recorded, CommandError>)
      requires Valid() && AnswerInput(input) && ForumId(env.mintedTask) && !Text.Blank(env.now)
      modifies this
      ensures Valid() && History(old(forums))
      ensures r.Err? && args.forum.Some? ==> forums == old(forums)
      ensures r.Ok? ==> GivenPanel(args.participants, r.value.panel) && |r.value.promotions| == TaskCount(r.value.panel, args.fast)
      ensures r.Ok? ==> DifferentModels(r.value.panel) && AllRunnable(r.value.panel, env.available)
      ensures r.Ok? && args.curator.Some? ==> args.forum.None? && ResolveCurator(r.value.panel, args.curator.value).Ok?
      ensures r.Ok? ==> (args.forum.Some? <==> Target(args, env) in old(forums))
      ensures r.Ok? && args.forum.Some? ==> forums == old(forums)[Target(args, env) :=
        Answered(old(forums)[Target(args, env)], input, r.value.panel, args.fast, r.value.promotions)]
      ensures r.Ok? && args.forum.None? ==> forums == old(forums)[Target(args, env) :=
        FirstAnswer(project, input, args, r.value.panel, env, r.value.promotions)]
      ensures r.Ok? ==> AnswerRecorded(if args.forum.Some? then old(forums)[Target(args, env)].rounds else [],
        forums[Target(args, env)].rounds, input, args.fast, r.value)
      ensures r.Ok? && args.forum.Some? ==> MayJoin(args.forum.value, project, old(forums)[args.forum.value], env.parentState)
      ensures r.Ok? && args.forum.Some? ==> SameTarget(args, old(forums)[args.forum.value])
      ensures r.Ok? && args.forum.None? ==> NewForum(forums[Target(args, env)], project, args, env)
      ensures r == Err(ManifestRejected) ==>
        if args.forum.Some? then args.forum.value in forums && !Room(forums[args.forum.value], IdCount(args))
        else Text.Blank(project) || Text.Blank(SourceRef(args, env)) || IdCount(args) > USIZE
      ensures r.Ok? && args.forum.Some? ==> Room(old(forums)[args.forum.value], IdCount(args))
      ensures r.Ok? && args.forum.None? ==> !Text.Blank(project) && !Text.Blank(SourceRef(args, env)) && IdCount(args) <= USIZE
    {
      hide SameTarget, AllRunnable, ResolveCurator, MayJoin, NewForum, AnswerRecorded, Kept, Evolves, AnswerInput, GivenPanel, DifferentModels, Answered, FirstAnswer, ForumId, ValidManifest;
      hide Text.Blank, SourceRef, Intake, MaxOrdinal, AllTasks, ArtifactId, Joinable;
      var intake := Intake(args, project, env.available);
      if intake.Err? {
        NothingChanges(forums);
        return Err(intake.error);
      }
      IntakeSound(args, project, env.available);
      var panel := intake.value;
      if args.forum.Some? {
        var joined := JoinForum(input, args, panel, env);
        NothingChanges(old(forums));
        if joined.Err? { return Err(joined.error); }
        AnswerEvolves(old(forums)[args.forum.value], input, panel, args.fast, joined.value.promotions);
        return Ok(joined.value);
      } else {
        var begun := OpenForum(input, args, panel, env);
        NothingChanges(old(forums));
        if begun.Err? { return Err(begun.error); }
        FirstAnswerIsNew(project, input, args, panel, env, begun.value.promotions);
        return Ok(begun.value);
      }
    }

    /** Give every reviewer the other authors' reports, unless nothing is left
        for one of them, and run the stage. */
    method ReviewStage(m: Manifest, reviewed: seq<nat>, reviewers: seq<Participant>) returns (r: Result<Recorded, CommandError>)
      ensures r.Ok? ==> r.value.panel == reviewers && |r.value.promotions| == |reviewers| && ForumRound.AllNonEmpty(r.value.promotions)
      ensures r.Ok? ==> StageOfReview(m.rounds, reviewed, NextIds(m, |reviewers|), r.value)
      ensures r.Err? ==> r.error != ManifestRejected
    {
      hide ForumRound.Launching, ForumRound.Closing, ForumRound.Accounted, ForumRound.AllNonEmpty, NextIds, Sources;
      var sources := Sources(m.rounds, reviewed);
      var scopes := ForumRound.Scopes(sources, reviewers);
      if exists i :: 0 <= i < |scopes| && scopes[i].reports == [] { return Err(NoReportsLeft); }
      NextIdsCount(m, |reviewers|);
      var outcome, log, aborts, ps := ForumRound.RunReviews(reviewers, sources, NextIds(m, |reviewers|));
      if outcome.Err? { return Err(RoundFailed(outcome.error)); }
      var compiled: bool := *;
      if !compiled { return Err(DaemonFailed); }
      r := Ok(Recorded(reviewers, outcome.value, log));
      StageIsBlind(m.rounds, reviewed, NextIds(m, |reviewers|), r.value);
    }

    /** Run the stage of a review round and record it. */
    method RecordReview(m: Manifest, reviewed: seq<nat>, focus: Option<string>, raws: seq<string>, reviewers: seq<Participant>)
        returns (r: Result<Recorded, CommandError>)
      requires Kept(m) && Joinable(m) && reviewed != [] && Selection(m.rounds, reviewed) && FocusValid(focus)
      requires GivenPanel(raws, reviewers) && DifferentModels(reviewers) && |reviewers| >= 1
      modifies this
      ensures r.Err? ==> forums == old(forums)
      ensures r.Ok? ==> r.value.panel == reviewers && |r.value.promotions| == |reviewers|
      ensures r.Ok? ==> Kept(Reviewed(m, reviewed, focus, reviewers, r.value.promotions))
      ensures r.Ok? ==> forums == old(forums)[m.forum := Reviewed(m, reviewed, focus, reviewers, r.value.promotions)]
      ensures r.Ok? ==> ReviewRecorded(m.rounds, Reviewed(m, reviewed, focus, reviewers, r.value.promotions).rounds, reviewed, focus, r.value)
      ensures r == Err(ManifestRejected) ==> !Room(m, |reviewers|)
      ensures r.Ok? ==> Room(m, |reviewers|)
    {
      KeptIsValid(m);
      hide *;
      r := ReviewStage(m, reviewed, reviewers);
      if r.Err? { return; }
      ReviewedEvolves(m, reviewed, focus, reviewers, r.value.promotions);
      ReviewedValid(m, reviewed, focus, raws, reviewers, r.value.promotions);
      var e := WriteManifest(Reviewed(m, reviewed, focus, reviewers, r.value.promotions));
      if e.Some? { return Err(e.value); }
      ReviewedKept(m, reviewed, focus, reviewers, r.value.promotions);
      ReviewIsRecorded(m, reviewed, focus, raws, r.value);
    }

    /** `forum review`: challenge the reports of earlier answer rounds. */
    method RunReview(forum: string, raws: seq<string>, requested: Option<nat>, focus: Option<string>, given: Option<string>,
                     env: Surroundings) returns (r: Result<Recorded, CommandError>)
      requires Valid()
      modifies this
      ensures Valid() && History(old(forums))
      ensures r.Err? ==> forums == old(forums)
      ensures r.Ok? ==> forum in old(forums) && |r.value.promotions| == |raws| && GivenPanel(raws, r.value.panel)
      ensures r.Ok? ==> SelectReviewRounds(old(forums)[forum], requested).Ok?
      ensures r.Ok? ==> MayJoin(forum, project, old(forums)[forum], env.parentState) && (given.Some? ==> given.value == project)
      ensures r.Ok? ==> DifferentModels(r.value.panel) && AllRunnable(r.value.panel, env.available) && FocusValid(TrimFocus(focus))
      ensures r.Ok? ==> forums == old(forums)[forum := Reviewed(old(forums)[forum],
        SelectReviewRounds(old(forums)[forum], requested).value, TrimFocus(focus), r.value.panel, r.value.promotions)]
      ensures r.Ok? ==> ReviewRecorded(old(forums)[forum].rounds, forums[forum].rounds,
        SelectReviewRounds(old(forums)[forum], requested).value, TrimFocus(focus), r.value)
      ensures r == Err(ManifestRejected) ==> forum in forums && !Room(forums[forum], |raws|)
      ensures r.Ok? ==> Room(old(forums)[forum], |raws|)
    {
      NothingChanges(forums);
      hide Kept, Evolves, GivenPanel, DifferentModels, Reviewed, ForumId, ValidManifest, ValidateJoin, ValidatePanel;
      hide Room, FocusValid, Selection, ForumRound.Launching, ForumRound.Closing, ForumRound.Accounted, ForumRound.AllNonEmpty;
      hide NoneWrapsToTaken, AllTasks, MaxOrdinal, ParseAll, Text.Trim, SelectReviewRounds, CurationIsNext, NextId, Numbered;
      if !ForumId(forum) { return Err(CannotJoin(NoForumId)); }
      var panel := ParseAll(raws);
      if panel.Err? { return Err(BadParticipant); }
      var reviewers := panel.value;
      assert GivenPanel(raws, reviewers) by { GivenIsParsed(raws, reviewers); }
      hide ParseAll;
      var refused := ValidatePanel(reviewers, true, env.available);
      if refused.Some? { return Err(BadPanel(refused.value)); }
      var steer := TrimFocus(focus);
      if !FocusValid(steer) { return Err(BadInput); }
      if given.Some? && given.value != project { return Err(WrongProject); }
      var loaded := if forum in forums then Some(forums[forum]) else None;
      var joins := ValidateJoin(forum, project, false, loaded, env.parentState);
      if joins.Some? { return Err(CannotJoin(joins.value)); }
      JoinExactly(forum, project, false, loaded, env.parentState);
      hide MayJoin;
      JoinNeedsForum(forum, project, loaded, env.parentState);
      var m := loaded.value;
      var selected := SelectReviewRounds(m, requested);
      if selected.Err? { return Err(NothingToReview(selected.error)); }
      KeptIsValid(m);
      SelectionIsReviewable(m, requested);
      hide SelectReviewRounds, Joinable;
      var recorded := RecordReview(m, selected.value, steer, raws, reviewers);
      if recorded.Err? { return Err(recorded.error); }
      ReviewedEvolves(m, selected.value, steer, reviewers, recorded.value.promotions);
      r := Ok(recorded.value);
    }

    /** `forum curate`: reserve the curation ids on disk, then hand in the
        artifact. A failure leaves the forum untouched or with exactly the
        reservation, and a reserved or curated forum is never touched again. */
    method RunCurate(forum: string, identity: string, given: Option<string>, env: Surroundings) returns (r: Result<string, CommandError>)
      requires Valid()
      modifies this
      ensures Valid() && History(old(forums))
      ensures r.Ok? ==> forum in old(forums) && Joinable(old(forums)[forum]) && r.value == CurationArtifact(old(forums)[forum], env)
      ensures r.Ok? ==> MayJoin(forum, project, old(forums)[forum], env.parentState) && old(forums)[forum].rounds != []
      ensures r.Ok? ==> ParseParticipant(identity).Ok? && (given.Some? ==> given.value == project)
      ensures r.Ok? ==> forums == old(forums)[forum := Finished(old(forums)[forum], r.value)]
      ensures r.Err? && forum in old(forums) && forums != old(forums) ==> forums == old(forums)[forum :=
        Reserve(old(forums)[forum], CurationTask(old(forums)[forum]), CurationArtifact(old(forums)[forum], env))]
      ensures r.Ok? ==> forums[forum].state == Curated && forums[forum].curationTask.Some? && forums[forum].rounds == old(forums)[forum].rounds
      ensures forum !in old(forums) || !Joinable(old(forums)[forum]) ==> r.Err? && forums == old(forums)
      ensures r != Err(ManifestRejected)
    {
      NothingChanges(forums);
      hide Kept, Evolves, ForumId, ValidManifest, ValidateJoin, ParseParticipant, CurationTask, Reserve, Finished, Joinable, CurationArtifact;
      if !ForumId(forum) { return Err(CannotJoin(NoForumId)); }
      if ParseParticipant(identity).Err? { return Err(BadParticipant); }
      if given.Some? && given.value != project { return Err(WrongProject); }
      var loaded := if forum in forums then Some(forums[forum]) else None;
      var refused := ValidateJoin(forum, project, false, loaded, env.parentState);
      if refused.Some? { return Err(CannotJoin(refused.value)); }
      JoinNeedsForum(forum, project, loaded, env.parentState);
      JoinExactly(forum, project, false, loaded, env.parentState);
      hide MayJoin;
      var m := loaded.value;
      if m.rounds == [] { return Err(NoRoundsToCurate); }
      var gates: bool := *;
      if !gates { return Err(GateFailed); }
      var artifact := CurationArtifact(m, env);
      CurationEvolves(m, artifact);
      FinishedRounds(m, artifact);
      var e := WriteManifest(Reserve(m, CurationTask(m), artifact));
      if e.Some? { return Err(e.value); }
      var submitted: bool := *;
      if !submitted { return Err(DaemonFailed); }
      e := WriteManifest(Finished(m, artifact));
      if e.Some? { return Err(e.value); }
      r := Ok(artifact);
    }

    /** Any run of commands: every forum on disk stays valid, and none loses
        its history. */
    method RunAll(commands: seq<Command>)
      requires Valid() && forall i :: 0 <= i < |commands| ==> CommandOk(commands[i])
      modifies this
      ensures Valid() && History(old(forums))
    {
      hide Kept, Evolves, AnswerInput, ForumId, Text.Blank, Joinable, Reviewed, Answered, FirstAnswer, Finished, Reserve, GivenPanel, Room;
      NothingChanges(forums);
      var i := 0;
      while i < |commands|
        invariant 0 <= i <= |commands| && Valid() && History(old(forums))
      {
        ghost var before := forums;
        match commands[i] {
          case Answer(input, args, env) => var r := RunForum(input, args, env);
          case Challenge(forum, raws, requested, focus, env) => var r := RunReview(forum, raws, requested, focus, None, env);
          case Curate(forum, identity, env) => var r := RunCurate(forum, identity, None, env);
        }
        forall f | f in old(forums) ensures Evolves(old(forums)[f], forums[f]) {
          EvolvesTransitively(old(forums)[f], before[f], forums[f]);
        }
        i := i + 1;
      }
    }
  }

  datatype Command =
    | Answer(input: Input, args: RunArgs, env: Surroundings)
    | Challenge(forum: string, raws: seq<string>, requested: Option<nat>, focus: Option<string>, env: Surroundings)
    | Curate(forum: string, identity: string, env: Surroundings)

  predicate CommandOk(c: Command) {
    c.Answer? ==> AnswerInput(c.input) && ForumId(c.env.mintedTask) && !Text.Blank(c.env.now)
  }

  function CurationArtifact(m: Manifest, env: Surroundings): string {
    if m.artifactId.Some? then m.artifactId.value else if m.submitted.Some? then m.submitted.value else env.mintedArtifact
  }

  lemma {:induction false} CurationEvolves(m: Manifest, artifact: string)
    requires Kept(m) && Joinable(m) && m.rounds != []
    ensures var reserved := Reserve(m, CurationTask(m), artifact);
      Kept(reserved) && Kept(Finished(m, artifact)) && Evolves(m, reserved) && Evolves(m, Finished(m, artifact))
      && ValidManifest(reserved) && ValidManifest(Finished(m, artifact))
      && reserved.forum == m.forum && Finished(m, artifact).forum == m.forum
  {
    hide CurationTask, ValidManifest, CurationIsNext;
    ReservationKept(m, artifact);
  }

  /** Whatever the commands did, a forum on disk has contiguous rounds that
      start with an answer, its task ids are all different, a dispatched forum
      has at most one round, and a curation id is none of the report ids exactly when
      there is room for one more. */
  lemma {:induction false} KeptGuarantees(m: Manifest)
    requires Kept(m)
    ensures Numbered(m.rounds) && (m.rounds != [] ==> m.rounds[0].kind != Review) && Distinct(AllTasks(m.rounds))
    ensures m.mode == Dispatched ==> |m.rounds| <= 1
    ensures m.curationTask.Some? ==> (m.curationTask.value !in AllTasks(m.rounds) <==> Room(m, 1))
  {
    Contiguous(m);
    NextIdFresh(m);
    hide AllTasks, NextId, NoneWrapsToTaken;
    if m.rounds != [] { FirstRoundIsNoReview(m); }
  }

  function TrimFocus(focus: Option<string>): Option<string> {
    if focus.None? then None else Some(Text.Trim(focus.value))
  }

  /** The checks on the arguments before anything is touched. */
  function Intake(args: RunArgs, project: string, available: set<(string, string)>): (r: Result<seq<Participant>, CommandError>)
    ensures r.Err? ==> r.error != ManifestRejected
  {
    if args.forum.Some? && args.curator.Some? then Err(CannotJoin(CuratorGiven))
    else
      var parsed := ParseAll(args.participants);
      if parsed.Err? then Err(BadParticipant)
      else
        var panel := parsed.value;
        var refused := ValidatePanel(panel, args.fast, available);
        if refused.Some? then Err(BadPanel(refused.value))
        else if args.curator.Some? && ResolveCurator(panel, args.curator.value).Err? then Err(BadCurator)
        else if args.artifactId.Some? && !ArtifactId(args.artifactId.value) then Err(BadArtifactId)
        else if args.project.Some? && args.project.value != project then Err(WrongProject)
        else Ok(panel)
  }

  lemma {:induction false} IntakeSound(args: RunArgs, project: string, available: set<(string, string)>)
    requires Intake(args, project, available).Ok?
    ensures args.curator.Some? ==> args.forum.None?
    ensures var panel := Intake(args, project, available).value;
      GivenPanel(args.participants, panel) && DifferentModels(panel) && |panel| == |args.participants|
      && |panel| >= (if args.fast then 1 else 2) && (args.artifactId.Some? ==> ArtifactId(args.artifactId.value))
      && AllRunnable(panel, available) && (args.curator.Some? ==> ResolveCurator(panel, args.curator.value).Ok?)
  {
    hide DifferentModels, ResolveCurator, ArtifactId;
  }

  /** How many ids the stages of a run need. */
  function IdCount(args: RunArgs): nat { if args.fast then |args.participants| else 2 * |args.participants| }

  /** The forum a run is about. */
  function Target(args: RunArgs, env: Surroundings): string {
    if args.forum.Some? then args.forum.value else env.mintedTask
  }

  function SourceRef(args: RunArgs, env: Surroundings): string {
    if args.sourceRef.Some? then args.sourceRef.value else env.ref
  }

  function ArtifactOf(args: RunArgs, env: Surroundings): string {
    if args.artifactId.Some? then args.artifactId.value else env.mintedArtifact
  }

  function FreshForum(forum: string, project: string, args: RunArgs, env: Surroundings): Manifest {
    Manifest(1, forum, project, SourceRef(args, env), env.now, args.artifactId,
             if args.curator.Some? then Dispatched else SelfCurated, Open, [], None, None)
  }

  function Finished(m: Manifest, artifact: string): Manifest { Reserve(m, CurationTask(m), artifact).(state := Curated) }

  /** A forum with one more answer round. */
  function Answered(m: Manifest, input: Input, panel: seq<Participant>, fast: bool, ps: seq<ForumRound.Promotion>): Manifest
    requires |ps| == TaskCount(panel, fast)
  {
    Push(m, AnswerRound(m, input, panel, fast, ps))
  }

  lemma {:induction false} RoomInFreshForum(forum: string, project: string, args: RunArgs, env: Surroundings, n: nat)
    ensures Room(FreshForum(forum, project, args, env), n) <==> n <= USIZE
  {
    hide SourceRef;
  }

  lemma {:induction false} FinishedRounds(m: Manifest, artifact: string)
    ensures Finished(m, artifact).rounds == m.rounds && Finished(m, artifact).state == Curated && Finished(m, artifact).curationTask.Some?
  {
    hide CurationTask;
  }

  lemma {:induction false} AnsweredShape(m: Manifest, input: Input, panel: seq<Participant>, fast: bool, ps: seq<ForumRound.Promotion>)
    requires |ps| == TaskCount(panel, fast)
    ensures Answered(m, input, panel, fast, ps).forum == m.forum && Answered(m, input, panel, fast, ps).rounds != []
    ensures Answered(m, input, panel, fast, ps).curationTask == m.curationTask
  {
  }

  /** A new forum after its first round, curated when a curator was given. */
  function FirstAnswer(project: string, input: Input, args: RunArgs, panel: seq<Participant>, env: Surroundings,
                       ps: seq<ForumRound.Promotion>): Manifest
    requires |ps| == TaskCount(panel, args.fast)
  {
    var m := Answered(FreshForum(env.mintedTask, project, args, env), input, panel, args.fast, ps);
    if args.curator.Some? then Finished(m, ArtifactOf(args, env)) else m
  }

  /** What a new forum is: the minted task's, of this project, at the ref that
      was given or found, and dispatched and curated exactly with a curator. */
  predicate NewForum(m: Manifest, project: string, args: RunArgs, env: Surroundings) {
    m.version == 1 && m.forum == env.mintedTask && m.project == project && m.startedAt == env.now && m.artifactId == args.artifactId
    && Some(m.sourceRef) == (if args.sourceRef.Some? then args.sourceRef else Some(env.ref))
    && (m.mode == Dispatched <==> args.curator.Some?) && (m.state == Curated <==> args.curator.Some?)
    && (m.curationTask.Some? <==> args.curator.Some?)
    && m.submitted == (if args.curator.None? then None else if args.artifactId.Some? then args.artifactId else Some(env.mintedArtifact))
  }

  lemma {:induction false} FirstAnswerIsNew(project: string, input: Input, args: RunArgs, panel: seq<Participant>, env: Surroundings,
                                            ps: seq<ForumRound.Promotion>)
    requires |ps| == TaskCount(panel, args.fast)
    ensures NewForum(FirstAnswer(project, input, args, panel, env, ps), project, args, env)
  {
    hide AnswerRound, CurationTask;
  }

  predicate Joinable(m: Manifest) { m.mode == SelfCurated && m.state == Open && m.curationTask.None? }

  lemma {:induction false} FreshForumValid(forum: string, project: string, args: RunArgs, env: Surroundings)
    requires ForumId(forum) && !Text.Blank(env.now) && (args.artifactId.Some? ==> ArtifactId(args.artifactId.value))
    ensures ValidManifest(FreshForum(forum, project, args, env)) <==> !Text.Blank(project) && !Text.Blank(SourceRef(args, env))
  {
    hide ForumId, ArtifactId, Text.Blank, SourceRef;
  }

  lemma {:induction false} FreshForumKept(forum: string, project: string, args: RunArgs, env: Surroundings)
    requires ValidManifest(FreshForum(forum, project, args, env))
    ensures Kept(FreshForum(forum, project, args, env))
  {
    hide ValidManifest;
  }

  lemma {:induction false} AnswerEvolves(m: Manifest, input: Input, panel: seq<Participant>, fast: bool, ps: seq<ForumRound.Promotion>)
    requires Joinable(m) && |ps| == TaskCount(panel, fast)
    ensures Evolves(m, Answered(m, input, panel, fast, ps)) && Answered(m, input, panel, fast, ps).forum == m.forum
  {
    hide AnswerRound;
  }

  /** A forum with one more review round. */
  function Reviewed(m: Manifest, reviewed: seq<nat>, focus: Option<string>, reviewers: seq<Participant>,
                    ps: seq<ForumRound.Promotion>): Manifest
  {
    Push(m, ReviewRound(m, reviewed, focus, reviewers, ps))
  }

  lemma {:induction false} ReviewedEvolves(m: Manifest, reviewed: seq<nat>, focus: Option<string>, reviewers: seq<Participant>,
                                           ps: seq<ForumRound.Promotion>)
    requires Joinable(m)
    ensures Evolves(m, Reviewed(m, reviewed, focus, reviewers, ps)) && Reviewed(m, reviewed, focus, reviewers, ps).forum == m.forum
  {
    hide ReviewRound;
  }

  lemma {:induction false} ReviewedValid(m: Manifest, reviewed: seq<nat>, focus: Option<string>, raws: seq<string>,
                                         reviewers: seq<Participant>, ps: seq<ForumRound.Promotion>)
    requires ValidManifest(m) && GivenPanel(raws, reviewers) && DifferentModels(reviewers) && |reviewers| >= 1
    requires reviewed != [] && Selection(m.rounds, reviewed) && FocusValid(focus)
    requires |ps| == |reviewers| && ForumRound.AllNonEmpty(ps)
    ensures ValidManifest(Reviewed(m, reviewed, focus, reviewers, ps)) <==> Room(m, |reviewers|)
  {
    hide ValidManifest, GivenPanel, DifferentModels, Selection, FocusValid, Room, ForumRound.AllNonEmpty, ReviewRound, Push;
    ReviewKeepsValid(m, reviewed, focus, raws, reviewers, ps);
  }

  lemma {:induction false} ReviewedKept(m: Manifest, reviewed: seq<nat>, focus: Option<string>, reviewers: seq<Participant>,
                                        ps: seq<ForumRound.Promotion>)
    requires Kept(m) && Joinable(m) && ValidManifest(Reviewed(m, reviewed, focus, reviewers, ps))
    ensures Kept(Reviewed(m, reviewed, focus, reviewers, ps))
  {
    hide ValidManifest, ReviewRound, Kept, Push;
    PushKept(m, ReviewRound(m, reviewed, focus, reviewers, ps));
  }

  lemma {:induction false} GivenIsParsed(raws: seq<string>, panel: seq<Participant>)
    requires ParseAll(raws) == Ok(panel)
    ensures GivenPanel(raws, panel)
  {
  }

  lemma {:induction false} JoinNeedsForum(forum: string, project: string, m: Option<Manifest>, parentState: string)
    requires ValidateJoin(forum, project, false, m, parentState).None?
    ensures m.Some? && m.value.forum == forum && m.value.project == project && Joinable(m.value)
  {
    hide ForumId, OpenStates;
  }

  lemma {:induction false} NothingChanges(forums: map<string, Manifest>)
    ensures forall f :: f in forums ==> Evolves(forums[f], forums[f])
  {
  }

  lemma {:induction false} KeptIsValid(m: Manifest)
    requires Kept(m)
    ensures ValidManifest(m)
  {
  }

  lemma {:induction false} PushShape(m: Manifest, r: Round)
    ensures Push(m, r).forum == m.forum
  {
  }
}