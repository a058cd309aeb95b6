/** The forum manifest: what it records, when it is valid, and what the
    validation guarantees to every reader. */
module ForumManifest {
  import opened Outcomes
  import opened ForumIds
  import opened ForumPanel
  import ForumRound
  import Text
  import Artifact = ForumArtifact

  datatype Kind = Ask | Critique | Review

  datatype Input =
    | AskInput(question: string)
    | CritiqueInput(target: string, focus: Option<string>, basename: string)
    | ReviewInput(reviewed: seq<nat>, focus: Option<string>)

  function KindOf(input: Input): Kind {
    match input
    case AskInput(_) => Ask
    case CritiqueInput(_, _, _) => Critique
    case ReviewInput(_, _) => Review
  }

  datatype Round = Round(number: nat, kind: Kind, fast: bool, input: Input, panel: seq<Spec>,
                         firstStage: seq<string>, crossReview: seq<string>, review: seq<string>, paths: seq<string>)

  datatype Mode = SelfCurated | Dispatched
  datatype State = Open | Curated

  datatype Manifest = Manifest(version: nat, forum: string, project: string, sourceRef: string, startedAt: string,
                               artifactId: Option<string>, mode: Mode, state: State, rounds: seq<Round>,
                               curationTask: Option<string>, submitted: Option<string>)

  function ReportTasks(r: Round): seq<string> { r.firstStage + r.crossReview + r.review }

  function AllTasks(rounds: seq<Round>): seq<string> {
    if rounds == [] then [] else AllTasks(rounds[..|rounds| - 1]) + ReportTasks(rounds[|rounds| - 1])
  }

  // ---- validation ----

  predicate CountsMatch(r: Round) {
    var count := |r.panel|;
    if r.kind == Review then
      !r.fast && count >= 1 && r.firstStage == [] && r.crossReview == [] && |r.review| == count && |r.paths| == count
    else
      var reviews := if r.fast then 0 else count;
      count >= (if r.fast then 1 else 2) && |r.firstStage| == count && |r.crossReview| == reviews && r.review == []
      && |r.paths| == count + reviews
  }

  predicate PanelValid(panel: seq<Spec>) { ReadAll(panel).Ok? && DifferentModels(ReadAll(panel).value) }

  predicate FocusValid(focus: Option<string>) { focus.Some? ==> Artifact.ValidateFocus(focus.value).None? }

  /** A reviewed round comes earlier and is no review itself. */
  predicate Reviewable(rounds: seq<Round>, index: nat, reviewed: nat) {
    1 <= reviewed <= index && reviewed <= |rounds| && rounds[reviewed - 1].number == reviewed
    && rounds[reviewed - 1].kind != Review
  }

  predicate InputValid(rounds: seq<Round>, index: nat, input: Input) {
    match input
    case AskInput(question) => Artifact.ValidateQuestion(question).None?
    case CritiqueInput(target, focus, _) => Artifact.ValidateTarget(target).None? && FocusValid(focus)
    case ReviewInput(reviewed, focus) =>
      reviewed != [] && Distinct(reviewed) && FocusValid(focus)
      && forall i :: 0 <= i < |reviewed| ==> Reviewable(rounds, index, reviewed[i])
  }

  predicate TaskBelongs(forum: string, task: string) { TaskPathId(task) && forum + "." <= task }

  predicate RoundValid(forum: string, rounds: seq<Round>, index: nat)
    requires index < |rounds|
  {
    var r := rounds[index];
    r.number == index + 1 && r.kind == KindOf(r.input) && CountsMatch(r) && PanelValid(r.panel)
    && InputValid(rounds, index, r.input)
    && (forall i :: 0 <= i < |ReportTasks(r)| ==> TaskBelongs(forum, ReportTasks(r)[i]))
    && forall i :: 0 <= i < |r.paths| ==> r.paths[i] != ""
  }

  predicate HeadValid(m: Manifest) {
    m.version == 1 && ForumId(m.forum)
    && !Text.Blank(m.project) && !Text.Blank(m.sourceRef) && !Text.Blank(m.startedAt)
    && (m.artifactId.Some? ==> ArtifactId(m.artifactId.value))
  }

  predicate ValidManifest(m: Manifest) {
    HeadValid(m) && (forall i :: 0 <= i < |m.rounds| ==> RoundValid(m.forum, m.rounds, i)) && Distinct(AllTasks(m.rounds))
  }

  lemma {:induction false} AllTasksGrows(rounds: seq<Round>, r: Round)
    ensures AllTasks(rounds + [r]) == AllTasks(rounds) + ReportTasks(r)
  {
    assert (rounds + [r])[..|rounds|] == rounds;
  }

  /** The validator: one pass over the rounds, remembering every task seen. */
  method ValidateManifest(m: Manifest) returns (ok: bool)
    ensures ok == ValidManifest(m)
  {
    hide HeadValid, RoundValid;
    if !HeadValid(m) { return false; }
    var seen: seq<string> := [];
    var index := 0;
    while index < |m.rounds|
      invariant 0 <= index <= |m.rounds| && seen == AllTasks(m.rounds[..index]) && Distinct(seen)
      invariant forall i :: 0 <= i < index ==> RoundValid(m.forum, m.rounds, i)
    {
      if !RoundValid(m.forum, m.rounds, index) { return false; }
      var tasks := ReportTasks(m.rounds[index]);
      assert m.rounds[..index + 1] == m.rounds[..index] + [m.rounds[index]];
      AllTasksGrows(m.rounds[..index], m.rounds[index]);
      var added := AddAll(seen, tasks);
      if !added {
        PartNotDistinct(m.rounds, index + 1);
        return false;
      }
      seen := seen + tasks;
      index := index + 1;
    }
    assert m.rounds[..index] == m.rounds;
    ok := true;
  }

  method AddAll(seen: seq<string>, tasks: seq<string>) returns (added: bool)
    requires Distinct(seen)
    ensures added == Distinct(seen + tasks)
  {
    var all := seen;
    var i := 0;
    while i < |tasks|
      invariant 0 <= i <= |tasks| && all == seen + tasks[..i] && Distinct(all)
    {
      if tasks[i] in all {
        var k :| 0 <= k < |all| && all[k] == tasks[i];
        assert (seen + tasks)[k] == (seen + tasks)[|seen| + i];
        return false;
      }
      all := all + [tasks[i]];
      i := i + 1;
    }
    assert tasks[..i] == tasks;
    added := true;
  }

  lemma {:induction false} AllTasksPrefix(rounds: seq<Round>, n: nat)
    requires n <= |rounds|
    ensures AllTasks(rounds[..n]) <= AllTasks(rounds)
    decreases |rounds|
  {
    if n < |rounds| {
      var front := rounds[..|rounds| - 1];
      AllTasksPrefix(front, n);
      assert front[..n] == rounds[..n];
    } else {
      assert rounds[..n] == rounds;
    }
  }

  lemma {:induction false} PartNotDistinct(rounds: seq<Round>, n: nat)
    requires n <= |rounds| && !Distinct(AllTasks(rounds[..n]))
    ensures !Distinct(AllTasks(rounds))
  {
    hide AllTasks;
    AllTasksPrefix(rounds, n);
    var part, all := AllTasks(rounds[..n]), AllTasks(rounds);
    var i, j :| 0 <= i < j < |part| && part[i] == part[j];
    assert all[i] == all[j];
  }

  // ---- what a valid manifest guarantees ----

  lemma {:induction false} ReviewComesLater(rounds: seq<Round>, index: nat, input: Input)
    requires input.ReviewInput? && InputValid(rounds, index, input)
    ensures index >= 1
  {
    assert Reviewable(rounds, index, input.reviewed[0]);
  }

  /** A forum never opens with a review. */
  lemma {:induction false} FirstRoundIsNoReview(m: Manifest)
    requires ValidManifest(m) && m.rounds != []
    ensures m.rounds[0].kind != Review
  {
    hide InputValid, PanelValid, CountsMatch;
    assert RoundValid(m.forum, m.rounds, 0);
    if m.rounds[0].input.ReviewInput? { ReviewComesLater(m.rounds, 0, m.rounds[0].input); }
  }

  /** The reports of a round, paired up by position. */
  function RoundReports(r: Round): Result<(seq<ForumRound.Report>, seq<ForumRound.Report>), ParticipantError>
    requires CountsMatch(r)
  {
    var panel := ReadAll(r.panel);
    if panel.Err? then Err(panel.error)
    else if r.kind == Review then Ok(([], Zip(panel.value, r.review, r.paths)))
    else
      var n := |panel.value|;
      Ok((Zip(panel.value, r.firstStage, r.paths[..n]), Zip(panel.value, r.crossReview, r.paths[n..])))
  }

  /** Zipping stops at the shortest list. */
  function Zip(panel: seq<Participant>, tasks: seq<string>, paths: seq<string>): (reports: seq<ForumRound.Report>) {
    var n := if |panel| <= |tasks| && |panel| <= |paths| then |panel| else if |tasks| <= |paths| then |tasks| else |paths|;
    seq(n, i requires 0 <= i < n => ForumRound.Report(panel[i], tasks[i], paths[i]))
  }

  /** One report for each task, in order, each with a path. */
  predicate Covering(reports: seq<ForumRound.Report>, tasks: seq<string>) {
    |reports| == |tasks| && forall i :: 0 <= i < |reports| ==> reports[i].task == tasks[i] && reports[i].path != ""
  }

  lemma {:induction false} ZipCovers(panel: seq<Participant>, tasks: seq<string>, paths: seq<string>)
    requires (|panel| == |tasks| || tasks == []) && |tasks| <= |paths| && forall i :: 0 <= i < |paths| ==> paths[i] != ""
    ensures Covering(Zip(panel, tasks, paths), tasks)
  {
  }

  /** No recorded task is lost between the panel, the tasks and the report
      paths of a valid round. */
  lemma {:induction false} RoundReportsComplete(m: Manifest, index: nat)
    requires ValidManifest(m) && index < |m.rounds|
    ensures CountsMatch(m.rounds[index]) && RoundReports(m.rounds[index]).Ok?
    ensures Covering(RoundReports(m.rounds[index]).value.0, m.rounds[index].firstStage)
    ensures Covering(RoundReports(m.rounds[index]).value.1, m.rounds[index].crossReview + m.rounds[index].review)
  {
    assert RoundValid(m.forum, m.rounds, index);
    hide *;
    RoundParts(m.forum, m.rounds, index);
    RoundCovered(m.rounds[index]);
  }

  lemma {:induction false} RoundCovered(r: Round)
    requires CountsMatch(r) && ReadAll(r.panel).Ok? && forall i :: 0 <= i < |r.paths| ==> r.paths[i] != ""
    ensures RoundReports(r).Ok?
    ensures Covering(RoundReports(r).value.0, r.firstStage)
    ensures Covering(RoundReports(r).value.1, r.crossReview + r.review)
  {
    hide ReadAll, Zip, Covering;
    var panel := ReadAll(r.panel).value;
    var n := |panel|;
    if r.kind == Review {
      ZipCovers(panel, r.review, r.paths);
      NothingCovered();
      assert r.crossReview + r.review == r.review;
    } else {
      ZipCovers(panel, r.firstStage, r.paths[..n]);
      ZipCovers(panel, r.crossReview, r.paths[n..]);
      assert r.crossReview + r.review == r.crossReview;
    }
  }

  lemma {:induction false} NothingCovered()
    ensures Covering([], [])
  {
  }

  lemma {:induction false} RoundParts(forum: string, rounds: seq<Round>, index: nat)
    requires index < |rounds| && RoundValid(forum, rounds, index)
    ensures CountsMatch(rounds[index]) && ReadAll(rounds[index].panel).Ok? && DifferentModels(ReadAll(rounds[index].panel).value)
    ensures forall i :: 0 <= i < |rounds[index].paths| ==> rounds[index].paths[i] != ""
  {
  }
}
