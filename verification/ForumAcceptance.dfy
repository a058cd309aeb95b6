/** Which drafts are assembled: every check of the assembly, in terms of where
    things stand in the draft and in the document. */
module ForumAcceptance {
  import opened Outcomes
  import opened Text
  import opened ForumSubstitution
  import opened ForumLanding
  import opened ForumSections
  import opened ForumArtifact
  import ForumIds
  import Utf8

  // ---- no SVG of the model's ----

  /** In lower-cased text: a bracket at `i`, white space up to `j`, and the name
      `svg` there with no word character behind it. */
  predicate SvgOpens(low: string, i: nat, j: nat) {
    i < j && j + 3 <= |low| && low[i] == '<' && (forall k :: i < k < j ==> AsciiSpace(low[k]))
    && low[j] == 's' && low[j + 1] == 'v' && low[j + 2] == 'g' && (j + 3 < |low| ==> !WordChar(low[j + 3]))
  }

  ghost predicate SvgFree(draft: string) {
    !Contains(Lower(draft), "data:image/svg+xml") && forall i, j :: !SvgOpens(Lower(draft), i, j)
  }

  lemma {:induction false} TagOpens(low: string, i: nat)
    ensures SvgTag(low, i) <==> exists j :: SvgOpens(low, i, j)
  {
    if SvgTag(low, i) {
      var j := SkipSpace(low, i + 1);
      assert low[j..j + 3] == "svg" && low[j] == "svg"[0] && low[j + 1] == "svg"[1] && low[j + 2] == "svg"[2];
      assert SvgOpens(low, i, j);
    }
    if j: nat :| SvgOpens(low, i, j) {
      hide WordChar;
      assert low[j..j + 3] == "svg";
      assert SkipSpace(low, i + 1) == j;
    }
  }

  /** The check for SVG, as positions. */
  lemma {:induction false} SvgFreeIs(draft: string)
    ensures HoldsModelSvg(draft) <==> !SvgFree(draft)
  {
    var low := Lower(draft);
    UriThere(low);
    hide SvgOpens, Lower, Find, Contains, DataUri, SvgTag;
    if HoldsModelSvg(draft) && Find(low, DataUri()).None? {
      var i: nat :| i < |draft| && SvgTag(low, i);
      TagOpens(low, i);
    }
    if i: nat, j: nat :| SvgOpens(low, i, j) {
      TagOpens(low, i);
      TagInside(draft, i);
    }
  }

  lemma {:induction false} UriThere(low: string)
    ensures Find(low, DataUri()).Some? <==> Contains(low, "data:image/svg+xml")
  {
  }

  lemma {:induction false} TagInside(draft: string, i: nat)
    requires SvgTag(Lower(draft), i)
    ensures i < |draft|
  {
  }

  // ---- placeholders ----

  /** The placeholder stands in the text, and all its occurrences overlap. */
  ghost predicate CountedOnce(s: string, p: string) {
    Contains(s, p) && forall i, j :: Occurs(s, p, i) && Occurs(s, p, j) ==> j < i + |p|
  }

  lemma {:induction false} CountedOnceIs(s: string, p: string)
    requires p != ""
    ensures Matches(s, p) == 1 <==> CountedOnce(s, p)
  {
    hide Matches;
    if Matches(s, p) == 1 { OneIsCluster(s, p); }
    if CountedOnce(s, p) { ClusterPass(s, p, ""); }
  }

  ghost predicate PlaceholdersOnce(draft: string, input: Input) {
    CountedOnce(draft, DIAGRAM_PLACEHOLDER) && CountedOnce(draft, RUN_STATS_PLACEHOLDER)
    && if input.Ask? then CountedOnce(draft, QUESTION_PLACEHOLDER) && !Contains(draft, TARGET_PLACEHOLDER)
       else CountedOnce(draft, TARGET_PLACEHOLDER) && !Contains(draft, QUESTION_PLACEHOLDER)
  }

  lemma {:induction false} PlaceholdersText()
    ensures QUESTION_PLACEHOLDER != "" && TARGET_PLACEHOLDER != "" && DIAGRAM_PLACEHOLDER != "" && RUN_STATS_PLACEHOLDER != ""
    ensures !IsSpace(RUN_STATS_PLACEHOLDER[|RUN_STATS_PLACEHOLDER| - 1])
  {
  }

  lemma {:induction false} HoldsIs(s: string, p: string)
    ensures Holds(s, p) <==> Contains(s, p)
  {
  }

  lemma {:induction false} PlaceholdersOnceIs(draft: string, input: Input)
    ensures First(input) != "" && DIAGRAM_PLACEHOLDER != "" && RUN_STATS_PLACEHOLDER != ""
    ensures PlaceholdersOnce(draft, input)
       <==> (Matches(draft, First(input)) == 1 && !Holds(draft, Other(input)) && Matches(draft, DIAGRAM_PLACEHOLDER) == 1
             && Matches(draft, RUN_STATS_PLACEHOLDER) == 1)
  {
    PlaceholdersText();
    hide Matches, Holds, CountedOnce, Contains;
    HoldsIs(draft, Other(input));
    CountedOnceIs(draft, First(input));
    CountedOnceIs(draft, DIAGRAM_PLACEHOLDER);
    CountedOnceIs(draft, RUN_STATS_PLACEHOLDER);
  }

  /** Only white space follows a run-stats placeholder. */
  ghost predicate StatsLast(draft: string) {
    exists k :: Occurs(draft, RUN_STATS_PLACEHOLDER, k) && forall i :: k + |RUN_STATS_PLACEHOLDER| <= i < |draft| ==> IsSpace(draft[i])
  }

  lemma {:induction false} LastIsEnd(s: string, p: string, k: nat)
    requires p != "" && !IsSpace(p[|p| - 1]) && Occurs(s, p, k) && forall i :: k + |p| <= i < |s| ==> IsSpace(s[i])
    ensures EndsWith(TrimEnd(s), p)
  {
    var t := TrimEnd(s);
    assert s[k + |p| - 1] == p[|p| - 1];
    assert |t| == k + |p|;
    assert t[k..] == s[k..k + |p|];
  }

  lemma {:induction false} StatsLastIs(draft: string)
    ensures StatsLast(draft) <==> EndsWith(TrimEnd(draft), RUN_STATS_PLACEHOLDER)
  {
    var p, t := RUN_STATS_PLACEHOLDER, TrimEnd(draft);
    PlaceholdersText();
    hide IsSpace;
    if EndsWith(t, p) {
      var k := |t| - |p|;
      assert draft[k..k + |p|] == t[k..];
      assert Occurs(draft, p, k);
    }
    if k: nat :| Occurs(draft, p, k) && forall i :: k + |p| <= i < |draft| ==> IsSpace(draft[i]) { LastIsEnd(draft, p, k); }
  }

  // ---- raw task ids ----

  predicate GoesOn(c: char) { c == '.' || '0' <= c <= '9' }

  /** The id stands in the text with no dot or digit behind it. */
  ghost predicate StandsWhole(s: string, task: string) {
    exists i :: Occurs(s, task, i) && (i + |task| < |s| ==> !GoesOn(s[i + |task|]))
  }

  /** Where the id can overlap itself, no dot or digit goes on. */
  ghost predicate PlainBorders(task: string) {
    forall b :: 0 < b < |task| && task[..b] == task[|task| - b..] ==> !GoesOn(task[b])
  }

  lemma {:induction false} BorderAt(s: string, task: string, f: nat, i: nat)
    requires PlainBorders(task) && Occurs(s, task, f) && Occurs(s, task, i) && f < i < f + |task|
    ensures f + |task| < |s| && !GoesOn(s[f + |task|])
  {
    var b := f + |task| - i;
    assert task[..b] == s[i..i + b] == s[f + (i - f)..f + |task|] == task[|task| - b..];
    assert s[i..i + |task|][b] == task[b];
  }

  lemma {:induction false} StandsFurther(s: string, task: string, end: nat)
    requires end <= |s| && StandsWhole(s[end..], task)
    ensures StandsWhole(s, task)
  {
    var i :| Occurs(s[end..], task, i) && (i + |task| < |s[end..]| ==> !GoesOn(s[end..][i + |task|]));
    OccursBehind(s, end, task, i);
    assert end + i + |task| < |s| ==> s[end + i + |task|] == s[end..][i + |task|];
  }

  lemma {:induction false} PresentStands(s: string, task: string)
    requires TaskIsPresent(s, task)
    ensures StandsWhole(s, task)
    decreases |s|
  {
    if task == "" {
      assert Occurs(s, task, |s|);
    } else {
      var end := Find(s, task).value + |task|;
      if !Ends(s, end) {
        PresentStands(s[end..], task);
        hide TaskIsPresent, Find;
        StandsFurther(s, task, end);
      } else {
        hide TaskIsPresent, Find;
        assert Occurs(s, task, end - |task|);
      }
    }
  }

  lemma {:induction false} StandsPresent(s: string, task: string, i: nat)
    requires task != "" && PlainBorders(task) && Occurs(s, task, i) && (i + |task| < |s| ==> !GoesOn(s[i + |task|]))
    ensures TaskIsPresent(s, task)
    decreases |s|
  {
    FindsEarliest(s, task, i);
    var f := Find(s, task).value;
    var end := f + |task|;
    hide *;
    if end < |s| { EndsIs(s, end); } else { EndsLast(s, end); }
    if f < i < end {
      BorderAt(s, task, f, i);
      MatchCounts(s, task);
    } else if i == f {
      MatchCounts(s, task);
    } else if i >= end {
      StandsBehind(s, task, i, end);
      StandsPresent(s[end..], task, i - end);
      MatchCounts(s, task);
    }
  }

  lemma {:induction false} EndsIs(s: string, k: nat)
    requires k < |s|
    ensures Ends(s, k) <==> !GoesOn(s[k])
  {
  }

  lemma {:induction false} EndsLast(s: string, k: nat)
    requires k >= |s|
    ensures Ends(s, k)
  {
  }

  lemma {:induction false} StandsBehind(s: string, task: string, i: nat, end: nat)
    requires Occurs(s, task, i) && (i + |task| < |s| ==> !GoesOn(s[i + |task|])) && end <= i
    ensures Occurs(s[end..], task, i - end) && (i - end + |task| < |s[end..]| ==> !GoesOn(s[end..][i - end + |task|]))
  {
    assert s[end..][i - end..i - end + |task|] == s[i..i + |task|];
  }

  lemma {:induction false} StemHasNoHyphen(s: string)
    requires ForumIds.TaskStem(s)
    ensures '-' !in s
  {
  }

  lemma {:induction false} SplitHasNo(s: string, c: char)
    requires c != '.' && forall i :: 0 <= i < |Split(s, '.')| ==> c !in Split(s, '.')[i]
    ensures c !in s
  {
    if s != "" {
      assert s == [s[0]] + s[1..];
      var parts, rest := Split(s, '.'), Split(s[1..], '.');
      forall i | 0 <= i < |rest| ensures c !in rest[i] {
        if s[0] == '.' { assert rest[i] == parts[i + 1]; } else if i > 0 { assert rest[i] == parts[i]; } else { assert c !in parts[0]; }
      }
      SplitHasNo(s[1..], c);
      if s[0] != '.' { assert s[0] in parts[0]; }
    }
  }

  /** A task id has one hyphen, behind four letters. */
  lemma {:induction false} IdHasOneHyphen(task: string)
    requires ForumIds.TaskPathId(task)
    ensures |task| >= 5 && task[0] == 'T' && task[1] == 'A' && task[2] == 'S' && task[3] == 'K' && task[4] == '-'
    ensures forall i :: 5 <= i < |task| ==> task[i] != '-'
  {
    var rest := task[5..];
    var parts := Split(rest, '.');
    assert task[..5] == "TASK-";
    forall i | 0 <= i < |parts| ensures '-' !in parts[i] {
      if i == 0 { StemHasNoHyphen(parts[0]); }
    }
    hide Split, ForumIds.TaskStem;
    SplitHasNo(rest, '-');
    forall i | 5 <= i < |task| ensures task[i] != '-' { assert task[i] == rest[i - 5]; }
  }

  lemma {:induction false} IdBorders(task: string)
    requires ForumIds.TaskPathId(task)
    ensures PlainBorders(task) && task != ""
  {
    IdHasOneHyphen(task);
    hide ForumIds.TaskPathId;
    forall b | 5 <= b < |task| ensures task[..b] != task[|task| - b..] {
      assert task[..b][4] == '-' && task[|task| - b..][4] == task[|task| - b + 4];
    }
  }

  /** A task id is found exactly when it stands in the text as a whole id,
      wherever longer ids occur. */
  lemma {:induction false} TaskIsPresentIs(s: string, task: string)
    requires ForumIds.TaskPathId(task)
    ensures TaskIsPresent(s, task) <==> StandsWhole(s, task)
  {
    hide TaskIsPresent, ForumIds.TaskPathId;
    IdBorders(task);
    if TaskIsPresent(s, task) { PresentStands(s, task); }
    if i: nat :| Occurs(s, task, i) && (i + |task| < |s| ==> !GoesOn(s[i + |task|])) { StandsPresent(s, task, i); }
  }

  // ---- sections ----

  ghost predicate ClosedBetween(s: string, i: nat, j: nat) { exists e :: i <= e < j && e < |s| && s[e] == '>' }

  /** A section tag at or behind `from`: it is closed, and no tag opened before
      it is still open. */
  ghost predicate ListedSince(s: string, from: nat, o: nat) {
    from <= o && Occurs(s, "<Section", o) && ClosedBetween(s, o, |s|)
    && forall i :: from <= i < o && Occurs(s, "<Section", i) ==> ClosedBetween(s, i, o)
  }

  ghost predicate Listed(s: string, o: nat) { ListedSince(s, 0, o) }

  /** The title in the tag at `o`. */
  function TitleAt(s: string, o: nat): string {
    if o > |s| then ""
    else
      var e := Find(s[o..], ">");
      if e.None? then "" else TitleOf(s[o..o + e.value])
  }

  /** The first quoted value of `title` in a tag. */
  lemma {:induction false} TitleIsQuoted(tag: string, a: nat, b: nat)
    requires Occurs(tag, "title=\"", a) && forall i :: 0 <= i < a ==> !Occurs(tag, "title=\"", i)
    requires a + 7 <= b < |tag| && tag[b] == '"' && forall i :: a + 7 <= i < b ==> tag[i] != '"'
    ensures TitleOf(tag) == tag[a + 7..b]
  {
    FindIs(tag, TitleKey(), a);
    var rest := tag[a + 7..];
    assert rest[b - a - 7..b - a - 7 + 1] == "\"";
    forall i | 0 <= i < b - a - 7 ensures !Occurs(rest, "\"", i) { assert rest[i] == tag[a + 7 + i]; }
    FindIs(rest, "\"", b - a - 7);
    hide Find;
  }

  lemma {:induction false} Untitled(tag: string)
    requires forall a, b :: Occurs(tag, "title=\"", a) && a + 7 <= b < |tag| ==> tag[b] != '"'
    ensures TitleOf(tag) == ""
  {
    var at := Find(tag, TitleKey());
    if at.Some? {
      var rest := tag[at.value + 7..];
      forall i: nat ensures !Occurs(rest, "\"", i) { OneChar(rest, '"', i); }
    }
  }

  predicate Ascending(sections: seq<Section>) {
    forall i, j :: 0 <= i < j < |sections| ==> sections[i].offset < sections[j].offset
  }

  ghost predicate Lists(sections: seq<Section>, o: nat) { exists k :: 0 <= k < |sections| && sections[k].offset == o }

  lemma {:induction false} BracketAt(s: string, o: nat, e: nat)
    requires o <= |s| && Find(s[o..], ">") == Some(e)
    ensures o + e < |s| && s[o + e] == '>' && forall i :: o <= i < o + e ==> s[i] != '>'
  {
    var rest := s[o..];
    assert rest[e..e + 1] == ">" && rest[e] == s[o + e];
    forall i | o <= i < o + e ensures s[i] != '>' {
      assert !Occurs(rest, ">", i - o);
      assert rest[i - o..i - o + 1] == [s[i]];
    }
  }

  lemma {:induction false} NoBracket(s: string, o: nat)
    requires o <= |s| && Find(s[o..], ">").None?
    ensures forall i :: o <= i < |s| ==> s[i] != '>'
  {
    var rest := s[o..];
    forall i | o <= i < |s| ensures s[i] != '>' {
      assert !Occurs(rest, ">", i - o);
      assert rest[i - o..i - o + 1] == [s[i]];
    }
  }

  lemma {:induction false} OpeningFound(s: string, from: nat)
    requires from <= |s|
    ensures var a := Find(s[from..], Opening());
      (a.Some? ==> from + a.value < |s| && Occurs(s, "<Section", from + a.value))
      && forall i :: from <= i && (a.Some? ==> i < from + a.value) ==> !Occurs(s, "<Section", i)
  {
    var a := Find(s[from..], Opening());
    hide Find;
    assert Opening() == "<Section";
    if a.Some? { OccursBehind(s, from, Opening(), a.value); }
    hide Opening;
    forall i | from <= i && (a.Some? ==> i < from + a.value) ensures !Occurs(s, "<Section", i) {
      OccursBehind(s, from, "<Section", i - from);
    }
  }

  lemma {:induction false} OccursBehind(s: string, from: nat, p: string, i: nat)
    requires from <= |s|
    ensures Occurs(s[from..], p, i) <==> Occurs(s, p, from + i)
  {
    if from + i + |p| <= |s| { assert s[from..][i..i + |p|] == s[from + i..from + i + |p|]; }
  }

  lemma {:induction false} TagStarts(s: string, o: nat)
    requires Occurs(s, "<Section", o)
    ensures o < |s| && s[o] == '<'
  {
    assert s[o..o + 8][0] == s[o];
  }

  /** Behind the tag at `f`, closed at `g`, the listing starts anew. */
  lemma {:induction false} ListedBehind(s: string, from: nat, f: nat, g: nat, o: nat)
    requires from <= f < g < |s| && Occurs(s, "<Section", f) && s[g] == '>' && forall i :: f <= i < g ==> s[i] != '>'
    requires forall i :: from <= i < f ==> !Occurs(s, "<Section", i)
    ensures ListedSince(s, from, o) <==> o == f || ListedSince(s, g + 1, o)
  {
    if ListedSince(s, from, o) && o != f {
      assert ClosedBetween(s, f, o);
      TagStarts(s, o);
      assert g + 1 <= o;
    }
    if ListedSince(s, g + 1, o) {
      forall i | from <= i < o && Occurs(s, "<Section", i) ensures ClosedBetween(s, i, o) {
        TagStarts(s, i);
        if i <= g { assert s[g] == '>'; }
      }
    }
    if o == f { assert s[g] == '>'; }
  }

  /** The list of sections: exactly the listed tags, in their order, each with
      its title. */
  lemma {:induction false} SectionsListed(s: string, from: nat)
    requires from <= |s|
    ensures ListsRight(s, from, SectionsFrom(s, from))
    decreases |s| - from
  {
    hide *;
    var a := Find(s[from..], Opening());
    if a.None? || Find(s[from + a.value..], ">").None? {
      ListingEnds(s, from);
    } else {
      var f := from + a.value;
      var e := Find(s[f..], ">").value;
      OpeningFound(s, from);
      TagStarts(s, f);
      BracketAt(s, f, e);
      SectionStep(s, from, a.value, e);
      SectionsListed(s, f + e + 1);
      TitleAtIs(s, f, e);
      SectionsMore(s, from, f, f + e);
    }
  }

  lemma {:induction false} ListingEnds(s: string, from: nat)
    requires from <= |s| && (Find(s[from..], Opening()).None? || Find(s[from + Find(s[from..], Opening()).value..], ">").None?)
    ensures ListsRight(s, from, SectionsFrom(s, from))
  {
    hide *;
    var a := Find(s[from..], Opening());
    OpeningFound(s, from);
    SectionsEnd(s, from);
    if a.None? {
      NothingListed(s, from);
    } else {
      NoBracket(s, from + a.value);
      OpenListsNothing(s, from, from + a.value);
    }
  }

  lemma {:induction false} TitleAtIs(s: string, o: nat, e: nat)
    requires o <= |s| && Find(s[o..], ">") == Some(e)
    ensures o + e <= |s| && TitleAt(s, o) == TitleOf(s[o..o + e])
  {
    hide TitleOf;
  }

  ghost predicate ListsRight(s: string, from: nat, sections: seq<Section>) {
    Ascending(sections) && (forall o :: Lists(sections, o) <==> ListedSince(s, from, o))
    && forall k :: 0 <= k < |sections| ==> from <= sections[k].offset && sections[k].title == TitleAt(s, sections[k].offset)
  }

  lemma {:induction false} SectionsMore(s: string, from: nat, f: nat, g: nat)
    requires from <= f < g < |s| && Occurs(s, "<Section", f) && s[g] == '>' && forall i :: f <= i < g ==> s[i] != '>'
    requires forall i :: from <= i < f ==> !Occurs(s, "<Section", i)
    requires SectionsFrom(s, from) == [Section(f, TitleAt(s, f))] + SectionsFrom(s, g + 1)
    requires ListsRight(s, g + 1, SectionsFrom(s, g + 1))
    ensures ListsRight(s, from, SectionsFrom(s, from))
  {
    var rest, x := SectionsFrom(s, g + 1), Section(f, TitleAt(s, f));
    hide SectionsFrom, TitleAt, Ascending, Lists, ListedSince, Occurs;
    forall o ensures Lists(SectionsFrom(s, from), o) <==> ListedSince(s, from, o) {
      ListedBehind(s, from, f, g, o);
      ListsMore(x, rest, o);
    }
    MoreAscending(x, rest);
  }

  lemma {:induction false} NothingListed(s: string, from: nat)
    requires forall i :: from <= i ==> !Occurs(s, "<Section", i)
    ensures ListsRight(s, from, [])
  {
  }

  lemma {:induction false} OpenListsNothing(s: string, from: nat, f: nat)
    requires f < |s| && (forall i :: f <= i < |s| ==> s[i] != '>') && forall i :: from <= i < f ==> !Occurs(s, "<Section", i)
    ensures ListsRight(s, from, [])
  {
  }

  lemma {:induction false} ListsMore(x: Section, rest: seq<Section>, o: nat)
    ensures Lists([x] + rest, o) <==> x.offset == o || Lists(rest, o)
  {
    var all := [x] + rest;
    if x.offset == o { assert all[0].offset == o; }
    if k: nat :| k < |rest| && rest[k].offset == o { assert all[k + 1].offset == o; }
  }

  lemma {:induction false} MoreAscending(x: Section, rest: seq<Section>)
    requires Ascending(rest) && forall k :: 0 <= k < |rest| ==> x.offset < rest[k].offset
    ensures Ascending([x] + rest)
  {
  }

  // ---- the required titles ----

  /** The first listed tag with the title. */
  ghost predicate FirstTitled(s: string, title: string, o: nat) {
    Listed(s, o) && TitleAt(s, o) == title && forall i :: 0 <= i < o && Listed(s, i) ==> TitleAt(s, i) != title
  }

  /** Where the required titles come first, in their order. */
  ghost predicate InOrder(s: string, required: seq<string>, places: seq<nat>) {
    |places| == |required| && (forall k :: 0 <= k < |places| ==> FirstTitled(s, required[k], places[k]))
    && forall k :: 0 < k < |places| ==> places[k - 1] < places[k]
  }

  /** The first listed tag of all has the title, and opens the section. */
  ghost predicate Leads(s: string, title: string, section: string, o: nat) {
    Listed(s, o) && TitleAt(s, o) == title && Occurs(s, section, o) && forall i :: 0 <= i < o ==> !Listed(s, i)
  }

  ghost predicate SectionsRight(s: string, section: string, required: seq<string>)
    requires required != []
  {
    (exists o :: Leads(s, required[0], section, o)) && exists places :: InOrder(s, required, places)
  }

  lemma {:induction false} FirstOffsetIs(sections: seq<Section>, title: string)
    requires Ascending(sections)
    ensures match FirstOffset(sections, title)
      case None => forall k :: 0 <= k < |sections| ==> sections[k].title != title
      case Some(o) => Section(o, title) in sections && forall k :: 0 <= k < |sections| && sections[k].offset < o ==> sections[k].title != title
  {
    if sections != [] && sections[0].title != title {
      var rest := sections[1..];
      assert forall k :: 0 < k < |sections| ==> sections[k] == rest[k - 1];
      FirstOffsetIs(rest, title);
    }
  }

  lemma {:induction false} RightParts(s: string, sections: seq<Section>, o: nat)
    requires ListsRight(s, 0, sections)
    ensures Ascending(sections) && (Lists(sections, o) <==> Listed(s, o))
    ensures forall i :: 0 <= i < o ==> (Lists(sections, i) <==> Listed(s, i))
    ensures forall k :: 0 <= k < |sections| ==> sections[k].title == TitleAt(s, sections[k].offset)
  {
    hide Ascending, Lists, ListedSince, TitleAt;
  }

  /** In an ascending list the first entry with the title. */
  ghost predicate FirstEntry(sections: seq<Section>, title: string, o: nat) {
    Section(o, title) in sections && forall k :: 0 <= k < |sections| && sections[k].offset < o ==> sections[k].title != title
  }

  lemma {:induction false} OneFirstEntry(sections: seq<Section>, title: string, o: nat)
    requires Ascending(sections)
    ensures FirstOffset(sections, title) == Some(o) <==> FirstEntry(sections, title, o)
  {
    FirstOffsetIs(sections, title);
    hide FirstOffset;
    if FirstEntry(sections, title, o) {
      var at := FirstOffset(sections, title).value;
      assert Section(at, title) in sections;
    }
  }

  lemma {:induction false} EntryIsTitled(s: string, sections: seq<Section>, title: string, o: nat)
    requires ListsRight(s, 0, sections)
    ensures FirstEntry(sections, title, o) <==> FirstTitled(s, title, o)
  {
    RightParts(s, sections, o);
    hide ListsRight, TitleAt, ListedSince, Listed, Ascending;
    if FirstEntry(sections, title, o) {
      var k :| 0 <= k < |sections| && sections[k] == Section(o, title);
      assert Lists(sections, o);
    }
    if FirstTitled(s, title, o) {
      var k :| 0 <= k < |sections| && sections[k].offset == o;
      assert sections[k] == Section(o, title);
      forall j | 0 <= j < |sections| && sections[j].offset < o ensures sections[j].title != title {
        assert Lists(sections, sections[j].offset);
      }
    }
  }

  /** The first offset of a title is its first listed tag. */
  lemma {:induction false} FirstTitledIs(s: string, title: string, o: nat)
    ensures FirstOffset(SectionsFrom(s, 0), title) == Some(o) <==> FirstTitled(s, title, o)
  {
    hide *;
    SectionsListed(s, 0);
    RightParts(s, SectionsFrom(s, 0), o);
    OneFirstEntry(SectionsFrom(s, 0), title, o);
    EntryIsTitled(s, SectionsFrom(s, 0), title, o);
  }

  /** The section checks, as positions in the document. */
  lemma {:induction false} SectionsRightIs(s: string, section: string, required: seq<string>)
    requires required != []
    ensures CheckSections(s, section, required).None? <==> SectionsRight(s, section, required)
  {
    hide *;
    if CheckSections(s, section, required).None? {
      CheckedLead(s, section, required);
      CheckedOrder(s, section, required);
      RightWhen(s, section, required);
    }
    if SectionsRight(s, section, required) { RightIsChecked(s, section, required); }
  }

  lemma {:induction false} RightWhen(s: string, section: string, required: seq<string>)
    requires required != [] && (exists o :: Leads(s, required[0], section, o)) && exists places :: InOrder(s, required, places)
    ensures SectionsRight(s, section, required)
  {
    hide Leads, InOrder;
  }

  /** The listed tag in front is the head of the list. */
  lemma {:induction false} HeadIsLeast(sections: seq<Section>, o: nat)
    requires Ascending(sections)
    ensures sections != [] && sections[0].offset == o <==> Lists(sections, o) && forall i :: 0 <= i < o ==> !Lists(sections, i)
  {
    if sections != [] {
      assert Lists(sections, sections[0].offset);
      assert forall k :: 0 < k < |sections| ==> sections[0].offset < sections[k].offset;
    }
  }

  lemma {:induction false} ListedHead(s: string, o: nat)
    ensures var sections := SectionsFrom(s, 0);
      (sections != [] && sections[0].offset == o <==> Listed(s, o) && forall i :: 0 <= i < o ==> !Listed(s, i))
      && (sections != [] && sections[0].offset == o ==> sections[0].title == TitleAt(s, o))
  {
    hide *;
    SectionsListed(s, 0);
    RightParts(s, SectionsFrom(s, 0), o);
    HeadIsLeast(SectionsFrom(s, 0), o);
  }

  lemma {:induction false} OpensIs(s: string, section: string, o: nat)
    ensures o <= |s| && section <= s[o..] <==> Occurs(s, section, o)
  {
    if o + |section| <= |s| { assert s[o..][..|section|] == s[o..o + |section|]; }
  }

  lemma {:induction false} CheckedLead(s: string, section: string, required: seq<string>)
    requires required != [] && CheckSections(s, section, required).None?
    ensures exists o :: Leads(s, required[0], section, o)
  {
    var sections := SectionsFrom(s, 0);
    assert sections != [] && sections[0].title == required[0] && sections[0].offset <= |s| && section <= s[sections[0].offset..];
    var o := sections[0].offset;
    hide *;
    ListedHead(s, o);
    OpensIs(s, section, o);
    LeadsIs(s, required[0], section, o);
  }

  lemma {:induction false} LeadsIs(s: string, title: string, section: string, o: nat)
    ensures Leads(s, title, section, o)
      <==> (Listed(s, o) && TitleAt(s, o) == title && Occurs(s, section, o) && forall i :: 0 <= i < o ==> !Listed(s, i))
  {
    hide Listed, TitleAt, Occurs;
  }

  lemma {:induction false} CheckedOrder(s: string, section: string, required: seq<string>)
    requires required != [] && CheckSections(s, section, required).None?
    ensures exists places :: InOrder(s, required, places)
  {
    var sections := SectionsFrom(s, 0);
    assert forall k :: 0 <= k < |required| ==> FirstOffset(sections, required[k]).Some?;
    assert Ordered(sections, required);
    var places := seq(|required|, k requires 0 <= k < |required| => FirstOffset(sections, required[k]).value);
    hide CheckSections, SectionsFrom, FirstOffset, FirstTitled;
    forall k | 0 <= k < |required| ensures FirstTitled(s, required[k], places[k]) { FirstTitledIs(s, required[k], places[k]); }
    assert InOrder(s, required, places);
  }

  lemma {:induction false} RightIsChecked(s: string, section: string, required: seq<string>)
    requires required != [] && SectionsRight(s, section, required)
    ensures CheckSections(s, section, required).None?
  {
    var o :| Leads(s, required[0], section, o);
    var places :| InOrder(s, required, places);
    hide *;
    LeadIsFirst(s, required[0], section, o);
    OrderOffsets(s, required, places);
    ChecksPass(s, section, required, o, places);
  }

  lemma {:induction false} OrderOffsets(s: string, required: seq<string>, places: seq<nat>)
    requires InOrder(s, required, places)
    ensures |places| == |required| && forall k :: 0 < k < |places| ==> places[k - 1] < places[k]
    ensures forall k :: 0 <= k < |required| ==> FirstOffset(SectionsFrom(s, 0), required[k]) == Some(places[k])
  {
    hide SectionsFrom, FirstOffset, FirstTitled;
    forall k | 0 <= k < |required| ensures FirstOffset(SectionsFrom(s, 0), required[k]) == Some(places[k]) {
      FirstTitledIs(s, required[k], places[k]);
    }
  }

  lemma {:induction false} ChecksPass(s: string, section: string, required: seq<string>, o: nat, places: seq<nat>)
    requires required != [] && |places| == |required| && forall k :: 0 < k < |places| ==> places[k - 1] < places[k]
    requires SectionsFrom(s, 0) != [] && SectionsFrom(s, 0)[0] == Section(o, required[0]) && o <= |s| && section <= s[o..]
    requires forall k :: 0 <= k < |required| ==> FirstOffset(SectionsFrom(s, 0), required[k]) == Some(places[k])
    ensures CheckSections(s, section, required).None?
  {
    hide SectionsFrom, FirstOffset;
  }

  lemma {:induction false} LeadIsFirst(s: string, title: string, section: string, o: nat)
    requires Leads(s, title, section, o)
    ensures var sections := SectionsFrom(s, 0);
      sections != [] && sections[0] == Section(o, title) && o <= |s| && section <= s[o..]
  {
    hide *;
    LeadsIs(s, title, section, o);
    ListedHead(s, o);
    OpensIs(s, section, o);
  }

  // ---- the whole assembly ----

  /** What the document must show, in its order: the verbatim section first. */
  ghost predicate DocumentRight(mdx: string, input: Input) {
    if input.Ask? then SectionsRight(mdx, FirstSection(input), ["Question", "Final answer", "From question to answer", "Knowledge map"])
    else SectionsRight(mdx, FirstSection(input), ["Target", "Verdict", "Findings", "From target to verdict"])
  }

  ghost predicate TasksStand(draft: string, tasks: seq<string>) {
    forall k :: 0 <= k < |tasks| ==> StandsWhole(draft, tasks[k])
  }

  lemma {:induction false} DocumentRightIs(mdx: string, input: Input)
    ensures Required(input) != [] && (DocumentRight(mdx, input) <==> CheckSections(mdx, FirstSection(input), Required(input)).None?)
  {
    hide SectionsRight, CheckSections, FirstSection;
    SectionsRightIs(mdx, FirstSection(input), Required(input));
  }

  lemma {:induction false} TasksStandIs(draft: string, tasks: seq<string>)
    requires TaskIds(tasks)
    ensures TasksStand(draft, tasks) <==> forall k :: 0 <= k < |tasks| ==> TaskIsPresent(draft, tasks[k])
  {
    hide TaskIsPresent, StandsWhole, ForumIds.TaskPathId;
    forall k | 0 <= k < |tasks| ensures TaskIsPresent(draft, tasks[k]) <==> StandsWhole(draft, tasks[k]) {
      TaskIsPresentIs(draft, tasks[k]);
    }
  }

  /** The blocks, and the document the three passes make. */
  function Document(draft: string, input: Input, svg: seq<bv8>, hasReviews: bool, about: string): string {
    BlocksShaped(input, svg, hasReviews, about);
    Passes(InputBlocks(input, svg, hasReviews, about), draft)
  }

  /** The checks as the code makes them. */
  lemma {:induction false} AssembleChecks(draft: string, input: Input, svg: seq<bv8>, hasReviews: bool, about: string, tasks: seq<string>)
    ensures First(input) != "" && DIAGRAM_PLACEHOLDER != "" && RUN_STATS_PLACEHOLDER != "" && Required(input) != []
    ensures var mdx := Document(draft, input, svg, hasReviews, about);
      var wrong := CheckSections(mdx, FirstSection(input), Required(input));
      Assemble(draft, input, svg, hasReviews, about, tasks) ==
      if HoldsModelSvg(draft) then Err(ModelSvg)
      else if !(Matches(draft, First(input)) == 1 && !Holds(draft, Other(input)) && Matches(draft, DIAGRAM_PLACEHOLDER) == 1
                && Matches(draft, RUN_STATS_PLACEHOLDER) == 1) then Err(PlaceholderCount)
      else if !EndsWith(TrimEnd(draft), RUN_STATS_PLACEHOLDER) then Err(StatsNotLast)
      else if wrong.Some? then Err(WrongSections(wrong.value))
      else if !(forall k :: 0 <= k < |tasks| ==> TaskIsPresent(draft, tasks[k])) then Err(MissingTasks)
      else Ok(mdx)
  {
    PlaceholdersText();
    BlocksShaped(input, svg, hasReviews, about);
    hide HoldsModelSvg, Matches, Holds, EndsWith, TrimEnd, CheckSections, TaskIsPresent, FirstSection, Image, Passes;
  }

  /** A draft is assembled if and only if it holds no SVG of the model's, each of
      its placeholders counts once and the other input's is absent, the run
      stats come last, the document has the required sections in order with the
      verbatim one first, and every task id stands in the draft as a whole id.
      The first of these that fails is the one that is reported. */
  lemma {:induction false} AssembledExactly(draft: string, input: Input, svg: seq<bv8>, hasReviews: bool, about: string, tasks: seq<string>)
    requires TaskIds(tasks)
    ensures var r := Assemble(draft, input, svg, hasReviews, about, tasks);
      var mdx := Document(draft, input, svg, hasReviews, about);
      var fits := SvgFree(draft) && PlaceholdersOnce(draft, input);
      (r.Ok? <==> fits && StatsLast(draft) && DocumentRight(mdx, input) && TasksStand(draft, tasks))
      && (r.Ok? ==> r.value == mdx)
      && (r == Err(ModelSvg) <==> !SvgFree(draft))
      && (r == Err(PlaceholderCount) <==> SvgFree(draft) && !PlaceholdersOnce(draft, input))
      && (r == Err(StatsNotLast) <==> fits && !StatsLast(draft))
      && (r.Err? && r.error.WrongSections? <==> fits && StatsLast(draft) && !DocumentRight(mdx, input))
      && (r == Err(MissingTasks) <==> fits && StatsLast(draft) && DocumentRight(mdx, input) && !TasksStand(draft, tasks))
  {
    hide *;
    AssembleChecks(draft, input, svg, hasReviews, about, tasks);
    SvgFreeIs(draft);
    PlaceholdersOnceIs(draft, input);
    StatsLastIs(draft);
    DocumentRightIs(Document(draft, input, svg, hasReviews, about), input);
    TasksStandIs(draft, tasks);
  }

  // ---- inputs ----

  ghost predicate HoldsPlaceholder(s: string) {
    Contains(s, QUESTION_PLACEHOLDER) || Contains(s, TARGET_PLACEHOLDER) || Contains(s, DIAGRAM_PLACEHOLDER)
    || Contains(s, RUN_STATS_PLACEHOLDER)
  }

  lemma {:induction false} HoldsPlaceholderIs(s: string)
    ensures ContainsOrchestratorPlaceholder(s) <==> HoldsPlaceholder(s)
  {
    HoldsIs(s, QUESTION_PLACEHOLDER);
    HoldsIs(s, TARGET_PLACEHOLDER);
    HoldsIs(s, DIAGRAM_PLACEHOLDER);
    HoldsIs(s, RUN_STATS_PLACEHOLDER);
    hide Holds, Contains;
  }

  /** A question is accepted exactly when it is not empty, holds no placeholder
      and does not look like an option; a focus moreover when it is one line; a
      target exactly when it is visible, of bounded size, and holds no
      placeholder. */
  lemma {:induction false} InputExactly(s: string)
    ensures ValidateQuestion(s).None? <==> s != "" && s[0] != '-' && !HoldsPlaceholder(s)
    ensures ValidateFocus(s).None? <==> s != "" && s[0] != '-' && '\n' !in s && '\r' !in s && !HoldsPlaceholder(s)
    ensures ValidateTarget(s).None? <==> !Blank(s) && |Utf8.Encode(s)| <= MAX_TARGET_BYTES && !HoldsPlaceholder(s)
  {
    HoldsPlaceholderIs(s);
    hide ContainsOrchestratorPlaceholder, HoldsPlaceholder, Blank, Utf8.Encode;
  }
}
