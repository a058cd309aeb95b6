/** The curator's diagram fields: reading them against the recorded rounds. */
module ForumDiagram {
  import opened Outcomes
  import opened ForumIds
  import opened ForumManifest
  import ForumSections
  import ForumText
  import Text

  datatype Json =
    | Null | Bool(b: bool) | Integer(value: int) | Fraction
    | Str(text: string) | Arr(items: seq<Json>) | Obj(fields: map<string, Json>)

  function Get(v: Json, key: string): Option<Json> {
    if v.Obj? && key in v.fields then Some(v.fields[key]) else None
  }

  function GetText(v: Json, key: string): Option<string> {
    var x := Get(v, key);
    if x.Some? && x.value.Str? then Some(x.value.text) else None
  }

  function GetItems(v: Json, key: string): Option<seq<Json>> {
    var x := Get(v, key);
    if x.Some? && x.value.Arr? then Some(x.value.items) else None
  }

  /** The entries under a key; anything but an array counts as none. */
  function Entries(v: Json, key: string): seq<Json> {
    var x := GetItems(v, key);
    if x.Some? then x.value else []
  }

  function TaskOf(item: Json): string {
    var t := GetText(item, "task");
    if t.Some? then t.value else ""
  }

  predicate Visible(x: Option<string>) { x.Some? && !Text.Blank(x.value) }

  function LineText(v: Json): Option<string> { if v.Str? then Some(v.text) else None }

  /** One to four visible lines, clipped. */
  function Excerpt(item: Json): Option<seq<string>> {
    var lines := GetItems(item, "excerpt_lines");
    if lines.None? || !(1 <= |lines.value| <= 4) || exists i :: 0 <= i < |lines.value| && !Visible(LineText(lines.value[i])) then None
    else Some(seq(|lines.value|, i requires 0 <= i < |lines.value| =>
      ForumText.Clipped(if lines.value[i].Str? then lines.value[i].text else "", 43)))
  }

  datatype Bullet = Bullet(tag: string, text: string)

  predicate BulletOk(v: Json) {
    var tag := GetText(v, "tag");
    (tag == Some("?") || tag == Some("+") || tag == Some("=")) && Visible(GetText(v, "text"))
  }

  /** Three bullets, one for each of the three tags. */
  function Deltas(item: Json): Option<seq<Bullet>> {
    var bullets := GetItems(item, "delta_bullets");
    if bullets.None? || |bullets.value| != 3 then None
    else
      var b := bullets.value;
      if !(BulletOk(b[0]) && BulletOk(b[1]) && BulletOk(b[2])) then None
      else if (set i | 0 <= i < 3 :: GetText(b[i], "tag")) != {Some("?"), Some("+"), Some("=")} then None
      else Some([BulletOf(b[0]), BulletOf(b[1]), BulletOf(b[2])])
  }

  function BulletOf(v: Json): Bullet
    requires BulletOk(v)
  {
    Bullet(GetText(v, "tag").value, ForumText.Clipped(GetText(v, "text").value, 43))
  }

  /** Visible text. */
  predicate VisibleText(v: Json) { v.Str? && !Text.Blank(v.text) }

  /** An excerpt is read exactly from one to four visible lines; it is these
      lines, each clipped. */
  lemma {:induction false} ExcerptExactly(item: Json)
    ensures Excerpt(item).Some?
      <==> (item.Obj? && "excerpt_lines" in item.fields && item.fields["excerpt_lines"].Arr?
            && 1 <= |item.fields["excerpt_lines"].items| <= 4
            && forall v :: v in item.fields["excerpt_lines"].items ==> VisibleText(v))
    ensures Excerpt(item).Some? ==>
      var lines, out := item.fields["excerpt_lines"].items, Excerpt(item).value;
      |out| == |lines| && forall i :: 0 <= i < |lines| ==> out[i] == ForumText.Clipped(lines[i].text, 43)
  {
    hide Text.Blank, ForumText.Clipped;
    if item.Obj? && "excerpt_lines" in item.fields && item.fields["excerpt_lines"].Arr? {
      var lines := item.fields["excerpt_lines"].items;
      assert GetItems(item, "excerpt_lines") == Some(lines);
      forall i | 0 <= i < |lines| ensures Visible(LineText(lines[i])) <==> VisibleText(lines[i]) { assert lines[i] in lines; }
    }
  }

  /** A bullet with its tag and visible text. */
  predicate IsBullet(v: Json, tag: string) { GetText(v, "tag") == Some(tag) && Visible(GetText(v, "text")) }

  predicate HasBullet(bullets: seq<Json>, tag: string) { exists i :: 0 <= i < |bullets| && IsBullet(bullets[i], tag) }

  /** Bullets are read exactly when there are three and each of the three tags
      is on one of them; they keep their order, and their texts are clipped. */
  lemma {:induction false} DeltasExactly(item: Json)
    ensures var bullets := GetItems(item, "delta_bullets");
      Deltas(item).Some? <==> (bullets.Some? && |bullets.value| == 3
                            && HasBullet(bullets.value, "?") && HasBullet(bullets.value, "+") && HasBullet(bullets.value, "="))
    ensures Deltas(item).Some? ==>
      var bullets, out := GetItems(item, "delta_bullets").value, Deltas(item).value;
      |out| == 3 && forall i :: 0 <= i < 3 ==>
        IsBullet(bullets[i], out[i].tag) && out[i].text == ForumText.Clipped(GetText(bullets[i], "text").value, 43)
  {
    hide Text.Blank, ForumText.Clipped, GetText, GetItems;
    var bullets := GetItems(item, "delta_bullets");
    if bullets.Some? && |bullets.value| == 3 { ThreeTags(bullets.value); }
  }

  lemma {:induction false} ThreeTags(b: seq<Json>)
    requires |b| == 3
    ensures HasBullet(b, "?") && HasBullet(b, "+") && HasBullet(b, "=")
      <==> (BulletOk(b[0]) && BulletOk(b[1]) && BulletOk(b[2])
            && (set i | 0 <= i < 3 :: GetText(b[i], "tag")) == {Some("?"), Some("+"), Some("=")})
  {
    hide GetText, Visible;
    var tags := set i | 0 <= i < 3 :: GetText(b[i], "tag");
    assert tags == {GetText(b[0], "tag"), GetText(b[1], "tag"), GetText(b[2], "tag")};
    TagsDiffer();
    if HasBullet(b, "?") && HasBullet(b, "+") && HasBullet(b, "=") {
      var i :| 0 <= i < 3 && IsBullet(b[i], "?");
      var j :| 0 <= j < 3 && IsBullet(b[j], "+");
      var k :| 0 <= k < 3 && IsBullet(b[k], "=");
      assert i != j && j != k && i != k;
    }
    if BulletOk(b[0]) && BulletOk(b[1]) && BulletOk(b[2]) && tags == {Some("?"), Some("+"), Some("=")} {
      TagThere(b, tags, "?");
      TagThere(b, tags, "+");
      TagThere(b, tags, "=");
    }
  }

  lemma {:induction false} TagsDiffer()
    ensures "?" != "+" && "?" != "=" && "+" != "="
  {
    assert "?"[0] != "+"[0] && "?"[0] != "="[0] && "+"[0] != "="[0];
  }

  lemma {:induction false} TagThere(b: seq<Json>, tags: set<Option<string>>, tag: string)
    requires |b| == 3 && BulletOk(b[0]) && BulletOk(b[1]) && BulletOk(b[2])
    requires tags == {GetText(b[0], "tag"), GetText(b[1], "tag"), GetText(b[2], "tag")} && Some(tag) in tags
    ensures HasBullet(b, tag)
  {
    var i := if GetText(b[0], "tag") == Some(tag) then 0 else if GetText(b[1], "tag") == Some(tag) then 1 else 2;
    assert IsBullet(b[i], tag);
  }

  function TasksOf(items: seq<Json>): (ts: seq<string>)
    ensures |ts| == |items| && forall i :: 0 <= i < |items| ==> ts[i] == TaskOf(items[i])
  {
    seq(|items|, i requires 0 <= i < |items| => TaskOf(items[i]))
  }

  /** The entries name every task once and nothing else, and each can be read. */
  ghost predicate ExactCover<T>(items: seq<Json>, tasks: seq<string>, read: Json -> Option<T>) {
    (forall i :: 0 <= i < |items| ==> TaskOf(items[i]) in tasks && read(items[i]).Some?)
    && Distinct(TasksOf(items)) && forall t :: t in tasks ==> t in TasksOf(items)
  }

  ghost predicate Reads<T>(items: seq<Json>, read: Json -> Option<T>, entries: map<string, T>) {
    forall i :: 0 <= i < |items| ==> TaskOf(items[i]) in entries && read(items[i]) == Some(entries[TaskOf(items[i])])
  }

  function Missing(tasks: seq<string>, keys: set<string>): (t: Option<string>)
    ensures if t.Some? then t.value in tasks && t.value !in keys else forall x :: x in tasks ==> x in keys
  {
    if tasks == [] then None else if tasks[0] !in keys then Some(tasks[0]) else Missing(tasks[1..], keys)
  }

  /** The loop over the entries of one stage: it accepts exactly the exact
      covers, and the map then holds each task's own entry. */
  method CollectEntries<T>(items: seq<Json>, tasks: seq<string>, read: Json -> Option<T>) returns (r: Option<map<string, T>>)
    ensures r.Some? <==> ExactCover(items, tasks, read)
    ensures r.Some? ==> forall t :: t in r.value <==> t in tasks
    ensures r.Some? ==> Reads(items, read, r.value)
  {
    hide TaskOf, TasksOf, Distinct, ExactCover, Reads, ReadSoFar;
    var entries: map<string, T> := map[];
    var i := 0;
    NothingRead(items, tasks, read);
    while i < |items|
      invariant 0 <= i <= |items| && ReadSoFar(items, tasks, read, entries, i)
    {
      var task, value := TaskOf(items[i]), read(items[i]);
      if task in entries || task !in tasks || value.None? {
        NoCover(items, tasks, read, entries, i);
        return None;
      }
      ReadOneMore(items, tasks, read, entries, i);
      entries := entries[task := value.value];
      i := i + 1;
    }
    AllRead(items, tasks, read, entries);
    if Missing(tasks, entries.Keys).Some? { return None; }
    r := Some(entries);
  }

  /** The first `n` entries are read, under different names, and nothing else is. */
  ghost predicate ReadSoFar<T>(items: seq<Json>, tasks: seq<string>, read: Json -> Option<T>, entries: map<string, T>, n: nat) {
    n <= |items| && Reads(items[..n], read, entries) && Distinct(TasksOf(items[..n]))
    && (forall t :: t in entries ==> t in TasksOf(items[..n]) && t in tasks)
  }

  lemma {:induction false} NothingRead<T>(items: seq<Json>, tasks: seq<string>, read: Json -> Option<T>)
    ensures ReadSoFar(items, tasks, read, map[], 0)
  {
  }

  lemma {:induction false} ReadOneMore<T>(items: seq<Json>, tasks: seq<string>, read: Json -> Option<T>, entries: map<string, T>, n: nat)
    requires n < |items| && ReadSoFar(items, tasks, read, entries, n)
    requires TaskOf(items[n]) in tasks && TaskOf(items[n]) !in entries && read(items[n]).Some?
    ensures ReadSoFar(items, tasks, read, entries[TaskOf(items[n]) := read(items[n]).value], n + 1)
  {
    hide TaskOf;
    var front, more := items[..n], items[..n + 1];
    assert more == front + [items[n]];
    var names, all := TasksOf(front), TasksOf(more);
    assert all == names + [TaskOf(items[n])];
    forall k | 0 <= k < n ensures names[k] in entries { assert TaskOf(front[k]) in entries; }
  }

  lemma {:induction false} NoCover<T>(items: seq<Json>, tasks: seq<string>, read: Json -> Option<T>, entries: map<string, T>, n: nat)
    requires n < |items| && ReadSoFar(items, tasks, read, entries, n)
    requires TaskOf(items[n]) in entries || TaskOf(items[n]) !in tasks || read(items[n]).None?
    ensures !ExactCover(items, tasks, read)
  {
    hide TaskOf, Reads;
    var names := TasksOf(items);
    if TaskOf(items[n]) in entries {
      var k :| 0 <= k < n && TasksOf(items[..n])[k] == names[n];
      assert names[k] == names[n];
    }
  }

  lemma {:induction false} AllRead<T>(items: seq<Json>, tasks: seq<string>, read: Json -> Option<T>, entries: map<string, T>)
    requires ReadSoFar(items, tasks, read, entries, |items|)
    ensures ExactCover(items, tasks, read) <==> Missing(tasks, entries.Keys).None?
    ensures Reads(items, read, entries)
    ensures forall t :: t in entries ==> t in tasks
  {
    assert items[..|items|] == items;
    hide TaskOf, Distinct;
    forall k | 0 <= k < |items| ensures TaskOf(items[k]) in tasks && read(items[k]).Some? && TasksOf(items)[k] in entries {
      assert TaskOf(items[k]) in entries;
    }
  }

  // ---- the fields of one round ----

  datatype Fields = Fields(extracts: map<string, seq<string>>, reviews: map<string, seq<Bullet>>, summary: string,
                           headline: Option<string>)

  datatype DiagramError =
    | ModelSvg | NotAnObject | BadExtracts | BadReviews | NoSummary | WrongCount | BadRoundNumber | UnknownRound | WrongKind
    | ReviewWithExtracts | ReviewsMissing | ExtractsMissing | OutOfOrder | NeedsRoundsArray

  /** A title that can be used; any other is passed over. */
  function Headline(data: Json): Option<string> {
    var h := GetText(data, "headline");
    if h.None? then None
    else
      var t := Text.Trim(h.value);
      if t == "" || '\n' in t || '\r' in t then None else Some(ForumText.Clipped(t, 80))
  }

  /** A headline that is one visible line. */
  predicate OneLine(headline: Option<string>) {
    headline.Some? && Text.Trim(headline.value) != "" && '\n' !in Text.Trim(headline.value) && '\r' !in Text.Trim(headline.value)
  }

  /** The summary is the visible one that was given, clipped; the headline is the
      trimmed and clipped one if it is one visible line, and none otherwise. */
  predicate Titled(summary: string, headline: Option<string>, data: Json) {
    var s, h := GetText(data, "curator_summary"), GetText(data, "headline");
    Visible(s) && summary == ForumText.Clipped(s.value, 72)
    && headline == if OneLine(h) then Some(ForumText.Clipped(Text.Trim(h.value), 80)) else None
  }

  lemma {:induction false} TitledWhen(data: Json)
    requires Visible(GetText(data, "curator_summary"))
    ensures Titled(ForumText.Clipped(GetText(data, "curator_summary").value, 72), Headline(data), data)
  {
    hide Text.Trim, ForumText.Clipped, GetText, Text.Blank;
  }

  ghost predicate Acceptable(data: Json, extracts: seq<string>, reviews: seq<string>) {
    data.Obj? && ExactCover(Entries(data, "extracts"), extracts, Excerpt)
    && ExactCover(Entries(data, "reviews"), reviews, Deltas) && Visible(GetText(data, "curator_summary"))
  }

  /** The fields cover both stages. */
  ghost predicate Complete(f: Fields, extracts: seq<string>, reviews: seq<string>) {
    (forall t :: t in f.extracts <==> t in extracts) && (forall t :: t in f.reviews <==> t in reviews)
  }

  method ParseDiagramFields(data: Json, extracts: seq<string>, reviews: seq<string>) returns (r: Result<Fields, DiagramError>)
    ensures r.Ok? <==> Acceptable(data, extracts, reviews)
    ensures r.Ok? ==> Complete(r.value, extracts, reviews)
    ensures r.Ok? ==> Reads(Entries(data, "extracts"), Excerpt, r.value.extracts)
    ensures r.Ok? ==> Reads(Entries(data, "reviews"), Deltas, r.value.reviews)
    ensures r.Ok? ==> Titled(r.value.summary, r.value.headline, data)
    ensures r.Err? ==> r.error == NotAnObject || r.error == BadExtracts || r.error == BadReviews || r.error == NoSummary
  {
    hide ExactCover, Reads, Excerpt, Deltas, Headline, Titled;
    if !data.Obj? { return Err(NotAnObject); }
    var e := CollectEntries(Entries(data, "extracts"), extracts, Excerpt);
    if e.None? { return Err(BadExtracts); }
    var v := CollectEntries(Entries(data, "reviews"), reviews, Deltas);
    if v.None? { return Err(BadReviews); }
    var summary := GetText(data, "curator_summary");
    if !Visible(summary) { return Err(NoSummary); }
    TitledWhen(data);
    r := Ok(Fields(e.value, v.value, ForumText.Clipped(summary.value, 72), Headline(data)));
  }

  // ---- all rounds ----

  datatype RoundFields = RoundFields(number: nat, kind: Kind, fields: Fields)

  datatype Diagram = Diagram(rounds: seq<RoundFields>, summary: string, headline: Option<string>)

  function Slug(k: Kind): string { match k case Ask => "ask" case Critique => "critique" case Review => "review" }

  function ExtractTasks(r: Round): seq<string> { if r.kind == Review then [] else r.firstStage }

  function ReviewTasks(r: Round): seq<string> { if r.kind == Review then r.review else r.crossReview }

  /** A positive round number, or zero for anything else. */
  function RoundNumber(entry: Json): nat {
    var n := Get(entry, "round");
    if n.Some? && n.value.Integer? && 0 <= n.value.value < USIZE then n.value.value else 0
  }

  function WithSummary(entry: Json): Json {
    if entry.Obj? then Obj(entry.fields["curator_summary" := Str("round")]) else entry
  }

  /** The entry belongs to the round of its number and covers its tasks. */
  ghost predicate Matches(f: RoundFields, rounds: seq<Round>) {
    1 <= f.number <= |rounds| && rounds[f.number - 1].number == f.number && f.kind == rounds[f.number - 1].kind
    && Complete(f.fields, ExtractTasks(rounds[f.number - 1]), ReviewTasks(rounds[f.number - 1]))
  }

  /** The fields are what the entry says. */
  ghost predicate FromEntry(f: RoundFields, entry: Json) {
    f.number == RoundNumber(entry) && GetText(entry, "kind") == Some(Slug(f.kind))
    && Says(f.fields, entry)
  }

  /** The entries of both stages are what the data say. */
  ghost predicate Says(fields: Fields, data: Json) {
    Reads(Entries(data, "extracts"), Excerpt, fields.extracts) && Reads(Entries(data, "reviews"), Deltas, fields.reviews)
  }

  lemma {:induction false} SummaryAside(entry: Json)
    ensures Entries(WithSummary(entry), "extracts") == Entries(entry, "extracts")
    ensures Entries(WithSummary(entry), "reviews") == Entries(entry, "reviews")
  {
  }

  /** The entry names a known round and its kind, has the parts that kind asks
      for and no others, and covers its tasks. */
  ghost predicate EntryOk(entry: Json, rounds: seq<Round>) {
    var n := RoundNumber(entry);
    1 <= n <= |rounds| && rounds[n - 1].number == n && GetText(entry, "kind") == Some(Slug(rounds[n - 1].kind))
    && (if rounds[n - 1].kind == Review then Get(entry, "extracts").None? && Get(entry, "reviews").Some?
        else Get(entry, "extracts").Some?)
    && Acceptable(WithSummary(entry), ExtractTasks(rounds[n - 1]), ReviewTasks(rounds[n - 1]))
  }

  method ReadEntry(entry: Json, rounds: seq<Round>, seen: set<nat>) returns (r: Result<RoundFields, DiagramError>)
    ensures r.Ok? <==> RoundNumber(entry) !in seen && EntryOk(entry, rounds)
    ensures r.Ok? ==> Matches(r.value, rounds) && r.value.number !in seen && FromEntry(r.value, entry)
    ensures r.Err? ==> r.error != OutOfOrder
  {
    SummaryAside(entry);
    hide Complete, Acceptable, Reads, Slug, Entries, WithSummary;
    var n := RoundNumber(entry);
    if n == 0 || n in seen { return Err(BadRoundNumber); }
    if n > |rounds| || rounds[n - 1].number != n { return Err(UnknownRound); }
    var expected := rounds[n - 1];
    if GetText(entry, "kind") != Some(Slug(expected.kind)) { return Err(WrongKind); }
    if expected.kind == Review {
      if Get(entry, "extracts").Some? { return Err(ReviewWithExtracts); }
      if Get(entry, "reviews").None? { return Err(ReviewsMissing); }
    } else if Get(entry, "extracts").None? {
      return Err(ExtractsMissing);
    }
    var fields := ParseDiagramFields(WithSummary(entry), ExtractTasks(expected), ReviewTasks(expected));
    if fields.Err? { return Err(fields.error); }
    r := Ok(RoundFields(n, expected.kind, fields.value));
  }

  // ---- ordering ----

  /** Insert behind the entries with smaller or equal numbers. */
  function Insert(f: RoundFields, sorted: seq<RoundFields>): (r: seq<RoundFields>)
    ensures |r| == |sorted| + 1
  {
    if sorted == [] || f.number < sorted[0].number then [f] + sorted else [sorted[0]] + Insert(f, sorted[1..])
  }

  function SortByNumber(parsed: seq<RoundFields>): (r: seq<RoundFields>)
    ensures |r| == |parsed|
  {
    if parsed == [] then [] else Insert(parsed[|parsed| - 1], SortByNumber(parsed[..|parsed| - 1]))
  }

  predicate Increasing(s: seq<RoundFields>) { forall i, j :: 0 <= i < j < |s| ==> s[i].number < s[j].number }

  predicate NumbersDiffer(s: seq<RoundFields>) { forall i, j :: 0 <= i < j < |s| ==> s[i].number != s[j].number }

  lemma {:induction false} InsertMembers(f: RoundFields, s: seq<RoundFields>, x: RoundFields)
    ensures x in Insert(f, s) <==> x == f || x in s
  {
    if s != [] && f.number >= s[0].number {
      InsertMembers(f, s[1..], x);
      assert s == [s[0]] + s[1..];
    }
  }

  lemma {:induction false} InsertIncreasing(f: RoundFields, s: seq<RoundFields>)
    requires Increasing(s) && forall i :: 0 <= i < |s| ==> s[i].number != f.number
    ensures Increasing(Insert(f, s))
  {
    if s != [] && f.number >= s[0].number {
      var rest := Insert(f, s[1..]);
      InsertIncreasing(f, s[1..]);
      forall j | 0 <= j < |rest| ensures rest[j].number > s[0].number {
        InsertMembers(f, s[1..], rest[j]);
      }
    }
  }

  /** Sorting keeps the entries and puts them in increasing order. */
  lemma {:induction false} SortShape(parsed: seq<RoundFields>)
    requires NumbersDiffer(parsed)
    ensures Increasing(SortByNumber(parsed))
    ensures forall x :: x in SortByNumber(parsed) <==> x in parsed
  {
    if parsed != [] {
      var n := |parsed| - 1;
      var front, last, sorted := parsed[..n], parsed[n], SortByNumber(parsed[..n]);
      SortShape(front);
      forall i | 0 <= i < n ensures sorted[i].number != last.number { FrontDiffers(parsed, sorted[i]); }
      InsertIncreasing(last, sorted);
      forall x ensures x in Insert(last, sorted) <==> x in parsed {
        InsertMembers(last, sorted, x);
        assert parsed == front + [last];
      }
    }
  }

  lemma {:induction false} FrontDiffers(parsed: seq<RoundFields>, x: RoundFields)
    requires parsed != [] && NumbersDiffer(parsed) && x in parsed[..|parsed| - 1]
    ensures x.number != parsed[|parsed| - 1].number
  {
    var i :| 0 <= i < |parsed| - 1 && parsed[..|parsed| - 1][i] == x;
    assert parsed[i] == x;
  }

  /** Different numbers between 1 and the count, in order, are 1, 2, 3, ... */
  lemma {:induction false} CountedIsNumbered(s: seq<RoundFields>, i: nat)
    requires Increasing(s) && i < |s| && forall k :: 0 <= k < |s| ==> 1 <= s[k].number <= |s|
    ensures s[i].number == i + 1
  {
    AtLeast(s, i);
    AtMost(s, i);
  }

  lemma {:induction false} AtLeast(s: seq<RoundFields>, i: nat)
    requires Increasing(s) && i < |s| && 1 <= s[0].number
    ensures s[i].number >= i + 1
  {
    if i > 0 { AtLeast(s, i - 1); }
  }

  lemma {:induction false} AtMost(s: seq<RoundFields>, i: nat)
    requires Increasing(s) && i < |s| && s[|s| - 1].number <= |s|
    ensures s[i].number <= i + 1
    decreases |s| - i
  {
    if i < |s| - 1 { AtMost(s, i + 1); }
  }

  /** The entries of a diagram, one for each round and in the rounds' order. */
  ghost predicate Permutation(fs: seq<RoundFields>, rounds: seq<Round>) {
    |fs| == |rounds| && forall i :: 0 <= i < |fs| ==> fs[i].number == i + 1 && Matches(fs[i], rounds)
  }

  lemma {:induction false} SortedMatches(parsed: seq<RoundFields>, rounds: seq<Round>)
    requires |parsed| == |rounds| && NumbersDiffer(parsed) && forall i :: 0 <= i < |parsed| ==> Matches(parsed[i], rounds)
    ensures Permutation(SortByNumber(parsed), rounds)
  {
    var s := SortByNumber(parsed);
    SortShape(parsed);
    hide SortByNumber, Increasing, NumbersDiffer, Complete;
    forall i | 0 <= i < |s| ensures Matches(s[i], rounds) { assert s[i] in parsed; }
    forall i | 0 <= i < |s| ensures s[i].number == i + 1 { CountedIsNumbered(s, i); }
  }

  /** Every entry stands in the place its number says. */
  ghost predicate Placed(fs: seq<RoundFields>, entries: seq<Json>) {
    forall j :: 0 <= j < |entries| ==> 1 <= RoundNumber(entries[j]) <= |fs| && FromEntry(fs[RoundNumber(entries[j]) - 1], entries[j])
  }

  lemma {:induction false} SortedPlaced(parsed: seq<RoundFields>, rounds: seq<Round>, entries: seq<Json>)
    requires NumbersDiffer(parsed) && |parsed| == |entries| && Permutation(SortByNumber(parsed), rounds)
    requires forall k :: 0 <= k < |parsed| ==> FromEntry(parsed[k], entries[k])
    ensures Placed(SortByNumber(parsed), entries)
  {
    var s := SortByNumber(parsed);
    SortShape(parsed);
    hide SortByNumber, Increasing, NumbersDiffer, Reads, Matches, Slug;
    forall j | 0 <= j < |entries| ensures 1 <= RoundNumber(entries[j]) <= |s| && FromEntry(s[RoundNumber(entries[j]) - 1], entries[j]) {
      assert parsed[j] in s;
      var i :| 0 <= i < |s| && s[i] == parsed[j];
      assert s[i].number == i + 1;
    }
  }

  lemma {:induction false} NoNumbers()
    ensures NumbersDiffer([])
  {
  }

  lemma {:induction false} OneMoreNumber(parsed: seq<RoundFields>, f: RoundFields)
    requires NumbersDiffer(parsed) && forall k :: 0 <= k < |parsed| ==> parsed[k].number != f.number
    ensures NumbersDiffer(parsed + [f])
  {
  }

  predicate NumbersOnce(entries: seq<Json>) {
    forall i, j :: 0 <= i < j < |entries| ==> RoundNumber(entries[i]) != RoundNumber(entries[j])
  }

  /** The fields of the only round, or one good entry for each round and a
      visible summary. */
  ghost predicate Loadable(data: Json, rounds: seq<Round>) {
    var entries := GetItems(data, "rounds");
    data.Obj?
    && if entries.None? then |rounds| == 1 && Acceptable(data, rounds[0].firstStage, rounds[0].crossReview)
       else
         |entries.value| == |rounds| && NumbersOnce(entries.value) && Visible(GetText(data, "curator_summary"))
         && forall i :: 0 <= i < |rounds| ==> EntryOk(entries.value[i], rounds)
  }

  lemma {:induction false} EntryNumber(f: RoundFields, entry: Json)
    requires FromEntry(f, entry)
    ensures RoundNumber(entry) == f.number
  {
  }

  lemma {:induction false} NumbersAgree(parsed: seq<RoundFields>, entries: seq<Json>)
    requires NumbersDiffer(parsed) && |parsed| == |entries|
    requires forall k :: 0 <= k < |parsed| ==> RoundNumber(entries[k]) == parsed[k].number
    ensures NumbersOnce(entries)
  {
    hide RoundNumber;
  }

  /** Reading the diagram of a forum: the text of the file and what it parses
      to. It is accepted if and only if it holds no model-authored SVG and is
      loadable. Then it has exactly one entry for each round, in order, each
      covering its round's tasks; the check of the order after sorting can
      never fail. */
  method LoadDiagram(raw: string, data: Json, rounds: seq<Round>) returns (r: Result<Diagram, DiagramError>)
    requires rounds != [] ==> rounds[0].kind != Review && rounds[0].number == 1
    ensures r.Ok? <==> !ForumSections.HoldsModelSvg(raw) && Loadable(data, rounds)
    ensures r.Ok? ==> Permutation(r.value.rounds, rounds)
    ensures r.Ok? && GetItems(data, "rounds").Some? ==> Placed(r.value.rounds, GetItems(data, "rounds").value)
    ensures r.Ok? && GetItems(data, "rounds").None? ==> |r.value.rounds| == 1 && Says(r.value.rounds[0].fields, data)
    ensures r.Ok? ==> Titled(r.value.summary, r.value.headline, data)
    ensures r != Err(OutOfOrder)
  {
    hide Matches, Complete, SortByNumber, Acceptable, Reads, Headline, FromEntry, NumbersDiffer, EntryOk, RoundNumber, Titled;
    var svg := ForumSections.ContainsModelSvg(raw);
    if svg { return Err(ModelSvg); }
    if !data.Obj? { return Err(NotAnObject); }
    var entries := GetItems(data, "rounds");
    if entries.None? {
      if |rounds| != 1 { return Err(NeedsRoundsArray); }
      var fields := ParseDiagramFields(data, rounds[0].firstStage, rounds[0].crossReview);
      if fields.Err? { return Err(fields.error); }
      var only := RoundFields(1, rounds[0].kind, fields.value);
      OnlyMatches(only, rounds);
      return Ok(Diagram([only], fields.value.summary, fields.value.headline));
    }
    if |entries.value| != |rounds| { return Err(WrongCount); }
    var seen: set<nat> := {};
    var parsed: seq<RoundFields> := [];
    var i := 0;
    NoNumbers();
    while i < |rounds|
      invariant 0 <= i <= |rounds| && |parsed| == i && NumbersDiffer(parsed)
      invariant forall k :: 0 <= k < i ==>
        Matches(parsed[k], rounds) && parsed[k].number in seen && FromEntry(parsed[k], entries.value[k])
      invariant forall k :: 0 <= k < i ==> EntryOk(entries.value[k], rounds) && RoundNumber(entries.value[k]) == parsed[k].number
      invariant forall n :: n in seen ==> exists k :: 0 <= k < i && RoundNumber(entries.value[k]) == n
    {
      var entry := ReadEntry(entries.value[i], rounds, seen);
      if entry.Err? { return Err(entry.error); }
      OneMoreNumber(parsed, entry.value);
      EntryNumber(entry.value, entries.value[i]);
      seen := seen + {entry.value.number};
      parsed := parsed + [entry.value];
      i := i + 1;
    }
    NumbersAgree(parsed, entries.value);
    var sorted := SortByNumber(parsed);
    SortedMatches(parsed, rounds);
    SortedPlaced(parsed, rounds, entries.value);
    if exists k :: 0 <= k < |sorted| && sorted[k].number != k + 1 { return Err(OutOfOrder); }
    var summary := GetText(data, "curator_summary");
    if !Visible(summary) { return Err(NoSummary); }
    TitledWhen(data);
    r := Ok(Diagram(sorted, ForumText.Clipped(summary.value, 72), Headline(data)));
  }

  lemma {:induction false} OnlyMatches(f: RoundFields, rounds: seq<Round>)
    requires |rounds| == 1 && rounds[0].kind != Review && rounds[0].number == 1
    requires f.number == 1 && f.kind == rounds[0].kind && Complete(f.fields, rounds[0].firstStage, rounds[0].crossReview)
    ensures Matches(f, rounds)
  {
    hide Complete;
  }

  // ---- the renderer's lookups ----

  /** For a valid manifest and an accepted diagram the renderer finds an entry
      for every report it draws: each first-stage report of an answer round has
      its excerpt, and each review its bullets. */
  lemma {:induction false} LookupsDefined(m: Manifest, fs: seq<RoundFields>, index: nat)
    requires ValidManifest(m) && Permutation(fs, m.rounds) && index < |m.rounds|
    ensures fs[index].number == m.rounds[index].number && fs[index].kind == m.rounds[index].kind
    ensures CountsMatch(m.rounds[index]) && RoundReports(m.rounds[index]).Ok?
    ensures forall i :: 0 <= i < |RoundReports(m.rounds[index]).value.0| ==>
      RoundReports(m.rounds[index]).value.0[i].task in fs[index].fields.extracts
    ensures forall i :: 0 <= i < |RoundReports(m.rounds[index]).value.1| ==>
      RoundReports(m.rounds[index]).value.1[i].task in fs[index].fields.reviews
  {
    RoundReportsComplete(m, index);
    DrawnTasks(m, index);
    assert RoundValid(m.forum, m.rounds, index) && Matches(fs[index], m.rounds);
    hide ValidManifest, RoundValid, RoundReports, ExtractTasks, ReviewTasks;
  }

  /** The drawn reports are those of the tasks the entry covers. */
  lemma {:induction false} DrawnTasks(m: Manifest, index: nat)
    requires ValidManifest(m) && index < |m.rounds|
    ensures m.rounds[index].number == index + 1 && CountsMatch(m.rounds[index]) && RoundReports(m.rounds[index]).Ok?
    ensures forall i :: 0 <= i < |RoundReports(m.rounds[index]).value.0| ==>
      RoundReports(m.rounds[index]).value.0[i].task in ExtractTasks(m.rounds[index])
    ensures forall i :: 0 <= i < |RoundReports(m.rounds[index]).value.1| ==>
      RoundReports(m.rounds[index]).value.1[i].task in ReviewTasks(m.rounds[index])
  {
    var r := m.rounds[index];
    RoundReportsComplete(m, index);
    assert RoundValid(m.forum, m.rounds, index);
    RoundParts(m.forum, m.rounds, index);
    hide ValidManifest, RoundValid, RoundReports;
    var first, second := RoundReports(r).value.0, RoundReports(r).value.1;
    forall i | 0 <= i < |first| ensures first[i].task in ExtractTasks(r) { assert first[i].task == r.firstStage[i]; }
    var tasks := r.crossReview + r.review;
    forall i | 0 <= i < |second| ensures second[i].task in ReviewTasks(r) {
      assert second[i].task == tasks[i] && ReviewTasks(r) == tasks;
    }
  }

  /** The drawing of a review reaches back to rounds that have a place. */
  lemma {:induction false} ReviewedRoundsHavePlaces(m: Manifest, index: nat, i: nat)
    requires ValidManifest(m) && index < |m.rounds| && m.rounds[index].input.ReviewInput?
    requires i < |m.rounds[index].input.reviewed|
    ensures 1 <= m.rounds[index].input.reviewed[i] <= index
  {
    hide CountsMatch, PanelValid, TaskBelongs, FocusValid;
    assert RoundValid(m.forum, m.rounds, index);
    assert Reviewable(m.rounds, index, m.rounds[index].input.reviewed[i]);
  }
}
