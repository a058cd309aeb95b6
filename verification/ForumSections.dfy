/** What the curator's draft and the assembled document are checked for: the
    sections and their order, the raw task ids, and model-authored SVG. */
module ForumSections {
  import opened Outcomes
  import opened Text
  import ForumIds

  // ---- section titles ----

  datatype Section = Section(offset: nat, title: string)

  function Opening(): string { "<Section" }

  function TitleKey(): string { "title=\"" }

  /** The quoted title of a tag, or nothing. */
  function TitleOf(tag: string): string {
    var at := Find(tag, TitleKey());
    if at.None? then ""
    else
      var rest := tag[at.value + |TitleKey()|..];
      var end := Find(rest, "\"");
      if end.None? then "" else rest[..end.value]
  }

  /** The section tags from `offset` on, until one is not closed. */
  function SectionsFrom(mdx: string, offset: nat): seq<Section>
    requires offset <= |mdx|
    decreases |mdx| - offset
  {
    var found := Find(mdx[offset..], Opening());
    if found.None? then []
    else
      var start := offset + found.value;
      var end := Find(mdx[start..], ">");
      if end.None? then []
      else [Section(start, TitleOf(mdx[start..start + end.value]))] + SectionsFrom(mdx, start + end.value + 1)
  }

  lemma {:induction false} SectionStep(s: string, o: nat, a: nat, e: nat)
    requires o + a <= |s| && Find(s[o..], Opening()) == Some(a) && Find(s[o + a..], ">") == Some(e)
    ensures o + a + e < |s|
    ensures SectionsFrom(s, o) == [Section(o + a, TitleOf(s[o + a..o + a + e]))] + SectionsFrom(s, o + a + e + 1)
  {
    hide Opening, TitleOf, Find, Occurs;
  }

  lemma {:induction false} SectionsEnd(s: string, o: nat)
    requires o <= |s|
    ensures Find(s[o..], Opening()).None? ==> SectionsFrom(s, o) == []
    ensures Find(s[o..], Opening()).Some? && Find(s[o + Find(s[o..], Opening()).value..], ">").None? ==> SectionsFrom(s, o) == []
  {
    hide Opening, TitleOf, Find, Occurs;
  }

  method SectionTitles(mdx: string) returns (titles: seq<Section>)
    ensures titles == SectionsFrom(mdx, 0)
  {
    hide *;
    titles := [];
    var offset := 0;
    while true
      invariant offset <= |mdx| && titles + SectionsFrom(mdx, offset) == SectionsFrom(mdx, 0)
      decreases |mdx| - offset
    {
      SectionsEnd(mdx, offset);
      var found := Find(mdx[offset..], Opening());
      if found.None? { break; }
      var start := offset + found.value;
      var end := Find(mdx[start..], ">");
      if end.None? { break; }
      SectionStep(mdx, offset, found.value, end.value);
      titles := titles + [Section(start, TitleOf(mdx[start..start + end.value]))];
      offset := start + end.value + 1;
    }
  }

  /** No section opens before the first one listed. */
  lemma {:induction false} FirstSectionIsFirst(mdx: string)
    requires SectionsFrom(mdx, 0) != []
    ensures var first := SectionsFrom(mdx, 0)[0];
      Occurs(mdx, Opening(), first.offset) && forall i :: 0 <= i < first.offset ==> !Occurs(mdx, Opening(), i)
  {
    hide Opening, TitleOf;
    assert mdx[0..] == mdx;
  }

  function FirstOffset(sections: seq<Section>, title: string): (r: Option<nat>)
    ensures r.Some? <==> exists i :: 0 <= i < |sections| && sections[i].title == title
  {
    if sections == [] then None
    else if sections[0].title == title then Some(sections[0].offset)
    else
      assert forall i :: 0 < i < |sections| ==> sections[i] == sections[1..][i - 1];
      FirstOffset(sections[1..], title)
  }

  datatype SectionError = NotFirst | NotVerbatim | Missing | OutOfOrder

  /** The required titles in their order, the verbatim section first. */
  function CheckSections(mdx: string, section: string, required: seq<string>): Option<SectionError>
    requires required != []
  {
    var sections := SectionsFrom(mdx, 0);
    if sections == [] || sections[0].title != required[0] then Some(NotFirst)
    else if sections[0].offset > |mdx| || !(section <= mdx[sections[0].offset..]) then Some(NotVerbatim)
    else if exists k :: 0 <= k < |required| && FirstOffset(sections, required[k]).None? then Some(Missing)
    else if !Ordered(sections, required) then Some(OutOfOrder)
    else None
  }

  predicate Ordered(sections: seq<Section>, required: seq<string>)
    requires forall k :: 0 <= k < |required| ==> FirstOffset(sections, required[k]).Some?
  {
    forall k :: 0 < k < |required| ==> FirstOffset(sections, required[k - 1]).value < FirstOffset(sections, required[k]).value
  }

  /** In an accepted document the first section of all is the verbatim one. */
  lemma {:induction false} VerbatimFirst(mdx: string, section: string, required: seq<string>)
    requires required != [] && CheckSections(mdx, section, required).None?
    ensures exists o :: Occurs(mdx, section, o) && Occurs(mdx, Opening(), o) && forall i :: 0 <= i < o ==> !Occurs(mdx, Opening(), i)
  {
    hide FirstOffset, SectionsFrom, Opening;
    FirstSectionIsFirst(mdx);
    var o := SectionsFrom(mdx, 0)[0].offset;
    assert mdx[o..o + |section|] == section;
  }

  // ---- raw task ids ----

  /** Neither a digit nor a dot goes on at `k`. */
  predicate Ends(s: string, k: nat) { k < |s| ==> s[k] != '.' && !ForumIds.Digit(s[k]) }

  /** Some match, counted from the left without overlaps, is the whole id. */
  predicate TaskIsPresent(s: string, task: string)
    decreases |s|
  {
    task == "" ||
    var at := Find(s, task);
    at.Some? && (Ends(s, at.value + |task|) || TaskIsPresent(s[at.value + |task|..], task))
  }

  lemma CharAt(s: string, p: string, i: nat, k: nat)
    requires Occurs(s, p, i) && k < |p|
    ensures i + k < |s| && s[i + k] == p[k] && p[k] in p
  {
    assert s[i..i + |p|][k] == s[i + k];
  }

  /** An id on a line of its own is present. */
  lemma {:induction false} TaskOnLine(s: string, task: string, p: nat)
    requires task != "" && Occurs(s, task, p) && Ends(s, p + |task|) && '\n' !in task && (p > 0 ==> s[p - 1] == '\n')
    ensures TaskIsPresent(s, task)
    decreases |s|
  {
    hide *;
    FindsEarliest(s, task, p);
    var at := Find(s, task).value;
    var end := at + |task|;
    if at < p {
      forall k | at <= k < end ensures s[k] != '\n' { CharAt(s, task, at, k - at); }
      BehindMatch(s, task, end, p);
      TaskOnLine(s[end..], task, p - end);
    }
    MatchCounts(s, task);
  }

  lemma {:induction false} BehindMatch(s: string, task: string, end: nat, p: nat)
    requires end < p && Occurs(s, task, p) && s[p - 1] == '\n'
    ensures Occurs(s[end..], task, p - end) && s[end..][p - end - 1] == '\n'
    ensures Ends(s, p + |task|) ==> Ends(s[end..], p - end + |task|)
  {
    TailOccurs(s, task, end, p - end);
  }

  lemma {:induction false} MatchCounts(s: string, task: string)
    requires Find(s, task).Some?
    requires Ends(s, Find(s, task).value + |task|) || (task != "" && TaskIsPresent(s[Find(s, task).value + |task|..], task))
    ensures TaskIsPresent(s, task)
  {
  }

  // ---- model-authored SVG ----

  predicate AsciiSpace(c: char) { c == ' ' || c == '\t' || c == '\n' || c as int == 12 || c == '\r' }

  predicate WordChar(c: char) { 'a' <= c <= 'z' || 'A' <= c <= 'Z' || ForumIds.Digit(c) || c == '_' || c == '-' }

  /** The first character from `i` on that is no ASCII white space. */
  function SkipSpace(s: string, i: nat): (k: nat)
    requires i <= |s|
    ensures i <= k <= |s| && (k < |s| ==> !AsciiSpace(s[k])) && forall j :: i <= j < k ==> AsciiSpace(s[j])
    decreases |s| - i
  {
    if i < |s| && AsciiSpace(s[i]) then SkipSpace(s, i + 1) else i
  }

  predicate SvgNameAt(s: string, k: nat) { Occurs(s, "svg", k) && (k + 3 < |s| ==> !WordChar(s[k + 3])) }

  /** An opening tag named `svg` at `i`. */
  predicate SvgTag(s: string, i: nat) { i < |s| && s[i] == '<' && SvgNameAt(s, SkipSpace(s, i + 1)) }

  function DataUri(): string { "data:image/svg+xml" }

  predicate HoldsModelSvg(value: string) {
    Find(Lower(value), DataUri()).Some? || exists i :: 0 <= i < |value| && SvgTag(Lower(value), i)
  }

  lemma NextBracket(s: string, offset: nat)
    requires offset <= |s|
    ensures var found := Find(s[offset..], "<");
      (found.Some? ==> offset + found.value < |s| && s[offset + found.value] == '<')
      && forall i :: offset <= i < (if found.Some? then offset + found.value else |s|) ==> s[i] != '<'
  {
    var t := s[offset..];
    forall i | 0 <= i < |t| ensures t[i] == '<' <==> Occurs(t, "<", i) {
      assert t[i..i + 1] == [t[i]];
    }
    assert forall i :: offset <= i < |s| ==> s[i] == t[i - offset];
  }

  method ContainsModelSvg(value: string) returns (r: bool)
    ensures r <==> HoldsModelSvg(value)
  {
    hide SvgNameAt, DataUri, Find, Occurs;
    var lower := Lower(value);
    if Find(lower, DataUri()).Some? { return true; }
    var offset := 0;
    while true
      invariant offset <= |lower| && forall i :: 0 <= i < offset ==> !SvgTag(lower, i)
      decreases |lower| - offset
    {
      var found := Find(lower[offset..], "<");
      NextBracket(lower, offset);
      if found.None? { break; }
      var at := offset + found.value;
      var index := SkipSpace(lower, at + 1);
      if SvgNameAt(lower, index) {
        assert SvgTag(lower, at);
        return true;
      }
      offset := index;
      if offset == |lower| { break; }
    }
    r := false;
  }

  // ---- text that passes ----

  function Lead(): string { "<Section title=\"" }

  function Tag(title: string): string { Lead() + title + "\">" }

  predicate PlainTitle(title: string) { forall c :: c in title ==> c == ' ' || 'a' <= c <= 'z' || 'A' <= c <= 'Z' }

  /** No section opens in this text, whatever follows it. */
  predicate NoSection(u: string) { forall i :: 0 <= i < |u| && u[i] == '<' ==> i + 1 < |u| && u[i + 1] != 'S' }

  /** Every tag opens a section, and nothing names a data URI. */
  predicate SectionsOnly(u: string) {
    ':' !in u && forall i :: 0 <= i < |u| && u[i] == '<' ==> i + 2 < |u| && u[i + 1] == 'S' && u[i + 2] == 'e'
  }

  lemma {:induction false} FindIs(s: string, p: string, k: nat)
    requires Occurs(s, p, k) && forall i :: 0 <= i < k ==> !Occurs(s, p, i)
    ensures Find(s, p) == Some(k)
  {
    FindsEarliest(s, p, k);
  }

  lemma {:induction false} NoModelSvg(s: string)
    requires SectionsOnly(s)
    ensures !HoldsModelSvg(s)
  {
    var lower := Lower(s);
    forall k ensures !Occurs(lower, DataUri(), k) {
      if Occurs(lower, DataUri(), k) { CharAt(lower, DataUri(), k, 4); }
    }
    hide Occurs, DataUri;
    forall i | 0 <= i < |s| ensures !SvgTag(lower, i) { NoSvgTag(s, i); }
  }

  lemma {:induction false} NoSvgTag(s: string, i: nat)
    requires SectionsOnly(s) && i < |s|
    ensures !SvgTag(Lower(s), i)
  {
    var lower := Lower(s);
    if s[i] == '<' {
      assert lower[i + 1] == 's' && lower[i + 2] == 'e' && SkipSpace(lower, i + 1) == i + 1;
      if Occurs(lower, "svg", i + 1) { CharAt(lower, "svg", i + 1, 1); }
    } else {
      assert lower[i] != '<';
    }
  }

  lemma {:induction false} LeadShape()
    ensures |Lead()| == 16 && Opening() <= Lead() && Lead()[9..] == TitleKey() && Occurs(Lead(), TitleKey(), 9)
    ensures forall i :: 0 <= i < 16 ==> Lead()[i] != '>'
    ensures forall i :: 0 <= i < 15 ==> Lead()[i] != '"'
    ensures |TitleKey()| == 7 && TitleKey()[6] == '"'
  {
    assert Lead()[9..16] == TitleKey();
  }

  lemma {:induction false} TagParts(title: string)
    requires PlainTitle(title)
    ensures |Tag(title)| == 18 + |title| && Opening() <= Tag(title) && Tag(title)[|title| + 17] == '>'
    ensures forall i :: 0 <= i < |title| + 17 ==> Tag(title)[i] != '>'
    ensures Tag(title)[..|title| + 17] == Lead() + (title + "\"")
  {
    LeadShape();
    hide Lead, Opening, TitleKey;
    var t := Tag(title);
    assert t == Lead() + (title + "\">");
    forall i | 16 <= i < 16 + |title| ensures t[i] != '>' { assert t[i] == title[i - 16] && title[i - 16] in title; }
  }

  lemma {:induction false} TitleOfTag(title: string)
    requires PlainTitle(title)
    ensures TitleOf(Lead() + (title + "\"")) == title
  {
    var tag, rest := Lead() + (title + "\""), title + "\"";
    LeadShape();
    hide Lead, TitleKey;
    KeyAt(rest);
    assert tag[16..] == rest;
    forall i | 0 <= i < |title| ensures !Occurs(rest, "\"", i) {
      assert rest[i] == title[i] && title[i] in title;
      if Occurs(rest, "\"", i) { CharAt(rest, "\"", i, 0); }
    }
    assert rest[|title|..|title| + 1] == "\"";
    FindIs(rest, "\"", |title|);
    hide Find;
  }

  lemma {:induction false} KeyAt(rest: string)
    ensures Find(Lead() + rest, TitleKey()) == Some(9)
  {
    LeadShape();
    hide Lead, TitleKey, Find;
    var tag := Lead() + rest;
    forall i | 0 <= i < 9 ensures !Occurs(tag, TitleKey(), i) {
      assert tag[i + 6] == Lead()[i + 6];
      if Occurs(tag, TitleKey(), i) { CharAt(tag, TitleKey(), i, 6); }
    }
    assert tag[9..16] == Lead()[9..16];
    FindIs(tag, TitleKey(), 9);
  }

  lemma {:induction false} TagEnd(title: string, rest: string)
    requires PlainTitle(title)
    ensures Find(Tag(title) + rest, ">") == Some(|title| + 17)
  {
    TagParts(title);
    hide Tag, Find, PlainTitle;
    var v := Tag(title) + rest;
    forall i | 0 <= i < |title| + 17 ensures !Occurs(v, ">", i) {
      assert v[i] == Tag(title)[i];
      if Occurs(v, ">", i) { CharAt(v, ">", i, 0); }
    }
    assert v[|title| + 17..|title| + 18] == ">";
    FindIs(v, ">", |title| + 17);
  }

  /** One section further. */
  lemma {:induction false} NextSection(s: string, o: nat, u: string, title: string, rest: string)
    requires o <= |s| && s[o..] == u + (Tag(title) + rest) && NoSection(u) && PlainTitle(title)
    ensures |s| == o + |u| + |Tag(title)| + |rest| && s[o + |u| + |Tag(title)|..] == rest
    ensures SectionsFrom(s, o) == [Section(o + |u|, title)] + SectionsFrom(s, o + |u| + |Tag(title)|)
  {
    hide *;
    var tag := Tag(title);
    TagParts(title);
    TitleOfTag(title);
    TagEnd(title, rest);
    OpeningAt(u, tag, rest);
    FindIs(s[o..], Opening(), |u|);
    Slices(s, o, u, tag, rest);
    SectionStep(s, o, |u|, |title| + 17);
  }

  lemma {:induction false} Slices(s: string, o: nat, u: string, tag: string, rest: string)
    requires o <= |s| && s[o..] == u + (tag + rest) && tag != ""
    ensures |s| == o + |u| + |tag| + |rest| && s[o + |u|..] == tag + rest && s[o + |u| + |tag|..] == rest
    ensures s[o + |u|..o + |u| + |tag| - 1] == tag[..|tag| - 1]
  {
    assert s[o + |u|..] == s[o..][|u|..];
    assert s[o + |u| + |tag|..] == s[o..][|u|..][|tag|..];
  }

  lemma BothAt(s: string, i: nat)
    requires Occurs(s, Opening(), i)
    ensures i + 1 < |s| && s[i] == '<' && s[i + 1] == 'S'
  {
    CharAt(s, Opening(), i, 0);
    CharAt(s, Opening(), i, 1);
  }

  lemma {:induction false} OpeningAt(u: string, tag: string, rest: string)
    requires NoSection(u) && Opening() <= tag
    ensures Occurs(u + (tag + rest), Opening(), |u|) && forall i :: 0 <= i < |u| ==> !Occurs(u + (tag + rest), Opening(), i)
  {
    var t := u + (tag + rest);
    assert t[|u|..|u| + 8] == tag[..8];
    forall i | 0 <= i < |u| ensures !Occurs(t, Opening(), i) {
      assert t[i] == u[i] && (i + 1 < |u| ==> t[i + 1] == u[i + 1]);
      if Occurs(t, Opening(), i) { BothAt(t, i); }
    }
  }

  /** Four plain titles that differ. */
  predicate FourTitles(required: seq<string>) {
    |required| == 4 && (forall k :: 0 <= k < 4 ==> PlainTitle(required[k]))
    && forall j, k :: 0 <= j < k < 4 ==> required[j] != required[k]
  }

  /** The tags of the titles behind the first, between line breaks. */
  function Tags(required: seq<string>): string
    requires |required| == 4
  {
    "\n" + Tag(required[1]) + "\n" + Tag(required[2]) + "\n" + Tag(required[3])
  }

  /** The sections of a verbatim section followed by the other titles. */
  lemma {:induction false} FourSections(s: string, pre: string, body: string, required: seq<string>, rest: string)
    returns (b: nat, c: nat, d: nat, more: seq<Section>)
    requires FourTitles(required) && NoSection(pre) && NoSection(body)
    requires s == pre + ((Tag(required[0]) + body) + (Tags(required) + rest))
    ensures |pre| < b < c < d
    ensures SectionsFrom(s, 0) == [Section(|pre|, required[0])] + ([Section(b, required[1])] + ([Section(c, required[2])]
      + ([Section(d, required[3])] + more)))
  {
    hide *;
    TagsParts(required);
    var t0, t1, t2, t3 := Tag(required[0]), Tag(required[1]), Tag(required[2]), Tag(required[3]);
    var r2 := "\n" + (t3 + rest);
    var r1 := "\n" + (t2 + r2);
    var r0 := (body + "\n") + (t1 + r1);
    LineBreaks(body);
    Unfold(pre, t0, body, t1, t2, t3, rest);
    assert s == pre + (t0 + r0);
    assert s[0..] == s;
    NextSection(s, 0, pre, required[0], r0);
    b := |pre| + |t0| + |body| + 1;
    NextSection(s, |pre| + |t0|, body + "\n", required[1], r1);
    c := b + |t1| + 1;
    NextSection(s, b + |t1|, "\n", required[2], r2);
    d := c + |t2| + 1;
    NextSection(s, c + |t2|, "\n", required[3], rest);
    more := SectionsFrom(s, d + |t3|);
  }

  lemma {:induction false} TagsParts(required: seq<string>)
    requires FourTitles(required)
    ensures |required| == 4 && Tags(required) == "\n" + Tag(required[1]) + "\n" + Tag(required[2]) + "\n" + Tag(required[3])
    ensures PlainTitle(required[0]) && PlainTitle(required[1]) && PlainTitle(required[2]) && PlainTitle(required[3])
  {
    hide Tag, PlainTitle;
  }

  lemma {:induction false} LineBreaks(body: string)
    requires NoSection(body)
    ensures NoSection("\n") && NoSection(body + "\n")
  {
  }

  lemma {:induction false} FourOfThem(required: seq<string>)
    requires FourTitles(required)
    ensures |required| == 4
  {
  }

  /** A verbatim section followed, after any text that opens no section, by the
      other titles is accepted. */
  lemma {:induction false} FourAccepted(pre: string, body: string, gap: string, required: seq<string>, rest: string)
    requires FourTitles(required) && NoSection(pre) && NoSection(body) && NoSection(gap)
    ensures CheckSections(pre + ((Tag(required[0]) + body) + (gap + (Tags(required) + rest))), Tag(required[0]) + body, required) == None
  {
    hide *;
    JoinNoSection(body, gap);
    FourOfThem(required);
    var section, tags := Tag(required[0]) + body, Tags(required);
    var s := pre + (section + (gap + (tags + rest)));
    Regrouped(pre, Tag(required[0]), body, gap, tags, rest);
    var b, c, d, more := FourSections(s, pre, body + gap, required, rest);
    FourOffsets(required, SectionsFrom(s, 0), |pre|, b, c, d, more);
    FourChecked(s, section, required, |pre|, b, c, d);
  }

  lemma {:induction false} Regrouped(pre: string, t: string, body: string, gap: string, tags: string, rest: string)
    ensures var s := pre + ((t + body) + (gap + (tags + rest)));
      s == pre + ((t + (body + gap)) + (tags + rest)) && |pre| <= |s| && t + body <= s[|pre|..]
  {
    var s := pre + ((t + body) + (gap + (tags + rest)));
    assert s[|pre|..] == (t + body) + (gap + (tags + rest));
  }

  lemma {:induction false} FourChecked(s: string, section: string, required: seq<string>, a: nat, b: nat, c: nat, d: nat)
    requires |required| == 4 && SectionsFrom(s, 0) != [] && SectionsFrom(s, 0)[0] == Section(a, required[0])
    requires a <= |s| && section <= s[a..] && a < b < c < d
    requires FirstOffset(SectionsFrom(s, 0), required[0]) == Some(a) && FirstOffset(SectionsFrom(s, 0), required[1]) == Some(b)
    requires FirstOffset(SectionsFrom(s, 0), required[2]) == Some(c) && FirstOffset(SectionsFrom(s, 0), required[3]) == Some(d)
    ensures CheckSections(s, section, required) == None
  {
    hide SectionsFrom, FirstOffset;
  }

  lemma {:induction false} JoinNoSection(u: string, v: string)
    requires NoSection(u) && NoSection(v)
    ensures NoSection(u + v)
  {
  }

  lemma {:induction false} Unfold(pre: string, t0: string, body: string, t1: string, t2: string, t3: string, rest: string)
    ensures pre + ((t0 + body) + (("\n" + t1 + "\n" + t2 + "\n" + t3) + rest))
         == pre + (t0 + ((body + "\n") + (t1 + ("\n" + (t2 + ("\n" + (t3 + rest)))))))
  {
  }

  lemma {:induction false} FourOffsets(required: seq<string>, sections: seq<Section>, a: nat, b: nat, c: nat, d: nat, more: seq<Section>)
    requires FourTitles(required) && a < b < c < d
    requires sections == [Section(a, required[0])] + ([Section(b, required[1])] + ([Section(c, required[2])]
      + ([Section(d, required[3])] + more)))
    ensures FirstOffset(sections, required[0]) == Some(a) && FirstOffset(sections, required[1]) == Some(b)
    ensures FirstOffset(sections, required[2]) == Some(c) && FirstOffset(sections, required[3]) == Some(d)
    ensures sections[0] == Section(a, required[0])
  {
    hide PlainTitle;
    var r3 := [Section(d, required[3])] + more;
    var r2 := [Section(c, required[2])] + r3;
    var r1 := [Section(b, required[1])] + r2;
    forall k | 0 <= k < 4
      ensures FirstOffset(sections, required[k]) == if k == 0 then Some(a) else FirstOffset(r1, required[k])
      ensures k >= 1 ==> FirstOffset(r1, required[k]) == if k == 1 then Some(b) else FirstOffset(r2, required[k])
      ensures k >= 2 ==> FirstOffset(r2, required[k]) == if k == 2 then Some(c) else FirstOffset(r3, required[k])
      ensures k == 3 ==> FirstOffset(r3, required[k]) == Some(d)
    {
      assert sections[1..] == r1 && r1[1..] == r2 && r2[1..] == r3;
    }
  }

  // ---- task ids on lines ----

  function IdLines(tasks: seq<string>): string {
    if tasks == [] then "" else "\n" + tasks[0] + IdLines(tasks[1..])
  }

  /** The characters of task ids. */
  predicate IdText(s: string) { forall c :: c in s ==> 'A' <= c <= 'Z' || ForumIds.Digit(c) || c == '-' || c == '.' }

  lemma {:induction false} SplitIdText(s: string)
    requires forall p :: p in Split(s, '.') ==> IdText(p)
    ensures IdText(s)
  {
    if s != "" {
      var rest := Split(s[1..], '.');
      var all := Split(s, '.');
      if s[0] == '.' {
        assert all == [""] + rest && all[1..] == rest;
      } else {
        assert all[0] == [s[0]] + rest[0] && all[0] in all && s[0] in all[0];
        forall p | p in rest ensures IdText(p) {
          if p == rest[0] {
            forall c | c in p ensures c in all[0] { }
          } else {
            var k :| 0 < k < |rest| && rest[k] == p;
            assert all[k] == p && all[k] in all;
          }
        }
      }
      SplitIdText(s[1..]);
    }
  }

  lemma {:induction false} TaskIdText(task: string)
    requires ForumIds.TaskPathId(task)
    ensures IdText(task) && task != ""
  {
    var tail := task[|ForumIds.TaskPrefix()|..];
    var parts := Split(tail, '.');
    forall p | p in parts ensures IdText(p) {
      var k :| 0 <= k < |parts| && parts[k] == p;
      hide Split;
    }
    SplitIdText(tail);
    assert task == ForumIds.TaskPrefix() + tail;
  }

  /** A text with all the ids on lines of their own holds each of them. */
  lemma {:induction false} LinesHold(head: string, tasks: seq<string>, tail: string, k: nat)
    requires k < |tasks| && (forall t :: t in tasks ==> IdText(t) && t != "") && tail != "" && tail[0] == '\n'
    ensures TaskIsPresent(head + (IdLines(tasks) + tail), tasks[k])
    decreases |tasks|
  {
    var s, t := head + (IdLines(tasks) + tail), tasks[0];
    var rest := IdLines(tasks[1..]) + tail;
    assert s == head + ("\n" + t + rest);
    if k == 0 {
      hide TaskIsPresent, IdLines, IdText;
      LineStarts(tasks[1..], tail);
      assert t in tasks;
      FirstLine(head, t, rest);
    } else {
      assert s == (head + "\n" + t) + rest;
      LinesHold(head + "\n" + t, tasks[1..], tail, k - 1);
    }
  }

  lemma {:induction false} FirstLine(head: string, t: string, rest: string)
    requires IdText(t) && t != "" && rest != "" && rest[0] == '\n'
    ensures TaskIsPresent(head + ("\n" + t + rest), t)
  {
    var s, p := head + ("\n" + t + rest), |head| + 1;
    assert s[|head|] == '\n' && s[p..p + |t|] == t && s[p + |t|] == rest[0];
    assert '\n' !in t;
    hide TaskIsPresent, IdText;
    TaskOnLine(s, t, p);
  }

  lemma {:induction false} LineStarts(tasks: seq<string>, tail: string)
    requires tail != "" && tail[0] == '\n'
    ensures (IdLines(tasks) + tail)[0] == '\n'
  {
  }

  lemma {:induction false} LinesPlain(tasks: seq<string>)
    requires forall t :: t in tasks ==> IdText(t)
    ensures forall c :: c in IdLines(tasks) ==> c == '\n' || 'A' <= c <= 'Z' || ForumIds.Digit(c) || c == '-' || c == '.'
  {
    if tasks != [] {
      LinesPlain(tasks[1..]);
      assert tasks[0] in tasks;
    }
  }
}
