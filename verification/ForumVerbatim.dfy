/** What the orchestrator's blocks carry: the verbatim input can be read back
    from the first section, and the diagram from the image. */
module ForumVerbatim {
  import opened Outcomes
  import opened Text
  import opened ForumArtifact
  import Base64

  /** Reading rich text: the five entities stand for their characters. */
  function FromRich(s: string): string {
    if s == "" then ""
    else if "&amp;" <= s then "&" + FromRich(s[5..])
    else if "&lt;" <= s then "<" + FromRich(s[4..])
    else if "&gt;" <= s then ">" + FromRich(s[4..])
    else if "&#123;" <= s then "{" + FromRich(s[6..])
    else if "&#125;" <= s then "}" + FromRich(s[6..])
    else [s[0]] + FromRich(s[1..])
  }

  lemma {:induction false} EntityReads(c: char, rest: string)
    ensures FromRich(RichChar(c) + rest) == [c] + FromRich(rest)
  {
    var s := RichChar(c) + rest;
    assert s[|RichChar(c)|..] == rest;
    match c {
      case '&' => assert "&amp;" <= s;
      case '<' => assert s[1] == 'l' && "&lt;" <= s;
      case '>' => assert s[1] == 'g' && "&gt;" <= s;
      case '{' => assert s[1] == '#' && s[4] == '3' && "&#123;" <= s;
      case '}' => assert s[1] == '#' && s[4] == '5' && "&#125;" <= s;
      case _ => assert s[0] == c && c != '&';
    }
  }

  /** Escaped text is read back as the text, for every text. */
  lemma {:induction false} RichReadsBack(s: string)
    ensures FromRich(EscapeRichText(s)) == s
  {
    EscapeIsRichText(s);
    hide EscapeRichText;
    RichTextReads(s);
  }

  lemma {:induction false} RichTextReads(s: string)
    ensures FromRich(RichText(s)) == s
  {
    if s != "" {
      EntityReads(s[0], RichText(s[1..]));
      RichTextReads(s[1..]);
      hide FromRich;
      assert s == [s[0]] + s[1..];
    }
  }

  /** The first section shows the question, or the target and the focus, word
      for word. */
  lemma {:induction false} SectionReadsBack(input: Input) returns (shown: string, focus: string)
    ensures input.Ask? ==>
      FirstSection(input) == "<Section title=\"Question\">\n<RichText>\n" + (shown + "\n</RichText>\n</Section>")
    ensures input.Critique? ==>
      FirstSection(input) == "<Section title=\"Target\">\n<RichText>\n" + (shown + (focus + "\n</RichText>\n</Section>"))
    ensures FromRich(shown) == if input.Ask? then input.question else input.target
    ensures input.Critique? && input.focus.None? ==> focus == ""
    ensures input.Critique? && input.focus.Some? ==>
      "\n\n**Focus:** " <= focus && FromRich(focus[13..]) == input.focus.value
  {
    hide EscapeRichText, FromRich;
    focus := "";
    match input {
      case Ask(question) =>
        shown := EscapeRichText(question);
        RichReadsBack(question);
        Grouped(AskHead(), shown, SectionTail());
      case Critique(target, f) =>
        shown := EscapeRichText(target);
        RichReadsBack(target);
        if f.Some? {
          focus := FocusHead() + EscapeRichText(f.value);
          FocusHeadIs();
          assert focus[13..] == EscapeRichText(f.value);
          RichReadsBack(f.value);
        }
        Grouped(CritiqueHead() + shown, focus, SectionTail());
        Grouped(CritiqueHead(), shown, focus + SectionTail());
    }
  }

  lemma {:induction false} FocusHeadIs()
    ensures |FocusHead()| == 13 && FocusHead() == "\n\n**Focus:** "
  {
  }

  lemma {:induction false} Grouped(a: string, b: string, c: string)
    ensures (a + b) + c == a + (b + c)
  {
  }

  /** The image carries the diagram: its data decode to the bytes of the SVG. */
  lemma {:induction false} ImageCarriesDiagram(input: Input, svg: seq<bv8>, hasReviews: bool) returns (data: string, rest: string)
    ensures Image(input, svg, hasReviews) == "<Image src=\"data:image/svg+xml;base64," + (data + ("\" alt=\"" + rest))
    ensures Base64.Decode(data) == Some(svg)
  {
    data := Base64.Encode(svg);
    rest := AltOf(input) + AltRoute(hasReviews) + CaptionHead() + ImageCaption(input) + ImageTail();
    Base64.DecodeEncode(svg);
    hide Base64.Encode, Base64.Decode, AltOf, AltRoute, CaptionHead, ImageCaption, ImageTail;
  }

  /** What the image says about the round: whose way it shows, and whether there
      were cross-reviews. */
  lemma {:induction false} ImageTexts(input: Input, hasReviews: bool)
    ensures input.Ask? ==> AltOf(input) == "Question flows through " + "independent extraction"
    ensures input.Critique? ==> AltOf(input) == "Target flows through " + "independent critique"
    ensures AltRoute(hasReviews) == if hasReviews then " and blind cross-review into curation" else " directly into curation"
    ensures input.Ask? ==> ImageCaption(input) == "From the verbatim question" + " to the curated final answer."
    ensures input.Critique? ==> ImageCaption(input) == "From the verbatim target" + " to the curated verdict."
  {
  }
}
