/** Escaping of element text and the scheduled-task definition built from it. */
module ServiceXml {
  import opened Outcomes
  import opened Text

  function XmlEscape(s: string): string {
    Replace(Replace(Replace(Replace(Replace(s, "&", "&amp;"), "<", "&lt;"), ">", "&gt;"), "\"", "&quot;"), "'", "&apos;")
  }

  function XmlUnescape(s: string): string {
    Replace(Replace(Replace(Replace(Replace(s, "&quot;", "\""), "&apos;", "'"), "&lt;", "<"), "&gt;", ">"), "&amp;", "&")
  }

  /** The predefined entities of section 4.6 of XML 1.0. */
  function Entity(c: char): string {
    match c
    case '&' => "&amp;"
    case '<' => "&lt;"
    case '>' => "&gt;"
    case '"' => "&quot;"
    case '\'' => "&apos;"
    case _ => [c]
  }

  const MARKUP := {'&', '<', '>', '"', '\''}

  /** The text in which exactly the characters of `S` stand as entities. */
  function Encode(S: set<char>, s: string): string {
    if s == "" then "" else Head(S, s[0]) + Encode(S, s[1..])
  }

  /** Only the ampersand occurs in entities, at their front. */
  lemma EntityShape(d: char)
    requires d in MARKUP
    ensures |Entity(d)| >= 4 && Entity(d)[0] == '&' && Entity(d)[1] != '&' && Entity(d)[2] != '&' && Entity(d)[3] != '&'
    ensures forall i :: 1 <= i < |Entity(d)| ==> Entity(d)[i] !in MARKUP
  {
  }

  lemma NoCharNoMatch(s: string, c: char)
    requires c !in s
    ensures !Contains(s, [c])
  {
    forall i | 0 <= i < |s| ensures !Occurs(s, [c], i) {
      assert s[i] in s && s[i..i + 1] == [s[i]];
    }
  }

  function Head(S: set<char>, d: char): string { if d in S then Entity(d) else [d] }

  /** One pass of the escaper encodes one more character; the ampersand goes
      first, because every entity holds it. */
  lemma {:induction false} EscapePass(S: set<char>, c: char, s: string)
    requires S <= MARKUP && c in MARKUP && c !in S && (c == '&' ==> S == {})
    ensures Replace(Encode(S, s), [c], Entity(c)) == Encode(S + {c}, s)
  {
    if s != "" {
      var d, rest := s[0], Encode(S, s[1..]);
      EscapePass(S, c, s[1..]);
      if d == c {
        ReplaceHit(rest, [c], Entity(c));
      } else {
        if d in S { EntityShape(d); }
        NoCharNoMatch(Head(S, d), c);
        ReplaceNone(Head(S, d), [c], Entity(c));
        ReplaceCharConcat(Head(S, d), rest, c, Entity(c));
      }
    }
  }

  lemma {:induction false} EncodeNothing(s: string)
    ensures Encode({}, s) == s
  {
    if s != "" { EncodeNothing(s[1..]); }
  }

  const UP_TO_AMP := {'&'}
  const UP_TO_LT := {'&', '<'}
  const UP_TO_GT := {'&', '<', '>'}
  const UP_TO_QUOT := {'&', '<', '>', '"'}

  /** The five passes of the escaper are one simultaneous encoding. */
  lemma EscapeIsEncoding(s: string)
    ensures XmlEscape(s) == Encode(MARKUP, s)
  {
    EncodeNothing(s);
    EscapePass({}, '&', s);
    assert {} + {'&'} == UP_TO_AMP;
    EscapePass(UP_TO_AMP, '<', s);
    assert UP_TO_AMP + {'<'} == UP_TO_LT;
    EscapePass(UP_TO_LT, '>', s);
    assert UP_TO_LT + {'>'} == UP_TO_GT;
    EscapePass(UP_TO_GT, '"', s);
    assert UP_TO_GT + {'"'} == UP_TO_QUOT;
    EscapePass(UP_TO_QUOT, '\'', s);
    assert UP_TO_QUOT + {'\''} == MARKUP;
  }

  /** No entity is a prefix of another entity followed by anything. */
  lemma EntitiesDiffer(c: char, d: char, rest: string)
    requires c in MARKUP && d in MARKUP && c != d
    ensures !Occurs(Entity(d) + rest, Entity(c), 0)
  {
    var t := Entity(d) + rest;
    assert t[1] == Entity(d)[1] && t[2] == Entity(d)[2];
    assert Entity(c)[1] != t[1] || Entity(c)[2] != t[2];
    var w := t[0..if |Entity(c)| <= |t| then |Entity(c)| else 0];
    assert |w| > 2 ==> w[1] == t[1] && w[2] == t[2];
  }

  /** No entity starts at an encoded character other than its own. */
  lemma HeadNoMatch(S: set<char>, c: char, d: char, rest: string)
    requires S <= MARKUP && '&' in S && c in S && d != c
    ensures forall i :: 0 <= i < |Head(S, d)| ==> !Occurs(Head(S, d) + rest, Entity(c), i)
  {
    var t := Head(S, d) + rest;
    EntityShape(c);
    if d in S { EntityShape(d); EntitiesDiffer(c, d, rest); }
    forall i | 0 <= i < |Head(S, d)| ensures !Occurs(t, Entity(c), i) {
      if i > 0 || d !in S {
        assert t[i] == Head(S, d)[i] && t[i] != '&';
        assert i + |Entity(c)| <= |t| ==> t[i..i + |Entity(c)|][0] == t[i];
      }
    }
  }

  /** One pass of the unescaper decodes one character, as long as every
      ampersand in the text opens an entity. */
  lemma {:induction false} UnescapePass(S: set<char>, c: char, s: string)
    requires S <= MARKUP && '&' in S && c in S
    ensures Replace(Encode(S, s), Entity(c), [c]) == Encode(S - {c}, s)
  {
    if s != "" {
      var d, rest := s[0], Encode(S, s[1..]);
      UnescapePass(S, c, s[1..]);
      if d == c {
        EntityShape(c);
        ReplaceHit(rest, Entity(c), [c]);
      } else {
        HeadNoMatch(S, c, d, rest);
        EntityShape(c);
        ReplaceSkip(Head(S, d), rest, Entity(c), [c]);
        assert Head(S - {c}, d) == Head(S, d);
      }
    }
  }

  /** Unescaping inverts escaping on every string. */
  lemma UnescapeInvertsEscape(s: string)
    ensures XmlUnescape(XmlEscape(s)) == s
  {
    EscapeIsEncoding(s);
    UnescapePass(MARKUP, '"', s);
    var A := MARKUP - {'"'};
    UnescapePass(A, '\'', s);
    var B := A - {'\''};
    UnescapePass(B, '<', s);
    var C := B - {'<'};
    UnescapePass(C, '>', s);
    var D := C - {'>'};
    UnescapePass(D, '&', s);
    assert D - {'&'} == {};
    EncodeNothing(s);
  }

  /** Escaped text holds no markup character except the ampersand. */
  lemma {:induction false} EscapedIsPlain(s: string)
    ensures forall i :: 0 <= i < |XmlEscape(s)| ==> XmlEscape(s)[i] !in MARKUP - {'&'}
  {
    EscapeIsEncoding(s);
    EncodedIsPlain(s);
  }

  lemma {:induction false} EncodedIsPlain(s: string)
    ensures forall i :: 0 <= i < |Encode(MARKUP, s)| ==> Encode(MARKUP, s)[i] !in MARKUP - {'&'}
  {
    if s != "" { EncodedIsPlain(s[1..]); }
  }
}
