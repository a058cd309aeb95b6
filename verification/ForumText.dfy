/** Whitespace normalization, clipping and question wrapping for the diagram. */
module ForumText {
  import opened Outcomes
  import opened Text

  predicate IsWord(w: string) { w != "" && forall i :: 0 <= i < |w| ==> !IsSpace(w[i]) }

  function WordEnd(s: string): (k: nat)
    ensures k <= |s| && (k < |s| ==> IsSpace(s[k])) && forall i :: 0 <= i < k ==> !IsSpace(s[i])
  {
    if s == "" || IsSpace(s[0]) then 0 else WordEnd(s[1..]) + 1
  }

  /** The maximal runs without white space. */
  function Words(s: string): (ws: seq<string>)
    ensures forall i :: 0 <= i < |ws| ==> IsWord(ws[i])
  {
    if s == "" then []
    else if IsSpace(s[0]) then Words(s[1..])
    else [s[..WordEnd(s)]] + Words(s[WordEnd(s)..])
  }

  function Normalize(s: string): string { Join(Words(s), " ") }

  /** Words joined by a space are read back as the same words. */
  lemma {:induction false} WordsOfJoin(ws: seq<string>)
    requires forall i :: 0 <= i < |ws| ==> IsWord(ws[i])
    ensures Words(Join(ws, " ")) == ws
  {
    if |ws| == 1 {
      var w := ws[0];
      assert WordEnd(w) == |w| && w[..|w|] == w && w[|w|..] == "";
      assert Words(w) == [w] + Words("");
    } else if |ws| > 1 {
      var tail := Join(ws[1..], " ");
      var s := Join(ws, " ");
      assert s == ws[0] + " " + tail;
      WordsOfJoin(ws[1..]);
      assert !IsSpace(s[0]) by { assert s[0] == ws[0][0]; }
      assert WordEnd(s) == |ws[0]| by {
        assert s[|ws[0]|] == ' ';
        assert forall i :: 0 <= i < |ws[0]| ==> s[i] == ws[0][i];
      }
      assert s[..|ws[0]|] == ws[0] && s[|ws[0]|..][1..] == tail;
    }
  }

  /** Single spaces between words, and none at the ends. */
  predicate Normal(s: string) {
    (s != "" ==> !IsSpace(s[0]) && !IsSpace(s[|s| - 1]))
    && forall i :: 0 <= i < |s| - 1 && IsSpace(s[i]) ==> s[i] == ' ' && !IsSpace(s[i + 1])
  }

  lemma {:induction false} JoinIsNormal(ws: seq<string>)
    requires forall i :: 0 <= i < |ws| ==> IsWord(ws[i])
    ensures Normal(Join(ws, " ")) && (ws != [] ==> Join(ws, " ") != "")
  {
    if |ws| > 1 {
      var tail, s := Join(ws[1..], " "), Join(ws, " ");
      JoinIsNormal(ws[1..]);
      assert s == ws[0] + (" " + tail);
      assert forall i :: 0 <= i < |ws[0]| ==> s[i] == ws[0][i];
      assert forall i :: |ws[0]| < i < |s| ==> s[i] == tail[i - |ws[0]| - 1];
      forall i | |ws[0]| < i < |s| - 1 && IsSpace(s[i]) ensures s[i] == ' ' && !IsSpace(s[i + 1]) {
        assert IsSpace(tail[i - |ws[0]| - 1]);
      }
    }
  }

  lemma {:induction false} NormalTail(s: string, k: nat)
    requires Normal(s) && k < |s| && IsSpace(s[k]) && k == WordEnd(s)
    ensures s[k] == ' ' && k < |s| - 1 && Normal(s[k + 1..]) && s[k + 1..] != ""
  {
    hide IsSpace, WordEnd;
    var tail := s[k + 1..];
    assert tail[0] == s[k + 1] && tail[|tail| - 1] == s[|s| - 1];
    forall i | 0 <= i < |tail| - 1 && IsSpace(tail[i]) ensures tail[i] == ' ' && !IsSpace(tail[i + 1]) {
      assert tail[i] == s[i + k + 1] && tail[i + 1] == s[i + k + 2];
    }
  }

  lemma {:induction false} WordsFront(s: string, k: nat)
    requires s != "" && !IsSpace(s[0]) && k == WordEnd(s)
    ensures k == |s| ==> Words(s) == [s]
    ensures k < |s| ==> Words(s) == [s[..k]] + Words(s[k + 1..])
  {
    assert Words(s) == [s[..k]] + Words(s[k..]);
    hide WordEnd, IsSpace;
    if k == |s| {
      assert s[..k] == s && Words(s[k..]) == [];
    } else {
      assert s[k..][1..] == s[k + 1..];
    }
  }

  lemma {:induction false} JoinFront(w: string, ws: seq<string>)
    ensures Join([w] + ws, " ") == if ws == [] then w else w + " " + Join(ws, " ")
  {
    assert ([w] + ws)[1..] == ws;
  }

  /** Normal text is its own normalization. */
  lemma {:induction false} NormalIsFixed(s: string)
    requires Normal(s)
    ensures Normalize(s) == s
    decreases |s|
  {
    if s != "" {
      var k := WordEnd(s);
      WordsFront(s, k);
      hide Words, WordEnd, Join;
      JoinFront(s, []);
      if k < |s| {
        var tail := s[k + 1..];
        NormalTail(s, k);
        NormalIsFixed(tail);
        JoinFront(s[..k], Words(tail));
        NoWords();
        assert s == s[..k] + " " + tail;
      } else {
        assert [s] + [] == [s];
      }
    }
  }

  lemma {:induction false} NoWords()
    ensures Join([], " ") == ""
  {
  }

  // ---- clipping ----

  const ELLIPSIS := '\U{2026}'

  function Clipped(value: string, limit: nat): (r: string)
    requires limit >= 1
    ensures |r| <= limit
  {
    var n := Normalize(value);
    if |n| <= limit then n else TrimEnd(n[..limit - 1]) + [ELLIPSIS]
  }

  /** The popping loop. */
  method ClipValue(value: string, limit: nat) returns (r: string)
    requires limit >= 1
    ensures r == Clipped(value, limit)
  {
    var normalized := Normalize(value);
    if |normalized| <= limit { return normalized; }
    r := normalized[..limit - 1];
    while r != "" && IsSpace(r[|r| - 1])
      invariant TrimEnd(r) == TrimEnd(normalized[..limit - 1])
      decreases |r|
    {
      r := r[..|r| - 1];
    }
    r := r + [ELLIPSIS];
  }

  /** Clipped text is normal, and clipping it again changes nothing. */
  lemma ClippedIdempotent(value: string, limit: nat)
    requires limit >= 1
    ensures Normal(Clipped(value, limit))
    ensures Clipped(Clipped(value, limit), limit) == Clipped(value, limit)
  {
    var n := Normalize(value);
    JoinIsNormal(Words(value));
    if |n| > limit {
      var p := TrimEnd(n[..limit - 1]);
      var r := p + [ELLIPSIS];
      assert forall i :: 0 <= i < |p| ==> p[i] == n[i];
      assert Normal(r);
    }
    NormalIsFixed(Clipped(value, limit));
  }

  /** Clipping keeps what fits; otherwise it cuts behind the last visible one of
      the first characters and puts an ellipsis there. */
  lemma {:induction false} ClippedExactly(value: string, limit: nat)
    requires limit >= 1
    ensures var n := Normalize(value); |n| <= limit ==> Clipped(value, limit) == n
    ensures var n := Normalize(value); |n| > limit ==> exists k: nat :: CutAt(n, limit, k) && Clipped(value, limit) == n[..k] + [ELLIPSIS]
  {
    var n := Normalize(value);
    if |n| > limit {
      var p := TrimEnd(n[..limit - 1]);
      assert n[..|p|] == p;
      assert CutAt(n, limit, |p|);
    }
  }

  /** The place behind the last visible one of the first `limit - 1` characters. */
  predicate CutAt(n: string, limit: nat, k: nat)
    requires limit >= 1
  {
    k <= limit - 1 <= |n| && (k > 0 ==> !IsSpace(n[k - 1])) && forall i :: k <= i < limit - 1 ==> IsSpace(n[i])
  }

  /** The words of a text: white space separates, and what holds none is one. */
  lemma {:induction false} WordsApart(a: string, c: char, b: string)
    requires IsSpace(c)
    ensures Words(a + ([c] + b)) == Words(a) + Words(b)
  {
    var s := a + ([c] + b);
    if a == "" {
      assert s == [c] + b && s[1..] == b;
      assert Words(s) == Words(b);
    } else if IsSpace(a[0]) {
      assert s[1..] == a[1..] + ([c] + b);
      WordsApart(a[1..], c, b);
    } else {
      var k := WordEnd(a);
      EndKept(a, [c] + b);
      assert s[..k] == a[..k] && s[k..] == a[k..] + ([c] + b);
      WordsApart(a[k..], c, b);
    }
  }

  lemma {:induction false} EndKept(a: string, b: string)
    requires b != "" && IsSpace(b[0])
    ensures WordEnd(a + b) == WordEnd(a)
  {
    if a == "" {
      assert a + b == b;
    } else {
      assert (a + b)[0] == a[0] && (a + b)[1..] == a[1..] + b;
      EndKept(a[1..], b);
    }
  }

  lemma {:induction false} OneWord(w: string)
    requires IsWord(w)
    ensures Words(w) == [w] && Words("") == []
  {
    assert WordEnd(w) == |w| && w[..|w|] == w && w[|w|..] == "";
  }

  // ---- wrapping ----

  const LINE_WIDTH := 68

  function Flatten<T>(groups: seq<seq<T>>): seq<T> {
    if groups == [] then [] else groups[0] + Flatten(groups[1..])
  }

  lemma {:induction false} FlattenSnoc<T>(groups: seq<seq<T>>, g: seq<T>)
    ensures Flatten(groups + [g]) == Flatten(groups) + g
  {
    if groups == [] {
      assert groups + [g] == [g];
      assert Flatten([g]) == g + Flatten<T>([]);
    } else {
      FlattenSnoc(groups[1..], g);
      assert (groups + [g])[1..] == groups[1..] + [g];
    }
  }

  lemma {:induction false} JoinSnoc(parts: seq<string>, x: string)
    ensures Join(parts + [x], " ") == if parts == [] then x else Join(parts, " ") + " " + x
  {
    if parts == [] {
      assert parts + [x] == [x];
    } else {
      JoinSnoc(parts[1..], x);
      assert (parts + [x])[1..] == parts[1..] + [x];
    }
  }

  /** Every line is its pieces joined by single spaces and fits the width. */
  ghost predicate LaidOut(lines: seq<string>, layout: seq<seq<string>>) {
    |lines| == |layout|
    && forall i :: 0 <= i < |lines| ==> lines[i] == Join(layout[i], " ") && |lines[i]| <= LINE_WIDTH && layout[i] != []
  }

  /** Every word is the concatenation of its pieces, and only a word wider than
      a line is cut. */
  ghost predicate CutsWords(words: seq<string>, groups: seq<seq<string>>) {
    |groups| == |words|
    && forall i :: 0 <= i < |words| ==> Flatten(groups[i]) == words[i] && (|words[i]| <= LINE_WIDTH ==> groups[i] == [words[i]])
  }

  lemma LaidOutSnoc(lines: seq<string>, layout: seq<seq<string>>, current: string, cur: seq<string>)
    requires LaidOut(lines, layout) && current == Join(cur, " ") && |current| <= LINE_WIDTH && cur != []
    ensures LaidOut(lines + [current], layout + [cur])
    ensures Flatten(layout + [cur]) == Flatten(layout) + cur
  {
    FlattenSnoc(layout, cur);
  }

  lemma CutsSnoc(words: seq<string>, groups: seq<seq<string>>, group: seq<string>)
    requires |groups| < |words| && CutsWords(words[..|groups|], groups)
    requires Flatten(group) == words[|groups|] && (|words[|groups|]| <= LINE_WIDTH ==> group == [words[|groups|]])
    ensures CutsWords(words[..|groups| + 1], groups + [group])
    ensures Flatten(groups + [group]) == Flatten(groups) + group
  {
    FlattenSnoc(groups, group);
  }

  function Spaced(current: string): string { if current != "" then current + " " else "" }

  function Room(current: string): (room: nat)
    ensures room <= LINE_WIDTH && (current == "" ==> room == LINE_WIDTH)
    ensures room > 0 ==> |Spaced(current)| + room == LINE_WIDTH
  {
    if current == "" then LINE_WIDTH else if |current| + 1 >= LINE_WIDTH then 0 else LINE_WIDTH - (|current| + 1)
  }

  /** The pieces of a line in the making. */
  ghost predicate InHand(current: string, cur: seq<string>) {
    current == Join(cur, " ") && |current| <= LINE_WIDTH && (current == "" <==> cur == [])
  }

  /** A line is broken only where the next piece does not fit any more. */
  ghost predicate Greedy(lines: seq<string>, layout: seq<seq<string>>) {
    |lines| == |layout| && (forall i :: 0 <= i < |layout| ==> layout[i] != [])
    && forall i :: 0 < i < |lines| ==> |lines[i - 1]| + 1 + |layout[i][0]| > LINE_WIDTH
  }

  /** The same with a line in the making; with nothing in it yet the line before
      it takes no piece at all. */
  ghost predicate Tight(lines: seq<string>, layout: seq<seq<string>>, cur: seq<string>) {
    Greedy(lines, layout)
    && (lines != [] ==> |lines[|lines| - 1]| + 1 + (if cur == [] then 1 else |cur[0]|) > LINE_WIDTH)
  }

  lemma TightPut(lines: seq<string>, layout: seq<seq<string>>, cur: seq<string>, piece: string)
    requires Tight(lines, layout, cur) && piece != ""
    ensures Tight(lines, layout, cur + [piece])
  {
    hide Greedy;
    assert (cur + [piece])[0] == if cur == [] then piece else cur[0];
  }

  lemma TightLine(lines: seq<string>, layout: seq<seq<string>>, current: string, cur: seq<string>)
    requires Tight(lines, layout, cur) && cur != []
    ensures Greedy(lines + [current], layout + [cur])
    ensures |current| + 1 >= LINE_WIDTH ==> Tight(lines + [current], layout + [cur], [])
  {
    var more, laid := lines + [current], layout + [cur];
    forall i | 0 < i < |more| ensures |more[i - 1]| + 1 + |laid[i][0]| > LINE_WIDTH {
      if i < |lines| { assert more[i - 1] == lines[i - 1] && laid[i] == layout[i]; }
    }
  }

  lemma TightBreak(lines: seq<string>, layout: seq<seq<string>>, current: string, cur: seq<string>, word: string)
    requires Tight(lines, layout, cur) && cur != [] && |current| + 1 + |word| > LINE_WIDTH
    ensures Tight(lines + [current], layout + [cur], [word])
  {
    hide Greedy;
    TightLine(lines, layout, current, cur);
  }

  lemma NothingTight()
    ensures Tight([], [], []) && Greedy([], [])
  {
  }

  /** The inner loop: cut full lines off a word that is wider than a line. */
  method CutLongWord(whole: string, lines0: seq<string>, current0: string, ghost layout0: seq<seq<string>>, ghost cur0: seq<string>,
                     ghost before: seq<string>)
      returns (lines: seq<string>, current: string, word: string, ghost layout: seq<seq<string>>, ghost cur: seq<string>,
               ghost group: seq<string>)
    requires whole != "" && LaidOut(lines0, layout0) && InHand(current0, cur0) && Flatten(layout0) + cur0 == before
    requires Tight(lines0, layout0, cur0)
    ensures Tight(lines, layout, cur)
    ensures LaidOut(lines, layout) && InHand(current, cur) && Flatten(layout) + cur == before + group
    ensures word != "" && |word| <= LINE_WIDTH && Flatten(group) + word == whole && (group != [] ==> |whole| > LINE_WIDTH)
  {
    Nothing();
    hide LaidOut, Flatten, Room, Join, Tight;
    lines, current, word, layout, cur, group := lines0, current0, whole, layout0, cur0, [];
    while |word| > LINE_WIDTH
      invariant word != "" && Flatten(group) + word == whole && (group != [] ==> |whole| > LINE_WIDTH)
      invariant LaidOut(lines, layout) && InHand(current, cur) && Flatten(layout) + cur == before + group
      invariant Tight(lines, layout, cur)
      decreases |word|, |current|
    {
      var room := Room(current);
      if room == 0 {
        NoRoom(current);
        LaidOutSnoc(lines, layout, current, cur);
        TightLine(lines, layout, current, cur);
        lines, layout := lines + [current], layout + [cur];
        current, cur := "", [];
        continue;
      }
      var head := word[..room];
      PutPiece(current, cur, head);
      FlattenSnoc(group, head);
      ExtendBoth(Flatten(layout), cur, before, group, head);
      CutOff(Flatten(group), word, room);
      TightPut(lines, layout, cur, head);
      current, cur, group := Spaced(current) + head, cur + [head], group + [head];
      LaidOutSnoc(lines, layout, current, cur);
      TightLine(lines, layout, current, cur);
      lines, layout := lines + [current], layout + [cur];
      current, cur := "", [];
      word := word[room..];
    }
  }

  lemma NoRoom(current: string)
    requires Room(current) == 0
    ensures current != "" && |current| + 1 >= LINE_WIDTH
  {
  }

  lemma PutPiece(current: string, cur: seq<string>, piece: string)
    requires InHand(current, cur) && piece != "" && |Spaced(current)| + |piece| <= LINE_WIDTH
    ensures InHand(Spaced(current) + piece, cur + [piece])
  {
    JoinSnoc(cur, piece);
    hide Join;
  }

  lemma CutOff(done: string, word: string, room: nat)
    requires room <= |word|
    ensures done + word == (done + word[..room]) + word[room..]
  {
    assert word == word[..room] + word[room..];
  }

  /** The wrapping loop: the lines hold exactly the pieces of the words, in
      order, and no word that fits a line is cut. */
  method WrapWords(words: seq<string>) returns (lines: seq<string>, ghost layout: seq<seq<string>>, ghost groups: seq<seq<string>>)
    requires forall i :: 0 <= i < |words| ==> words[i] != ""
    ensures LaidOut(lines, layout) && CutsWords(words, groups) && Flatten(layout) == Flatten(groups) && Greedy(lines, layout)
  {
    Nothing();
    NothingTight();
    hide LaidOut, CutsWords, Flatten, Join, Tight, Greedy;
    lines, layout, groups := [], [], [];
    var current := "";
    ghost var cur: seq<string> := [];
    for n := 0 to |words|
      invariant LaidOut(lines, layout) && |groups| == n && CutsWords(words[..n], groups)
      invariant InHand(current, cur) && Flatten(layout) + cur == Flatten(groups) && Tight(lines, layout, cur)
    {
      var word;
      ghost var group;
      lines, current, word, layout, cur, group := CutLongWord(words[n], lines, current, layout, cur, Flatten(groups));
      if |Spaced(current)| + |word| > LINE_WIDTH {
        LaidOutSnoc(lines, layout, current, cur);
        TightBreak(lines, layout, current, cur, word);
        lines, layout := lines + [current], layout + [cur];
        current, cur := "", [];
        assert cur + [word] == [word];
      } else {
        TightPut(lines, layout, cur, word);
      }
      PutPiece(current, cur, word);
      FlattenSnoc(group, word);
      ExtendBoth(Flatten(layout), cur, Flatten(groups), group, word);
      if |words[n]| <= LINE_WIDTH {
        assert group == [] && Flatten(group) + word == word;
        assert group + [word] == [word];
      }
      current, cur, group := Spaced(current) + word, cur + [word], group + [word];
      CutsSnoc(words, groups, group);
      groups := groups + [group];
    }
    assert words[..|words|] == words;
    if current != "" {
      LaidOutSnoc(lines, layout, current, cur);
      TightLine(lines, layout, current, cur);
      lines, layout := lines + [current], layout + [cur];
    } else {
      TightIsGreedy(lines, layout, cur);
      assert Flatten(layout) + cur == Flatten(layout);
    }
  }

  lemma ExtendBoth<T>(a: seq<T>, b: seq<T>, c: seq<T>, d: seq<T>, x: T)
    requires a + b == c + d
    ensures a + (b + [x]) == c + (d + [x])
  {
    assert a + (b + [x]) == a + b + [x];
    assert c + (d + [x]) == c + d + [x];
  }

  lemma TightIsGreedy(lines: seq<string>, layout: seq<seq<string>>, cur: seq<string>)
    requires Tight(lines, layout, cur)
    ensures Greedy(lines, layout)
  {
  }

  lemma Nothing()
    ensures LaidOut([], []) && CutsWords([], []) && Join([], " ") == "" && Flatten<string>([]) == [] && Flatten<char>([]) == ""
  {
  }

  /** What the two-line box shows of the wrapped lines. */
  function TwoLines(lines: seq<string>): (r: seq<string>)
    requires forall i :: 0 <= i < |lines| ==> |lines[i]| <= LINE_WIDTH
    ensures |r| == 2 && |r[0]| <= LINE_WIDTH && |r[1]| <= LINE_WIDTH
  {
    if |lines| > 2 then [lines[0], Clipped(Join(lines[1..], " "), LINE_WIDTH)]
    else if |lines| == 2 then lines
    else if |lines| == 1 then lines + [""]
    else ["", ""]
  }

  /** Two lines of bounded width; nothing is lost unless they overflow. */
  method WrapQuestion(question: string)
      returns (r: seq<string>, ghost wrapped: seq<string>, ghost layout: seq<seq<string>>, ghost groups: seq<seq<string>>)
    ensures |r| == 2 && |r[0]| <= LINE_WIDTH && |r[1]| <= LINE_WIDTH
    ensures LaidOut(wrapped, layout) && CutsWords(Words(question), groups) && Flatten(layout) == Flatten(groups) && Greedy(wrapped, layout)
    ensures |wrapped| == 0 ==> r == ["", ""]
    ensures |wrapped| == 1 ==> r == [wrapped[0], ""]
    ensures |wrapped| == 2 ==> r == wrapped
    ensures |wrapped| > 2 ==> r == [wrapped[0], Clipped(Join(wrapped[1..], " "), LINE_WIDTH)]
  {
    NothingTight();
    hide Greedy, Clipped, Join, Flatten, CutsWords, Words, Split, Normal;
    var normalized := Normalize(question);
    JoinIsNormal(Words(question));
    Nothing();
    if normalized == "" {
      return ["", ""], [], [], [];
    }
    assert forall w :: w in Words(question) ==> ' ' !in w;
    SplitJoin(Words(question), ' ');
    var lines;
    lines, layout, groups := WrapWords(Split(normalized, ' '));
    wrapped := lines;
    if |lines| > 2 {
      lines := [lines[0], Clipped(Join(lines[1..], " "), LINE_WIDTH)];
    }
    while |lines| < 2
      invariant forall i :: 0 <= i < |lines| ==> |lines[i]| <= LINE_WIDTH
      invariant |lines| <= 2 && TwoLines(wrapped) == TwoLines(lines)
    {
      lines := lines + [""];
    }
    r := lines;
  }

  /** The pieces on the lines spell out the words, in order. */
  lemma {:induction false} PiecesSpellWords(words: seq<string>, groups: seq<seq<string>>)
    requires CutsWords(words, groups)
    ensures Flatten(Flatten(groups)) == Flatten(words)
  {
    if words != [] {
      PiecesSpellWords(words[1..], groups[1..]);
      FlattenConcat(groups[0], Flatten(groups[1..]));
    }
  }

  lemma {:induction false} FlattenConcat<T>(a: seq<seq<T>>, b: seq<seq<T>>)
    ensures Flatten(a + b) == Flatten(a) + Flatten(b)
  {
    if a == [] {
      assert a + b == b;
    } else {
      FlattenConcat(a[1..], b);
      assert (a + b)[1..] == a[1..] + b && (a + b)[0] == a[0];
      assert Flatten(a + b) == a[0] + (Flatten(a[1..]) + Flatten(b));
      assert Flatten(a) == a[0] + Flatten(a[1..]);
    }
  }
}
