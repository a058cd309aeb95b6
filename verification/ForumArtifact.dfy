/** Substitution of the orchestrator's blocks into a curator draft: three
    sequential replacing passes, against one simultaneous scan. */
module ForumSubstitution {
  import opened Outcomes
  import opened Text

  /** The characters placeholders are made of. */
  predicate Slot(c: char) { c == '_' || 'A' <= c <= 'Z' }

  predicate AllSlot(s: string) { forall i :: 0 <= i < |s| ==> Slot(s[i]) }

  /** What one call substitutes: the first section, the diagram and the run
      stats, each with the placeholder it replaces, in the order of the passes. */
  datatype Blocks = Blocks(first: string, section: string, diagram: string, image: string, stats: string, about: string)

  function Passes(b: Blocks, s: string): string
    requires Shaped(b)
  {
    Replace(Replace(Replace(s, b.first, b.section), b.diagram, b.image), b.stats, b.about)
  }

  /** The reference: one left-to-right scan that rewrites whichever placeholder
      starts at the current position. */
  function Scan(b: Blocks, s: string): string
    requires Shaped(b)
  {
    if s == "" then ""
    else if b.first <= s then b.section + Scan(b, s[|b.first|..])
    else if b.diagram <= s then b.image + Scan(b, s[|b.diagram|..])
    else if b.stats <= s then b.about + Scan(b, s[|b.stats|..])
    else [s[0]] + Scan(b, s[1..])
  }

  ghost predicate StartsInside(s: string, p: string, n: nat) {
    exists j :: 0 < j < n && Occurs(s, p, j)
  }

  /** The scan meets a diagram placeholder whose tail is the head of the first
      placeholder; the earlier pass takes those characters away. */
  ghost predicate DiagramLost(b: Blocks, s: string)
    requires Shaped(b)
  {
    s != "" &&
    if b.first <= s then DiagramLost(b, s[|b.first|..])
    else if b.diagram <= s then StartsInside(s, b.first, |b.diagram|) || DiagramLost(b, s[|b.diagram|..])
    else DiagramLost(b, s[1..])
  }

  /** A run-stats placeholder whose tail is the head of another placeholder. */
  ghost predicate StatsLost(b: Blocks, s: string) {
    exists i :: Occurs(s, b.stats, i)
      && (StartsInside(s[i..], b.first, |b.stats|) || StartsInside(s[i..], b.diagram, |b.stats|))
  }

  /** Placeholder text that no two placeholders share from the front. */
  predicate IsPlaceholder(p: string) { AllSlot(p) && |p| > 11 && p[0] == '_' }

  predicate Shaped(b: Blocks) {
    IsPlaceholder(b.first) && IsPlaceholder(b.diagram) && IsPlaceholder(b.stats)
    && b.first[11] != b.diagram[11] && b.first[11] != b.stats[11] && b.diagram[11] != b.stats[11]
  }

  /** A block bracketed by non-placeholder characters. */
  predicate Bracketed(block: string) { block != "" && !Slot(block[0]) && !Slot(block[|block| - 1]) }

  /** What the callers guarantee of the first two blocks: they are bracketed
      and hold no placeholder rewritten later. */
  ghost predicate Sound(b: Blocks) {
    Shaped(b) && Bracketed(b.section) && Bracketed(b.image)
    && !Contains(b.section, b.diagram) && !Contains(b.section, b.stats) && !Contains(b.image, b.stats)
  }

  lemma FrontRewritten(s: string, p: string, r: string)
    requires p != "" && r != "" && p <= s
    ensures Replace(s, p, r) != "" && Replace(s, p, r)[0] == r[0]
  {
    assert Replace(s, p, r) == r + Replace(s[|p|..], p, r);
  }

  /** A pass never fakes placeholder text: a run of placeholder characters at
      the front of the output was already at the front of the input. */
  lemma {:induction false} SlotPrefix(s: string, p: string, r: string, n: nat)
    requires p != "" && r != "" && !Slot(r[0])
    requires n <= |Replace(s, p, r)| && AllSlot(Replace(s, p, r)[..n])
    ensures n <= |s| && s[..n] == Replace(s, p, r)[..n]
  {
    var t := Replace(s, p, r);
    if n > 0 && s != "" {
      assert t[..n][0] == t[0] && Slot(t[..n][0]);
      if p <= s { FrontRewritten(s, p, r); }
      var tail := Replace(s[1..], p, r);
      assert t == [s[0]] + tail;
      var u := tail[..n - 1];
      forall i | 0 <= i < |u| ensures Slot(u[i]) { assert Slot(t[..n][i + 1]); }
      SlotPrefix(s[1..], p, r, n - 1);
      assert t[..n] == [s[0]] + u;
      assert s[..n] == [s[0]] + s[1..][..n - 1];
    }
  }

  /** No later placeholder starts inside a sound block or across its end. */
  lemma BlockSkip(block: string, rest: string, p: string, r: string)
    requires p != "" && AllSlot(p) && block != "" && !Slot(block[|block| - 1]) && !Contains(block, p)
    ensures Replace(block + rest, p, r) == block + Replace(rest, p, r)
  {
    forall i | 0 <= i < |block| ensures !Occurs(block + rest, p, i) { NotInBlock(block, rest, p, i); }
    ReplaceSkip(block, rest, p, r);
  }

  lemma NotInBlock(block: string, rest: string, p: string, i: nat)
    requires AllSlot(p) && i < |block| && !Slot(block[|block| - 1]) && !Contains(block, p)
    ensures !Occurs(block + rest, p, i)
  {
    var t := block + rest;
    if i + |p| <= |block| {
      assert t[i..i + |p|] == block[i..i + |p|];
      assert !Occurs(block, p, i);
    } else if i + |p| <= |t| {
      assert t[i..i + |p|][|block| - 1 - i] == block[|block| - 1];
    }
  }

  // ---- what the three passes do at the front of the draft ----

  function Pass1(b: Blocks, s: string): string
    requires Shaped(b)
  {
    Replace(s, b.first, b.section)
  }

  function Pass2(b: Blocks, s: string): string
    requires Shaped(b)
  {
    Replace(Pass1(b, s), b.diagram, b.image)
  }

  /** A placeholder at the front of a pass's output was there in its input. */
  lemma PrefixComesThrough(s: string, p: string, r: string, q: string)
    requires p != "" && r != "" && !Slot(r[0]) && AllSlot(q)
    ensures q <= Replace(s, p, r) ==> q <= s
  {
    var t := Replace(s, p, r);
    if q <= t {
      assert t[..|q|] == q;
      SlotPrefix(s, p, r, |q|);
    }
  }

  lemma FirstAtFront(b: Blocks, rest: string)
    requires Sound(b)
    ensures Passes(b, b.first + rest) == b.section + Passes(b, rest)
  {
    ReplaceHit(rest, b.first, b.section);
    BlockSkip(b.section, Pass1(b, rest), b.diagram, b.image);
    BlockSkip(b.section, Pass2(b, rest), b.stats, b.about);
  }

  lemma DiagramAtFront(b: Blocks, rest: string)
    requires Sound(b) && !StartsInside(b.diagram + rest, b.first, |b.diagram|)
    ensures Passes(b, b.diagram + rest) == b.image + Passes(b, rest)
  {
    hide AllSlot;
    NotInside(b.diagram, rest, b.first);
    ReplaceSkip(b.diagram, rest, b.first, b.section);
    ReplaceHit(Pass1(b, rest), b.diagram, b.image);
    BlockSkip(b.image, Pass2(b, rest), b.stats, b.about);
  }

  /** Placeholders that differ never start at the same place. */
  lemma NotInside(p: string, rest: string, q: string)
    requires |p| > 11 && |q| > 11 && p[11] != q[11] && !StartsInside(p + rest, q, |p|)
    ensures forall i :: 0 <= i < |p| ==> !Occurs(p + rest, q, i)
  {
    var t := p + rest;
    assert |q| <= |t| ==> t[0..|q|][11] == p[11];
    assert !Occurs(t, q, 0);
  }

  lemma StatsAtFront(b: Blocks, rest: string)
    requires Sound(b)
    requires !StartsInside(b.stats + rest, b.first, |b.stats|) && !StartsInside(b.stats + rest, b.diagram, |b.stats|)
    ensures Passes(b, b.stats + rest) == b.about + Passes(b, rest)
  {
    hide AllSlot, Replace;
    NotInside(b.stats, rest, b.first);
    ReplaceSkip(b.stats, rest, b.first, b.section);
    var after := Pass1(b, rest);
    NotInside(b.stats, rest, b.diagram);
    StillNotInside(b, b.stats, rest);
    ReplaceSkip(b.stats, after, b.diagram, b.image);
    ReplaceHit(Pass2(b, rest), b.stats, b.about);
  }

  /** A diagram placeholder that starts in `p` after the first pass was there
      before it. */
  lemma BackThroughPass(b: Blocks, p: string, rest: string, i: nat)
    requires Sound(b) && i < |p| && Occurs(p + Pass1(b, rest), b.diagram, i)
    ensures Occurs(p + rest, b.diagram, i)
  {
    hide Replace;
    var after := Pass1(b, rest);
    var t := p + after;
    if i + |b.diagram| <= |p| {
      assert t[i..i + |b.diagram|] == (p + rest)[i..i + |b.diagram|];
    } else {
      var n := i + |b.diagram| - |p|;
      var u := after[..n];
      forall k | 0 <= k < n ensures Slot(u[k]) {
        assert t[i..i + |b.diagram|][|p| - i + k] == t[|p| + k];
      }
      SlotPrefix(rest, b.first, b.section, n);
      assert t[i..i + |b.diagram|] == p[i..] + u;
      assert (p + rest)[i..i + |b.diagram|] == p[i..] + rest[..n];
    }
  }

  lemma StillNotInside(b: Blocks, p: string, rest: string)
    requires Sound(b) && forall i :: 0 <= i < |p| ==> !Occurs(p + rest, b.diagram, i)
    ensures forall i :: 0 <= i < |p| ==> !Occurs(p + Pass1(b, rest), b.diagram, i)
  {
    forall i | 0 <= i < |p| && Occurs(p + Pass1(b, rest), b.diagram, i) ensures Occurs(p + rest, b.diagram, i) {
      BackThroughPass(b, p, rest, i);
    }
  }

  lemma OtherAtFront(b: Blocks, s: string)
    requires Sound(b) && s != "" && !(b.first <= s) && !(b.diagram <= s) && !(b.stats <= s)
    ensures Passes(b, s) == [s[0]] + Passes(b, s[1..])
  {
    PrefixComesThrough(s, b.first, b.section, b.diagram);
    assert Pass2(b, s) == [s[0]] + Pass2(b, s[1..]);
    PrefixComesThrough(s, b.first, b.section, b.stats);
    PrefixComesThrough(Pass1(b, s), b.diagram, b.image, b.stats);
  }

  /** A lost diagram placeholder leaves its own text where its block belongs. */
  lemma LostAtFront(b: Blocks, s: string)
    requires Sound(b) && b.diagram <= s && StartsInside(s, b.first, |b.diagram|)
    ensures Passes(b, s) != "" && Passes(b, s)[0] == '_'
  {
    hide Replace, AllSlot;
    var t := Pass1(b, s);
    LostInFirstPass(b, s);
    UnmatchedFront(t, b.diagram, b.image);
    PrefixComesThrough(t, b.diagram, b.image, b.stats);
    UnmatchedFront(Pass2(b, s), b.stats, b.about);
  }

  lemma UnmatchedFront(s: string, p: string, r: string)
    requires p != "" && s != "" && !(p <= s)
    ensures Replace(s, p, r) == [s[0]] + Replace(s[1..], p, r)
  {
  }

  /** The first pass from a match that is the earliest one. */
  lemma FirstPassAt(b: Blocks, s: string, k: nat)
    requires Shaped(b) && k < |s| && Occurs(s, b.first, k) && forall i :: 0 <= i < k ==> !Occurs(s, b.first, i)
    ensures k + |b.first| <= |s| && Pass1(b, s) == s[..k] + (b.section + Replace(s[k + |b.first|..], b.first, b.section))
  {
    hide Replace, AllSlot;
    var rest := s[k + |b.first|..];
    assert s == s[..k] + (b.first + rest);
    hide Occurs;
    ReplaceSkip(s[..k], b.first + rest, b.first, b.section);
    ReplaceHit(rest, b.first, b.section);
  }

  /** The first pass cuts into a diagram placeholder that is lost. */
  lemma LostCut(b: Blocks, s: string) returns (k: nat)
    requires Sound(b) && b.diagram <= s && StartsInside(s, b.first, |b.diagram|)
    ensures 0 < k < |b.diagram| && k < |Pass1(b, s)| && Pass1(b, s)[k] == b.section[0]
    ensures forall i :: 0 <= i < k ==> Pass1(b, s)[i] == b.diagram[i]
  {
    hide Replace, Contains, AllSlot, Occurs, Pass1;
    var j :| 0 < j < |b.diagram| && Occurs(s, b.first, j);
    FindsEarliest(s, b.first, j);
    k := Find(s, b.first).value;
    NotAtFront(s, b.diagram, b.first);
    FirstPassAt(b, s, k);
  }

  lemma NotAtFront(s: string, p: string, q: string)
    requires |p| > 11 && |q| > 11 && p[11] != q[11] && p <= s
    ensures !Occurs(s, q, 0)
  {
    assert p[11] == s[11];
    assert |q| <= |s| ==> s[0..|q|][11] == s[11];
  }

  lemma LostInFirstPass(b: Blocks, s: string)
    requires Sound(b) && b.diagram <= s && StartsInside(s, b.first, |b.diagram|)
    ensures var t := Pass1(b, s); t != "" && t[0] == '_' && !(b.diagram <= t) && !(b.stats <= t)
  {
    hide Replace, Contains;
    var k := LostCut(b, s);
    var t := Pass1(b, s);
    NotPrefix(t, b.diagram, k);
    if k > 11 {
      assert t[11] == b.diagram[11];
    } else {
      NotPrefix(t, b.stats, k);
    }
  }

  lemma NotPrefix(t: string, p: string, k: nat)
    requires AllSlot(p) && k < |p| && k < |t| && !Slot(t[k])
    ensures !(p <= t)
  {
    assert p <= t ==> p[k] == t[k];
  }

  /** The exact condition for all drafts: as long as no run-stats placeholder
      runs into another one, the three passes equal the simultaneous scan if
      and only if no diagram placeholder is lost. */
  lemma {:induction false} PassesAreScan(b: Blocks, s: string)
    requires Sound(b) && !StatsLost(b, s)
    ensures Passes(b, s) == Scan(b, s) <==> !DiagramLost(b, s)
    decreases |s|
  {
    NothingToPass(b);
    hide Replace, AllSlot, Contains, Passes;
    if s != "" {
      if b.first <= s {
        var rest := s[|b.first|..];
        assert s == b.first + rest;
        FirstAtFront(b, rest);
        StatsLostTail(b, s, |b.first|);
        PassesAreScan(b, rest);
        SameTail(b.section, Passes(b, rest), Scan(b, rest));
      } else if b.diagram <= s {
        var rest := s[|b.diagram|..];
        assert s == b.diagram + rest;
        if StartsInside(s, b.first, |b.diagram|) {
          LostAtFront(b, s);
          assert Scan(b, s)[0] == b.image[0];
        } else {
          DiagramAtFront(b, rest);
          StatsLostTail(b, s, |b.diagram|);
          PassesAreScan(b, rest);
          SameTail(b.image, Passes(b, rest), Scan(b, rest));
        }
      } else if b.stats <= s {
        var rest := s[|b.stats|..];
        assert s == b.stats + rest && s[0..] == s;
        assert Occurs(s, b.stats, 0);
        StatsAtFront(b, rest);
        StatsLostTail(b, s, |b.stats|);
        PassesAreScan(b, rest);
        SameTail(b.about, Passes(b, rest), Scan(b, rest));
        LostBehindStats(b, s, |b.stats|);
      } else {
        OtherAtFront(b, s);
        StatsLostTail(b, s, 1);
        PassesAreScan(b, s[1..]);
        SameTail([s[0]], Passes(b, s[1..]), Scan(b, s[1..]));
      }
    }
  }

  lemma NothingToPass(b: Blocks)
    requires Shaped(b)
    ensures Passes(b, "") == ""
  {
  }

  lemma SameTail(a: string, x: string, y: string)
    ensures a + x == a + y <==> x == y
  {
    assert (a + x)[|a|..] == x && (a + y)[|a|..] == y;
  }

  lemma StatsLostTail(b: Blocks, s: string, n: nat)
    requires n <= |s| && !StatsLost(b, s)
    ensures !StatsLost(b, s[n..])
  {
    forall i | Occurs(s[n..], b.stats, i)
      ensures !StartsInside(s[n..][i..], b.first, |b.stats|) && !StartsInside(s[n..][i..], b.diagram, |b.stats|)
    {
      TailOccurs(s, b.stats, n, i);
      assert s[n..][i..] == s[n + i..];
    }
  }

  /** No placeholder starts within the first `n` characters, so the scan for a
      lost diagram passes over them. */
  lemma {:induction false} LostBehindStats(b: Blocks, s: string, n: nat)
    requires Shaped(b) && n <= |s|
    requires forall i :: 0 <= i < n ==> !Occurs(s, b.first, i) && !Occurs(s, b.diagram, i)
    ensures DiagramLost(b, s) == DiagramLost(b, s[n..])
  {
    if n == 0 {
      assert s[0..] == s;
    } else {
      PrefixOccurs(s, b.first);
      PrefixOccurs(s, b.diagram);
      forall i | 0 <= i < n - 1 ensures !Occurs(s[1..], b.first, i) && !Occurs(s[1..], b.diagram, i) {
        TailOccurs(s, b.first, 1, i);
        TailOccurs(s, b.diagram, 1, i);
      }
      LostBehindStats(b, s[1..], n - 1);
      assert s[1..][n - 1..] == s[n..];
    }
  }

  // ---- the gate on drafts ----

  /** The number of non-overlapping matches, counted from the left. */
  function Matches(s: string, p: string): nat
    requires p != ""
  {
    if s == "" then 0
    else if p <= s then 1 + Matches(s[|p|..], p)
    else Matches(s[1..], p)
  }

  /** A single match: its position, and nothing behind it. */
  lemma {:induction false} SingleMatch(s: string, p: string) returns (i: nat)
    requires p != "" && Matches(s, p) == 1
    ensures Occurs(s, p, i) && forall k :: Occurs(s, p, k) ==> i <= k < i + |p|
  {
    PrefixOccurs(s, p);
    if p <= s {
      i := 0;
      var rest := s[|p|..];
      NoMatch(rest, p);
      forall k | Occurs(s, p, k) ensures k < |p| {
        if k >= |p| { TailOccurs(s, p, |p|, k - |p|); }
      }
    } else {
      var k' := SingleMatch(s[1..], p);
      i := k' + 1;
      TailOccurs(s, p, 1, k');
      forall k | Occurs(s, p, k) ensures i <= k < i + |p| {
        if k > 0 { TailOccurs(s, p, 1, k - 1); }
      }
    }
  }

  lemma {:induction false} NoMatch(s: string, p: string)
    requires p != "" && Matches(s, p) == 0
    ensures forall k :: !Occurs(s, p, k)
  {
    PrefixOccurs(s, p);
    if s != "" {
      NoMatch(s[1..], p);
      forall k | Occurs(s, p, k) ensures k == 0 {
        if k > 0 { TailOccurs(s, p, 1, k - 1); }
      }
    }
  }

  /** The checks on a draft before anything is substituted. */
  predicate GatePasses(b: Blocks, draft: string)
    requires Shaped(b)
  {
    Matches(draft, b.first) == 1 && Matches(draft, b.diagram) == 1 && Matches(draft, b.stats) == 1
    && EndsWith(TrimEnd(draft), b.stats)
  }

  predicate EndsWith(s: string, p: string) { |p| <= |s| && s[|s| - |p|..] == p }

  /** Double underscores stand at the two ends of a placeholder only. */
  predicate Fenced(p: string) {
    |p| >= 4 && p[..2] == "__" && p[|p| - 2..] == "__" && forall k :: 0 < k < |p| - 2 ==> !(p[k] == '_' && p[k + 1] == '_')
  }

  /** Placeholders share at most their two fence characters. */
  lemma OverlapBound(s: string, p: string, i: nat, q: string, j: nat)
    requires Fenced(p) && Fenced(q) && Occurs(s, p, i) && Occurs(s, q, j) && i < j < i + |p|
    ensures j >= i + |p| - 2
  {
    assert s[j] == s[j..j + |q|][0] == q[..2][0] == '_';
    assert s[j + 1] == s[j..j + |q|][1] == q[..2][1] == '_';
    if j + 1 < i + |p| {
      assert s[i..i + |p|][j - i] == s[j] && s[i..i + |p|][j + 1 - i] == s[j + 1];
    }
  }

  ghost predicate Fences(b: Blocks) {
    Shaped(b) && Fenced(b.first) && Fenced(b.diagram) && Fenced(b.stats)
    && |b.first| >= |b.stats| + 3 && |b.diagram| >= |b.stats| + 3
  }

  /** The run-stats block stands at the end of the trimmed draft. */
  lemma LastMatch(b: Blocks, draft: string) returns (first: nat, last: nat)
    requires Fences(b) && GatePasses(b, draft)
    ensures Occurs(draft, b.stats, last) && last + |b.stats| == |TrimEnd(draft)|
    ensures first <= last < first + |b.stats|
    ensures forall k :: Occurs(draft, b.stats, k) ==> first <= k < first + |b.stats|
  {
    hide Matches, AllSlot, TrimEnd;
    first := SingleMatch(draft, b.stats);
    last := SuffixOccurs(draft, |TrimEnd(draft)|, b.stats);
  }

  lemma SuffixOccurs(s: string, n: nat, p: string) returns (last: nat)
    requires n <= |s| && EndsWith(s[..n], p)
    ensures last + |p| == n && Occurs(s, p, last)
  {
    last := n - |p|;
    assert s[last..last + |p|] == s[..n][last..];
  }

  /** A placeholder ends before the trailing white space. */
  lemma EndsInText(s: string, p: string, k: nat)
    requires IsPlaceholder(p) && Occurs(s, p, k)
    ensures k + |p| <= |TrimEnd(s)|
  {
    assert s[k + |p| - 1] == s[k..k + |p|][|p| - 1] == p[|p| - 1];
    assert Slot(p[|p| - 1]);
  }

  /** In a draft that passes the gate no run-stats placeholder runs into
      another placeholder. */
  lemma GateKeepsStats(b: Blocks, draft: string)
    requires Fences(b) && GatePasses(b, draft)
    ensures !StatsLost(b, draft)
  {
    hide Matches, AllSlot, TrimEnd, GatePasses, Fenced, Occurs, EndsWith;
    var first, last := LastMatch(b, draft);
    forall i | Occurs(draft, b.stats, i)
      ensures !StartsInside(draft[i..], b.first, |b.stats|) && !StartsInside(draft[i..], b.diagram, |b.stats|)
    {
      OccursInBounds(draft, b.stats, i);
      StatsRunsFree(b, draft, first, last, i, b.first);
      StatsRunsFree(b, draft, first, last, i, b.diagram);
    }
  }

  lemma OccursInBounds(s: string, p: string, i: int)
    requires Occurs(s, p, i)
    ensures 0 <= i && i + |p| <= |s|
  {
  }

  lemma StatsRunsFree(b: Blocks, draft: string, first: nat, last: nat, i: nat, q: string)
    requires Fences(b) && (q == b.first || q == b.diagram) && i <= |draft|
    requires Occurs(draft, b.stats, i) && first <= i
    requires last + |b.stats| == |TrimEnd(draft)| && last < first + |b.stats|
    ensures !StartsInside(draft[i..], q, |b.stats|)
  {
    hide AllSlot, TrimEnd, Fenced, Occurs;
    forall j | 0 < j < |b.stats| ensures !Occurs(draft[i..], q, j) {
      TailOccurs(draft, q, i, j);
      if Occurs(draft[i..], q, j) {
        OverlapBound(draft, b.stats, i, q, i + j);
        EndsInText(draft, q, i + j);
      }
    }
  }

  /** For every draft that passes the gate the three passes equal the
      simultaneous scan if and only if no diagram placeholder is lost. */
  lemma GatedPassesAreScan(b: Blocks, draft: string)
    requires Sound(b) && Fences(b) && GatePasses(b, draft)
    ensures Passes(b, draft) == Scan(b, draft) <==> !DiagramLost(b, draft)
  {
    GateKeepsStats(b, draft);
    PassesAreScan(b, draft);
  }

  // ---- where the blocks land ----

  ghost predicate IsSlotText(b: Blocks, p: string) { p == b.first || p == b.diagram || p == b.stats }

  /** No two placeholders of the draft share a character. */
  ghost predicate Separate(b: Blocks, s: string) {
    forall p, i, q, j :: IsSlotText(b, p) && IsSlotText(b, q) && Occurs(s, p, i) && Occurs(s, q, j) && i < j ==> i + |p| <= j
  }

  lemma {:induction false} SeparateNotLost(b: Blocks, s: string)
    requires Shaped(b) && Separate(b, s)
    ensures !DiagramLost(b, s)
    decreases |s|
  {
    if s != "" {
      PrefixOccurs(s, b.first);
      PrefixOccurs(s, b.diagram);
      var n := if b.first <= s then |b.first| else if b.diagram <= s then |b.diagram| else 1;
      SeparateTail(b, s, n);
      SeparateNotLost(b, s[n..]);
    }
  }

  lemma SeparateTail(b: Blocks, s: string, n: nat)
    requires n <= |s| && Separate(b, s)
    ensures Separate(b, s[n..])
  {
    forall p, i, q, j | IsSlotText(b, p) && IsSlotText(b, q) && Occurs(s[n..], p, i) && Occurs(s[n..], q, j) && i < j
      ensures i + |p| <= j
    {
      TailOccurs(s, p, n, i);
      TailOccurs(s, q, n, j);
    }
  }

  function Block(b: Blocks, p: string): string {
    if p == b.first then b.section else if p == b.diagram then b.image else b.about
  }

  lemma {:induction false} ScanSkip(b: Blocks, a: string, rest: string)
    requires Shaped(b)
    requires forall p, i :: IsSlotText(b, p) && Occurs(a + rest, p, i) ==> i >= |a|
    ensures Scan(b, a + rest) == a + Scan(b, rest)
  {
    if a == "" {
      assert a + rest == rest;
    } else {
      var s := a + rest;
      assert s[1..] == a[1..] + rest;
      PrefixOccurs(s, b.first);
      PrefixOccurs(s, b.diagram);
      PrefixOccurs(s, b.stats);
      assert IsSlotText(b, b.first) && IsSlotText(b, b.diagram) && IsSlotText(b, b.stats);
      forall p, i | IsSlotText(b, p) && Occurs(a[1..] + rest, p, i) ensures i >= |a| - 1 {
        TailOccurs(s, p, 1, i);
      }
      ScanSkip(b, a[1..], rest);
    }
  }

  lemma ScanHit(b: Blocks, p: string, rest: string)
    requires Shaped(b) && IsSlotText(b, p)
    ensures Scan(b, p + rest) == Block(b, p) + Scan(b, rest)
  {
    var s := p + rest;
    assert s[|p|..] == rest && s[11] == p[11] && p <= s;
    assert b.first <= s ==> s[11] == b.first[11];
    assert b.diagram <= s ==> s[11] == b.diagram[11];
    assert b.stats <= s ==> s[11] == b.stats[11];
  }

  /** Text, a placeholder, and a rest whose placeholders all lie behind it. */
  lemma ScanStep(b: Blocks, s: string, k: nat, p: string)
    requires Shaped(b) && IsSlotText(b, p) && Occurs(s, p, k)
    requires forall q, i :: IsSlotText(b, q) && Occurs(s, q, i) ==> i >= k
    ensures Scan(b, s) == s[..k] + Block(b, p) + Scan(b, s[k + |p|..])
  {
    var rest := s[k + |p|..];
    assert s == s[..k] + (p + rest);
    hide Occurs, Shaped, Scan, IsSlotText;
    ScanSkip(b, s[..k], p + rest);
    ScanHit(b, p, rest);
  }

  /** The only place a placeholder stands in a draft that counts it once and
      keeps placeholders apart. */
  lemma OnlyMatch(b: Blocks, draft: string, p: string) returns (i: nat)
    requires IsPlaceholder(p) && IsSlotText(b, p) && Matches(draft, p) == 1 && Separate(b, draft)
    ensures Occurs(draft, p, i) && forall k :: Occurs(draft, p, k) ==> k == i
  {
    i := SingleMatch(draft, p);
  }

  /** In a draft that passes the gate and keeps its placeholders apart, every
      block lands exactly once, in its own slot, and the text around the slots
      is untouched; only white space follows the run stats. */
  lemma BlocksLand(b: Blocks, draft: string) returns (x: nat, y: nat, z: nat, p: string, q: string)
    requires Sound(b) && Fences(b) && GatePasses(b, draft) && Separate(b, draft)
    ensures (p == b.first && q == b.diagram) || (p == b.diagram && q == b.first)
    ensures Occurs(draft, p, x) && Occurs(draft, q, y) && Occurs(draft, b.stats, z)
    ensures x + |p| <= y && y + |q| <= z && z + |b.stats| == |TrimEnd(draft)|
    ensures Passes(b, draft) == draft[..x] + Block(b, p) + (draft[x + |p|..y] + Block(b, q)
      + (draft[y + |q|..z] + b.about + draft[|TrimEnd(draft)|..]))
  {
    hide *;
    SoundIsShaped(b);
    AboutBlock(b);
    x, y, z, p, q := InOrder(b, draft);
    BlocksAt(b, draft, x, p, y, q, z);
  }

  lemma SoundIsShaped(b: Blocks)
    requires Sound(b)
    ensures Shaped(b)
  {
  }

  lemma BlocksAt(b: Blocks, s: string, x: nat, p: string, y: nat, q: string, z: nat)
    requires Sound(b) && Fences(b) && GatePasses(b, s) && Separate(b, s)
    requires IsSlotText(b, p) && IsSlotText(b, q) && IsSlotText(b, b.stats)
    requires Occurs(s, p, x) && Occurs(s, q, y) && Occurs(s, b.stats, z)
    requires 0 < |p| && 0 < |q| && 0 < |b.stats| && x + |p| <= y && y + |q| <= z && z + |b.stats| <= |s|
    requires Places(b, s, x, y, z)
    ensures Passes(b, s) == s[..x] + Block(b, p) + (s[x + |p|..y] + Block(b, q)
      + (s[y + |q|..z] + Block(b, b.stats) + s[z + |b.stats|..]))
  {
    hide Matches, Passes, Scan, TrimEnd, AllSlot, Occurs, Block, Separate, Fences, Places, IsPlaceholder, IsSlotText;
    SeparateNotLost(b, s);
    GatedPassesAreScan(b, s);
    ScanThree(b, s, x, p, y, q, z);
  }

  /** The three placeholders, run stats last. */
  lemma InOrder(b: Blocks, draft: string) returns (x: nat, y: nat, z: nat, p: string, q: string)
    requires Fences(b) && GatePasses(b, draft) && Separate(b, draft)
    ensures (p == b.first && q == b.diagram) || (p == b.diagram && q == b.first)
    ensures IsSlotText(b, p) && IsSlotText(b, q) && IsSlotText(b, b.stats)
    ensures Occurs(draft, p, x) && Occurs(draft, q, y) && Occurs(draft, b.stats, z)
    ensures 0 < |p| && 0 < |q| && 0 < |b.stats|
    ensures x + |p| <= y && y + |q| <= z && z + |b.stats| == |TrimEnd(draft)| && Places(b, draft, x, y, z)
  {
    hide Matches, TrimEnd, AllSlot, Occurs;
    var f := OnlyMatch(b, draft, b.first);
    var d := OnlyMatch(b, draft, b.diagram);
    z := OnlyMatch(b, draft, b.stats);
    var first, last := LastMatch(b, draft);
    EndsInText(draft, b.first, f);
    EndsInText(draft, b.diagram, d);
    DifferentPlaces(b, draft, f, d, z);
    if f < d { x, y, p, q := f, d, b.first, b.diagram; } else { x, y, p, q := d, f, b.diagram, b.first; }
  }

  lemma DifferentPlaces(b: Blocks, s: string, f: nat, d: nat, z: nat)
    requires Shaped(b) && Occurs(s, b.first, f) && Occurs(s, b.diagram, d) && Occurs(s, b.stats, z)
    ensures f != d && f != z && d != z
  {
    assert s[f..f + |b.first|][11] == s[f + 11];
    assert s[d..d + |b.diagram|][11] == s[d + 11];
    assert s[z..z + |b.stats|][11] == s[z + 11];
  }

  /** Placeholders stand in three places only. */
  ghost predicate Places(b: Blocks, s: string, x: nat, y: nat, z: nat) {
    forall r, i :: IsSlotText(b, r) && Occurs(s, r, i) ==> i == x || i == y || i == z
  }

  /** The scan from position `m`, when the next placeholder is `p` at `k`. */
  lemma ScanAfter(b: Blocks, s: string, m: nat, k: nat, p: string)
    requires Shaped(b) && IsSlotText(b, p) && m <= k && Occurs(s, p, k)
    requires forall r, i :: IsSlotText(b, r) && Occurs(s, r, i) && i >= m ==> i >= k
    ensures k + |p| <= |s| && Scan(b, s[m..]) == s[m..k] + Block(b, p) + Scan(b, s[k + |p|..])
  {
    hide Occurs, Scan, Shaped, IsSlotText, Block;
    OccursInBounds(s, p, k);
    var t := s[m..];
    TailOccurs(s, p, m, k - m);
    forall r, i | IsSlotText(b, r) && Occurs(t, r, i) ensures i >= k - m {
      OccursInBounds(t, r, i);
      TailOccurs(s, r, m, i);
    }
    ScanStep(b, t, k - m, p);
    assert t[..k - m] == s[m..k] && t[k - m + |p|..] == s[k + |p|..];
  }

  lemma ShiftOccurs(s: string, p: string, m: nat, i: int)
    requires m <= |s| && Occurs(s[m..], p, i)
    ensures i >= 0 && Occurs(s, p, m + i)
  {
    TailOccurs(s, p, m, i);
  }

  /** The scan of text behind the last placeholder changes nothing. */
  lemma ScanRest(b: Blocks, s: string, m: nat)
    requires Shaped(b) && m <= |s|
    requires forall r, i :: IsSlotText(b, r) && Occurs(s, r, i) ==> i < m
    ensures Scan(b, s[m..]) == s[m..]
  {
    hide Occurs, Scan, Shaped, IsSlotText;
    var t := s[m..];
    assert t + "" == t;
    forall r, i ensures !(IsSlotText(b, r) && Occurs(t, r, i)) {
      if IsSlotText(b, r) && Occurs(t, r, i) { ShiftOccurs(s, r, m, i); }
    }
    ScanSkip(b, t, "");
    NothingToScan(b);
  }

  lemma ScanThree(b: Blocks, s: string, x: nat, p: string, y: nat, q: string, z: nat)
    requires Shaped(b) && IsSlotText(b, p) && IsSlotText(b, q) && IsSlotText(b, b.stats)
    requires Occurs(s, p, x) && Occurs(s, q, y) && Occurs(s, b.stats, z)
    requires 0 < |p| && 0 < |q| && 0 < |b.stats| && x + |p| <= y && y + |q| <= z && z + |b.stats| <= |s|
    requires Places(b, s, x, y, z)
    ensures Scan(b, s) == s[..x] + Block(b, p) + (s[x + |p|..y] + Block(b, q)
      + (s[y + |q|..z] + Block(b, b.stats) + s[z + |b.stats|..]))
  {
    hide *;
    OrderedPlaces(b, s, x, |p|, y, |q|, z, |b.stats|);
    WholeSlice(s, x);
    ScanAfter(b, s, 0, x, p);
    ScanAfter(b, s, x + |p|, y, q);
    ScanAfter(b, s, y + |q|, z, b.stats);
    ScanRest(b, s, z + |b.stats|);
  }

  lemma WholeSlice(s: string, x: nat)
    requires x <= |s|
    ensures s[0..] == s && s[0..x] == s[..x]
  {
  }

  lemma OrderedPlaces(b: Blocks, s: string, x: nat, m: nat, y: nat, n: nat, z: nat, o: nat)
    requires Places(b, s, x, y, z) && 0 < m && 0 < n && 0 < o && x + m <= y && y + n <= z
    ensures forall r, i :: IsSlotText(b, r) && Occurs(s, r, i) && i >= 0 ==> i >= x
    ensures forall r, i :: IsSlotText(b, r) && Occurs(s, r, i) && i >= x + m ==> i >= y
    ensures forall r, i :: IsSlotText(b, r) && Occurs(s, r, i) && i >= y + n ==> i >= z
    ensures forall r, i :: IsSlotText(b, r) && Occurs(s, r, i) ==> i < z + o
  {
    hide IsSlotText, Occurs;
  }

  lemma AboutBlock(b: Blocks)
    requires Shaped(b)
    ensures Block(b, b.stats) == b.about
  {
  }

  lemma NonEmptySlots(b: Blocks)
    requires Shaped(b)
    ensures |b.first| > 0 && |b.diagram| > 0 && |b.stats| > 0
    ensures b.first != b.diagram && b.first != b.stats && b.diagram != b.stats
  {
  }

  lemma NothingToScan(b: Blocks)
    requires Shaped(b)
    ensures Scan(b, "") == ""
  {
  }

  // ---- a draft the gate lets through although its placeholders overlap ----

  /** Text of the curator's between placeholders. */
  predicate Gap(text: string) { Bracketed(text) && '_' !in text }

  /** The diagram placeholder runs into the first one; both fences are shared.
      Any text may stand between them and the run stats. */
  function Overlapping(b: Blocks, text: string): string
    requires Fences(b)
  {
    b.diagram[..|b.diagram| - 2] + (b.first + (text + b.stats))
  }

  lemma {:induction false} MatchesBehind(a: string, rest: string, p: string)
    requires p != "" && forall i :: 0 <= i < |a| ==> !Occurs(a + rest, p, i)
    ensures Matches(a + rest, p) == Matches(rest, p)
  {
    if a == "" {
      assert a + rest == rest;
    } else {
      var s := a + rest;
      PrefixOccurs(s, p);
      assert s[1..] == a[1..] + rest;
      forall i | 0 <= i < |a| - 1 ensures !Occurs(a[1..] + rest, p, i) { TailOccurs(s, p, 1, i); }
      MatchesBehind(a[1..], rest, p);
    }
  }

  lemma SlotAt(s: string, p: string, i: nat, k: nat)
    requires AllSlot(p) && Occurs(s, p, i) && i <= k < i + |p|
    ensures Slot(s[k])
  {
    assert s[i..i + |p|][k - i] == s[k];
  }

  lemma OneMatchAt(a: string, p: string, rest: string)
    requires p != "" && forall i :: 0 <= i < |a| ==> !Occurs(a + (p + rest), p, i)
    requires forall i :: !Occurs(rest, p, i)
    ensures Matches(a + (p + rest), p) == 1
  {
    MatchesBehind(a, p + rest, p);
    assert (p + rest)[|p|..] == rest && rest + "" == rest;
    MatchesBehind(rest, "", p);
  }

  lemma {:induction false} PieceAt(a: string, p: string, c: string)
    ensures Occurs(a + (p + c), p, |a|)
  {
    assert (a + (p + c))[|a|..|a| + |p|] == p;
  }

  lemma {:induction false} GapAt(a: string, t: string, c: string)
    requires Gap(t)
    ensures var s := a + (t + c);
      !Slot(s[|a|]) && !Slot(s[|a| + |t| - 1]) && forall k :: |a| <= k < |a| + |t| ==> s[k] != '_'
  {
    var s := a + (t + c);
    assert forall k :: |a| <= k < |a| + |t| ==> s[k] == t[k - |a|];
  }

  lemma {:induction false} OverlapParts(b: Blocks, text: string)
    requires Fences(b) && Gap(text)
    ensures var s, n, m := Overlapping(b, text), |b.diagram| - 2, |b.diagram| - 2 + |b.first|;
      Occurs(s, b.diagram, 0) && Occurs(s, b.first, n) && Occurs(s, b.stats, m + |text|) && |s| == m + |text| + |b.stats|
      && !Slot(s[m]) && forall k :: m <= k < m + |text| ==> s[k] != '_'
  {
    hide *;
    FencesParts(b);
    OverlapForms(b, text);
    var cut, tail := b.diagram[..|b.diagram| - 2], text + b.stats;
    GapAt(cut + b.first, text, b.stats);
    PieceAt("", b.diagram, b.first[2..] + tail);
    PieceAt(cut, b.first, tail);
    PieceAt(cut + b.first + text, b.stats, "");
  }

  lemma {:induction false} OverlapForms(b: Blocks, text: string)
    requires Fences(b)
    ensures |b.diagram| >= 4 && |b.first| >= 4
    ensures var s, cut := Overlapping(b, text), b.diagram[..|b.diagram| - 2];
      s == "" + (b.diagram + (b.first[2..] + (text + b.stats))) && s == cut + (b.first + (text + b.stats))
      && s == (cut + b.first) + (text + b.stats) && s == (cut + b.first + text) + (b.stats + "")
  {
    hide AllSlot;
    var n := |b.diagram| - 2;
    assert b.first == b.first[..2] + b.first[2..] && b.diagram == b.diagram[..n] + b.diagram[n..] && b.first[..2] == b.diagram[n..];
    OverlapRegroups(b.diagram[..n], b.diagram[n..], b.first[2..], text, b.stats);
  }

  lemma {:induction false} OverlapRegroups(cut: string, f: string, rest: string, text: string, stats: string)
    ensures "" + ((cut + f) + (rest + (text + stats))) == cut + ((f + rest) + (text + stats))
    ensures (cut + (f + rest)) + (text + stats) == cut + ((f + rest) + (text + stats))
    ensures (cut + (f + rest) + text) + (stats + "") == cut + ((f + rest) + (text + stats))
  {
  }

  /** A placeholder in it stands where its like was put. */
  lemma {:induction false} OverlapOnly(b: Blocks, text: string, q: string, i: nat)
    requires Fences(b) && Gap(text) && IsPlaceholder(q) && Fenced(q) && Occurs(Overlapping(b, text), q, i)
    ensures (i == 0 && q[11] == b.diagram[11]) || (i == |b.diagram| - 2 && q[11] == b.first[11])
      || (i == |b.diagram| - 2 + |b.first| + |text| && q[11] == b.stats[11])
  {
    hide *;
    FencesParts(b);
    SlotSizes(b, q);
    OverlapParts(b, text);
    var s, n, m := Overlapping(b, text), |b.diagram| - 2, |b.diagram| - 2 + |b.first|;
    var z := m + |text|;
    OccursInBounds(s, q, i);
    SameChar(s, b.diagram, q, 0);
    SameChar(s, b.first, q, n);
    SameChar(s, b.stats, q, z);
    StartsWithFence(s, q, i);
    if 0 < i < n {
      OverlapBound(s, b.diagram, 0, q, i);
    } else if n < i < m {
      OverlapBound(s, b.first, n, q, i);
      SlotAt(s, q, i, m);
    } else if z < i {
      OverlapBound(s, b.stats, z, q, i);
    }
  }

  lemma {:induction false} SlotSizes(b: Blocks, q: string)
    requires Fences(b) && IsPlaceholder(q)
    ensures |b.first| > 11 && |b.diagram| > 11 && |b.stats| > 11 && |q| > 11 && AllSlot(q)
  {
  }

  lemma {:induction false} StartsWithFence(s: string, q: string, i: nat)
    requires IsPlaceholder(q) && Occurs(s, q, i)
    ensures s[i] == '_'
  {
    assert s[i..i + |q|][0] == s[i];
  }

  lemma {:induction false} OverlapOnce(b: Blocks, text: string)
    requires Fences(b) && Gap(text)
    ensures forall i :: Occurs(Overlapping(b, text), b.first, i) ==> i == |b.diagram| - 2
    ensures forall i :: Occurs(Overlapping(b, text), b.diagram, i) ==> i == 0
    ensures forall i :: Occurs(Overlapping(b, text), b.stats, i) ==> i == |b.diagram| - 2 + |b.first| + |text|
  {
    hide *;
    FencesParts(b);
    var s := Overlapping(b, text);
    forall i | Occurs(s, b.first, i) ensures i == |b.diagram| - 2 {
      OccursInBounds(s, b.first, i);
      OverlapOnly(b, text, b.first, i);
    }
    forall i | Occurs(s, b.diagram, i) ensures i == 0 {
      OccursInBounds(s, b.diagram, i);
      OverlapOnly(b, text, b.diagram, i);
    }
    forall i | Occurs(s, b.stats, i) ensures i == |b.diagram| - 2 + |b.first| + |text| {
      OccursInBounds(s, b.stats, i);
      OverlapOnly(b, text, b.stats, i);
    }
  }

  lemma {:induction false} OverlapPasses(b: Blocks, text: string)
    requires Fences(b) && Gap(text)
    ensures GatePasses(b, Overlapping(b, text))
  {
    hide *;
    FencesParts(b);
    FencesShaped(b);
    FenceSizes(b);
    OverlapParts(b, text);
    OverlapOnce(b, text);
    var s, n := Overlapping(b, text), |b.diagram| - 2;
    var z := n + |b.first| + |text|;
    GateParts(b, s);
    OnceAt(s, b.first, n);
    OnceAt(s, b.diagram, 0);
    OnceAt(s, b.stats, z);
    EndsInStats(b, s, z);
  }

  lemma {:induction false} FenceSizes(b: Blocks)
    requires Fences(b)
    ensures |b.first| >= 4 && |b.diagram| >= 4 && |b.stats| >= 4
  {
  }

  lemma {:induction false} EndsInStats(b: Blocks, s: string, z: nat)
    requires IsPlaceholder(b.stats) && Occurs(s, b.stats, z) && |s| == z + |b.stats|
    ensures EndsWith(TrimEnd(s), b.stats)
  {
    hide AllSlot;
    assert s[z..] == b.stats && s[|s| - 1] == b.stats[|b.stats| - 1];
    PlaceholderEnd(b.stats);
    assert TrimEnd(s) == s;
  }

  lemma PlaceholderEnd(p: string)
    requires IsPlaceholder(p)
    ensures !IsSpace(p[|p| - 1])
  {
    assert Slot(p[|p| - 1]);
  }

  lemma {:induction false} OverlapLost(b: Blocks, text: string)
    requires Fences(b) && Gap(text)
    ensures DiagramLost(b, Overlapping(b, text))
  {
    OverlapParts(b, text);
    hide Overlapping, Fenced, AllSlot, Gap;
    var s := Overlapping(b, text);
    PrefixOccurs(s, b.diagram);
    PrefixOccurs(s, b.first);
    SameChar(s, b.diagram, b.first, 0);
  }

  /** The gate counts non-overlapping matches one placeholder at a time, so it
      lets these drafts through, and the diagram does not land in them. */
  lemma {:induction false} OverlapSlipsThrough(b: Blocks, text: string)
    requires Sound(b) && Fences(b) && Gap(text)
    ensures GatePasses(b, Overlapping(b, text)) && DiagramLost(b, Overlapping(b, text))
    ensures Passes(b, Overlapping(b, text)) != Scan(b, Overlapping(b, text))
  {
    hide *;
    OverlapPasses(b, text);
    OverlapLost(b, text);
    GatedPassesAreScan(b, Overlapping(b, text));
  }

  // ---- what the passes make of the two kinds of drafts ----

  /** Text without underscores passes unchanged. */
  lemma {:induction false} TextAtFront(b: Blocks, text: string, rest: string)
    requires Sound(b) && '_' !in text
    ensures Passes(b, text + rest) == text + Passes(b, rest)
  {
    if text == "" {
      assert text + rest == rest;
    } else {
      var s := text + rest;
      assert s[0] == text[0] && s[1..] == text[1..] + rest && '_' !in text[1..];
      SlotsStart(b);
      OtherAtFront(b, s);
      hide *;
      TextAtFront(b, text[1..], rest);
      Front(text, Passes(b, rest));
    }
  }

  lemma {:induction false} Front(text: string, rest: string)
    requires text != ""
    ensures [text[0]] + (text[1..] + rest) == text + rest
  {
  }

  lemma {:induction false} SlotsStart(b: Blocks)
    requires Shaped(b)
    ensures forall s: string :: s != "" && s[0] != '_' ==> !(b.first <= s) && !(b.diagram <= s) && !(b.stats <= s)
  {
  }

  /** The run stats at the end. */
  lemma {:induction false} TailPasses(b: Blocks, text: string)
    requires Sound(b) && Fences(b) && '_' !in text
    ensures Passes(b, text + b.stats) == text + b.about
  {
    TextAtFront(b, text, b.stats);
    NothingToPass(b);
    NothingInside(b.stats, b.first);
    NothingInside(b.stats, b.diagram);
    hide Passes, AllSlot;
    assert b.stats + "" == b.stats && b.about + "" == b.about;
    StatsAtFront(b, "");
  }

  lemma {:induction false} NothingInside(s: string, p: string)
    requires |p| >= |s|
    ensures !StartsInside(s + "", p, |s|)
  {
  }

  /** Only the characters of a lost placeholder stand before the section. */
  lemma {:induction false} OverlapResult(b: Blocks, text: string)
    requires Sound(b) && Fences(b) && Gap(text)
    ensures Passes(b, Overlapping(b, text)) == b.diagram[..|b.diagram| - 2] + (b.section + (text + b.about))
  {
    hide *;
    var n, tail := |b.diagram| - 2, text + b.stats;
    FencesParts(b);
    SlotSizes(b, b.first);
    SoundParts(b);
    OverlapFirstPass(b, text);
    var block := b.diagram[..n] + b.section;
    CutBlock(b, b.diagram);
    CutBlock(b, b.stats);
    BlockSkip(block, Replace(tail, b.first, b.section), b.diagram, b.image);
    BlockSkip(block, Pass2(b, tail), b.stats, b.about);
    PassesInTwo(b, Overlapping(b, text), block, tail);
    GapHasNone(text);
    TailPasses(b, text);
    assert block + (text + b.about) == b.diagram[..n] + (b.section + (text + b.about));
  }

  lemma {:induction false} GapHasNone(text: string)
    requires Gap(text)
    ensures '_' !in text
  {
  }

  lemma {:induction false} SoundParts(b: Blocks)
    requires Sound(b)
    ensures Shaped(b) && b.section != "" && !Slot(b.section[0]) && !Slot(b.section[|b.section| - 1])
    ensures AllSlot(b.diagram) && AllSlot(b.stats) && b.diagram != "" && b.stats != "" && b.first != ""
  {
    hide Contains;
  }

  lemma {:induction false} PassesInTwo(b: Blocks, s: string, block: string, tail: string)
    requires Shaped(b) && b.first != "" && b.diagram != "" && b.stats != ""
    requires Pass1(b, s) == block + Replace(tail, b.first, b.section)
    requires Replace(block + Replace(tail, b.first, b.section), b.diagram, b.image)
          == block + Replace(Replace(tail, b.first, b.section), b.diagram, b.image)
    requires Replace(block + Pass2(b, tail), b.stats, b.about) == block + Replace(Pass2(b, tail), b.stats, b.about)
    ensures Passes(b, s) == block + Passes(b, tail)
  {
    hide Replace;
  }

  lemma {:induction false} OverlapFirstPass(b: Blocks, text: string)
    requires Sound(b) && Fences(b) && Gap(text) && |b.diagram| > 11
    ensures b.first != ""
    ensures Pass1(b, Overlapping(b, text)) == (b.diagram[..|b.diagram| - 2] + b.section) + Replace(text + b.stats, b.first, b.section)
  {
    var cut, tail := b.diagram[..|b.diagram| - 2], text + b.stats;
    FencesParts(b);
    hide Fences, Sound, Replace, Fenced, IsPlaceholder, Gap, Occurs;
    forall i | 0 <= i < |cut| ensures !Occurs(cut + (b.first + tail), b.first, i) {
      if Occurs(cut + (b.first + tail), b.first, i) { OverlapOnly(b, text, b.first, i); }
    }
    ReplaceSkip(cut, b.first + tail, b.first, b.section);
    ReplaceHit(tail, b.first, b.section);
  }

  /** A lost diagram placeholder and the section behind it hold no placeholder. */
  lemma {:induction false} CutBlock(b: Blocks, p: string)
    requires Sound(b) && Fences(b) && (p == b.diagram || p == b.stats)
    ensures var block := b.diagram[..|b.diagram| - 2] + b.section;
      block != "" && block[|block| - 1] == b.section[|b.section| - 1] && !Contains(block, p)
  {
    var n := |b.diagram| - 2;
    var cut := b.diagram[..n];
    var block := cut + b.section;
    assert block[n] == b.section[0];
    hide Contains;
    forall i ensures !Occurs(block, p, i) {
      if Occurs(block, p, i) { CutBlockAt(b, p, i); }
    }
    NoneContained(block, p);
  }

  lemma {:induction false} NoneContained(s: string, p: string)
    requires forall i :: !Occurs(s, p, i)
    ensures !Contains(s, p)
  {
  }

  lemma {:induction false} CutBlockAt(b: Blocks, p: string, i: nat)
    requires Sound(b) && Fences(b) && (p == b.diagram || p == b.stats)
    ensures !Occurs(b.diagram[..|b.diagram| - 2] + b.section, p, i)
  {
    var n, block := |b.diagram| - 2, b.diagram[..|b.diagram| - 2] + b.section;
    assert block[n] == b.section[0] && block[n..] == b.section;
    if Occurs(block, p, i) {
      if i >= n {
        TailOccurs(block, p, n, i - n);
      } else if i + |p| > n {
        SlotAt(block, p, i, n);
      } else {
        SliceOccurs(b.diagram, n, b.section, p, i);
        CutAt(b, p, i);
      }
    }
  }

  lemma {:induction false} SliceOccurs(s: string, n: nat, t: string, p: string, i: nat)
    requires n <= |s| && i + |p| <= n && Occurs(s[..n] + t, p, i)
    ensures Occurs(s, p, i)
  {
    assert (s[..n] + t)[i..i + |p|] == s[i..i + |p|];
  }

  lemma {:induction false} CutAt(b: Blocks, p: string, i: nat)
    requires Fences(b) && (p == b.diagram || p == b.stats) && i + |p| <= |b.diagram| - 2
    ensures !Occurs(b.diagram, p, i)
  {
    PrefixOccurs(b.diagram, b.diagram);
    if i == 0 && p != b.diagram {
      SameChar(b.diagram, b.diagram, p, 0);
    } else if Occurs(b.diagram, p, i) && i > 0 {
      OverlapBound(b.diagram, b.diagram, 0, p, i);
    }
  }

  // ---- a draft that is accepted ----

  /** The three placeholders, with any texts between them. */
  function PlainDraft(b: Blocks, t: string, u: string): string { b.first + (t + (b.diagram + (u + b.stats))) }

  /** A placeholder that meets another one standing between other characters
      is that one. */
  lemma {:induction false} SegmentStart(s: string, p: string, k: nat, q: string, i: nat)
    requires IsPlaceholder(p) && IsPlaceholder(q) && Fenced(p) && Fenced(q) && Occurs(s, p, k) && Occurs(s, q, i)
    requires (k == 0 || !Slot(s[k - 1])) && (k + |p| == |s| || !Slot(s[k + |p|]))
    requires i < k + |p| && k < i + |q|
    ensures i == k && q[11] == p[11]
  {
    hide Fenced, Occurs;
    OccursInBounds(s, q, i);
    OccursInBounds(s, p, k);
    if i < k { SlotAt(s, q, i, k - 1); }
    if i + |q| > k + |p| { SlotAt(s, q, i, k + |p|); }
    if i > k { OverlapBound(s, p, k, q, i); }
    SameChar(s, p, q, k);
  }

  lemma {:induction false} SameChar(s: string, p: string, q: string, k: nat)
    requires IsPlaceholder(p) && IsPlaceholder(q) && Occurs(s, p, k)
    ensures Occurs(s, q, k) ==> p[11] == q[11]
  {
    assert s[k..k + |p|][11] == s[k + 11];
    assert Occurs(s, q, k) ==> s[k..k + |q|][11] == s[k + 11];
  }

  lemma {:induction false} PlainPlaces(b: Blocks, t: string, u: string)
    ensures Occurs(PlainDraft(b, t, u), b.first, 0) && Occurs(PlainDraft(b, t, u), b.diagram, |b.first| + |t|)
    ensures Occurs(PlainDraft(b, t, u), b.stats, |b.first| + |t| + |b.diagram| + |u|)
    ensures |PlainDraft(b, t, u)| == |b.first| + |t| + |b.diagram| + |u| + |b.stats|
  {
    hide *;
    PlainForms(b, t, u);
    PieceAt("", b.first, t + (b.diagram + (u + b.stats)));
    PieceAt(b.first + t, b.diagram, u + b.stats);
    PieceAt(b.first + t + b.diagram + u, b.stats, "");
  }

  /** The characters around the diagram placeholder. */
  lemma {:induction false} PlainGaps(b: Blocks, t: string, u: string, s: string, d: nat, e: nat, z: nat)
    requires Gap(t) && Gap(u) && s == PlainDraft(b, t, u)
    requires d == |b.first| + |t| && e == d + |b.diagram| && z == e + |u|
    ensures |b.first| < d <= e < z <= |s| && !Slot(s[|b.first|]) && !Slot(s[d - 1]) && !Slot(s[e]) && !Slot(s[z - 1])
    ensures forall k :: |b.first| <= k < d || e <= k < z ==> s[k] != '_'
  {
    GapAt(b.first, t, b.diagram + (u + b.stats));
    GapAt(b.first + t + b.diagram, u, b.stats);
    PlainForms(b, t, u);
    assert t != "" && u != "";
    hide *;
  }

  lemma {:induction false} PlainForms(b: Blocks, t: string, u: string)
    ensures var s := PlainDraft(b, t, u);
      s == "" + (b.first + (t + (b.diagram + (u + b.stats)))) && s == b.first + (t + (b.diagram + (u + b.stats)))
      && s == (b.first + t) + (b.diagram + (u + b.stats)) && s == (b.first + t + b.diagram) + (u + b.stats)
      && s == (b.first + t + b.diagram + u) + (b.stats + "")
  {
    PlainRegroups(b.first, t, b.diagram, u, b.stats);
  }

  lemma {:induction false} PlainRegroups(f: string, t: string, d: string, u: string, z: string)
    ensures "" + (f + (t + (d + (u + z)))) == f + (t + (d + (u + z)))
    ensures (f + t) + (d + (u + z)) == f + (t + (d + (u + z)))
    ensures (f + t + d) + (u + z) == f + (t + (d + (u + z)))
    ensures (f + t + d + u) + (z + "") == f + (t + (d + (u + z)))
  {
  }

  /** A placeholder in the plain draft stands where its like stands. */
  lemma {:induction false} PlainOnly(b: Blocks, t: string, u: string, q: string, i: nat)
    requires Fences(b) && Gap(t) && Gap(u) && IsPlaceholder(q) && Fenced(q) && Occurs(PlainDraft(b, t, u), q, i)
    ensures (i == 0 && q[11] == b.first[11]) || (i == |b.first| + |t| && q[11] == b.diagram[11])
      || (i == |b.first| + |t| + |b.diagram| + |u| && q[11] == b.stats[11])
  {
    hide *;
    FencesParts(b);
    SlotSizes(b, q);
    var s, d, z := PlainDraft(b, t, u), |b.first| + |t|, |b.first| + |t| + |b.diagram| + |u|;
    PlainPlaces(b, t, u);
    PlainGaps(b, t, u, s, d, d + |b.diagram|, z);
    OccursInBounds(s, q, i);
    StartsWithFence(s, q, i);
    if i < |b.first| {
      SegmentStart(s, b.first, 0, q, i);
    } else if d <= i < d + |b.diagram| {
      SegmentStart(s, b.diagram, d, q, i);
    } else if z <= i {
      SegmentStart(s, b.stats, z, q, i);
    }
  }

  lemma {:induction false} FencesParts(b: Blocks)
    requires Fences(b)
    ensures IsPlaceholder(b.first) && IsPlaceholder(b.diagram) && IsPlaceholder(b.stats)
    ensures Fenced(b.first) && Fenced(b.diagram) && Fenced(b.stats)
    ensures |b.first| > 0 && |b.diagram| > 0 && |b.stats| > 0
    ensures b.first[11] != b.diagram[11] && b.first[11] != b.stats[11] && b.diagram[11] != b.stats[11]
  {
    hide Fenced, AllSlot;
  }

  lemma {:induction false} OnceAt(s: string, p: string, k: nat)
    requires p != "" && Occurs(s, p, k) && forall i :: Occurs(s, p, i) ==> i == k
    ensures Matches(s, p) == 1
  {
    hide Matches;
    var a, rest := s[..k], s[k + |p|..];
    assert s == a + (p + rest);
    forall i ensures !Occurs(rest, p, i) {
      if Occurs(rest, p, i) { TailOccurs(s, p, k + |p|, i); }
    }
    OneMatchAt(a, p, rest);
  }

  /** The gate is passed by plain drafts, whose placeholders are apart. */
  lemma {:induction false} PlainDraftPasses(b: Blocks, t: string, u: string)
    requires Fences(b) && Gap(t) && Gap(u)
    ensures GatePasses(b, PlainDraft(b, t, u)) && Separate(b, PlainDraft(b, t, u))
  {
    hide *;
    var s, d, z := PlainDraft(b, t, u), |b.first| + |t|, |b.first| + |t| + |b.diagram| + |u|;
    PlainPlaces(b, t, u);
    FencesParts(b);
    FencesShaped(b);
    forall i | Occurs(s, b.first, i) ensures i == 0 {
      OccursInBounds(s, b.first, i);
      PlainOnly(b, t, u, b.first, i);
    }
    forall i | Occurs(s, b.diagram, i) ensures i == d {
      OccursInBounds(s, b.diagram, i);
      PlainOnly(b, t, u, b.diagram, i);
    }
    forall i | Occurs(s, b.stats, i) ensures i == z {
      OccursInBounds(s, b.stats, i);
      PlainOnly(b, t, u, b.stats, i);
    }
    GateParts(b, s);
    OnceAt(s, b.first, 0);
    OnceAt(s, b.diagram, d);
    OnceAt(s, b.stats, z);
    EndsInStats(b, s, z);
    PlainSeparate(b, s, d, z);
  }

  lemma {:induction false} FencesShaped(b: Blocks)
    requires Fences(b)
    ensures Shaped(b)
  {
  }

  lemma {:induction false} GateParts(b: Blocks, draft: string)
    requires Fences(b)
    ensures |b.first| > 0 && |b.diagram| > 0 && |b.stats| > 0
    ensures (Matches(draft, b.first) == 1 && Matches(draft, b.diagram) == 1 && Matches(draft, b.stats) == 1
      && EndsWith(TrimEnd(draft), b.stats)) ==> GatePasses(b, draft)
  {
    hide Fenced, AllSlot, Matches, TrimEnd;
  }

  lemma {:induction false} PlainSeparate(b: Blocks, s: string, d: nat, z: nat)
    requires Shaped(b) && |b.first| <= d && d + |b.diagram| <= z
    requires forall i :: Occurs(s, b.first, i) ==> i == 0
    requires forall i :: Occurs(s, b.diagram, i) ==> i == d
    requires forall i :: Occurs(s, b.stats, i) ==> i == z
    ensures Separate(b, s)
  {
    NonEmptySlots(b);
    hide Occurs, AllSlot, IsPlaceholder;
  }

  /** Section, text, image, text, run stats. */
  lemma {:induction false} PlainResult(b: Blocks, t: string, u: string)
    requires Sound(b) && Fences(b) && Gap(t) && Gap(u)
    ensures Passes(b, PlainDraft(b, t, u)) == b.section + (t + (b.image + (u + b.about)))
  {
    var tail := u + b.stats;
    FirstAtFront(b, t + (b.diagram + tail));
    TextAtFront(b, t, b.diagram + tail);
    NotCut(b, u);
    DiagramAtFront(b, tail);
    TailPasses(b, u);
  }

  lemma {:induction false} NotCut(b: Blocks, u: string)
    requires Fences(b) && Gap(u)
    ensures !StartsInside(b.diagram + (u + b.stats), b.first, |b.diagram|)
  {
    var s := b.diagram + (u + b.stats);
    assert s[..|b.diagram|] == b.diagram && s[|b.diagram|] == u[0];
    SlotSizes(b, b.first);
    hide AllSlot, Fenced;
    forall j | 0 < j < |b.diagram| ensures !Occurs(s, b.first, j) {
      if Occurs(s, b.first, j) {
        OverlapBound(s, b.diagram, 0, b.first, j);
        SlotAt(s, b.first, j, |b.diagram|);
      }
    }
  }
}

/** The blocks of a forum artifact and the draft they are substituted into. */
module ForumArtifact {
  import opened Outcomes
  import opened Text
  import opened ForumLanding
  import opened ForumSections
  import opened ForumSubstitution
  import Base64
  import ForumIds
  import Utf8

  const QUESTION_PLACEHOLDER := "__ORGASMIC_QUESTION_SECTION__"
  const TARGET_PLACEHOLDER := "__ORGASMIC_TARGET_SECTION__"
  const DIAGRAM_PLACEHOLDER := "__ORGASMIC_PIPELINE_DIAGRAM__"
  const RUN_STATS_PLACEHOLDER := "__ORGASMIC_RUN_STATS__"

  lemma QuestionShape()
    ensures IsPlaceholder(QUESTION_PLACEHOLDER) && Fenced(QUESTION_PLACEHOLDER)
    ensures |QUESTION_PLACEHOLDER| == 29 && QUESTION_PLACEHOLDER[11] == 'Q'
  {
  }

  lemma TargetShape()
    ensures IsPlaceholder(TARGET_PLACEHOLDER) && Fenced(TARGET_PLACEHOLDER)
    ensures |TARGET_PLACEHOLDER| == 27 && TARGET_PLACEHOLDER[11] == 'T'
  {
  }

  lemma DiagramShape()
    ensures IsPlaceholder(DIAGRAM_PLACEHOLDER) && Fenced(DIAGRAM_PLACEHOLDER)
    ensures |DIAGRAM_PLACEHOLDER| == 29 && DIAGRAM_PLACEHOLDER[11] == 'P'
  {
  }

  lemma RunStatsShape()
    ensures IsPlaceholder(RUN_STATS_PLACEHOLDER) && Fenced(RUN_STATS_PLACEHOLDER)
    ensures |RUN_STATS_PLACEHOLDER| == 22 && RUN_STATS_PLACEHOLDER[11] == 'R'
  {
  }

  /** The named entities of running text; quotes stay as they are. */
  function HtmlEscape(s: string): string {
    if s == "" then ""
    else HtmlChar(s[0]) + HtmlEscape(s[1..])
  }

  function HtmlChar(c: char): string {
    match c case '&' => "&amp;" case '<' => "&lt;" case '>' => "&gt;" case _ => [c]
  }

  function EscapeRichText(s: string): string {
    Replace(Replace(HtmlEscape(s), "{", "&#123;"), "}", "&#125;")
  }

  /** What rich text shows for one character. */
  function RichChar(c: char): string {
    match c
    case '&' => "&amp;"
    case '<' => "&lt;"
    case '>' => "&gt;"
    case '{' => "&#123;"
    case '}' => "&#125;"
    case _ => [c]
  }

  function RichText(s: string): string {
    if s == "" then "" else RichChar(s[0]) + RichText(s[1..])
  }

  lemma RichCharPasses(c: char)
    ensures Replace(Replace(HtmlChar(c), "{", "&#123;"), "}", "&#125;") == RichChar(c)
  {
    hide Replace;
    if c == '{' {
      OneCharHit('{', "&#123;");
      OneCharAbsent("&#123;", '}', "&#125;");
    } else if c == '}' {
      OneCharAbsent("}", '{', "&#123;");
      OneCharHit('}', "&#125;");
    } else {
      OneCharAbsent(HtmlChar(c), '{', "&#123;");
      OneCharAbsent(HtmlChar(c), '}', "&#125;");
    }
  }

  lemma OneCharHit(c: char, r: string)
    ensures Replace([c], [c], r) == r
  {
    assert [c][1..] == "" && r + "" == r;
  }

  lemma OneCharAbsent(s: string, c: char, r: string)
    requires c !in s
    ensures Replace(s, [c], r) == s
  {
    forall i | 0 <= i < |s| ensures !Occurs(s, [c], i) {
      assert s[i] in s && s[i..i + 1] == [s[i]];
    }
    ReplaceNone(s, [c], r);
  }

  /** Escaping is one substitution per character. */
  lemma {:induction false} EscapeIsRichText(s: string)
    ensures EscapeRichText(s) == RichText(s)
  {
    if s != "" {
      var h := HtmlChar(s[0]);
      var rest := HtmlEscape(s[1..]);
      ReplaceCharConcat(h, rest, '{', "&#123;");
      ReplaceCharConcat(Replace(h, "{", "&#123;"), Replace(rest, "{", "&#123;"), '}', "&#125;");
      RichCharPasses(s[0]);
      EscapeIsRichText(s[1..]);
    }
  }

  /** Placeholder text at the front of escaped text was at the front of the
      text: no entity holds a placeholder character. */
  lemma {:induction false} RichSlotPrefix(s: string, n: nat)
    requires n <= |RichText(s)| && AllSlot(RichText(s)[..n])
    ensures n <= |s| && s[..n] == RichText(s)[..n]
  {
    if n > 0 && s != "" {
      var t, tail := RichText(s), RichText(s[1..]);
      assert t[..n][0] == t[0] == RichChar(s[0])[0];
      assert Slot(t[..n][0]);
      assert RichChar(s[0]) == [s[0]];
      var u := tail[..n - 1];
      forall i | 0 <= i < |u| ensures Slot(u[i]) { assert Slot(t[..n][i + 1]); }
      RichSlotPrefix(s[1..], n - 1);
      assert t[..n] == [s[0]] + u && s[..n] == [s[0]] + s[1..][..n - 1];
    }
  }

  /** Escaping creates no placeholder. */
  lemma {:induction false} EscapeCreatesNone(s: string, p: string, k: nat)
    requires IsPlaceholder(p) && Occurs(RichText(s), p, k)
    ensures Contains(s, p)
  {
    if s != "" {
      var t, head, tail := RichText(s), RichChar(s[0]), RichText(s[1..]);
      if k == 0 {
        assert t[..|p|] == p;
        RichSlotPrefix(s, |p|);
        assert Occurs(s, p, 0);
      } else {
        assert t[k..k + |p|][0] == t[k];
        assert k >= |head|;
        assert tail == t[|head|..];
        TailOccurs(t, p, |head|, k - |head|);
        EscapeCreatesNone(s[1..], p, k - |head|);
        var j :| Occurs(s[1..], p, j);
        TailOccurs(s, p, 1, j);
      }
    }
  }

  lemma OccursInJoin(u: string, v: string, p: string, k: nat)
    requires IsPlaceholder(p) && Occurs(u + v, p, k)
    ensures Contains(u, p) || Contains(v, p) || (u != "" && v != "" && Slot(u[|u| - 1]) && Slot(v[0]))
  {
    var t := u + v;
    if k >= |u| {
      assert t[|u|..] == v;
      TailOccurs(t, p, |u|, k - |u|);
    } else if k + |p| <= |u| {
      assert t[k..k + |p|] == u[k..k + |p|];
      assert Occurs(u, p, k);
    } else {
      assert t[k..k + |p|][|u| - 1 - k] == u[|u| - 1];
      assert t[k..k + |p|][|u| - k] == v[0];
    }
  }

  /** Two texts joined at a character no placeholder holds. */
  lemma JoinCreatesNone(u: string, v: string, p: string)
    requires IsPlaceholder(p) && !Contains(u, p) && !Contains(v, p)
    requires u == "" || v == "" || !Slot(u[|u| - 1]) || !Slot(v[0])
    ensures !Contains(u + v, p)
  {
    forall k ensures !Occurs(u + v, p, k) {
      if Occurs(u + v, p, k) { OccursInJoin(u, v, p, k); }
    }
  }

  lemma HoldsUnderscore(s: string, p: string, k: nat)
    requires IsPlaceholder(p) && Occurs(s, p, k)
    ensures '_' in s
  {
    assert s[k..k + |p|][0] == s[k];
  }

  lemma NoUnderscore(s: string, p: string)
    requires IsPlaceholder(p) && '_' !in s
    ensures !Contains(s, p)
  {
    forall k ensures !Occurs(s, p, k) {
      if Occurs(s, p, k) { HoldsUnderscore(s, p, k); }
    }
  }

  // ---- the input of a round and its blocks ----

  datatype Input = Ask(question: string) | Critique(target: string, focus: Option<string>)

  datatype InputError =
    | EmptyQuestion | QuestionHasPlaceholder | QuestionStartsWithDash
    | EmptyFocus | FocusNotOneLine | FocusHasPlaceholder | FocusStartsWithDash
    | TargetTooLong | BlankTarget | TargetHasPlaceholder

  const MAX_TARGET_BYTES := 65536

  predicate Holds(s: string, p: string) { Find(s, p).Some? }

  predicate OfOrchestrator(p: string) {
    p == QUESTION_PLACEHOLDER || p == TARGET_PLACEHOLDER || p == DIAGRAM_PLACEHOLDER || p == RUN_STATS_PLACEHOLDER
  }

  predicate ContainsOrchestratorPlaceholder(s: string) {
    Holds(s, QUESTION_PLACEHOLDER) || Holds(s, TARGET_PLACEHOLDER) || Holds(s, DIAGRAM_PLACEHOLDER) || Holds(s, RUN_STATS_PLACEHOLDER)
  }

  function ValidateQuestion(question: string): Option<InputError> {
    if question == "" then Some(EmptyQuestion)
    else if ContainsOrchestratorPlaceholder(question) then Some(QuestionHasPlaceholder)
    else if question[0] == '-' then Some(QuestionStartsWithDash)
    else None
  }

  function ValidateFocus(focus: string): Option<InputError> {
    if focus == "" then Some(EmptyFocus)
    else if '\n' in focus || '\r' in focus then Some(FocusNotOneLine)
    else if ContainsOrchestratorPlaceholder(focus) then Some(FocusHasPlaceholder)
    else if focus[0] == '-' then Some(FocusStartsWithDash)
    else None
  }

  function ValidateTarget(target: string): Option<InputError> {
    if |Utf8.Encode(target)| > MAX_TARGET_BYTES then Some(TargetTooLong)
    else if Blank(target) then Some(BlankTarget)
    else if ContainsOrchestratorPlaceholder(target) then Some(TargetHasPlaceholder)
    else None
  }

  function ValidateInput(input: Input): Option<InputError> {
    match input
    case Ask(question) => ValidateQuestion(question)
    case Critique(target, focus) =>
      var error := ValidateTarget(target);
      if error.Some? || focus.None? then error else ValidateFocus(focus.value)
  }

  function AskHead(): string { "<Section title=\"Question\">\n<RichText>\n" }
  function CritiqueHead(): string { "<Section title=\"Target\">\n<RichText>\n" }
  function FocusHead(): string { "\n\n**Focus:** " }
  function SectionTail(): string { "\n</RichText>\n</Section>" }

  /** The verbatim text of the input, as the first section shows it. */
  function FirstSection(input: Input): string {
    match input
    case Ask(question) => AskHead() + EscapeRichText(question) + SectionTail()
    case Critique(target, focus) =>
      CritiqueHead() + EscapeRichText(target)
      + (if focus.Some? then FocusHead() + EscapeRichText(focus.value) else "") + SectionTail()
  }

  function AltSubject(input: Input): string { if input.Ask? then "Question flows through " else "Target flows through " }

  function AltMeans(input: Input): string { if input.Ask? then "independent extraction" else "independent critique" }

  function AltOf(input: Input): string { AltSubject(input) + AltMeans(input) }

  function AltRoute(hasReviews: bool): string {
    if hasReviews then " and blind cross-review into curation" else " directly into curation"
  }

  function ImageCaption(input: Input): string {
    CaptionSource(input) + CaptionGoal(input)
  }

  function CaptionSource(input: Input): string { if input.Ask? then "From the verbatim question" else "From the verbatim target" }

  function CaptionGoal(input: Input): string { if input.Ask? then " to the curated final answer." else " to the curated verdict." }

  function ImageHead(): string { "<Image src=\"data:image/svg+xml;base64," }
  function AltHead(): string { "\" alt=\"" }
  function CaptionHead(): string { "\" caption=\"" }
  function ImageTail(): string { "\" />" }

  function Image(input: Input, svg: seq<bv8>, hasReviews: bool): string {
    ImageHead() + Base64.Encode(svg) + AltHead() + AltOf(input) + AltRoute(hasReviews) + CaptionHead() + ImageCaption(input) + ImageTail()
  }

  function First(input: Input): string { if input.Ask? then QUESTION_PLACEHOLDER else TARGET_PLACEHOLDER }

  function Other(input: Input): string { if input.Ask? then TARGET_PLACEHOLDER else QUESTION_PLACEHOLDER }

  function InputBlocks(input: Input, svg: seq<bv8>, hasReviews: bool, about: string): Blocks {
    Blocks(First(input), FirstSection(input), DIAGRAM_PLACEHOLDER, Image(input, svg, hasReviews), RUN_STATS_PLACEHOLDER, about)
  }

  datatype AssemblyError = ModelSvg | PlaceholderCount | StatsNotLast | WrongSections(error: SectionError) | MissingTasks

  /** The titles a document must have, in this order. */
  function Required(input: Input): seq<string> {
    if input.Ask? then ["Question", "Final answer", "From question to answer", "Knowledge map"]
    else ["Target", "Verdict", "Findings", "From target to verdict"]
  }

  /** The checks on the draft, the three passes, and the checks on the result. */
  function Assemble(draft: string, input: Input, svg: seq<bv8>, hasReviews: bool, about: string, tasks: seq<string>)
    : Result<string, AssemblyError>
  {
    BlocksShaped(input, svg, hasReviews, about);
    var b := InputBlocks(input, svg, hasReviews, about);
    if HoldsModelSvg(draft) then Err(ModelSvg)
    else if Matches(draft, b.first) != 1 || Holds(draft, Other(input)) || Matches(draft, DIAGRAM_PLACEHOLDER) != 1
      || Matches(draft, RUN_STATS_PLACEHOLDER) != 1
    then Err(PlaceholderCount)
    else if !EndsWith(TrimEnd(draft), RUN_STATS_PLACEHOLDER) then Err(StatsNotLast)
    else
      var mdx := Passes(b, draft);
      var wrong := CheckSections(mdx, b.section, Required(input));
      if wrong.Some? then Err(WrongSections(wrong.value))
      else if exists k :: 0 <= k < |tasks| && !TaskIsPresent(draft, tasks[k]) then Err(MissingTasks)
      else Ok(mdx)
  }

  lemma BlocksShaped(input: Input, svg: seq<bv8>, hasReviews: bool, about: string)
    ensures Shaped(InputBlocks(input, svg, hasReviews, about)) && Fences(InputBlocks(input, svg, hasReviews, about))
  {
    QuestionShape();
    TargetShape();
    DiagramShape();
    RunStatsShape();
    hide IsPlaceholder, Fenced, FirstSection, Image;
  }

  lemma AskHeadShape()
    ensures '_' !in AskHead() && AskHead() != "" && AskHead()[0] == '<' && AskHead()[|AskHead()| - 1] == '\n'
  {
  }

  lemma CritiqueHeadShape()
    ensures '_' !in CritiqueHead() && CritiqueHead() != "" && CritiqueHead()[0] == '<' && CritiqueHead()[|CritiqueHead()| - 1] == '\n'
  {
  }

  lemma FocusHeadShape()
    ensures '_' !in FocusHead() && FocusHead() != "" && FocusHead()[0] == '\n' && FocusHead()[|FocusHead()| - 1] == ' '
  {
  }

  lemma SectionTailShape()
    ensures '_' !in SectionTail() && SectionTail() != "" && SectionTail()[0] == '\n' && SectionTail()[|SectionTail()| - 1] == '>'
  {
  }

  lemma ImageHeadShape()
    ensures '_' !in ImageHead() && ImageHead() != "" && ImageHead()[0] == '<' && ImageHead()[|ImageHead()| - 1] == ','
  {
  }

  lemma AltHeadShape()
    ensures '_' !in AltHead() && AltHead() != "" && AltHead()[0] == '"' && AltHead()[|AltHead()| - 1] == '"'
  {
  }

  lemma CaptionHeadShape()
    ensures '_' !in CaptionHead() && CaptionHead() != "" && CaptionHead()[0] == '"' && CaptionHead()[|CaptionHead()| - 1] == '"'
  {
  }

  lemma ImageTailShape()
    ensures '_' !in ImageTail() && ImageTail() != "" && ImageTail()[0] == '"' && ImageTail()[|ImageTail()| - 1] == '>'
  {
  }

  lemma AltPlain(input: Input)
    ensures '_' !in AltOf(input)
  {
    SubjectPlain(input);
    MeansPlain(input);
    hide AltSubject, AltMeans;
  }

  lemma SubjectPlain(input: Input)
    ensures '_' !in AltSubject(input)
  {
  }

  lemma MeansPlain(input: Input)
    ensures '_' !in AltMeans(input)
  {
  }

  lemma RoutePlain(hasReviews: bool)
    ensures '_' !in AltRoute(hasReviews)
  {
  }

  lemma CaptionPlain(input: Input)
    ensures '_' !in ImageCaption(input)
  {
    SourcePlain(input);
    GoalPlain(input);
    hide CaptionSource, CaptionGoal;
  }

  lemma SourcePlain(input: Input)
    ensures '_' !in CaptionSource(input)
  {
  }

  lemma GoalPlain(input: Input)
    ensures '_' !in CaptionGoal(input)
  {
  }

  lemma PlainImage(input: Input, svg: seq<bv8>, hasReviews: bool)
    ensures '_' !in Image(input, svg, hasReviews) && Bracketed(Image(input, svg, hasReviews))
  {
    hide AltOf, AltRoute, ImageCaption, ImageHead, AltHead, CaptionHead, ImageTail;
    ImageHeadShape();
    AltHeadShape();
    CaptionHeadShape();
    ImageTailShape();
    AltPlain(input);
    RoutePlain(hasReviews);
    CaptionPlain(input);
    Base64.NoUnderscore(svg);
  }

  lemma RichTextCreatesNone(s: string, p: string)
    requires IsPlaceholder(p) && !Contains(s, p)
    ensures !Contains(EscapeRichText(s), p)
  {
    hide IsPlaceholder;
    EscapeIsRichText(s);
    forall k ensures !Occurs(RichText(s), p, k) {
      if Occurs(RichText(s), p, k) { EscapeCreatesNone(s, p, k); }
    }
  }

  /** Fixed text around an escaped value holds no placeholder the value lacks. */
  lemma Framed(head: string, value: string, tail: string, p: string)
    requires IsPlaceholder(p) && !Contains(value, p) && !Contains(tail, p)
    requires '_' !in head && head != "" && !Slot(head[|head| - 1]) && tail != "" && !Slot(tail[0])
    ensures !Contains(head + value + tail, p)
  {
    hide IsPlaceholder, Contains;
    NoUnderscore(head, p);
    JoinCreatesNone(head, value, p);
    JoinCreatesNone(head + value, tail, p);
  }

  lemma SectionFree(input: Input, p: string)
    requires IsPlaceholder(p)
    requires input.Ask? ==> !Contains(input.question, p)
    requires input.Critique? ==> !Contains(input.target, p) && (input.focus.Some? ==> !Contains(input.focus.value, p))
    ensures !Contains(FirstSection(input), p) && Bracketed(FirstSection(input))
  {
    hide IsPlaceholder, Contains, EscapeRichText, AskHead, CritiqueHead, FocusHead, SectionTail;
    AskHeadShape();
    CritiqueHeadShape();
    FocusHeadShape();
    SectionTailShape();
    NoUnderscore(SectionTail(), p);
    match input {
      case Ask(question) =>
        RichTextCreatesNone(question, p);
        Framed(AskHead(), EscapeRichText(question), SectionTail(), p);
      case Critique(target, focus) =>
        RichTextCreatesNone(target, p);
        if focus.None? {
          Framed(CritiqueHead(), EscapeRichText(target), SectionTail(), p);
          assert CritiqueHead() + EscapeRichText(target) + "" == CritiqueHead() + EscapeRichText(target);
        } else {
          var tail := FocusHead() + EscapeRichText(focus.value) + SectionTail();
          RichTextCreatesNone(focus.value, p);
          Framed(FocusHead(), EscapeRichText(focus.value), SectionTail(), p);
          Framed(CritiqueHead(), EscapeRichText(target), tail, p);
          assert FirstSection(input) == CritiqueHead() + EscapeRichText(target) + tail;
        }
    }
  }

  lemma ValidTextFree(s: string, p: string)
    requires !ContainsOrchestratorPlaceholder(s) && OfOrchestrator(p)
    ensures !Contains(s, p)
  {
  }

  /** Every input that passes its validators gives sound blocks. */
  lemma ValidBlocksSound(input: Input, svg: seq<bv8>, hasReviews: bool, about: string)
    requires ValidateInput(input).None?
    ensures Sound(InputBlocks(input, svg, hasReviews, about)) && Fences(InputBlocks(input, svg, hasReviews, about))
  {
    BlocksShaped(input, svg, hasReviews, about);
    PlainImage(input, svg, hasReviews);
    DiagramShape();
    RunStatsShape();
    hide IsPlaceholder, Fenced, FirstSection, Image, Contains, ContainsOrchestratorPlaceholder;
    NoUnderscore(Image(input, svg, hasReviews), RUN_STATS_PLACEHOLDER);
    ValidSection(input, DIAGRAM_PLACEHOLDER);
    ValidSection(input, RUN_STATS_PLACEHOLDER);
  }

  lemma ValidSection(input: Input, p: string)
    requires ValidateInput(input).None? && IsPlaceholder(p) && OfOrchestrator(p)
    ensures !Contains(FirstSection(input), p) && Bracketed(FirstSection(input))
  {
    hide IsPlaceholder, FirstSection, Contains, ContainsOrchestratorPlaceholder, OfOrchestrator;
    match input {
      case Ask(question) => ValidTextFree(question, p);
      case Critique(target, focus) =>
        ValidTextFree(target, p);
        if focus.Some? { ValidTextFree(focus.value, p); }
    }
    SectionFree(input, p);
  }

  /** For every valid input and every accepted draft, the assembled text is the
      simultaneous substitution if and only if no diagram placeholder is lost. */
  lemma AssembledIsScan(draft: string, input: Input, svg: seq<bv8>, hasReviews: bool, about: string, tasks: seq<string>)
    requires ValidateInput(input).None? && Assemble(draft, input, svg, hasReviews, about, tasks).Ok?
    ensures var b := InputBlocks(input, svg, hasReviews, about);
      Shaped(b) && (Assemble(draft, input, svg, hasReviews, about, tasks).value == Scan(b, draft) <==> !DiagramLost(b, draft))
  {
    hide Passes, Scan, DiagramLost, Matches, TrimEnd, FirstSection, Image, IsPlaceholder, Fenced;
    ValidBlocksSound(input, svg, hasReviews, about);
    GatedPassesAreScan(InputBlocks(input, svg, hasReviews, about), draft);
  }

  /** For every valid input and every accepted draft whose placeholders do not
      overlap: the verbatim section, the image and the run stats each land once,
      in their own slots, the text between them is the draft's, and only the
      draft's trailing white space follows the run stats. */
  lemma AssembledLayout(draft: string, input: Input, svg: seq<bv8>, hasReviews: bool, about: string, tasks: seq<string>)
      returns (x: nat, y: nat, z: nat, p: string, q: string)
    requires ValidateInput(input).None? && Assemble(draft, input, svg, hasReviews, about, tasks).Ok?
    requires Separate(InputBlocks(input, svg, hasReviews, about), draft)
    ensures var b := InputBlocks(input, svg, hasReviews, about);
      ((p == b.first && q == b.diagram) || (p == b.diagram && q == b.first))
      && Occurs(draft, p, x) && Occurs(draft, q, y) && Occurs(draft, b.stats, z)
      && x + |p| <= y && y + |q| <= z && z + |b.stats| == |TrimEnd(draft)|
      && Assemble(draft, input, svg, hasReviews, about, tasks).value ==
        draft[..x] + Block(b, p) + (draft[x + |p|..y] + Block(b, q) + (draft[y + |q|..z] + about + draft[|TrimEnd(draft)|..]))
  {
    var b := InputBlocks(input, svg, hasReviews, about);
    ValidBlocksSound(input, svg, hasReviews, about);
    AssembledPasses(draft, input, svg, hasReviews, about, tasks);
    hide *;
    x, y, z, p, q := BlocksLand(b, draft);
  }

  lemma AssembledPasses(draft: string, input: Input, svg: seq<bv8>, hasReviews: bool, about: string, tasks: seq<string>)
    requires Assemble(draft, input, svg, hasReviews, about, tasks).Ok?
    ensures var b := InputBlocks(input, svg, hasReviews, about);
      b.about == about && Shaped(b) && GatePasses(b, draft)
      && Assemble(draft, input, svg, hasReviews, about, tasks).value == Passes(b, draft)
  {
    BlocksShaped(input, svg, hasReviews, about);
    hide Passes, Matches, TrimEnd, FirstSection, Image, IsPlaceholder, Fenced, Separate;
  }

  /** The artifact ends with the run stats up to trailing white space. */
  lemma AssembledEndsWithStats(draft: string, input: Input, svg: seq<bv8>, hasReviews: bool, about: string, tasks: seq<string>)
    requires ValidateInput(input).None? && Assemble(draft, input, svg, hasReviews, about, tasks).Ok?
    requires Separate(InputBlocks(input, svg, hasReviews, about), draft)
    requires about != "" && !IsSpace(about[|about| - 1])
    ensures EndsWith(TrimEnd(Assemble(draft, input, svg, hasReviews, about, tasks).value), about)
  {
    hide *;
    var x, y, z, p, q := AssembledLayout(draft, input, svg, hasReviews, about, tasks);
    var b, tail := InputBlocks(input, svg, hasReviews, about), draft[|TrimEnd(draft)|..];
    Regroup(draft[..x], Block(b, p), draft[x + |p|..y], Block(b, q), draft[y + |q|..z], about, tail);
    TrimToText(draft[..x] + Block(b, p) + (draft[x + |p|..y] + Block(b, q) + draft[y + |q|..z]), about, tail);
  }

  lemma Regroup(a: string, b: string, c: string, d: string, e: string, f: string, g: string)
    ensures a + b + (c + d + (e + f + g)) == (a + b + (c + d + e)) + f + g
  {
  }

  /** The exact condition for all blocks to land: for every valid input and every
      accepted draft each of the three passes rewrites its placeholder exactly
      once if and only if the draft has a diagram placeholder apart from the
      first one and a run-stats placeholder apart from both; then each block
      stands once in its own place. When no placeholder overlaps itself, that is
      when no two share a character. */
  lemma {:induction false} AssembledLandsExactly(draft: string, input: Input, svg: seq<bv8>, hasReviews: bool, about: string,
                                                 tasks: seq<string>)
    requires ValidateInput(input).None? && Assemble(draft, input, svg, hasReviews, about, tasks).Ok?
    ensures var b := InputBlocks(input, svg, hasReviews, about);
      Shaped(b) && b.first != "" && b.diagram != "" && b.stats != "" && Matches(draft, b.first) == 1
      && (Matches(Pass1(b, draft), b.diagram) == 1 && Matches(Pass2(b, draft), b.stats) == 1 <==> AllLand(b, draft))
      && (OneIndex(draft, b.first) && OneIndex(draft, b.diagram) && OneIndex(draft, b.stats) ==>
            (AllLand(b, draft) <==> Separate(b, draft)))
    ensures var b := InputBlocks(input, svg, hasReviews, about);
      AllLand(b, draft) ==>
        Assemble(draft, input, svg, hasReviews, about, tasks).value == Passes(b, draft) && FirstPlace(b, draft).Some?
        && DiagramPlace(b, draft).Some? && StatsPlace(b, draft).Some?
        && InPlace(b, draft, FirstPlace(b, draft).value, DiagramPlace(b, draft).value, StatsPlace(b, draft).value)
  {
    hide *;
    var b := InputBlocks(input, svg, hasReviews, about);
    ValidBlocksSound(input, svg, hasReviews, about);
    AssembledPasses(draft, input, svg, hasReviews, about, tasks);
    LandExactly(b, draft);
    LandBoth(b, draft);
    FirstCounted(b, draft);
    if AllLand(b, draft) { LaidOut(b, draft); }
    if OneIndex(draft, b.first) && OneIndex(draft, b.diagram) && OneIndex(draft, b.stats) { LandIffSeparate(b, draft); }
  }

  lemma {:induction false} FirstCounted(b: Blocks, draft: string)
    requires Shaped(b) && GatePasses(b, draft)
    ensures b.first != "" && Matches(draft, b.first) == 1
  {
  }

  /** The exact condition for the end: as both renderings of the run stats end in
      a tag, the artifact ends with them, up to white space, if and only if the
      run-stats placeholder that ends the draft is the one that is rewritten. */
  lemma {:induction false} AssembledEndsExactly(draft: string, input: Input, svg: seq<bv8>, hasReviews: bool, about: string,
                                                tasks: seq<string>)
    requires ValidateInput(input).None? && Assemble(draft, input, svg, hasReviews, about, tasks).Ok?
    requires about != "" && about[|about| - 1] == '>'
    ensures EndsWith(TrimEnd(Assemble(draft, input, svg, hasReviews, about, tasks).value), about)
       <==> StatsLandLast(InputBlocks(input, svg, hasReviews, about), draft)
  {
    hide *;
    ValidBlocksSound(input, svg, hasReviews, about);
    AssembledPasses(draft, input, svg, hasReviews, about, tasks);
    TagEndIsNoSlot();
    EndExactly(InputBlocks(input, svg, hasReviews, about), draft);
  }

  lemma {:induction false} TagEndIsNoSlot()
    ensures !Slot('>') && !IsSpace('>')
  {
  }

  /** In every assembled document, also one whose placeholders overlapped, the
      first section of all is the verbatim input. */
  lemma {:induction false} AssembledVerbatimFirst(draft: string, input: Input, svg: seq<bv8>, hasReviews: bool, about: string,
                                                  tasks: seq<string>)
    requires Assemble(draft, input, svg, hasReviews, about, tasks).Ok?
    ensures var mdx := Assemble(draft, input, svg, hasReviews, about, tasks).value;
      exists o :: Occurs(mdx, FirstSection(input), o) && Occurs(mdx, Opening(), o) && forall i :: 0 <= i < o ==> !Occurs(mdx, Opening(), i)
  {
    BlocksShaped(input, svg, hasReviews, about);
    hide Passes, Matches, TrimEnd, FirstSection, Image, IsPlaceholder, Fenced, CheckSections, HoldsModelSvg, TaskIsPresent;
    var b := InputBlocks(input, svg, hasReviews, about);
    VerbatimFirst(Passes(b, draft), b.section, Required(input));
  }

  // ---- drafts that are accepted ----

  /** The other sections and the raw task ids, each on a line of its own. */
  function DraftText(input: Input, tasks: seq<string>): string { Tags(Required(input)) + (IdLines(tasks) + "\n") }

  lemma {:induction false} TitlesFit(input: Input)
    ensures FourTitles(Required(input))
  {
    TitleLengths(input);
    if input.Ask? { AskTitlesPlain(); } else { CritiqueTitlesPlain(); }
    hide PlainTitle;
  }

  lemma {:induction false} TitleLengths(input: Input)
    ensures |Required(input)| == 4 && |Required(input)[0]| < |Required(input)[1]| < |Required(input)[2]|
    ensures |Required(input)[0]| < |Required(input)[3]|
    ensures |Required(input)[1]| != |Required(input)[3]| && |Required(input)[2]| != |Required(input)[3]|
  {
  }

  lemma {:induction false} AskTitlesPlain()
    ensures PlainTitle("Question") && PlainTitle("Final answer") && PlainTitle("From question to answer") && PlainTitle("Knowledge map")
  {
  }

  lemma {:induction false} CritiqueTitlesPlain()
    ensures PlainTitle("Target") && PlainTitle("Verdict") && PlainTitle("Findings") && PlainTitle("From target to verdict")
  {
  }

  lemma {:induction false} TagPlain(title: string)
    requires PlainTitle(title)
    ensures SectionsOnly(Tag(title)) && '_' !in Tag(title) && Tag(title) != "" && Tag(title)[|Tag(title)| - 1] == '>'
  {
    var t := Tag(title);
    LeadPlain();
    hide Lead;
    forall i | 0 <= i < |t| ensures t[i] != '_' && t[i] != ':' && (t[i] == '<' ==> i == 0) {
      if i < 16 { assert t[i] == Lead()[i]; } else if i < 16 + |title| { assert t[i] == title[i - 16] && title[i - 16] in title; }
    }
    assert t[1] == Lead()[1] && t[2] == Lead()[2];
  }

  lemma {:induction false} LeadPlain()
    ensures |Lead()| == 16 && Lead()[1] == 'S' && Lead()[2] == 'e'
    ensures forall i :: 0 <= i < 16 ==> Lead()[i] != '_' && Lead()[i] != ':' && (Lead()[i] == '<' ==> i == 0)
  {
  }

  lemma {:induction false} JoinSections(u: string, v: string)
    requires SectionsOnly(u) && SectionsOnly(v)
    ensures SectionsOnly(u + v)
  {
    var s := u + v;
    forall i | 0 <= i < |s| && s[i] == '<' ensures i + 2 < |s| && s[i + 1] == 'S' && s[i + 2] == 'e' {
      assert s[i] == if i < |u| then u[i] else v[i - |u|];
    }
  }

  lemma {:induction false} NoTags(u: string)
    requires ':' !in u && '<' !in u
    ensures SectionsOnly(u)
  {
  }

  lemma {:induction false} TagsPlain(required: seq<string>)
    requires FourTitles(required)
    ensures SectionsOnly(Tags(required)) && '_' !in Tags(required) && Tags(required) != "" && Tags(required)[0] == '\n'
  {
    TagsParts(required);
    hide Tag, PlainTitle, SectionsOnly;
    TagPlain(required[1]);
    TagPlain(required[2]);
    TagPlain(required[3]);
    NoTags("\n");
    var t1, t2, t3 := Tag(required[1]), Tag(required[2]), Tag(required[3]);
    JoinSections("\n", t1);
    JoinSections("\n" + t1, "\n");
    JoinSections("\n" + t1 + "\n", t2);
    JoinSections("\n" + t1 + "\n" + t2, "\n");
    JoinSections("\n" + t1 + "\n" + t2 + "\n", t3);
  }

  ghost predicate TaskIds(tasks: seq<string>) { forall t :: t in tasks ==> ForumIds.TaskPathId(t) }

  lemma {:induction false} TaskIdTexts(tasks: seq<string>)
    requires TaskIds(tasks)
    ensures forall t :: t in tasks ==> IdText(t) && t != ""
  {
    forall t | t in tasks ensures IdText(t) && t != "" { TaskIdText(t); }
  }

  lemma {:induction false} DraftTextFits(input: Input, tasks: seq<string>)
    requires TaskIds(tasks)
    ensures SectionsOnly(DraftText(input, tasks)) && Gap(DraftText(input, tasks))
  {
    TitlesFit(input);
    TagsPlain(Required(input));
    TaskIdTexts(tasks);
    hide Tags, FourTitles, Required, TaskIds, SectionsOnly, IdText;
    LinesPlain(tasks);
    var lines := IdLines(tasks) + "\n";
    assert '_' !in lines && ':' !in lines && '<' !in lines;
    NoTags(lines);
    JoinSections(Tags(Required(input)), lines);
  }

  lemma {:induction false} SlotsHoldNoTags(p: string)
    requires AllSlot(p)
    ensures SectionsOnly(p) && (forall n :: 0 <= n <= |p| ==> SectionsOnly(p[..n]) && SectionsOnly(p[n..]))
  {
    assert forall c :: c in p ==> Slot(c);
  }

  /** The first section as its tag and its body. */
  function SectionBody(input: Input): string { FirstSection(input)[|Tag(Required(input)[0])|..] }

  /** The rich text the first section shows. */
  function Shown(input: Input): string {
    match input
    case Ask(question) => EscapeRichText(question)
    case Critique(target, focus) => EscapeRichText(target) + if focus.Some? then FocusHead() + EscapeRichText(focus.value) else ""
  }

  lemma {:induction false} SectionInParts(input: Input)
    ensures FirstSection(input) == Tag(Required(input)[0]) + SectionBody(input) && NoSection(SectionBody(input))
  {
    hide *;
    ShownHasNoTag(input);
    BodyHasNoSection(Shown(input));
    SectionShows(input);
    TitlesAreFour(input);
    var tag, body := Tag(Required(input)[0]), OpenRich() + Shown(input) + SectionTail();
    assert (tag + OpenRich()) + Shown(input) + SectionTail() == tag + body;
    Behind(tag, body, FirstSection(input));
    BodyIsBehind(input);
  }

  lemma {:induction false} BodyIsBehind(input: Input)
    ensures |Required(input)| == 4 && |Tag(Required(input)[0])| <= |FirstSection(input)|
    ensures SectionBody(input) == FirstSection(input)[|Tag(Required(input)[0])|..]
  {
    SectionShows(input);
    hide FirstSection, Tag;
  }

  lemma {:induction false} SectionShows(input: Input)
    ensures |Required(input)| == 4
    ensures FirstSection(input) == (Tag(Required(input)[0]) + OpenRich()) + Shown(input) + SectionTail()
  {
    AskTag();
    CritiqueTag();
    hide Tag, EscapeRichText, SectionTail, AskHead, CritiqueHead, OpenRich, FocusHead;
    if input.Critique? {
      assert FirstSection(input) == CritiqueHead() + (EscapeRichText(input.target)
        + if input.focus.Some? then FocusHead() + EscapeRichText(input.focus.value) else "") + SectionTail();
    }
  }

  lemma {:induction false} ShownHasNoTag(input: Input)
    ensures '<' !in Shown(input)
  {
    hide RichText, EscapeRichText;
    match input {
      case Ask(question) =>
        EscapeIsRichText(question);
        RichHasNoTag(question);
      case Critique(target, focus) =>
        EscapeIsRichText(target);
        RichHasNoTag(target);
        if focus.Some? {
          EscapeIsRichText(focus.value);
          RichHasNoTag(focus.value);
        }
    }
  }

  function OpenRich(): string { "\n<RichText>\n" }

  lemma {:induction false} AskTag()
    ensures AskHead() == Tag("Question") + OpenRich()
  {
  }

  lemma {:induction false} CritiqueTag()
    ensures CritiqueHead() == Tag("Target") + OpenRich()
  {
  }

  lemma {:induction false} Behind(tag: string, body: string, whole: string)
    requires whole == tag + body
    ensures whole[|tag|..] == body
  {
  }

  lemma {:induction false} RichHasNoTag(s: string)
    ensures '<' !in RichText(s)
  {
    if s != "" { RichHasNoTag(s[1..]); }
  }

  lemma {:induction false} BodyHasNoSection(rich: string)
    requires '<' !in rich
    ensures NoSection(OpenRich() + rich + SectionTail())
  {
    var open, tail := OpenRich(), SectionTail();
    OpenShape();
    TailShape();
    hide OpenRich, SectionTail;
    var s := open + rich + tail;
    forall i | |open| <= i < |open| + |rich| ensures s[i] != '<' { assert s[i] == rich[i - |open|] && rich[i - |open|] in rich; }
    forall i | 0 <= i < |s| && s[i] == '<' ensures i + 1 < |s| && s[i + 1] != 'S' {
      if i < |open| {
        assert s[i] == open[i] && s[i + 1] == open[i + 1];
      } else {
        assert s[i] == tail[i - |open| - |rich|] && s[i + 1] == tail[i + 1 - |open| - |rich|];
      }
    }
  }

  lemma {:induction false} OpenShape()
    ensures NoSection(OpenRich())
  {
  }

  lemma {:induction false} TailShape()
    ensures NoSection(SectionTail())
  {
  }

  /** The draft passes the checks that look at the draft only. */
  lemma {:induction false} AcceptedWhen(draft: string, input: Input, svg: seq<bv8>, hasReviews: bool, about: string, tasks: seq<string>,
                                        mdx: string)
    requires var b := InputBlocks(input, svg, hasReviews, about);
      Shaped(b) && GatePasses(b, draft) && Passes(b, draft) == mdx && CheckSections(mdx, b.section, Required(input)).None?
    requires !HoldsModelSvg(draft) && !Holds(draft, Other(input))
    requires forall k :: 0 <= k < |tasks| ==> TaskIsPresent(draft, tasks[k])
    ensures Assemble(draft, input, svg, hasReviews, about, tasks) == Ok(mdx)
  {
    hide Passes, Matches, TrimEnd, FirstSection, Image, IsPlaceholder, Fenced, CheckSections, HoldsModelSvg, TaskIsPresent, Required, Holds;
  }

  lemma {:induction false} OtherShape(input: Input)
    ensures IsPlaceholder(Other(input)) && Fenced(Other(input))
    ensures Other(input)[11] != First(input)[11] && Other(input)[11] != DIAGRAM_PLACEHOLDER[11]
      && Other(input)[11] != RUN_STATS_PLACEHOLDER[11]
  {
    hide IsPlaceholder, Fenced;
    QuestionShape();
    TargetShape();
    DiagramShape();
    RunStatsShape();
  }

  /** The document made of a first section, the other sections and any rest. */
  lemma {:induction false} SectionsAccepted(pre: string, input: Input, gap: string, tasks: seq<string>, rest: string)
    requires NoSection(pre) && NoSection(gap)
    ensures CheckSections(pre + (FirstSection(input) + (gap + (DraftText(input, tasks) + rest))), FirstSection(input),
                          Required(input)).None?
  {
    hide *;
    var required, lines := Required(input), IdLines(tasks) + "\n";
    TitlesFit(input);
    TitlesAreFour(input);
    SectionInParts(input);
    FourAccepted(pre, SectionBody(input), gap, required, lines + rest);
    TextInParts(input, tasks);
    assert (Tags(required) + lines) + rest == Tags(required) + (lines + rest);
  }

  lemma {:induction false} TitlesAreFour(input: Input)
    ensures |Required(input)| == 4
  {
  }

  lemma {:induction false} TextInParts(input: Input, tasks: seq<string>)
    ensures |Required(input)| == 4 && DraftText(input, tasks) == Tags(Required(input)) + (IdLines(tasks) + "\n")
  {
  }

  /** All task ids are in a draft that holds the text. */
  lemma {:induction false} TextHoldsTasks(pre: string, input: Input, tasks: seq<string>, rest: string)
    requires TaskIds(tasks)
    ensures forall k :: 0 <= k < |tasks| ==> TaskIsPresent(pre + (DraftText(input, tasks) + rest), tasks[k])
  {
    hide *;
    TitlesAreFour(input);
    TextInParts(input, tasks);
    TaskIdTexts(tasks);
    var tags, tail := Tags(Required(input)), "\n" + rest;
    assert pre + ((tags + (IdLines(tasks) + "\n")) + rest) == (pre + tags) + (IdLines(tasks) + tail);
    forall k | 0 <= k < |tasks| ensures TaskIsPresent(pre + (DraftText(input, tasks) + rest), tasks[k]) {
      LinesHold(pre + tags, tasks, tail, k);
    }
  }

  lemma {:induction false} PlaceholdersPlain(input: Input)
    ensures AllSlot(First(input)) && AllSlot(DIAGRAM_PLACEHOLDER) && AllSlot(RUN_STATS_PLACEHOLDER)
  {
    QuestionShape();
    TargetShape();
    DiagramShape();
    RunStatsShape();
  }

  function PlainDraftOf(input: Input, tasks: seq<string>): string {
    First(input) + (DraftText(input, tasks) + (DIAGRAM_PLACEHOLDER + ("\n" + RUN_STATS_PLACEHOLDER)))
  }

  /** Every valid input with any task ids has an accepted draft whose
      placeholders are apart, and everything lands in its slot. */
  lemma {:induction false} PlainDraftAssembles(input: Input, svg: seq<bv8>, hasReviews: bool, about: string, tasks: seq<string>)
    requires ValidateInput(input).None? && TaskIds(tasks)
    ensures Separate(InputBlocks(input, svg, hasReviews, about), PlainDraftOf(input, tasks))
    ensures Assemble(PlainDraftOf(input, tasks), input, svg, hasReviews, about, tasks)
         == Ok(FirstSection(input) + (DraftText(input, tasks) + (Image(input, svg, hasReviews) + ("\n" + about))))
  {
    hide *;
    var b, text, draft := InputBlocks(input, svg, hasReviews, about), DraftText(input, tasks), PlainDraftOf(input, tasks);
    var rest := b.image + ("\n" + about);
    PlainParts(input, svg, hasReviews, about, tasks);
    ValidBlocksSound(input, svg, hasReviews, about);
    DraftTextFits(input, tasks);
    LineBreakIsGap();
    SoundParts(b);
    PlainDraftPasses(b, text, "\n");
    PlainResult(b, text, "\n");
    EmptyHasNoSection();
    SectionsAccepted("", input, "", tasks, rest);
    assert "" + (FirstSection(input) + ("" + (text + rest))) == FirstSection(input) + (text + rest);
    TextHoldsTasks(First(input), input, tasks, DIAGRAM_PLACEHOLDER + ("\n" + RUN_STATS_PLACEHOLDER));
    PlainHasNoSvg(input, tasks);
    PlainHasNoOther(b, text, input);
    AcceptedWhen(draft, input, svg, hasReviews, about, tasks, FirstSection(input) + (text + rest));
  }

  lemma {:induction false} PlainParts(input: Input, svg: seq<bv8>, hasReviews: bool, about: string, tasks: seq<string>)
    ensures var b := InputBlocks(input, svg, hasReviews, about);
      PlainDraftOf(input, tasks) == PlainDraft(b, DraftText(input, tasks), "\n")
      && PlainDraftOf(input, tasks) == First(input) + (DraftText(input, tasks) + (DIAGRAM_PLACEHOLDER + ("\n" + RUN_STATS_PLACEHOLDER)))
      && b.section == FirstSection(input) && b.image == Image(input, svg, hasReviews) && b.about == about
      && b.first == First(input) && b.diagram == DIAGRAM_PLACEHOLDER && b.stats == RUN_STATS_PLACEHOLDER
  {
    hide DraftText, FirstSection, Image, First;
  }

  lemma {:induction false} LineBreakIsGap()
    ensures Gap("\n")
  {
  }

  lemma {:induction false} EmptyHasNoSection()
    ensures NoSection("")
  {
  }

  lemma {:induction false} PlainHasNoSvg(input: Input, tasks: seq<string>)
    requires TaskIds(tasks)
    ensures !HoldsModelSvg(PlainDraftOf(input, tasks))
  {
    hide HoldsModelSvg, DraftText, First, TaskIds, AllSlot, SectionsOnly;
    var text, tail := DraftText(input, tasks), "\n" + RUN_STATS_PLACEHOLDER;
    DraftTextFits(input, tasks);
    PlaceholdersPlain(input);
    SlotsHoldNoTags(First(input));
    SlotsHoldNoTags(DIAGRAM_PLACEHOLDER);
    SlotsHoldNoTags(RUN_STATS_PLACEHOLDER);
    NoTags("\n");
    hide Gap;
    JoinSections("\n", RUN_STATS_PLACEHOLDER);
    JoinSections(DIAGRAM_PLACEHOLDER, tail);
    JoinSections(text, DIAGRAM_PLACEHOLDER + tail);
    JoinSections(First(input), text + (DIAGRAM_PLACEHOLDER + tail));
    NoModelSvg(PlainDraftOf(input, tasks));
  }

  lemma {:induction false} PlainHasNoOther(b: Blocks, text: string, input: Input)
    requires Fences(b) && Gap(text) && b.first == First(input) && b.diagram == DIAGRAM_PLACEHOLDER && b.stats == RUN_STATS_PLACEHOLDER
    ensures !Holds(PlainDraft(b, text, "\n"), Other(input))
  {
    OtherShape(input);
    LineBreakIsGap();
    hide IsPlaceholder, Fenced, PlainDraft, Fences, Gap;
    if Holds(PlainDraft(b, text, "\n"), Other(input)) {
      PlainOnly(b, text, "\n", Other(input), Find(PlainDraft(b, text, "\n"), Other(input)).value);
    }
  }

  function LostDraftOf(input: Input, tasks: seq<string>): string {
    DIAGRAM_PLACEHOLDER[..27] + (First(input) + (DraftText(input, tasks) + RUN_STATS_PLACEHOLDER))
  }

  /** Every valid input with any task ids has a draft that all checks accept,
      and whose document is not the simultaneous substitution: a piece of the
      diagram placeholder stands where the image belongs. */
  lemma {:induction false} LostDraftAssembles(input: Input, svg: seq<bv8>, hasReviews: bool, about: string, tasks: seq<string>)
    requires ValidateInput(input).None? && TaskIds(tasks)
    ensures Assemble(LostDraftOf(input, tasks), input, svg, hasReviews, about, tasks)
         == Ok(DIAGRAM_PLACEHOLDER[..27] + (FirstSection(input) + (DraftText(input, tasks) + about)))
    ensures Shaped(InputBlocks(input, svg, hasReviews, about))
    ensures Assemble(LostDraftOf(input, tasks), input, svg, hasReviews, about, tasks).value
         != Scan(InputBlocks(input, svg, hasReviews, about), LostDraftOf(input, tasks))
  {
    hide *;
    var b, text, draft := InputBlocks(input, svg, hasReviews, about), DraftText(input, tasks), LostDraftOf(input, tasks);
    LostParts(input, svg, hasReviews, about, tasks);
    var pre := DIAGRAM_PLACEHOLDER[..27];
    ValidBlocksSound(input, svg, hasReviews, about);
    DraftTextFits(input, tasks);
    SoundParts(b);
    OverlapSlipsThrough(b, text);
    OverlapResult(b, text);
    PreHasNoSection();
    EmptyHasNoSection();
    SectionsAccepted(pre, input, "", tasks, about);
    assert "" + (text + about) == text + about;
    TextHoldsTasks(pre + First(input), input, tasks, RUN_STATS_PLACEHOLDER);
    assert (pre + First(input)) + (text + RUN_STATS_PLACEHOLDER) == pre + (First(input) + (text + RUN_STATS_PLACEHOLDER));
    LostHasNoSvg(input, tasks);
    LostHasNoOther(b, text, input);
    AcceptedWhen(draft, input, svg, hasReviews, about, tasks, pre + (FirstSection(input) + (text + about)));
  }

  lemma {:induction false} LostParts(input: Input, svg: seq<bv8>, hasReviews: bool, about: string, tasks: seq<string>)
    ensures var b := InputBlocks(input, svg, hasReviews, about);
      |DIAGRAM_PLACEHOLDER| == 29 && |b.diagram| == 29 && Fences(b) && LostDraftOf(input, tasks) == Overlapping(b, DraftText(input, tasks))
      && LostDraftOf(input, tasks) == DIAGRAM_PLACEHOLDER[..27] + (First(input) + (DraftText(input, tasks) + RUN_STATS_PLACEHOLDER))
      && b.section == FirstSection(input) && b.about == about
      && b.first == First(input) && b.diagram == DIAGRAM_PLACEHOLDER && b.stats == RUN_STATS_PLACEHOLDER
  {
    BlocksShaped(input, svg, hasReviews, about);
    DiagramShape();
    hide DraftText, FirstSection, Image, First, Fences, IsPlaceholder, Fenced;
  }

  lemma {:induction false} PreHasNoSection()
    ensures |DIAGRAM_PLACEHOLDER| == 29 && NoSection(DIAGRAM_PLACEHOLDER[..27])
  {
    DiagramShape();
    assert forall c :: c in DIAGRAM_PLACEHOLDER ==> Slot(c);
  }

  lemma {:induction false} LostHasNoSvg(input: Input, tasks: seq<string>)
    requires TaskIds(tasks)
    ensures !HoldsModelSvg(LostDraftOf(input, tasks))
  {
    DiagramShape();
    hide HoldsModelSvg, DraftText, First, TaskIds, AllSlot, SectionsOnly, IsPlaceholder;
    var text := DraftText(input, tasks);
    DraftTextFits(input, tasks);
    PlaceholdersPlain(input);
    SlotsHoldNoTags(First(input));
    SlotsHoldNoTags(DIAGRAM_PLACEHOLDER);
    SlotsHoldNoTags(RUN_STATS_PLACEHOLDER);
    hide Gap;
    JoinSections(text, RUN_STATS_PLACEHOLDER);
    JoinSections(First(input), text + RUN_STATS_PLACEHOLDER);
    JoinSections(DIAGRAM_PLACEHOLDER[..27], First(input) + (text + RUN_STATS_PLACEHOLDER));
    NoModelSvg(LostDraftOf(input, tasks));
  }

  lemma {:induction false} LostHasNoOther(b: Blocks, text: string, input: Input)
    requires Fences(b) && Gap(text) && b.first == First(input) && b.diagram == DIAGRAM_PLACEHOLDER && b.stats == RUN_STATS_PLACEHOLDER
    ensures !Holds(Overlapping(b, text), Other(input))
  {
    OtherShape(input);
    hide IsPlaceholder, Fenced, Overlapping, Fences, Gap;
    if Holds(Overlapping(b, text), Other(input)) {
      OverlapOnly(b, text, Other(input), Find(Overlapping(b, text), Other(input)).value);
    }
  }

  function CutStatsDraftOf(input: Input, tasks: seq<string>): string {
    First(input) + (DraftText(input, tasks) + (DIAGRAM_PLACEHOLDER + RUN_STATS_PLACEHOLDER[2..]))
  }

  function CutImageDraftOf(input: Input, tasks: seq<string>): string {
    First(input) + (DIAGRAM_PLACEHOLDER[2..] + (DraftText(input, tasks) + RUN_STATS_PLACEHOLDER))
  }

  /** Every valid input with any task ids has a draft that all checks accept,
      whose document is the simultaneous substitution, and in which the run
      stats never land: a piece of their placeholder ends the document. */
  lemma {:induction false} CutStatsDraftAssembles(input: Input, svg: seq<bv8>, hasReviews: bool, about: string, tasks: seq<string>)
    requires ValidateInput(input).None? && TaskIds(tasks)
    ensures Assemble(CutStatsDraftOf(input, tasks), input, svg, hasReviews, about, tasks)
         == Ok(FirstSection(input) + (DraftText(input, tasks) + (Image(input, svg, hasReviews) + RUN_STATS_PLACEHOLDER[2..])))
    ensures var b := InputBlocks(input, svg, hasReviews, about);
      Shaped(b) && !DiagramLost(b, CutStatsDraftOf(input, tasks)) && !AllLand(b, CutStatsDraftOf(input, tasks))
  {
    hide *;
    var b, text, draft := InputBlocks(input, svg, hasReviews, about), DraftText(input, tasks), CutStatsDraftOf(input, tasks);
    CutParts(input, svg, hasReviews, about, tasks);
    var cut := RUN_STATS_PLACEHOLDER[2..];
    ValidBlocksSound(input, svg, hasReviews, about);
    DraftTextFits(input, tasks);
    SoundParts(b);
    StatsCutGate(b, text);
    StatsCutResult(b, text);
    EmptyHasNoSection();
    SectionsAccepted("", input, "", tasks, b.image + cut);
    assert "" + (FirstSection(input) + ("" + (text + (b.image + cut)))) == FirstSection(input) + (text + (b.image + cut));
    TextHoldsTasks(First(input), input, tasks, DIAGRAM_PLACEHOLDER + cut);
    CutHasNoSvg(input, tasks);
    StatsCutHasNoOther(b, text, input);
    AcceptedWhen(draft, input, svg, hasReviews, about, tasks, FirstSection(input) + (text + (b.image + cut)));
  }

  /** And one in which the image never lands, with the first placeholder running
      into the diagram one. */
  lemma {:induction false} CutImageDraftAssembles(input: Input, svg: seq<bv8>, hasReviews: bool, about: string, tasks: seq<string>)
    requires ValidateInput(input).None? && TaskIds(tasks)
    ensures Assemble(CutImageDraftOf(input, tasks), input, svg, hasReviews, about, tasks)
         == Ok(FirstSection(input) + (DIAGRAM_PLACEHOLDER[2..] + (DraftText(input, tasks) + about)))
    ensures var b := InputBlocks(input, svg, hasReviews, about);
      Shaped(b) && !DiagramLost(b, CutImageDraftOf(input, tasks)) && !AllLand(b, CutImageDraftOf(input, tasks))
  {
    hide *;
    var b, text, draft := InputBlocks(input, svg, hasReviews, about), DraftText(input, tasks), CutImageDraftOf(input, tasks);
    CutParts(input, svg, hasReviews, about, tasks);
    var cut := DIAGRAM_PLACEHOLDER[2..];
    ValidBlocksSound(input, svg, hasReviews, about);
    DraftTextFits(input, tasks);
    SoundParts(b);
    ImageCutGate(b, text);
    ImageCutResult(b, text);
    EmptyHasNoSection();
    CutHasNoSection();
    SectionsAccepted("", input, cut, tasks, about);
    assert "" + (FirstSection(input) + (cut + (text + about))) == FirstSection(input) + (cut + (text + about));
    TextHoldsTasks(First(input) + cut, input, tasks, RUN_STATS_PLACEHOLDER);
    assert (First(input) + cut) + (text + RUN_STATS_PLACEHOLDER) == First(input) + (cut + (text + RUN_STATS_PLACEHOLDER));
    CutHasNoSvg(input, tasks);
    ImageCutHasNoOther(b, text, input);
    AcceptedWhen(draft, input, svg, hasReviews, about, tasks, FirstSection(input) + (cut + (text + about)));
  }

  lemma {:induction false} CutParts(input: Input, svg: seq<bv8>, hasReviews: bool, about: string, tasks: seq<string>)
    ensures |DIAGRAM_PLACEHOLDER| == 29 && |RUN_STATS_PLACEHOLDER| == 22
    ensures var b := InputBlocks(input, svg, hasReviews, about);
      Fences(b) && CutStatsDraftOf(input, tasks) == StatsCut(b, DraftText(input, tasks))
      && CutImageDraftOf(input, tasks) == ImageCut(b, DraftText(input, tasks))
      && b.section == FirstSection(input) && b.image == Image(input, svg, hasReviews) && b.about == about
      && b.first == First(input) && b.diagram == DIAGRAM_PLACEHOLDER && b.stats == RUN_STATS_PLACEHOLDER
    ensures CutStatsDraftOf(input, tasks)
         == First(input) + (DraftText(input, tasks) + (DIAGRAM_PLACEHOLDER + RUN_STATS_PLACEHOLDER[2..]))
    ensures CutImageDraftOf(input, tasks)
         == First(input) + (DIAGRAM_PLACEHOLDER[2..] + (DraftText(input, tasks) + RUN_STATS_PLACEHOLDER))
  {
    BlocksShaped(input, svg, hasReviews, about);
    DiagramShape();
    RunStatsShape();
    hide DraftText, FirstSection, Image, First, Fences, IsPlaceholder, Fenced;
  }

  lemma {:induction false} CutHasNoSection()
    ensures |DIAGRAM_PLACEHOLDER| == 29 && NoSection(DIAGRAM_PLACEHOLDER[2..])
  {
    DiagramShape();
    assert forall c :: c in DIAGRAM_PLACEHOLDER ==> Slot(c);
  }

  lemma {:induction false} CutHasNoSvg(input: Input, tasks: seq<string>)
    requires TaskIds(tasks)
    ensures !HoldsModelSvg(CutStatsDraftOf(input, tasks)) && !HoldsModelSvg(CutImageDraftOf(input, tasks))
  {
    DiagramShape();
    RunStatsShape();
    hide HoldsModelSvg, DraftText, First, TaskIds, AllSlot, SectionsOnly, IsPlaceholder;
    var text, d, z := DraftText(input, tasks), DIAGRAM_PLACEHOLDER, RUN_STATS_PLACEHOLDER;
    DraftTextFits(input, tasks);
    PlaceholdersPlain(input);
    SlotsHoldNoTags(First(input));
    SlotsHoldNoTags(d);
    SlotsHoldNoTags(z);
    hide Gap;
    JoinSections(d, z[2..]);
    JoinSections(text, d + z[2..]);
    JoinSections(First(input), text + (d + z[2..]));
    NoModelSvg(CutStatsDraftOf(input, tasks));
    JoinSections(text, z);
    JoinSections(d[2..], text + z);
    JoinSections(First(input), d[2..] + (text + z));
    NoModelSvg(CutImageDraftOf(input, tasks));
  }

  lemma {:induction false} StatsCutHasNoOther(b: Blocks, text: string, input: Input)
    requires Fences(b) && Gap(text) && b.first == First(input) && b.diagram == DIAGRAM_PLACEHOLDER && b.stats == RUN_STATS_PLACEHOLDER
    ensures !Holds(StatsCut(b, text), Other(input))
  {
    OtherShape(input);
    hide IsPlaceholder, Fenced, StatsCut, Fences, Gap;
    if Holds(StatsCut(b, text), Other(input)) {
      StatsCutOnly(b, text, Other(input), Find(StatsCut(b, text), Other(input)).value);
    }
  }

  lemma {:induction false} ImageCutHasNoOther(b: Blocks, text: string, input: Input)
    requires Fences(b) && Gap(text) && b.first == First(input) && b.diagram == DIAGRAM_PLACEHOLDER && b.stats == RUN_STATS_PLACEHOLDER
    ensures !Holds(ImageCut(b, text), Other(input))
  {
    OtherShape(input);
    ImageCutIs(b, text);
    hide IsPlaceholder, Fenced, ImageCut, Overlapping, Fences, Gap;
    if Holds(ImageCut(b, text), Other(input)) {
      OverlapOnly(Swapped(b), text, Other(input), Find(ImageCut(b, text), Other(input)).value);
    }
  }
}
