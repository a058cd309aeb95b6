/** Where the blocks of a draft land: the exact condition for every draft that
    passes the gate, and the text the passes make of it. */
module ForumLanding {
  import opened Outcomes
  import opened Text
  import opened ForumSubstitution

  // ---- rewriting one stretch ----

  /** The stretches `i .. i + m` and `k .. k + n` share no character. */
  predicate Apart(i: nat, m: nat, k: nat, n: nat) { i + m <= k || k + n <= i }

  function Splice(s: string, k: nat, n: nat, r: string): string
    requires k + n <= |s|
  {
    s[..k] + (r + s[k + n..])
  }

  /** Where position `i`, outside the stretch, is after it was rewritten. */
  function Shift(i: nat, k: nat, n: nat, r: string): nat { if k + n <= i then i - n + |r| else i }

  /** What stands apart from the stretch is there afterwards. */
  lemma {:induction false} SpliceKeeps(s: string, k: nat, n: nat, r: string, q: string, i: nat)
    requires k + n <= |s| && Occurs(s, q, i) && Apart(i, |q|, k, n)
    ensures Occurs(Splice(s, k, n, r), q, Shift(i, k, n, r))
  {
    var t := Splice(s, k, n, r);
    if k + n <= i {
      var j := i - n + |r|;
      assert t[k + |r|..] == s[k + n..];
      assert t[j..j + |q|] == t[k + |r|..][i - k - n..i - k - n + |q|] == s[i..i + |q|];
    } else {
      assert t[i..i + |q|] == s[i..i + |q|];
    }
  }

  /** And nothing else is, when the new text is bracketed and does not hold it. */
  lemma {:induction false} SpliceAdds(s: string, k: nat, n: nat, r: string, q: string, j: nat) returns (i: nat)
    requires k + n <= |s| && Bracketed(r) && !Contains(r, q) && AllSlot(q) && q != "" && Occurs(Splice(s, k, n, r), q, j)
    ensures Occurs(s, q, i) && Apart(i, |q|, k, n) && Shift(i, k, n, r) == j
  {
    SpliceHolds(s, k, n, r);
    var t := Splice(s, k, n, r);
    hide Splice, Occurs, Bracketed, Contains, AllSlot;
    OccursInBounds(t, q, j);
    if k < j + |q| && j < k + |r| { Crosses(t, k, r, q, j); }
    i := if j + |q| <= k then j else j - |r| + n;
    SpliceBack(s, k, n, r, q, j);
  }

  lemma {:induction false} SpliceHolds(s: string, k: nat, n: nat, r: string)
    requires k + n <= |s|
    ensures |Splice(s, k, n, r)| == |s| - n + |r| && Splice(s, k, n, r)[k..k + |r|] == r
    ensures Splice(s, k, n, r)[k + |r|..] == s[k + n..] && Splice(s, k, n, r)[..k] == s[..k]
  {
  }

  lemma {:induction false} SpliceBack(s: string, k: nat, n: nat, r: string, q: string, j: nat)
    requires k + n <= |s| && Occurs(Splice(s, k, n, r), q, j) && (j + |q| <= k || k + |r| <= j)
    ensures j + |q| <= k ==> Occurs(s, q, j)
    ensures k + |r| <= j ==> Occurs(s, q, j - |r| + n)
  {
    SpliceHolds(s, k, n, r);
    var t := Splice(s, k, n, r);
    if k + |r| <= j {
      TailOccurs(t, q, k + |r|, j - k - |r|);
      TailOccurs(s, q, k + n, j - k - |r|);
    } else {
      assert t[j..j + |q|] == t[..k][j..j + |q|] == s[..k][j..j + |q|];
    }
  }

  /** No placeholder overlaps a bracketed text that does not hold it. */
  lemma {:induction false} Crosses(t: string, k: nat, r: string, q: string, j: nat)
    requires k + |r| <= |t| && t[k..k + |r|] == r && Bracketed(r) && !Contains(r, q) && AllSlot(q)
    requires j < k + |r| && k < j + |q|
    ensures !Occurs(t, q, j)
  {
    assert t[k] == t[k..k + |r|][0] && t[k + |r| - 1] == t[k..k + |r|][|r| - 1];
    if Occurs(t, q, j) {
      if j <= k {
        SlotAt(t, q, j, k);
      } else if k + |r| <= j + |q| {
        SlotAt(t, q, j, k + |r| - 1);
      } else {
        InSlice(t, k, |r|, q, j);
      }
    }
  }

  lemma {:induction false} InSlice(t: string, k: nat, n: nat, q: string, j: nat)
    requires k <= j && j + |q| <= k + n <= |t| && Occurs(t, q, j)
    ensures Occurs(t[k..k + n], q, j - k)
  {
    var u := t[k..k + n];
    assert forall x :: j <= x < j + |q| ==> u[x - k] == t[x] == t[j..j + |q|][x - j];
    assert |u[j - k..j - k + |q|]| == |q|;
    forall x | 0 <= x < |q| ensures u[j - k..j - k + |q|][x] == q[x] { assert t[j + x] == t[j..j + |q|][x]; }
  }

  /** Shifting keeps order, and keeps stretches apart. */
  lemma {:induction false} ShiftOrder(i: nat, m: nat, i': nat, m': nat, k: nat, n: nat, r: string)
    requires Apart(i, m, k, n) && Apart(i', m', k, n) && m > 0 && m' > 0 && r != ""
    ensures i < i' <==> Shift(i, k, n, r) < Shift(i', k, n, r)
    ensures Apart(i, m, i', m') <==> Apart(Shift(i, k, n, r), m, Shift(i', k, n, r), m')
  {
  }

  // ---- the leftmost match that is not taken ----

  /** Stretches of the text: where they start, and how long they are. */
  type Stretches = seq<(nat, nat)>

  predicate Untaken(i: nat, m: nat, taken: Stretches) {
    forall k :: 0 <= k < |taken| ==> Apart(i, m, taken[k].0, taken[k].1)
  }

  predicate FreeAt(s: string, q: string, taken: Stretches, i: nat) { Occurs(s, q, i) && Untaken(i, |q|, taken) }

  function FreeMatch(s: string, q: string, taken: Stretches, from: nat): (r: Option<nat>)
    requires forall i :: 0 <= i < from ==> !FreeAt(s, q, taken, i)
    ensures r.Some? ==> FreeAt(s, q, taken, r.value) && forall i :: 0 <= i < r.value ==> !FreeAt(s, q, taken, i)
    ensures r.None? ==> forall i: nat :: !FreeAt(s, q, taken, i)
    decreases |s| - from
  {
    if from > |s| then None
    else if FreeAt(s, q, taken, from) then Some(from)
    else FreeMatch(s, q, taken, from + 1)
  }

  lemma {:induction false} FreeMatchIs(s: string, q: string, taken: Stretches, r: Option<nat>)
    requires r.Some? ==> FreeAt(s, q, taken, r.value) && forall i :: 0 <= i < r.value ==> !FreeAt(s, q, taken, i)
    requires r.None? ==> forall i: nat :: !FreeAt(s, q, taken, i)
    ensures FreeMatch(s, q, taken, 0) == r
  {
    hide FreeAt;
  }

  /** Without taken stretches it is the first match of all. */
  lemma {:induction false} FreeIsFind(s: string, q: string)
    ensures FreeMatch(s, q, [], 0) == Find(s, q)
  {
    forall i: nat ensures FreeAt(s, q, [], i) <==> Occurs(s, q, i) { }
    hide FreeAt, Occurs;
    FreeMatchIs(s, q, [], Find(s, q));
  }

  function ShiftAll(taken: Stretches, k: nat, n: nat, r: string): Stretches {
    seq(|taken|, j requires 0 <= j < |taken| => (Shift(taken[j].0, k, n, r), taken[j].1))
  }

  predicate AllApart(taken: Stretches, k: nat, n: nat) {
    forall j :: 0 <= j < |taken| ==> taken[j].1 > 0 && Apart(taken[j].0, taken[j].1, k, n)
  }

  /** Free afterwards is what was free and apart from the rewritten stretch. */
  lemma {:induction false} FreeKept(s: string, k: nat, n: nat, r: string, q: string, taken: Stretches, i: nat)
    requires k + n <= |s| && r != "" && q != "" && AllApart(taken, k, n)
    requires FreeAt(s, q, [(k, n)] + taken, i)
    ensures FreeAt(Splice(s, k, n, r), q, ShiftAll(taken, k, n, r), Shift(i, k, n, r))
  {
    var all := [(k, n)] + taken;
    assert Apart(i, |q|, all[0].0, all[0].1);
    SpliceKeeps(s, k, n, r, q, i);
    hide Occurs, Splice, Apart, Shift;
    forall j | 0 <= j < |taken|
      ensures Apart(Shift(i, k, n, r), |q|, ShiftAll(taken, k, n, r)[j].0, ShiftAll(taken, k, n, r)[j].1)
    {
      assert all[j + 1] == taken[j];
      ShiftOrder(i, |q|, taken[j].0, taken[j].1, k, n, r);
    }
  }

  lemma {:induction false} FreeBack(s: string, k: nat, n: nat, r: string, q: string, taken: Stretches, j: nat) returns (i: nat)
    requires k + n <= |s| && Bracketed(r) && !Contains(r, q) && AllSlot(q) && q != "" && AllApart(taken, k, n)
    requires FreeAt(Splice(s, k, n, r), q, ShiftAll(taken, k, n, r), j)
    ensures FreeAt(s, q, [(k, n)] + taken, i) && Shift(i, k, n, r) == j && Apart(i, |q|, k, n)
  {
    i := SpliceAdds(s, k, n, r, q, j);
    var all := [(k, n)] + taken;
    hide Occurs, Splice, Apart, Shift, Contains, AllSlot;
    forall x | 0 <= x < |all| ensures Apart(i, |q|, all[x].0, all[x].1) {
      if x > 0 {
        var y := taken[x - 1];
        assert ShiftAll(taken, k, n, r)[x - 1] == (Shift(y.0, k, n, r), y.1);
        ShiftOrder(i, |q|, y.0, y.1, k, n, r);
      }
    }
  }

  /** The leftmost free match moves along. */
  lemma {:induction false} FreeAfterSplice(s: string, k: nat, n: nat, r: string, q: string, taken: Stretches)
    requires k + n <= |s| && Bracketed(r) && !Contains(r, q) && AllSlot(q) && q != "" && AllApart(taken, k, n)
    ensures var was := FreeMatch(s, q, [(k, n)] + taken, 0);
      FreeMatch(Splice(s, k, n, r), q, ShiftAll(taken, k, n, r), 0)
      == if was.Some? then Some(Shift(was.value, k, n, r)) else None
  {
    var t, all, moved := Splice(s, k, n, r), [(k, n)] + taken, ShiftAll(taken, k, n, r);
    var was := FreeMatch(s, q, all, 0);
    hide FreeAt, FreeMatch, Splice, Shift, ShiftAll, AllSlot, Contains, Apart;
    forall j: nat | FreeAt(t, q, moved, j) ensures was.Some? && Shift(was.value, k, n, r) <= j {
      var i := FreeBack(s, k, n, r, q, taken, j);
      assert was.Some? && was.value <= i;
      FreeIsApart(s, q, k, n, taken, was.value);
      ShiftOrder(i, |q|, was.value, |q|, k, n, r);
    }
    if was.Some? { FreeKept(s, k, n, r, q, taken, was.value); }
    FreeMatchIs(t, q, moved, if was.Some? then Some(Shift(was.value, k, n, r)) else None);
  }

  lemma {:induction false} FreeIsApart(s: string, q: string, k: nat, n: nat, taken: Stretches, i: nat)
    requires FreeAt(s, q, [(k, n)] + taken, i)
    ensures Apart(i, |q|, k, n) && FreeAt(s, q, taken, i)
  {
    var all := [(k, n)] + taken;
    assert Apart(i, |q|, all[0].0, all[0].1);
    forall j | 0 <= j < |taken| ensures Apart(i, |q|, taken[j].0, taken[j].1) { assert all[j + 1] == taken[j]; }
  }

  // ---- one pass over a text that counts its placeholder at most once ----

  /** All matches overlap each other. */
  ghost predicate Cluster(s: string, p: string) {
    forall i, j :: Occurs(s, p, i) && Occurs(s, p, j) ==> j < i + |p|
  }

  lemma {:induction false} OneIsCluster(s: string, p: string)
    requires p != "" && Matches(s, p) == 1
    ensures Cluster(s, p) && Find(s, p).Some?
  {
    hide Matches;
    var i := SingleMatch(s, p);
    hide Occurs;
  }

  /** A cluster is counted once, and one pass rewrites its first match. */
  lemma {:induction false} ClusterPass(s: string, p: string, r: string)
    requires p != "" && Cluster(s, p)
    ensures Matches(s, p) == if Find(s, p).Some? then 1 else 0
    ensures Find(s, p).None? ==> Replace(s, p, r) == s
    ensures Find(s, p).Some? ==> Replace(s, p, r) == Splice(s, Find(s, p).value, |p|, r)
  {
    hide Matches, Replace, Find;
    var at := Find(s, p);
    if at.None? {
      assert s + "" == s;
      MatchesBehind(s, "", p);
      ReplaceNone(s, p, r);
      NothingMatches(p);
    } else {
      var k := at.value;
      var rest := s[k + |p|..];
      forall i: int ensures !Occurs(rest, p, i) {
        if Occurs(rest, p, i) { TailOccurs(s, p, k + |p|, i); }
      }
      assert s[k..k + |p|] == p && s == s[..k] + (p + rest);
      OneMatchAt(s[..k], p, rest);
      ReplaceSkip(s[..k], p + rest, p, r);
      ReplaceHit(rest, p, r);
      ReplaceNone(rest, p, r);
    }
  }

  lemma {:induction false} NothingMatches(p: string)
    requires p != ""
    ensures Matches("", p) == 0
  {
  }

  lemma {:induction false} ClusterKept(s: string, k: nat, n: nat, r: string, q: string)
    requires k + n <= |s| && Bracketed(r) && !Contains(r, q) && AllSlot(q) && q != "" && Cluster(s, q)
    ensures Cluster(Splice(s, k, n, r), q)
  {
    var t := Splice(s, k, n, r);
    forall x: int, y: int | Occurs(t, q, x) && Occurs(t, q, y) ensures y < x + |q| {
      OccursInBounds(t, q, x);
      OccursInBounds(t, q, y);
      hide Splice, Occurs, Contains, AllSlot;
      var i := SpliceAdds(s, k, n, r, q, x);
      var j := SpliceAdds(s, k, n, r, q, y);
      assert j < i + |q| && i < j + |q|;
    }
  }

  // ---- the three passes ----

  function Taken(at: Option<nat>, n: nat): Stretches { if at.Some? then [(at.value, n)] else [] }

  /** The first placeholder that is rewritten is the first one there is. */
  function FirstPlace(b: Blocks, s: string): Option<nat> { Find(s, b.first) }

  /** The first diagram placeholder that shares nothing with that one. */
  function DiagramPlace(b: Blocks, s: string): Option<nat> { FreeMatch(s, b.diagram, Taken(FirstPlace(b, s), |b.first|), 0) }

  /** The first run-stats placeholder that shares nothing with those two. */
  function StatsPlace(b: Blocks, s: string): Option<nat> {
    FreeMatch(s, b.stats, Taken(FirstPlace(b, s), |b.first|) + Taken(DiagramPlace(b, s), |b.diagram|), 0)
  }

  /** Rewrite one stretch, if there is one. */
  function Fill(s: string, at: Option<nat>, n: nat, r: string): string
    requires at.Some? ==> at.value + n <= |s|
  {
    if at.Some? then Splice(s, at.value, n, r) else s
  }

  lemma {:induction false} GateFacts(b: Blocks, s: string)
    requires Fences(b) && GatePasses(b, s)
    ensures b.first != "" && b.diagram != "" && b.stats != "" && AllSlot(b.diagram) && AllSlot(b.stats)
    ensures Cluster(s, b.first) && Cluster(s, b.diagram) && Cluster(s, b.stats) && FirstPlace(b, s).Some?
  {
    FencesParts(b);
    hide Matches, TrimEnd, Fenced, EndsWith, AllSlot;
    OneIsCluster(s, b.first);
    OneIsCluster(s, b.diagram);
    OneIsCluster(s, b.stats);
  }

  lemma {:induction false} SoundFacts(b: Blocks)
    requires Sound(b)
    ensures Shaped(b) && Bracketed(b.section) && Bracketed(b.image)
    ensures !Contains(b.section, b.diagram) && !Contains(b.section, b.stats) && !Contains(b.image, b.stats)
  {
    hide Contains, Bracketed;
  }

  lemma {:induction false} FindInBounds(s: string, p: string)
    ensures Find(s, p).Some? ==> Find(s, p).value + |p| <= |s| && Occurs(s, p, Find(s, p).value)
  {
  }

  /** The first pass, and where the diagram placeholder is then. */
  lemma {:induction false} AfterFirst(b: Blocks, s: string)
    requires Sound(b) && Fences(b) && GatePasses(b, s)
    ensures Shaped(b) && b.diagram != "" && FirstPlace(b, s).Some? && FirstPlace(b, s).value + |b.first| <= |s|
    ensures Pass1(b, s) == Splice(s, FirstPlace(b, s).value, |b.first|, b.section)
    ensures var f := FirstPlace(b, s).value;
      Find(Pass1(b, s), b.diagram)
      == if DiagramPlace(b, s).Some? then Some(Shift(DiagramPlace(b, s).value, f, |b.first|, b.section)) else None
    ensures Cluster(Pass1(b, s), b.diagram) && Cluster(Pass1(b, s), b.stats)
    ensures Matches(Pass1(b, s), b.diagram) == if DiagramPlace(b, s).Some? then 1 else 0
  {
    hide *;
    GateFacts(b, s);
    SoundFacts(b);
    FindInBounds(s, b.first);
    FirstIsFind(b, s);
    ClusterPass(s, b.first, b.section);
    PassOneIs(b, s);
    var f := FirstPlace(b, s).value;
    NoneApart(f, |b.first|, b.section);
    FreeAfterSplice(s, f, |b.first|, b.section, b.diagram, []);
    DiagramIsFree(b, s);
    assert [(f, |b.first|)] + [] == [(f, |b.first|)];
    FreeIsFind(Pass1(b, s), b.diagram);
    ClusterKept(s, f, |b.first|, b.section, b.diagram);
    ClusterKept(s, f, |b.first|, b.section, b.stats);
    ClusterPass(Pass1(b, s), b.diagram, b.image);
  }

  lemma {:induction false} FirstIsFind(b: Blocks, s: string)
    ensures FirstPlace(b, s) == Find(s, b.first)
  {
  }

  lemma {:induction false} PassOneIs(b: Blocks, s: string)
    requires Shaped(b)
    ensures b.first != "" && Pass1(b, s) == Replace(s, b.first, b.section)
  {
  }

  lemma {:induction false} NoneApart(k: nat, n: nat, r: string)
    ensures AllApart([], k, n) && ShiftAll([], k, n, r) == []
  {
  }

  lemma {:induction false} DiagramIsFree(b: Blocks, s: string)
    requires FirstPlace(b, s).Some?
    ensures DiagramPlace(b, s) == FreeMatch(s, b.diagram, [(FirstPlace(b, s).value, |b.first|)], 0)
  {
    hide FreeMatch;
  }

  /** A place of the draft after the first pass. */
  function Moved(b: Blocks, s: string, at: Option<nat>): Option<nat>
    requires FirstPlace(b, s).Some?
  {
    if at.Some? then Some(Shift(at.value, FirstPlace(b, s).value, |b.first|, b.section)) else None
  }

  /** A place of the draft after the second pass. */
  function MovedTwice(b: Blocks, s: string, at: Option<nat>): Option<nat>
    requires FirstPlace(b, s).Some?
  {
    var once, d := Moved(b, s, at), Moved(b, s, DiagramPlace(b, s));
    if once.Some? && d.Some? then Some(Shift(once.value, d.value, |b.diagram|, b.image)) else once
  }

  lemma {:induction false} PassTwoIs(b: Blocks, s: string)
    requires Shaped(b)
    ensures b.diagram != "" && b.stats != ""
    ensures Pass2(b, s) == Replace(Pass1(b, s), b.diagram, b.image) && Passes(b, s) == Replace(Pass2(b, s), b.stats, b.about)
  {
  }

  /** The second pass, and where the run-stats placeholder is then. */
  lemma {:induction false} AfterSecond(b: Blocks, s: string)
    requires Sound(b) && Fences(b) && GatePasses(b, s)
    ensures Shaped(b) && b.stats != "" && FirstPlace(b, s).Some? && Cluster(Pass2(b, s), b.stats)
    ensures Find(Pass1(b, s), b.diagram) == Moved(b, s, DiagramPlace(b, s))
    ensures DiagramPlace(b, s).Some? ==> Moved(b, s, DiagramPlace(b, s)).value + |b.diagram| <= |Pass1(b, s)|
    ensures Pass2(b, s) == Fill(Pass1(b, s), Moved(b, s, DiagramPlace(b, s)), |b.diagram|, b.image)
    ensures Find(Pass2(b, s), b.stats) == MovedTwice(b, s, StatsPlace(b, s))
  {
    AfterFirst(b, s);
    GateFacts(b, s);
    SoundFacts(b);
    PassTwoIs(b, s);
    FindInBounds(Pass1(b, s), b.diagram);
    StatsIsFree(b, s);
    hide Passes, Pass1, Pass2, Replace, Find, Matches, Cluster, Sound, Fences, GatePasses, Shift, Splice, FreeMatch, Contains, AllSlot;
    hide DiagramPlace, StatsPlace, FirstPlace, Bracketed, Occurs, AllApart, FreeAt;
    ClusterPass(Pass1(b, s), b.diagram, b.image);
    if DiagramPlace(b, s).Some? { DiagramApart(b, s); }
    var f, d, t := FirstPlace(b, s).value, DiagramPlace(b, s), Pass1(b, s);
    if d.None? { StatsPastOne(b, s, t, f); } else { StatsPastTwo(b, s, t, f, d.value); }
  }

  lemma {:induction false} StatsPastOne(b: Blocks, s: string, t: string, f: nat)
    requires f + |b.first| <= |s| && t == Splice(s, f, |b.first|, b.section) && Cluster(t, b.stats)
    requires Bracketed(b.section) && !Contains(b.section, b.stats) && AllSlot(b.stats) && b.stats != ""
    ensures var z := FreeMatch(s, b.stats, [(f, |b.first|)], 0);
      Find(t, b.stats) == if z.Some? then Some(Shift(z.value, f, |b.first|, b.section)) else None
  {
    hide *;
    NoneApart(f, |b.first|, b.section);
    assert [(f, |b.first|)] + [] == [(f, |b.first|)];
    FreeAfterSplice(s, f, |b.first|, b.section, b.stats, []);
    FreeIsFind(t, b.stats);
  }

  lemma {:induction false} StatsPastTwo(b: Blocks, s: string, t: string, f: nat, d: nat)
    requires f + |b.first| <= |s| && t == Splice(s, f, |b.first|, b.section) && Cluster(t, b.stats)
    requires Bracketed(b.section) && !Contains(b.section, b.stats) && AllSlot(b.stats) && b.stats != ""
    requires Bracketed(b.image) && !Contains(b.image, b.stats) && AllApart([(d, |b.diagram|)], f, |b.first|)
    requires Shift(d, f, |b.first|, b.section) + |b.diagram| <= |t|
    ensures var d', z := Shift(d, f, |b.first|, b.section), FreeMatch(s, b.stats, [(f, |b.first|), (d, |b.diagram|)], 0);
      Find(Splice(t, d', |b.diagram|, b.image), b.stats)
      == if z.Some? then Some(Shift(Shift(z.value, f, |b.first|, b.section), d', |b.diagram|, b.image)) else None
    ensures Cluster(Splice(t, Shift(d, f, |b.first|, b.section), |b.diagram|, b.image), b.stats)
  {
    hide *;
    var d' := Shift(d, f, |b.first|, b.section);
    OneShifted(d, |b.diagram|, f, |b.first|, b.section);
    assert [(f, |b.first|)] + [(d, |b.diagram|)] == [(f, |b.first|), (d, |b.diagram|)];
    FreeAfterSplice(s, f, |b.first|, b.section, b.stats, [(d, |b.diagram|)]);
    NoneApart(d', |b.diagram|, b.image);
    assert [(d', |b.diagram|)] + [] == [(d', |b.diagram|)];
    FreeAfterSplice(t, d', |b.diagram|, b.image, b.stats, []);
    FreeIsFind(Splice(t, d', |b.diagram|, b.image), b.stats);
    ClusterKept(t, d', |b.diagram|, b.image, b.stats);
  }

  lemma {:induction false} OneShifted(d: nat, m: nat, k: nat, n: nat, r: string)
    ensures ShiftAll([(d, m)], k, n, r) == [(Shift(d, k, n, r), m)]
  {
  }

  lemma {:induction false} StatsIsFree(b: Blocks, s: string)
    requires FirstPlace(b, s).Some?
    ensures var f, d := (FirstPlace(b, s).value, |b.first|), DiagramPlace(b, s);
      StatsPlace(b, s) == FreeMatch(s, b.stats, if d.Some? then [f, (d.value, |b.diagram|)] else [f], 0)
  {
    hide FreeMatch, DiagramPlace, FirstPlace;
    var f, d := (FirstPlace(b, s).value, |b.first|), DiagramPlace(b, s);
    if d.Some? { assert [f] + [(d.value, |b.diagram|)] == [f, (d.value, |b.diagram|)]; } else { assert [f] + [] == [f]; }
  }

  lemma {:induction false} DiagramApart(b: Blocks, s: string)
    requires FirstPlace(b, s).Some? && DiagramPlace(b, s).Some? && b.diagram != ""
    ensures AllApart([(DiagramPlace(b, s).value, |b.diagram|)], FirstPlace(b, s).value, |b.first|)
    ensures Occurs(s, b.diagram, DiagramPlace(b, s).value)
  {
    DiagramIsFree(b, s);
    var f := FirstPlace(b, s).value;
    FreeMatchFree(s, b.diagram, [(f, |b.first|)]);
    assert Apart(DiagramPlace(b, s).value, |b.diagram|, [(f, |b.first|)][0].0, [(f, |b.first|)][0].1);
  }

  lemma {:induction false} FreeMatchFree(s: string, q: string, taken: Stretches)
    ensures FreeMatch(s, q, taken, 0).Some? ==> FreeAt(s, q, taken, FreeMatch(s, q, taken, 0).value)
  {
  }

  /** What the three passes do to every draft that passes the gate: they rewrite
      the first placeholder, the first diagram placeholder apart from it, and
      the first run-stats placeholder apart from both, where there are such. */
  lemma {:induction false} PassesFill(b: Blocks, s: string)
    requires Sound(b) && Fences(b) && GatePasses(b, s)
    ensures Shaped(b) && FirstPlace(b, s).Some? && FirstPlace(b, s).value + |b.first| <= |s|
    ensures DiagramPlace(b, s).Some? ==> Moved(b, s, DiagramPlace(b, s)).value + |b.diagram| <= |Pass1(b, s)|
    ensures StatsPlace(b, s).Some? ==> MovedTwice(b, s, StatsPlace(b, s)).value + |b.stats| <= |Pass2(b, s)|
    ensures Pass1(b, s) == Fill(s, FirstPlace(b, s), |b.first|, b.section)
    ensures Pass2(b, s) == Fill(Pass1(b, s), Moved(b, s, DiagramPlace(b, s)), |b.diagram|, b.image)
    ensures Passes(b, s) == Fill(Pass2(b, s), MovedTwice(b, s, StatsPlace(b, s)), |b.stats|, b.about)
  {
    AfterFirst(b, s);
    AfterSecond(b, s);
    PassTwoIs(b, s);
    FindInBounds(Pass2(b, s), b.stats);
    hide Passes, Pass1, Pass2, Replace, Find, Matches, Cluster, Sound, Fences, GatePasses, Shift, Splice, DiagramPlace, StatsPlace, FirstPlace;
    hide Occurs;
    ClusterPass(Pass2(b, s), b.stats, b.about);
  }

  /** Every pass after the first rewrites its placeholder exactly once or not at
      all. All blocks land if and only if the draft has a diagram placeholder
      apart from the first one and a run-stats placeholder apart from both. */
  lemma {:induction false} LandExactly(b: Blocks, s: string)
    requires Sound(b) && Fences(b) && GatePasses(b, s)
    ensures Shaped(b) && b.diagram != "" && b.stats != ""
    ensures Matches(Pass1(b, s), b.diagram) == if DiagramPlace(b, s).Some? then 1 else 0
    ensures Matches(Pass2(b, s), b.stats) == if StatsPlace(b, s).Some? then 1 else 0
  {
    hide *;
    AfterFirst(b, s);
    AfterSecond(b, s);
    ClusterPass(Pass2(b, s), b.stats, b.about);
    MovedSome(b, s, StatsPlace(b, s));
  }

  lemma {:induction false} MovedSome(b: Blocks, s: string, at: Option<nat>)
    requires FirstPlace(b, s).Some?
    ensures MovedTwice(b, s, at).Some? == at.Some?
  {
    hide DiagramPlace, FirstPlace, Shift;
  }

  ghost predicate AllLand(b: Blocks, s: string) { DiagramPlace(b, s).Some? && StatsPlace(b, s).Some? }

  ghost predicate OneIndex(s: string, p: string) { forall i, j :: Occurs(s, p, i) && Occurs(s, p, j) ==> i == j }

  /** When no placeholder overlaps itself, all blocks land if and only if no two
      placeholders share a character. */
  lemma {:induction false} LandIffSeparate(b: Blocks, s: string)
    requires Sound(b) && Fences(b) && GatePasses(b, s)
    requires OneIndex(s, b.first) && OneIndex(s, b.diagram) && OneIndex(s, b.stats)
    ensures AllLand(b, s) <==> Separate(b, s)
  {
    hide *;
    GateFacts(b, s);
    FencesShaped(b);
    if AllLand(b, s) {
      LandBoth(b, s);
      PlacesApart(b, s);
      var f, d, z := FirstPlace(b, s).value, DiagramPlace(b, s).value, StatsPlace(b, s).value;
      OnlyAt(s, b.first, f);
      OnlyAt(s, b.diagram, d);
      OnlyAt(s, b.stats, z);
      ApartIsSeparate(b, s, f, d, z);
    }
    if Separate(b, s) { SeparateLands(b, s); }
  }

  lemma {:induction false} OnlyAt(s: string, p: string, k: nat)
    requires OneIndex(s, p) && Occurs(s, p, k)
    ensures forall i :: Occurs(s, p, i) ==> i == k
  {
    hide Occurs;
  }

  lemma {:induction false} ApartIsSeparate(b: Blocks, s: string, f: nat, d: nat, z: nat)
    requires Shaped(b)
    requires forall i :: Occurs(s, b.first, i) ==> i == f
    requires forall i :: Occurs(s, b.diagram, i) ==> i == d
    requires forall i :: Occurs(s, b.stats, i) ==> i == z
    requires Apart(d, |b.diagram|, f, |b.first|) && Apart(z, |b.stats|, f, |b.first|) && Apart(z, |b.stats|, d, |b.diagram|)
    ensures Separate(b, s)
  {
    NonEmptySlots(b);
    hide Occurs, Shaped;
  }

  lemma {:induction false} SeparateLands(b: Blocks, s: string)
    requires Fences(b) && GatePasses(b, s) && Separate(b, s)
    ensures AllLand(b, s)
  {
    hide *;
    GateFacts(b, s);
    StatsIsFree(b, s);
    DiagramIsFree(b, s);
    FirstIsFind(b, s);
    FindInBounds(s, b.first);
    FencesShaped(b);
    GateCounts(b, s);
    ThreeSlots(b);
    var f := FirstPlace(b, s).value;
    var i := SingleMatch(s, b.diagram);
    var j := SingleMatch(s, b.stats);
    DifferentPlaces(b, s, f, i, j);
    SeparateApart(b, s, b.diagram, i, b.first, f);
    FreeOne(s, b.diagram, i, (f, |b.first|));
    var d := DiagramPlace(b, s).value;
    FreeMatchFree(s, b.diagram, [(f, |b.first|)]);
    FreeOccurs(s, b.diagram, [(f, |b.first|)], d);
    DifferentPlaces(b, s, f, d, j);
    SeparateApart(b, s, b.stats, j, b.first, f);
    SeparateApart(b, s, b.stats, j, b.diagram, d);
    FreeTwo(s, b.stats, j, (f, |b.first|), (d, |b.diagram|));
    LandBoth(b, s);
  }

  lemma {:induction false} GateCounts(b: Blocks, s: string)
    requires Shaped(b) && GatePasses(b, s)
    ensures b.diagram != "" && b.stats != "" && Matches(s, b.diagram) == 1 && Matches(s, b.stats) == 1
  {
  }

  lemma {:induction false} ThreeSlots(b: Blocks)
    ensures IsSlotText(b, b.first) && IsSlotText(b, b.diagram) && IsSlotText(b, b.stats)
  {
  }

  lemma {:induction false} SeparateApart(b: Blocks, s: string, p: string, i: nat, q: string, j: nat)
    requires Separate(b, s) && IsSlotText(b, p) && IsSlotText(b, q) && Occurs(s, p, i) && Occurs(s, q, j) && i != j
    ensures Apart(i, |p|, j, |q|)
  {
    hide Occurs, IsSlotText;
  }

  lemma {:induction false} FreeOne(s: string, q: string, i: nat, x: (nat, nat))
    requires Occurs(s, q, i) && Apart(i, |q|, x.0, x.1)
    ensures FreeAt(s, q, [x], i)
  {
  }

  lemma {:induction false} FreeTwo(s: string, q: string, i: nat, x: (nat, nat), y: (nat, nat))
    requires Occurs(s, q, i) && Apart(i, |q|, x.0, x.1) && Apart(i, |q|, y.0, y.1)
    ensures FreeAt(s, q, [x, y], i)
  {
  }

  lemma {:induction false} FreeOccurs(s: string, q: string, taken: Stretches, i: nat)
    requires FreeAt(s, q, taken, i)
    ensures Occurs(s, q, i)
  {
  }

  lemma {:induction false} LandBoth(b: Blocks, s: string)
    ensures AllLand(b, s) <==> DiagramPlace(b, s).Some? && StatsPlace(b, s).Some?
  {
    hide DiagramPlace, StatsPlace;
  }

  lemma {:induction false} FreeTwoParts(s: string, q: string, i: nat, x: (nat, nat), y: (nat, nat))
    requires FreeAt(s, q, [x, y], i)
    ensures Occurs(s, q, i) && Apart(i, |q|, x.0, x.1) && Apart(i, |q|, y.0, y.1)
  {
    assert Apart(i, |q|, [x, y][0].0, [x, y][0].1) && Apart(i, |q|, [x, y][1].0, [x, y][1].1);
  }

  /** Where the three places are. */
  lemma {:induction false} PlacesApart(b: Blocks, s: string)
    requires FirstPlace(b, s).Some? && AllLand(b, s) && b.diagram != ""
    ensures var f, d, z := FirstPlace(b, s).value, DiagramPlace(b, s).value, StatsPlace(b, s).value;
      Occurs(s, b.first, f) && Occurs(s, b.diagram, d) && Occurs(s, b.stats, z)
      && Apart(d, |b.diagram|, f, |b.first|) && Apart(z, |b.stats|, f, |b.first|) && Apart(z, |b.stats|, d, |b.diagram|)
  {
    hide *;
    LandBoth(b, s);
    var f, d, z := FirstPlace(b, s).value, DiagramPlace(b, s).value, StatsPlace(b, s).value;
    FirstIsFind(b, s);
    FindInBounds(s, b.first);
    DiagramApart(b, s);
    OneApart(d, |b.diagram|, f, |b.first|);
    StatsIsFree(b, s);
    FreeMatchFree(s, b.stats, [(f, |b.first|), (d, |b.diagram|)]);
    FreeTwoParts(s, b.stats, z, (f, |b.first|), (d, |b.diagram|));
  }

  lemma {:induction false} OneApart(d: nat, m: nat, k: nat, n: nat)
    requires AllApart([(d, m)], k, n)
    ensures Apart(d, m, k, n)
  {
    assert Apart([(d, m)][0].0, [(d, m)][0].1, k, n);
  }

  // ---- the text when all blocks land ----

  lemma {:induction false} SpliceLater(s: string, k: nat, n: nat, r: string, i: nat, m: nat, v: string)
    requires k + n <= i && i + m <= |s|
    ensures Shift(i, k, n, r) + m <= |Splice(s, k, n, r)|
    ensures Splice(Splice(s, k, n, r), Shift(i, k, n, r), m, v) == s[..k] + (r + (s[k + n..i] + (v + s[i + m..])))
  {
    var t, j := Splice(s, k, n, r), Shift(i, k, n, r);
    SpliceHolds(s, k, n, r);
    assert t[..j] == s[..k] + (r + s[k + n..i]);
    assert t[j + m..] == t[k + |r|..][j + m - k - |r|..] == s[k + n..][i + m - k - n..] == s[i + m..];
  }

  lemma {:induction false} SpliceEarlier(s: string, k: nat, n: nat, r: string, i: nat, m: nat, v: string)
    requires i + m <= k && k + n <= |s| && 0 < m
    ensures Shift(i, k, n, r) == i && i + m <= |Splice(s, k, n, r)|
    ensures Splice(Splice(s, k, n, r), i, m, v) == s[..i] + (v + (s[i + m..k] + (r + s[k + n..])))
  {
    SpliceHolds(s, k, n, r);
    var t := Splice(s, k, n, r);
    assert t[..i] == t[..k][..i] == s[..k][..i] == s[..i];
    assert t[i + m..] == s[i + m..k] + (r + s[k + n..]);
  }

  /** Rewriting a stretch in the tail that a text shares with `s`. */
  lemma {:induction false} SpliceTail(head: string, s: string, e: nat, z: nat, m: nat, v: string)
    requires e <= z && z + m <= |s|
    ensures |head| + (z - e) + m <= |head + s[e..]|
    ensures Splice(head + s[e..], |head| + (z - e), m, v) == head + (s[e..z] + (v + s[z + m..]))
  {
    var t, j := head + s[e..], |head| + (z - e);
    assert t[..j] == head + s[e..z];
    assert t[j + m..] == s[e..][z - e + m..] == s[z + m..];
  }

  /** In a draft that passes the gate the run-stats place comes last. */
  lemma {:induction false} StatsComeLast(b: Blocks, s: string, z: nat, q: string, i: nat)
    requires Fences(b) && GatePasses(b, s) && (q == b.first || q == b.diagram)
    requires Occurs(s, b.stats, z) && Occurs(s, q, i) && Apart(z, |b.stats|, i, |q|)
    ensures i + |q| <= z
  {
    FencesParts(b);
    var c, last := LastMatch(b, s);
    EndsInText(s, q, i);
    hide GatePasses, Occurs, Shaped, TrimEnd;
  }

  /** The text with the blocks in their places, whichever comes first. */
  function Laid(b: Blocks, s: string, x: nat, p: string, y: nat, q: string, z: nat): string
    requires x + |p| <= y && y + |q| <= z && z + |b.stats| <= |s|
  {
    s[..x] + Block(b, p) + (s[x + |p|..y] + Block(b, q) + (s[y + |q|..z] + b.about + s[z + |b.stats|..]))
  }

  /** The passes' text for the three places of a draft. */
  ghost predicate InPlace(b: Blocks, s: string, f: nat, d: nat, z: nat)
    requires Shaped(b)
  {
    z + |b.stats| <= |s|
    && ((f + |b.first| <= d && d + |b.diagram| <= z && Passes(b, s) == Laid(b, s, f, b.first, d, b.diagram, z))
        || (d + |b.diagram| <= f && f + |b.first| <= z && Passes(b, s) == Laid(b, s, d, b.diagram, f, b.first, z)))
  }

  lemma {:induction false} InPlaceWhen(b: Blocks, s: string, f: nat, d: nat, z: nat)
    requires Shaped(b) && z + |b.stats| <= |s|
    requires (f + |b.first| <= d && d + |b.diagram| <= z && Passes(b, s) == Laid(b, s, f, b.first, d, b.diagram, z))
      || (d + |b.diagram| <= f && f + |b.first| <= z && Passes(b, s) == Laid(b, s, d, b.diagram, f, b.first, z))
    ensures InPlace(b, s, f, d, z)
  {
    hide Passes, Laid, Shaped;
  }

  lemma {:induction false} Sides(i: nat, m: nat, k: nat, n: nat)
    requires Apart(i, m, k, n)
    ensures i + m <= k || k + n <= i
  {
  }

  /** When all blocks land, each stands once in its own place and the text
      around the places is the draft's. */
  lemma {:induction false} LaidOut(b: Blocks, s: string)
    requires Sound(b) && Fences(b) && GatePasses(b, s) && AllLand(b, s)
    ensures Shaped(b) && FirstPlace(b, s).Some? && DiagramPlace(b, s).Some? && StatsPlace(b, s).Some?
    ensures InPlace(b, s, FirstPlace(b, s).value, DiagramPlace(b, s).value, StatsPlace(b, s).value)
  {
    hide *;
    GateFacts(b, s);
    FencesShaped(b);
    NonEmptySlots(b);
    PassesFill(b, s);
    LandBoth(b, s);
    PlacesApart(b, s);
    var f, d, z := FirstPlace(b, s).value, DiagramPlace(b, s).value, StatsPlace(b, s).value;
    StatsComeLast(b, s, z, b.first, f);
    StatsComeLast(b, s, z, b.diagram, d);
    OccursInBounds(s, b.stats, z);
    FillParts(b, s);
    Sides(d, |b.diagram|, f, |b.first|);
    if f + |b.first| <= d { FirstInFront(b, s, f, d, z); } else { DiagramInFront(b, s, f, d, z); }
    InPlaceWhen(b, s, f, d, z);
  }

  /** The passes, unfolded. */
  lemma {:induction false} FillParts(b: Blocks, s: string)
    requires Sound(b) && Fences(b) && GatePasses(b, s) && AllLand(b, s)
    ensures FirstPlace(b, s).Some? && DiagramPlace(b, s).Some? && StatsPlace(b, s).Some? && Shaped(b)
    ensures var f, d, z := FirstPlace(b, s).value, DiagramPlace(b, s).value, StatsPlace(b, s).value;
      var d' := Shift(d, f, |b.first|, b.section);
      var z' := Shift(Shift(z, f, |b.first|, b.section), d', |b.diagram|, b.image);
      f + |b.first| <= |s| && d' + |b.diagram| <= |Splice(s, f, |b.first|, b.section)|
      && z' + |b.stats| <= |Splice(Splice(s, f, |b.first|, b.section), d', |b.diagram|, b.image)|
      && Passes(b, s) == Splice(Splice(Splice(s, f, |b.first|, b.section), d', |b.diagram|, b.image), z', |b.stats|, b.about)
  {
    PassesFill(b, s);
    LandBoth(b, s);
    hide Sound, Fences, GatePasses, AllLand, Pass1, Pass2, Passes, FirstPlace, DiagramPlace, StatsPlace, Shift, Splice;
  }

  lemma {:induction false} Around(a: string, r: string, c: string, v: string, rest: string)
    ensures a + (r + (c + (v + rest))) == (a + r + (c + v)) + rest
  {
  }

  lemma {:induction false} Nested(a: string, r: string, c: string, v: string, e: string, w: string, rest: string)
    ensures (a + r + (c + v)) + (e + (w + rest)) == a + r + (c + v + (e + w + rest))
  {
  }

  lemma {:induction false} ShiftsLater(k: nat, n: nat, r: string, i: nat, m: nat, v: string, z: nat)
    requires k + n <= i && i + m <= z
    ensures Shift(i, k, n, r) == i - n + |r| && Shift(Shift(z, k, n, r), Shift(i, k, n, r), m, v) == k + |r| + (i - k - n) + |v| + (z - i - m)
  {
  }

  lemma {:induction false} ShiftsEarlier(k: nat, n: nat, r: string, i: nat, m: nat, v: string, z: nat)
    requires i + m <= k && k + n <= z && m > 0
    ensures Shift(i, k, n, r) == i && Shift(Shift(z, k, n, r), i, m, v) == i + |v| + (k - i - m) + |r| + (z - k - n)
  {
  }

  lemma {:induction false} BlocksOf(b: Blocks)
    requires b.first != b.diagram
    ensures Block(b, b.first) == b.section && Block(b, b.diagram) == b.image
  {
  }

  lemma {:induction false} LaidIs(b: Blocks, s: string, x: nat, p: string, y: nat, q: string, z: nat)
    requires x + |p| <= y && y + |q| <= z && z + |b.stats| <= |s|
    ensures Laid(b, s, x, p, y, q, z)
         == s[..x] + Block(b, p) + (s[x + |p|..y] + Block(b, q) + (s[y + |q|..z] + b.about + s[z + |b.stats|..]))
  {
  }

  lemma {:induction false} FirstInFront(b: Blocks, s: string, f: nat, d: nat, z: nat)
    requires Shaped(b) && f + |b.first| <= d && d + |b.diagram| <= z && z + |b.stats| <= |s| && b.first != b.diagram
    ensures var d' := Shift(d, f, |b.first|, b.section);
      var z' := Shift(Shift(z, f, |b.first|, b.section), d', |b.diagram|, b.image);
      d' + |b.diagram| <= |Splice(s, f, |b.first|, b.section)|
      && z' + |b.stats| <= |Splice(Splice(s, f, |b.first|, b.section), d', |b.diagram|, b.image)|
      && Splice(Splice(Splice(s, f, |b.first|, b.section), d', |b.diagram|, b.image), z', |b.stats|, b.about)
      == Laid(b, s, f, b.first, d, b.diagram, z)
  {
    hide *;
    ShiftsLater(f, |b.first|, b.section, d, |b.diagram|, b.image, z);
    LaidIs(b, s, f, b.first, d, b.diagram, z);
    BlocksOf(b);
    SpliceLater(s, f, |b.first|, b.section, d, |b.diagram|, b.image);
    var head, e := s[..f] + b.section + (s[f + |b.first|..d] + b.image), d + |b.diagram|;
    Around(s[..f], b.section, s[f + |b.first|..d], b.image, s[e..]);
    SpliceTail(head, s, e, z, |b.stats|, b.about);
    Nested(s[..f], b.section, s[f + |b.first|..d], b.image, s[e..z], b.about, s[z + |b.stats|..]);
  }

  lemma {:induction false} DiagramInFront(b: Blocks, s: string, f: nat, d: nat, z: nat)
    requires Shaped(b) && d + |b.diagram| <= f && f + |b.first| <= z && z + |b.stats| <= |s| && b.first != b.diagram && b.diagram != ""
    ensures var d' := Shift(d, f, |b.first|, b.section);
      var z' := Shift(Shift(z, f, |b.first|, b.section), d', |b.diagram|, b.image);
      d' + |b.diagram| <= |Splice(s, f, |b.first|, b.section)|
      && z' + |b.stats| <= |Splice(Splice(s, f, |b.first|, b.section), d', |b.diagram|, b.image)|
      && Splice(Splice(Splice(s, f, |b.first|, b.section), d', |b.diagram|, b.image), z', |b.stats|, b.about)
      == Laid(b, s, d, b.diagram, f, b.first, z)
  {
    hide *;
    ShiftsEarlier(f, |b.first|, b.section, d, |b.diagram|, b.image, z);
    LaidIs(b, s, d, b.diagram, f, b.first, z);
    BlocksOf(b);
    SpliceEarlier(s, f, |b.first|, b.section, d, |b.diagram|, b.image);
    var head, e := s[..d] + b.image + (s[d + |b.diagram|..f] + b.section), f + |b.first|;
    Around(s[..d], b.image, s[d + |b.diagram|..f], b.section, s[e..]);
    SpliceTail(head, s, e, z, |b.stats|, b.about);
    Nested(s[..d], b.image, s[d + |b.diagram|..f], b.section, s[e..z], b.about, s[z + |b.stats|..]);
  }

  // ---- the end of the text ----

  lemma {:induction false} TrimToText(head: string, text: string, tail: string)
    requires text != "" && !IsSpace(text[|text| - 1]) && forall i :: 0 <= i < |tail| ==> IsSpace(tail[i])
    ensures EndsWith(TrimEnd(head + text + tail), text)
  {
    if tail == "" {
      var s := head + text;
      assert head + text + tail == s && s[|s| - 1] == text[|text| - 1] && s[|head|..] == text;
    } else {
      var s := head + text + tail;
      assert s[..|s| - 1] == head + text + tail[..|tail| - 1];
      assert s[|s| - 1] == tail[|tail| - 1];
      TrimToText(head, text, tail[..|tail| - 1]);
    }
  }

  /** The rest of `s` from `m` on is the end of `t`. */
  predicate KeepsTail(s: string, m: nat, t: string) { m <= |s| && |s| - m <= |t| && t[|t| - (|s| - m)..] == s[m..] }

  lemma {:induction false} SpliceKeepsTail(s: string, m: nat, t: string, k: nat, n: nat, r: string)
    requires KeepsTail(s, m, t) && k + n <= |t| - (|s| - m)
    ensures KeepsTail(s, m, Splice(t, k, n, r))
  {
    SpliceHolds(t, k, n, r);
    var u, e := Splice(t, k, n, r), |t| - (|s| - m);
    assert u[|u| - (|s| - m)..] == u[k + |r|..][e - k - n..] == t[k + n..][e - k - n..] == t[e..];
  }

  /** A text that ends in a placeholder character and white space. */
  lemma {:induction false} EndsInSlot(s: string, m: nat, t: string, text: string)
    requires KeepsTail(s, m, t) && m < |s| && Slot(s[m]) && forall i :: m < i < |s| ==> IsSpace(s[i])
    requires text != "" && !Slot(text[|text| - 1])
    ensures !EndsWith(TrimEnd(t), text)
  {
    var e := |t| - (|s| - m);
    assert t[e] == t[e..][0] == s[m..][0] == s[m];
    forall i | e < i < |t| ensures IsSpace(t[i]) { assert t[i] == t[e..][i - e] == s[m..][i - e] == s[m + i - e]; }
    SlotIsNoSpace(t[e]);
    TrimmedAt(t, e);
  }

  lemma {:induction false} SlotIsNoSpace(c: char)
    ensures Slot(c) ==> !IsSpace(c)
  {
  }

  lemma {:induction false} TrimmedAt(t: string, e: nat)
    requires e < |t| && !IsSpace(t[e]) && forall i :: e < i < |t| ==> IsSpace(t[i])
    ensures TrimEnd(t) == t[..e + 1]
  {
    var r := TrimEnd(t);
    assert |r| > e ==> |r| == e + 1;
  }

  /** What is moved along stays below what it was below. */
  lemma {:induction false} ShiftBelow(i: nat, q: nat, k: nat, n: nat, r: string, m: nat)
    requires i + q <= m && k + n <= m && Apart(i, q, k, n)
    ensures Shift(i, k, n, r) + q <= m - n + |r|
  {
  }

  /** A rest that begins behind all three places stays the rest. */
  lemma {:induction false} TailThroughTwo(b: Blocks, s: string, m: nat)
    requires Sound(b) && Fences(b) && GatePasses(b, s) && m <= |s|
    requires FirstPlace(b, s).Some? && FirstPlace(b, s).value + |b.first| <= m
    requires DiagramPlace(b, s).Some? ==> DiagramPlace(b, s).value + |b.diagram| <= m
    ensures Shaped(b) && KeepsTail(s, m, Pass1(b, s)) && KeepsTail(s, m, Pass2(b, s))
    ensures |Pass1(b, s)| == |s| - |b.first| + |b.section|
    ensures |Pass2(b, s)| == |Pass1(b, s)| + if DiagramPlace(b, s).Some? then |b.image| - |b.diagram| else 0
  {
    PassesFill(b, s);
    GateFacts(b, s);
    var f, d := FirstPlace(b, s).value, DiagramPlace(b, s);
    if d.Some? { DiagramApart(b, s); }
    hide Sound, Fences, GatePasses, Pass1, Pass2, Passes, FirstPlace, DiagramPlace, StatsPlace, Splice, Occurs, Cluster, Shaped;
    assert s[|s| - (|s| - m)..] == s[m..];
    SpliceKeepsTail(s, m, s, f, |b.first|, b.section);
    SpliceHolds(s, f, |b.first|, b.section);
    if d.Some? {
      OneApart(d.value, |b.diagram|, f, |b.first|);
      hide AllApart;
      ShiftBelow(d.value, |b.diagram|, f, |b.first|, b.section, m);
      SpliceKeepsTail(s, m, Pass1(b, s), Shift(d.value, f, |b.first|, b.section), |b.diagram|, b.image);
      SpliceHolds(Pass1(b, s), Shift(d.value, f, |b.first|, b.section), |b.diagram|, b.image);
    }
  }

  /** No placeholder but the last run stats reaches the end of the text. */
  lemma {:induction false} EndsBefore(b: Blocks, s: string, q: string, i: nat)
    requires Fences(b) && GatePasses(b, s) && Occurs(s, q, i)
    requires q == b.first || q == b.diagram || (q == b.stats && i + |q| != |TrimEnd(s)|)
    ensures i + |q| < |TrimEnd(s)|
  {
    FencesParts(b);
    FencesShaped(b);
    EndsInText(s, q, i);
    var c, last := LastMatch(b, s);
    hide GatePasses, TrimEnd, Occurs, Fenced, Shaped;
    if q != b.stats && i + |q| == |TrimEnd(s)| {
      hide Fences;
      LongerOverlaps(b, s, q, i, last);
    }
  }

  lemma {:induction false} LongerOverlaps(b: Blocks, s: string, q: string, i: nat, last: nat)
    requires Fenced(q) && Fenced(b.stats) && Occurs(s, q, i) && Occurs(s, b.stats, last)
    requires i < last && |b.stats| > 2
    ensures i + |q| != last + |b.stats|
  {
    if i < last < i + |q| { OverlapBound(s, q, i, b.stats, last); }
  }

  predicate StatsLandLast(b: Blocks, s: string) {
    var z := StatsPlace(b, s);
    z.Some? && z.value + |b.stats| == |TrimEnd(s)|
  }

  /** For every draft that passes the gate the result ends with the run stats, up
      to white space, if and only if the run-stats placeholder that ends the
      draft is the one that is rewritten. */
  lemma {:induction false} EndExactly(b: Blocks, s: string)
    requires Sound(b) && Fences(b) && GatePasses(b, s)
    requires b.about != "" && !Slot(b.about[|b.about| - 1]) && !IsSpace(b.about[|b.about| - 1])
    ensures Shaped(b) && (EndsWith(TrimEnd(Passes(b, s)), b.about) <==> StatsLandLast(b, s))
  {
    hide *;
    FencesShaped(b);
    LastIs(b, s);
    if StatsLandLast(b, s) { EndWhenLast(b, s); } else { NoEndOtherwise(b, s); }
  }

  lemma {:induction false} LastIs(b: Blocks, s: string)
    ensures StatsLandLast(b, s) <==> StatsPlace(b, s).Some? && StatsPlace(b, s).value + |b.stats| == |TrimEnd(s)|
  {
    hide StatsPlace, TrimEnd;
  }

  lemma {:induction false} TrimmedRest(s: string)
    ensures |TrimEnd(s)| <= |s| && forall i :: |TrimEnd(s)| <= i < |s| ==> IsSpace(s[i])
  {
  }

  /** The places in front, and that they end before the text does. */
  lemma {:induction false} PlacesInFront(b: Blocks, s: string)
    requires Fences(b) && GatePasses(b, s)
    ensures FirstPlace(b, s).Some? && FirstPlace(b, s).value + |b.first| < |TrimEnd(s)| <= |s|
    ensures var f, d := FirstPlace(b, s).value, DiagramPlace(b, s);
      d.Some? ==> d.value + |b.diagram| < |TrimEnd(s)| && Apart(d.value, |b.diagram|, f, |b.first|)
    ensures var f, d, z := FirstPlace(b, s).value, DiagramPlace(b, s), StatsPlace(b, s);
      z.Some? ==> f + |b.first| <= z.value && (d.Some? ==> d.value + |b.diagram| <= z.value) && z.value + |b.stats| <= |TrimEnd(s)|
  {
    hide *;
    GateFacts(b, s);
    FirstIsFind(b, s);
    FindInBounds(s, b.first);
    TrimmedRest(s);
    var f, d, z := FirstPlace(b, s).value, DiagramPlace(b, s), StatsPlace(b, s);
    EndsBefore(b, s, b.first, f);
    if d.Some? {
      DiagramApart(b, s);
      OneApart(d.value, |b.diagram|, f, |b.first|);
      EndsBefore(b, s, b.diagram, d.value);
    }
    if z.Some? {
      StatsFree(b, s);
      StatsComeLast(b, s, z.value, b.first, f);
      if d.Some? { StatsComeLast(b, s, z.value, b.diagram, d.value); }
      FencesParts(b);
      EndsInText(s, b.stats, z.value);
    }
  }

  lemma {:induction false} StatsFree(b: Blocks, s: string)
    requires FirstPlace(b, s).Some? && StatsPlace(b, s).Some?
    ensures var f, d, z := FirstPlace(b, s).value, DiagramPlace(b, s), StatsPlace(b, s).value;
      Occurs(s, b.stats, z) && Apart(z, |b.stats|, f, |b.first|) && (d.Some? ==> Apart(z, |b.stats|, d.value, |b.diagram|))
  {
    hide *;
    StatsIsFree(b, s);
    var x, d, z := (FirstPlace(b, s).value, |b.first|), DiagramPlace(b, s), StatsPlace(b, s).value;
    if d.Some? {
      FreeMatchFree(s, b.stats, [x, (d.value, |b.diagram|)]);
      FreeTwoParts(s, b.stats, z, x, (d.value, |b.diagram|));
    } else {
      FreeMatchFree(s, b.stats, [x]);
      FreeOneParts(s, b.stats, z, x);
    }
  }

  lemma {:induction false} FreeOneParts(s: string, q: string, i: nat, x: (nat, nat))
    requires FreeAt(s, q, [x], i)
    ensures Occurs(s, q, i) && Apart(i, |q|, x.0, x.1)
  {
    assert Apart(i, |q|, [x][0].0, [x][0].1);
  }

  /** How far from the end a place behind both others is after two passes. */
  lemma {:induction false} StatsMoved(b: Blocks, s: string)
    requires Sound(b) && Fences(b) && GatePasses(b, s) && StatsPlace(b, s).Some?
    ensures Shaped(b) && FirstPlace(b, s).Some? && MovedTwice(b, s, StatsPlace(b, s)).Some?
    ensures |Pass2(b, s)| - MovedTwice(b, s, StatsPlace(b, s)).value == |s| - StatsPlace(b, s).value
  {
    hide *;
    PlacesInFront(b, s);
    TailThroughTwo(b, s, |TrimEnd(s)|);
    var f, d, z := FirstPlace(b, s).value, DiagramPlace(b, s), StatsPlace(b, s).value;
    MovedTwiceIs(b, s, f, z);
    ShiftIs(z, f, |b.first|, b.section);
    if d.Some? {
      var d' := Shift(d.value, f, |b.first|, b.section);
      ShiftsBoth(d.value, |b.diagram|, z, f, |b.first|, b.section);
      ShiftIs(Shift(z, f, |b.first|, b.section), d', |b.diagram|, b.image);
    }
  }

  lemma {:induction false} MovedTwiceIs(b: Blocks, s: string, f: nat, z: nat)
    requires FirstPlace(b, s) == Some(f)
    ensures var z', d := Shift(z, f, |b.first|, b.section), DiagramPlace(b, s);
      MovedTwice(b, s, Some(z))
      == Some(if d.Some? then Shift(z', Shift(d.value, f, |b.first|, b.section), |b.diagram|, b.image) else z')
  {
    hide FirstPlace, DiagramPlace, Shift;
  }

  lemma {:induction false} ShiftIs(i: nat, k: nat, n: nat, r: string)
    ensures k + n <= i ==> Shift(i, k, n, r) == i - n + |r|
  {
  }

  lemma {:induction false} ShiftsBoth(d: nat, m: nat, z: nat, k: nat, n: nat, r: string)
    requires Apart(d, m, k, n) && k + n <= z && d + m <= z
    ensures Shift(d, k, n, r) + m <= Shift(z, k, n, r)
  {
  }

  lemma {:induction false} EndWhenLast(b: Blocks, s: string)
    requires Sound(b) && Fences(b) && GatePasses(b, s) && StatsLandLast(b, s)
    requires b.about != "" && !IsSpace(b.about[|b.about| - 1])
    ensures Shaped(b) && EndsWith(TrimEnd(Passes(b, s)), b.about)
  {
    hide *;
    LastIs(b, s);
    PlacesInFront(b, s);
    TrimmedRest(s);
    var e := |TrimEnd(s)|;
    TailThroughTwo(b, s, e);
    StatsMoved(b, s);
    PassesFill(b, s);
    var t, z := Pass2(b, s), MovedTwice(b, s, StatsPlace(b, s));
    TailIs(s, e, t);
    FillIs(t, z, |b.stats|, b.about);
    assert t[..z.value] + (b.about + t[z.value + |b.stats|..]) == t[..z.value] + b.about + t[z.value + |b.stats|..];
    TrimToText(t[..z.value], b.about, t[z.value + |b.stats|..]);
  }

  lemma {:induction false} TailIs(s: string, m: nat, t: string)
    requires KeepsTail(s, m, t)
    ensures m <= |s| && |s| - m <= |t| && t[|t| - (|s| - m)..] == s[m..]
    ensures (forall i :: m <= i < |s| ==> IsSpace(s[i])) ==> forall i :: 0 <= i < |s| - m ==> IsSpace(s[m..][i])
  {
  }

  lemma {:induction false} FillIs(s: string, at: Option<nat>, n: nat, r: string)
    requires at.Some? ==> at.value + n <= |s|
    ensures at.Some? ==> Fill(s, at, n, r) == s[..at.value] + (r + s[at.value + n..]) && Fill(s, at, n, r) == Splice(s, at.value, n, r)
    ensures at.None? ==> Fill(s, at, n, r) == s
  {
  }

  lemma {:induction false} NoEndOtherwise(b: Blocks, s: string)
    requires Sound(b) && Fences(b) && GatePasses(b, s) && !StatsLandLast(b, s)
    requires b.about != "" && !Slot(b.about[|b.about| - 1])
    ensures Shaped(b) && !EndsWith(TrimEnd(Passes(b, s)), b.about)
  {
    hide *;
    LastIs(b, s);
    PlacesInFront(b, s);
    TrimmedRest(s);
    var m := |TrimEnd(s)| - 1;
    TailThroughTwo(b, s, m);
    PassesFill(b, s);
    var t, z := Pass2(b, s), MovedTwice(b, s, StatsPlace(b, s));
    MovedSome(b, s, StatsPlace(b, s));
    FillIs(t, z, |b.stats|, b.about);
    TailIs(s, m, t);
    if StatsPlace(b, s).Some? {
      StatsMoved(b, s);
      SpliceKeepsTail(s, m, t, z.value, |b.stats|, b.about);
    }
    LastIsSlot(b, s);
    EndsInSlot(s, m, Passes(b, s), b.about);
  }

  lemma {:induction false} LastIsSlot(b: Blocks, s: string)
    requires Fences(b) && GatePasses(b, s)
    ensures |TrimEnd(s)| > 0 && Slot(s[|TrimEnd(s)| - 1])
  {
    FencesParts(b);
    FencesShaped(b);
    SlotSizes(b, b.stats);
    var c, last := LastMatch(b, s);
    hide GatePasses, Fences, TrimEnd, Occurs;
    OccursInBounds(s, b.stats, last);
    SlotAtEnd(s, b.stats, last);
  }

  lemma {:induction false} SlotAtEnd(s: string, p: string, i: nat)
    requires Occurs(s, p, i) && AllSlot(p) && p != ""
    ensures Slot(s[i + |p| - 1])
  {
    SlotAt(s, p, i, i + |p| - 1);
  }

  // ---- drafts in which a block is lost although the passes are the scan ----

  /** Where no placeholder starts the passes change nothing. */
  lemma {:induction false} PassesSkip(b: Blocks, a: string, rest: string)
    requires Sound(b) && forall p, i :: IsSlotText(b, p) && Occurs(a + rest, p, i) ==> i >= |a|
    ensures Shaped(b) && Passes(b, a + rest) == a + Passes(b, rest)
  {
    if a == "" {
      assert a + rest == rest;
    } else {
      var s := a + rest;
      assert s[0] == a[0] && s[1..] == a[1..] + rest;
      ThreeSlots(b);
      PrefixOccurs(s, b.first);
      PrefixOccurs(s, b.diagram);
      PrefixOccurs(s, b.stats);
      OtherAtFront(b, s);
      forall p, i | IsSlotText(b, p) && Occurs(a[1..] + rest, p, i) ensures i >= |a| - 1 { TailOccurs(s, p, 1, i); }
      hide *;
      PassesSkip(b, a[1..], rest);
      SoundIsShaped(b);
      Front(a, Passes(b, rest));
    }
  }

  lemma {:induction false} NotLost(b: Blocks, s: string)
    requires Shaped(b)
    requires forall i, j :: Occurs(s, b.diagram, i) && Occurs(s, b.first, j) && i < j ==> i + |b.diagram| <= j
    ensures !DiagramLost(b, s)
    decreases |s|
  {
    if s != "" {
      PrefixOccurs(s, b.first);
      PrefixOccurs(s, b.diagram);
      var n := if b.first <= s then |b.first| else if b.diagram <= s then |b.diagram| else 1;
      forall i, j | Occurs(s[n..], b.diagram, i) && Occurs(s[n..], b.first, j) && i < j ensures i + |b.diagram| <= j {
        TailOccurs(s, b.diagram, n, i);
        TailOccurs(s, b.first, n, j);
      }
      NotLost(b, s[n..]);
    }
  }

  /** The diagram placeholder runs into the run stats; both fences are shared. */
  function StatsCut(b: Blocks, text: string): string
    requires Fences(b)
  {
    b.first + (text + (b.diagram + b.stats[2..]))
  }

  lemma {:induction false} StatsCutForms(b: Blocks, text: string)
    requires Fences(b) && Gap(text)
    ensures |b.diagram| >= 4 && |b.stats| >= 4
    ensures var s, cut := StatsCut(b, text), b.diagram[..|b.diagram| - 2];
      s == "" + (b.first + (text + (b.diagram + b.stats[2..]))) && s == b.first + (text + (b.diagram + b.stats[2..]))
      && s == (b.first + text) + (b.diagram + b.stats[2..]) && s == (b.first + text + cut) + (b.stats + "")
  {
    hide AllSlot, Gap;
    var n := |b.diagram| - 2;
    var cut, fence := b.diagram[..n], b.diagram[n..];
    assert b.stats == fence + b.stats[2..] && b.diagram == cut + fence;
  }

  lemma {:induction false} StatsCutPlaces(b: Blocks, text: string)
    requires Fences(b) && Gap(text)
    ensures Occurs(StatsCut(b, text), b.first, 0) && Occurs(StatsCut(b, text), b.diagram, |b.first| + |text|)
    ensures Occurs(StatsCut(b, text), b.stats, |b.first| + |text| + |b.diagram| - 2)
    ensures |StatsCut(b, text)| == |b.first| + |text| + |b.diagram| - 2 + |b.stats|
  {
    hide *;
    StatsCutForms(b, text);
    var cut := b.diagram[..|b.diagram| - 2];
    PieceAt("", b.first, text + (b.diagram + b.stats[2..]));
    PieceAt(b.first + text, b.diagram, b.stats[2..]);
    PieceAt(b.first + text + cut, b.stats, "");
  }

  lemma {:induction false} StatsCutGap(b: Blocks, text: string, s: string)
    requires Fences(b) && Gap(text) && s == StatsCut(b, text)
    ensures |b.first| < |s| && !Slot(s[|b.first|]) && forall k :: |b.first| <= k < |b.first| + |text| ==> s[k] != '_'
  {
    hide *;
    StatsCutForms(b, text);
    GapIsText(text);
    GapAt(b.first, text, b.diagram + b.stats[2..]);
  }

  lemma {:induction false} GapIsText(text: string)
    requires Gap(text)
    ensures text != "" && '_' !in text
  {
  }

  /** A placeholder in it stands where its like was put. */
  lemma {:induction false} StatsCutOnly(b: Blocks, text: string, q: string, i: nat)
    requires Fences(b) && Gap(text) && IsPlaceholder(q) && Fenced(q) && Occurs(StatsCut(b, text), q, i)
    ensures (i == 0 && q[11] == b.first[11]) || (i == |b.first| + |text| && q[11] == b.diagram[11])
      || (i == |b.first| + |text| + |b.diagram| - 2 && q[11] == b.stats[11])
  {
    hide *;
    FencesParts(b);
    SlotSizes(b, q);
    StatsCutPlaces(b, text);
    StatsCutGap(b, text, StatsCut(b, text));
    var s, d := StatsCut(b, text), |b.first| + |text|;
    var z := d + |b.diagram| - 2;
    OccursInBounds(s, q, i);
    SameChar(s, b.diagram, q, d);
    SameChar(s, b.stats, q, z);
    StartsWithFence(s, q, i);
    if i < |b.first| {
      SegmentStart(s, b.first, 0, q, i);
    } else if d < i < z {
      OverlapBound(s, b.diagram, d, q, i);
    } else if z < i {
      OverlapBound(s, b.stats, z, q, i);
    }
  }

  lemma {:induction false} StatsCutOnce(b: Blocks, text: string)
    requires Fences(b) && Gap(text)
    ensures forall i :: Occurs(StatsCut(b, text), b.first, i) ==> i == 0
    ensures forall i :: Occurs(StatsCut(b, text), b.diagram, i) ==> i == |b.first| + |text|
    ensures forall i :: Occurs(StatsCut(b, text), b.stats, i) ==> i == |b.first| + |text| + |b.diagram| - 2
  {
    hide *;
    FencesParts(b);
    var s := StatsCut(b, text);
    forall i | Occurs(s, b.first, i) ensures i == 0 {
      OccursInBounds(s, b.first, i);
      StatsCutOnly(b, text, b.first, i);
    }
    forall i | Occurs(s, b.diagram, i) ensures i == |b.first| + |text| {
      OccursInBounds(s, b.diagram, i);
      StatsCutOnly(b, text, b.diagram, i);
    }
    forall i | Occurs(s, b.stats, i) ensures i == |b.first| + |text| + |b.diagram| - 2 {
      OccursInBounds(s, b.stats, i);
      StatsCutOnly(b, text, b.stats, i);
    }
  }

  lemma {:induction false} StatsCutGate(b: Blocks, text: string)
    requires Fences(b) && Gap(text)
    ensures GatePasses(b, StatsCut(b, text)) && !DiagramLost(b, StatsCut(b, text))
  {
    hide *;
    FencesParts(b);
    FencesShaped(b);
    FenceSizes(b);
    StatsCutPlaces(b, text);
    StatsCutOnce(b, text);
    var s, d := StatsCut(b, text), |b.first| + |text|;
    GateParts(b, s);
    OnceAt(s, b.first, 0);
    OnceAt(s, b.diagram, d);
    OnceAt(s, b.stats, d + |b.diagram| - 2);
    EndsInStats(b, s, d + |b.diagram| - 2);
    NotLost(b, s);
  }

  /** The run stats never land: their placeholder has lost its first fence. The
      passes are the simultaneous scan all the same. */
  lemma {:induction false} StatsCutResult(b: Blocks, text: string)
    requires Sound(b) && Fences(b) && Gap(text)
    ensures |b.stats| >= 2 && Passes(b, StatsCut(b, text)) == b.section + (text + (b.image + b.stats[2..]))
    ensures Passes(b, StatsCut(b, text)) == Scan(b, StatsCut(b, text)) && !AllLand(b, StatsCut(b, text))
  {
    hide *;
    StatsCutGate(b, text);
    GatedPassesAreScan(b, StatsCut(b, text));
    StatsCutText(b, text);
    StatsCutLost(b, text);
  }

  lemma {:induction false} StatsCutLost(b: Blocks, text: string)
    requires Sound(b) && Fences(b) && Gap(text)
    ensures !AllLand(b, StatsCut(b, text))
  {
    hide *;
    StatsCutGate(b, text);
    StatsCutOnce(b, text);
    FenceSizes(b);
    var s := StatsCut(b, text);
    GateFacts(b, s);
    if AllLand(b, s) {
      PlacesApart(b, s);
      LandBoth(b, s);
      NotApart(|b.first| + |text| + |b.diagram| - 2, |b.stats|, |b.first| + |text|, |b.diagram|);
    }
  }

  lemma {:induction false} NotApart(i: nat, m: nat, k: nat, n: nat)
    requires k < i + m && i < k + n
    ensures !Apart(i, m, k, n)
  {
  }

  lemma {:induction false} StatsCutText(b: Blocks, text: string)
    requires Sound(b) && Fences(b) && Gap(text)
    ensures |b.stats| >= 2 && Shaped(b) && Passes(b, StatsCut(b, text)) == b.section + (text + (b.image + b.stats[2..]))
  {
    FenceSizes(b);
    GapIsText(text);
    var rest := b.stats[2..];
    NoneInTail(b, b.diagram, rest);
    NoneFits(b, rest);
    NothingToPass(b);
    hide AllSlot, Passes, Fences, Sound, Shaped, Gap, Occurs;
    FencesShaped(b);
    FirstAtFront(b, text + (b.diagram + rest));
    TextAtFront(b, text, b.diagram + rest);
    DiagramAtFront(b, rest);
    assert rest + "" == rest;
    PassesSkip(b, rest, "");
  }

  lemma {:induction false} NoneInTail(b: Blocks, p: string, rest: string)
    requires Fences(b) && p == b.diagram && |rest| < |b.stats| && |b.stats| >= 4
    ensures !StartsInside(p + rest, b.first, |p|)
  {
    PrefixOccurs(p + rest, p);
    hide AllSlot;
    forall j | 0 < j < |p| ensures !Occurs(p + rest, b.first, j) {
      if Occurs(p + rest, b.first, j) { OverlapBound(p + rest, p, 0, b.first, j); }
    }
  }

  lemma {:induction false} NoneFits(b: Blocks, rest: string)
    requires Fences(b) && |rest| < |b.stats|
    ensures forall p, i :: IsSlotText(b, p) && Occurs(rest + "", p, i) ==> i >= |rest|
  {
    hide AllSlot, Fenced, IsPlaceholder;
  }

  /** The two other placeholders with their blocks, exchanged. */
  function Swapped(b: Blocks): Blocks { Blocks(b.diagram, b.image, b.first, b.section, b.stats, b.about) }

  lemma {:induction false} SwappedFences(b: Blocks, s: string)
    requires Fences(b)
    ensures Fences(Swapped(b)) && (GatePasses(Swapped(b), s) <==> GatePasses(b, s))
  {
    hide Fenced, AllSlot, Matches, TrimEnd;
  }

  /** The first placeholder runs into the diagram one: the image never lands,
      although the passes are the simultaneous scan. */
  function ImageCut(b: Blocks, text: string): string
    requires Fences(b)
  {
    b.first + (b.diagram[2..] + (text + b.stats))
  }

  lemma {:induction false} ImageCutIs(b: Blocks, text: string)
    requires Fences(b) && Gap(text)
    ensures Fences(Swapped(b)) && ImageCut(b, text) == Overlapping(Swapped(b), text)
  {
    SwappedFences(b, "");
    hide AllSlot, Gap;
    var n := |b.first| - 2;
    var cut, fence := b.first[..n], b.first[n..];
    assert b.first == cut + fence && b.diagram == fence + b.diagram[2..];
    OverlapRegroups(cut, fence, b.diagram[2..], text, b.stats);
  }

  lemma {:induction false} ImageCutOnce(b: Blocks, text: string)
    requires Fences(b) && Gap(text)
    ensures forall i :: Occurs(ImageCut(b, text), b.first, i) ==> i == 0
    ensures forall i :: Occurs(ImageCut(b, text), b.diagram, i) ==> i == |b.first| - 2
    ensures forall i :: Occurs(ImageCut(b, text), b.stats, i) ==> i == |b.first| - 2 + |b.diagram| + |text|
  {
    ImageCutIs(b, text);
    OverlapOnce(Swapped(b), text);
    hide Overlapping, ImageCut, Fences, Occurs;
  }

  lemma {:induction false} ImageCutGate(b: Blocks, text: string)
    requires Fences(b) && Gap(text)
    ensures GatePasses(b, ImageCut(b, text)) && !DiagramLost(b, ImageCut(b, text))
  {
    hide *;
    ImageCutIs(b, text);
    OverlapPasses(Swapped(b), text);
    SwappedFences(b, ImageCut(b, text));
    ImageCutOnce(b, text);
    FencesShaped(b);
    FenceSizes(b);
    NotLost(b, ImageCut(b, text));
  }

  lemma {:induction false} ImageCutResult(b: Blocks, text: string)
    requires Sound(b) && Fences(b) && Gap(text)
    ensures |b.diagram| >= 2 && Passes(b, ImageCut(b, text)) == b.section + (b.diagram[2..] + (text + b.about))
    ensures Passes(b, ImageCut(b, text)) == Scan(b, ImageCut(b, text)) && !AllLand(b, ImageCut(b, text))
  {
    hide *;
    ImageCutGate(b, text);
    GatedPassesAreScan(b, ImageCut(b, text));
    ImageCutText(b, text);
    ImageCutLost(b, text);
  }

  lemma {:induction false} ImageCutLost(b: Blocks, text: string)
    requires Sound(b) && Fences(b) && Gap(text)
    ensures !AllLand(b, ImageCut(b, text))
  {
    hide *;
    ImageCutGate(b, text);
    ImageCutOnce(b, text);
    FenceSizes(b);
    var s := ImageCut(b, text);
    GateFacts(b, s);
    if AllLand(b, s) {
      PlacesApart(b, s);
      LandBoth(b, s);
      NotApart(|b.first| - 2, |b.diagram|, 0, |b.first|);
    }
  }

  lemma {:induction false} ImageCutText(b: Blocks, text: string)
    requires Sound(b) && Fences(b) && Gap(text)
    ensures |b.diagram| >= 2 && Shaped(b) && Passes(b, ImageCut(b, text)) == b.section + (b.diagram[2..] + (text + b.about))
  {
    FenceSizes(b);
    GapIsText(text);
    ImageCutOnce(b, text);
    FencesShaped(b);
    var s, cut, tail := ImageCut(b, text), b.diagram[2..], text + b.stats;
    assert s[|b.first|..] == cut + tail;
    forall p, i | IsSlotText(b, p) && Occurs(cut + tail, p, i) ensures i >= |cut| {
      OccursInBounds(cut + tail, p, i);
      TailOccurs(s, p, |b.first|, i);
    }
    hide AllSlot, Passes, Fences, Sound, Shaped, Gap, Occurs, ImageCut;
    FirstAtFront(b, cut + tail);
    PassesSkip(b, cut, tail);
    TailPasses(b, text);
  }
}
