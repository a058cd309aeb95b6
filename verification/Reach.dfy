/** The call closure: which definitions the entry points reach, and by whom
    each was first called. */
module Reach {
  import opened Outcomes

  /** A definition: whether it is a test, and the keys its body calls. */
  datatype Def = Def(test: bool, callees: set<string>)

  /** Several definitions may share a key. */
  type Program = map<string, seq<Def>>

  function DefsOf(p: Program, key: string): seq<Def> { if key in p then p[key] else [] }

  function Taken(d: Def, tests: bool): set<string> { if d.test && !tests then {} else d.callees }

  ghost predicate Calls(p: Program, tests: bool, key: string, callee: string) {
    exists i :: 0 <= i < |DefsOf(p, key)| && callee in Taken(DefsOf(p, key)[i], tests)
  }

  ghost predicate Closed(p: Program, tests: bool, keys: set<string>) {
    forall k, c :: k in keys && Calls(p, tests, k, c) ==> c in keys
  }

  /** The least set with the entries that is closed under calls. */
  ghost predicate Least(p: Program, tests: bool, entries: set<string>, keys: set<string>) {
    entries <= keys && Closed(p, tests, keys)
    && forall other: set<string> :: entries <= other && Closed(p, tests, other) ==> keys <= other
  }

  lemma {:induction false} LeastIsUnique(p: Program, tests: bool, entries: set<string>, a: set<string>, b: set<string>)
    requires Least(p, tests, entries, a) && Least(p, tests, entries, b)
    ensures a == b
  {
    hide Closed;
  }

  /** Parents lead along calls to lower ranks, and only entries have none. */
  ghost predicate Tree(p: Program, tests: bool, entries: set<string>, seen: set<string>, parent: map<string, Option<string>>,
                       rank: map<string, nat>)
  {
    parent.Keys == seen && rank.Keys == seen && entries <= seen
    && forall k :: k in seen ==>
      match parent[k]
      case None => k in entries
      case Some(via) => via in seen && Calls(p, tests, via, k) && rank[via] < rank[k]
  }

  function KeySet(entries: seq<string>): set<string> { set e | e in entries }

  function Roots(entries: seq<string>): map<string, Option<string>> { map e | e in entries :: None }

  /** Everything an entry or a body names. */
  function Universe(p: Program, entries: seq<string>): set<string> {
    KeySet(entries) + set k, i, c | k in p && 0 <= i < |p[k]| && c in p[k][i].callees :: c
  }

  lemma {:induction false} CalleesInUniverse(p: Program, entries: seq<string>, key: string, i: nat)
    requires i < |DefsOf(p, key)|
    ensures DefsOf(p, key)[i].callees <= Universe(p, entries)
  {
  }

  /** Being among the keys that every closed superset of the entries has. */
  ghost predicate Forced(p: Program, tests: bool, entries: set<string>, keys: set<string>) {
    forall other: set<string> :: entries <= other && Closed(p, tests, other) ==> keys <= other
  }

  lemma {:induction false} ForcedGrows(p: Program, tests: bool, entries: set<string>, keys: set<string>, via: string, c: string)
    requires Forced(p, tests, entries, keys) && via in keys && Calls(p, tests, via, c)
    ensures Forced(p, tests, entries, keys + {c})
  {
    hide Calls;
  }

  lemma {:induction false} TreeGrows(p: Program, tests: bool, entries: set<string>, seen: set<string>,
                                     parent: map<string, Option<string>>, rank: map<string, nat>, via: string, c: string)
    requires Tree(p, tests, entries, seen, parent, rank) && via in seen && c !in seen && Calls(p, tests, via, c)
    ensures Tree(p, tests, entries, seen + {c}, parent[c := Some(via)], rank[c := rank[via] + 1])
  {
    hide Calls;
  }

  /** Every seen key is queued or its calls are seen. */
  ghost predicate Worked(p: Program, tests: bool, seen: set<string>, queue: seq<string>) {
    forall k, c :: k in seen && k !in queue && Calls(p, tests, k, c) ==> c in seen
  }

  /** The calls of one definition: each new callee is marked, gets its parent
      and is queued. */
  method TakeCalls(p: Program, tests: bool, ghost entries: set<string>, key: string, i: nat, seen: set<string>, queue: seq<string>,
                   parent: map<string, Option<string>>, ghost rank: map<string, nat>)
      returns (seen': set<string>, queue': seq<string>, parent': map<string, Option<string>>, ghost rank': map<string, nat>)
    requires i < |DefsOf(p, key)| && key in seen && Tree(p, tests, entries, seen, parent, rank) && Forced(p, tests, entries, seen)
    ensures Tree(p, tests, entries, seen', parent', rank') && Forced(p, tests, entries, seen')
    ensures seen + Taken(DefsOf(p, key)[i], tests) == seen' && seen <= seen' && queue <= queue'
    ensures (forall k :: k in seen' ==> k in seen || k in queue') && forall k :: k in queue' ==> k in queue || k in seen'
    ensures seen' == seen ==> queue' == queue
  {
    seen', queue', parent', rank' := seen, queue, parent, rank;
    var d := DefsOf(p, key)[i];
    if d.test && !tests { return; }
    var rest := d.callees;
    hide Tree, Forced, Calls;
    while rest != {}
      invariant rest <= d.callees && key in seen' && seen' + rest == seen + d.callees && seen <= seen' && queue <= queue'
      invariant Tree(p, tests, entries, seen', parent', rank') && Forced(p, tests, entries, seen')
      invariant (forall k :: k in seen' ==> k in seen || k in queue') && forall k :: k in queue' ==> k in queue || k in seen'
      invariant seen' == seen ==> queue' == queue
      decreases rest
    {
      var c :| c in rest;
      if c !in seen' {
        CallOf(p, tests, key, i, c);
        assert key in rank' by { RankedSeen(p, tests, entries, seen', parent', rank'); }
        TreeGrows(p, tests, entries, seen', parent', rank', key, c);
        ForcedGrows(p, tests, entries, seen', key, c);
        parent' := parent'[c := Some(key)];
        rank' := rank'[c := rank'[key] + 1];
        seen' := seen' + {c};
        queue' := queue' + [c];
      }
      rest := rest - {c};
    }
  }

  lemma {:induction false} CallOf(p: Program, tests: bool, key: string, i: nat, c: string)
    requires i < |DefsOf(p, key)| && c in Taken(DefsOf(p, key)[i], tests)
    ensures Calls(p, tests, key, c)
  {
  }

  lemma {:induction false} RankedSeen(p: Program, tests: bool, entries: set<string>, seen: set<string>,
                                      parent: map<string, Option<string>>, rank: map<string, nat>)
    requires Tree(p, tests, entries, seen, parent, rank)
    ensures rank.Keys == seen
  {
    hide Calls;
  }

  lemma {:induction false} StartFacts(p: Program, tests: bool, entries: seq<string>)
    ensures var seen := KeySet(entries);
      Tree(p, tests, seen, seen, Roots(entries), map e | e in entries :: 0) && Forced(p, tests, seen, seen)
      && Worked(p, tests, seen, entries)
  {
    hide Calls, Closed;
  }

  /** The worklist: keys are taken from the end of the queue. It ends with
      exactly the least set that holds the entries and is closed under the calls
      of the definitions that count, and with a tree of first callers. */
  method Derive(p: Program, tests: bool, entries: seq<string>)
      returns (seen: set<string>, parent: map<string, Option<string>>, ghost rank: map<string, nat>)
    ensures Least(p, tests, KeySet(entries), seen)
    ensures Tree(p, tests, KeySet(entries), seen, parent, rank)
  {
    hide Tree, Forced, Calls, Worked, Closed;
    StartFacts(p, tests, entries);
    ghost var start := KeySet(entries);
    seen := KeySet(entries);
    parent := Roots(entries);
    rank := map e | e in entries :: 0;
    var queue := entries;
    while queue != []
      invariant start <= seen <= Universe(p, entries) && (forall k :: k in queue ==> k in seen)
      invariant Tree(p, tests, start, seen, parent, rank) && Forced(p, tests, start, seen) && Worked(p, tests, seen, queue)
      decreases Universe(p, entries) - seen, |queue|
    {
      var key := queue[|queue| - 1];
      ghost var before, waiting := seen, queue;
      queue := queue[..|queue| - 1];
      var defs := DefsOf(p, key);
      var i := 0;
      while i < |defs|
        invariant 0 <= i <= |defs| && key in seen && before <= seen <= Universe(p, entries)
        invariant waiting[..|waiting| - 1] <= queue && (seen == before ==> queue == waiting[..|waiting| - 1])
        invariant (forall k :: k in seen ==> k in before || k in queue) && forall k :: k in queue ==> k in seen
        invariant Tree(p, tests, start, seen, parent, rank) && Forced(p, tests, start, seen)
        invariant forall j :: 0 <= j < i ==> Taken(defs[j], tests) <= seen
      {
        CalleesInUniverse(p, entries, key, i);
        seen, queue, parent, rank := TakeCalls(p, tests, start, key, i, seen, queue, parent, rank);
        i := i + 1;
      }
      StillWorked(p, tests, before, waiting, key, seen, queue);
    }
    AllWorked(p, tests, seen);
    assert Closed(p, tests, seen);
    LeastFound(p, tests, start, seen);
  }

  lemma {:induction false} StillWorked(p: Program, tests: bool, before: set<string>, waiting: seq<string>, key: string,
                                       seen: set<string>, queue: seq<string>)
    requires Worked(p, tests, before, waiting) && waiting != [] && waiting[|waiting| - 1] == key
    requires before <= seen && waiting[..|waiting| - 1] <= queue && forall k :: k in seen ==> k in before || k in queue
    requires forall j :: 0 <= j < |DefsOf(p, key)| ==> Taken(DefsOf(p, key)[j], tests) <= seen
    ensures Worked(p, tests, seen, queue)
  {
    var n := |waiting| - 1;
    forall k | k in waiting && k != key ensures k in queue {
      var m :| 0 <= m < |waiting| && waiting[m] == k;
      assert queue[m] == waiting[..n][m];
    }
    hide DefsOf;
    forall k, c | k in seen && k !in queue && Calls(p, tests, k, c) ensures c in seen { }
  }

  lemma {:induction false} AllWorked(p: Program, tests: bool, seen: set<string>)
    requires Worked(p, tests, seen, [])
    ensures Closed(p, tests, seen)
  {
    hide Calls;
  }

  lemma {:induction false} LeastFound(p: Program, tests: bool, entries: set<string>, seen: set<string>)
    requires entries <= seen && Closed(p, tests, seen) && Forced(p, tests, entries, seen)
    ensures Least(p, tests, entries, seen)
  {
    hide Closed;
  }

  // ---- following the parents ----

  /** The chain from a key to the entry it was reached from. */
  function Chain(p: Program, tests: bool, entries: set<string>, seen: set<string>, parent: map<string, Option<string>>,
                 rank: map<string, nat>, key: string): (chain: seq<string>)
    requires Tree(p, tests, entries, seen, parent, rank) && key in seen
    ensures 1 <= |chain| <= rank[key] + 1 && chain[|chain| - 1] == key && chain[0] in entries
    ensures forall i :: 0 <= i < |chain| ==> chain[i] in seen
    ensures forall i :: 0 <= i < |chain| - 1 ==> Calls(p, tests, chain[i], chain[i + 1]) && rank[chain[i]] < rank[chain[i + 1]]
    decreases rank[key]
  {
    match parent[key]
    case None => [key]
    case Some(via) => Chain(p, tests, entries, seen, parent, rank, via) + [key]
  }

  /** No key appears twice on a chain. */
  lemma {:induction false} ChainIsAcyclic(p: Program, tests: bool, entries: set<string>, seen: set<string>,
                                          parent: map<string, Option<string>>, rank: map<string, nat>, key: string, i: nat, j: nat)
    requires Tree(p, tests, entries, seen, parent, rank) && key in seen
    requires i < j < |Chain(p, tests, entries, seen, parent, rank, key)|
    ensures var chain := Chain(p, tests, entries, seen, parent, rank, key); rank[chain[i]] < rank[chain[j]] && chain[i] != chain[j]
    decreases j - i
  {
    hide Tree, Calls;
    RankedSeen(p, tests, entries, seen, parent, rank);
    if i + 1 < j { ChainIsAcyclic(p, tests, entries, seen, parent, rank, key, i + 1, j); }
  }

  lemma {:induction false} ChainStep(p: Program, tests: bool, entries: set<string>, seen: set<string>,
                                     parent: map<string, Option<string>>, rank: map<string, nat>, key: string)
    requires Tree(p, tests, entries, seen, parent, rank) && key in seen
    ensures key in parent && (parent[key].Some? ==> parent[key].value in seen)
    ensures Chain(p, tests, entries, seen, parent, rank, key) ==
      if parent[key].None? then [key] else Chain(p, tests, entries, seen, parent, rank, parent[key].value) + [key]
  {
    hide Calls;
  }

  /** The reported path stops after forty keys; shorter chains are reported in full. */
  method PathTo(p: Program, tests: bool, ghost entries: set<string>, ghost seen: set<string>, parent: map<string, Option<string>>,
                ghost rank: map<string, nat>, key: string) returns (path: seq<string>)
    requires Tree(p, tests, entries, seen, parent, rank) && key in seen
    ensures var chain := Chain(p, tests, entries, seen, parent, rank, key);
      path == if |chain| <= 40 then chain else chain[|chain| - 40..]
  {
    hide Calls, Tree, Chain;
    ghost var chain := Chain(p, tests, entries, seen, parent, rank, key);
    var current := Some(key);
    var guard := 0;
    path := [];
    assert chain == chain + path;
    while current.Some? && guard < 40
      invariant 0 <= guard <= 40 && |path| == guard
      invariant current.Some? ==> current.value in seen && chain == Chain(p, tests, entries, seen, parent, rank, current.value) + path
      invariant current.None? ==> chain == path
      decreases 40 - guard
    {
      ChainStep(p, tests, entries, seen, parent, rank, current.value);
      path := [current.value] + path;
      current := parent[current.value];
      guard := guard + 1;
    }
    if current.Some? { ChainSplit(Chain(p, tests, entries, seen, parent, rank, current.value), path); }
  }

  lemma {:induction false} ChainSplit(front: seq<string>, path: seq<string>)
    requires |path| == 40 && |front| >= 1
    ensures (front + path)[|front + path| - 40..] == path
  {
  }
}
