/** The prompt queue between the caller and the provider: values wait for
    readers, or readers for values. */
module ClaudePrompts {
  import opened Outcomes

  /** A snapshot: buffered values, the tickets of parked readers, whether the
      queue is closed, how many reads were asked for, and what each settled
      read got (nothing stands for the end of the stream). */
  datatype Queue<T> = Queue(values: seq<T>, waiters: seq<nat>, closed: bool, asked: nat, settled: map<nat, Option<T>>)

  function Empty<T>(): Queue<T> { Queue([], [], false, 0, map[]) }

  /** A push on a closed queue is refused and changes nothing. */
  function Pushed<T>(q: Queue<T>, value: T): Queue<T> {
    if q.closed then q
    else if q.waiters != [] then q.(waiters := q.waiters[1..], settled := q.settled[q.waiters[0] := Some(value)])
    else q.(values := q.values + [value])
  }

  function Ended<T>(settled: map<nat, Option<T>>, waiters: seq<nat>): map<nat, Option<T>>
    decreases |waiters|
  {
    if waiters == [] then settled else Ended(settled[waiters[0] := None], waiters[1..])
  }

  function Closed<T>(q: Queue<T>): Queue<T> {
    if q.closed then q else q.(closed := true, waiters := [], settled := Ended(q.settled, q.waiters))
  }

  function Read<T>(q: Queue<T>): Queue<T> {
    var t := q.(asked := q.asked + 1);
    if q.values != [] then t.(values := q.values[1..], settled := q.settled[q.asked := Some(q.values[0])])
    else if q.closed then t.(settled := q.settled[q.asked := None])
    else t.(waiters := q.waiters + [q.asked])
  }

  // ---- the code ----

  class PromptQueue<T> {
    var values: seq<T>
    var waiters: seq<nat>
    var closed: bool
    var asked: nat
    var settled: map<nat, Option<T>>

    constructor ()
      ensures State() == Empty()
    {
      values, waiters, closed, asked, settled := [], [], false, 0, map[];
    }

    function State(): Queue<T> reads this { Queue(values, waiters, closed, asked, settled) }

    method Push(value: T) returns (accepted: bool)
      modifies this
      ensures accepted == !old(closed) && State() == Pushed(old(State()), value)
    {
      if closed { return false; }
      if waiters != [] {
        var waiter := waiters[0];
        waiters := waiters[1..];
        settled := settled[waiter := Some(value)];
      } else {
        values := values + [value];
      }
      accepted := true;
    }

    method Close()
      modifies this
      ensures State() == Closed(old(State()))
    {
      if closed { return; }
      closed := true;
      var parked := waiters;
      waiters := [];
      var i := 0;
      assert parked[0..] == parked;
      while i < |parked|
        invariant 0 <= i <= |parked| && closed && waiters == [] && values == old(values) && asked == old(asked)
        invariant Ended(settled, parked[i..]) == Ended(old(settled), parked)
      {
        assert parked[i..][1..] == parked[i + 1..];
        settled := settled[parked[i] := None];
        i := i + 1;
      }
    }

    /** The ticket of the read; it is settled at once, or its reader parks. */
    method Next() returns (ticket: nat)
      modifies this
      ensures ticket == old(asked) && State() == Read(old(State()))
    {
      ticket := asked;
      asked := asked + 1;
      if values != [] {
        var value := values[0];
        values := values[1..];
        settled := settled[ticket := Some(value)];
      } else if closed {
        settled := settled[ticket := None];
      } else {
        waiters := waiters + [ticket];
      }
    }
  }

  // ---- every interleaving ----

  datatype Op<T> = DoPush(value: T) | DoNext | DoClose

  function Apply<T>(q: Queue<T>, op: Op<T>): Queue<T> {
    match op
    case DoPush(value) => Pushed(q, value)
    case DoNext => Read(q)
    case DoClose => Closed(q)
  }

  function RunAll<T>(ops: seq<Op<T>>): Queue<T> {
    if ops == [] then Empty() else Apply(RunAll(ops[..|ops| - 1]), ops[|ops| - 1])
  }

  predicate WasClosed<T>(ops: seq<Op<T>>) { exists i :: 0 <= i < |ops| && ops[i].DoClose? }

  /** The values pushed before the first close, in order. */
  function Accepted<T>(ops: seq<Op<T>>): seq<T> {
    if ops == [] then []
    else
      var front := ops[..|ops| - 1];
      var last := ops[|ops| - 1];
      Accepted(front) + if last.DoPush? && !WasClosed(front) then [last.value] else []
  }

  function Reads<T>(ops: seq<Op<T>>): nat {
    if ops == [] then 0 else Reads(ops[..|ops| - 1]) + if ops[|ops| - 1].DoNext? then 1 else 0
  }

  /** The queue as a function of what was accepted and asked: read `k` gets the
      `k`-th accepted value, or the end once the queue is closed and drained. */
  ghost predicate Ideal<T>(q: Queue<T>, accepted: seq<T>, asked: nat, closed: bool) {
    q.asked == asked && q.closed == closed
    && q.values == (if asked < |accepted| then accepted[asked..] else [])
    && |q.waiters| == (if closed || asked <= |accepted| then 0 else asked - |accepted|)
    && (forall i :: 0 <= i < |q.waiters| ==> q.waiters[i] == |accepted| + i)
    && (forall k :: k in q.settled <==> 0 <= k < asked && (k < |accepted| || closed))
    && forall k :: k in q.settled ==> q.settled[k] == if k < |accepted| then Some(accepted[k]) else None
  }

  lemma {:induction false} EndedShape<T>(settled: map<nat, Option<T>>, waiters: seq<nat>)
    ensures forall k :: k in Ended(settled, waiters) <==> k in settled || k in waiters
    ensures forall k :: k in Ended(settled, waiters) ==>
      if k in waiters then Ended(settled, waiters)[k] == None else Ended(settled, waiters)[k] == settled[k]
    decreases |waiters|
  {
    if waiters != [] {
      EndedShape(settled[waiters[0] := None], waiters[1..]);
      assert waiters == [waiters[0]] + waiters[1..];
    }
  }

  lemma {:induction false} PushIdeal<T>(q: Queue<T>, accepted: seq<T>, asked: nat, closed: bool, value: T)
    requires Ideal(q, accepted, asked, closed)
    ensures Ideal(Pushed(q, value), if closed then accepted else accepted + [value], asked, closed)
  {
  }

  lemma {:induction false} ReadIdeal<T>(q: Queue<T>, accepted: seq<T>, asked: nat, closed: bool)
    requires Ideal(q, accepted, asked, closed)
    ensures Ideal(Read(q), accepted, asked + 1, closed)
  {
  }

  lemma {:induction false} CloseIdeal<T>(q: Queue<T>, accepted: seq<T>, asked: nat, closed: bool)
    requires Ideal(q, accepted, asked, closed)
    ensures Ideal(Closed(q), accepted, asked, true)
  {
    EndedShape(q.settled, q.waiters);
    if !closed {
      forall k ensures k in q.waiters <==> |accepted| <= k < asked {
        if |accepted| <= k < asked { assert q.waiters[k - |accepted|] == k; }
      }
    }
  }

  /** In every interleaving of pushes, reads and closes the queue is the ideal one. */
  lemma {:induction false} RunIsIdeal<T>(ops: seq<Op<T>>)
    ensures Ideal(RunAll(ops), Accepted(ops), Reads(ops), WasClosed(ops))
  {
    hide Ideal;
    if ops == [] {
      EmptyIdeal<T>();
    } else {
      var n := |ops| - 1;
      var front := ops[..n];
      var q := RunAll(front);
      RunIsIdeal(front);
      ClosedSoFar(ops);
      match ops[n] {
        case DoPush(value) =>
          PushIdeal(q, Accepted(front), Reads(front), WasClosed(front), value);
          assert Accepted(front) + [] == Accepted(front);
        case DoNext =>
          ReadIdeal(q, Accepted(front), Reads(front), WasClosed(front));
          assert Accepted(front) + [] == Accepted(front);
        case DoClose =>
          CloseIdeal(q, Accepted(front), Reads(front), WasClosed(front));
          assert Accepted(front) + [] == Accepted(front);
      }
    }
  }

  lemma {:induction false} EmptyIdeal<T>()
    ensures Ideal(Empty<T>(), [], 0, false)
  {
  }

  lemma {:induction false} ClosedSoFar<T>(ops: seq<Op<T>>)
    requires ops != []
    ensures WasClosed(ops) <==> WasClosed(ops[..|ops| - 1]) || ops[|ops| - 1].DoClose?
  {
    var n := |ops| - 1;
    if WasClosed(ops[..n]) {
      var i :| 0 <= i < n && ops[..n][i].DoClose?;
      assert ops[i].DoClose?;
    }
    if WasClosed(ops) && !ops[n].DoClose? {
      var i :| 0 <= i < |ops| && ops[i].DoClose?;
      assert ops[..n][i].DoClose?;
    }
  }

  /** Values and waiters never stand at the same time; a read once settled
      keeps its result; after a close the buffered values come first and in
      order, and only then the end. */
  lemma {:induction false} SettledOnce<T>(ops: seq<Op<T>>, more: seq<Op<T>>)
    ensures RunAll(ops).values == [] || RunAll(ops).waiters == []
    ensures forall k :: k in RunAll(ops).settled ==>
      k in RunAll(ops + more).settled && RunAll(ops + more).settled[k] == RunAll(ops).settled[k]
    ensures forall k :: k in RunAll(ops).settled ==>
      RunAll(ops).settled[k] == if k < |Accepted(ops)| then Some(Accepted(ops)[k]) else None
  {
    RunIsIdeal(ops);
    RunIsIdeal(ops + more);
    MoreOps(ops, more);
    hide RunAll, Accepted, Reads, WasClosed;
  }

  lemma {:induction false} MoreOps<T>(ops: seq<Op<T>>, more: seq<Op<T>>)
    ensures Accepted(ops) <= Accepted(ops + more) && Reads(ops) <= Reads(ops + more)
    ensures WasClosed(ops) ==> WasClosed(ops + more) && Accepted(ops + more) == Accepted(ops)
  {
    if more == [] {
      assert ops + more == ops;
    } else {
      var n := |more| - 1;
      var all := ops + more;
      assert all[..|all| - 1] == ops + more[..n];
      MoreOps(ops, more[..n]);
      ClosedSoFar(all);
    }
  }

  // ---- through the object ----

  /** The object, driven by any sequence of pushes, reads and closes, is the
      ideal queue. */
  method Drive<T>(ops: seq<Op<T>>) returns (queue: PromptQueue<T>)
    ensures fresh(queue) && queue.State() == RunAll(ops)
    ensures Ideal(queue.State(), Accepted(ops), Reads(ops), WasClosed(ops))
  {
    hide Ideal, Pushed, Read, Closed;
    queue := new PromptQueue<T>();
    var i := 0;
    assert ops[..0] == [];
    while i < |ops|
      invariant 0 <= i <= |ops| && fresh(queue) && queue.State() == RunAll(ops[..i])
    {
      assert ops[..i + 1][..i] == ops[..i];
      match ops[i] {
        case DoPush(value) => var accepted := queue.Push(value);
        case DoNext => var ticket := queue.Next();
        case DoClose => queue.Close();
      }
      i := i + 1;
    }
    assert ops[..i] == ops;
    RunIsIdeal(ops);
  }
}
