/** The dispatcher's queue of scheduled events (send_queue.go): a heap ordered by timestamp and
    then node id, whose events can be disabled in place when their node is deleted. */
module SendQueue {
  import opened Heap
  import opened SimTypes

  /** The queue with the events of one node made anonymous, at their old positions. */
  function Disabled<T>(q: seq<Entry<T>>, nodeid: int): (r: seq<Entry<T>>)
    ensures |r| == |q|
  {
    seq(|q|, i requires 0 <= i < |q| =>
      if q[i].nodeId == nodeid then q[i].(nodeId := INVALID_NODE_ID) else q[i])
  }

  class Queue<T> {
    var q: seq<Entry<T>>

    /** The queue is a heap by timestamp at all times. */
    ghost predicate Valid() reads this {
      IsHeap(q, |q|, false)
    }

    /** It is a heap by timestamp and node id as long as nothing disturbed the node ids. */
    ghost predicate TiesOrdered() reads this {
      IsHeap(q, |q|, true)
    }

    constructor ()
      ensures q == [] && Valid() && TiesOrdered()
    {
      q := [];
    }

    method Up(start: nat)
      requires start < |q|
      modifies this
      ensures q == Heap.Up(old(q), start, true)
    {
      var j: nat := start;
      while j > 0 && Less(q[j], q[(j - 1) / 2], true)
        invariant j < |q|
        invariant Heap.Up(q, j, true) == Heap.Up(old(q), start, true)
        decreases j
      {
        var i := (j - 1) / 2;
        q := q[i := q[j]][j := q[i]];
        j := i;
      }
    }

    method Down(start: nat, n: nat)
      requires start <= n <= |q|
      modifies this
      ensures q == Heap.Down(old(q), start, n, true)
    {
      var i := start;
      while 2 * i + 1 < n
        invariant i <= n <= |q|
        invariant Heap.Down(q, i, n, true) == Heap.Down(old(q), start, n, true)
        decreases n - i
      {
        var j := 2 * i + 1;
        if j + 1 < n && Less(q[j + 1], q[j], true) {
          j := j + 1;
        }
        if !Less(q[j], q[i], true) {
          break;
        }
        q := q[i := q[j]][j := q[i]];
        i := j;
      }
    }

    method NextTimestamp() returns (t: nat)
      requires Valid()
      ensures q == [] ==> t == EVER
      ensures q != [] ==> exists e :: e in q && e.timestamp == t
      ensures forall e :: e in q ==> t <= e.timestamp
    {
      if |q| > 0 {
        t := q[0].timestamp;
        assert q[0] in q;
        forall k | 0 <= k < |q| ensures t <= q[k].timestamp {
          RootIsMinimum(q, k, false);
        }
      } else {
        t := EVER;
      }
    }

    method Add(evt: Entry<T>)
      requires Valid()
      modifies this
      ensures Valid() && (old(TiesOrdered()) ==> TiesOrdered())
      ensures q == Push(old(q), evt, true)
      ensures multiset(q) == old(multiset(q)) + multiset{evt}
    {
      PushKeepsHeap(q, evt, true, false);
      if TiesOrdered() {
        PushKeepsHeap(q, evt, true, true);
      }
      q := q + [evt];
      Up(|q| - 1);
    }

    /** Removes an event that no queued event precedes in time; it also has the lowest node
        id among those at its time if the ties are in order. */
    method PopNext() returns (evt: Entry<T>)
      requires Valid() && q != []
      modifies this
      ensures Valid() && (old(TiesOrdered()) ==> TiesOrdered())
      ensures q == Pop(old(q), true)
      ensures old(multiset(q)) == multiset(q) + multiset{evt}
      ensures forall e :: e in old(q) ==> evt.timestamp <= e.timestamp
      ensures old(TiesOrdered()) ==> forall e :: e in old(q) ==> !Less(e, evt, true)
    {
      ghost var q0 := q;
      PopKeepsHeap(q, true, false);
      if TiesOrdered() {
        PopKeepsHeap(q, true, true);
        forall k | 0 <= k < |q0| ensures !Less(q0[k], q0[0], true) {
          RootIsMinimum(q0, k, true);
        }
      }
      forall k | 0 <= k < |q0| ensures q0[0].timestamp <= q0[k].timestamp {
        RootIsMinimum(q0, k, false);
      }
      var n := |q| - 1;
      q := q[0 := q[n]][n := q[0]];
      DownPermutes(q, 0, n, true);
      Down(0, n);
      evt := q[n];
      assert evt == q[n..][0] == q0[0];
      q := q[..n];
    }

    method DisableEventsForNode(nodeid: int)
      requires Valid()
      modifies this
      ensures Valid() && q == Disabled(old(q), nodeid)
    {
      var i := 0;
      while i < |q|
        invariant 0 <= i <= |q| == |old(q)|
        invariant forall k :: 0 <= k < i ==> q[k] == Disabled(old(q), nodeid)[k]
        invariant forall k :: i <= k < |q| ==> q[k] == old(q)[k]
      {
        if q[i].nodeId == nodeid {
          q := q[i := q[i].(nodeId := INVALID_NODE_ID)];
        }
        i := i + 1;
      }
      assert q == Disabled(old(q), nodeid);
      DisablingKeepsTimeOrder(old(q), nodeid);
    }
  }

  // ---------- disabling in place ----------

  lemma DisablingKeepsTimeOrder<T>(q: seq<Entry<T>>, nodeid: int)
    requires IsHeap(q, |q|, false)
    ensures IsHeap(Disabled(q, nodeid), |q|, false)
  {
    forall k | 0 < k < |q| ensures Ordered(Disabled(q, nodeid), k, false) {
      assert Ordered(q, k, false);
    }
  }

  /** Disabling leaves the ties in order exactly when no disabled event lies directly below
      an event of the same time that belongs to another, still enabled node. */
  lemma DisablingKeepsTies<T>(q: seq<Entry<T>>, nodeid: int)
    requires IsHeap(q, |q|, true)
    requires forall e :: e in q ==> e.nodeId >= INVALID_NODE_ID
    ensures IsHeap(Disabled(q, nodeid), |q|, true) <==>
            forall k :: 0 < k < |q| && q[k].nodeId == nodeid && q[Parent(k)].timestamp == q[k].timestamp
              ==> q[Parent(k)].nodeId in {nodeid, INVALID_NODE_ID}
  {
    var r := Disabled(q, nodeid);
    forall k | 0 < k < |q|
      ensures Ordered(r, k, true) <==>
              (q[k].nodeId == nodeid && q[Parent(k)].timestamp == q[k].timestamp
               ==> q[Parent(k)].nodeId in {nodeid, INVALID_NODE_ID})
    {
      assert Ordered(q, k, true);
      assert q[Parent(k)] in q && q[k] in q;
    }
  }

  /** It can fail: with events of nodes 3 and 5 at time 1, deleting node 5 leaves node 3 at
      the root above an anonymous event that should now precede it. */
  lemma DisablingCanBreakTies<T>(x: T)
    ensures var q := Push(Push([], Entry(1, 3, x), true), Entry(1, 5, x), true);
            IsHeap(q, 2, true) && !IsHeap(Disabled(q, 5), 2, true)
            && Less(Disabled(q, 5)[1], Disabled(q, 5)[0], true)
  {
    var q := [Entry(1, 3, x), Entry(1, 5, x)];
    assert [Entry(1, 3, x)] + [Entry(1, 5, x)] == q;
    assert [] + [Entry(1, 3, x)] == [Entry(1, 3, x)];
    assert !Ordered(Disabled(q, 5), 1, true);
  }

  // ---------- whole runs ----------

  datatype Op<T> = Add(evt: Entry<T>) | PopNext | Disable(nodeid: int)

  function Exec<T>(q: seq<Entry<T>>, op: Op<T>): seq<Entry<T>>
    requires op.PopNext? ==> q != []
  {
    match op
    case Add(evt) => Push(q, evt, true)
    case PopNext => Pop(q, true)
    case Disable(nodeid) => Disabled(q, nodeid)
  }

  /** The states of a run: each follows from the one before by its operation. */
  ghost predicate IsRun<T>(states: seq<seq<Entry<T>>>, ops: seq<Op<T>>) {
    |states| == |ops| + 1 && states[0] == [] &&
    forall k :: 0 <= k < |ops| ==>
      (ops[k].PopNext? ==> states[k] != []) && states[k + 1] == Exec(states[k], ops[k])
  }

  /** In every run the root has the least timestamp, in spite of disabling; in a run without
      disabling the root is the least event by timestamp and node id. */
  lemma {:induction false} RunsStayOrdered<T>(states: seq<seq<Entry<T>>>, ops: seq<Op<T>>, k: nat)
    requires IsRun(states, ops) && k < |states|
    ensures IsHeap(states[k], |states[k]|, false)
    ensures (forall i :: 0 <= i < k ==> !ops[i].Disable?) ==> IsHeap(states[k], |states[k]|, true)
    ensures forall e :: e in states[k] ==> states[k][0].timestamp <= e.timestamp
    ensures (forall i :: 0 <= i < k ==> !ops[i].Disable?) ==>
              forall e :: e in states[k] ==> !Less(e, states[k][0], true)
  {
    var q := states[k];
    if k > 0 {
      RunsStayOrdered(states, ops, k - 1);
      StepStaysOrdered(states[k - 1], ops[k - 1], false);
      if forall i :: 0 <= i < k ==> !ops[i].Disable? {
        StepStaysOrdered(states[k - 1], ops[k - 1], true);
      }
    }
    forall j | 0 <= j < |q| ensures q[0].timestamp <= q[j].timestamp {
      RootIsMinimum(q, j, false);
    }
    if forall i :: 0 <= i < k ==> !ops[i].Disable? {
      forall j | 0 <= j < |q| ensures !Less(q[j], q[0], true) {
        RootIsMinimum(q, j, true);
      }
    }
  }

  lemma StepStaysOrdered<T>(q: seq<Entry<T>>, op: Op<T>, lex: bool)
    requires IsHeap(q, |q|, lex) && (op.PopNext? ==> q != [])
    requires lex ==> !op.Disable?
    ensures IsHeap(Exec(q, op), |Exec(q, op)|, lex)
  {
    match op
    case Add(evt) => PushKeepsHeap(q, evt, true, lex);
    case PopNext => PopKeepsHeap(q, true, lex);
    case Disable(nodeid) => DisablingKeepsTimeOrder(q, nodeid);
  }

  // ---------- conservation ----------

  /** Events without their node id: what disabling must not touch. */
  ghost function Anonymous<T>(q: seq<Entry<T>>): (r: seq<Entry<T>>)
    ensures |r| == |q|
  {
    seq(|q|, i requires 0 <= i < |q| => q[i].(nodeId := INVALID_NODE_ID))
  }

  ghost function AddedBag<T>(ops: seq<Op<T>>): multiset<Entry<T>> {
    if ops == [] then multiset{}
    else AddedBag(ops[..|ops| - 1]) + match ops[|ops| - 1]
                                      case Add(evt) => multiset(Anonymous([evt]))
                                      case _ => multiset{}
  }

  ghost function PoppedBag<T>(states: seq<seq<Entry<T>>>, ops: seq<Op<T>>): multiset<Entry<T>>
    requires |states| == |ops| + 1
    requires forall k :: 0 <= k < |ops| && ops[k].PopNext? ==> states[k] != []
    decreases |ops|
  {
    if ops == [] then multiset{}
    else
      var n := |ops| - 1;
      assert forall k :: 0 <= k < n && ops[..n][k].PopNext? ==> states[..|ops|][k] != [];
      PoppedBag(states[..|ops|], ops[..n])
      + if ops[n].PopNext? then multiset(Anonymous([states[n][0]])) else multiset{}
  }

  /** Over every run, disabling included, what was added is what was popped and what is left. */
  lemma {:induction false} RunsConserveEvents<T>(states: seq<seq<Entry<T>>>, ops: seq<Op<T>>)
    requires IsRun(states, ops)
    ensures AddedBag(ops) == PoppedBag(states, ops) + multiset(Anonymous(states[|ops|]))
    decreases |ops|
  {
    hide Exec, IsHeap, Less;
    if ops == [] {
      assert Anonymous(states[0]) == [];
    } else {
      var n := |ops| - 1;
      assert IsRun(states[..|ops|], ops[..n]);
      RunsConserveEvents(states[..|ops|], ops[..n]);
      RunsStayOrdered(states, ops, n);
      StepConserves(states[n], ops[n]);
    }
  }

  lemma StepConserves<T>(q: seq<Entry<T>>, op: Op<T>)
    requires IsHeap(q, |q|, false) && (op.PopNext? ==> q != [])
    ensures op.Add? ==> multiset(Anonymous(Exec(q, op))) == multiset(Anonymous(q)) + multiset(Anonymous([op.evt]))
    ensures op.PopNext? ==> multiset(Anonymous(q)) == multiset(Anonymous(Exec(q, op))) + multiset(Anonymous([q[0]]))
    ensures op.Disable? ==> multiset(Anonymous(Exec(q, op))) == multiset(Anonymous(q))
  {
    match op {
      case Add(evt) =>
        PushKeepsHeap(q, evt, true, false);
        assert Anonymous(q + [evt]) == Anonymous(q) + Anonymous([evt]);
        AnonymousBag(Exec(q, op), q + [evt]);
      case PopNext =>
        PopKeepsHeap(q, true, false);
        assert Anonymous(Exec(q, op) + [q[0]]) == Anonymous(Exec(q, op)) + Anonymous([q[0]]);
        AnonymousBag(q, Exec(q, op) + [q[0]]);
      case Disable(nodeid) =>
        assert Anonymous(Exec(q, op)) == Anonymous(q);
    }
  }

  /** Rearranging the events rearranges the anonymous events. */
  lemma {:induction false} AnonymousBag<T>(a: seq<Entry<T>>, b: seq<Entry<T>>)
    requires multiset(a) == multiset(b)
    ensures multiset(Anonymous(a)) == multiset(Anonymous(b))
    decreases |a|
  {
    if a == [] {
      assert |multiset(b)| == 0;
      assert b == [];
    } else {
      assert a[0] in multiset(b);
      var i :| 0 <= i < |b| && b[i] == a[0];
      TakeOut(a, 0);
      TakeOut(b, i);
      AnonymousBag(a[..0] + a[1..], b[..i] + b[i + 1..]);
    }
  }

  lemma TakeOut<T>(q: seq<Entry<T>>, i: nat)
    requires i < |q|
    ensures multiset(q[..i] + q[i + 1..]) == multiset(q) - multiset{q[i]}
    ensures multiset(Anonymous(q)) == multiset(Anonymous(q[..i] + q[i + 1..])) + multiset(Anonymous([q[i]]))
  {
    var r := q[..i] + q[i + 1..];
    assert q == q[..i] + [q[i]] + q[i + 1..];
    assert Anonymous(q) == Anonymous(q[..i]) + Anonymous([q[i]]) + Anonymous(q[i + 1..]);
    assert Anonymous(r) == Anonymous(q[..i]) + Anonymous(q[i + 1..]);
  }
}
