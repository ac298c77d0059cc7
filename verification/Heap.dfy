/** Go's container/heap on a slice of timestamped entries: sift-up, sift-down, Push, Pop, Fix
    and Remove, as functions of the slice. The send queue breaks ties between equal
    timestamps by node id; the alarm queue does not break them. */
module Heap {

  datatype Entry<+T> = Entry(timestamp: nat, nodeId: int, body: T)

  /** The queue's Less: by timestamp, then by node id if the queue breaks ties. */
  predicate Less<T>(a: Entry<T>, b: Entry<T>, tie: bool) {
    a.timestamp < b.timestamp || (tie && a.timestamp == b.timestamp && a.nodeId < b.nodeId)
  }

  function Parent(i: int): int
    requires i > 0
  {
    (i - 1) / 2
  }

  function Swap<T>(q: seq<Entry<T>>, i: nat, j: nat): seq<Entry<T>>
    requires i < |q| && j < |q|
  {
    q[i := q[j]][j := q[i]]
  }

  function Up<T>(q: seq<Entry<T>>, j: nat, tie: bool): (r: seq<Entry<T>>)
    requires j < |q|
    ensures |r| == |q|
    decreases j
  {
    if j == 0 || !Less(q[j], q[Parent(j)], tie) then q
    else Up(Swap(q, Parent(j), j), Parent(j), tie)
  }

  /** The child that sift-down compares with. */
  function Child<T>(q: seq<Entry<T>>, i: nat, n: nat, tie: bool): (j: nat)
    requires 2 * i + 1 < n <= |q|
    ensures i < j < n && Parent(j) == i
  {
    if 2 * i + 2 < n && Less(q[2 * i + 2], q[2 * i + 1], tie) then 2 * i + 2 else 2 * i + 1
  }

  /** Whether sift-down from i moves the entry at all. */
  predicate Sinks<T>(q: seq<Entry<T>>, i: nat, n: nat, tie: bool)
    requires n <= |q|
  {
    2 * i + 1 < n && Less(q[Child(q, i, n, tie)], q[i], tie)
  }

  function Down<T>(q: seq<Entry<T>>, i: nat, n: nat, tie: bool): (r: seq<Entry<T>>)
    requires i <= n <= |q|
    ensures |r| == |q|
    decreases n - i
  {
    if !Sinks(q, i, n, tie) then q
    else var j := Child(q, i, n, tie); Down(Swap(q, i, j), j, n, tie)
  }

  function Push<T>(q: seq<Entry<T>>, x: Entry<T>, tie: bool): (r: seq<Entry<T>>) {
    Up(q + [x], |q|, tie)
  }

  /** Sift from i in whichever direction is needed, within the first n entries. */
  function Settle<T>(q: seq<Entry<T>>, i: nat, n: nat, tie: bool): (r: seq<Entry<T>>)
    requires i < n <= |q|
    ensures |r| == |q|
  {
    if Sinks(q, i, n, tie) then Down(q, i, n, tie) else Up(q, i, tie)
  }

  function Fix<T>(q: seq<Entry<T>>, i: nat, tie: bool): (r: seq<Entry<T>>)
    requires i < |q|
  {
    Settle(q, i, |q|, tie)
  }

  function Remove<T>(q: seq<Entry<T>>, i: nat, tie: bool): (r: seq<Entry<T>>)
    requires i < |q|
  {
    var n := |q| - 1;
    if i == n then q[..n] else Settle(Swap(q, i, n), i, n, tie)[..n]
  }

  function Pop<T>(q: seq<Entry<T>>, tie: bool): (r: seq<Entry<T>>)
    requires |q| > 0
  {
    var n := |q| - 1;
    Down(Swap(q, 0, n), 0, n, tie)[..n]
  }

  // ---------- heap order ----------

  /** The order a heap is kept in: lexicographic, or by timestamp only. */
  ghost predicate Le<T>(a: Entry<T>, b: Entry<T>, lex: bool) {
    if lex then !Less(b, a, true) else a.timestamp <= b.timestamp
  }

  ghost predicate Ordered<T>(q: seq<Entry<T>>, i: int, lex: bool)
    requires 0 < i < |q|
  {
    Le(q[Parent(i)], q[i], lex)
  }

  /** The first n entries form a heap. */
  ghost predicate IsHeap<T>(q: seq<Entry<T>>, n: nat, lex: bool)
    requires n <= |q|
  {
    forall k :: 0 < k < n ==> Ordered(q, k, lex)
  }

  /** A heap but for the entry at i, whose children still fit under its parent. */
  ghost predicate HeapBut<T>(q: seq<Entry<T>>, i: nat, n: nat, lex: bool)
    requires i < n <= |q|
  {
    (forall k :: 0 < k < n && k != i && Parent(k) != i ==> Ordered(q, k, lex)) &&
    (forall k :: 0 < k < n && Parent(k) == i && i > 0 ==> Le(q[Parent(i)], q[k], lex))
  }

  /** The children of i are in order with it. */
  ghost predicate FitsBelow<T>(q: seq<Entry<T>>, i: nat, n: nat, lex: bool)
    requires i < n <= |q|
  {
    forall k :: 0 < k < n && Parent(k) == i ==> Ordered(q, k, lex)
  }

  lemma {:induction false} UpMakesHeap<T>(q: seq<Entry<T>>, j: nat, tie: bool, lex: bool)
    requires j < |q| && (lex ==> tie)
    requires HeapBut(q, j, |q|, lex) && FitsBelow(q, j, |q|, lex)
    ensures IsHeap(Up(q, j, tie), |q|, lex)
    decreases j
  {
    if j > 0 && Less(q[j], q[Parent(j)], tie) {
      var p := Parent(j);
      var q' := Swap(q, p, j);
      forall k | 0 < k < |q| && k != p && (Parent(k) != p || k == j)
        ensures Ordered(q', k, lex)
      {
        if Parent(k) == j {
          assert Le(q[p], q[k], lex);
        } else {
          assert k == j || Ordered(q, k, lex);
        }
      }
      forall k | 0 < k < |q| && Parent(k) == p
        ensures Ordered(q', k, lex)
        ensures p > 0 ==> Le(q'[Parent(p)], q'[k], lex)
      {
        assert k == j || Ordered(q, k, lex);
        assert p > 0 ==> Ordered(q, p, lex);
      }
      UpMakesHeap(q', p, tie, lex);
    } else {
      forall k | 0 < k < |q| ensures Ordered(q, k, lex) {
      }
    }
  }

  lemma {:induction false} DownMakesHeap<T>(q: seq<Entry<T>>, i: nat, n: nat, tie: bool, lex: bool)
    requires i < n <= |q| && (lex ==> tie)
    requires HeapBut(q, i, n, lex) && (i > 0 ==> Ordered(q, i, lex))
    ensures IsHeap(Down(q, i, n, tie), n, lex)
    decreases n - i
  {
    if Sinks(q, i, n, tie) {
      SinkOnce(q, i, n, tie, lex);
      var j := Child(q, i, n, tie);
      DownMakesHeap(Swap(q, i, j), j, n, tie, lex);
    } else {
      DoesNotSink(q, i, n, tie, lex);
    }
  }

  lemma DoesNotSink<T>(q: seq<Entry<T>>, i: nat, n: nat, tie: bool, lex: bool)
    requires i < n <= |q| && (lex ==> tie)
    requires !Sinks(q, i, n, tie)
    ensures FitsBelow(q, i, n, lex)
  {
    forall k | 0 < k < n && Parent(k) == i ensures Ordered(q, k, lex) {
      assert k == 2 * i + 1 || k == 2 * i + 2;
    }
  }

  /** One sift-down step moves the disorder one level down. */
  lemma SinkOnce<T>(q: seq<Entry<T>>, i: nat, n: nat, tie: bool, lex: bool)
    requires i < n <= |q| && (lex ==> tie)
    requires HeapBut(q, i, n, lex) && Sinks(q, i, n, tie)
    ensures var j := Child(q, i, n, tie); var q' := Swap(q, i, j);
            HeapBut(q', j, n, lex) && Ordered(q', j, lex)
  {
    var j := Child(q, i, n, tie);
    var q' := Swap(q, i, j);
    forall k | 0 < k < n && k != j && Parent(k) != j ensures Ordered(q', k, lex) {
      if Parent(k) == i {
        assert k == 2 * i + 1 || k == 2 * i + 2;
      } else if k == i {
        assert Le(q[Parent(i)], q[j], lex);
      } else {
        assert Ordered(q, k, lex);
      }
    }
    forall k | 0 < k < n && Parent(k) == j ensures Le(q'[Parent(j)], q'[k], lex) {
      assert Ordered(q, k, lex);
    }
  }

  lemma SettleMakesHeap<T>(q: seq<Entry<T>>, i: nat, n: nat, tie: bool, lex: bool)
    requires i < n <= |q| && (lex ==> tie)
    requires HeapBut(q, i, n, lex)
    ensures IsHeap(Settle(q, i, n, tie), n, lex)
  {
    if Sinks(q, i, n, tie) {
      hide Ordered, HeapBut, IsHeap;
      SinkOnce(q, i, n, tie, lex);
      DownMakesHeap(Swap(q, i, Child(q, i, n, tie)), Child(q, i, n, tie), n, tie, lex);
    } else {
      RisesToHeap(q, i, n, tie, lex);
    }
  }

  lemma RisesToHeap<T>(q: seq<Entry<T>>, i: nat, n: nat, tie: bool, lex: bool)
    requires i < n <= |q| && (lex ==> tie) && HeapBut(q, i, n, lex) && !Sinks(q, i, n, tie)
    ensures IsHeap(Up(q, i, tie), n, lex)
  {
    hide Sinks, Less, Up, Le;
    DoesNotSink(q, i, n, tie, lex);
    UpWithin(q, i, n, tie);
    assert forall k :: 0 < k < n && k != i && Parent(k) != i ==> Ordered(q, k, lex) && Ordered(q[..n], k, lex);
    assert forall k :: 0 < k < n && Parent(k) == i ==> Ordered(q, k, lex) && Ordered(q[..n], k, lex);
    UpMakesHeap(q[..n], i, tie, lex);
    forall k | 0 < k < n ensures Ordered(Up(q, i, tie), k, lex) {
      assert Ordered(Up(q[..n], i, tie), k, lex);
    }
  }

  /** Sift-up looks only at entries before its start. */
  lemma {:induction false} UpWithin<T>(q: seq<Entry<T>>, i: nat, n: nat, tie: bool)
    requires i < n <= |q|
    ensures Up(q, i, tie) == Up(q[..n], i, tie) + q[n..]
    decreases i
  {
    if i == 0 || !Less(q[i], q[Parent(i)], tie) {
      assert q == q[..n] + q[n..];
    } else {
      var q' := Swap(q, Parent(i), i);
      assert q'[..n] == Swap(q[..n], Parent(i), i) && q'[n..] == q[n..];
      UpWithin(q', Parent(i), n, tie);
    }
  }

  // ---------- the operations ----------

  lemma PushKeepsHeap<T>(q: seq<Entry<T>>, x: Entry<T>, tie: bool, lex: bool)
    requires (lex ==> tie) && IsHeap(q, |q|, lex)
    ensures IsHeap(Push(q, x, tie), |q| + 1, lex)
    ensures multiset(Push(q, x, tie)) == multiset(q) + multiset{x}
  {
    var q' := q + [x];
    forall k | 0 < k < |q'| && k != |q| ensures Ordered(q', k, lex) {
      assert Ordered(q, k, lex);
    }
    UpMakesHeap(q', |q|, tie, lex);
    UpPermutes(q', |q|, tie);
  }

  /** Pop is Remove of the root. */
  lemma PopKeepsHeap<T>(q: seq<Entry<T>>, tie: bool, lex: bool)
    requires |q| > 0 && (lex ==> tie) && IsHeap(q, |q|, lex)
    ensures |Pop(q, tie)| == |q| - 1 && IsHeap(Pop(q, tie), |q| - 1, lex)
    ensures multiset(q) == multiset(Pop(q, tie)) + multiset{q[0]}
  {
    RemoveKeepsHeap(q, 0, tie, lex);
    assert Pop(q, tie) == Remove(q, 0, tie);
  }

  lemma FixKeepsHeap<T>(q: seq<Entry<T>>, i: nat, x: Entry<T>, tie: bool, lex: bool)
    requires i < |q| && (lex ==> tie) && IsHeap(q, |q|, lex)
    ensures IsHeap(Fix(q[i := x], i, tie), |q|, lex)
    ensures multiset(Fix(q[i := x], i, tie)) == multiset(q[i := x])
  {
    var q' := q[i := x];
    forall k | 0 < k < |q| && k != i && Parent(k) != i ensures Ordered(q', k, lex) {
      assert Ordered(q, k, lex);
    }
    forall k | 0 < k < |q| && Parent(k) == i && i > 0 ensures Le(q'[Parent(i)], q'[k], lex) {
      assert Ordered(q, k, lex) && Ordered(q, i, lex);
    }
    SettleMakesHeap(q', i, |q|, tie, lex);
    SettlePermutes(q', i, |q|, tie);
  }

  lemma RemoveKeepsHeap<T>(q: seq<Entry<T>>, i: nat, tie: bool, lex: bool)
    requires i < |q| && (lex ==> tie) && IsHeap(q, |q|, lex)
    ensures |Remove(q, i, tie)| == |q| - 1 && IsHeap(Remove(q, i, tie), |q| - 1, lex)
    ensures multiset(q) == multiset(Remove(q, i, tie)) + multiset{q[i]}
  {
    var n := |q| - 1;
    if i == n {
      DropLast(q, lex);
    } else {
      var q' := Swap(q, i, n);
      var r := Settle(q', i, n, tie);
      assert q'[n] == q[i] && Remove(q, i, tie) == r[..n];
      hide *;
      SwapLastLeavesHeapBut(q, i, lex);
      SettleMakesHeap(q', i, n, tie, lex);
      SettlePermutes(q', i, n, tie);
      SwapPermutes(q, i, n);
      DropLast(r, lex);
      assert r[n] == r[n..][0] == q'[n..][0];
    }
  }

  lemma SwapLastLeavesHeapBut<T>(q: seq<Entry<T>>, i: nat, lex: bool)
    requires i < |q| - 1 && IsHeap(q, |q|, lex)
    ensures HeapBut(Swap(q, i, |q| - 1), i, |q| - 1, lex)
  {
    var n := |q| - 1;
    var q' := Swap(q, i, n);
    forall k | 0 < k < n && k != i && Parent(k) != i ensures Ordered(q', k, lex) {
      assert Ordered(q, k, lex);
    }
    forall k | 0 < k < n && Parent(k) == i && i > 0 ensures Le(q'[Parent(i)], q'[k], lex) {
      assert Ordered(q, k, lex) && Ordered(q, i, lex);
    }
  }

  lemma DropLast<T>(q: seq<Entry<T>>, lex: bool)
    requires |q| > 0 && IsHeap(q, |q| - 1, lex)
    ensures IsHeap(q[..|q| - 1], |q| - 1, lex)
    ensures multiset(q) == multiset(q[..|q| - 1]) + multiset{q[|q| - 1]}
  {
    var n := |q| - 1;
    forall k | 0 < k < n ensures Ordered(q[..n], k, lex) {
      assert Ordered(q, k, lex);
    }
    assert q == q[..n] + [q[n]];
  }

  /** The root of a heap is a minimum. */
  lemma {:induction false} RootIsMinimum<T>(q: seq<Entry<T>>, k: nat, lex: bool)
    requires k < |q| && IsHeap(q, |q|, lex)
    ensures Le(q[0], q[k], lex)
  {
    if k > 0 {
      RootIsMinimum(q, Parent(k), lex);
      assert Ordered(q, k, lex);
    }
  }

  // ---------- nothing is lost ----------

  lemma SwapPermutes<T>(q: seq<Entry<T>>, i: nat, j: nat)
    requires i < |q| && j < |q|
    ensures multiset(Swap(q, i, j)) == multiset(q)
  {
  }

  lemma {:induction false} UpPermutes<T>(q: seq<Entry<T>>, j: nat, tie: bool)
    requires j < |q|
    ensures multiset(Up(q, j, tie)) == multiset(q)
    decreases j
  {
    if j > 0 && Less(q[j], q[Parent(j)], tie) {
      SwapPermutes(q, Parent(j), j);
      UpPermutes(Swap(q, Parent(j), j), Parent(j), tie);
    }
  }

  lemma {:induction false} DownPermutes<T>(q: seq<Entry<T>>, i: nat, n: nat, tie: bool)
    requires i <= n <= |q|
    ensures multiset(Down(q, i, n, tie)) == multiset(q)
    ensures Down(q, i, n, tie)[n..] == q[n..]
    decreases n - i
  {
    if Sinks(q, i, n, tie) {
      var j := Child(q, i, n, tie);
      SwapPermutes(q, i, j);
      DownPermutes(Swap(q, i, j), j, n, tie);
    }
  }

  lemma SettlePermutes<T>(q: seq<Entry<T>>, i: nat, n: nat, tie: bool)
    requires i < n <= |q|
    ensures multiset(Settle(q, i, n, tie)) == multiset(q)
    ensures Settle(q, i, n, tie)[n..] == q[n..]
  {
    DownPermutes(q, i, n, tie);
    UpPermutes(q, i, tie);
    UpWithin(q, i, n, tie);
  }
}
