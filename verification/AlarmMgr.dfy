/** The dispatcher's alarm manager (alarm_mgr.go): one alarm per node, held in a heap of
    objects that know their own position and are also reachable through a map by node id. */
module AlarmMgr {
  import opened Heap
  import opened SimTypes

  class AlarmEvent {
    const nodeId: int
    var timestamp: nat
    var index: nat

    constructor (nodeId: int, timestamp: nat)
      ensures this.nodeId == nodeId && this.timestamp == timestamp
    {
      this.nodeId, this.timestamp, this.index := nodeId, timestamp, 0;
    }
  }

  class Manager {
    var q: seq<AlarmEvent>
    var events: map<int, AlarmEvent>
    // The alarm objects in use: those of the heap, and those of the map.
    ghost var objects: set<AlarmEvent>

    /** Every object is in the heap once, at the position it knows. */
    ghost predicate Indexed() reads this`q, this`objects, objects {
      (forall i :: 0 <= i < |q| ==> q[i] in objects && q[i].index == i) &&
      (forall e :: e in objects ==> e.index < |q| && q[e.index] == e)
    }

    /** Every object is in the map once, under its node id. */
    ghost predicate Mapped() reads this`events, this`objects {
      (forall id :: id in events ==> events[id] in objects && events[id].nodeId == id) &&
      (forall e :: e in objects ==> e.nodeId in events && events[e.nodeId] == e)
    }

    /** What the heap package sees of the slice. */
    ghost function Entries(): (r: seq<Entry<()>>)
      requires Indexed()
      reads this`q, this`objects, objects
      ensures |r| == |q|
    {
      var (slice, all) := (q, objects);
      seq(|slice|, i requires 0 <= i < |slice| && slice[i] in all reads all =>
        Entry(slice[i].timestamp, slice[i].nodeId, ()))
    }

    ghost predicate Valid() reads this, objects {
      Indexed() && Mapped() && IsHeap(Entries(), |q|, false)
    }

    /** The abstract value: a map from node id to alarm time. */
    ghost function Alarms(): map<int, nat>
      requires Mapped()
      reads this`events, this`objects, objects
    {
      map id | id in events :: events[id].timestamp
    }

    constructor ()
      ensures Valid() && objects == {} && Alarms() == map[]
    {
      q, events, objects := [], map[], {};
    }

    // ---------- container/heap on the slice ----------

    method Swap(i: nat, j: nat)
      requires Indexed() && i < |q| && j < |q|
      modifies this`q, objects`index
      ensures Indexed() && q == old(q[i := q[j]][j := q[i]])
      ensures Entries() == Heap.Swap(old(Entries()), i, j)
    {
      var a, b := q[i], q[j];
      assert a.index == i && b.index == j;
      q := q[i := b][j := a];
      b.index := i;
      a.index := j;
    }

    method Up(start: nat)
      requires Indexed() && start < |q|
      modifies this`q, objects`index
      ensures Indexed() && |q| == old(|q|)
      ensures forall k :: start < k < |q| ==> q[k] == old(q[k])
      ensures Entries() == Heap.Up(old(Entries()), start, false)
    {
      var j: nat := start;
      while j > 0 && q[j].timestamp < q[(j - 1) / 2].timestamp
        invariant Indexed() && |q| == old(|q|) && j <= start
        invariant forall k :: start < k < |q| ==> q[k] == old(q[k])
        invariant Heap.Up(Entries(), j, false) == Heap.Up(old(Entries()), start, false)
        decreases j
      {
        var i := (j - 1) / 2;
        Swap(i, j);
        j := i;
      }
    }

    /** Sift-down; tells whether the entry moved. */
    method Down(start: nat, n: nat) returns (moved: bool)
      requires Indexed() && start < n <= |q|
      modifies this`q, objects`index
      ensures Indexed() && |q| == old(|q|)
      ensures forall k :: n <= k < |q| ==> q[k] == old(q[k])
      ensures Entries() == Heap.Down(old(Entries()), start, n, false)
      ensures moved == Sinks(old(Entries()), start, n, false)
    {
      hide Heap.Down, Heap.Swap, Child, Sinks, Less;
      var i: nat := start;
      while 2 * i + 1 < n
        invariant Indexed() && |q| == old(|q|) && start <= i < n <= |q|
        invariant forall k :: n <= k < |q| ==> q[k] == old(q[k])
        invariant Heap.Down(Entries(), i, n, false) == Heap.Down(old(Entries()), start, n, false)
        invariant i == start ==> Entries() == old(Entries())
        invariant i > start ==> Sinks(old(Entries()), start, n, false)
        decreases n - i
      {
        var j := 2 * i + 1;
        if j + 1 < n && q[j + 1].timestamp < q[j].timestamp {
          j := j + 1;
        }
        if !(q[j].timestamp < q[i].timestamp) {
          break;
        }
        SinkStep(Entries(), i, j, n);
        Swap(i, j);
        i := j;
      }
      SinkStop(Entries(), i, n);
      moved := i > start;
    }

    method Settle(i: nat, n: nat)
      requires Indexed() && i < n <= |q|
      modifies this`q, objects`index
      ensures Indexed() && |q| == old(|q|)
      ensures forall k :: n <= k < |q| ==> q[k] == old(q[k])
      ensures Entries() == Heap.Settle(old(Entries()), i, n, false)
    {
      var moved := Down(i, n);
      if !moved {
        Up(i);
      }
    }

    method HeapPush(e: AlarmEvent)
      requires Indexed() && e !in objects
      modifies this`q, this`objects, objects`index, e`index
      ensures objects == old(objects) + {e} && Indexed() && |q| == old(|q|) + 1
      ensures Entries() == Push(old(Entries()), Entry(e.timestamp, e.nodeId, ()), false)
    {
      hide Heap.Up;
      q := q + [e];
      e.index := |q| - 1;
      objects := objects + {e};
      assert Entries() == old(Entries()) + [Entry(e.timestamp, e.nodeId, ())];
      Up(|q| - 1);
    }

    method HeapFix(i: nat)
      requires Indexed() && i < |q|
      modifies this`q, objects`index
      ensures Indexed() && |q| == old(|q|)
      ensures Entries() == Fix(old(Entries()), i, false)
    {
      Settle(i, |q|);
    }

    method HeapRemove(i: nat) returns (e: AlarmEvent)
      requires Indexed() && i < |q|
      modifies this`q, this`objects, objects`index
      ensures e == old(q[i]) && objects == old(objects) - {e} && Indexed() && |q| == old(|q|) - 1
      ensures Entries() == Remove(old(Entries()), i, false)
    {
      hide Heap.Settle, Heap.Swap;
      e := q[i];
      var n := |q| - 1;
      if n != i {
        Swap(i, n);
        Settle(i, n);
      }
      assert q[n] == e;
      DropLast();
    }

    method DropLast()
      requires Indexed() && |q| > 0
      modifies this`q, this`objects
      ensures objects == old(objects) - {old(q[|q| - 1])} && Indexed() && |q| == old(|q|) - 1
      ensures Entries() == old(Entries())[..|q|]
    {
      ghost var last, settled := q[|q| - 1], Entries();
      q := q[..|q| - 1];
      objects := objects - {last};
      assert Entries() == settled[..|q|];
    }

    // ---------- the manager ----------

    method AddNode(nodeid: int)
      requires Valid() && nodeid !in events
      modifies this, objects`index
      ensures Valid() && fresh(objects - old(objects))
      ensures Alarms() == old(Alarms())[nodeid := EVER]
    {
      hide IsHeap, Push;
      PushKeepsHeap(Entries(), Entry(EVER, nodeid, ()), false, false);
      var e := new AlarmEvent(nodeid, EVER);
      HeapPush(e);
      events := events[nodeid := e];
      AlarmsAre(old(Alarms())[nodeid := EVER]);
    }

    /** Moves one alarm; every other node keeps its own. */
    method SetTimestamp(nodeid: int, timestamp: nat)
      requires Valid() && nodeid in events
      modifies this`q, objects
      ensures Valid()
      ensures Alarms() == old(Alarms())[nodeid := timestamp]
    {
      hide IsHeap, Fix;
      var e := events[nodeid];
      if e.timestamp != timestamp {
        ghost var before := Entries();
        FixKeepsHeap(before, e.index, Entry(timestamp, nodeid, ()), false, false);
        e.timestamp := timestamp;
        assert Entries() == before[e.index := Entry(timestamp, nodeid, ())];
        HeapFix(e.index);
      }
      AlarmsAre(old(Alarms())[nodeid := timestamp]);
    }

    lemma AlarmsAre(m: map<int, nat>)
      requires Mapped() && m.Keys == events.Keys
      requires forall id :: id in events ==> m[id] == events[id].timestamp
      ensures Alarms() == m
    {
      assert Alarms().Keys == m.Keys;
      assert forall id :: id in m ==> Alarms()[id] == m[id];
    }

    method SetNotified(nodeid: int)
      requires Valid() && nodeid in events
      modifies this`q, objects
      ensures Valid()
      ensures Alarms() == old(Alarms())[nodeid := EVER]
    {
      SetTimestamp(nodeid, EVER);
    }

    method GetTimestamp(nodeid: int) returns (t: nat)
      requires Valid() && nodeid in events
      ensures t == Alarms()[nodeid]
    {
      t := events[nodeid].timestamp;
    }

    /** An alarm that no other precedes, or null if there are no nodes. */
    method NextAlarm() returns (e: AlarmEvent?)
      requires Valid()
      ensures e == null <==> Alarms() == map[]
      ensures e != null ==> e.nodeId in Alarms() && Alarms()[e.nodeId] == e.timestamp
      ensures e != null ==> forall id :: id in Alarms() ==> e.timestamp <= Alarms()[id]
    {
      NoNodes();
      if |q| == 0 {
        e := null;
      } else {
        e := q[0];
        assert e.nodeId in Alarms();
        RootPrecedesAll();
      }
    }

    method NextTimestamp() returns (t: nat)
      requires Valid()
      ensures Alarms() == map[] ==> t == EVER
      ensures Alarms() != map[] ==> exists id :: id in Alarms() && Alarms()[id] == t
      ensures forall id :: id in Alarms() ==> t <= Alarms()[id]
    {
      NoNodes();
      if |q| == 0 {
        t := EVER;
      } else {
        t := q[0].timestamp;
        assert q[0].nodeId in Alarms() && Alarms()[q[0].nodeId] == t;
        RootPrecedesAll();
      }
    }

    lemma NoNodes()
      requires Valid()
      ensures |q| == 0 <==> Alarms() == map[]
    {
      if |q| == 0 {
        assert forall id :: id !in events;
        AlarmsAre(map[]);
      } else {
        assert q[0].nodeId in Alarms();
      }
    }

    lemma RootPrecedesAll()
      requires Valid() && |q| > 0
      ensures forall id :: id in events ==> q[0].timestamp <= events[id].timestamp
    {
      forall id | id in events ensures q[0].timestamp <= events[id].timestamp {
        RootIsMinimum(Entries(), events[id].index, false);
      }
    }

    method DeleteNode(id: int)
      requires Valid() && id in events
      modifies this, objects`index
      ensures Valid() && objects <= old(objects)
      ensures Alarms() == old(Alarms()) - {id}
    {
      hide IsHeap, Remove;
      var i := events[id].index;
      RemoveKeepsHeap(Entries(), i, false, false);
      var e := HeapRemove(i);
      events := events - {id};
      AlarmsAre(old(Alarms()) - {id});
    }
  }

  /** The child the loop picked is the one sift-down picks. */
  lemma SinkStep(q: seq<Entry<()>>, i: nat, j: nat, n: nat)
    requires 2 * i + 1 < n <= |q|
    requires j == if 2 * i + 2 < n && q[2 * i + 2].timestamp < q[2 * i + 1].timestamp then 2 * i + 2 else 2 * i + 1
    requires q[j].timestamp < q[i].timestamp
    ensures Sinks(q, i, n, false)
    ensures Heap.Down(q, i, n, false) == Heap.Down(Heap.Swap(q, i, j), j, n, false)
  {
  }

  lemma SinkStop(q: seq<Entry<()>>, i: nat, n: nat)
    requires i < n <= |q|
    requires 2 * i + 1 < n ==> q[i].timestamp <= q[2 * i + 1].timestamp
    requires 2 * i + 2 < n ==> q[i].timestamp <= q[2 * i + 2].timestamp
    ensures !Sinks(q, i, n, false)
    ensures Heap.Down(q, i, n, false) == q
  {
  }
}
