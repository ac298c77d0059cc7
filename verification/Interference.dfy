/** Which transmissions overlap: the bookkeeping of the mutual-interference radio model
    (radiomodelMutualInterference.go). */
module Interference {
  import NodeOrder

  const MAX_CHANNEL := 39

  type Channel = c: int | 0 <= c <= MAX_CHANNEL

  /** The model's maps, with radio nodes represented by their ids: the transmitters on each
      channel, the interferers recorded for each node, and the channel each radio is on. */
  datatype Air = Air(nodes: set<int>, active: map<Channel, set<int>>, interferedBy: map<int, set<int>>,
                     radioChannel: map<int, Channel>)
  {
    ghost predicate Valid() {
      (forall c: Channel :: c in active && active[c] <= nodes) &&
      nodes <= interferedBy.Keys && nodes <= radioChannel.Keys
    }

    ghost predicate Transmits(n: int, c: Channel) {
      c in active && n in active[c]
    }

    /** No node transmits on two channels. */
    ghost predicate OneChannel() {
      forall n: int, c: Channel, d: Channel :: Transmits(n, c) && Transmits(n, d) ==> c == d
    }
  }

  // ---------- the operations as functions of the maps ----------

  function AddNode(a: Air, n: int, c: Channel): Air {
    a.(nodes := a.nodes + {n}, interferedBy := a.interferedBy[n := {}], radioChannel := a.radioChannel[n := c])
  }

  function DeleteNode(a: Air, n: int): Air {
    a.(nodes := a.nodes - {n}, active := map c | c in a.active :: a.active[c] - {n},
       interferedBy := a.interferedBy[n := {}])
  }

  /** The start is aborted if the node already transmits on the channel. */
  function TxStart(a: Air, n: int, c: Channel): Air
    requires c in a.active
  {
    if n in a.active[c] then a
    else a.(active := a.active[c := a.active[c] + {n}],
            radioChannel := a.radioChannel[n := c],
            interferedBy := Marked(a.interferedBy, n, a.active[c]))
  }

  /** n and the nodes of `others` recorded as interfering with each other. */
  function Marked(interferedBy: map<int, set<int>>, n: int, others: set<int>): map<int, set<int>> {
    (map id | id in interferedBy :: if id in others then interferedBy[id] + {n} else interferedBy[id])[n := others]
  }

  lemma MarkOneMore(interferedBy: map<int, set<int>>, n: int, others: set<int>, id: int)
    requires id in interferedBy && id != n && id !in others
    ensures id in Marked(interferedBy, n, others)
    ensures Marked(interferedBy, n, others + {id}) ==
            Marked(interferedBy, n, others)[n := others + {id}][id := Marked(interferedBy, n, others)[id] + {n}]
  {
  }

  /** A transmitter that moved to another channel is stopped there as well. */
  function TxStop(a: Air, n: int, c: Channel): Air {
    a.(active := map d | d in a.active ::
      if d == c || (n in a.radioChannel && d == a.radioChannel[n]) then a.active[d] - {n} else a.active[d])
  }

  function SetChannel(a: Air, n: int, c: Channel): Air {
    a.(radioChannel := a.radioChannel[n := c])
  }

  datatype Op =
    | Added(n: int, c: Channel)
    | Deleted(n: int)
    | Started(n: int, c: Channel)
    | Stopped(n: int, c: Channel)
    | Moved(n: int, c: Channel)

  function Apply(a: Air, op: Op): Air
    requires op.Started? ==> op.c in a.active
  {
    match op
    case Added(n, c) => AddNode(a, n, c)
    case Deleted(n) => DeleteNode(a, n)
    case Started(n, c) => TxStart(a, n, c)
    case Stopped(n, c) => TxStop(a, n, c)
    case Moved(n, c) => SetChannel(a, n, c)
  }

  /** Nodes are added once and act while they exist; a node that transmits on one channel
      starts nothing on another. */
  ghost predicate Allowed(a: Air, op: Op) {
    (if op.Added? then op.n !in a.nodes else op.n in a.nodes) &&
    (op.Started? ==> forall d: Channel :: d != op.c ==> !a.Transmits(op.n, d))
  }

  function NoTransmitters(): (m: map<Channel, set<int>>)
    ensures forall c: Channel :: c in m && m[c] == {}
  {
    map c: Channel {:trigger Quiet(c)} | Quiet(c) :: {}
  }

  predicate Quiet(c: Channel) {
    true
  }

  const Silence: Air := Air({}, NoTransmitters(), map[], map[])

  ghost predicate IsRun(states: seq<Air>, ops: seq<Op>) {
    |states| == |ops| + 1 && states[0] == Silence &&
    forall k :: 0 <= k < |ops| ==>
      Allowed(states[k], ops[k]) && (ops[k].Started? ==> ops[k].c in states[k].active) &&
      states[k + 1] == Apply(states[k], ops[k])
  }

  // ---------- every state of a run ----------

  lemma ApplyKeepsValid(a: Air, op: Op)
    requires a.Valid() && Allowed(a, op)
    ensures Apply(a, op).Valid()
  {
  }

  lemma ApplyKeepsOneChannel(a: Air, op: Op)
    requires a.Valid() && a.OneChannel() && Allowed(a, op)
    ensures Apply(a, op).OneChannel()
  {
    var a' := Apply(a, op);
    forall n: int, c: Channel, d: Channel | a'.Transmits(n, c) && a'.Transmits(n, d) ensures c == d {
      StartedOrTransmitting(a, op, n, c);
      StartedOrTransmitting(a, op, n, d);
    }
  }

  lemma StartedOrTransmitting(a: Air, op: Op, n: int, c: Channel)
    requires a.Valid() && Allowed(a, op) && Apply(a, op).Transmits(n, c)
    ensures op == Started(n, c) || a.Transmits(n, c)
  {
  }

  lemma {:induction false} RunInvariant(states: seq<Air>, ops: seq<Op>, k: nat)
    requires IsRun(states, ops) && k < |states|
    ensures states[k].Valid() && states[k].OneChannel()
  {
    if k > 0 {
      RunInvariant(states, ops, k - 1);
      ApplyKeepsValid(states[k - 1], ops[k - 1]);
      ApplyKeepsOneChannel(states[k - 1], ops[k - 1]);
    }
  }

  // ---------- who is on the air, from the operations alone ----------

  /** The last start of n on c has not been silenced among the first k operations. */
  ghost predicate OnAir(ops: seq<Op>, k: nat, n: int, c: Channel)
    requires k <= |ops|
    decreases k, 2
  {
    exists i :: 0 <= i < k && ops[i] == Started(n, c) && forall j :: i < j < k ==> !Silences(ops, j, n, c)
  }

  /** A deletion of n, or a stop of n that names c or finds its radio there. */
  ghost predicate Silences(ops: seq<Op>, j: nat, n: int, c: Channel)
    requires j < |ops|
    decreases j, 1
  {
    ops[j] == Deleted(n) || (ops[j].Stopped? && ops[j].n == n && (ops[j].c == c || TunedTo(ops, j, n, c)))
  }

  /** The last operation that set the channel of n's radio set it to c. */
  ghost predicate TunedTo(ops: seq<Op>, k: nat, n: int, c: Channel)
    requires k <= |ops|
    decreases k, 0
  {
    exists i :: 0 <= i < k && Tunes(ops, i, n) && ops[i].c == c && forall j :: i < j < k ==> !Tunes(ops, j, n)
  }

  /** An aborted start does not tune the radio. */
  ghost predicate Tunes(ops: seq<Op>, i: nat, n: int)
    requires i < |ops|
    decreases i, 3
  {
    ops[i].n == n &&
    (ops[i].Added? || ops[i].Moved? || (ops[i].Started? && !OnAir(ops, i, n, ops[i].c)))
  }

  lemma OnAirStep(ops: seq<Op>, k: nat, n: int, c: Channel)
    requires k < |ops|
    ensures OnAir(ops, k + 1, n, c) <==> ops[k] == Started(n, c) || (OnAir(ops, k, n, c) && !Silences(ops, k, n, c))
  {
    hide Silences;
    if OnAir(ops, k, n, c) && !Silences(ops, k, n, c) {
      var i :| 0 <= i < k && ops[i] == Started(n, c) && forall j :: i < j < k ==> !Silences(ops, j, n, c);
      assert forall j :: i < j < k + 1 ==> !Silences(ops, j, n, c);
    }
  }

  lemma TunedStep(ops: seq<Op>, k: nat, n: int, c: Channel)
    requires k < |ops|
    ensures TunedTo(ops, k + 1, n, c) <==> if Tunes(ops, k, n) then ops[k].c == c else TunedTo(ops, k, n, c)
  {
    if !Tunes(ops, k, n) && TunedTo(ops, k, n, c) {
      var i :| 0 <= i < k && Tunes(ops, i, n) && ops[i].c == c && forall j :: i < j < k ==> !Tunes(ops, j, n);
      assert forall j :: i < j < k + 1 ==> !Tunes(ops, j, n);
    } else if TunedTo(ops, k + 1, n, c) {
      var i :| 0 <= i < k + 1 && Tunes(ops, i, n) && ops[i].c == c && forall j :: i < j < k + 1 ==> !Tunes(ops, j, n);
    }
  }

  /** In every run, on however many channels nodes transmit, the model's transmitters are the
      nodes on the air, and its radios are on the channels they were last tuned to. */
  lemma {:induction false} TransmittersAreOnAir(states: seq<Air>, ops: seq<Op>, n: int, c: Channel, k: nat)
    requires IsFreeRun(states, ops) && k < |states|
    ensures states[k].Transmits(n, c) <==> OnAir(ops, k, n, c)
    ensures n in states[k].radioChannel && states[k].radioChannel[n] == c <==> TunedTo(ops, k, n, c)
    decreases k
  {
    hide OnAir, TunedTo, Apply;
    if k > 0 {
      var j, op := k - 1, ops[k - 1];
      FreeRunIsValid(states, ops, j);
      TransmittersAreOnAir(states, ops, n, c, j);
      if op.Started? {
        TransmittersAreOnAir(states, ops, n, op.c, j);
      }
      OnAirStep(ops, j, n, c);
      TunedStep(ops, j, n, c);
      AirStep(states[j], op, n, c);
    } else {
      StartsSilent(ops, n, c);
    }
  }

  lemma StartsSilent(ops: seq<Op>, n: int, c: Channel)
    ensures !Silence.Transmits(n, c) && !OnAir(ops, 0, n, c) && !TunedTo(ops, 0, n, c)
  {
  }

  lemma AirStep(a: Air, op: Op, n: int, c: Channel)
    requires a.Valid() && Possible(a, op)
    ensures Apply(a, op).Transmits(n, c) <==>
            op == Started(n, c) ||
            (a.Transmits(n, c) && op != Deleted(n) &&
             !(op.Stopped? && op.n == n && (op.c == c || a.radioChannel[n] == c)))
    ensures n in Apply(a, op).radioChannel && Apply(a, op).radioChannel[n] == c <==>
            if op.n == n && (op.Added? || op.Moved? || (op.Started? && !a.Transmits(n, op.c))) then op.c == c
            else n in a.radioChannel && a.radioChannel[n] == c
  {
  }

  ghost function Transmitters(ops: seq<Op>, k: nat, c: Channel): set<int>
    requires k <= |ops|
  {
    set i | 0 <= i < k && OnAir(ops, k, ops[i].n, c) :: ops[i].n
  }

  /** The nodes other than n that were on the air on c at some time since n started there: at
      all times back to the last one when n was silent. */
  ghost function Heard(ops: seq<Op>, n: int, c: Channel, k: nat): set<int>
    requires k <= |ops|
  {
    if !OnAir(ops, k, n, c) then {}
    else (Transmitters(ops, k, c) - {n}) + if k == 0 then {} else Heard(ops, n, c, k - 1)
  }

  lemma ActiveAreTransmitters(states: seq<Air>, ops: seq<Op>, c: Channel, k: nat)
    requires IsFreeRun(states, ops) && k < |states|
    ensures c in states[k].active && states[k].active[c] == Transmitters(ops, k, c)
  {
    FreeRunIsValid(states, ops, k);
    forall n ensures n in states[k].active[c] <==> n in Transmitters(ops, k, c) {
      TransmittersAreOnAir(states, ops, n, c, k);
    }
  }

  // ---------- the record ----------

  /** What was heard, read off the model's own states. */
  ghost function Overlaps(states: seq<Air>, n: int, c: Channel, k: nat): set<int>
    requires k < |states|
  {
    if !states[k].Transmits(n, c) then {}
    else (states[k].active[c] - {n}) + if k == 0 then {} else Overlaps(states, n, c, k - 1)
  }

  lemma {:induction false} OverlapsAreHeard(states: seq<Air>, ops: seq<Op>, n: int, c: Channel, k: nat)
    requires IsFreeRun(states, ops) && k < |states|
    ensures Overlaps(states, n, c, k) == Heard(ops, n, c, k)
    decreases k
  {
    hide OnAir, Transmitters, IsFreeRun;
    TransmittersAreOnAir(states, ops, n, c, k);
    ActiveAreTransmitters(states, ops, c, k);
    if k > 0 {
      OverlapsAreHeard(states, ops, n, c, k - 1);
    }
  }

  /** While a node transmits, its record of interferers is exactly the set of nodes that have
      been on the air on its channel since it started, across stops, aborted starts, deletions
      and nodes that are added again. */
  lemma RecordIsExact(states: seq<Air>, ops: seq<Op>, n: int, c: Channel, k: nat)
    requires IsRun(states, ops) && k < |states| && OnAir(ops, k, n, c)
    ensures n in states[k].interferedBy && states[k].interferedBy[n] == Heard(ops, n, c, k)
  {
    TransmittersAreOnAir(states, ops, n, c, k);
    OverlapsAreHeard(states, ops, n, c, k);
    RecordFollows(states, ops, n, c, k);
  }

  lemma {:induction false} RecordFollows(states: seq<Air>, ops: seq<Op>, n: int, c: Channel, k: nat)
    requires IsRun(states, ops) && k < |states| && states[k].Transmits(n, c)
    ensures n in states[k].interferedBy && states[k].interferedBy[n] == Overlaps(states, n, c, k)
  {
    RunInvariant(states, ops, k);
    if k > 0 {
      RunInvariant(states, ops, k - 1);
      if states[k - 1].Transmits(n, c) {
        RecordFollows(states, ops, n, c, k - 1);
        RecordGrows(states[k - 1], ops[k - 1], n, c);
      } else {
        RecordStarts(states[k - 1], ops[k - 1], n, c);
      }
    }
  }

  lemma RecordStarts(a: Air, op: Op, n: int, c: Channel)
    requires a.Valid() && Allowed(a, op) && !a.Transmits(n, c) && Apply(a, op).Transmits(n, c)
    ensures Apply(a, op).interferedBy[n] == Apply(a, op).active[c] - {n}
  {
    assert op == Started(n, c);
  }

  lemma RecordGrows(a: Air, op: Op, n: int, c: Channel)
    requires a.Valid() && a.OneChannel() && Allowed(a, op)
    requires a.Transmits(n, c) && Apply(a, op).Transmits(n, c)
    requires a.active[c] - {n} <= a.interferedBy[n]
    ensures n in Apply(a, op).interferedBy
    ensures Apply(a, op).interferedBy[n] == a.interferedBy[n] + (Apply(a, op).active[c] - {n})
  {
    if op.Started? && op.c != c {
      assert !a.Transmits(n, op.c);
    }
  }

  /** Nodes that transmit together record each other. */
  lemma SimultaneousRecordEachOther(states: seq<Air>, ops: seq<Op>, m: int, n: int, c: Channel, k: nat)
    requires IsRun(states, ops) && k < |states| && m != n
    requires states[k].Transmits(m, c) && states[k].Transmits(n, c)
    ensures n in states[k].interferedBy && m in states[k].interferedBy
    ensures m in states[k].interferedBy[n] && n in states[k].interferedBy[m]
  {
    RunInvariant(states, ops, k);
    RecordFollows(states, ops, n, c, k);
    RecordFollows(states, ops, m, c, k);
  }

  /** After a transmission the record stays as it was at its end, until the node starts
      again, is deleted or is added: this is when receptions of the frame are judged. */
  lemma RecordIsFrozen(a: Air, op: Op, n: int)
    requires a.Valid() && Allowed(a, op) && n in a.interferedBy
    requires op.n != n || op.Stopped? || op.Moved?
    requires forall c: Channel :: !Apply(a, op).Transmits(n, c)
    ensures Apply(a, op).interferedBy[n] == a.interferedBy[n]
  {
    if op.Started? {
      assert !Apply(a, op).Transmits(n, op.c);
    }
  }

  // ---------- runs in which nodes may transmit on several channels ----------

  /** A node that has not started since it was last added has an empty record, whatever an
      earlier node with its id had heard. */
  lemma {:induction false} NewNodeHeardNobody(states: seq<Air>, ops: seq<Op>, n: int, j: nat, k: nat)
    requires IsFreeRun(states, ops) && j < k <= |ops| && ops[j].Added? && ops[j].n == n
    requires forall i :: j < i < k && ops[i].n == n ==> ops[i].Stopped? || ops[i].Moved?
    ensures n in states[k].interferedBy && states[k].interferedBy[n] == {} && forall c: Channel :: !states[k].Transmits(n, c)
    decreases k
  {
    hide Apply;
    FreeRunIsValid(states, ops, k - 1);
    if k > j + 1 {
      NewNodeHeardNobody(states, ops, n, j, k - 1);
    }
    SilentNodeStep(states[k - 1], ops[k - 1], n);
  }

  lemma SilentNodeStep(a: Air, op: Op, n: int)
    requires a.Valid() && Possible(a, op)
    requires op.n == n ==> op.Added? || op.Stopped? || op.Moved?
    requires !(op.Added? && op.n == n) ==>
               n in a.interferedBy && a.interferedBy[n] == {} && forall c: Channel :: !a.Transmits(n, c)
    ensures var a' := Apply(a, op);
            n in a'.interferedBy && a'.interferedBy[n] == {} && forall c: Channel :: !a'.Transmits(n, c)
  {
    forall c: Channel ensures !Apply(a, op).Transmits(n, c) {
      assert op.Added? && op.n == n ==> !a.Transmits(n, c);
      AirStep(a, op, n, c);
    }
    if op.Started? {
      assert !a.Transmits(n, op.c);
    }
  }

  /** A deleted node leaves no record behind. */
  lemma DeletedNodeLeavesNothing(a: Air, n: int)
    ensures var a' := DeleteNode(a, n);
            n !in a'.nodes && n in a'.interferedBy && a'.interferedBy[n] == {} && forall c: Channel :: !a'.Transmits(n, c)
  {
  }

  /** Nodes are added once and act while they exist; nothing else is asked of them. */
  ghost predicate Possible(a: Air, op: Op) {
    if op.Added? then op.n !in a.nodes else op.n in a.nodes
  }

  ghost predicate IsFreeRun(states: seq<Air>, ops: seq<Op>) {
    |states| == |ops| + 1 && states[0] == Silence &&
    forall k :: 0 <= k < |ops| ==>
      Possible(states[k], ops[k]) && (ops[k].Started? ==> ops[k].c in states[k].active) &&
      states[k + 1] == Apply(states[k], ops[k])
  }

  lemma {:induction false} FreeRunIsValid(states: seq<Air>, ops: seq<Op>, k: nat)
    requires IsFreeRun(states, ops) && k < |states|
    ensures states[k].Valid()
  {
    if k > 0 {
      FreeRunIsValid(states, ops, k - 1);
    }
  }

  /** The op starts a transmission of n on c that is not aborted. */
  ghost predicate Starts(a: Air, op: Op, n: int, c: Channel) {
    op == Started(n, c) && !a.Transmits(n, c)
  }

  /** The op starts a transmission of another node on a channel that n transmits on. */
  ghost predicate Joins(a: Air, op: Op, n: int) {
    op.Started? && op.n != n && !a.Transmits(op.n, op.c) && a.Transmits(n, op.c)
  }

  /** The nodes that joined n in ops i to k, on any of its channels. */
  ghost function Joined(states: seq<Air>, ops: seq<Op>, n: int, i: nat, k: nat): set<int>
    requires |states| == |ops| + 1 && k <= |ops|
  {
    if k <= i then {}
    else Joined(states, ops, n, i, k - 1) + if Joins(states[k - 1], ops[k - 1], n) then {ops[k - 1].n} else {}
  }

  /** Those that joined it on c. */
  ghost function JoinedOn(states: seq<Air>, ops: seq<Op>, n: int, c: Channel, i: nat, k: nat): set<int>
    requires |states| == |ops| + 1 && k <= |ops|
  {
    if k <= i then {}
    else JoinedOn(states, ops, n, c, i, k - 1) +
         if Joins(states[k - 1], ops[k - 1], n) && ops[k - 1].c == c then {ops[k - 1].n} else {}
  }

  /** No op replaces the record of n: it does not start, and is neither added nor deleted. */
  ghost predicate Undisturbed(states: seq<Air>, ops: seq<Op>, n: int, i: nat, k: nat)
    requires |states| == |ops| + 1 && k <= |ops|
  {
    forall j :: i <= j < k && ops[j].n == n ==>
      !ops[j].Added? && !ops[j].Deleted? && (ops[j].Started? ==> states[j].Transmits(n, ops[j].c))
  }

  /** In every run, the record holds the transmitters on the channel of the node's last start
      and the nodes that have joined it since, on whatever channel. */
  lemma {:induction false} RecordSinceLastStart(states: seq<Air>, ops: seq<Op>, n: int, e: Channel, j: nat, k: nat)
    requires IsFreeRun(states, ops) && j < k <= |ops| && Starts(states[j], ops[j], n, e)
    requires Undisturbed(states, ops, n, j + 1, k)
    ensures e in states[j].active && n in states[k].interferedBy
    ensures states[k].interferedBy[n] == states[j].active[e] + Joined(states, ops, n, j + 1, k)
    decreases k
  {
    hide Apply;
    FreeRunIsValid(states, ops, j);
    FreeRunIsValid(states, ops, k - 1);
    if k > j + 1 {
      RecordSinceLastStart(states, ops, n, e, j, k - 1);
      RecordStep(states[k - 1], ops[k - 1], n);
    } else {
      RecordAtStart(states[j], n, e);
    }
  }

  lemma RecordAtStart(a: Air, n: int, e: Channel)
    requires a.Valid() && !a.Transmits(n, e)
    ensures var a' := Apply(a, Started(n, e)); n in a'.interferedBy && a'.interferedBy[n] == a.active[e]
  {
  }

  lemma RecordStep(a: Air, op: Op, n: int)
    requires a.Valid() && Possible(a, op) && n in a.interferedBy
    requires op.n == n ==> !op.Added? && !op.Deleted? && (op.Started? ==> a.Transmits(n, op.c))
    ensures n in Apply(a, op).interferedBy
    ensures Apply(a, op).interferedBy[n] == a.interferedBy[n] + if Joins(a, op, n) then {op.n} else {}
  {
  }

  /** And what it has heard on c grows by the nodes that have joined it there. */
  lemma {:induction false} OverlapsSince(states: seq<Air>, ops: seq<Op>, n: int, c: Channel, i: nat, k: nat)
    requires IsFreeRun(states, ops) && i <= k <= |ops|
    requires forall j :: i <= j <= k ==> states[j].Transmits(n, c)
    ensures Overlaps(states, n, c, k) == Overlaps(states, n, c, i) + JoinedOn(states, ops, n, c, i, k)
    decreases k
  {
    hide Apply, Joins, Possible;
    if i < k {
      FreeRunIsValid(states, ops, k - 1);
      OverlapsSince(states, ops, n, c, i, k - 1);
      assert states[k - 1].Transmits(n, c) && states[k].Transmits(n, c);
      HeardStep(states[k - 1], ops[k - 1], n, c);
      assert states[k - 1].active[c] - {n} <= Overlaps(states, n, c, k - 1);
      assert Overlaps(states, n, c, k) == (states[k].active[c] - {n}) + Overlaps(states, n, c, k - 1);
    }
  }

  /** What a transmitter has heard on c grows exactly by the nodes that join it there. */
  lemma HeardSince(states: seq<Air>, ops: seq<Op>, n: int, c: Channel, i: nat, k: nat)
    requires IsFreeRun(states, ops) && i <= k <= |ops|
    requires forall j :: i <= j <= k ==> states[j].Transmits(n, c)
    ensures Heard(ops, n, c, k) == Heard(ops, n, c, i) + JoinedOn(states, ops, n, c, i, k)
  {
    OverlapsSince(states, ops, n, c, i, k);
    OverlapsAreHeard(states, ops, n, c, i);
    OverlapsAreHeard(states, ops, n, c, k);
  }

  lemma HeardStep(a: Air, op: Op, n: int, c: Channel)
    requires a.Valid() && Possible(a, op) && a.Transmits(n, c) && Apply(a, op).Transmits(n, c)
    ensures Apply(a, op).active[c] - {n} <=
            (a.active[c] - {n}) + if Joins(a, op, n) && op.c == c then {op.n} else {}
    ensures Joins(a, op, n) && op.c == c ==> op.n in Apply(a, op).active[c] - {n}
  {
  }

  /** While n transmits on c, its record is what it has heard there if and only if the
      transmitters it found at its last start, on whatever channel e, and the nodes that joined
      it since on all channels, are those it had heard on c by then and that joined it on c. */
  lemma RecordIsExactIff(states: seq<Air>, ops: seq<Op>, n: int, c: Channel, e: Channel, j: nat, k: nat)
    requires IsFreeRun(states, ops) && j < k <= |ops| && Starts(states[j], ops[j], n, e)
    requires Undisturbed(states, ops, n, j + 1, k)
    requires forall i :: j < i <= k ==> states[i].Transmits(n, c)
    ensures e in states[j].active && n in states[k].interferedBy
    ensures states[k].interferedBy[n] == Heard(ops, n, c, k) <==>
            states[j].active[e] + Joined(states, ops, n, j + 1, k) ==
            Heard(ops, n, c, j + 1) + JoinedOn(states, ops, n, c, j + 1, k)
  {
    RecordSinceLastStart(states, ops, n, e, j, k);
    HeardSince(states, ops, n, c, j + 1, k);
  }

  /** A start on a second channel d keeps the record right for c if and only if d's transmitters
      happen to be the nodes heard on c. */
  lemma SecondChannelReplacesRecord(states: seq<Air>, ops: seq<Op>, n: int, c: Channel, d: Channel, k: nat)
    requires IsFreeRun(states, ops) && k < |ops| && c != d
    requires states[k].Transmits(n, c) && Starts(states[k], ops[k], n, d)
    ensures d in states[k].active && n in states[k + 1].interferedBy
    ensures states[k + 1].Transmits(n, c) && Heard(ops, n, c, k + 1) == Heard(ops, n, c, k)
    ensures states[k + 1].interferedBy[n] == Heard(ops, n, c, k + 1) <==>
            states[k].active[d] == Heard(ops, n, c, k)
  {
    FreeRunIsValid(states, ops, k);
    OverlapsAreHeard(states, ops, n, c, k);
    OverlapsAreHeard(states, ops, n, c, k + 1);
    hide Heard;
    assert states[k + 1].active[c] == states[k].active[c];
    assert states[k].active[c] - {n} <= Overlaps(states, n, c, k);
  }

  /** A node that has been on no other channel since it started on c has an exact record,
      whatever channels the other nodes use. */
  lemma SoloRecordIsExact(states: seq<Air>, ops: seq<Op>, n: int, c: Channel, j: nat, k: nat)
    requires IsFreeRun(states, ops) && j < k <= |ops| && Starts(states[j], ops[j], n, c)
    requires forall i :: j < i <= k ==> states[i].Transmits(n, c)
    requires forall i, d :: j < i <= k && states[i].Transmits(n, d) ==> d == c
    ensures n in states[k].interferedBy && states[k].interferedBy[n] == Heard(ops, n, c, k)
  {
    assert |states| == |ops| + 1;
    hide IsFreeRun, Undisturbed, Heard, OnAir, Apply;
    SoloIsUndisturbed(states, ops, n, c, j, k);
    SoloJoins(states, ops, n, c, j + 1, k);
    RecordIsExactIff(states, ops, n, c, c, j, k);
    OverlapsAreHeard(states, ops, n, c, j + 1);
    HeardAtStart(states, ops, n, c, j);
  }

  lemma HeardAtStart(states: seq<Air>, ops: seq<Op>, n: int, c: Channel, j: nat)
    requires IsFreeRun(states, ops) && j < |ops| && Starts(states[j], ops[j], n, c)
    ensures c in states[j].active && Overlaps(states, n, c, j + 1) == states[j].active[c]
  {
    FreeRunIsValid(states, ops, j);
  }

  lemma SoloIsUndisturbed(states: seq<Air>, ops: seq<Op>, n: int, c: Channel, j: nat, k: nat)
    requires IsFreeRun(states, ops) && j < k <= |ops|
    requires forall i :: j < i <= k ==> states[i].Transmits(n, c)
    requires forall i, d :: j < i <= k && states[i].Transmits(n, d) ==> d == c
    ensures Undisturbed(states, ops, n, j + 1, k)
  {
    forall i | j < i < k && ops[i].n == n
      ensures !ops[i].Added? && !ops[i].Deleted? && (ops[i].Started? ==> states[i].Transmits(n, ops[i].c))
    {
      FreeRunIsValid(states, ops, i);
      assert states[i].Transmits(n, c) && states[i + 1].Transmits(n, c);
      assert ops[i].Started? ==> states[i + 1].Transmits(n, ops[i].c);
    }
  }

  lemma {:induction false} SoloJoins(states: seq<Air>, ops: seq<Op>, n: int, c: Channel, i: nat, k: nat)
    requires |states| == |ops| + 1 && k <= |ops|
    requires forall m, d :: i <= m <= k && states[m].Transmits(n, d) ==> d == c
    ensures Joined(states, ops, n, i, k) == JoinedOn(states, ops, n, c, i, k)
  {
    if i < k {
      SoloJoins(states, ops, n, c, i, k - 1);
    }
  }

  /** Nodes 1 and 2 transmit on channel 11. */
  function Together(): Air {
    Air({1, 2}, NoTransmitters()[11 := {1, 2}], map[1 := {2}, 2 := {1}], map[1 := 11, 2 := 11])
  }

  /** Then node 1 starts on channel 12 as well. */
  function Apart(): Air {
    Air({1, 2}, NoTransmitters()[11 := {1, 2}][12 := {1}], map[1 := {}, 2 := {1}], map[1 := 12, 2 := 11])
  }

  function Alone(): Air {
    Air({1, 2}, NoTransmitters()[11 := {2}], map[1 := {}, 2 := {}], map[1 := 11, 2 := 11])
  }

  function Listeners(): Air {
    Air({1, 2}, NoTransmitters(), map[1 := {}, 2 := {}], map[1 := 11, 2 := 11])
  }

  lemma ToListeners()
    ensures AddNode(AddNode(Silence, 1, 11), 2, 11) == Listeners()
  {
  }

  lemma ToAlone()
    ensures TxStart(Listeners(), 2, 11) == Alone()
  {
    var a := TxStart(Listeners(), 2, 11);
    assert Listeners().active[11] + {2} == {2};
    assert a.active == Alone().active;
    assert a.interferedBy == Alone().interferedBy;
  }

  lemma ToTogether()
    ensures TxStart(Alone(), 1, 11) == Together()
  {
    var a := TxStart(Alone(), 1, 11);
    assert Alone().active[11] + {1} == {1, 2};
    assert Alone().interferedBy[2] + {1} == {1};
    assert a.active == Together().active;
    assert a.interferedBy == Together().interferedBy;
  }

  lemma ToApart()
    ensures TxStart(Together(), 1, 12) == Apart()
  {
    var a := TxStart(Together(), 1, 12);
    assert Together().active[12] + {1} == {1};
    assert a.active == Apart().active;
    assert a.interferedBy == Apart().interferedBy;
    assert a.radioChannel == Apart().radioChannel;
  }

  /** A run in which a second start loses the only interferer. */
  lemma SecondChannelLosesInterferer()
    ensures var ops := [Added(1, 11), Added(2, 11), Started(2, 11), Started(1, 11), Started(1, 12)];
            exists states: seq<Air> :: IsFreeRun(states, ops) && 1 in states[5].interferedBy &&
              states[5].interferedBy[1] == {} && Heard(ops, 1, 11, 5) == {2}
  {
    var ops := [Added(1, 11), Added(2, 11), Started(2, 11), Started(1, 11), Started(1, 12)];
    var states := [Silence, AddNode(Silence, 1, 11), Listeners(), Alone(), Together(), Apart()];
    ToListeners();
    ToAlone();
    ToTogether();
    ToApart();
    assert IsFreeRun(states, ops) by {
      hide TxStart, AddNode;
      forall k | 0 <= k < 5
        ensures Possible(states[k], ops[k]) && (ops[k].Started? ==> ops[k].c in states[k].active) &&
                states[k + 1] == Apply(states[k], ops[k])
      {
        FirstNode();
        FiveSteps(states, ops, k);
      }
    }
    OverlapsAreHeard(states, ops, 1, 11, 5);
    OverlapsAtLast(states);
  }

  lemma FirstNode()
    ensures AddNode(Silence, 1, 11).nodes == {1}
  {
  }

  lemma FiveSteps(states: seq<Air>, ops: seq<Op>, k: nat)
    requires states == [Silence, AddNode(Silence, 1, 11), Listeners(), Alone(), Together(), Apart()]
    requires ops == [Added(1, 11), Added(2, 11), Started(2, 11), Started(1, 11), Started(1, 12)] && k < 5
    requires AddNode(AddNode(Silence, 1, 11), 2, 11) == Listeners() && AddNode(Silence, 1, 11).nodes == {1}
    requires TxStart(Listeners(), 2, 11) == Alone() && TxStart(Alone(), 1, 11) == Together()
    requires TxStart(Together(), 1, 12) == Apart()
    ensures Possible(states[k], ops[k]) && (ops[k].Started? ==> ops[k].c in states[k].active)
    ensures states[k + 1] == Apply(states[k], ops[k])
  {
    hide TxStart, AddNode;
  }

  lemma OverlapsAtLast(states: seq<Air>)
    requires |states| == 6 && states[3] == Alone() && states[4] == Together() && states[5] == Apart()
    ensures Overlaps(states, 1, 11, 5) == {2}
  {
    assert Overlaps(states, 1, 11, 3) == {};
    assert Overlaps(states, 1, 11, 4) == {2};
  }

  // ---------- the radio model object ----------

  class RadioModel {
    var nodes: set<int>
    var active: map<Channel, set<int>>
    var interferedBy: map<int, set<int>>
    var radioChannel: map<int, Channel>

    ghost function State(): Air reads this {
      Air(nodes, active, interferedBy, radioChannel)
    }

    constructor ()
      ensures State() == Silence && State().Valid()
    {
      nodes, interferedBy, radioChannel := {}, map[], map[];
      active := NoTransmitters();
    }

    method Add(n: int, c: Channel)
      requires State().Valid() && n !in nodes
      modifies this
      ensures State().Valid() && State() == AddNode(old(State()), n, c)
    {
      nodes := nodes + {n};
      radioChannel := radioChannel[n := c];
      interferedBy := interferedBy[n := {}];
    }

    method Delete(n: int)
      requires State().Valid() && n in nodes
      modifies this
      ensures State().Valid() && State() == DeleteNode(old(State()), n)
    {
      nodes := nodes - {n};
      var c := 0;
      while c <= MAX_CHANNEL
        invariant 0 <= c <= MAX_CHANNEL + 1
        invariant active.Keys == old(active).Keys
        invariant forall d: Channel :: active[d] == if d < c then old(active[d]) - {n} else old(active[d])
        invariant nodes == old(nodes) - {n} && unchanged(`interferedBy) && unchanged(`radioChannel)
      {
        active := active[c := active[c] - {n}];
        c := c + 1;
      }
      interferedBy := interferedBy[n := {}];
      assert active == DeleteNode(old(State()), n).active;
    }

    /** Records mutual interference with every transmitter on the channel; tells whether the
        start was aborted. */
    method Start(n: int, c: Channel) returns (aborted: bool)
      requires State().Valid() && n in nodes
      modifies this
      ensures State().Valid() && State() == TxStart(old(State()), n, c)
      ensures aborted <==> old(State()).Transmits(n, c)
    {
      aborted := n in active[c];
      if aborted {
        return;
      }
      radioChannel := radioChannel[n := c];
      MarkOverlaps(n, active[c]);
      active := active[c := active[c] + {n}];
    }

    method MarkOverlaps(n: int, transmitters: set<int>)
      requires n !in transmitters && transmitters <= interferedBy.Keys
      modifies this`interferedBy
      ensures interferedBy == Marked(old(interferedBy), n, transmitters)
    {
      interferedBy := interferedBy[n := {}];
      var others := transmitters;
      ghost var done: set<int> := {};
      assert interferedBy == Marked(old(interferedBy), n, done);
      while others != {}
        invariant others <= transmitters && done == transmitters - others
        invariant interferedBy == Marked(old(interferedBy), n, done)
        decreases |others|
      {
        NodeOrder.NonEmpty(others);
        var id :| id in others;
        MarkOneMore(old(interferedBy), n, done, id);
        interferedBy := interferedBy[n := interferedBy[n] + {id}];
        interferedBy := interferedBy[id := interferedBy[id] + {n}];
        others := others - {id};
        done := done + {id};
      }
      assert done == transmitters;
    }

    method Stop(n: int, c: Channel)
      requires State().Valid() && n in nodes
      modifies this
      ensures State().Valid() && State() == TxStop(old(State()), n, c)
    {
      var ch := radioChannel[n];
      if c != ch {
        active := active[ch := active[ch] - {n}];
      }
      active := active[c := active[c] - {n}];
      assert active == TxStop(old(State()), n, c).active;
    }

    method MoveTo(n: int, c: Channel)
      requires State().Valid() && n in nodes
      modifies this
      ensures State().Valid() && State() == SetChannel(old(State()), n, c)
    {
      radioChannel := radioChannel[n := c];
    }
  }
}
