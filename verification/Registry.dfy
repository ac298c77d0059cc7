/** Which node has which address: the dispatcher's maps from extended and short addresses to
    nodes (dispatcher.go, rloc16_map.go). */
module Registry {

  const INVALID_EXT_ADDR := 0xffff_ffff_ffff_ffff
  const INVALID_RLOC16 := 0xfffe

  datatype Address = Address(extAddr: nat, rloc16: nat)

  /** The address fields of the nodes, and the maps that lead back to the nodes. Several nodes
      may have the same short address. */
  datatype Maps = Maps(nodes: map<int, Address>, byExtAddr: map<nat, int>, byRloc16: map<nat, seq<int>>)

  const NoNodes := Maps(map[], map[], map[])

  function At(m: map<nat, seq<int>>, r: nat): seq<int> {
    if r in m then m[r] else []
  }

  /** The list without the first occurrence of n. */
  function Without(list: seq<int>, n: int): seq<int> {
    if list == [] then [] else if list[0] == n then list[1..] else [list[0]] + Without(list[1..], n)
  }

  // ---------- the operations ----------

  function AddNode(s: Maps, n: int): Maps {
    s.(nodes := s.nodes[n := Address(INVALID_EXT_ADDR, INVALID_RLOC16)])
  }

  function SetRloc16(s: Maps, n: int, r: nat): Maps
    requires n in s.nodes
  {
    var was := s.nodes[n].rloc16;
    var left := if was == INVALID_RLOC16 then s.byRloc16 else s.byRloc16[was := Without(At(s.byRloc16, was), n)];
    s.(nodes := s.nodes[n := s.nodes[n].(rloc16 := r)],
       byRloc16 := if r == INVALID_RLOC16 then left else left[r := At(left, r) + [n]])
  }

  function SetExtAddr(s: Maps, n: int, a: nat): Maps
    requires n in s.nodes
  {
    var was := s.nodes[n].extAddr;
    if was == a then s
    else s.(nodes := s.nodes[n := s.nodes[n].(extAddr := a)],
            byExtAddr := (if was == INVALID_EXT_ADDR then s.byExtAddr else s.byExtAddr - {was})[a := n])
  }

  function DeleteNode(s: Maps, n: int): Maps
    requires n in s.nodes
  {
    var was := s.nodes[n];
    s.(nodes := s.nodes - {n},
       byRloc16 := if was.rloc16 == INVALID_RLOC16 then s.byRloc16
                   else s.byRloc16[was.rloc16 := Without(At(s.byRloc16, was.rloc16), n)],
       byExtAddr := if was.extAddr == INVALID_EXT_ADDR then s.byExtAddr else s.byExtAddr - {was.extAddr})
  }

  // ---------- exact inverses ----------

  ghost predicate HasExtAddr(s: Maps, n: int, a: nat) {
    a != INVALID_EXT_ADDR && n in s.nodes && s.nodes[n].extAddr == a
  }

  ghost predicate HasRloc16(s: Maps, n: int, r: nat) {
    r != INVALID_RLOC16 && n in s.nodes && s.nodes[n].rloc16 == r
  }

  ghost predicate NoRepeats(list: seq<int>) {
    forall i, j :: 0 <= i < j < |list| ==> list[i] != list[j]
  }

  ghost predicate Inverse(s: Maps) {
    (forall a, n :: a in s.byExtAddr && s.byExtAddr[a] == n <==> HasExtAddr(s, n, a)) &&
    (forall r, n :: n in At(s.byRloc16, r) <==> HasRloc16(s, n, r)) &&
    (forall r :: NoRepeats(At(s.byRloc16, r)))
  }

  /** No other node has the extended address. */
  ghost predicate Unused(s: Maps, n: int, a: nat) {
    forall m :: m != n ==> !HasExtAddr(s, m, a)
  }

  lemma {:induction false} WithoutRemoves(list: seq<int>, n: int)
    requires NoRepeats(list)
    ensures NoRepeats(Without(list, n)) && forall m :: m in Without(list, n) <==> m in list && m != n
    ensures n !in list ==> Without(list, n) == list
  {
    if list != [] {
      if list[0] == n {
        assert forall m :: m in list <==> m == n || m in list[1..];
      } else {
        var rest := Without(list[1..], n);
        WithoutRemoves(list[1..], n);
        assert forall m :: m in list <==> m == list[0] || m in list[1..];
        assert list[0] !in rest;
        forall i, j | 0 <= i < j < |rest| + 1 ensures ([list[0]] + rest)[i] != ([list[0]] + rest)[j] {
          assert ([list[0]] + rest)[j] == rest[j - 1] && rest[j - 1] in rest;
        }
      }
    }
  }

  lemma AddNodeKeeps(s: Maps, n: int)
    requires Inverse(s) && n !in s.nodes
    ensures Inverse(AddNode(s, n))
  {
    var s' := AddNode(s, n);
    assert forall m, a :: HasExtAddr(s', m, a) <==> HasExtAddr(s, m, a);
    assert forall m, r :: HasRloc16(s', m, r) <==> HasRloc16(s, m, r);
  }

  lemma SetRloc16Keeps(s: Maps, n: int, r: nat)
    requires Inverse(s) && n in s.nodes
    ensures Inverse(SetRloc16(s, n, r))
  {
    var s' := SetRloc16(s, n, r);
    var was := s.nodes[n].rloc16;
    WithoutRemoves(At(s.byRloc16, was), n);
    assert forall m, a :: HasExtAddr(s', m, a) <==> HasExtAddr(s, m, a);
    forall q, m ensures m in At(s'.byRloc16, q) <==> HasRloc16(s', m, q) {
      assert m in At(s.byRloc16, q) <==> HasRloc16(s, m, q);
    }
    forall q ensures NoRepeats(At(s'.byRloc16, q)) {
      assert NoRepeats(At(s.byRloc16, q));
      assert n in At(s.byRloc16, q) <==> HasRloc16(s, n, q);
    }
  }

  /** Setting an extended address keeps the maps inverse, and its own assertions true, if and
      only if no other node has the address. */
  lemma SetExtAddrKeeps(s: Maps, n: int, a: nat)
    requires Inverse(s) && n in s.nodes && a != INVALID_EXT_ADDR
    ensures Inverse(SetExtAddr(s, n, a)) <==> Unused(s, n, a)
    ensures s.nodes[n].extAddr != a ==> (a !in s.byExtAddr <==> Unused(s, n, a))
  {
    var s' := SetExtAddr(s, n, a);
    var was := s.nodes[n].extAddr;
    assert forall m, b :: b in s.byExtAddr && s.byExtAddr[b] == m <==> HasExtAddr(s, m, b);
    assert was != INVALID_EXT_ADDR ==> HasExtAddr(s, n, was);
    if was != a {
      assert forall m, r :: HasRloc16(s', m, r) <==> HasRloc16(s, m, r);
      if Unused(s, n, a) {
        forall b, m ensures b in s'.byExtAddr && s'.byExtAddr[b] == m <==> HasExtAddr(s', m, b) {
          assert b in s.byExtAddr && s.byExtAddr[b] == m <==> HasExtAddr(s, m, b);
        }
      } else {
        var m :| m != n && HasExtAddr(s, m, a);
        assert HasExtAddr(s', m, a) && s'.byExtAddr[a] == n;
      }
      if a in s.byExtAddr {
        assert HasExtAddr(s, s.byExtAddr[a], a);
      }
    }
  }

  lemma DeleteNodeKeeps(s: Maps, n: int)
    requires Inverse(s) && n in s.nodes
    ensures Inverse(DeleteNode(s, n))
  {
    var s' := DeleteNode(s, n);
    var was := s.nodes[n];
    WithoutRemoves(At(s.byRloc16, was.rloc16), n);
    forall b, m ensures b in s'.byExtAddr && s'.byExtAddr[b] == m <==> HasExtAddr(s', m, b) {
      assert b in s.byExtAddr && s.byExtAddr[b] == m <==> HasExtAddr(s, m, b);
      assert was.extAddr in s.byExtAddr && s.byExtAddr[was.extAddr] == n <==> HasExtAddr(s, n, was.extAddr);
    }
    forall q, m ensures m in At(s'.byRloc16, q) <==> HasRloc16(s', m, q) {
      assert m in At(s.byRloc16, q) <==> HasRloc16(s, m, q);
    }
    forall q ensures NoRepeats(At(s'.byRloc16, q)) {
      assert NoRepeats(At(s.byRloc16, q));
    }
  }

  // ---------- every run ----------

  datatype Op = Adds(n: int) | Deletes(n: int) | SetsRloc16(n: int, r: nat) | SetsExtAddr(n: int, a: nat)

  /** Extended addresses are unique; everything else is up to the nodes. */
  ghost predicate Allowed(s: Maps, op: Op) {
    match op
    case Adds(n) => n !in s.nodes
    case SetsExtAddr(n, a) => n in s.nodes && a != INVALID_EXT_ADDR && Unused(s, n, a)
    case _ => op.n in s.nodes
  }

  function Apply(s: Maps, op: Op): Maps
    requires op.Adds? || op.n in s.nodes
  {
    match op
    case Adds(n) => AddNode(s, n)
    case Deletes(n) => DeleteNode(s, n)
    case SetsRloc16(n, r) => SetRloc16(s, n, r)
    case SetsExtAddr(n, a) => SetExtAddr(s, n, a)
  }

  ghost predicate IsRun(states: seq<Maps>, ops: seq<Op>) {
    |states| == |ops| + 1 && states[0] == NoNodes &&
    forall k :: 0 <= k < |ops| ==> Allowed(states[k], ops[k]) && states[k + 1] == Apply(states[k], ops[k])
  }

  lemma {:induction false} RegistryIsConsistent(states: seq<Maps>, ops: seq<Op>, k: nat)
    requires IsRun(states, ops) && k < |states|
    ensures Inverse(states[k])
  {
    if k > 0 {
      RegistryIsConsistent(states, ops, k - 1);
      var s := states[k - 1];
      match ops[k - 1] {
        case Adds(n) => AddNodeKeeps(s, n);
        case Deletes(n) => DeleteNodeKeeps(s, n);
        case SetsRloc16(n, r) => SetRloc16Keeps(s, n, r);
        case SetsExtAddr(n, a) => SetExtAddrKeeps(s, n, a);
      }
    }
  }

  // ---------- what the nodes said ----------

  /** Whether node n exists, and the addresses it last told of, from the operations alone. */
  ghost predicate Exists(ops: seq<Op>, n: int) {
    ops != [] &&
    var op := ops[|ops| - 1];
    if op.n == n && (op.Adds? || op.Deletes?) then op.Adds? else Exists(ops[..|ops| - 1], n)
  }

  ghost function ToldRloc16(ops: seq<Op>, n: int): nat {
    if ops == [] || ops[|ops| - 1] == Adds(n) then INVALID_RLOC16
    else if ops[|ops| - 1].SetsRloc16? && ops[|ops| - 1].n == n then ops[|ops| - 1].r
    else ToldRloc16(ops[..|ops| - 1], n)
  }

  ghost function ToldExtAddr(ops: seq<Op>, n: int): nat {
    if ops == [] || ops[|ops| - 1] == Adds(n) then INVALID_EXT_ADDR
    else if ops[|ops| - 1].SetsExtAddr? && ops[|ops| - 1].n == n then ops[|ops| - 1].a
    else ToldExtAddr(ops[..|ops| - 1], n)
  }

  lemma {:induction false} FieldsAreTold(states: seq<Maps>, ops: seq<Op>, n: int, k: nat)
    requires IsRun(states, ops) && k < |states|
    ensures n in states[k].nodes <==> Exists(ops[..k], n)
    ensures n in states[k].nodes ==> states[k].nodes[n] == Address(ToldExtAddr(ops[..k], n), ToldRloc16(ops[..k], n))
  {
    if k > 0 {
      FieldsAreTold(states, ops, n, k - 1);
      assert ops[..k][..k - 1] == ops[..k - 1] && ops[..k][k - 1] == ops[k - 1];
    }
  }

  /** In every run the maps lead from an address to exactly the nodes that have last told that
      it is theirs. */
  lemma LookupIsExact(states: seq<Maps>, ops: seq<Op>, k: nat, n: int, a: nat, r: nat)
    requires IsRun(states, ops) && k < |states|
    ensures a in states[k].byExtAddr && states[k].byExtAddr[a] == n <==>
            a != INVALID_EXT_ADDR && Exists(ops[..k], n) && ToldExtAddr(ops[..k], n) == a
    ensures n in At(states[k].byRloc16, r) <==>
            r != INVALID_RLOC16 && Exists(ops[..k], n) && ToldRloc16(ops[..k], n) == r
  {
    RegistryIsConsistent(states, ops, k);
    FieldsAreTold(states, ops, n, k);
    assert a in states[k].byExtAddr && states[k].byExtAddr[a] == n <==> HasExtAddr(states[k], n, a);
    assert n in At(states[k].byRloc16, r) <==> HasRloc16(states[k], n, r);
  }

  // ---------- the maps as an object ----------

  method ListContains(list: seq<int>, n: int) returns (found: bool)
    ensures found <==> n in list
  {
    var i := 0;
    while i < |list|
      invariant 0 <= i <= |list| && n !in list[..i]
    {
      if list[i] == n {
        return true;
      }
      i := i + 1;
    }
    return false;
  }

  method RemoveFromList(list: seq<int>, n: int) returns (rest: seq<int>)
    ensures rest == Without(list, n)
  {
    var i := 0;
    while i < |list|
      invariant 0 <= i <= |list|
      invariant Without(list, n) == list[..i] + Without(list[i..], n)
    {
      assert list[i..][0] == list[i] && list[i..][1..] == list[i + 1..];
      if list[i] == n {
        return list[..i] + list[i + 1..];
      }
      assert list[..i] + [list[i]] == list[..i + 1];
      i := i + 1;
    }
    assert list[i..] == [] && list[..i] == list;
    return list;
  }

  class AddressBook {
    var nodes: map<int, Address>
    var byExtAddr: map<nat, int>
    var byRloc16: map<nat, seq<int>>

    ghost function View(): Maps reads this {
      Maps(nodes, byExtAddr, byRloc16)
    }

    constructor ()
      ensures View() == NoNodes && Inverse(View())
    {
      nodes, byExtAddr, byRloc16 := map[], map[], map[];
    }

    /** The four assertions of the short-address map hold whenever it is the exact inverse. */
    method RemoveRloc16(r: nat, n: int)
      requires r != INVALID_RLOC16 && n in At(byRloc16, r) && NoRepeats(At(byRloc16, r))
      modifies this`byRloc16
      ensures byRloc16 == old(byRloc16)[r := Without(old(At(byRloc16, r)), n)]
    {
      WithoutRemoves(At(byRloc16, r), n);
      var list := if r in byRloc16 then byRloc16[r] else [];
      var before := ListContains(list, n);
      assert before;
      var rest := RemoveFromList(list, n);
      byRloc16 := byRloc16[r := rest];
      var after := ListContains(rest, n);
      assert !after;
    }

    method AddRloc16(r: nat, n: int)
      requires r != INVALID_RLOC16 && n !in At(byRloc16, r)
      modifies this`byRloc16
      ensures byRloc16 == old(byRloc16)[r := old(At(byRloc16, r)) + [n]]
    {
      var list := if r in byRloc16 then byRloc16[r] else [];
      var before := ListContains(list, n);
      assert !before;
      byRloc16 := byRloc16[r := list + [n]];
      var after := ListContains(byRloc16[r], n);
      assert after;
    }

    method SetNodeRloc16(n: int, r: nat)
      requires Inverse(View()) && n in nodes
      modifies this
      ensures Inverse(View()) && View() == SetRloc16(old(View()), n, r)
    {
      SetRloc16Keeps(View(), n, r);
      var was := nodes[n].rloc16;
      assert was != INVALID_RLOC16 ==> HasRloc16(View(), n, was);
      WithoutRemoves(At(byRloc16, was), n);
      assert n in At(byRloc16, r) <==> HasRloc16(View(), n, r);
      if was != INVALID_RLOC16 {
        RemoveRloc16(was, n);
      }
      nodes := nodes[n := nodes[n].(rloc16 := r)];
      if r != INVALID_RLOC16 {
        AddRloc16(r, n);
      }
    }

    method OnStatusPushExtAddr(n: int, a: nat)
      requires Inverse(View()) && n in nodes && a != INVALID_EXT_ADDR && Unused(View(), n, a)
      modifies this
      ensures Inverse(View()) && View() == SetExtAddr(old(View()), n, a)
    {
      SetExtAddrKeeps(View(), n, a);
      var was := nodes[n].extAddr;
      if was == a {
        return;
      }
      assert was != INVALID_EXT_ADDR ==> HasExtAddr(View(), n, was);
      assert INVALID_EXT_ADDR in byExtAddr ==> HasExtAddr(View(), byExtAddr[INVALID_EXT_ADDR], INVALID_EXT_ADDR);
      nodes := nodes[n := nodes[n].(extAddr := a)];
      if was == INVALID_EXT_ADDR {
        assert was !in byExtAddr;
      } else {
        assert byExtAddr[was] == n;
        byExtAddr := byExtAddr - {was};
      }
      assert a !in byExtAddr;
      byExtAddr := byExtAddr[a := n];
    }

    method Add(n: int)
      requires Inverse(View()) && n !in nodes
      modifies this`nodes
      ensures Inverse(View()) && View() == AddNode(old(View()), n)
    {
      AddNodeKeeps(View(), n);
      nodes := nodes[n := Address(INVALID_EXT_ADDR, INVALID_RLOC16)];
    }

    method Delete(n: int)
      requires Inverse(View()) && n in nodes
      modifies this
      ensures Inverse(View()) && View() == DeleteNode(old(View()), n)
    {
      DeleteNodeKeeps(View(), n);
      var was := nodes[n];
      assert was.rloc16 != INVALID_RLOC16 ==> HasRloc16(View(), n, was.rloc16);
      assert was.extAddr != INVALID_EXT_ADDR ==> HasExtAddr(View(), n, was.extAddr);
      nodes := nodes - {n};
      if was.rloc16 != INVALID_RLOC16 {
        RemoveRloc16(was.rloc16, n);
      }
      if was.extAddr != INVALID_EXT_ADDR {
        assert byExtAddr[was.extAddr] == n;
        byExtAddr := byExtAddr - {was.extAddr};
      }
    }
  }
}
