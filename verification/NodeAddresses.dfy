/** The addresses of an environment's nodes inside its subnet. */
module NodeAddresses {
  import opened Base
  import opened Subnets

  const FirstNode: nat := 10

  /** So many steps of Next from the network's own address. */
  function Advance(p: Prefix, steps: nat): Option<Address> {
    if steps == 0 then Some(p.First()) else Next(Advance(p, steps - 1))
  }

  function NodeAddress(p: Prefix, index: nat): Option<Address> { Advance(p, FirstNode + index) }

  /** The node's address and the one after it are both in the subnet. */
  predicate Fits(p: Prefix, index: nat) {
    ContainsSome(p, NodeAddress(p, index)) && ContainsSome(p, Next(NodeAddress(p, index)))
  }

  /** A node that was addressed before must keep its address. */
  predicate Keeps(p: Prefix, nodes: seq<Option<Address>>, index: nat)
    requires index < |nodes|
  {
    nodes[index].None? || nodes[index] == NodeAddress(p, index)
  }

  /** The first node in order that cannot be addressed decides the error: too small a subnet, or another address. */
  method AssignAddresses(nodes: seq<Option<Address>>, subnet: Option<Prefix>) returns (r: Outcome<seq<Option<Address>>>)
    ensures subnet.None? ==> r == Err(Invalid)
    ensures subnet.Some? ==>
              (r.Ok? <==> forall i | 0 <= i < |nodes| :: Fits(subnet.value, i) && Keeps(subnet.value, nodes, i))
    ensures r.Ok? ==> |r.value| == |nodes| && forall i | 0 <= i < |nodes| :: r.value[i] == NodeAddress(subnet.value, i)
    ensures subnet.Some? && r.Err? ==>
              exists i | 0 <= i < |nodes| ::
                && (forall j | 0 <= j < i :: Fits(subnet.value, j) && Keeps(subnet.value, nodes, j))
                && r.error == (if Fits(subnet.value, i) then Conflict else Invalid)
  {
    if subnet.None? { return Err(Invalid); }
    var p := subnet.value;
    var base := p.First();
    var result := nodes;
    for index := 0 to |nodes|
      invariant |result| == |nodes|
      invariant forall i | 0 <= i < index :: Fits(p, i) && Keeps(p, nodes, i) && result[i] == NodeAddress(p, i)
      invariant forall i | index <= i < |nodes| :: result[i] == nodes[i]
    {
      var address: Option<Address> := Some(base);
      for offset := 0 to FirstNode + index
        invariant address == Advance(p, offset)
      {
        address := Next(address);
      }
      if address.None? || !p.Contains(address.value) || !ContainsSome(p, Next(address)) {
        assert !Fits(p, index);
        return Err(Invalid);
      }
      if result[index].Some? && result[index] != address {
        assert Fits(p, index) && !Keeps(p, nodes, index);
        return Err(Conflict);
      }
      result := result[index := address];
    }
    return Ok(result);
  }

  lemma {:induction false} AdvanceIs(p: Prefix, steps: nat)
    ensures Advance(p, steps) == if p.First() + steps < AddressSpace then Some(p.First() + steps) else None
  {
    if steps > 0 { AdvanceIs(p, steps - 1); }
  }

  lemma EndsInSpace(p: Prefix)
    ensures p.First() + Size(p.bits) <= AddressSpace
  {
    MaskedContains(p, p.addr);
    PoolFits(p.Masked());
  }

  /** A node fits exactly when its address and the last of the subnet are two. */
  lemma FitsIff(p: Prefix, index: nat)
    ensures Fits(p, index) <==> FirstNode + index + 1 < Size(p.bits)
    ensures Fits(p, index) ==> NodeAddress(p, index) == Some(p.First() + FirstNode + index)
  {
    hide Size;
    AdvanceIs(p, FirstNode + index);
    EndsInSpace(p);
    if p.First() + FirstNode + index < AddressSpace {
      ContainsIsRange(p, p.First() + FirstNode + index);
      if p.First() + FirstNode + index + 1 < AddressSpace {
        ContainsIsRange(p, p.First() + FirstNode + index + 1);
      }
    }
  }

  /** Node addresses are distinct, inside the subnet, and none is the network's, the gateway's or the last one. */
  lemma AddressesAreFree(p: Prefix, i: nat, j: nat)
    requires Fits(p, i) && Fits(p, j)
    ensures NodeAddress(p, i).Some? && p.Contains(NodeAddress(p, i).value)
    ensures i != j ==> NodeAddress(p, i) != NodeAddress(p, j)
    ensures NodeAddress(p, i).value != p.First() && NodeAddress(p, i) != Gateway(p)
    ensures NodeAddress(p, i).value != p.First() + Size(p.bits) - 1
  {
    hide Size;
    FitsIff(p, i);
    FitsIff(p, j);
  }

  /** So many nodes all find their place. */
  predicate AllFit(p: Prefix, count: nat) { forall index | 0 <= index < count :: Fits(p, index) }

  /** The bound the configuration checks is exact: no allowed number of nodes is ever too many for a subnet
      of the configured length, and the bound is the weakest that says so. */
  lemma BoundIsExact(p: Prefix, maxNodes: nat)
    requires maxNodes >= 1
    ensures Pow2(32 - p.bits) > 10 + maxNodes
            <==> forall count | 0 <= count <= maxNodes :: AllFit(p, count)
  {
    forall index: nat ensures Fits(p, index) <==> FirstNode + index + 1 < Size(p.bits) {
      FitsIff(p, index);
    }
    if forall count | 0 <= count <= maxNodes :: AllFit(p, count) {
      assert AllFit(p, maxNodes);
      assert Fits(p, maxNodes - 1);
    }
  }

  /** Of the configurations with a usable pool, exactly the valid ones give every slot room for every allowed
      number of nodes. */
  lemma ValidConfigFits(c: Config)
    requires ValidPool(c)
    ensures ValidConfig(c)
            <==> c.maxNodes >= 1 && forall slot, count | 0 <= slot < SlotCount(c) && 0 <= count <= c.maxNodes ::
                   AllFit(ChildSubnet(c.pool, c.bits, slot), count)
  {
    hide SlotCount, AllFit, ChildSubnet, ValidConfig;
    NodesArePositive(c);
    if c.maxNodes >= 1 {
      forall slot: nat {
        SlotFits(c, slot);
      }
    }
    SomeSlot(c);
    if !ValidConfig(c) && c.maxNodes >= 1 {
      var count: nat :| count <= c.maxNodes && !AllFit(ChildSubnet(c.pool, c.bits, 0), count);
    }
  }

  lemma SlotFits(c: Config, slot: nat)
    requires ValidPool(c) && c.maxNodes >= 1
    ensures ValidConfig(c) <==> forall count | 0 <= count <= c.maxNodes :: AllFit(ChildSubnet(c.pool, c.bits, slot), count)
  {
    hide Pow2, IsPrivate, AllFit;
    BoundIsExact(ChildSubnet(c.pool, c.bits, slot), c.maxNodes);
  }

  lemma NodesArePositive(c: Config)
    ensures ValidConfig(c) ==> c.maxNodes >= 1
  {
  }

  lemma SomeSlot(c: Config)
    requires ValidPool(c)
    ensures SlotCount(c) >= 1
  {
  }

  /** Assigning again, on the result of an assignment, succeeds and changes nothing. */
  method AssignTwice(nodes: seq<Option<Address>>, p: Prefix) returns (first: Outcome<seq<Option<Address>>>, second: Outcome<seq<Option<Address>>>)
    ensures first.Ok? ==> second == first
  {
    first := AssignAddresses(nodes, Some(p));
    if first.Ok? {
      second := AssignAddresses(first.value, Some(p));
      assert second.Ok?;
      assert second.value == first.value;
    } else {
      second := first;
    }
  }
}
