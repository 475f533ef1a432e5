/**
 * Packet Replication Engine (PRE) values: multicast group entries, the
 * entity and update that carry them, and the replica list built from a
 * port list.
 */
module Replication {
  import opened Base

  /** One copy of a packet: the egress port and the copy's instance number. */
  datatype Replica = Replica(egressPort: uint32, instance: uint32)

  datatype MulticastGroupEntry = MulticastGroupEntry(multicastGroupId: uint32, replicas: seq<Replica>)

  /** The PacketReplicationEngineEntry oneof, as far as these operations fill it. */
  datatype PreEntry = MulticastGroup(multicastGroupEntry: MulticastGroupEntry)

  /**
   * The Entity oneof, as far as these operations fill it. The result of a
   * read is limited in the same way: the model's ReadEntitySingle can only
   * return a multicast group entry, where the real read returns any entity.
   */
  datatype Entity = PacketReplicationEngineEntity(preEntry: PreEntry)

  datatype UpdateType = UnspecifiedUpdate | Insert | Modify | Delete

  datatype Update = Update(updateType: UpdateType, entity: Entity)

  /**
   * The replica list InsertMulticastGroup builds: one replica per port, in
   * input order, the k-th (from 1) numbered uint32(k). Defined the way the
   * loop builds it, by appending.
   */
  function ReplicasFor(ports: seq<uint32>): (rs: seq<Replica>)
    ensures |rs| == |ports|
    ensures forall i :: 0 <= i < |ports| ==> rs[i] == Replica(ports[i], ToUint32(i + 1))
    decreases |ports|
  {
    if |ports| == 0 then []
    else ReplicasFor(ports[..|ports| - 1]) + [Replica(ports[|ports| - 1], ToUint32(|ports|))]
  }

  /** The loop of InsertMulticastGroup: the entry for mgid with one replica appended per port. */
  method BuildMulticastGroupEntry(mgid: uint32, ports: seq<uint32>) returns (entry: MulticastGroupEntry)
    ensures entry.multicastGroupId == mgid
    ensures entry.replicas == ReplicasFor(ports)
  {
    entry := MulticastGroupEntry(mgid, []);
    for idx := 0 to |ports|
      invariant entry.multicastGroupId == mgid
      invariant entry.replicas == ReplicasFor(ports[..idx])
    {
      var replica := Replica(ports[idx], ToUint32(idx + 1));
      assert ports[..idx + 1][..idx] == ports[..idx];
      entry := entry.(replicas := entry.replicas + [replica]);
    }
    assert ports[..|ports|] == ports;
  }

  /** The egress ports of a replica list, in order. */
  function EgressPorts(rs: seq<Replica>): (ports: seq<uint32>)
    ensures |ports| == |rs|
  {
    if rs == [] then [] else [rs[0].egressPort] + EgressPorts(rs[1..])
  }

  lemma {:induction false} EgressPortsAt(rs: seq<Replica>, i: nat)
    requires i < |rs|
    ensures EgressPorts(rs)[i] == rs[i].egressPort
  {
    if i > 0 {
      EgressPortsAt(rs[1..], i - 1);
    }
  }

  /** The replica list names exactly the input ports, in input order: nothing merged, dropped or reordered. */
  lemma PortsPreserved(ports: seq<uint32>)
    ensures EgressPorts(ReplicasFor(ports)) == ports
  {
    var rs := ReplicasFor(ports);
    forall i | 0 <= i < |ports|
      ensures EgressPorts(rs)[i] == ports[i]
    {
      EgressPortsAt(rs, i);
    }
  }

  /** Without wrap-around the instances are 1, 2, ..., |ports|, so they are pairwise distinct. */
  lemma InstancesOneBased(ports: seq<uint32>)
    requires |ports| < 0x1_0000_0000
    ensures forall i :: 0 <= i < |ports| ==> ReplicasFor(ports)[i].instance == i + 1
    ensures forall i, j :: 0 <= i < j < |ports| ==> ReplicasFor(ports)[i].instance != ReplicasFor(ports)[j].instance
  {
  }

  /** A repeated port is not de-duplicated: [a, a] gives two replicas on a, instances 1 and 2. */
  lemma DuplicatePortsKept(a: uint32)
    ensures ReplicasFor([a, a]) == [Replica(a, 1), Replica(a, 2)]
  {
  }

  /** The entity naming a multicast group entry. */
  function MulticastEntity(entry: MulticastGroupEntry): (e: Entity)
  {
    PacketReplicationEngineEntity(MulticastGroup(entry))
  }

  /** The single update every write helper submits: entry wrapped as a PRE entity under the given type. */
  function MulticastUpdate(updateType: UpdateType, entry: MulticastGroupEntry): (u: Update)
  {
    Update(updateType, MulticastEntity(entry))
  }

  /** The read template for group mgid: that id and nothing else. */
  function MulticastGroupTemplate(mgid: uint32): (e: Entity)
  {
    MulticastEntity(MulticastGroupEntry(mgid, []))
  }
}
