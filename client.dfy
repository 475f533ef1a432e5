/**
 * The P4Runtime client session: the device it talks to, its election id,
 * and the schema (P4Info) it currently resolves names against.
 *
 * The RPCs are not modelled as behaviour. Each one's outcome is a parameter
 * of the operation that issues it, and every request issued is appended to a
 * ghost log, so that the contracts can say which requests were sent and how
 * the stored schema depends on the outcome.
 */
module P4Client {
  import opened Base
  import opened SymbolTable
  import opened Replication
  import opened FwdPipe

  const DecodeFailure := "failed to decode Xp4info Protobuf message"
  const RetrieveFailure := "error when retrieving forwardingpipeline config"

  class Client {
    const deviceID: uint64
    const electionID: Uint128
    /** The schema loaded by the last successful push or pull; None (nil) before any. */
    var Xp4info: Option<P4Info>

    /** Updates passed to WriteUpdate, in order. */
    ghost var writes: seq<Update>
    /** Templates passed to ReadEntitySingle, in order. */
    ghost var readTemplates: seq<Entity>
    /** SetForwardingPipelineConfig requests sent, in order. */
    ghost var setRequests: seq<SetForwardingPipelineConfigRequest>
    /** GetForwardingPipelineConfig requests sent, in order. */
    ghost var getRequests: seq<GetForwardingPipelineConfigRequest>

    constructor (deviceID: uint64, electionID: Uint128)
      ensures this.deviceID == deviceID && this.electionID == electionID
      ensures Xp4info == None
      ensures writes == [] && readTemplates == [] && setRequests == [] && getRequests == []
    {
      this.deviceID := deviceID;
      this.electionID := electionID;
      Xp4info := None;
      writes, readTemplates, setRequests, getRequests := [], [], [], [];
    }

    /** Stands for the Write RPC: logs the update and returns the given outcome. */
    method WriteUpdate(update: Update, outcome: Option<Error>) returns (err: Option<Error>)
      modifies this`writes
      ensures writes == old(writes) + [update]
      ensures err == outcome
    {
      writes := writes + [update];
      err := outcome;
    }

    /** Stands for the Read RPC with one template: logs the template and returns the given outcome. */
    method ReadEntitySingle(template: Entity, outcome: Result<Entity, Error>) returns (r: Result<Entity, Error>)
      modifies this`readTemplates
      ensures readTemplates == old(readTemplates) + [template]
      ensures r == outcome
    {
      readTemplates := readTemplates + [template];
      r := outcome;
    }

    /** Submits the caller's entry, unchanged, as one INSERT update. */
    method InsertMulticastGroupEntry(mge: MulticastGroupEntry, outcome: Option<Error>) returns (err: Option<Error>)
      modifies this`writes
      ensures writes == old(writes) + [Update(Insert, PacketReplicationEngineEntity(MulticastGroup(mge)))]
      ensures err == outcome
    {
      var update := MulticastUpdate(Insert, mge);
      err := WriteUpdate(update, outcome);
    }

    /** Submits one INSERT update of group mgid with one replica per port, numbered from 1 in input order. */
    method InsertMulticastGroup(mgid: uint32, ports: seq<uint32>, outcome: Option<Error>) returns (err: Option<Error>)
      modifies this`writes
      ensures |writes| == |old(writes)| + 1 && writes[..|old(writes)|] == old(writes)
      ensures writes[|old(writes)|].updateType == Insert
      ensures writes[|old(writes)|].entity.preEntry.multicastGroupEntry.multicastGroupId == mgid
      ensures EgressPorts(writes[|old(writes)|].entity.preEntry.multicastGroupEntry.replicas) == ports
      ensures writes == old(writes) + [Update(Insert, PacketReplicationEngineEntity(MulticastGroup(MulticastGroupEntry(mgid, ReplicasFor(ports)))))]
      ensures err == outcome
    {
      var entry := BuildMulticastGroupEntry(mgid, ports);
      var update := MulticastUpdate(Insert, entry);
      err := WriteUpdate(update, outcome);
      PortsPreserved(ports);
    }

    /** Submits one DELETE update naming group mgid, with an empty replica list. */
    method DeleteMulticastGroup(mgid: uint32, outcome: Option<Error>) returns (err: Option<Error>)
      modifies this`writes
      ensures writes == old(writes) + [Update(Delete, PacketReplicationEngineEntity(MulticastGroup(MulticastGroupEntry(mgid, []))))]
      ensures err == outcome
    {
      var entry := MulticastGroupEntry(mgid, []);
      var update := MulticastUpdate(Delete, entry);
      err := WriteUpdate(update, outcome);
    }

    /** Reads group mgid through a template carrying only mgid; the read's result is returned as it is. */
    method ReadMulticastGroup(mgid: uint32, outcome: Result<Entity, Error>) returns (r: Result<Entity, Error>)
      modifies this`readTemplates
      ensures readTemplates == old(readTemplates) + [PacketReplicationEngineEntity(MulticastGroup(MulticastGroupEntry(mgid, [])))]
      ensures r == outcome
    {
      var template := MulticastGroupTemplate(mgid);
      r := ReadEntitySingle(template, outcome);
    }

    /**
     * Pushes a pipeline config. decode stands for the P4Info text parser and
     * rpcOutcome for the result of SetForwardingPipelineConfig (None: success).
     * The stored schema changes only when decoding and the RPC both succeed.
     */
    method SetFwdPipeFromBytes(binBytes: seq<byte>, p4infoBytes: seq<byte>, cookie: uint64,
                               decode: seq<byte> -> Result<P4Info, Error>, rpcOutcome: Option<Error>)
      returns (config: Option<FwdPipeConfig>, err: Option<Error>)
      modifies this`Xp4info, this`setRequests
      ensures config.Some? <==> err.None?
      ensures decode(p4infoBytes).Failure? ==>
                err == Some(Wrapped(DecodeFailure, decode(p4infoBytes).error)) &&
                setRequests == old(setRequests) && Xp4info == old(Xp4info)
      ensures decode(p4infoBytes).Success? ==>
                setRequests == old(setRequests) + [SetRequest(deviceID, electionID, decode(p4infoBytes).value, binBytes, cookie)]
      ensures decode(p4infoBytes).Success? && rpcOutcome.None? ==>
                Xp4info == Some(decode(p4infoBytes).value) &&
                config == Some(FwdPipeConfig(Some(decode(p4infoBytes).value), binBytes, cookie))
      ensures decode(p4infoBytes).Success? && rpcOutcome.Some? ==>
                err == rpcOutcome && Xp4info == old(Xp4info)
    {
      var decoded := decode(p4infoBytes);
      if decoded.Failure? {
        return None, Some(Wrapped(DecodeFailure, decoded.error));
      }
      var xp4info := decoded.value;
      var req := SetRequest(deviceID, electionID, xp4info, binBytes, cookie);
      setRequests := setRequests + [req];
      if rpcOutcome.None? {
        Xp4info := Some(xp4info);
        return Some(FwdPipeConfig(Some(xp4info), binBytes, cookie)), None;
      }
      return None, rpcOutcome;
    }

    /**
     * Pulls the device's pipeline config. rpcOutcome stands for the result of
     * GetForwardingPipelineConfig. No config on the device is (None, None),
     * not an error; the stored schema is replaced only by a returned non-nil P4Info.
     */
    method GetFwdPipe(responseType: GetFwdPipeResponseType,
                      rpcOutcome: Result<GetForwardingPipelineConfigResponse, Error>)
      returns (config: Option<FwdPipeConfig>, err: Option<Error>)
      modifies this`Xp4info, this`getRequests
      ensures getRequests == old(getRequests) + [GetForwardingPipelineConfigRequest(deviceID, responseType)]
      ensures config.Some? ==> err.None?
      ensures rpcOutcome.Failure? ==>
                config.None? && err == Some(Wrapped(RetrieveFailure, rpcOutcome.error)) && Xp4info == old(Xp4info)
      ensures rpcOutcome.Success? && rpcOutcome.value.config.None? ==>
                config.None? && err.None? && Xp4info == old(Xp4info)
      ensures rpcOutcome.Success? && rpcOutcome.value.config.Some? ==>
                var sent := rpcOutcome.value.config.value;
                config == Some(FromResponse(sent)) &&
                config.value.cookie == (if sent.cookie.Some? then sent.cookie.value.cookie else 0) &&
                Xp4info == (if sent.p4info.Some? then sent.p4info else old(Xp4info))
    {
      var req := GetForwardingPipelineConfigRequest(deviceID, responseType);
      getRequests := getRequests + [req];
      if rpcOutcome.Failure? {
        return None, Some(Wrapped(RetrieveFailure, rpcOutcome.error));
      }
      var resp := rpcOutcome.value;
      if resp.config.None? {
        return None, None;
      }
      var pipeConfig := FromResponse(resp.config.value);
      if pipeConfig.xp4info.Some? {
        Xp4info := pipeConfig.xp4info;
      }
      return Some(pipeConfig), None;
    }
  }
}
