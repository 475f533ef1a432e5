/**
 * Forwarding-pipeline values: the config pushed by SetForwardingPipelineConfig
 * and pulled by GetForwardingPipelineConfig (P4Runtime Specification v1.3.0,
 * section "GetForwardingPipelineConfig RPC"), and the client-side FwdPipeConfig
 * record built from either.
 */
module FwdPipe {
  import opened Base
  import opened SymbolTable

  /** The 128-bit election id, as its two 64-bit halves. */
  datatype Uint128 = Uint128(high: uint64, low: uint64)

  datatype Cookie = Cookie(cookie: uint64)

  /** The protocol's ForwardingPipelineConfig message: each field may be absent. */
  datatype ForwardingPipelineConfig = ForwardingPipelineConfig(
    p4info: Option<P4Info>,
    p4DeviceConfig: seq<byte>,
    cookie: Option<Cookie>)

  /** The client's FwdPipeConfig record: the cookie is a plain number. */
  datatype FwdPipeConfig = FwdPipeConfig(
    xp4info: Option<P4Info>,
    p4DeviceConfig: seq<byte>,
    cookie: uint64)

  datatype SetAction =
    | UnspecifiedAction | Verify | VerifyAndSave | VerifyAndCommit | Commit | ReconcileAndCommit

  datatype SetForwardingPipelineConfigRequest = SetForwardingPipelineConfigRequest(
    deviceId: uint64,
    electionId: Uint128,
    action: SetAction,
    config: ForwardingPipelineConfig)

  /** GetFwdPipeResponseType: any int32; the four named values are the protocol's ResponseType enum. */
  type GetFwdPipeResponseType = int32

  const GetFwdPipeAll: GetFwdPipeResponseType := 0
  const GetFwdPipeCookieOnly: GetFwdPipeResponseType := 1
  const GetFwdPipeXp4infoAndCookie: GetFwdPipeResponseType := 2
  const GetFwdPipeDeviceConfigAndCookie: GetFwdPipeResponseType := 3

  /** The Get request carries no election id. */
  datatype GetForwardingPipelineConfigRequest = GetForwardingPipelineConfigRequest(
    deviceId: uint64,
    responseType: GetFwdPipeResponseType)

  datatype GetForwardingPipelineConfigResponse = GetForwardingPipelineConfigResponse(
    config: Option<ForwardingPipelineConfig>)

  /** The config SetFwdPipeFromBytes sends: schema, binary and cookie, all present. */
  function PipelineConfig(xp4info: P4Info, binBytes: seq<byte>, cookie: uint64): (c: ForwardingPipelineConfig)
  {
    ForwardingPipelineConfig(Some(xp4info), binBytes, Some(Cookie(cookie)))
  }

  /** The Set request SetFwdPipeFromBytes sends. */
  function SetRequest(deviceId: uint64, electionId: Uint128, xp4info: P4Info, binBytes: seq<byte>, cookie: uint64)
    : (req: SetForwardingPipelineConfigRequest)
  {
    SetForwardingPipelineConfigRequest(deviceId, electionId, VerifyAndCommit, PipelineConfig(xp4info, binBytes, cookie))
  }

  /** The record GetFwdPipe returns for a response config: fields copied, a missing cookie read as 0. */
  function FromResponse(config: ForwardingPipelineConfig): (r: FwdPipeConfig)
    ensures r.xp4info == config.p4info && r.p4DeviceConfig == config.p4DeviceConfig
    ensures config.cookie.None? ==> r.cookie == 0
    ensures config.cookie.Some? ==> r.cookie == config.cookie.value.cookie
  {
    var pipeConfig := FwdPipeConfig(config.p4info, config.p4DeviceConfig, 0);
    if config.cookie.Some? then pipeConfig.(cookie := config.cookie.value.cookie) else pipeConfig
  }

  /**
   * Reading back a config that SetFwdPipeFromBytes sent gives exactly the
   * record SetFwdPipeFromBytes returned for it.
   */
  lemma PushedConfigReadsBack(xp4info: P4Info, binBytes: seq<byte>, cookie: uint64)
    ensures FromResponse(PipelineConfig(xp4info, binBytes, cookie)) == FwdPipeConfig(Some(xp4info), binBytes, cookie)
  {
  }

  /**
   * A missing cookie and a cookie of 0 give the same record: the returned
   * Cookie does not say whether the device reported one.
   */
  lemma MissingCookieReadsAsZero(config: ForwardingPipelineConfig)
    requires config.cookie.None?
    ensures FromResponse(config) == FromResponse(config.(cookie := Some(Cookie(0))))
  {
  }
}
