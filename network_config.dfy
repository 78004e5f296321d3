/** NetworkOptimizationConfig: the fixed limits of the listener's networking.
    The time constants are doubles in seconds in the source; timestamps in this
    model are whole seconds, so they are integers here. */
module NetworkConfig {
  import opened Common

  const MaxOutboundConnections: nat := 1000
  const MaxInboundConnections: nat := 5000
  const UdpBufferSize: nat := 10 * 1024 * 1024
  /** std::numeric_limits<td::uint32>::max() */
  const ValidatorPriority: nat := U32Max
  const ConnectionResetInterval: int := 3600
  const ConnectionTimeout: int := 5
  const MaxHeartbeatInterval: int := 10
  const MinHeartbeatInterval: int := 1

  /** The priority a connect request carries: the uint32 maximum for validators, 0 otherwise. */
  function PriorityFor(isValidator: bool): (p: nat)
    ensures p < TwoTo32
    ensures isValidator <==> p == U32Max
    ensures !isValidator ==> p == 0
  {
    if isValidator then ValidatorPriority else 0
  }

  lemma ConstantsAgree()
    ensures MaxOutboundConnections < MaxInboundConnections
    ensures UdpBufferSize == 10485760
    ensures ValidatorPriority == 4294967295
    ensures ValidatorPriority == TwoTo32 - 1
    ensures ConnectionResetInterval == 3600
    ensures MinHeartbeatInterval <= MaxHeartbeatInterval
  {
  }
}
