/** The concrete `oNode`: its state guard, the transport configuration it
    assembles, and the operations it leaves unimplemented. */
module ONodes {
  import opened Outcomes
  import opened Errors
  import opened Addressing
  import opened Config
  import opened Envelope
  import opened NodeModel

  const MEMORY_TRANSPORT_PREFIX: string := "/memory/"

  /** Refuses a node that already has a transport node unless it is STOPPED. */
  function Validate(n: Node): (r: Outcome<Error>)
    ensures r.Fail? <==> n.p2pNode.Some? && n.state != STOPPED
    ensures r.Fail? ==> r.error == InvalidNodeState
  {
    if n.p2pNode.Some? && n.state != STOPPED then Fail(InvalidNodeState) else Pass
  }

  /** The configured transports, or none (`config.network?.transports || []`:
      the default network's transports are not consulted). */
  function ConfiguredTransports(config: CoreConfig): seq<string> {
    match config.network
    case Some(net) => net.transports
    case None => []
  }

  /** A seed is used only when present and non-empty (JavaScript truthiness). */
  predicate HasSeed(config: CoreConfig) {
    config.seed.Some? && config.seed.value != ""
  }

  /** The transport configuration: the node's network config with the
      transports replaced by one in-memory entry followed by the configured
      ones, and the key, datastore and peer discovery overridden only when
      a seed, `persist` or leader transports are configured. */
  function Configure(n: Node, env: Env): (r: Libp2pConfig)
    ensures |r.transports| == 1 + |ConfiguredTransports(n.config)|
    ensures r.transports[0] == MEMORY_TRANSPORT_PREFIX + env.memoryId(n)
    ensures r.transports[1..] == ConfiguredTransports(n.config)
    ensures HasSeed(n.config) ==> r.privateKey == Some(env.keyFromSeed(n.config.seed.value))
    ensures !HasSeed(n.config) ==> r.privateKey == n.networkConfig.privateKey
    ensures n.config.persist == Some(true) ==> r.datastore == Some(FsDatastore(env.cwd))
    ensures n.config.persist != Some(true) ==> r.datastore == n.networkConfig.datastore
    ensures n.config.leaderTransports.Some? ==>
      r.peerDiscovery == Some([Bootstrap(n.config.leaderTransports.value)])
    ensures n.config.leaderTransports.None? ==> r.peerDiscovery == n.networkConfig.peerDiscovery
  {
    var base := n.networkConfig.(transports := [MEMORY_TRANSPORT_PREFIX + env.memoryId(n)] + ConfiguredTransports(n.config));
    var keyed := if HasSeed(n.config) then base.(privateKey := Some(env.keyFromSeed(n.config.seed.value))) else base;
    var stored := if n.config.persist == Some(true) then keyed.(datastore := Some(FsDatastore(env.cwd))) else keyed;
    if n.config.leaderTransports.Some? then stored.(peerDiscovery := Some([Bootstrap(n.config.leaderTransports.value)]))
    else stored
  }

  /** `initialize`: the guard first, then a transport node built from the
      assembled configuration. */
  function Initialize(n: Node, env: Env): (r: Result<P2PNode, Error>)
    ensures Validate(n).Fail? ==> r == Failure(InvalidNodeState)
    ensures Validate(n).Pass? ==> r == env.createNode(Configure(n, env))
  {
    match Validate(n)
    case Fail(e) => Failure(e)
    case Pass => env.createNode(Configure(n, env))
  }

  /** `register` is not implemented and always throws. */
  function Register(n: Node): (r: Outcome<Error>)
    ensures r == Fail(NotImplemented)
  {
    Fail(NotImplemented)
  }

  /** `use` is not implemented and always throws. */
  function Use(n: Node, address: Address, data: JsonObject): (r: Outcome<Error>)
    ensures r == Fail(NotImplemented)
  {
    Fail(NotImplemented)
  }
}
