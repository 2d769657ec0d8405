/** The node record shared by both revisions of the core node and by the
    concrete `oNode`, and the environment its lifecycle hooks run in. */
module NodeModel {
  import opened Outcomes
  import opened Errors
  import opened Addressing
  import opened Config
  import ConnectionManager

  datatype NodeState = STOPPED | STARTING | RUNNING | STOPPING | ERROR

  /** `Early` is the core node without a connection manager; `Current`
      creates one on start and adds `use`/`connect`. */
  datatype Revision = Early | Current

  /** A core node with abstract hooks, or the concrete `oNode` (which
      extends the current revision). */
  datatype NodeKind = Core(revision: Revision) | ONode

  /** A handle on the transport node built by `initialize`. */
  datatype P2PNode = P2PNode(handle: nat)

  /** Tools are themselves nodes, held in insertion order. */
  datatype Node = Node(
    kind: NodeKind,
    config: CoreConfig,
    address: AddressObject,
    networkConfig: Libp2pConfig,
    state: NodeState,
    errors: seq<Error>,
    tools: seq<Node>,
    p2pNode: Option<P2PNode>,
    manager: Option<ConnectionManager.Manager>)

  /** What the model does not compute itself: the abstract hooks of a core
      node, each given the node as it stands when the hook runs; the
      transport's `createNode`; the uuid of the in-memory transport; key
      derivation from a seed; and the working directory. */
  datatype Env = Env(
    initialize: Node -> Result<P2PNode, Error>,
    register: Node -> Outcome<Error>,
    teardown: Node -> Outcome<Error>,
    createNode: Libp2pConfig -> Result<P2PNode, Error>,
    memoryId: Node -> string,
    keyFromSeed: string -> PrivateKey,
    cwd: string)

  const DEFAULT_ADDRESS: string := "o://node"

  /** The constructor: STOPPED, no errors, no tools, no transport yet; the
      configured address object, or a new `o://node` one (`freshRef`)
      when none is configured; the configured network or the default. */
  function NewNode(kind: NodeKind, config: CoreConfig, defaultNetwork: Libp2pConfig, freshRef: nat): (n: Node)
    ensures n.kind == kind && n.config == config
    ensures n.state == STOPPED && n.errors == [] && n.tools == []
    ensures n.p2pNode == None && n.manager == None
    ensures config.address.Some? ==> n.address == config.address.value
    ensures config.address.None? ==> n.address == AddressObject(freshRef, New(DEFAULT_ADDRESS))
    ensures config.network.Some? ==> n.networkConfig == config.network.value
    ensures config.network.None? ==> n.networkConfig == defaultNetwork
  {
    var address := match config.address
      case Some(obj) => obj
      case None => AddressObject(freshRef, New(DEFAULT_ADDRESS));
    Node(kind, config, address, config.network.GetOr(defaultNetwork), STOPPED, [], [], None, None)
  }
}
