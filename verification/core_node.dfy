/** The core node's lifecycle state machine and tool registry, shared by
    both revisions and by `oNode` (which supplies its own `initialize`,
    `register` and `use`). */
module CoreNode {
  import opened Outcomes
  import opened Errors
  import opened Addressing
  import opened Config
  import opened Envelope
  import opened NodeModel
  import CoreUtils
  import ConnectionManager
  import Connections
  import ONodes

  /** `initialize`: abstract in the core node, so a core node runs the
      hook it was given; an `oNode` runs its guard and then builds its
      transport node. */
  function Initialize(n: Node, env: Env): (r: Result<P2PNode, Error>)
    ensures n.kind.Core? ==> r == env.initialize(n)
    ensures n.kind == ONode && ONodes.Validate(n).Fail? ==> r == Failure(InvalidNodeState)
    ensures n.kind == ONode && ONodes.Validate(n).Pass? ==> r == env.createNode(ONodes.Configure(n, env))
  {
    match n.kind
    case ONode => ONodes.Initialize(n, env)
    case Core(_) => env.initialize(n)
  }

  /** `register`: the given hook for a core node; an `oNode` always
      throws. */
  function Register(n: Node, env: Env): (r: Outcome<Error>)
    ensures n.kind.Core? ==> r == env.register(n)
    ensures n.kind == ONode ==> r == Fail(NotImplemented)
  {
    match n.kind
    case ONode => ONodes.Register(n)
    case Core(_) => env.register(n)
  }

  /** A caught exception: recorded once and the node parked in ERROR. */
  function Fault(n: Node, e: Error): Node {
    n.(state := ERROR, errors := n.errors + [e])
  }

  /** After a successful `initialize`: the transport handle is stored and,
      in the current revision, a fresh connection manager is created. */
  function Initialized(n: Node, p2p: P2PNode): Node {
    n.(p2pNode := Some(p2p),
       manager := if n.kind == Core(Early) then n.manager else Some(ConnectionManager.Empty()))
  }

  /** `start`: a no-op unless STOPPED; otherwise STARTING, then
      `initialize`, then every tool's own `start`, then `register`. The
      first failure is recorded and the node ends in ERROR; otherwise it
      ends RUNNING. */
  function Start(n: Node, env: Env): (r: Node)
    ensures n.state != STOPPED ==> r == n
    ensures n.state == STOPPED ==> r.state == RUNNING || r.state == ERROR
    ensures r.state == RUNNING ==> r.errors == n.errors
    ensures n.state == STOPPED && r.state == ERROR ==>
      |r.errors| == |n.errors| + 1 && r.errors[..|n.errors|] == n.errors
    ensures r.kind == n.kind && r.config == n.config && r.address == n.address
    ensures |r.tools| == |n.tools|
    ensures n.kind == Core(Early) ==> r.manager == n.manager
    decreases n
  {
    if n.state != STOPPED then n
    else
      var s := n.(state := STARTING);
      match Initialize(s, env)
      case Failure(e) => Fault(s, e)
      case Success(p2p) =>
        var s1 := Initialized(s, p2p).(tools := StartTools(n.tools, env));
        match Register(s1, env)
        case Fail(e) => Fault(s1, e)
        case Pass => s1.(state := RUNNING)
  }

  /** `startTools`: every tool is started; a tool's `start` records its own
      failures, so nothing here can fail. */
  function StartTools(ts: seq<Node>, env: Env): (rs: seq<Node>)
    ensures |rs| == |ts|
    ensures forall i :: 0 <= i < |ts| ==> rs[i] == Start(ts[i], env)
    decreases ts
  {
    if ts == [] then [] else [Start(ts[0], env)] + StartTools(ts[1..], env)
  }

  /** `stop`, from any state: STOPPING while `teardown` runs, then STOPPED,
      or ERROR with the teardown failure recorded. */
  function Stop(n: Node, env: Env): (r: Node)
    ensures r.state == STOPPED || r.state == ERROR
    ensures r.state == STOPPED <==> env.teardown(n.(state := STOPPING)).Pass?
    ensures r.state == STOPPED ==> r == n.(state := STOPPED)
    ensures r.state == ERROR ==> r == n.(state := ERROR, errors := n.errors + [env.teardown(n.(state := STOPPING)).error])
  {
    var s := n.(state := STOPPING);
    match env.teardown(s)
    case Fail(e) => Fault(s, e)
    case Pass => s.(state := STOPPED)
  }

  /** The configured type, or UNKNOWN. */
  function Type(n: Node): (t: NodeType)
    ensures n.config.nodeType.Some? ==> t == n.config.nodeType.value
    ensures n.config.nodeType.None? ==> t == Unknown
  {
    n.config.nodeType.GetOr(Unknown)
  }

  /** A tool's address is the given address nested under the node's. */
  function ToolAddress(n: Node, a: Address): (r: Address)
    ensures r == CoreUtils.EncapsulateNode(n.address.addr, a)
    ensures Validate(n.address.addr) ==> Validate(r)
  {
    CoreUtils.EncapsulateNode(n.address.addr, a)
  }

  /** Some tool holds this very address object (identity, not value). */
  predicate HasAddressObject(tools: seq<Node>, obj: AddressObject) {
    exists i :: 0 <= i < |tools| && tools[i].address.ref == obj.ref
  }

  /** `addTool`: refuses a tool whose address object is already held by a
      tool; otherwise appends it. */
  function AddTool(n: Node, tool: Node): (r: Result<Node, Error>)
    ensures r.Failure? <==> HasAddressObject(n.tools, tool.address)
    ensures r.Failure? ==> r.error == DuplicateTool(tool.address.addr.value)
    ensures r.Success? ==> r.value == n.(tools := n.tools + [tool])
  {
    if HasAddressObject(n.tools, tool.address) then Failure(DuplicateTool(tool.address.addr.value))
    else Success(n.(tools := n.tools + [tool]))
  }

  /** `getTool` compares the tool's configured address text (not its
      effective address) with the text looked up. */
  predicate ConfiguredAt(t: Node, key: string) {
    t.config.address.Some? && ToString(t.config.address.value.addr) == key
  }

  /** Tool `i` is the first one configured at `key`. */
  predicate FirstConfigured(tools: seq<Node>, key: string, i: nat)
    requires i < |tools|
  {
    ConfiguredAt(tools[i], key) && forall j :: 0 <= j < i ==> !ConfiguredAt(tools[j], key)
  }

  /** The first tool at or after `from` configured at `key`. */
  function FirstConfiguredAt(tools: seq<Node>, key: string, from: nat): (r: Option<nat>)
    ensures r.Some? ==> from <= r.value < |tools| && ConfiguredAt(tools[r.value], key)
    ensures r.Some? ==> forall j :: from <= j < r.value ==> !ConfiguredAt(tools[j], key)
    ensures r.None? ==> forall j :: from <= j < |tools| ==> !ConfiguredAt(tools[j], key)
    decreases |tools| - from
  {
    if from >= |tools| then None
    else if ConfiguredAt(tools[from], key) then Some(from)
    else FirstConfiguredAt(tools, key, from + 1)
  }

  /** `getTool`: the first tool configured at the given address, or a
      not-found error naming the nested tool address. */
  function GetTool(n: Node, a: Address): (r: Result<Node, Error>)
    ensures r.Success? <==> exists i :: 0 <= i < |n.tools| && ConfiguredAt(n.tools[i], ToString(a))
    ensures r.Success? ==> exists i :: 0 <= i < |n.tools| && r.value == n.tools[i] && FirstConfigured(n.tools, ToString(a), i)
    ensures r.Failure? ==> r.error == ToolNotFound(ToString(ToolAddress(n, a)))
  {
    match FirstConfiguredAt(n.tools, ToString(a), 0)
    case Some(i) => Success(n.tools[i])
    case None => Failure(ToolNotFound(ToString(ToolAddress(n, a))))
  }

  /** `connect`: the manager's connection, which must exist; before the
      first start there is no manager and the call throws. */
  function Connect(n: Node, dialed: Option<Connections.Connection>): (r: Result<Connections.Connection, Error>)
    ensures n.manager.None? ==> r == Failure(ManagerMissing)
    ensures n.manager.Some? && dialed.None? ==> r == Failure(ConnectionNotFound)
    ensures r.Success? <==> n.manager.Some? && dialed.Some?
    ensures r.Success? ==> r.value == dialed.value
  {
    if n.manager.None? then Failure(ManagerMissing)
    else match dialed
      case None => Failure(ConnectionNotFound)
      case Some(c) => Success(c)
  }

  /** What `use` hands back: the connection as the send left it, when one
      was reached, and the response or the error the call rejects with. */
  datatype Usage = Usage(conn: Option<Connections.Connection>, response: Result<Response, Error>)

  /** `use`: an `oNode` always throws; the current core node connects and
      returns the connection's `send`, which rejects when the exchange
      fails. The earlier revision declares `use` abstract. */
  function Use(n: Node, a: Address, data: JsonObject, dialed: Option<Connections.Connection>,
               peer: Connections.Peer): (u: Usage)
    requires n.kind != Core(Early)
    ensures n.kind == ONode ==> u == Usage(None, Failure(NotImplemented))
    ensures n.kind == Core(Current) && Connect(n, dialed).Failure? ==>
      u == Usage(None, Failure(Connect(n, dialed).error))
    ensures n.kind == Core(Current) && Connect(n, dialed).Success? ==>
      && u.conn == Some(dialed.value.(requestCounter := dialed.value.requestCounter + 1))
      && u.response == Connections.Send(dialed.value, data, peer).reply
    ensures u.response.Success? ==> n.kind == Core(Current) && n.manager.Some? && dialed.Some?
  {
    match n.kind
    case ONode => Usage(None, Failure(ONodes.Use(n, a, data).error))
    case Core(Current) =>
      match Connect(n, dialed)
      case Failure(e) => Usage(None, Failure(e))
      case Success(c) =>
        var s := Connections.Send(c, data, peer);
        Usage(Some(s.conn), s.reply)
  }
}
