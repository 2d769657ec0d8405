/** Properties of the node lifecycle that relate several calls: step
    ordering and failure capture in `start`, tool isolation, `stop` from any
    state, the tool registry, and the consequences for `oNode`. */
module Lifecycle {
  import opened Outcomes
  import opened Errors
  import opened Addressing
  import opened Config
  import opened NodeModel
  import opened CoreNode
  import CoreUtils
  import ConnectionManager
  import ONodes

  /** When `initialize` fails nothing later runs: no tool is started, no
      transport handle or manager is stored, and the failure is the one
      error recorded. */
  lemma InitializeFailureSkipsLaterSteps(n: Node, env: Env)
    requires n.state == STOPPED
    requires Initialize(n.(state := STARTING), env).Failure?
    ensures Start(n, env) ==
      n.(state := ERROR, errors := n.errors + [Initialize(n.(state := STARTING), env).error])
  {
  }

  /** After a successful `initialize` every tool has been started on its
      own: each ends as its own `start` leaves it, a STOPPED tool always
      settles in RUNNING or ERROR, and a tool in any other state is left
      alone. */
  lemma StartSettlesTools(n: Node, env: Env)
    requires n.state == STOPPED
    requires Initialize(n.(state := STARTING), env).Success?
    ensures Start(n, env).p2pNode == Some(Initialize(n.(state := STARTING), env).value)
    ensures forall i :: 0 <= i < |n.tools| ==> Start(n, env).tools[i] == Start(n.tools[i], env)
    ensures forall i :: 0 <= i < |n.tools| && n.tools[i].state == STOPPED ==>
      Start(n, env).tools[i].state in {RUNNING, ERROR}
    ensures forall i :: 0 <= i < |n.tools| && n.tools[i].state != STOPPED ==>
      Start(n, env).tools[i] == n.tools[i]
  {
    var r := Start(n, env);
    assert r.tools == StartTools(n.tools, env);
  }

  /** A tool that ends in ERROR does not stop its parent: once
      `initialize` and `register` pass, the parent is RUNNING whatever its
      tools did, and in the current revision it now owns an empty
      connection manager. */
  lemma ToolFailuresDoNotPropagate(n: Node, env: Env, p2p: P2PNode)
    requires n.state == STOPPED
    requires Initialize(n.(state := STARTING), env) == Success(p2p)
    requires Register(Initialized(n.(state := STARTING), p2p).(tools := StartTools(n.tools, env)), env).Pass?
    ensures Start(n, env).state == RUNNING && Start(n, env).errors == n.errors
    ensures n.kind != Core(Early) ==> Start(n, env).manager == Some(ConnectionManager.Empty())
  {
  }

  /** For every kind of node, `start` from STOPPED ends RUNNING exactly
      when `initialize` succeeds and `register` then passes. */
  lemma StartRunsIffHooksPass(n: Node, env: Env)
    requires n.state == STOPPED
    ensures var s := n.(state := STARTING);
      Start(n, env).state == RUNNING <==>
        Initialize(s, env).Success? &&
        Register(Initialized(s, Initialize(s, env).value).(tools := StartTools(n.tools, env)), env).Pass?
  {
  }

  /** A `register` that throws after a successful `initialize` is recorded
      as the node's one new error, after the tools have been started and
      the transport handle stored. */
  lemma RegisterFailureRecorded(n: Node, env: Env, p2p: P2PNode)
    requires n.state == STOPPED
    requires Initialize(n.(state := STARTING), env) == Success(p2p)
    requires Register(Initialized(n.(state := STARTING), p2p).(tools := StartTools(n.tools, env)), env).Fail?
    ensures Start(n, env).state == ERROR
    ensures Start(n, env).errors ==
      n.errors + [Register(Initialized(n.(state := STARTING), p2p).(tools := StartTools(n.tools, env)), env).error]
    ensures Start(n, env).p2pNode == Some(p2p) && Start(n, env).tools == StartTools(n.tools, env)
  {
  }

  /** The earlier revision has the same state machine, without the
      connection manager: from STOPPED it ends RUNNING with no new error
      or ERROR with exactly one, and otherwise it changes nothing. */
  lemma EarlyRevisionStart(n: Node, env: Env)
    requires n.kind == Core(Early)
    ensures n.state != STOPPED ==> Start(n, env) == n
    ensures n.state == STOPPED ==>
      (Start(n, env).state == RUNNING && Start(n, env).errors == n.errors) ||
      (Start(n, env).state == ERROR && Start(n, env).errors[..|n.errors|] == n.errors &&
       |Start(n, env).errors| == |n.errors| + 1)
    ensures Start(n, env).manager == n.manager
    ensures Start(n, env).state == RUNNING <==>
      n.state == RUNNING ||
      (n.state == STOPPED && Initialize(n.(state := STARTING), env).Success? &&
       Register(Initialized(n.(state := STARTING), Initialize(n.(state := STARTING), env).value)
                  .(tools := StartTools(n.tools, env)), env).Pass?)
  {
  }

  /** `stop` has no guard: from every state, ERROR included, it ends
      STOPPED with the errors kept, or ERROR with one more, and touches
      neither the tools nor the transport handle. */
  lemma StopFromAnyState(n: Node, env: Env)
    ensures Stop(n, env).tools == n.tools && Stop(n, env).p2pNode == n.p2pNode
    ensures Stop(n, env).state == STOPPED ==> Stop(n, env).errors == n.errors
    ensures Stop(n, env).state == ERROR ==>
      |Stop(n, env).errors| == |n.errors| + 1 && Stop(n, env).errors[..|n.errors|] == n.errors
  {
  }

  /** The duplicate check compares address objects, not values: two tools
      whose addresses are equal in value but distinct objects are both
      registered, while re-adding the same object is refused. */
  lemma AddToolByIdentity(n: Node, t1: Node, t2: Node)
    requires !HasAddressObject(n.tools, t1.address)
    requires t1.address.ref != t2.address.ref && !HasAddressObject(n.tools, t2.address)
    ensures AddTool(n, t1).Success?
    ensures AddTool(AddTool(n, t1).value, t2).Success?
    ensures |AddTool(AddTool(n, t1).value, t2).value.tools| == |n.tools| + 2
    ensures AddTool(AddTool(n, t1).value, t1) == Failure(DuplicateTool(t1.address.addr.value))
  {
    var n1 := AddTool(n, t1).value;
    assert n1.tools[|n.tools|] == t1;
    assert !HasAddressObject(n1.tools, t2.address) by {
      assert forall i :: 0 <= i < |n1.tools| ==> i < |n.tools| || n1.tools[i] == t1;
    }
  }

  /** A tool added with a configured address is what `getTool` finds at
      that address — unless an earlier tool is configured at the same
      text, which `getTool` then returns instead. */
  lemma AddThenGet(n: Node, tool: Node)
    requires !HasAddressObject(n.tools, tool.address)
    requires tool.config.address.Some?
    ensures forall k :: 0 <= k < |n.tools| && FirstConfigured(n.tools, ToString(tool.config.address.value.addr), k) ==>
      GetTool(AddTool(n, tool).value, tool.config.address.value.addr) == Success(n.tools[k])
    ensures (forall i :: 0 <= i < |n.tools| ==> !ConfiguredAt(n.tools[i], ToString(tool.config.address.value.addr))) ==>
      GetTool(AddTool(n, tool).value, tool.config.address.value.addr) == Success(tool)
  {
    var n1 := AddTool(n, tool).value;
    var a := tool.config.address.value.addr;
    assert n1.tools[|n.tools|] == tool;
    assert ConfiguredAt(n1.tools[|n.tools|], ToString(a));
    forall k | 0 <= k < |n.tools| && FirstConfigured(n.tools, ToString(a), k)
      ensures GetTool(n1, a) == Success(n.tools[k])
    {
      assert n1.tools[k] == n.tools[k];
      var r := GetTool(n1, a);
      var i :| 0 <= i < |n1.tools| && r.value == n1.tools[i] && FirstConfigured(n1.tools, ToString(a), i);
      assert i == k;
    }
    if forall i :: 0 <= i < |n.tools| ==> !ConfiguredAt(n.tools[i], ToString(a)) {
      var r := GetTool(n1, a);
      var k :| 0 <= k < |n1.tools| && r.value == n1.tools[k] && FirstConfigured(n1.tools, ToString(a), k);
      assert k == |n.tools|;
    }
  }

  /** `o://calc` under the default node address is `o://node/calc`. */
  lemma ToolAddressExample(n: Node)
    requires n.address.addr.value == DEFAULT_ADDRESS
    ensures ToolAddress(n, New("o://calc")).value == "o://node/calc"
    ensures Validate(ToolAddress(n, New("o://calc")))
  {
    CoreUtils.EncapsulateExample();
    assert n.address.addr.value == New("o://node").value;
  }

  /** `use` before any start fails: a new current-revision node has no
      connection manager yet, and an `oNode` refuses every `use`. */
  lemma UseBeforeStartFails(kind: NodeKind, config: CoreConfig, net: Libp2pConfig, ref: nat,
                            a: Address, data: Envelope.JsonObject,
                            dialed: Option<Connections.Connection>, peer: Connections.Peer)
    requires kind != Core(Early)
    ensures Use(NewNode(kind, config, net, ref), a, data, dialed, peer).conn == None
    ensures kind == Core(Current) ==>
      Use(NewNode(kind, config, net, ref), a, data, dialed, peer).response == Failure(ManagerMissing)
    ensures kind == ONode ==>
      Use(NewNode(kind, config, net, ref), a, data, dialed, peer).response == Failure(NotImplemented)
  {
  }

  /** An `oNode` never sends: `use` fails as not implemented before a
      start and after one, whatever connection would have been reached. */
  lemma ONodeUseAlwaysFails(n: Node, env: Env, a: Address, data: Envelope.JsonObject,
                            dialed: Option<Connections.Connection>, peer: Connections.Peer)
    requires n.kind == ONode
    ensures Use(n, a, data, dialed, peer) == Usage(None, Failure(NotImplemented))
    ensures Use(Start(n, env), a, data, dialed, peer) == Usage(None, Failure(NotImplemented))
  {
  }

  /** Once connected, `use` is the connection's `send`: it resolves
      exactly when the peer answers the ROUTE request with bytes that
      parse, with those parsed bytes as the response, and the connection
      has numbered one more request either way. */
  lemma UseResolvesIffReplyParses(n: Node, a: Address, data: Envelope.JsonObject,
                                  c: Connections.Connection, peer: Connections.Peer)
    requires n.kind == Core(Current) && n.manager.Some?
    ensures var bytes := peer.reply(Addressing.Protocol(c.address),
                                    Connections.CreateRequest(c, Envelope.ROUTE, data).request);
      && (Use(n, a, data, Some(c), peer).response.Success? <==>
            bytes.Some? && |bytes.value| > 0 && peer.parse(bytes.value).Some?)
      && (Use(n, a, data, Some(c), peer).response.Success? ==>
            Use(n, a, data, Some(c), peer).response.value == Envelope.NewResponse(peer.parse(bytes.value).value))
      && (bytes == Some([]) ==> Use(n, a, data, Some(c), peer).response == Failure(NoDataReceived))
    ensures Use(n, a, data, Some(c), peer).conn == Some(c.(requestCounter := c.requestCounter + 1))
  {
    Connections.SendResolvesIffReplyParses(c, data, peer);
  }

  /** An `oNode` started from STOPPED always ends in ERROR with exactly one
      new error: `register` throws even when everything before it worked,
      and then the transport handle is stored and the tools were started. */
  lemma ONodeStartAlwaysErrors(n: Node, env: Env)
    requires n.kind == ONode && n.state == STOPPED
    ensures Start(n, env).state == ERROR
    ensures |Start(n, env).errors| == |n.errors| + 1 && Start(n, env).errors[..|n.errors|] == n.errors
    ensures n.p2pNode.None? && env.createNode(ONodes.Configure(n.(state := STARTING), env)).Success? ==>
      Start(n, env).errors[|n.errors|] == NotImplemented &&
      Start(n, env).p2pNode == Some(env.createNode(ONodes.Configure(n.(state := STARTING), env)).value) &&
      Start(n, env).tools == StartTools(n.tools, env)
  {
  }

  /** `start` sets STARTING before `initialize` runs the guard, so an
      `oNode` that already holds a transport node (say, one stopped after
      an earlier start) fails the guard and ends in ERROR untouched. */
  lemma ONodeRestartFailsValidate(n: Node, env: Env)
    requires n.kind == ONode && n.state == STOPPED && n.p2pNode.Some?
    ensures Start(n, env) == n.(state := ERROR, errors := n.errors + [InvalidNodeState])
  {
    assert ONodes.Validate(n.(state := STARTING)).Fail?;
  }

  /** start, stop, start on a fresh `oNode` whose transport comes up: the
      first start records NotImplemented, the stop brings it back to
      STOPPED, and the second start records InvalidNodeState. */
  lemma ONodeStartStopStart(n: Node, env: Env)
    requires n.kind == ONode && n.state == STOPPED && n.p2pNode.None?
    requires env.createNode(ONodes.Configure(n.(state := STARTING), env)).Success?
    requires env.teardown(Start(n, env).(state := STOPPING)).Pass?
    ensures Start(n, env).state == ERROR
    ensures Stop(Start(n, env), env).state == STOPPED
    ensures Start(Stop(Start(n, env), env), env).state == ERROR
    ensures Start(Stop(Start(n, env), env), env).errors == n.errors + [NotImplemented, InvalidNodeState]
  {
    var first := Start(n, env);
    ONodeStartAlwaysErrors(n, env);
    assert first.errors == n.errors + [NotImplemented];
    var stopped := Stop(first, env);
    assert stopped.p2pNode.Some?;
    ONodeRestartFailsValidate(stopped, env);
  }
}
