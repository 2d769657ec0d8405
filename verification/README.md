# o-core node protocol layer — a Dafny model

This project models the deterministic part of the o-core node layer. It covers:

- logical `o://` addresses and how they nest;
- the reserved addresses;
- the dependency and response records of the JSON-RPC envelope;
- a connection's request numbering and its run-once handshake;
- the connection cache;
- the lifecycle state machine and tool registry of the core node, in both revisions, and of the concrete `oNode`.

Everything is a pure function over immutable records. A method that mutates an object in the source returns the new record here. Foreign calls become parameters:

- The stream transport is a `Peer`. It gives the bytes a request gets back on a protocol id and how those bytes parse.
- The node's overridable hooks, the transport's `createNode`, uuids, key derivation from a seed and the working directory are fields of an `Env`. Each hook sees the node as it stands when the hook runs.
- The connection handed out by the manager's `connect` is a `dialed` argument.

Modules, one per concept:

| file | module | models |
|---|---|---|
| outcomes.dfy | Outcomes | Option / Result / Outcome |
| errors.dfy | Errors | the thrown errors, one per `throw` site |
| strings.dfy | Strings | JavaScript `startsWith` and first-occurrence `replace` |
| address.dfy | Addressing | `oAddress` |
| restricted.dfy | Restricted | `RestrictedAddresses` and the reserved address constants |
| envelope.dfy | Envelope | JSON values, requests, `oResponse` |
| dependency.dfy | Dependencies | `oDependency` |
| connection.dfy | Connections | `oConnection` |
| connection_manager.dfy | ConnectionManager | `oConnectionManager` |
| config.dfy | Config | node and transport configuration records |
| core_utils.dfy | CoreUtils | `NodeUtils.encapsulateNode`, `validateNodeConfig` |
| node_model.dfy | NodeModel | the node record, its states and constructor |
| onode.dfy | ONodes | `oNode`'s guard, `configure`, `initialize`, `register`, `use` |
| core_node.dfy | CoreNode | `start`, `stop`, `startTools`, `addTool`, `getTool`, `toolAddress`, `connect`, `use` |
| lifecycle.dfy | Lifecycle | properties that relate several lifecycle calls |

The two revisions of `oCoreNode` (`src/core.node.ts` and `src/core/core.node.ts`) share one model. `NodeKind = Core(Early) | Core(Current) | ONode` records which one a node is. The only difference in `start` is that the current revision creates a connection manager after `initialize`. `oNode` extends the current revision.

Behaviour of the code worth knowing, which the model keeps:

- `getCachedConnection` never evicts an entry whose validation fails, and the manager has no insertion path.
- `addTool` compares address objects by identity (`===`), not by value. Two tools with equal address text are both accepted.
- `send` does not trigger the handshake, and the handshake response's dependencies are never resolved.
- In `configure`, the private key, datastore and peer discovery are copied in from the spread network config. The seed, `persist` and leader transports only override them. Transports come from `config.network` alone, so the default network's transports are not used.
- `CoreConfig` as declared has no `network` or `leaderTransports` fields, but `oNode` reads both. The model's `CoreConfig` includes them.

## Model

| member | source | states |
|---|---|---|
| Strings.ReplaceFirstMeaning | src/o-address.ts:16-22 | `replace` with a string pattern returns a string without the pattern unchanged, and otherwise rewrites exactly its leftmost occurrence |
| Strings.ReplaceFirst | src/o-address.ts:16-22 | `replace` with a string pattern leaves a string that lacks the pattern unchanged; which occurrence it rewrites is stated by `Strings.ReplaceFirstMeaning` |
| Addressing.New | src/o-address.ts:4-7 | a new address stores its value verbatim and starts with no transports |
| Addressing.Validate | src/o-address.ts:9-14 | a value that passes the scheme check contains the scheme |
| Addressing.Paths | src/o-address.ts:16-18 | for a valid address, `paths` is everything after the leading `o://`; a value without `o://` anywhere comes back as is |
| Addressing.Protocol | src/o-address.ts:20-22 | for a valid address, `protocol` is `/o/` followed by everything after the leading `o://`; a value without `o://` anywhere comes back as is |
| Addressing.ToString | src/o-address.ts:24-26 | the text form is the stored value alone; the transports play no part |
| Addressing.ToMultiaddr | src/o-address.ts:28-30 | for a valid address the multiaddress text is `/o/` followed by the path; a value without `o://` is used as is |
| Addressing.FromMultiaddr | src/o-address.ts:32-34 | the result has no transports; text that starts with `/o/` gives a valid address with the same path after `o://` |
| Addressing.ValidateIsSchemePrefix | src/o-address.ts:9-14 | `validate` holds exactly when the value is `o://` followed by the rest; for a valid address the value is `o://` + `paths` |
| Addressing.PathsAndProtocolOfSchemed | src/o-address.ts:16-22 | for `o://p`: the address is valid, `paths` is `p` and `protocol` is `/o/p`, whatever `p` contains |
| Addressing.PathsKeepsLaterScheme | src/o-address.ts:16-18 | only the first `o://` is stripped: `paths` of `o://a/o://b` is `a/o://b` |
| Addressing.UnschemedViewsUnchanged | src/o-address.ts:16-22 | a value with no `o://` anywhere is invalid, and `paths` and `protocol` both return it unchanged |
| Addressing.MultiaddrRoundTrip | src/o-address.ts:28-34 | for a valid address, `fromMultiaddr(toMultiaddr(a))` is a new address with the same value and no transports |
| Addressing.MultiaddrRoundTripNeedsScheme | src/o-address.ts:20-34 | without the scheme the round trip changes the value: `/o/x` comes back as `o://x` |
| Restricted.RestrictedAddressesList | src/interfaces/restricted-addresses.enum.ts:26-30 | the restricted list is exactly register, leader and mcp in that order, without repeats, and excludes the a2a address |
| Restricted.RestrictedValues | src/interfaces/restricted-addresses.enum.ts:1-24 | the constants are `o://register`, `o://register/client`, `o://leader`, `o://mcp` and `o://a2a`, and the global prefix is the address scheme |
| Restricted.RestrictedAreValid | src/interfaces/restricted-addresses.enum.ts:9-30 | every address on the restricted list passes the scheme check, and so do the client registration and a2a addresses kept off it |
| Restricted.RestrictedPaths | src/interfaces/restricted-addresses.enum.ts:9-24 | the path of each reserved address is the enum member it was built from (`register/client` for the client address) |
| CoreUtils.ValidateNodeConfig | src/core.utils.ts:6-10 | fails exactly when the config has no address, with the config error |
| CoreUtils.EncapsulateNode | src/core.utils.ts:12-17 | nesting gives a new address with no transports, and a valid parent gives a valid result |
| CoreUtils.EncapsulateExample | src/core.utils.ts:16 | `o://calc` nested under `o://node` is `o://node/calc` |
| CoreUtils.PathsOfEncapsulated | src/core.utils.ts:16 | under a valid parent, the nested address's path is the parent's path, `/`, then the child's path |
| CoreUtils.EncapsulateAssociative | src/core.utils.ts:12-17 | when the middle address is valid, the two ways of grouping a three-level nesting give the same value |
| CoreUtils.EncapsulateNeedsValidMiddle | src/core.utils.ts:12-17 | with `a = o://a`, an invalid middle `b = b` and a doubly-schemed `c = o://o://c`, the two groupings differ (`o://a/b/o://c` against `o://a/b/c`); the inner grouping strips the second scheme the outer one keeps |
| Envelope.NewResponse | src/core/lib/o-response.ts:13-17 | the version is always the JSON-RPC version, `id` is the reply's `id` (absent if it has none), and `result` is the entire reply |
| Envelope.ResponseIdInResult | src/core/lib/o-response.ts:15-16 | a response's `id` equals the `id` inside its `result`; responses are equal exactly when their replies are |
| Dependencies.NewDependency | src/core/o-dependency.ts:11-15 | the constructor copies address, version and parameters; an absent optional stays absent |
| Dependencies.ToJson | src/core/o-dependency.ts:17-23 | `toJSON` emits the instance's three fields and no other key |
| Dependencies.ToString | src/core/o-dependency.ts:25-27 | the text is the serialiser's output for exactly the three fields, with no other key |
| Dependencies.ConstructThenSerialise | src/core/o-dependency.ts:11-23 | `new oDependency(c).toJSON()` agrees with `c` on the three fields, and equals `c` exactly when `c` has no other keys |
| Dependencies.SerialiseThenConstruct | src/core/o-dependency.ts:11-27 | rebuilding from `toJSON` gives the same dependency, so `toJSON` and `toString` are stable under it |
| Connections.NewConnection | src/core/lib/o-connection.ts:20-37 | a new connection has counter 0 and no stored handshake |
| Connections.Validate | src/core/lib/o-connection.ts:49-54 | passes exactly when the transport status is `open`, otherwise fails as invalid |
| Connections.CreateRequest | src/core/lib/o-connection.ts:56-65 | the request id is the counter before the call, and the counter goes up by one; params keep every caller key; `_connectionId` is the connection id unless the caller supplied one, which wins |
| Connections.Read | src/core/lib/o-connection.ts:39-46 | a read of zero bytes fails; otherwise the result is the parser's verdict |
| Connections.Transmit | src/core/lib/o-connection.ts:82-97 | the stream is opened on the target address's `protocol`; a failed stream, an empty read and a parse failure each give their own error; a non-empty reply that parses gives the response built from the parsed object |
| Connections.Start | src/core/lib/o-connection.ts:67-80 | the first call sends one HANDSHAKE request, with the target address value and the current counter, and returns and stores that exchange's outcome; later calls return the stored outcome, failed ones included, and send nothing |
| Connections.Send | src/core/lib/o-connection.ts:99-104 | always sends a ROUTE request numbered by the counter and carrying the caller's data, adds one to the counter, leaves the handshake alone, and returns that exchange's outcome |
| Connections.SendResolvesIffReplyParses | src/core/lib/o-connection.ts:39-104 | `send` resolves exactly when the peer answers the ROUTE request with non-empty bytes that parse, and then with the response built from them; a failed stream and an empty answer reject with their own errors |
| Connections.EmptyReplyLeavesConnectionUsable | src/core/lib/o-connection.ts:39-54 | an empty reply fails the send, but the connection still validates and its next request gets the next id |
| Connections.RunNumbersRequests | src/core/lib/o-connection.ts:56-104 | over any mix of `start` and `send` calls, the i-th request written has id counter + i, the final counter is the old one plus the number of requests written, and the connection's id and target are kept |
| Connections.RunHandshakesAtMostOnce | src/core/lib/o-connection.ts:67-80 | over any mix of calls at most one handshake is sent, none if one was already stored, and a stored outcome never changes |
| ConnectionManager.Empty | src/core/lib/o-connection-manager.ts:7 | a new manager has no address cached |
| ConnectionManager.IsCached | src/core/lib/o-connection-manager.ts:14-16 | an address is cached exactly when a new address with the same text is: only the value matters |
| ConnectionManager.GetCachedConnection | src/core/lib/o-connection-manager.ts:18-31 | returns the cached connection exactly when the key is present and the connection validates; otherwise returns nothing; never changes the cache |
| ConnectionManager.StaleEntryStaysCached | src/core/lib/o-connection-manager.ts:24-30 | a cached connection that fails validation is not returned but is still cached: there is no eviction |
| ConnectionManager.KeyedByValue | src/core/lib/o-connection-manager.ts:14-20 | addresses with equal values share one cache entry, whatever their transports |
| NodeModel.NewNode | src/core/core.node.ts:25-35 | a new node is STOPPED with no errors, tools, transport or manager; its address is the configured one, else a new `o://node`; its network is the configured one, else the default |
| ONodes.Validate | src/node/index.ts:16-20 | the guard fails exactly when a transport node exists and the state is not STOPPED |
| ONodes.Configure | src/node/index.ts:26-57 | transports are one in-memory entry followed by the configured transports (1 + n); the key is set from a non-empty seed, the datastore when `persist` is true, and bootstrap discovery when leader transports are given; otherwise each is inherited from the network config |
| ONodes.Initialize | src/node/index.ts:59-65 | the guard runs first and its failure is the result; otherwise the result is the transport node built from the assembled config |
| ONodes.Register | src/node/index.ts:71-73 | always fails as not implemented |
| ONodes.Use | src/node/index.ts:67-69 | always fails as not implemented |
| CoreNode.Initialize | src/node/index.ts:59-65 | a core node runs the `initialize` it was given; an `oNode` fails its guard with InvalidNodeState or builds its transport node from the assembled config |
| CoreNode.Register | src/node/index.ts:71-73 | a core node runs the `register` it was given; an `oNode` always fails as not implemented |
| CoreNode.Start | src/core/core.node.ts:80-103 | a no-op unless STOPPED; from STOPPED it ends RUNNING with errors unchanged, or ERROR with exactly one error appended; identity, config and tool count are kept |
| CoreNode.StartTools | src/core/core.node.ts:66-74 | each tool ends as its own `start` leaves it; this step never fails |
| CoreNode.Stop | src/core/core.node.ts:108-120 | from any state, teardown runs on the STOPPING node; the node ends STOPPED with nothing else changed if teardown passes, or ERROR with teardown's error appended |
| CoreNode.Type | src/core.node.ts:40-42 | the configured type, or UNKNOWN when none is configured |
| CoreNode.ToolAddress | src/core/core.node.ts:151-154 | a tool address is the given address nested under the node's address, and is valid when the node's is |
| CoreNode.AddTool | src/core/core.node.ts:126-133 | fails with a duplicate error exactly when some tool holds the same address object; otherwise appends the tool at the end |
| CoreNode.FirstConfiguredAt | src/core/core.node.ts:137-139 | the search returns the first tool configured at the key, or reports that no tool is |
| CoreNode.GetTool | src/core/core.node.ts:135-144 | returns the first tool whose configured address text equals the plain address looked up; fails exactly when none does, naming the nested tool address in the error |
| CoreNode.Connect | src/core/core.node.ts:51-57 | fails before any start (no manager) and when no connection is yielded; otherwise returns that connection |
| CoreNode.Use | src/core/core.node.ts:43-47 | an `oNode` always fails as not implemented; a current-revision node fails with `connect`'s error, and otherwise returns what the connection's `send` gives, rejection included, with the connection's counter advanced by one; a success needs a connection and a manager |
| Lifecycle.InitializeFailureSkipsLaterSteps | src/core/core.node.ts:85-102 | when `initialize` fails, no later step runs: the result is the node moved to ERROR with that one error appended and nothing else changed |
| Lifecycle.StartSettlesTools | src/core/core.node.ts:87-96 | after a successful `initialize`, the transport handle is stored and every tool is started on its own: a STOPPED tool settles in RUNNING or ERROR, and any other tool is untouched |
| Lifecycle.ToolFailuresDoNotPropagate | src/core/core.node.ts:88-97 | when `initialize` and `register` pass, the parent is RUNNING with no new error, whatever its tools did; in the current revision it owns an empty manager |
| Lifecycle.StartRunsIffHooksPass | src/core/core.node.ts:80-103 | for every kind of node, `start` from STOPPED ends RUNNING exactly when `initialize` succeeds and `register` then passes |
| Lifecycle.RegisterFailureRecorded | src/core/core.node.ts:93-102 | when `register` throws after a successful `initialize`, the node ends in ERROR with exactly that error appended, its transport handle stored and its tools started |
| Lifecycle.EarlyRevisionStart | src/core.node.ts:71-88 | the earlier revision has the same state machine (RUNNING exactly when `initialize` and `register` pass) and never creates a manager |
| Lifecycle.StopFromAnyState | src/core.node.ts:93-105 | `stop` from any state keeps tools and transport; on success errors are unchanged, on failure exactly one error is appended |
| Lifecycle.AddToolByIdentity | src/core.node.ts:111-118 | tools with distinct address objects are both accepted, even with equal values, and the count grows by two; re-adding the same object is refused |
| Lifecycle.AddThenGet | src/core.node.ts:111-129 | after adding a tool with a configured address, `getTool` at that address returns the first earlier tool configured at the same text if there is one, and otherwise the added tool |
| Lifecycle.ToolAddressExample | src/core.node.ts:136-139 | under the default node address, `o://calc` becomes the valid `o://node/calc` |
| Lifecycle.UseBeforeStartFails | src/core/core.node.ts:43-57 | `use` on a new current-revision node fails because there is no connection manager yet; on a new `oNode` it fails as not implemented; no connection is touched |
| Lifecycle.ONodeUseAlwaysFails | src/node/index.ts:67-69 | an `oNode`'s `use` fails as not implemented before and after `start`, whatever connection could be reached |
| Lifecycle.UseResolvesIffReplyParses | src/core/core.node.ts:43-47 | once connected, `use` resolves exactly when the ROUTE request's reply is non-empty and parses, and then with the response built from it; an empty reply rejects with NoDataReceived; the connection numbers one more request either way |
| Lifecycle.ONodeStartAlwaysErrors | src/node/index.ts:71-73 | an `oNode` started from STOPPED always ends in ERROR with exactly one new error; when its transport comes up, that error is NotImplemented from `register` |
| Lifecycle.ONodeRestartFailsValidate | src/node/index.ts:59-61 | an `oNode` that already holds a transport node fails its guard on start (the state is already STARTING) and ends in ERROR with only that error added |
| Lifecycle.ONodeStartStopStart | src/node/index.ts:16-20 | start, stop, start on a fresh `oNode`: the first start records NotImplemented, stop returns it to STOPPED, and the second start records InvalidNodeState |

## Left out

- Byte-stream I/O (the pushable source, `sink`, `Uint8ArrayList`, text encoding, `JSON.parse`) and libp2p's `newStream`, `close` and `createNode`: these are foreign calls, so they are parameters (`Peer`, `Env.createNode`). `oConnection.close` only delegates to the transport and is not modelled.
- Connections.Transmit: states the protocol id and the reply, not the serialised bytes written, because framing is done by a library outside this model.
- JSON numbers are modelled as integers, and a reply is assumed to parse to a JSON object. A bare `null` reply, which makes `new oResponse` throw, is not modelled.
- Concurrency: `Promise.all` in `startTools` is modelled as a sequential map. Two `start` calls racing on one connection are modelled as one after the other, and the memoised promise as the stored outcome.
- CoreNode.Stop: `teardown` calls each tool's `stop` without awaiting it, so the children's own state changes are concurrent and are not modelled. Stop leaves the tools as they were.
- `oConnectionManager.connect` is not part of the model (the manager defines no such method), so the connection it yields is an argument. Cache insertion, dialing and eviction are absent from the manager, and so from the model.
- Handshake dependency resolution and the `dependencies`/`parameters` fields of `oConnection` are never used, so they are not modelled.
- `oRequest` is not part of this model. A request is its id, method name and params. The second `new oRequest(params)` in `start` is treated as the same request.
- `JSONRPC_VERSION` and the method names come from a protocol package that is not part of this model. They are taken as `"2.0"` (JSON-RPC 2.0), `"handshake"` and `"route"`.
- `Strings.ReplaceFirst`: the special `$` patterns of JavaScript replacement strings are not modelled. No replacement used here contains `$`.
- Connections.CreateRequest: the counter is an unbounded natural. JavaScript numbers stay exact only up to 2^53.
- Multiaddress parsing: a multiaddress is kept as the text it was built from, assuming the library prints back what it parsed.
- Uuids (connection ids, the in-memory transport name), Ed25519 key derivation from a seed (`src/core-node.utils.ts`) and the process working directory are parameters.
- Logging, the logger name (`config.name`), the earlier revision's `networkCard` getter (it reads the transport's live multiaddresses), the no-op `this.p2pNode = this.p2pNode`, the node-type enum's values, the virtual node, the smoke-test script and the events enum: none of these has protocol logic.
- CoreNode.Use: requires a current-revision node or an `oNode`, because the earlier revision declares `use` abstract (src/core.node.ts:46) and gives it no behaviour to model.
- Shared mutable objects: nodes, tools and connections are values here, while the source holds them by reference and updates them in place. So a tool changed by the caller after `addTool`, or a tool shared by two parents, is not seen through the parent. Likewise, a cached connection used by `use` comes back as a new value (`Usage.conn`) and is not written back into the manager's cache.
