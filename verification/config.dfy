/** Configuration records of a node and of its transport. */
module Config {
  import opened Outcomes
  import opened Addressing

  /** An address object: `ref` stands for its identity, which the tool
      registry compares with `===`; `addr` is its contents. */
  datatype AddressObject = AddressObject(ref: nat, addr: Address)

  /** Node kinds; the enum's names are not part of this model. */
  datatype NodeType = Unknown | Named(name: string)

  datatype PrivateKey = PrivateKey(handle: nat)

  /** A file-system datastore under `<cwd>/.olane/datastore`. */
  datatype Datastore = FsDatastore(cwd: string)

  /** Bootstrap peer discovery from a list of transport addresses. */
  datatype PeerDiscovery = Bootstrap(list: seq<string>)

  datatype Libp2pConfig = Libp2pConfig(
    transports: seq<string>,
    privateKey: Option<PrivateKey>,
    datastore: Option<Datastore>,
    peerDiscovery: Option<seq<PeerDiscovery>>)

  datatype CoreConfig = CoreConfig(
    address: Option<AddressObject>,
    nodeType: Option<NodeType>,
    network: Option<Libp2pConfig>,
    seed: Option<string>,
    persist: Option<bool>,
    leaderTransports: Option<seq<string>>)
}
