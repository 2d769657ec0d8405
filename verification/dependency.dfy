/** A dependency a remote tool declares in its handshake: an address that
    must be invoked, with optional version and parameters, before it serves. */
module Dependencies {
  import opened Outcomes
  import opened Envelope

  /** The plain object form: the three declared fields plus whatever other
      keys the object happened to carry. */
  datatype DependencyJson = DependencyJson(
    address: string,
    version: Option<string>,
    parameters: Option<seq<Json>>,
    extra: JsonObject)

  datatype Dependency = Dependency(
    address: string,
    version: Option<string>,
    parameters: Option<seq<Json>>)

  /** `new oDependency(config)` copies the three declared fields; an absent
      optional stays absent and any other key is dropped. */
  function NewDependency(config: DependencyJson): (d: Dependency)
    ensures d.address == config.address
    ensures d.version == config.version
    ensures d.parameters == config.parameters
  {
    Dependency(config.address, config.version, config.parameters)
  }

  /** `toJSON` emits the instance's three fields and nothing else. */
  function ToJson(d: Dependency): (j: DependencyJson)
    ensures j.address == d.address && j.version == d.version && j.parameters == d.parameters
    ensures j.extra == map[]
  {
    DependencyJson(d.address, d.version, d.parameters, map[])
  }

  /** `toString` is the serialiser's text for exactly the three fields,
      with no other key. */
  function ToString(d: Dependency, stringify: DependencyJson -> string): (s: string)
    ensures s == stringify(DependencyJson(d.address, d.version, d.parameters, map[]))
  {
    stringify(ToJson(d))
  }

  /** Constructing then serialising gives the input back on the three
      declared fields, and exactly the input when it had no other keys. */
  lemma ConstructThenSerialise(c: DependencyJson)
    ensures ToJson(NewDependency(c)).address == c.address
    ensures ToJson(NewDependency(c)).version == c.version
    ensures ToJson(NewDependency(c)).parameters == c.parameters
    ensures ToJson(NewDependency(c)) == c <==> c.extra == map[]
  {
  }

  /** Serialising then constructing rebuilds the same dependency, so the
      serialised form is a fixed point and `toString` is stable under it. */
  lemma SerialiseThenConstruct(d: Dependency, stringify: DependencyJson -> string)
    ensures NewDependency(ToJson(d)) == d
    ensures ToJson(NewDependency(ToJson(d))) == ToJson(d)
    ensures ToString(NewDependency(ToJson(d)), stringify) == ToString(d, stringify)
  {
  }
}
