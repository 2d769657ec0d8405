/** Per-node cache of connections keyed by the target address's string,
    with validation on every read. Entries are never removed. */
module ConnectionManager {
  import opened Outcomes
  import opened Addressing
  import opened Connections

  datatype Manager = Manager(cache: map<string, Connection>)

  /** A new manager caches nothing. */
  function Empty(): (m: Manager)
    ensures forall a: Address :: !IsCached(m, a)
  {
    Manager(map[])
  }

  /** `isCached`: the address's text is a key, so only the value matters
      and a new address with the same text is cached too. */
  function IsCached(m: Manager, a: Address): (r: bool)
    ensures r <==> ToString(New(a.value)) in m.cache
  {
    ToString(a) in m.cache
  }

  /** The manager after the lookup, and the connection handed back. */
  datatype Lookup = Lookup(manager: Manager, connection: Option<Connection>)

  /** Returns the cached connection only when there is one for the key and
      it still validates; otherwise nothing. The cache is left as it was,
      a stale entry included. */
  function GetCachedConnection(m: Manager, a: Address): (r: Lookup)
    ensures r.manager == m
    ensures r.connection.Some? <==> IsCached(m, a) && Connections.Validate(m.cache[ToString(a)]).Pass?
    ensures r.connection.Some? ==> r.connection.value == m.cache[ToString(a)]
  {
    var key := ToString(a);
    if key !in m.cache then Lookup(m, None)
    else match Connections.Validate(m.cache[key])
      case Fail(_) => Lookup(m, None)
      case Pass => Lookup(m, Some(m.cache[key]))
  }

  /** A connection that no longer validates is reported missing but stays
      cached: there is no eviction. */
  lemma StaleEntryStaysCached(m: Manager, a: Address)
    requires IsCached(m, a)
    requires m.cache[ToString(a)].status != OPEN
    ensures GetCachedConnection(m, a).connection == None
    ensures IsCached(GetCachedConnection(m, a).manager, a)
  {
  }

  /** The key is the address text alone: addresses with equal values,
      whatever their transports, share one entry. */
  lemma KeyedByValue(m: Manager, a: Address, b: Address)
    requires a.value == b.value
    ensures IsCached(m, a) <==> IsCached(m, b)
    ensures GetCachedConnection(m, a) == GetCachedConnection(m, b)
  {
  }
}
