/** The reserved top-level addresses, all built from the global prefix. */
module Restricted {
  import Addressing

  const GLOBAL_PREFIX: string := "o://"
  const REGISTRATION: string := "register"
  const LEADER: string := "leader"
  const MCP: string := "mcp"
  const A2A: string := "a2a"

  const RegistrationAddress: string := GLOBAL_PREFIX + REGISTRATION
  const RegistrationAddressClient: string := GLOBAL_PREFIX + REGISTRATION + "/client"
  const LeaderAddress: string := GLOBAL_PREFIX + LEADER
  const McpAddress: string := GLOBAL_PREFIX + MCP
  const A2aAddress: string := GLOBAL_PREFIX + A2A

  /** The addresses ordinary nodes may not claim: registration, leader and
      MCP, in that order; the agent-to-agent address is not among them. */
  function RestrictedAddressesList(): (r: seq<string>)
    ensures r == [RegistrationAddress, LeaderAddress, McpAddress]
    ensures r == ["o://register", "o://leader", "o://mcp"]
    ensures A2aAddress !in r
    ensures forall i, j :: 0 <= i < j < |r| ==> r[i] != r[j]
  {
    assert RegistrationAddress == "o://register";
    assert LeaderAddress == "o://leader";
    assert McpAddress == "o://mcp";
    assert A2aAddress == "o://a2a";
    [RegistrationAddress, LeaderAddress, McpAddress]
  }

  lemma RestrictedValues()
    ensures RegistrationAddress == "o://register"
    ensures RegistrationAddressClient == RegistrationAddress + "/client"
    ensures LeaderAddress == "o://leader"
    ensures McpAddress == "o://mcp"
    ensures A2aAddress == "o://a2a"
    ensures GLOBAL_PREFIX == Addressing.SCHEME
  {
  }

  /** Every reserved address passes the scheme check, the listed ones
      and the two kept off the list alike. */
  lemma RestrictedAreValid()
    ensures forall v :: v in RestrictedAddressesList() ==> Addressing.Validate(Addressing.New(v))
    ensures Addressing.Validate(Addressing.New(RegistrationAddressClient))
    ensures Addressing.Validate(Addressing.New(A2aAddress))
  {
    ListedAreValid(RestrictedAddressesList());
    ClientIsValid(RegistrationAddressClient);
    BuiltFromPrefix(A2A);
  }

  lemma ListedAreValid(r: seq<string>)
    requires r == [RegistrationAddress, LeaderAddress, McpAddress]
    ensures forall v :: v in r ==> Addressing.Validate(Addressing.New(v))
  {
    BuiltFromPrefix(REGISTRATION);
    BuiltFromPrefix(LEADER);
    BuiltFromPrefix(MCP);
  }

  lemma ClientIsValid(v: string)
    requires v == RegistrationAddressClient
    ensures Addressing.Validate(Addressing.New(v))
  {
    assert v == GLOBAL_PREFIX + (REGISTRATION + "/client");
    BuiltFromPrefix(REGISTRATION + "/client");
  }

  /** The path of every reserved address is the enum member it was built
      from. */
  lemma RestrictedPaths()
    ensures Addressing.Paths(Addressing.New(RegistrationAddress)) == REGISTRATION
    ensures Addressing.Paths(Addressing.New(RegistrationAddressClient)) == REGISTRATION + "/client"
    ensures Addressing.Paths(Addressing.New(LeaderAddress)) == LEADER
    ensures Addressing.Paths(Addressing.New(McpAddress)) == MCP
    ensures Addressing.Paths(Addressing.New(A2aAddress)) == A2A
  {
    assert Addressing.Paths(Addressing.New(RegistrationAddress)) == REGISTRATION by {
      BuiltFromPrefix(REGISTRATION);
    }
    assert Addressing.Paths(Addressing.New(RegistrationAddressClient)) == REGISTRATION + "/client" by {
      ClientPath(RegistrationAddressClient);
    }
    assert Addressing.Paths(Addressing.New(LeaderAddress)) == LEADER by {
      BuiltFromPrefix(LEADER);
    }
    assert Addressing.Paths(Addressing.New(McpAddress)) == MCP by {
      BuiltFromPrefix(MCP);
    }
    assert Addressing.Paths(Addressing.New(A2aAddress)) == A2A by {
      BuiltFromPrefix(A2A);
    }
  }

  lemma ClientPath(v: string)
    requires v == RegistrationAddressClient
    ensures Addressing.Paths(Addressing.New(v)) == REGISTRATION + "/client"
  {
    assert v == GLOBAL_PREFIX + (REGISTRATION + "/client");
    BuiltFromPrefix(REGISTRATION + "/client");
  }

  /** An address built from the global prefix is valid and its path is
      the member it was built from. */
  lemma BuiltFromPrefix(m: string)
    ensures Addressing.Validate(Addressing.New(GLOBAL_PREFIX + m))
    ensures Addressing.Paths(Addressing.New(GLOBAL_PREFIX + m)) == m
  {
    Addressing.PathsAndProtocolOfSchemed(m);
  }
}
