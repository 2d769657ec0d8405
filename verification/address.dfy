/** Logical node addresses `o://<path>`: the scheme check, the derived
    `paths` and `protocol` views, and the conversion to and from the
    transport's multiaddress text. */
module Addressing {
  import opened Strings

  /** The scheme every logical address starts with. */
  const SCHEME: string := "o://"
  /** What the scheme becomes in a stream protocol id. */
  const PROTOCOL_PREFIX: string := "/o/"

  /** A transport endpoint, kept as the text the transport library prints. */
  datatype Multiaddr = Multiaddr(text: string)

  datatype Address = Address(value: string, transports: seq<Multiaddr>)

  /** `new oAddress(value)`: the value verbatim and no transports yet. */
  function New(value: string): (a: Address)
    ensures a.value == value && a.transports == []
  {
    Address(value, [])
  }

  /** `validate`: the value starts with the scheme, that is, it is the
      scheme followed by a path. */
  function Validate(a: Address): (r: bool)
    ensures r ==> Contains(a.value, SCHEME)
  {
    StartsWithContains(a.value, SCHEME);
    StartsWith(a.value, SCHEME)
  }

  /** `paths`: the value with the first `o://` removed, so for a valid
      address what follows the scheme, and for a value without the scheme
      the value itself. */
  function Paths(a: Address): (p: string)
    ensures Validate(a) ==> p == a.value[|SCHEME|..]
    ensures !Contains(a.value, SCHEME) ==> p == a.value
  {
    if Validate(a) then
      ReplaceFirstAtFront(SCHEME, a.value[|SCHEME|..], "");
      ReplaceFirst(a.value, SCHEME, "")
    else
      ReplaceFirst(a.value, SCHEME, "")
  }

  /** `protocol`: the value with the first `o://` replaced by `/o/`, so
      for a valid address the prefix followed by its path. */
  function Protocol(a: Address): (p: string)
    ensures Validate(a) ==> p == PROTOCOL_PREFIX + a.value[|SCHEME|..]
    ensures !Contains(a.value, SCHEME) ==> p == a.value
  {
    if Validate(a) then
      ReplaceFirstAtFront(SCHEME, a.value[|SCHEME|..], PROTOCOL_PREFIX);
      ReplaceFirst(a.value, SCHEME, PROTOCOL_PREFIX)
    else
      ReplaceFirst(a.value, SCHEME, PROTOCOL_PREFIX)
  }

  /** `toString` hands back the stored value alone, so two addresses with
      the same text are indistinguishable to anything keyed by it. */
  function ToString(a: Address): (s: string)
    ensures s == a.value
  {
    a.value
  }

  /** `toMultiaddr`: the protocol view as a multiaddress. */
  function ToMultiaddr(a: Address): (m: Multiaddr)
    ensures Validate(a) ==> m.text == PROTOCOL_PREFIX + a.value[|SCHEME|..]
    ensures !Contains(a.value, SCHEME) ==> m.text == a.value
  {
    Multiaddr(Protocol(a))
  }

  /** `fromMultiaddr`: the first `/o/` becomes `o://`, so text that starts
      with the prefix gives a valid address with the same path. */
  function FromMultiaddr(ma: Multiaddr): (a: Address)
    ensures a.transports == []
    ensures StartsWith(ma.text, PROTOCOL_PREFIX) ==>
      Validate(a) && a.value[|SCHEME|..] == ma.text[|PROTOCOL_PREFIX|..]
  {
    if StartsWith(ma.text, PROTOCOL_PREFIX) then
      var rest := ma.text[|PROTOCOL_PREFIX|..];
      assert ma.text == PROTOCOL_PREFIX + rest;
      ReplaceFirstAtFront(PROTOCOL_PREFIX, rest, SCHEME);
      assert (SCHEME + rest)[..|SCHEME|] == SCHEME;
      New(ReplaceFirst(ma.text, PROTOCOL_PREFIX, SCHEME))
    else
      New(ReplaceFirst(ma.text, PROTOCOL_PREFIX, SCHEME))
  }

  /** A value passes the scheme check exactly when it is the scheme
      followed by some path, and that path is what `paths` yields. */
  lemma ValidateIsSchemePrefix(a: Address)
    ensures Validate(a) <==> |SCHEME| <= |a.value| && a.value == SCHEME + a.value[|SCHEME|..]
    ensures Validate(a) ==> a.value == SCHEME + Paths(a)
  {
    if Validate(a) {
      assert a.value == SCHEME + a.value[|SCHEME|..];
      ReplaceFirstAtFront(SCHEME, a.value[|SCHEME|..], "");
    }
  }

  /** For `o://p` the derived views are `p` and `/o/p`, even when `p`
      itself contains `o://` further on. */
  lemma PathsAndProtocolOfSchemed(p: string)
    ensures Validate(New(SCHEME + p))
    ensures Paths(New(SCHEME + p)) == p
    ensures Protocol(New(SCHEME + p)) == PROTOCOL_PREFIX + p
  {
    assert (SCHEME + p)[..|SCHEME|] == SCHEME;
    ReplaceFirstAtFront(SCHEME, p, "");
    ReplaceFirstAtFront(SCHEME, p, PROTOCOL_PREFIX);
  }

  /** Only the first `o://` is stripped. */
  lemma PathsKeepsLaterScheme()
    ensures Paths(New("o://a/o://b")) == "a/o://b"
  {
    assert "o://a/o://b" == SCHEME + "a/o://b";
    PathsAndProtocolOfSchemed("a/o://b");
  }

  /** A value with no `o://` anywhere passes through both views unchanged. */
  lemma UnschemedViewsUnchanged(a: Address)
    requires !Contains(a.value, SCHEME)
    ensures Paths(a) == a.value && Protocol(a) == a.value
    ensures !Validate(a)
  {
    if Validate(a) {
      StartsWithContains(a.value, SCHEME);
    }
  }

  /** `fromMultiaddr(toMultiaddr(a))` gives back a valid address's value,
      with a fresh empty transport list. */
  lemma MultiaddrRoundTrip(a: Address)
    requires Validate(a)
    ensures FromMultiaddr(ToMultiaddr(a)) == New(a.value)
  {
    var p := a.value[|SCHEME|..];
    assert a.value == SCHEME + p;
    PathsAndProtocolOfSchemed(p);
    ReplaceFirstAtFront(PROTOCOL_PREFIX, p, SCHEME);
  }

  /** Without the scheme the round trip can change the value: `/o/x`
      has no `o://` to rewrite, but comes back as `o://x`. */
  lemma MultiaddrRoundTripNeedsScheme()
    ensures !Validate(New("/o/x"))
    ensures FromMultiaddr(ToMultiaddr(New("/o/x"))).value == "o://x"
  {
    var a := New("/o/x");
    assert a.value[0..4][0] != SCHEME[0];
    assert !Contains(a.value, SCHEME);
    UnschemedViewsUnchanged(a);
    ReplaceFirstAtFront(PROTOCOL_PREFIX, "x", SCHEME);
  }
}
