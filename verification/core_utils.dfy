/** Address nesting and config validation shared by all nodes. */
module CoreUtils {
  import opened Outcomes
  import opened Strings
  import opened Errors
  import opened Addressing
  import opened Config

  /** Fails exactly when the config names no address. */
  function ValidateNodeConfig(config: CoreConfig): (r: Outcome<Error>)
    ensures r.Fail? <==> config.address.None?
    ensures r.Fail? ==> r.error == ConfigError("Node address is required")
  {
    if config.address.None? then Fail(ConfigError("Node address is required")) else Pass
  }

  /** The child's path appended under the parent's value, as a new address
      with no transports; a valid parent gives a valid result. */
  function EncapsulateNode(parent: Address, child: Address): (r: Address)
    ensures r.transports == []
    ensures Validate(parent) ==> Validate(r)
  {
    New(ToString(parent) + "/" + Paths(child))
  }

  /** `o://node` nesting `o://calc` is `o://node/calc`. */
  lemma EncapsulateExample()
    ensures EncapsulateNode(New("o://node"), New("o://calc")).value == "o://node/calc"
  {
    assert New("o://calc") == New(SCHEME + "calc");
    NestSchemed(New("o://node"), "calc");
  }

  /** A child written `o://p` contributes exactly `p`. */
  lemma NestSchemed(parent: Address, p: string)
    ensures EncapsulateNode(parent, New(SCHEME + p)).value == parent.value + "/" + p
  {
    PathsAndProtocolOfSchemed(p);
  }

  /** Under a valid parent the nested address's path is the parent's
      path, a slash, and the child's path. */
  lemma PathsOfEncapsulated(b: Address, c: Address)
    requires Validate(b)
    ensures Paths(EncapsulateNode(b, c)) == Paths(b) + "/" + Paths(c)
  {
    var tail := Paths(b) + "/" + Paths(c);
    assert b.value == SCHEME + Paths(b) by {
      ValidateIsSchemePrefix(b);
    }
    assert EncapsulateNode(b, c) == New(SCHEME + tail) by {
      Reassociate(b.value, Paths(b), Paths(c));
    }
    PathsAndProtocolOfSchemed(tail);
  }

  lemma Reassociate(v: string, bp: string, cp: string)
    requires v == SCHEME + bp
    ensures v + "/" + cp == SCHEME + (bp + "/" + cp)
  {
  }

  /** Nesting associates when the middle address is valid: its scheme is
      what the outer nesting strips. */
  lemma EncapsulateAssociative(a: Address, b: Address, c: Address)
    requires Validate(b)
    ensures EncapsulateNode(EncapsulateNode(a, b), c).value ==
            EncapsulateNode(a, EncapsulateNode(b, c)).value
  {
    PathsOfEncapsulated(b, c);
    assert (a.value + "/" + Paths(b)) + "/" + Paths(c) == a.value + "/" + (Paths(b) + "/" + Paths(c));
  }

  /** Without a valid middle address, nesting is not associative: the
      right-hand grouping strips a scheme the left-hand one keeps
      (`o://a/b/o://c` against `o://a/b/c`). */
  lemma EncapsulateNeedsValidMiddle(a: Address, b: Address, c: Address)
    requires a == New("o://a") && b == New("b") && c == New("o://o://c")
    ensures !Validate(b)
    ensures EncapsulateNode(EncapsulateNode(a, b), c).value == "o://a/b/o://c"
    ensures EncapsulateNode(a, EncapsulateNode(b, c)).value == "o://a/b/c"
  {
    assert !Validate(b) by {
      UnschemedB();
    }
    assert EncapsulateNode(EncapsulateNode(a, b), c).value == "o://a/b/o://c" by {
      LeftOuter(a, b, c);
    }
    assert EncapsulateNode(a, EncapsulateNode(b, c)).value == "o://a/b/c" by {
      RightInner(b, c);
      RightOuter(a, EncapsulateNode(b, c));
    }
  }

  lemma RightOuter(a: Address, inner: Address)
    requires a == New("o://a") && Paths(inner) == "b/c"
    ensures EncapsulateNode(a, inner).value == "o://a/b/c"
  {
    assert EncapsulateNode(a, inner).value == "o://a" + "/" + "b/c";
  }

  lemma RightInner(b: Address, c: Address)
    requires b == New("b") && c == New("o://o://c")
    ensures Paths(EncapsulateNode(b, c)) == "b/c"
  {
    var bc := EncapsulateNode(b, c);
    assert bc.value == "b/o://c" by {
      InnerValue(b, c);
    }
    NestedMiddlePaths(bc);
  }

  lemma InnerValue(b: Address, c: Address)
    requires b == New("b") && c == New("o://o://c")
    ensures EncapsulateNode(b, c).value == "b/o://c"
  {
    UnschemedB();
    DoubleSchemeC();
  }

  lemma LeftOuter(a: Address, b: Address, c: Address)
    requires a == New("o://a") && b == New("b") && c == New("o://o://c")
    ensures EncapsulateNode(EncapsulateNode(a, b), c).value == "o://a/b/o://c"
  {
    var ab := EncapsulateNode(a, b);
    assert ab.value == "o://a/b" by {
      LeftInner(a, b);
    }
    OuterOfLeft(ab, c);
  }

  lemma LeftInner(a: Address, b: Address)
    requires a == New("o://a") && b == New("b")
    ensures EncapsulateNode(a, b).value == "o://a/b"
  {
    UnschemedB();
  }

  lemma OuterOfLeft(ab: Address, c: Address)
    requires ab.value == "o://a/b" && c == New("o://o://c")
    ensures EncapsulateNode(ab, c).value == "o://a/b/o://c"
  {
    DoubleSchemeC();
  }

  lemma UnschemedB()
    ensures !Validate(New("b")) && Paths(New("b")) == "b"
  {
    assert !Contains("b", SCHEME);
    UnschemedViewsUnchanged(New("b"));
  }

  lemma DoubleSchemeC()
    ensures Paths(New("o://o://c")) == "o://c"
  {
    assert "o://o://c" == SCHEME + "o://c";
    PathsAndProtocolOfSchemed("o://c");
  }

  lemma NestedMiddlePaths(a: Address)
    requires a.value == "b/o://c"
    ensures Paths(a) == "b/c"
  {
    var s := a.value;
    assert s[2..6] == SCHEME;
    assert s[0..4][0] != SCHEME[0];
    assert s[1..5][0] != SCHEME[0];
    assert FirstOccurrence(s, SCHEME, 2);
    ReplaceFirstMeaning(s, SCHEME, "", 2);
    assert s[..2] == "b/" && s[6..] == "c";
  }
}
