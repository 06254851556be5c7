/**
 * ServiceType: the DNS-SD service type that the Server publishes under and
 * the ServicesBrowser searches for, rendered as `_<name>._<protocol>`
 * (section 7 of RFC 6763).
 */
module ServiceTypes {
  import opened Wrappers

  /** The transport protocol label of a service type. */
  datatype ServiceProtocol = ServiceProtocol(value: string)

  /** `ServiceProtocol.tcp`. */
  const Tcp: ServiceProtocol := ServiceProtocol("tcp")

  datatype ServiceType = ServiceType(name: string, serviceProtocol: ServiceProtocol)
  {
    /** The service-type string `_<name>._<protocol>`. */
    function Value(): (r: string)
      ensures |r| == |name| + |serviceProtocol.value| + 3
      ensures r[0] == '_'
    {
      "_" + name + "._" + serviceProtocol.value
    }
  }

  /** `ServiceType.test`, the type the application publishes and browses. */
  const Test: ServiceType := ServiceType("test", Tcp)

  /**
   * Reads the service name back out of a service-type string, for a known
   * protocol: strips the leading `_` and the trailing `._<protocol>`.
   */
  function ParseName(value: string, serviceProtocol: ServiceProtocol): Option<string>
  {
    var suffix := "._" + serviceProtocol.value;
    if |value| >= 1 + |suffix| && value[0] == '_' && value[|value| - |suffix|..] == suffix
    then Some(value[1..|value| - |suffix|])
    else None
  }

  /** For a fixed protocol the service-type string gives back its name. */
  lemma ParseNameOfValue(t: ServiceType)
    ensures ParseName(t.Value(), t.serviceProtocol) == Some(t.name)
  {
    var v, suffix := t.Value(), "._" + t.serviceProtocol.value;
    assert v == ("_" + t.name) + suffix;
    assert v[|v| - |suffix|..] == suffix;
    assert v[1..|v| - |suffix|] == t.name;
  }

  /** Every string that parses is the service-type string of what it parses to. */
  lemma ValueOfParsedName(value: string, serviceProtocol: ServiceProtocol, name: string)
    requires ParseName(value, serviceProtocol) == Some(name)
    ensures ServiceType(name, serviceProtocol).Value() == value
  {
  }

  /** Position of the first `c` in `s`, or `|s|` when there is none. */
  function FirstIndexOf(s: string, c: char): (i: nat)
    ensures i <= |s|
    ensures i < |s| ==> s[i] == c
    ensures c !in s[..i]
  {
    if s == [] || s[0] == c then 0 else 1 + FirstIndexOf(s[1..], c)
  }

  /** Looking past a prefix that does not contain `c`. */
  lemma {:induction false} FirstIndexOfAppend(a: string, b: string, c: char)
    requires c !in a
    ensures FirstIndexOf(a + b, c) == |a| + FirstIndexOf(b, c)
  {
    if a == [] {
      assert a + b == b;
    } else {
      assert (a + b)[0] == a[0] != c;
      assert (a + b)[1..] == a[1..] + b;
      FirstIndexOfAppend(a[1..], b, c);
    }
  }

  /** In a service-type string whose name has no dot, the first dot ends the name. */
  lemma FirstDotEndsName(t: ServiceType)
    requires '.' !in t.name
    ensures FirstIndexOf(t.Value(), '.') == |t.name| + 1
  {
    assert t.Value() == ("_" + t.name) + ("._" + t.serviceProtocol.value);
    FirstIndexOfAppend("_" + t.name, "._" + t.serviceProtocol.value, '.');
  }

  /**
   * When neither name contains a dot the rendering is injective: the first
   * dot of the string ends the name, so equal strings mean equal types.
   */
  lemma ValueInjective(t1: ServiceType, t2: ServiceType)
    requires '.' !in t1.name && '.' !in t2.name
    requires t1.Value() == t2.Value()
    ensures t1 == t2
  {
    var v := t1.Value();
    FirstDotEndsName(t1);
    FirstDotEndsName(t2);
    var n := |t1.name|;
    assert t1.name == v[1..1 + n] == t2.name;
    assert t1.serviceProtocol.value == v[3 + n..] == t2.serviceProtocol.value;
  }

  /**
   * Without that restriction it is not: a dot in the name can be traded
   * for a dot in the protocol label.
   */
  lemma ValueNotInjectiveWithDottedNames()
    ensures ServiceType("a._b", ServiceProtocol("c")).Value() == ServiceType("a", ServiceProtocol("b._c")).Value()
  {
  }

  /** The constants the application uses. */
  lemma TestValue()
    ensures Tcp.value == "tcp"
    ensures Test.Value() == "_test._tcp"
  {
  }
}
