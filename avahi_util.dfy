/** Utilities of the Avahi backend (avahi/avahi_util.rs): interface indices with
    their `u32`/`i32` casts, return codes, and the service-type strings Avahi takes,
    including the `_sub` form of section 7.1 of RFC 6763. */
module AvahiUtil {
  import opened Common
  import opened ServiceTypes

  const AVAHI_IF_UNSPEC: i32 := -1

  /** `x as i32` on a `u32`: two's-complement reinterpretation. */
  function AsI32(x: u32): (r: i32)
    ensures r == x || r == x - 0x1_0000_0000
  {
    if x <= I32_MAX then x else x - 0x1_0000_0000
  }

  /** `x as u32` on an `i32`. */
  function AsU32(x: i32): (r: u32)
    ensures r == x || r == x + 0x1_0000_0000
  {
    if x >= 0 then x else x + 0x1_0000_0000
  }

  /** The two casts are inverse bijections. */
  lemma CastsInverse(x: u32, y: i32)
    ensures AsU32(AsI32(x)) == x
    ensures AsI32(AsU32(y)) == y
  {
  }

  /** `interface_index`: `Unspec` is `AVAHI_IF_UNSPEC`; an index wraps into `i32`. */
  function InterfaceIndex(interface: NetworkInterface): (r: i32)
    ensures interface.Unspec? ==> r == AVAHI_IF_UNSPEC
    ensures interface.AtIndex? ==> (r - interface.index) % 0x1_0000_0000 == 0
  {
    match interface
    case Unspec => AVAHI_IF_UNSPEC
    case AtIndex(i) => AsI32(i)
  }

  /** `interface_from_index`. */
  function InterfaceFromIndex(index: i32): (r: NetworkInterface)
    ensures index == AVAHI_IF_UNSPEC <==> r.Unspec?
    ensures r.AtIndex? ==> AsI32(r.index) == index
  {
    if index == AVAHI_IF_UNSPEC then Unspec else AtIndex(AsU32(index))
  }

  /** Every native index survives the trip through `NetworkInterface`; the way back
      fails only for `AtIndex(0xFFFF_FFFF)`, whose cast is `AVAHI_IF_UNSPEC`. */
  lemma {:induction false} InterfaceRoundTrip(interface: NetworkInterface, index: i32)
    ensures InterfaceIndex(InterfaceFromIndex(index)) == index
    ensures InterfaceFromIndex(InterfaceIndex(interface)) == interface <==> interface != AtIndex(0xFFFF_FFFF)
  {
    CastsInverse(0, index);
    if interface.AtIndex? {
      CastsInverse(interface.index, index);
    }
  }

  /** `sys_exec`: non-negative codes succeed; a negative one is reported with the
      text `avahi_strerror` gives for it (`getError`). */
  function SysExec(code: i32, message: string, getError: i32 -> string): (r: Result<Unit>)
    ensures r.Ok? <==> code >= 0
    ensures r.Err? ==> r.msg == message + ": `" + getError(code) + "`"
  {
    if code < 0 then Err(message + ": `" + getError(code) + "`") else Ok(Unit)
  }

  /** `format_service_type`: `_name._protocol`, without sub-types. */
  function FormatServiceType(t: ServiceType): (r: string)
    ensures r == ServiceTypes.ToString(ServiceType(t.name, t.protocol, []))
  {
    "_" + t.name + "._" + t.protocol
  }

  /** The Avahi kind is the string form of the service type stripped of its
      sub-types, and parses back to it. */
  lemma FormatServiceTypeRoundTrip(t: ServiceType)
    requires ValidPart(t.name) && ValidPart(t.protocol)
    ensures FormatServiceType(t) == ToString(ServiceType(t.name, t.protocol, []))
    ensures HeadHasDot(FormatServiceType(t))
    ensures FromStrOf(FormatServiceType(t)) == Ok(ServiceType(t.name, t.protocol, []))
  {
    FromStrToString(ServiceType(t.name, t.protocol, []));
  }

  /** `format_sub_type`: `_sub._sub.kind`, with the sub-type's own leading '_' kept
      rather than doubled. */
  function FormatSubType(subType: string, kind: string): (r: string)
    ensures r == "_" + StripUnderscore(subType) + "._sub." + kind
  {
    (if StartsWith(subType, "_") then "" else "_") + subType + "._sub." + kind
  }

  /** Whether or not the sub-type is written with its underscore, the label is the same. */
  lemma FormatSubTypeIgnoresUnderscore(subType: string, kind: string)
    requires !StartsWith(subType, "_")
    ensures FormatSubType("_" + subType, kind) == FormatSubType(subType, kind)
  {
    assert StartsWith("_" + subType, "_");
  }

  /** `format_browser_type`: the kind, or with sub-types the first one's `_sub` name. */
  function FormatBrowserType(t: ServiceType): (r: string)
    ensures |t.subTypes| == 0 ==> r == FormatServiceType(t)
    ensures |t.subTypes| > 0 ==> r == FormatSubType(t.subTypes[0], FormatServiceType(t))
  {
    var kind := FormatServiceType(t);
    if |t.subTypes| == 0 then kind else FormatSubType(t.subTypes[0], kind)
  }

  /** Only the first sub-type is browsed; the others make no difference. */
  lemma FormatBrowserTypeUsesFirstSubType(t: ServiceType, more: seq<string>)
    requires |t.subTypes| > 0
    ensures FormatBrowserType(ServiceType(t.name, t.protocol, t.subTypes + more)) == FormatBrowserType(t)
  {
  }

  lemma FormatServiceTypeExamples()
    ensures FormatServiceType(ServiceType("http", "tcp", [])) == "_http._tcp"
    ensures FormatBrowserType(ServiceType("http", "tcp", [])) == "_http._tcp"
  {
  }

  lemma FormatSubTypeExamples()
    ensures FormatSubType("foo", "_http._tcp") == "_foo._sub._http._tcp"
    ensures FormatSubType("_foo", "_http._tcp") == "_foo._sub._http._tcp"
  {
    assert "foo"[..1][0] == 'f';
    assert "_foo"[..1] == "_";
  }

  /** Browsing `_http._tcp` with the sub-type `printer` looks for its `_sub` name. */
  lemma FormatBrowserTypeExample()
    ensures FormatBrowserType(ServiceType("http", "tcp", ["printer"])) == "_printer._sub._http._tcp"
  {
    var t := ServiceType("http", "tcp", ["printer"]);
    assert FormatServiceType(t) == "_http._tcp";
    assert StripUnderscore("printer") == "printer" by {
      assert "printer"[..1] == "p";
    }
    assert "_" + "printer" + "._sub." + "_http._tcp" == "_printer._sub._http._tcp";
  }

  lemma InterfaceExamples()
    ensures InterfaceIndex(Unspec) == AVAHI_IF_UNSPEC && InterfaceIndex(AtIndex(1)) == 1
    ensures InterfaceFromIndex(AVAHI_IF_UNSPEC) == Unspec && InterfaceFromIndex(1) == AtIndex(1)
    ensures InterfaceIndex(AtIndex(0xFFFF_FFFF)) == AVAHI_IF_UNSPEC
  {
  }
}
