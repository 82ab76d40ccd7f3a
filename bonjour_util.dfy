/** Utilities of the Bonjour backend (bonjour/bonjour_util.rs): domain normalisation,
    interface indices, return codes and the comma-separated `regtype` form. */
module BonjourUtil {
  import opened Common
  import opened ServiceTypes

  const BONJOUR_IF_UNSPEC: u32 := 0

  /** `normalize_domain`: drops one trailing '.'. The source indexes the last
      character by byte length, so an empty or non-ASCII domain panics. */
  function NormalizeDomain(domain: string): (r: string)
    requires |domain| > 0 && Ascii(domain)
    ensures domain[|domain| - 1] == '.' ==> domain == r + "."
    ensures domain[|domain| - 1] != '.' ==> r == domain
  {
    if domain[|domain| - 1] == '.' then domain[..|domain| - 1] else domain
  }

  /** Only the last dot goes, so the result may still end with one. */
  lemma NormalizeDomainRemovesOneDot(d: string)
    requires Ascii(d)
    ensures Ascii(d + ".") && NormalizeDomain(d + ".") == d
    ensures Ascii(d + "..") && NormalizeDomain(d + "..") == d + "."
  {
    assert (d + "..")[..|d| + 1] == d + ".";
  }

  lemma NormalizeDomainExamples()
    ensures NormalizeDomain("foo.bar.baz.") == "foo.bar.baz"
    ensures NormalizeDomain("foo.bar.baz") == "foo.bar.baz"
  {
    NormalizeDomainRemovesOneDot("foo.bar.baz");
  }

  /** `interface_index`. */
  function InterfaceIndex(interface: NetworkInterface): (r: u32)
    ensures interface.AtIndex? ==> r == interface.index
    ensures interface.Unspec? ==> r == BONJOUR_IF_UNSPEC
  {
    match interface
    case Unspec => BONJOUR_IF_UNSPEC
    case AtIndex(i) => i
  }

  /** `interface_from_index`: the unspecified index is `Unspec`, any other names itself. */
  function InterfaceFromIndex(index: u32): (r: NetworkInterface)
    ensures r.Unspec? <==> index == BONJOUR_IF_UNSPEC
    ensures r.AtIndex? ==> r.index == index
  {
    if index == BONJOUR_IF_UNSPEC then Unspec else AtIndex(index)
  }

  /** Every native index survives the trip through `NetworkInterface`; every
      interface survives the trip back except `AtIndex(0)`, which reads as `Unspec`. */
  lemma InterfaceRoundTrip(interface: NetworkInterface, index: u32)
    ensures InterfaceIndex(InterfaceFromIndex(index)) == index
    ensures InterfaceFromIndex(InterfaceIndex(interface)) == interface <==> interface != AtIndex(0)
    ensures InterfaceIndex(Unspec) == 0 && InterfaceIndex(AtIndex(42)) == 42
  {
  }

  /** `sys_exec`: `func` is called once; its code is the `code` argument. */
  function SysExec(code: i32, message: string): (r: Result<Unit>)
    ensures r.Ok? <==> code >= 0
    ensures r.Err? ==> r.msg == message + " (code: " + IntToString(code) + ")"
  {
    if code < 0 then Err(message + " (code: " + IntToString(code) + ")") else Ok(Unit)
  }

  lemma SysExecExamples()
    ensures SysExec(-42, "uh oh spaghetti-o") == Err("uh oh spaghetti-o (code: -42)")
    ensures SysExec(0, "success") == Ok(Unit)
  {
  }

  /** `format_regtype`: the head `_name._protocol` and each `_sub`, joined with ','. */
  function FormatRegtype(t: ServiceType): string {
    Join(["_" + t.name + "._" + t.protocol] + Underscored(t.subTypes), ",")
  }

  /** The Bonjour regtype is the service type's own string form. */
  lemma FormatRegtypeIsToString(t: ServiceType)
    ensures FormatRegtype(t) == ServiceTypes.ToString(t)
  {
    ToStringSegments(t);
  }

  /** The sub-type segments, each stripped of one '_' and passed to
      `check_valid_characters`; the first rejection is the error. */
  function CheckedSubTypes(segments: seq<string>, check: CharCheck): (r: Result<seq<string>>)
    ensures r.Ok? <==> forall i :: 0 <= i < |segments| ==> check(StripUnderscore(segments[i])).None?
    ensures r.Ok? ==> |r.value| == |segments|
    ensures r.Ok? ==> forall i :: 0 <= i < |segments| ==> r.value[i] == StripUnderscore(segments[i])
    ensures r.Err? ==>
      exists i :: 0 <= i < |segments| && check(StripUnderscore(segments[i])) == Some(r.msg)
        && forall j :: 0 <= j < i ==> check(StripUnderscore(segments[j])).None?
  {
    if |segments| == 0 then Ok([])
    else
      match check(StripUnderscore(segments[0]))
      case Some(e) => Err(e)
      case None =>
        match CheckedSubTypes(segments[1..], check)
        case Err(e) =>
          var i :| 0 <= i < |segments[1..]| && check(StripUnderscore(segments[1..][i])) == Some(e)
            && forall j :: 0 <= j < i ==> check(StripUnderscore(segments[1..][j])).None?;
          assert segments[i + 1] == segments[1..][i];
          assert forall j :: 1 <= j < i + 1 ==> segments[j] == segments[1..][j - 1];
          Err(e)
        case Ok(rest) => Ok([StripUnderscore(segments[0])] + rest)
  }

  /** A native regtype `parse_regtype` can read without panicking once
      `normalize_domain` has dropped its trailing '.'. */
  predicate ParsableRegtype(kind: string) {
    |kind| > 0 && Ascii(kind) && HeadHasDot(NormalizeDomain(kind))
  }

  /** `parse_regtype`: the first segment goes through `ServiceType::from_str`, which
      panics unless it holds a '.'; the remaining segments are the sub-types. */
  function ParseRegtype(regtype: string, check: CharCheck): (r: Result<ServiceType>)
    requires HeadHasDot(regtype)
  {
    var types := Split(regtype, ',');
    SplitNoSeparator(types[0], ',');
    match FromStrOf(types[0])
    case Err(e) => Err(e)
    case Ok(t) =>
      match CheckedSubTypes(types[1..], check)
      case Err(e) => Err(e)
      case Ok(subTypes) => WithSubTypesOf(t.name, t.protocol, subTypes)
  }

  /** Parsing succeeds exactly when every sub-type segment, stripped of its '_', is
      accepted by `check_valid_characters` and is free of '.' and ','; name and
      protocol are those of the head. */
  lemma ParseRegtypeOutcome(regtype: string, check: CharCheck)
    requires HeadHasDot(regtype)
    ensures var types := Split(regtype, ',');
      ParseRegtype(regtype, check).Ok? <==>
        forall i :: 1 <= i < |types| ==>
          check(StripUnderscore(types[i])).None? && ValidPart(StripUnderscore(types[i]))
    ensures var types := Split(regtype, ',');
      ParseRegtype(regtype, check).Ok? ==>
        '.' in types[0] && ParseRegtype(regtype, check).value.name == StripUnderscore(Split(types[0], '.')[0])
        && ParseRegtype(regtype, check).value.protocol == StripUnderscore(Split(types[0], '.')[1])
        && ParseRegtype(regtype, check).value.subTypes == StrippedTail(types)
  {
    var types := Split(regtype, ',');
    SplitNoSeparator(types[0], ',');
    var head := Split(types[0], '.');
    assert FromStrOf(types[0]) == Ok(ServiceType(StripUnderscore(head[0]), StripUnderscore(head[1]), []));
    var tail := types[1..];
    var c := CheckedSubTypes(tail, check);
    if c.Ok? {
      assert c.value == StrippedTail(types);
      forall i | 1 <= i < |types|
        ensures ValidPart(StripUnderscore(types[i])) <==> ValidPart(c.value[i - 1])
      {
        assert tail[i - 1] == types[i];
      }
      if ParseRegtype(regtype, check).Ok? {
        assert ValidSubTypes(c.value);
      } else {
        var k :| 0 <= k < |c.value| && !ValidPart(c.value[k]);
        assert !ValidPart(StripUnderscore(types[k + 1]));
      }
    } else {
      var k :| 0 <= k < |tail| && check(StripUnderscore(tail[k])) == Some(c.msg);
      assert tail[k] == types[k + 1];
    }
  }

  /** Round trip: a valid service type whose sub-types the character check accepts
      parses back from its regtype. */
  lemma ParseFormatRegtype(t: ServiceType, check: CharCheck)
    requires ValidType(t)
    requires forall i :: 0 <= i < |t.subTypes| ==> check(t.subTypes[i]).None?
    ensures HeadHasDot(FormatRegtype(t))
    ensures ParseRegtype(FormatRegtype(t), check) == Ok(t)
  {
    FormatRegtypeIsToString(t);
    FromStrToString(t);
    var types := Split(FormatRegtype(t), ',');
    ParseRegtypeOutcome(FormatRegtype(t), check);
    assert StrippedTail(types) == t.subTypes;
    forall i | 1 <= i < |types|
      ensures check(StripUnderscore(types[i])).None? && ValidPart(StripUnderscore(types[i]))
    {
      assert StripUnderscore(types[i]) == StrippedTail(types)[i - 1];
    }
    assert '.' in types[0];
    var head := Split(types[0], '.');
    assert FromStrOf(FormatRegtype(t)).value.name == StripUnderscore(head[0]);
  }

  // ---------------------------------------------------------------------------
  // A regtype without a '.' in its first segment

  /** The test `parse_regtype_failure_invalid_regtype` expects `"foobar"` to be
      rejected with "invalid name and protocol", but as written `from_str` indexes
      `head[1]` of a one-piece head: `"foobar"` lies outside `ParseRegtype`'s domain. */
  lemma ParseRegtypeRejectsFoobarOnlyByPanic()
    ensures !HeadHasDot("foobar")
  {
    SplitNoSeparator("foobar", ',');
  }

  /** The intended parser: a first segment without '.' is an error, as the test
      states and as the macOS backend does. */
  function ParseRegtypeChecked(regtype: string, check: CharCheck): (r: Result<ServiceType>)
    ensures !HeadHasDot(regtype) ==> r == Err("invalid name and protocol")
    ensures HeadHasDot(regtype) ==> r == ParseRegtype(regtype, check)
  {
    if HeadHasDot(regtype) then ParseRegtype(regtype, check) else Err("invalid name and protocol")
  }

  lemma ParseRegtypeCheckedFoobar(check: CharCheck)
    ensures ParseRegtypeChecked("foobar", check) == Err("invalid name and protocol")
  {
    ParseRegtypeRejectsFoobarOnlyByPanic();
  }
}
