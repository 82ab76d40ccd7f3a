/** Utilities of the macOS Bonjour backend (macos/bonjour_util.rs). Its parser
    differs from the other Bonjour backend: it splits the head itself, demands
    exactly two pieces and checks name and protocol before stripping them. */
module MacBonjourUtil {
  import opened Common
  import opened ServiceTypes
  import BonjourUtil

  const BONJOUR_IF_UNSPEC: u32 := 0

  /** `normalize_domain`: drops one trailing '.'; empty or non-ASCII input panics. */
  function NormalizeDomain(domain: string): (r: string)
    requires |domain| > 0 && Ascii(domain)
    ensures domain[|domain| - 1] == '.' ==> domain == r + "."
    ensures domain[|domain| - 1] != '.' ==> r == domain
  {
    if domain[|domain| - 1] == '.' then domain[..|domain| - 1] else domain
  }

  /** `interface_index`. */
  function InterfaceIndex(interface: NetworkInterface): (r: u32)
    ensures interface.AtIndex? ==> r == interface.index
    ensures interface.Unspec? ==> r == BONJOUR_IF_UNSPEC
  {
    match interface
    case Unspec => BONJOUR_IF_UNSPEC
    case AtIndex(i) => i
  }

  /** The index of `Unspec` is shared with `AtIndex(0)` and with nothing else. */
  lemma InterfaceIndexCollision(a: NetworkInterface, b: NetworkInterface)
    ensures InterfaceIndex(a) == InterfaceIndex(b) <==>
      a == b || (a == Unspec && b == AtIndex(0)) || (a == AtIndex(0) && b == Unspec)
  {
  }

  /** `sys_exec`. */
  function SysExec(code: i32, message: string): (r: Result<Unit>)
    ensures r.Ok? <==> code >= 0
    ensures r.Err? ==> r.msg == message + " (code: " + IntToString(code) + ")"
  {
    if code < 0 then Err(message + " (code: " + IntToString(code) + ")") else Ok(Unit)
  }

  lemma SysExecExamples()
    ensures SysExec(-42, "uh oh spaghetti-o") == Err("uh oh spaghetti-o (code: -42)")
    ensures SysExec(0, "success") == Ok(Unit)
  {
  }

  /** `format_regtype`. */
  function FormatRegtype(t: ServiceType): string {
    Join(["_" + t.name + "._" + t.protocol] + Underscored(t.subTypes), ",")
  }

  /** The regtype is the service type's own string form. */
  lemma FormatRegtypeIsToString(t: ServiceType)
    ensures FormatRegtype(t) == ServiceTypes.ToString(t)
  {
    ToStringSegments(t);
  }

  /** `lstrip_underscore`: removes at most one leading '_' and nothing else. */
  function LstripUnderscore(s: string): (r: string)
    ensures StartsWith(s, "_") ==> s == "_" + r
    ensures !StartsWith(s, "_") ==> r == s
  {
    if StartsWith(s, "_") then s[1..] else s
  }

  /** It strips exactly as `from_str` does. */
  lemma LstripIsFromStrStrip(s: string)
    ensures LstripUnderscore(s) == StripUnderscore(s)
  {
    if StartsWith(s, "_") {
      assert s == "_" + LstripUnderscore(s);
      assert s == "_" + StripUnderscore(s);
      assert s[1..] == LstripUnderscore(s);
    }
  }

  /** `parse_regtype`: the head must split on '.' into exactly two pieces; name and
      protocol are checked, then stripped; sub-types are stripped, then checked. */
  function ParseRegtype(regtype: string, check: CharCheck): (r: Result<ServiceType>)
    ensures |Split(Split(regtype, ',')[0], '.')| != 2 ==> r == Err("invalid name and protocol")
  {
    var types := Split(regtype, ',');
    var parts := Split(types[0], '.');
    if |parts| != 2 then Err("invalid name and protocol")
    else
      match check(parts[0])
      case Some(e) => Err(e)
      case None =>
        match check(parts[1])
        case Some(e) => Err(e)
        case None =>
          match BonjourUtil.CheckedSubTypes(types[1..], check)
          case Err(e) => Err(e)
          case Ok(subTypes) => WithSubTypesOf(LstripUnderscore(parts[0]), LstripUnderscore(parts[1]), subTypes)
  }

  /** Name and protocol are checked with their underscore still on, the name first. */
  lemma ParseRegtypeChecksHeadFirst(regtype: string, check: CharCheck)
    requires |Split(Split(regtype, ',')[0], '.')| == 2
    ensures var parts := Split(Split(regtype, ',')[0], '.');
      (check(parts[0]).Some? ==> ParseRegtype(regtype, check) == Err(check(parts[0]).value))
      && (check(parts[0]).None? && check(parts[1]).Some? ==>
            ParseRegtype(regtype, check) == Err(check(parts[1]).value))
  {
  }

  /** A head piece free of '.' and ',' stays a valid part once stripped. */
  lemma StrippedHeadValid(p: string)
    requires ValidPart(p)
    ensures ValidPart(LstripUnderscore(p))
  {
    LstripIsFromStrStrip(p);
    StripKeepsOtherChars(p, '.');
    StripKeepsOtherChars(p, ',');
  }

  /** The checked tail of a comma split accepts, and keeps, the stripped segments. */
  lemma CheckedTail(types: seq<string>, check: CharCheck)
    requires |types| >= 1
    ensures BonjourUtil.CheckedSubTypes(types[1..], check).Ok? <==>
      forall i :: 1 <= i < |types| ==> check(StripUnderscore(types[i])).None?
    ensures BonjourUtil.CheckedSubTypes(types[1..], check).Ok? ==>
      BonjourUtil.CheckedSubTypes(types[1..], check).value == StrippedTail(types)
  {
    var tail := types[1..];
    var c := BonjourUtil.CheckedSubTypes(tail, check);
    if c.Ok? {
      assert c.value == StrippedTail(types);
    } else {
      var k :| 0 <= k < |tail| && check(StripUnderscore(tail[k])) == Some(c.msg);
      assert tail[k] == types[k + 1];
    }
  }

  /** The stripped tail is valid exactly when each stripped segment is. */
  lemma StrippedTailValid(types: seq<string>)
    requires |types| >= 1
    ensures ValidSubTypes(StrippedTail(types)) <==>
      forall i :: 1 <= i < |types| ==> ValidPart(StripUnderscore(types[i]))
  {
    var v := StrippedTail(types);
    if ValidSubTypes(v) {
      forall i | 1 <= i < |types|
        ensures ValidPart(StripUnderscore(types[i]))
      {
        assert v[i - 1] == StripUnderscore(types[i]);
      }
    } else {
      var k :| 0 <= k < |v| && !ValidPart(v[k]);
      assert !ValidPart(StripUnderscore(types[k + 1]));
    }
  }

  /** Once the head is accepted, the outcome is the sub-types' outcome; the result
      carries the stripped head pieces, which hold neither '.' nor ','. */
  lemma ParseRegtypeOutcome(regtype: string, check: CharCheck)
    requires |Split(Split(regtype, ',')[0], '.')| == 2
    requires check(Split(Split(regtype, ',')[0], '.')[0]).None?
    requires check(Split(Split(regtype, ',')[0], '.')[1]).None?
    ensures var types := Split(regtype, ',');
      ParseRegtype(regtype, check).Ok? <==>
        forall i :: 1 <= i < |types| ==>
          check(StripUnderscore(types[i])).None? && ValidPart(StripUnderscore(types[i]))
    ensures ParseRegtype(regtype, check).Ok? ==>
      ValidType(ParseRegtype(regtype, check).value)
      && ParseRegtype(regtype, check).value.subTypes == StrippedTail(Split(regtype, ','))
  {
    var types := Split(regtype, ',');
    var parts := Split(types[0], '.');
    SplitKeepsAbsent(types[0], '.', ',');
    StrippedHeadValid(parts[0]);
    StrippedHeadValid(parts[1]);
    CheckedTail(types, check);
    StrippedTailValid(types);
  }

  /** Round trip: a valid service type parses back from its regtype when the
      character check accepts the underscored head pieces and the sub-types. */
  lemma ParseFormatRegtype(t: ServiceType, check: CharCheck)
    requires ValidType(t)
    requires check("_" + t.name).None? && check("_" + t.protocol).None?
    requires forall i :: 0 <= i < |t.subTypes| ==> check(t.subTypes[i]).None?
    ensures ParseRegtype(FormatRegtype(t), check) == Ok(t)
  {
    FormatRegtypeIsToString(t);
    ToStringPieces(t);
    var types := Split(FormatRegtype(t), ',');
    StrippedUnderscored(types[0], t.subTypes);
    CheckedTail(types, check);
    forall i | 1 <= i < |types|
      ensures check(StripUnderscore(types[i])).None?
    {
      assert StripUnderscore(types[i]) == StrippedTail(types)[i - 1];
    }
    assert LstripUnderscore("_" + t.name) == t.name;
    assert LstripUnderscore("_" + t.protocol) == t.protocol;
  }

  lemma ParseRegtypeFoobar(check: CharCheck)
    ensures ParseRegtype("foobar", check) == Err("invalid name and protocol")
  {
    SplitNoSeparator("foobar", ',');
    SplitNoSeparator("foobar", '.');
  }
}
