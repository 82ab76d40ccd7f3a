/** `ServiceType` (service_type.rs): validation of its parts, the `_name._proto,_sub`
    string form and the parser back from it. */
module ServiceTypes {
  import opened Common

  /** `check_part`: a part may contain neither '.' (checked first) nor ','. */
  function CheckPart(part: string): (r: Result<string>)
    ensures r.Ok? <==> ValidPart(part)
    ensures r.Ok? ==> r.value == part
    ensures '.' in part ==> r == Err("invalid character: .")
    ensures '.' !in part && ',' in part ==> r == Err("invalid character: ,")
  {
    if '.' in part then Err("invalid character: .")
    else if ',' in part then Err("invalid character: ,")
    else Ok(part)
  }

  /** `ServiceType::new`: name is checked before protocol; no sub-types. */
  function New(name: string, protocol: string): (r: Result<ServiceType>)
    ensures r.Ok? <==> ValidPart(name) && ValidPart(protocol)
    ensures r.Ok? ==> r.value == ServiceType(name, protocol, [])
    ensures !ValidPart(name) ==> r == Err(CheckPart(name).msg)
    ensures ValidPart(name) && !ValidPart(protocol) ==> r == Err(CheckPart(protocol).msg)
  {
    match CheckPart(name)
    case Err(e) => Err(e)
    case Ok(n) =>
      match CheckPart(protocol)
      case Err(e) => Err(e)
      case Ok(p) => Ok(ServiceType(n, p, []))
  }

  /** Every sub-type is a valid part. */
  predicate ValidSubTypes(subTypes: seq<string>) {
    forall i :: 0 <= i < |subTypes| ==> ValidPart(subTypes[i])
  }

  /** A service type whose three components are all valid parts. */
  predicate ValidType(t: ServiceType) {
    ValidPart(t.name) && ValidPart(t.protocol) && ValidSubTypes(t.subTypes)
  }

  /** The error of the first sub-type that `check_part` rejects, if any. */
  function FirstInvalid(subTypes: seq<string>): (r: Option<string>)
    ensures r.None? <==> ValidSubTypes(subTypes)
    ensures r.Some? ==>
      exists i :: 0 <= i < |subTypes| && !ValidPart(subTypes[i])
        && CheckPart(subTypes[i]) == Err(r.value) && ValidSubTypes(subTypes[..i])
  {
    if |subTypes| == 0 then None
    else
      match CheckPart(subTypes[0])
      case Err(e) =>
        assert ValidSubTypes(subTypes[..0]);
        Some(e)
      case Ok(_) =>
        var r := FirstInvalid(subTypes[1..]);
        if r.Some? then
          var i :| 0 <= i < |subTypes[1..]| && !ValidPart(subTypes[1..][i])
            && CheckPart(subTypes[1..][i]) == Err(r.value) && ValidSubTypes(subTypes[1..][..i]);
          assert subTypes[i + 1] == subTypes[1..][i];
          assert subTypes[..i + 1] == [subTypes[0]] + subTypes[1..][..i];
          assert ValidSubTypes(subTypes[..i + 1]);
          r
        else
          r
  }

  /** The first rejected sub-type is found at the first position whose part is invalid. */
  lemma {:induction false} FirstInvalidAt(subTypes: seq<string>, i: nat)
    requires i < |subTypes|
    requires ValidSubTypes(subTypes[..i]) && !ValidPart(subTypes[i])
    ensures FirstInvalid(subTypes) == Some(CheckPart(subTypes[i]).msg)
  {
    if i > 0 {
      assert ValidPart(subTypes[..i][0]);
      assert subTypes[1..][..i - 1] == subTypes[..i][1..];
      FirstInvalidAt(subTypes[1..], i - 1);
    }
  }

  /** What `with_sub_types` returns: the sub-types are checked, name and protocol are not. */
  function WithSubTypesOf(name: string, protocol: string, subTypes: seq<string>): (r: Result<ServiceType>)
    ensures r.Ok? <==> ValidSubTypes(subTypes)
    ensures r.Ok? ==> r.value == ServiceType(name, protocol, subTypes)
  {
    match FirstInvalid(subTypes)
    case Some(e) => Err(e)
    case None => Ok(ServiceType(name, protocol, subTypes))
  }

  /** `ServiceType::with_sub_types`: the validation loop over the sub-types. */
  method WithSubTypes(name: string, protocol: string, subTypes: seq<string>) returns (r: Result<ServiceType>)
    ensures r == WithSubTypesOf(name, protocol, subTypes)
  {
    for i := 0 to |subTypes|
      invariant ValidSubTypes(subTypes[..i])
    {
      var checked := CheckPart(subTypes[i]);
      if checked.Err? {
        FirstInvalidAt(subTypes, i);
        return Err(checked.msg);
      }
      assert subTypes[..i + 1] == subTypes[..i] + [subTypes[i]];
    }
    assert subTypes[..|subTypes|] == subTypes;
    r := Ok(ServiceType(name, protocol, subTypes));
  }

  /** `to_string`: `_name._protocol`, then `,_sub` per sub-type. */
  function ToString(t: ServiceType): string {
    "_" + t.name + "._" + t.protocol
      + (if |t.subTypes| > 0 then ",_" + Join(t.subTypes, ",_") else "")
  }

  /** The string form is the head `_name._protocol` and the underscored sub-types,
      separated by commas. */
  lemma ToStringSegments(t: ServiceType)
    ensures ToString(t) == Join(["_" + t.name + "._" + t.protocol] + Underscored(t.subTypes), ",")
  {
    var head := "_" + t.name + "._" + t.protocol;
    var u := Underscored(t.subTypes);
    if |t.subTypes| == 0 {
      assert [head] + u == [head];
    } else {
      JoinUnderscored(t.subTypes);
      assert ([head] + u)[1..] == u;
    }
  }

  /** The inline `starts_with("_")` strip of `from_str`: at most one underscore goes. */
  function StripUnderscore(s: string): (r: string)
    ensures StartsWith(s, "_") <==> s == "_" + r
    ensures !StartsWith(s, "_") ==> r == s
  {
    if |s| > 0 && s[0] == '_' then s[1..] else s
  }

  /** Stripping the underscore removes no other character. */
  lemma StripKeepsOtherChars(s: string, c: char)
    requires c != '_'
    ensures c in StripUnderscore(s) <==> c in s
  {
    if StartsWith(s, "_") {
      assert s == "_" + StripUnderscore(s);
    }
  }

  /** `from_str` indexes `head[1]`, which exists only when the first comma segment
      holds a '.'; without one the source panics. */
  predicate HeadHasDot(s: string) {
    '.' in Split(s, ',')[0]
  }

  /** The sub-type segments after the first, each stripped of one underscore. */
  function StrippedTail(parts: seq<string>): (r: seq<string>)
    requires |parts| >= 1
    ensures |r| == |parts| - 1
    ensures forall i :: 0 <= i < |r| ==> r[i] == StripUnderscore(parts[i + 1])
  {
    seq(|parts| - 1, i requires 0 <= i < |parts| - 1 => StripUnderscore(parts[i + 1]))
  }

  /** What `from_str` returns. */
  function FromStrOf(s: string): Result<ServiceType>
    requires HeadHasDot(s)
  {
    var parts := Split(s, ',');
    var head := Split(parts[0], '.');
    WithSubTypesOf(StripUnderscore(head[0]), StripUnderscore(head[1]), StrippedTail(parts))
  }

  /** `FromStr::from_str`: the head is split on '.', the sub-types are collected in a loop. */
  method FromStr(s: string) returns (r: Result<ServiceType>)
    requires HeadHasDot(s)
    ensures r == FromStrOf(s)
  {
    var parts := Split(s, ',');
    var head := Split(parts[0], '.');
    var name := StripUnderscore(head[0]);
    var protocol := StripUnderscore(head[1]);
    var subTypes: seq<string> := [];
    if |parts| > 1 {
      for i := 1 to |parts|
        invariant |subTypes| == i - 1
        invariant forall j :: 0 <= j < i - 1 ==> subTypes[j] == StripUnderscore(parts[j + 1])
      {
        subTypes := subTypes + [StripUnderscore(parts[i])];
      }
    }
    assert subTypes == StrippedTail(parts);
    r := WithSubTypes(name, protocol, subTypes);
  }

  // ---------------------------------------------------------------------------
  // Properties of the parser

  /** Name and protocol come out of `from_str` free of '.' and ','. */
  lemma FromStrNameProtocolValid(s: string)
    requires HeadHasDot(s)
    ensures FromStrOf(s).Ok? ==> ValidPart(FromStrOf(s).value.name) && ValidPart(FromStrOf(s).value.protocol)
  {
    var parts := Split(s, ',');
    SplitKeepsAbsent(parts[0], '.', ',');
    var head := Split(parts[0], '.');
    assert ValidPart(head[0]) && ValidPart(head[1]);
    assert head[0] == "_" + StripUnderscore(head[0]) || head[0] == StripUnderscore(head[0]);
    assert head[1] == "_" + StripUnderscore(head[1]) || head[1] == StripUnderscore(head[1]);
  }

  /** Some comma segment after the first holds a '.'. */
  predicate HasDottedSubType(parts: seq<string>) {
    exists i :: 1 <= i < |parts| && '.' in parts[i]
  }

  /** `from_str` fails exactly when a sub-type segment holds a '.', and then with
      the '.' message. */
  lemma FromStrFailsOnDottedSubType(s: string)
    requires HeadHasDot(s)
    ensures FromStrOf(s).Err? <==> HasDottedSubType(Split(s, ','))
    ensures FromStrOf(s).Err? ==> FromStrOf(s).msg == "invalid character: ."
  {
    var parts := Split(s, ',');
    var head := Split(parts[0], '.');
    var tail := StrippedTail(parts);
    assert FromStrOf(s) == WithSubTypesOf(StripUnderscore(head[0]), StripUnderscore(head[1]), tail);
    forall i | 0 <= i < |tail|
      ensures ValidPart(tail[i]) <==> '.' !in parts[i + 1]
    {
      StripKeepsOtherChars(parts[i + 1], '.');
      StripKeepsOtherChars(parts[i + 1], ',');
    }
    match FirstInvalid(tail)
    case Some(e) =>
      var i :| 0 <= i < |tail| && !ValidPart(tail[i]) && CheckPart(tail[i]) == Err(e);
      assert '.' in parts[i + 1];
      assert HasDottedSubType(parts);
    case None =>
      forall i | 1 <= i < |parts|
        ensures '.' !in parts[i]
      {
        assert ValidPart(tail[i - 1]);
      }
  }

  /** Without a ',' the string is all head: `from_str` reads its first two '.' pieces
      and no sub-types. */
  lemma FromStrNoComma(s: string)
    requires ',' !in s && '.' in s
    ensures HeadHasDot(s)
    ensures FromStrOf(s) == WithSubTypesOf(StripUnderscore(Split(s, '.')[0]), StripUnderscore(Split(s, '.')[1]), [])
  {
    SplitNoSeparator(s, ',');
    assert StrippedTail([s]) == [];
  }

  /** The first two '.' pieces of `a.b.rest`, for `a` and `b` free of '.'. */
  lemma DottedPieces(a: string, b: string, rest: string)
    requires '.' !in a && '.' !in b
    ensures Split(a + "." + b + "." + rest, '.')[..2] == [a, b]
  {
    assert a + "." + b + "." + rest == a + ['.'] + (b + ['.'] + rest);
    SplitAtSeparator(b, rest, '.');
    SplitAtSeparator(a, b + ['.'] + rest, '.');
  }

  /** The '.' pieces of `a.b`, for `a` and `b` free of '.'. */
  lemma DottedPair(a: string, b: string)
    requires '.' !in a && '.' !in b
    ensures Split(a + "." + b, '.') == [a, b]
  {
    assert a + "." + b == a + ['.'] + b;
    SplitNoSeparator(b, '.');
    SplitAtSeparator(a, b, '.');
  }

  /** Text after a second '.' of the head is ignored. */
  lemma FromStrIgnoresAfterSecondDot(a: string, b: string, rest: string)
    requires ValidPart(a) && ValidPart(b) && ',' !in rest
    ensures HeadHasDot(a + "." + b + "." + rest) && HeadHasDot(a + "." + b)
    ensures FromStrOf(a + "." + b + "." + rest) == FromStrOf(a + "." + b)
  {
    var long := a + "." + b + "." + rest;
    var short := a + "." + b;
    DottedPieces(a, b, rest);
    DottedPair(a, b);
    var pl := Split(long, '.');
    assert pl[0] == pl[..2][0] && pl[1] == pl[..2][1];
    FromStrNoComma(long);
    FromStrNoComma(short);
  }

  /** The head `_name._protocol` of a valid type holds no ',' and splits on '.' into
      the underscored name and protocol. */
  lemma HeadPieces(name: string, protocol: string)
    requires ValidPart(name) && ValidPart(protocol)
    ensures ',' !in "_" + name + "._" + protocol
    ensures Split("_" + name + "._" + protocol, '.') == ["_" + name, "_" + protocol]
  {
    var a, b := "_" + name, "_" + protocol;
    assert "_" + name + "._" + protocol == a + "." + b;
    DottedPair(a, b);
  }

  /** The comma pieces of the string form of a valid service type are its head and
      its underscored sub-types; the head splits on '.' into the underscored name
      and protocol. */
  lemma ToStringPieces(t: ServiceType)
    requires ValidType(t)
    ensures Split(ToString(t), ',') == ["_" + t.name + "._" + t.protocol] + Underscored(t.subTypes)
    ensures Split("_" + t.name + "._" + t.protocol, '.') == ["_" + t.name, "_" + t.protocol]
  {
    var head := "_" + t.name + "._" + t.protocol;
    var segments := [head] + Underscored(t.subTypes);
    ToStringSegments(t);
    HeadPieces(t.name, t.protocol);
    forall i | 0 <= i < |segments|
      ensures ',' !in segments[i]
    {
      if i > 0 {
        assert segments[i] == "_" + t.subTypes[i - 1];
      }
    }
    SplitJoin(segments, ',');
  }

  /** Stripping the underscored sub-types after any head gives the sub-types back. */
  lemma StrippedUnderscored(head: string, subs: seq<string>)
    ensures StrippedTail([head] + Underscored(subs)) == subs
  {
    var parts := [head] + Underscored(subs);
    forall i | 0 <= i < |subs|
      ensures StrippedTail(parts)[i] == subs[i]
    {
      assert parts[i + 1] == "_" + subs[i];
      assert ("_" + subs[i])[1..] == subs[i];
    }
  }

  /** Round trip: parsing the string form of a valid service type gives it back. */
  lemma FromStrToString(t: ServiceType)
    requires ValidType(t)
    ensures HeadHasDot(ToString(t))
    ensures FromStrOf(ToString(t)) == Ok(t)
  {
    ToStringPieces(t);
    var parts := Split(ToString(t), ',');
    assert StrippedTail(parts) == t.subTypes;
  }

  /** `ServiceType::new` is `with_sub_types` without sub-types, once name and protocol pass. */
  lemma NewIsWithoutSubTypes(name: string, protocol: string)
    requires ValidPart(name) && ValidPart(protocol)
    ensures New(name, protocol) == WithSubTypesOf(name, protocol, [])
  {
  }

  // ---------------------------------------------------------------------------
  // The documented examples

  lemma ToStringExample()
    ensures ToString(ServiceType("http", "tcp", ["api-v1", "api-v2"])) == "_http._tcp,_api-v1,_api-v2"
  {
  }

  /** Sub-types written without their underscore, as in `_http._tcp,api-v1,api-v2`,
      parse to the same service type. */
  lemma FromStrBareSubTypes(t: ServiceType)
    requires ValidType(t) && |t.subTypes| > 0
    requires forall i :: 0 <= i < |t.subTypes| ==> !StartsWith(t.subTypes[i], "_")
    ensures HeadHasDot("_" + t.name + "._" + t.protocol + "," + Join(t.subTypes, ","))
    ensures FromStrOf("_" + t.name + "._" + t.protocol + "," + Join(t.subTypes, ",")) == Ok(t)
  {
    var head := "_" + t.name + "._" + t.protocol;
    var segments := [head] + t.subTypes;
    assert ',' !in head by {
      assert forall k :: 0 <= k < |head| ==> head[k] == '_' || head[k] == '.' || head[k] in t.name || head[k] in t.protocol;
    }
    assert segments[1..] == t.subTypes;
    assert Join(segments, ",") == head + "," + Join(t.subTypes, ",");
    SplitJoin(segments, ',');
    assert head == ("_" + t.name) + ['.'] + ("_" + t.protocol);
    SplitAtSeparator("_" + t.name, "_" + t.protocol, '.');
    SplitNoSeparator("_" + t.protocol, '.');
    assert StrippedTail(segments) == t.subTypes;
  }
}
