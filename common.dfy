/** Types shared by every backend of the binding layer: the error wrappers, the
    fixed-width integers of the native interfaces, the public value records
    (service type, discovery, registration, removal) and the string helpers
    that the formatting and parsing code is built from. */
module Common {

  datatype Option<+T> = None | Some(value: T)

  /** The crate's `Result<T>`: its error is always a message string. */
  datatype Result<+T> = Ok(value: T) | Err(msg: string)

  datatype Unit = Unit

  type u16 = x: int | 0 <= x < 0x1_0000
  type u32 = x: int | 0 <= x < 0x1_0000_0000
  type i32 = x: int | -0x8000_0000 <= x < 0x8000_0000

  const I32_MAX: int := 0x7FFF_FFFF

  /** A native pointer; 0 stands for null. */
  type Handle = nat
  const NULL: Handle := 0

  /** `NetworkInterface` (interface.rs): unspecified, or an interface index. */
  datatype NetworkInterface = Unspec | AtIndex(index: u32)

  /** `ServiceType` (service_type.rs): name, protocol and sub-types, stored verbatim. */
  datatype ServiceType = ServiceType(name: string, protocol: string, subTypes: seq<string>)

  /** A TXT record; its key/value store lives in native code, so only its bytes are kept. */
  datatype TxtRecord = TxtRecord(bytes: seq<int>)

  datatype ServiceDiscovery = ServiceDiscovery(
    name: string,
    serviceType: ServiceType,
    domain: string,
    hostName: string,
    address: string,
    port: u16,
    txt: Option<TxtRecord>)

  datatype ServiceRegistration = ServiceRegistration(name: string, serviceType: ServiceType, domain: string)

  datatype ServiceRemoval = ServiceRemoval(name: string, kind: string, domain: string)

  datatype BrowserEvent = Add(discovery: ServiceDiscovery) | Remove(removal: ServiceRemoval)

  /** `check_valid_characters`, whose code is not part of this model: `None` when the
      text is accepted, otherwise the error it reports. */
  type CharCheck = string -> Option<string>

  /** The sub-second part of a `Duration`, always below one second. */
  type Nanos = n: nat | n < 1_000_000_000

  /** A `std::time::Duration`. */
  datatype Duration = Duration(secs: nat, subsecNanos: Nanos)

  /** What a future's `poll` hands back to the executor. */
  datatype Poll<+T> = Ready(result: T) | Pending

  // ---------------------------------------------------------------------------
  // Strings

  /** A part that may appear between the separators of a service type string. */
  predicate ValidPart(part: string) {
    '.' !in part && ',' !in part
  }

  /** Every character is ASCII, so that byte length and character count agree. */
  predicate Ascii(s: string) {
    forall i :: 0 <= i < |s| ==> s[i] < 128 as char
  }

  predicate StartsWith(s: string, prefix: string) {
    |prefix| <= |s| && s[..|prefix|] == prefix
  }

  /** Rust's `str::split(c)`: the pieces between occurrences of `c`; never empty. */
  function Split(s: string, c: char): (parts: seq<string>)
    ensures |parts| >= 1
    ensures (c in s) <==> |parts| >= 2
    ensures forall i :: 0 <= i < |parts| ==> c !in parts[i]
  {
    if |s| == 0 then [""]
    else
      var rest := Split(s[1..], c);
      if s[0] == c then [""] + rest
      else [[s[0]] + rest[0]] + rest[1..]
  }

  /** `join(sep)`: the parts with `sep` between consecutive ones. */
  function Join(parts: seq<string>, sep: string): string {
    if |parts| == 0 then ""
    else if |parts| == 1 then parts[0]
    else parts[0] + sep + Join(parts[1..], sep)
  }

  /** Each part with a leading underscore, as `format!("_{s}")` does. */
  function Underscored(parts: seq<string>): (r: seq<string>)
    ensures |r| == |parts|
    ensures forall i :: 0 <= i < |r| ==> r[i] == "_" + parts[i]
  {
    seq(|parts|, i requires 0 <= i < |parts| => "_" + parts[i])
  }

  /** A character absent from the input is absent from every piece. */
  lemma {:induction false} SplitKeepsAbsent(s: string, c: char, d: char)
    requires d !in s
    ensures forall i :: 0 <= i < |Split(s, c)| ==> d !in Split(s, c)[i]
  {
    if |s| > 0 {
      SplitKeepsAbsent(s[1..], c, d);
    }
  }

  lemma {:induction false} SplitNoSeparator(s: string, c: char)
    requires c !in s
    ensures Split(s, c) == [s]
  {
    if |s| > 0 {
      SplitNoSeparator(s[1..], c);
      assert [s[0]] + s[1..] == s;
    }
  }

  /** A leading non-separator is glued onto the first piece. */
  lemma SplitCons(x: char, t: string, c: char)
    requires x != c
    ensures Split([x] + t, c) == [[x] + Split(t, c)[0]] + Split(t, c)[1..]
  {
    assert ([x] + t)[1..] == t;
  }

  /** A separator-free prefix is glued onto the first piece of what follows it. */
  lemma {:induction false} SplitPrefix(a: string, t: string, c: char)
    requires c !in a
    ensures Split(a + t, c) == [a + Split(t, c)[0]] + Split(t, c)[1..]
  {
    var st := Split(t, c);
    if |a| == 0 {
      assert a + t == t;
      assert a + st[0] == st[0];
    } else {
      SplitPrefix(a[1..], t, c);
      assert a + t == [a[0]] + (a[1..] + t);
      SplitCons(a[0], a[1..] + t, c);
      assert [a[0]] + (a[1..] + st[0]) == a + st[0];
    }
  }

  /** Splitting `a + [c] + b` with `a` free of `c` yields `a`, then the pieces of `b`. */
  lemma SplitAtSeparator(a: string, b: string, c: char)
    requires c !in a
    ensures Split(a + [c] + b, c) == [a] + Split(b, c)
  {
    SplitPrefix(a, [c] + b, c);
    assert a + [c] + b == a + ([c] + b);
    assert ([c] + b)[1..] == b;
    assert Split([c] + b, c) == [""] + Split(b, c);
    assert a + "" == a;
  }

  /** Splitting undoes joining, when no part contains the separator. */
  lemma {:induction false} SplitJoin(parts: seq<string>, c: char)
    requires |parts| >= 1
    requires forall i :: 0 <= i < |parts| ==> c !in parts[i]
    ensures Split(Join(parts, [c]), c) == parts
  {
    if |parts| == 1 {
      SplitNoSeparator(parts[0], c);
    } else {
      SplitJoin(parts[1..], c);
      SplitAtSeparator(parts[0], Join(parts[1..], [c]), c);
      assert [parts[0]] + parts[1..] == parts;
    }
  }

  /** Joining undoes splitting. */
  lemma {:induction false} JoinSplit(s: string, c: char)
    ensures Join(Split(s, c), [c]) == s
  {
    if |s| > 0 {
      JoinSplit(s[1..], c);
      var rest := Split(s[1..], c);
      if s[0] == c {
        assert [s[0]] + s[1..] == s;
      } else {
        if |rest| == 1 {
          assert [s[0]] + s[1..] == s;
        } else {
          assert rest == [rest[0]] + rest[1..];
          assert [s[0]] + s[1..] == s;
        }
      }
    }
  }

  /** `",_" + subs.join(",_")` is the same string as `","` followed by the
      underscored sub-types joined with `","`. */
  lemma {:induction false} JoinUnderscored(subs: seq<string>)
    requires |subs| >= 1
    ensures ",_" + Join(subs, ",_") == "," + Join(Underscored(subs), ",")
  {
    var u := Underscored(subs);
    if |subs| == 1 {
      assert Join(subs, ",_") == subs[0];
      assert Join(u, ",") == "_" + subs[0];
    } else {
      JoinUnderscored(subs[1..]);
      assert u[1..] == Underscored(subs[1..]);
      assert Join(subs, ",_") == subs[0] + ",_" + Join(subs[1..], ",_");
      assert Join(u, ",") == ("_" + subs[0]) + "," + Join(u[1..], ",");
      calc {
        ",_" + Join(subs, ",_");
        ",_" + subs[0] + (",_" + Join(subs[1..], ",_"));
        ",_" + subs[0] + ("," + Join(u[1..], ","));
        "," + (("_" + subs[0]) + "," + Join(u[1..], ","));
      }
    }
  }

  // ---------------------------------------------------------------------------
  // Decimal rendering, as `format!("{}", n)` prints an integer

  function DigitChar(d: int): char
    requires 0 <= d < 10
  {
    "0123456789"[d]
  }

  function NatToString(n: nat): (s: string)
    ensures |s| >= 1
    ensures forall i :: 0 <= i < |s| ==> '0' <= s[i] <= '9'
  {
    if n < 10 then [DigitChar(n)] else NatToString(n / 10) + [DigitChar(n % 10)]
  }

  function IntToString(i: int): (s: string)
    ensures |s| >= 1
    ensures (s[0] == '-') <==> i < 0
  {
    if i < 0 then "-" + NatToString(-i) else NatToString(i)
  }
}
