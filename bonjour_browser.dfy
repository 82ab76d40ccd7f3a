/** The Bonjour service browser (bonjour/browser.rs): a three-step chain of native
    callbacks, browse → resolve → get-address-info, that gathers the `resolved_*`
    fields of one context and hands a `ServiceDiscovery` to the user callback. Each
    native call the chain issues is an input outcome; a handler's error is what the
    trampoline passes to the callback. */
module BonjourBrowser {
  import opened Common
  import opened ServiceTypes
  import BonjourUtil

  /** `u16::to_be` on a little-endian machine: the two bytes swap places. */
  function SwapBytes16(p: u16): (r: u16)
    ensures r % 256 == p / 256 && r / 256 == p % 256
  {
    (p % 256) * 256 + p / 256
  }

  /** Swapping twice gives the port back. */
  lemma SwapBytes16Involution(p: u16)
    ensures SwapBytes16(SwapBytes16(p)) == p
  {
    var q := SwapBytes16(p);
    assert q % 256 == p / 256 && q / 256 == p % 256;
    var r := SwapBytes16(q);
    assert r % 256 == p % 256 && r / 256 == p / 256;
  }

  lemma SwapBytes16Example()
    ensures SwapBytes16(0x1F90) == 0x901F
  {
  }

  /** `BonjourBrowserContext`. */
  class BrowserContext {
    var hasCallback: bool
    var delivered: seq<Result<ServiceDiscovery>>
    var resolvedName: Option<string>
    var resolvedKind: Option<string>
    var resolvedDomain: Option<string>
    var resolvedPort: u16
    var resolvedTxt: Option<TxtRecord>

    /** A pending name always comes with its kind and domain: `handle_browse` sets the
        three together and `handle_get_address_info` takes the name last. */
    ghost predicate Valid()
      reads this`resolvedName, this`resolvedKind, this`resolvedDomain
    {
      resolvedName.Some? ==> resolvedKind.Some? && resolvedDomain.Some?
    }

    /** `BonjourBrowserContext::default`. */
    constructor ()
      ensures !hasCallback && delivered == []
      ensures resolvedName == None && resolvedKind == None && resolvedDomain == None
      ensures resolvedPort == 0 && resolvedTxt == None
      ensures Valid()
    {
      hasCallback := false;
      delivered := [];
      resolvedName := None;
      resolvedKind := None;
      resolvedDomain := None;
      resolvedPort := 0;
      resolvedTxt := None;
    }

    function Delivery(result: Result<ServiceDiscovery>): seq<Result<ServiceDiscovery>>
      reads this`hasCallback
    {
      if hasCallback then [result] else []
    }

    /** `invoke_callback`: the result goes to the callback, or is dropped with a warning. */
    method InvokeCallback(result: Result<ServiceDiscovery>)
      modifies this`delivered
      ensures delivered == old(delivered) + Delivery(result)
    {
      if hasCallback {
        delivered := delivered + [result];
      }
    }

    /** What every trampoline does with its handler's outcome. */
    method Report(r: Result<Unit>)
      modifies this`delivered
      ensures r.Ok? ==> delivered == old(delivered)
      ensures r.Err? ==> delivered == old(delivered) + Delivery(Err(r.msg))
    {
      if r.Err? {
        InvokeCallback(Err(r.msg));
      }
    }

    /** `handle_browse`: a native error leaves the context alone; otherwise the name,
        regtype and domain are recorded and the outcome is that of issuing the resolve. */
    method HandleBrowse(error: i32, name: string, regtype: string, domain: string, resolveOutcome: Result<Unit>)
      returns (r: Result<Unit>)
      requires Valid()
      modifies this`resolvedName, this`resolvedKind, this`resolvedDomain
      ensures Valid()
      ensures error != 0 ==>
        r == Err("browse_callback() reported error (code: " + IntToString(error) + ")")
        && resolvedName == old(resolvedName) && resolvedKind == old(resolvedKind)
        && resolvedDomain == old(resolvedDomain)
      ensures error == 0 ==>
        r == resolveOutcome
        && resolvedName == Some(name) && resolvedKind == Some(regtype) && resolvedDomain == Some(domain)
    {
      if error != 0 {
        return Err("browse_callback() reported error (code: " + IntToString(error) + ")");
      }
      resolvedName := Some(name);
      resolvedKind := Some(regtype);
      resolvedDomain := Some(domain);
      r := resolveOutcome;
    }

    /** `handle_resolve`: a native error leaves the context alone; otherwise the port
        is stored and a TXT record kept only when `txt_len > 1`. `txtClone` is the
        outcome of copying the native TXT bytes, `addressOutcome` that of issuing the
        address lookup. */
    method HandleResolve(error: i32, port: u16, txtLen: u16, txtClone: Result<TxtRecord>,
                         addressOutcome: Result<Unit>)
      returns (r: Result<Unit>)
      requires Valid()
      modifies this`resolvedPort, this`resolvedTxt
      ensures Valid()
      ensures error != 0 ==>
        r == Err("error reported by resolve_callback: (code: " + IntToString(error) + ")")
        && resolvedPort == old(resolvedPort) && resolvedTxt == old(resolvedTxt)
      ensures error == 0 ==> resolvedPort == port
      ensures error == 0 && txtLen <= 1 ==> resolvedTxt == None && r == addressOutcome
      ensures error == 0 && txtLen > 1 && txtClone.Err? ==>
        r == Err(txtClone.msg) && resolvedTxt == old(resolvedTxt)
      ensures error == 0 && txtLen > 1 && txtClone.Ok? ==>
        resolvedTxt == Some(txtClone.value) && r == addressOutcome
    {
      if error != 0 {
        return Err("error reported by resolve_callback: (code: " + IntToString(error) + ")");
      }
      resolvedPort := port;
      if txtLen > 1 {
        if txtClone.Err? {
          return Err(txtClone.msg);
        }
        resolvedTxt := Some(txtClone.value);
      } else {
        resolvedTxt := None;
      }
      r := addressOutcome;
    }

    /** The last part of `handle_get_address_info`, once domain and kind are taken and
        the kind has been parsed (`parsed`): the name is taken and, when the kind
        parsed, so is the TXT record and one discovery is delivered. */
    method FinishDiscovery(parsed: Result<ServiceType>, domain: string, address: string, hostName: string, port: u16)
      returns (r: Result<Unit>)
      requires resolvedName.Some?
      modifies this`resolvedName, this`resolvedTxt, this`delivered
      ensures resolvedName == None
      ensures r.Ok? ==> |delivered| == |old(delivered)| + (if hasCallback then 1 else 0)
      ensures parsed.Err? ==> r == Err(parsed.msg) && delivered == old(delivered) && resolvedTxt == old(resolvedTxt)
      ensures parsed.Ok? ==>
        r == Ok(Unit) && resolvedTxt == None
        && delivered == old(delivered) + Delivery(Ok(ServiceDiscovery(
             old(resolvedName).value, parsed.value, domain, hostName, address, port, old(resolvedTxt))))
    {
      var name := resolvedName.value;
      resolvedName := None;
      if parsed.Err? {
        return Err(parsed.msg);
      }
      var txt := resolvedTxt;
      resolvedTxt := None;
      InvokeCallback(Ok(ServiceDiscovery(name, parsed.value, domain, hostName, address, port, txt)));
      r := Ok(Unit);
    }

    /** `handle_get_address_info`: fires again after the chain has completed, which is
        then a no-op; otherwise domain, kind and name are taken in that order (a
        missing one is an error, and what was taken before it stays taken), the kind
        is parsed and one discovery is delivered. `address` is the decoded IP address.
        On that path `normalize_domain` needs a non-empty ASCII domain and kind, and
        `parse_regtype` a kind with a '.' before its first ','. */
    method HandleGetAddressInfo(error: i32, address: string, hostName: string, check: CharCheck)
      returns (r: Result<Unit>)
      requires resolvedName.Some? && error == 0 && resolvedDomain.Some? ==>
        |resolvedDomain.value| > 0 && Ascii(resolvedDomain.value)
      requires resolvedName.Some? && error == 0 && resolvedDomain.Some? && resolvedKind.Some? ==>
        BonjourUtil.ParsableRegtype(resolvedKind.value)
      modifies this`resolvedName, this`resolvedKind, this`resolvedDomain, this`resolvedTxt, this`delivered
      ensures old(Valid()) ==> Valid()
      ensures r.Err? ==> delivered == old(delivered)
      ensures old(resolvedName).Some? && r.Ok? ==> |delivered| == |old(delivered)| + (if hasCallback then 1 else 0)
      ensures old(resolvedName).None? || error != 0 ==>
        resolvedName == old(resolvedName) && resolvedKind == old(resolvedKind)
        && resolvedDomain == old(resolvedDomain) && resolvedTxt == old(resolvedTxt)
        && delivered == old(delivered)
      ensures old(resolvedName).None? ==> r == Ok(Unit)
      ensures old(resolvedName).Some? && error != 0 ==>
        r == Err("get_address_info_callback() reported error (code: " + IntToString(error) + ")")
      ensures old(resolvedName).Some? && error == 0 && old(resolvedDomain).None? ==>
        r == Err("could not get domain from BonjourBrowserContext")
        && resolvedName == old(resolvedName) && resolvedKind == old(resolvedKind) && resolvedDomain == None
        && resolvedTxt == old(resolvedTxt) && delivered == old(delivered)
      ensures old(resolvedName).Some? && error == 0 && old(resolvedDomain).Some? && old(resolvedKind).None? ==>
        r == Err("could not get kind from BonjourBrowserContext")
        && resolvedName == old(resolvedName) && resolvedKind == None && resolvedDomain == None
        && resolvedTxt == old(resolvedTxt) && delivered == old(delivered)
      ensures old(resolvedName).Some? && error == 0 && old(resolvedDomain).Some? && old(resolvedKind).Some? ==>
        resolvedName == None && resolvedKind == None && resolvedDomain == None
      ensures old(resolvedName).Some? && error == 0 && old(resolvedDomain).Some? && old(resolvedKind).Some? ==>
        var parsed := BonjourUtil.ParseRegtype(BonjourUtil.NormalizeDomain(old(resolvedKind).value), check);
        parsed.Err? ==> r == Err(parsed.msg) && delivered == old(delivered) && resolvedTxt == old(resolvedTxt)
      ensures old(resolvedName).Some? && error == 0 && old(resolvedDomain).Some? && old(resolvedKind).Some? ==>
        var parsed := BonjourUtil.ParseRegtype(BonjourUtil.NormalizeDomain(old(resolvedKind).value), check);
        parsed.Ok? ==>
          (r == Ok(Unit) && resolvedTxt == None
           && delivered == old(delivered) + Delivery(Ok(ServiceDiscovery(
                old(resolvedName).value, parsed.value,
                BonjourUtil.NormalizeDomain(old(resolvedDomain).value), hostName, address,
                SwapBytes16(old(resolvedPort)), old(resolvedTxt)))))
    {
      if resolvedName.None? {
        return Ok(Unit);
      }
      if error != 0 {
        return Err("get_address_info_callback() reported error (code: " + IntToString(error) + ")");
      }
      var port := SwapBytes16(resolvedPort);
      var rawDomain := resolvedDomain;
      resolvedDomain := None;
      if rawDomain.None? {
        return Err("could not get domain from BonjourBrowserContext");
      }
      var domain := BonjourUtil.NormalizeDomain(rawDomain.value);
      var rawKind := resolvedKind;
      resolvedKind := None;
      if rawKind.None? {
        return Err("could not get kind from BonjourBrowserContext");
      }
      r := FinishDiscovery(BonjourUtil.ParseRegtype(BonjourUtil.NormalizeDomain(rawKind.value), check),
                           domain, address, hostName, port);
    }

    /** `browse_callback`. */
    method BrowseCallback(error: i32, name: string, regtype: string, domain: string, resolveOutcome: Result<Unit>)
      requires Valid()
      modifies this`resolvedName, this`resolvedKind, this`resolvedDomain, this`delivered
      ensures Valid()
      ensures error != 0 ==>
        delivered == old(delivered) + Delivery(Err("browse_callback() reported error (code: " + IntToString(error) + ")"))
      ensures error == 0 ==>
        resolvedName == Some(name) && resolvedKind == Some(regtype) && resolvedDomain == Some(domain)
        && delivered == old(delivered) + (if resolveOutcome.Err? then Delivery(Err(resolveOutcome.msg)) else [])
    {
      var r := HandleBrowse(error, name, regtype, domain, resolveOutcome);
      Report(r);
    }

    /** `resolve_callback`. */
    method ResolveCallback(error: i32, port: u16, txtLen: u16, txtClone: Result<TxtRecord>, addressOutcome: Result<Unit>)
      requires Valid()
      modifies this`resolvedPort, this`resolvedTxt, this`delivered
      ensures Valid()
      ensures error != 0 ==>
        delivered == old(delivered) + Delivery(Err("error reported by resolve_callback: (code: " + IntToString(error) + ")"))
      ensures error == 0 ==> resolvedPort == port
      ensures error == 0 && txtLen <= 1 ==>
        resolvedTxt == None
        && delivered == old(delivered) + (if addressOutcome.Err? then Delivery(Err(addressOutcome.msg)) else [])
      ensures error == 0 && txtLen > 1 && txtClone.Err? ==>
        resolvedTxt == old(resolvedTxt) && delivered == old(delivered) + Delivery(Err(txtClone.msg))
      ensures error == 0 && txtLen > 1 && txtClone.Ok? ==>
        resolvedTxt == Some(txtClone.value)
        && delivered == old(delivered) + (if addressOutcome.Err? then Delivery(Err(addressOutcome.msg)) else [])
    {
      var r := HandleResolve(error, port, txtLen, txtClone, addressOutcome);
      Report(r);
    }

    /** `get_address_info_callback`: a completed chain emits nothing when it fires again. */
    method GetAddressInfoCallback(error: i32, address: string, hostName: string, check: CharCheck)
      requires resolvedName.Some? && error == 0 && resolvedDomain.Some? ==>
        |resolvedDomain.value| > 0 && Ascii(resolvedDomain.value)
      requires resolvedName.Some? && error == 0 && resolvedDomain.Some? && resolvedKind.Some? ==>
        BonjourUtil.ParsableRegtype(resolvedKind.value)
      modifies this`resolvedName, this`resolvedKind, this`resolvedDomain, this`resolvedTxt, this`delivered
      ensures old(Valid()) ==> Valid()
      ensures old(resolvedName).None? ==> delivered == old(delivered)
      ensures old(resolvedName).Some? ==> |delivered| == |old(delivered)| + (if hasCallback then 1 else 0)
      ensures old(resolvedName).Some? && error == 0 && old(Valid()) ==>
        resolvedName == None && resolvedKind == None && resolvedDomain == None
    {
      var r := HandleGetAddressInfo(error, address, hostName, check);
      Report(r);
    }
  }

  /** The chain end to end: after a successful browse and resolve, the address lookup
      delivers exactly one discovery carrying the browsed name, the normalised domain,
      the parsed regtype and the byte-swapped port, and firing once more emits nothing. */
  method BrowseChain(ctx: BrowserContext, name: string, regtype: string, domain: string, port: u16,
                     address: string, hostName: string, check: CharCheck)
    returns (t: ServiceType)
    requires ctx.Valid() && ctx.hasCallback
    requires |regtype| > 0 && Ascii(regtype) && |domain| > 0 && Ascii(domain)
    requires BonjourUtil.ParsableRegtype(regtype)
    requires BonjourUtil.ParseRegtype(BonjourUtil.NormalizeDomain(regtype), check).Ok?
    modifies ctx
    ensures t == BonjourUtil.ParseRegtype(BonjourUtil.NormalizeDomain(regtype), check).value
    ensures ctx.delivered == old(ctx.delivered) + [Ok(ServiceDiscovery(
      name, t, BonjourUtil.NormalizeDomain(domain), hostName, address, SwapBytes16(port), None))]
    ensures ctx.resolvedName == None && ctx.resolvedKind == None && ctx.resolvedDomain == None
    ensures ctx.resolvedTxt == None
  {
    ctx.BrowseCallback(0, name, regtype, domain, Ok(Unit));
    ctx.ResolveCallback(0, port, 0, Err("unused"), Ok(Unit));
    assert ctx.delivered == old(ctx.delivered) && ctx.resolvedTxt == None;
    assert ctx.resolvedName == Some(name) && ctx.resolvedKind == Some(regtype) && ctx.resolvedDomain == Some(domain);
    var r := ctx.HandleGetAddressInfo(0, address, hostName, check);
    assert r == Ok(Unit);
    t := BonjourUtil.ParseRegtype(BonjourUtil.NormalizeDomain(regtype), check).value;
    r := ctx.HandleGetAddressInfo(0, address, hostName, check);
    assert r == Ok(Unit);
  }

  /** `BonjourMdnsBrowser`. */
  class BonjourMdnsBrowser {
    var kind: string
    var interfaceIndex: u32
    const context: BrowserContext

    /** `new`: the regtype of the service type, on every interface. */
    constructor (serviceType: ServiceType)
      ensures kind == ServiceTypes.ToString(serviceType)
      ensures interfaceIndex == BonjourUtil.BONJOUR_IF_UNSPEC
      ensures fresh(context) && context.Valid() && !context.hasCallback && context.delivered == []
    {
      kind := BonjourUtil.FormatRegtype(serviceType);
      interfaceIndex := BonjourUtil.BONJOUR_IF_UNSPEC;
      context := new BrowserContext();
      BonjourUtil.FormatRegtypeIsToString(serviceType);
    }

    /** `set_network_interface`; reading it back with `network_interface` gives the
        same interface, except `AtIndex(0)`, which reads back as `Unspec`. */
    method SetNetworkInterface(interface: NetworkInterface)
      modifies this`interfaceIndex
      ensures interfaceIndex == BonjourUtil.InterfaceIndex(interface)
      ensures interface != AtIndex(0) ==> NetworkInterface() == interface
    {
      interfaceIndex := BonjourUtil.InterfaceIndex(interface);
      BonjourUtil.InterfaceRoundTrip(interface, interfaceIndex);
    }

    /** `network_interface`. */
    function NetworkInterface(): NetworkInterface
      reads this
    {
      BonjourUtil.InterfaceFromIndex(interfaceIndex)
    }

    /** `set_service_discovered_callback`. */
    method SetServiceDiscoveredCallback()
      modifies context`hasCallback
      ensures context.hasCallback
    {
      context.hasCallback := true;
    }
  }
}
