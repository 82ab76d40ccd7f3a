/** The older Bonjour service browser (macos/browser.rs): the same browse → resolve →
    get-address-info chain as the Bonjour backend, plus a cache of the last result
    that drives a one-shot future. The last step `unwrap`s the resolved fields and
    parses the kind with `ServiceType::from_str`. */
module MacBrowser {
  import opened Common
  import opened ServiceTypes
  import MacBonjourUtil
  import BonjourBrowser

  /** A resolved kind the last step can parse: `normalize_domain` needs it non-empty
      and ASCII, and `from_str` needs a '.' before its first ','. */
  predicate ParsableKind(kind: string) {
    |kind| > 0 && Ascii(kind) && HeadHasDot(MacBonjourUtil.NormalizeDomain(kind))
  }

  /** The service type the last step reads from a resolved kind. */
  function KindType(kind: string): Result<ServiceType>
    requires ParsableKind(kind)
  {
    FromStrOf(MacBonjourUtil.NormalizeDomain(kind))
  }

  /** `BonjourBrowserContext`. */
  class BrowserContext {
    var discoveredService: Option<Result<ServiceDiscovery>>
    var hasCallback: bool
    var delivered: seq<Result<ServiceDiscovery>>
    var resolvedName: Option<string>
    var resolvedKind: Option<string>
    var resolvedDomain: Option<string>
    var resolvedPort: u16
    var resolvedTxt: Option<TxtRecord>

    /** A pending name comes with its kind and domain, so the `unwrap`s of the last
        step cannot fail. */
    ghost predicate Valid()
      reads this`resolvedName, this`resolvedKind, this`resolvedDomain
    {
      resolvedName.Some? ==> resolvedKind.Some? && resolvedDomain.Some?
    }

    constructor ()
      ensures discoveredService == None && !hasCallback && delivered == []
      ensures resolvedName == None && resolvedKind == None && resolvedDomain == None
      ensures resolvedPort == 0 && resolvedTxt == None
      ensures Valid()
    {
      discoveredService := None;
      hasCallback := false;
      delivered := [];
      resolvedName := None;
      resolvedKind := None;
      resolvedDomain := None;
      resolvedPort := 0;
      resolvedTxt := None;
    }

    function Delivery(result: Result<ServiceDiscovery>): seq<Result<ServiceDiscovery>>
      reads this`hasCallback
    {
      if hasCallback then [result] else []
    }

    /** `invoke_callback`: caches the result for the future, then calls the callback
        or warns. */
    method InvokeCallback(result: Result<ServiceDiscovery>)
      modifies this`discoveredService, this`delivered
      ensures discoveredService == Some(result)
      ensures delivered == old(delivered) + Delivery(result)
    {
      discoveredService := Some(result);
      if hasCallback {
        delivered := delivered + [result];
      }
    }

    /** What every trampoline does with its handler's outcome. */
    method Report(r: Result<Unit>)
      modifies this`discoveredService, this`delivered
      ensures r.Ok? ==> discoveredService == old(discoveredService) && delivered == old(delivered)
      ensures r.Err? ==> discoveredService == Some(Err(r.msg)) && delivered == old(delivered) + Delivery(Err(r.msg))
    {
      if r.Err? {
        InvokeCallback(Err(r.msg));
      }
    }

    /** `handle_browse`: rejects a native error; otherwise records name, regtype and
        domain, and the outcome is that of issuing the resolve. */
    method HandleBrowse(error: i32, name: string, regtype: string, domain: string, resolveOutcome: Result<Unit>)
      returns (r: Result<Unit>)
      requires Valid()
      modifies this`resolvedName, this`resolvedKind, this`resolvedDomain
      ensures Valid()
      ensures error != 0 ==>
        r == Err("browse_callback() reported error (code: " + IntToString(error) + ")")
        && resolvedName == old(resolvedName) && resolvedKind == old(resolvedKind)
        && resolvedDomain == old(resolvedDomain)
      ensures error == 0 ==>
        r == resolveOutcome
        && resolvedName == Some(name) && resolvedKind == Some(regtype) && resolvedDomain == Some(domain)
    {
      if error != 0 {
        return Err("browse_callback() reported error (code: " + IntToString(error) + ")");
      }
      resolvedName := Some(name);
      resolvedKind := Some(regtype);
      resolvedDomain := Some(domain);
      r := resolveOutcome;
    }

    /** `handle_resolve`: rejects a native error; otherwise stores the port and keeps
        a TXT record only when `txt_len > 1`. */
    method HandleResolve(error: i32, port: u16, txtLen: u16, txtClone: Result<TxtRecord>,
                         addressOutcome: Result<Unit>)
      returns (r: Result<Unit>)
      requires Valid()
      modifies this`resolvedPort, this`resolvedTxt
      ensures Valid()
      ensures error != 0 ==>
        r == Err("error reported by resolve_callback: (code: " + IntToString(error) + ")")
        && resolvedPort == old(resolvedPort) && resolvedTxt == old(resolvedTxt)
      ensures error == 0 ==> resolvedPort == port
      ensures error == 0 && txtLen <= 1 ==> resolvedTxt == None && r == addressOutcome
      ensures error == 0 && txtLen > 1 && txtClone.Err? ==>
        r == Err(txtClone.msg) && resolvedTxt == old(resolvedTxt)
      ensures error == 0 && txtLen > 1 && txtClone.Ok? ==>
        resolvedTxt == Some(txtClone.value) && r == addressOutcome
    {
      if error != 0 {
        return Err("error reported by resolve_callback: (code: " + IntToString(error) + ")");
      }
      resolvedPort := port;
      if txtLen > 1 {
        if txtClone.Err? {
          return Err(txtClone.msg);
        }
        resolvedTxt := Some(txtClone.value);
      } else {
        resolvedTxt := None;
      }
      r := addressOutcome;
    }

    /** The last part of `handle_get_address_info`, given the outcome `parsed` of
        reading the pending kind: every resolved field is taken and, when the kind
        parsed, one discovery is delivered. */
    method TakeResolved(parsed: Result<ServiceType>, address: string, hostName: string)
      returns (r: Result<Unit>)
      requires Valid() && resolvedName.Some?
      requires |resolvedDomain.value| > 0 && Ascii(resolvedDomain.value)
      modifies this`resolvedName, this`resolvedKind, this`resolvedDomain, this`resolvedTxt
      modifies this`discoveredService, this`delivered
      ensures Valid()
      ensures resolvedName == None && resolvedKind == None && resolvedDomain == None
      ensures parsed.Err? ==>
        r == Err(parsed.msg) && delivered == old(delivered)
        && discoveredService == old(discoveredService) && resolvedTxt == old(resolvedTxt)
      ensures parsed.Ok? ==>
        var d := ServiceDiscovery(
          old(resolvedName).value, parsed.value,
          MacBonjourUtil.NormalizeDomain(old(resolvedDomain).value), hostName, address,
          BonjourBrowser.SwapBytes16(old(resolvedPort)), old(resolvedTxt));
        r == Ok(Unit) && resolvedTxt == None
        && discoveredService == Some(Ok(d)) && delivered == old(delivered) + Delivery(Ok(d))
    {
      var name, domain := resolvedName.value, resolvedDomain.value;
      var port := BonjourBrowser.SwapBytes16(resolvedPort);
      resolvedDomain, resolvedKind, resolvedName := None, None, None;
      if parsed.Err? {
        r := Err(parsed.msg);
      } else {
        var txt := resolvedTxt;
        resolvedTxt := None;
        InvokeCallback(Ok(ServiceDiscovery(name, parsed.value, MacBonjourUtil.NormalizeDomain(domain),
                                           hostName, address, port, txt)));
        r := Ok(Unit);
      }
    }

    /** `handle_get_address_info`: a no-op once the chain has completed; rejects a
        native error; otherwise takes every resolved field and delivers one discovery
        whose type is `from_str` of the normalised kind, or the parse error. The
        `unwrap`s hold by `Valid()`; `from_str` panics unless the kind holds a '.'. */
    method HandleGetAddressInfo(error: i32, address: string, hostName: string)
      returns (r: Result<Unit>)
      requires Valid()
      requires resolvedName.Some? && error == 0 && resolvedDomain.Some? ==>
        |resolvedDomain.value| > 0 && Ascii(resolvedDomain.value)
      requires resolvedName.Some? && error == 0 ==> resolvedKind.Some? && ParsableKind(resolvedKind.value)
      modifies this`resolvedName, this`resolvedKind, this`resolvedDomain, this`resolvedTxt
      modifies this`discoveredService, this`delivered
      ensures Valid()
      ensures old(resolvedName).None? || error != 0 ==>
        resolvedName == old(resolvedName) && resolvedKind == old(resolvedKind)
        && resolvedDomain == old(resolvedDomain) && resolvedTxt == old(resolvedTxt)
        && delivered == old(delivered) && discoveredService == old(discoveredService)
      ensures old(resolvedName).None? ==> r == Ok(Unit)
      ensures old(resolvedName).Some? && error != 0 ==>
        r == Err("get_address_info_callback() reported error (code: " + IntToString(error) + ")")
      ensures old(resolvedName).Some? && error == 0 ==>
        resolvedName == None && resolvedKind == None && resolvedDomain == None
      ensures old(resolvedName).Some? && error == 0 ==>
        var parsed := KindType(old(resolvedKind).value);
        parsed.Err? ==>
          (r == Err(parsed.msg) && delivered == old(delivered)
           && discoveredService == old(discoveredService) && resolvedTxt == old(resolvedTxt))
      ensures old(resolvedName).Some? && error == 0 ==>
        var parsed := KindType(old(resolvedKind).value);
        parsed.Ok? ==>
          var d := ServiceDiscovery(
            old(resolvedName).value, parsed.value,
            MacBonjourUtil.NormalizeDomain(old(resolvedDomain).value), hostName, address,
            BonjourBrowser.SwapBytes16(old(resolvedPort)), old(resolvedTxt));
          r == Ok(Unit) && resolvedTxt == None
          && discoveredService == Some(Ok(d)) && delivered == old(delivered) + Delivery(Ok(d))
    {
      if resolvedName.None? {
        r := Ok(Unit);
      } else if error != 0 {
        r := Err("get_address_info_callback() reported error (code: " + IntToString(error) + ")");
      } else {
        r := TakeResolved(KindType(resolvedKind.value), address, hostName);
      }
    }
  }

  /** `BonjourMdnsBrowser`. */
  class BonjourMdnsBrowser {
    var timeout: Duration
    var isInit: bool
    var kind: string
    var interfaceIndex: u32
    const context: BrowserContext

    /** `new`: not initialised, timeout zero, every interface; the kind is the
        service type's string form. */
    constructor (serviceType: ServiceType)
      ensures timeout == Duration(0, 0) && !isInit
      ensures kind == ServiceTypes.ToString(serviceType)
      ensures interfaceIndex == 0
      ensures fresh(context) && context.Valid() && context.discoveredService == None
      ensures !context.hasCallback && context.delivered == []
    {
      timeout := Duration(0, 0);
      isInit := false;
      kind := ServiceTypes.ToString(serviceType);
      interfaceIndex := 0;
      context := new BrowserContext();
    }

    /** `set_network_interface`. */
    method SetNetworkInterface(interface: NetworkInterface)
      modifies this`interfaceIndex
      ensures interfaceIndex == MacBonjourUtil.InterfaceIndex(interface)
    {
      interfaceIndex := MacBonjourUtil.InterfaceIndex(interface);
    }

    /** `set_service_discovered_callback`. */
    method SetServiceDiscoveredCallback()
      modifies context`hasCallback
      ensures context.hasCallback
    {
      context.hasCallback := true;
    }

    /** `set_timeout`. */
    method SetTimeout(timeout: Duration)
      modifies this`timeout
      ensures this.timeout == timeout
    {
      this.timeout := timeout;
    }

    /** `browse`: `browseOutcome` is that of the native browse call; only its success
        marks the browser initialised. */
    method Browse(browseOutcome: Result<Unit>) returns (r: Result<Unit>)
      modifies this`isInit
      ensures r == browseOutcome
      ensures isInit == (old(isInit) || browseOutcome.Ok?)
    {
      r := browseOutcome;
      if r.Ok? {
        isInit := true;
      }
    }

    /** `BonjourBrowseFuture::poll`: a cached result is taken and is Ready; else an
        initialised browser polls its event loop once (`loopResult`), whose error is
        Ready; else `browse` is started, whose error is Ready; otherwise Pending. */
    method PollFuture(loopResult: Result<Unit>, browseOutcome: Result<Unit>)
      returns (p: Poll<Result<ServiceDiscovery>>)
      modifies this`isInit, context`discoveredService
      ensures context.discoveredService == None
      ensures old(context.discoveredService).Some? ==>
        p == Ready(old(context.discoveredService).value) && isInit == old(isInit)
      ensures old(context.discoveredService).None? && old(isInit) ==>
        p == (if loopResult.Err? then Ready(Err(loopResult.msg)) else Pending) && isInit
      ensures old(context.discoveredService).None? && !old(isInit) ==>
        p == (if browseOutcome.Err? then Ready(Err(browseOutcome.msg)) else Pending)
        && isInit == browseOutcome.Ok?
    {
      if context.discoveredService.Some? {
        p := Ready(context.discoveredService.value);
        context.discoveredService := None;
      } else if isInit {
        if loopResult.Err? {
          return Ready(Err(loopResult.msg));
        }
        p := Pending;
      } else {
        var r := Browse(browseOutcome);
        if r.Err? {
          return Ready(Err(r.msg));
        }
        p := Pending;
      }
    }
  }

  /** The future sees what a callback delivered: a discovery reported during the poll
      of an initialised browser is returned by the next poll, and the cache is then
      empty again. */
  method DeliveredThenTaken(browser: BonjourMdnsBrowser, d: Result<ServiceDiscovery>)
    returns (p: Poll<Result<ServiceDiscovery>>, q: Poll<Result<ServiceDiscovery>>)
    requires browser.isInit && browser.context.discoveredService == None
    modifies browser, browser.context
    ensures p == Pending && q == Ready(d)
    ensures browser.context.discoveredService == None
  {
    p := browser.PollFuture(Ok(Unit), Ok(Unit));
    browser.context.InvokeCallback(d);
    q := browser.PollFuture(Ok(Unit), Ok(Unit));
  }
}
