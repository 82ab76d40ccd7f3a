/** The older Bonjour service registration (macos/service.rs) and its one-shot
    future. The future returns the context's cached `registration_result` when there
    is one, but the register callback, as written, never stores anything there; the
    corrected callback stores the result before handing it to the callback, as the
    browser of the same revision does. The event loop's register call and its `poll`
    are oracles. */
module MacService {
  import opened Common
  import opened ServiceTypes
  import MacBonjourUtil
  import MacBrowser
  import BonjourService

  /** `handle_register`: a non-zero error is reported with its code; otherwise the
      domain and the type lose one trailing '.' and the type is read by `from_str`,
      which panics unless the type has a '.' before its first ','. */
  function HandleRegister(error: i32, name: string, regtype: string, domain: string): (r: Result<ServiceRegistration>)
    requires error == 0 ==> MacBrowser.ParsableKind(regtype) && |domain| > 0 && Ascii(domain)
    ensures error != 0 ==> r == Err("register_callback() reported error (code: " + IntToString(error) + ")")
    ensures error == 0 ==>
      var parsed := MacBrowser.KindType(regtype);
      (r.Ok? <==> parsed.Ok?)
      && (parsed.Err? ==> r == Err(parsed.msg))
      && (parsed.Ok? ==> r == Ok(ServiceRegistration(name, parsed.value, MacBonjourUtil.NormalizeDomain(domain))))
  {
    if error != 0 then Err("register_callback() reported error (code: " + IntToString(error) + ")")
    else
      var domain := MacBonjourUtil.NormalizeDomain(domain);
      match FromStrOf(MacBonjourUtil.NormalizeDomain(regtype))
      case Err(e) => Err(e)
      case Ok(t) => Ok(ServiceRegistration(name, t, domain))
  }

  /** When the daemon reports the registered type and the domain in their absolute
      form, with a trailing '.', the registration gives back the registered type and
      the domain without its dot. */
  lemma HandleRegisterReportsRegisteredType(name: string, t: ServiceType, domain: string)
    requires ValidType(t) && Ascii(ToString(t)) && Ascii(domain)
    ensures MacBrowser.ParsableKind(ToString(t) + ".") && Ascii(domain + ".")
    ensures HandleRegister(0, name, ToString(t) + ".", domain + ".") == Ok(ServiceRegistration(name, t, domain))
  {
    var kind := ToString(t);
    assert (kind + ".")[..|kind|] == kind;
    assert (domain + ".")[..|domain|] == domain;
    FromStrToString(t);
  }

  /** `BonjourServiceContext`. */
  class ServiceContext {
    var registrationResult: Option<Result<ServiceRegistration>>
    var hasCallback: bool
    var delivered: seq<Result<ServiceRegistration>>

    /** `BonjourServiceContext::default`. */
    constructor ()
      ensures registrationResult == None && !hasCallback && delivered == []
    {
      registrationResult := None;
      hasCallback := false;
      delivered := [];
    }

    function Delivery(result: Result<ServiceRegistration>): seq<Result<ServiceRegistration>>
      reads this`hasCallback
    {
      if hasCallback then [result] else []
    }

    /** `invoke_callback` as written: the callback, or a warning; the cache the future
        reads is not written. */
    method InvokeCallbackAsWritten(result: Result<ServiceRegistration>)
      modifies this`delivered
      ensures delivered == old(delivered) + Delivery(result)
    {
      if hasCallback {
        delivered := delivered + [result];
      }
    }

    /** `register_callback` as written: the outcome of `handle_register` reaches the
        callback once, and the cache keeps whatever it held. */
    method RegisterCallbackAsWritten(error: i32, name: string, regtype: string, domain: string)
      requires error == 0 ==> MacBrowser.ParsableKind(regtype) && |domain| > 0 && Ascii(domain)
      modifies this`delivered
      ensures delivered == old(delivered) + Delivery(HandleRegister(error, name, regtype, domain))
      ensures registrationResult == old(registrationResult)
    {
      var r := HandleRegister(error, name, regtype, domain);
      if r.Err? {
        InvokeCallbackAsWritten(Err(r.msg));
      } else {
        InvokeCallbackAsWritten(Ok(r.value));
      }
    }

    /** The intended `invoke_callback`: the result is cached for the future first, as
        the browser's does, then handed to the callback if there is one. */
    method InvokeCallback(result: Result<ServiceRegistration>)
      modifies this`registrationResult, this`delivered
      ensures registrationResult == Some(result)
      ensures delivered == old(delivered) + Delivery(result)
    {
      registrationResult := Some(result);
      if hasCallback {
        delivered := delivered + [result];
      }
    }

    /** `register_callback` over the intended `invoke_callback`: the outcome of
        `handle_register` is cached and reaches the callback once. */
    method RegisterCallback(error: i32, name: string, regtype: string, domain: string)
      requires error == 0 ==> MacBrowser.ParsableKind(regtype) && |domain| > 0 && Ascii(domain)
      modifies this`registrationResult, this`delivered
      ensures registrationResult == Some(HandleRegister(error, name, regtype, domain))
      ensures delivered == old(delivered) + Delivery(HandleRegister(error, name, regtype, domain))
    {
      var r := HandleRegister(error, name, regtype, domain);
      if r.Err? {
        InvokeCallback(Err(r.msg));
      } else {
        InvokeCallback(Ok(r.value));
      }
    }
  }

  /** `BonjourMdnsService`. */
  class BonjourMdnsService {
    var isInit: bool
    var timeout: Duration
    const kind: string
    const port: u16
    var name: Option<string>
    var domain: Option<string>
    var host: Option<string>
    var interfaceIndex: u32
    var txtRecord: Option<TxtRecord>
    var registered: seq<BonjourService.RegisterParams>
    const context: ServiceContext

    /** `new`: not initialised, timeout zero, the kind is the type's string form,
        nothing else is set and every interface is used. */
    constructor (serviceType: ServiceType, port: u16)
      ensures !isInit && timeout == Duration(0, 0)
      ensures kind == ToString(serviceType) && this.port == port
      ensures name == None && domain == None && host == None && txtRecord == None
      ensures interfaceIndex == MacBonjourUtil.BONJOUR_IF_UNSPEC && registered == []
      ensures fresh(context) && context.registrationResult == None && !context.hasCallback && context.delivered == []
    {
      isInit := false;
      timeout := Duration(0, 0);
      kind := ToString(serviceType);
      this.port := port;
      name := None;
      domain := None;
      host := None;
      interfaceIndex := MacBonjourUtil.BONJOUR_IF_UNSPEC;
      txtRecord := None;
      registered := [];
      context := new ServiceContext();
    }

    /** `set_name`. */
    method SetName(name: string)
      modifies this`name
      ensures this.name == Some(name)
    {
      this.name := Some(name);
    }

    /** `set_network_interface`. */
    method SetNetworkInterface(interface: NetworkInterface)
      modifies this`interfaceIndex
      ensures interfaceIndex == MacBonjourUtil.InterfaceIndex(interface)
    {
      interfaceIndex := MacBonjourUtil.InterfaceIndex(interface);
    }

    /** `set_domain`. */
    method SetDomain(domain: string)
      modifies this`domain
      ensures this.domain == Some(domain)
    {
      this.domain := Some(domain);
    }

    /** `set_host`. */
    method SetHost(host: string)
      modifies this`host
      ensures this.host == Some(host)
    {
      this.host := Some(host);
    }

    /** `set_txt_record`. */
    method SetTxtRecord(txt: TxtRecord)
      modifies this`txtRecord
      ensures txtRecord == Some(txt)
    {
      txtRecord := Some(txt);
    }

    /** `set_registered_callback`. */
    method SetRegisteredCallback()
      modifies context`hasCallback
      ensures context.hasCallback
    {
      context.hasCallback := true;
    }

    /** `set_timeout`. */
    method SetTimeout(timeout: Duration)
      modifies this`timeout
      ensures this.timeout == timeout
    {
      this.timeout := timeout;
    }

    /** The parameters `register` assembles from the settings. */
    function Params(): BonjourService.RegisterParams
      reads this`interfaceIndex, this`name, this`domain, this`host, this`txtRecord
    {
      BonjourService.AssembleParams(interfaceIndex, name, kind, domain, host, port, txtRecord)
    }

    /** `register`: one register call with the assembled parameters (`native`, the
        event loop's outcome for them); the service is initialised only when it
        succeeds. */
    method Register(native: BonjourService.RegisterParams -> Result<Unit>) returns (r: Result<Unit>)
      modifies this`registered, this`isInit
      ensures registered == old(registered) + [Params()]
      ensures r == native(Params())
      ensures isInit == (old(isInit) || r.Ok?)
    {
      var params := Params();
      registered := registered + [params];
      r := native(params);
      if r.Ok? {
        isInit := true;
      }
    }

    /** `BonjourServiceRegisterFuture::poll`: a cached result is taken and is Ready;
        else an initialised service polls its event loop once (`loopResult`), whose
        error is Ready; else `register` is started, whose error is Ready; otherwise
        Pending. */
    method PollFuture(loopResult: Result<Unit>, native: BonjourService.RegisterParams -> Result<Unit>)
      returns (p: Poll<Result<ServiceRegistration>>)
      modifies this`registered, this`isInit, context`registrationResult
      ensures context.registrationResult == None
      ensures old(context.registrationResult).Some? ==>
        p == Ready(old(context.registrationResult).value) && registered == old(registered) && isInit == old(isInit)
      ensures old(context.registrationResult).None? && old(isInit) ==>
        p == (if loopResult.Err? then Ready(Err(loopResult.msg)) else Pending)
        && registered == old(registered) && isInit
      ensures old(context.registrationResult).None? && !old(isInit) ==>
        registered == old(registered) + [Params()]
        && (native(Params()).Ok? ==> p == Pending && isInit)
        && (native(Params()).Err? ==> p == Ready(Err(native(Params()).msg)) && !isInit)
    {
      if context.registrationResult.Some? {
        p := Ready(context.registrationResult.value);
        context.registrationResult := None;
      } else if isInit {
        if loopResult.Err? {
          return Ready(Err(loopResult.msg));
        }
        p := Pending;
      } else {
        var r := Register(native);
        if r.Err? {
          return Ready(Err(r.msg));
        }
        p := Pending;
      }
    }
  }

  /** As written, a registration reported by the daemon never reaches the future: an
      initialised service whose event loop keeps running stays Pending after the
      register callback has fired. */
  method RegisteredNeverReadyAsWritten(service: BonjourMdnsService, error: i32, name: string, regtype: string,
                                       domain: string, native: BonjourService.RegisterParams -> Result<Unit>)
    returns (p: Poll<Result<ServiceRegistration>>, q: Poll<Result<ServiceRegistration>>)
    requires error == 0 ==> MacBrowser.ParsableKind(regtype) && |domain| > 0 && Ascii(domain)
    requires service.isInit && service.context.registrationResult == None
    modifies service, service.context
    ensures p == Pending && q == Pending
  {
    p := service.PollFuture(Ok(Unit), native);
    service.context.RegisterCallbackAsWritten(error, name, regtype, domain);
    q := service.PollFuture(Ok(Unit), native);
  }

  /** With the intended callback the next poll returns the reported registration, and
      the cache is empty again. */
  method RegisteredThenReady(service: BonjourMdnsService, error: i32, name: string, regtype: string,
                             domain: string, native: BonjourService.RegisterParams -> Result<Unit>)
    returns (p: Poll<Result<ServiceRegistration>>, q: Poll<Result<ServiceRegistration>>)
    requires error == 0 ==> MacBrowser.ParsableKind(regtype) && |domain| > 0 && Ascii(domain)
    requires service.isInit && service.context.registrationResult == None
    modifies service, service.context
    ensures p == Pending && q == Ready(HandleRegister(error, name, regtype, domain))
    ensures service.context.registrationResult == None
  {
    p := service.PollFuture(Ok(Unit), native);
    service.context.RegisterCallback(error, name, regtype, domain);
    q := service.PollFuture(Ok(Unit), native);
  }
}
