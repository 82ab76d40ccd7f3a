/** The Bonjour service registration (bonjour/service.rs). The service keeps its
    settings in fields until `register` hands them to the native register call; the
    daemon answers through `register_callback`, which reports the registration it
    names. The native call is an oracle `native` from the parameters to its return
    code; the calls made are kept in `registered`. */
module BonjourService {
  import opened Common
  import opened ServiceTypes
  import BonjourUtil

  /** The parameters of one native register call. `txtBytes` is `None` for the null
      pointer. The flags, the callback and the context pointer are left out. */
  datatype RegisterParams = RegisterParams(
    interfaceIndex: u32,
    name: Option<string>,
    regtype: string,
    domain: Option<string>,
    host: Option<string>,
    port: u16,
    txtLen: nat,
    txtBytes: Option<seq<int>>)

  /** The parameters `register` assembles: the settings as they are, and without a
      TXT record a zero length and a null pointer. */
  function AssembleParams(interfaceIndex: u32, name: Option<string>, regtype: string, domain: Option<string>,
                          host: Option<string>, port: u16, txt: Option<TxtRecord>): (p: RegisterParams)
    ensures p.interfaceIndex == interfaceIndex && p.name == name && p.regtype == regtype
    ensures p.domain == domain && p.host == host && p.port == port
    ensures txt.None? ==> p.txtLen == 0 && p.txtBytes.None?
    ensures txt.Some? ==> p.txtLen == |txt.value.bytes| && p.txtBytes == Some(txt.value.bytes)
  {
    RegisterParams(interfaceIndex, name, regtype, domain, host, port,
                   if txt.Some? then |txt.value.bytes| else 0,
                   if txt.Some? then Some(txt.value.bytes) else None)
  }

  /** `handle_register`: a non-zero error is reported with its code; otherwise the
      domain and the type lose one trailing '.', the type is parsed and the
      registration carries the name as given. `normalize_domain` panics on an empty
      domain or type, and `parse_regtype` on a type without a '.' before its first ','. */
  function HandleRegister(error: i32, name: string, regtype: string, domain: string, check: CharCheck)
    : (r: Result<ServiceRegistration>)
    requires error == 0 ==> BonjourUtil.ParsableRegtype(regtype) && |domain| > 0 && Ascii(domain)
    ensures error != 0 ==> r == Err("register_callback() reported error (code: " + IntToString(error) + ")")
    ensures error == 0 ==>
      var parsed := BonjourUtil.ParseRegtype(BonjourUtil.NormalizeDomain(regtype), check);
      (r.Ok? <==> parsed.Ok?)
      && (parsed.Err? ==> r == Err(parsed.msg))
      && (parsed.Ok? ==> r == Ok(ServiceRegistration(name, parsed.value, BonjourUtil.NormalizeDomain(domain))))
  {
    if error != 0 then Err("register_callback() reported error (code: " + IntToString(error) + ")")
    else
      var domain := BonjourUtil.NormalizeDomain(domain);
      var kind := BonjourUtil.NormalizeDomain(regtype);
      match BonjourUtil.ParseRegtype(kind, check)
      case Err(e) => Err(e)
      case Ok(t) => Ok(ServiceRegistration(name, t, domain))
  }

  /** When the daemon reports the registered type and the domain in their absolute
      form, with a trailing '.', the registration gives back the type that was
      registered and the domain without its dot. */
  lemma HandleRegisterReportsRegisteredType(name: string, t: ServiceType, domain: string, check: CharCheck)
    requires ValidType(t) && forall i :: 0 <= i < |t.subTypes| ==> check(t.subTypes[i]).None?
    requires Ascii(BonjourUtil.FormatRegtype(t)) && Ascii(domain)
    ensures BonjourUtil.ParsableRegtype(BonjourUtil.FormatRegtype(t) + ".") && Ascii(domain + ".")
    ensures HandleRegister(0, name, BonjourUtil.FormatRegtype(t) + ".", domain + ".", check)
         == Ok(ServiceRegistration(name, t, domain))
  {
    BonjourUtil.NormalizeDomainRemovesOneDot(BonjourUtil.FormatRegtype(t));
    BonjourUtil.NormalizeDomainRemovesOneDot(domain);
    BonjourUtil.ParseFormatRegtype(t, check);
  }

  /** `BonjourServiceContext`. */
  class ServiceContext {
    var hasCallback: bool
    var delivered: seq<Result<ServiceRegistration>>

    /** `BonjourServiceContext::default`. */
    constructor ()
      ensures !hasCallback && delivered == []
    {
      hasCallback := false;
      delivered := [];
    }

    function Delivery(result: Result<ServiceRegistration>): seq<Result<ServiceRegistration>>
      reads this`hasCallback
    {
      if hasCallback then [result] else []
    }

    /** `invoke_callback`: the callback, or a warning. */
    method InvokeCallback(result: Result<ServiceRegistration>)
      modifies this`delivered
      ensures delivered == old(delivered) + Delivery(result)
    {
      if hasCallback {
        delivered := delivered + [result];
      }
    }

    /** `register_callback`: the outcome of `handle_register` reaches the callback
        exactly once, a success from inside it and an error from here. */
    method RegisterCallback(error: i32, name: string, regtype: string, domain: string, check: CharCheck)
      requires error == 0 ==> BonjourUtil.ParsableRegtype(regtype) && |domain| > 0 && Ascii(domain)
      modifies this`delivered
      ensures delivered == old(delivered) + Delivery(HandleRegister(error, name, regtype, domain, check))
    {
      var r := HandleRegister(error, name, regtype, domain, check);
      if r.Err? {
        InvokeCallback(Err(r.msg));
      } else {
        InvokeCallback(Ok(r.value));
      }
    }
  }

  /** `BonjourMdnsService`. */
  class BonjourMdnsService {
    const kind: string
    const port: u16
    var name: Option<string>
    var domain: Option<string>
    var host: Option<string>
    var interfaceIndex: u32
    var txtRecord: Option<TxtRecord>
    var registered: seq<RegisterParams>
    const context: ServiceContext

    /** `new`: the kind is the `regtype` form of the type; nothing else is set and
        every interface is used. */
    constructor (serviceType: ServiceType, port: u16)
      ensures kind == BonjourUtil.FormatRegtype(serviceType) && kind == ServiceTypes.ToString(serviceType)
      ensures this.port == port
      ensures name == None && domain == None && host == None && txtRecord == None
      ensures interfaceIndex == BonjourUtil.BONJOUR_IF_UNSPEC && NetworkInterface() == Unspec
      ensures registered == [] && fresh(context) && !context.hasCallback && context.delivered == []
    {
      kind := BonjourUtil.FormatRegtype(serviceType);
      BonjourUtil.FormatRegtypeIsToString(serviceType);
      this.port := port;
      name := None;
      domain := None;
      host := None;
      interfaceIndex := BonjourUtil.BONJOUR_IF_UNSPEC;
      txtRecord := None;
      registered := [];
      context := new ServiceContext();
    }

    /** `set_name`; `name` reads it back. */
    method SetName(name: string)
      modifies this`name
      ensures Name() == Some(name)
    {
      this.name := Some(name);
    }

    function Name(): Option<string>
      reads this`name
    {
      name
    }

    /** `set_network_interface`; reading it back gives the interface again except for
        `AtIndex(0)`, whose index is `BONJOUR_IF_UNSPEC`. */
    method SetNetworkInterface(interface: NetworkInterface)
      modifies this`interfaceIndex
      ensures interfaceIndex == BonjourUtil.InterfaceIndex(interface)
      ensures NetworkInterface() == interface <==> interface != AtIndex(0)
    {
      interfaceIndex := BonjourUtil.InterfaceIndex(interface);
      BonjourUtil.InterfaceRoundTrip(interface, interfaceIndex);
    }

    function NetworkInterface(): NetworkInterface
      reads this`interfaceIndex
    {
      BonjourUtil.InterfaceFromIndex(interfaceIndex)
    }

    /** `set_domain`; `domain` reads it back. */
    method SetDomain(domain: string)
      modifies this`domain
      ensures Domain() == Some(domain)
    {
      this.domain := Some(domain);
    }

    function Domain(): Option<string>
      reads this`domain
    {
      domain
    }

    /** `set_host`; `host` reads it back. */
    method SetHost(host: string)
      modifies this`host
      ensures Host() == Some(host)
    {
      this.host := Some(host);
    }

    function Host(): Option<string>
      reads this`host
    {
      host
    }

    /** `set_txt_record`; `txt_record` reads it back. */
    method SetTxtRecord(txt: TxtRecord)
      modifies this`txtRecord
      ensures TxtRecord() == Some(txt)
    {
      txtRecord := Some(txt);
    }

    function TxtRecord(): Option<TxtRecord>
      reads this`txtRecord
    {
      txtRecord
    }

    /** `set_registered_callback`. */
    method SetRegisteredCallback()
      modifies context`hasCallback
      ensures context.hasCallback
    {
      context.hasCallback := true;
    }

    /** The parameters `register` assembles from the settings. */
    function Params(): RegisterParams
      reads this`interfaceIndex, this`name, this`domain, this`host, this`txtRecord
    {
      AssembleParams(interfaceIndex, name, kind, domain, host, port, txtRecord)
    }

    /** `register`: one native register call with the assembled parameters; a
        negative code is returned as the error. */
    method Register(native: RegisterParams -> i32) returns (r: Result<Unit>)
      modifies this`registered
      ensures registered == old(registered) + [Params()]
      ensures r.Ok? <==> native(Params()) >= 0
      ensures r == BonjourUtil.SysExec(native(Params()), "could not register service")
    {
      var params := Params();
      registered := registered + [params];
      r := BonjourUtil.SysExec(native(params), "could not register service");
    }
  }
}
