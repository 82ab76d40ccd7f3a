/** The Avahi service browser (avahi/browser.rs). Native calls are inputs: a handle
    that may be null, or a `Result` where the wrapper's code is not part of this
    model. The user callback is a log: each result handed to it is appended to
    `delivered`, and nothing is appended when no callback is set. */
module AvahiBrowser {
  import opened Common
  import opened ServiceTypes
  import AvahiUtil
  import AvahiPoll
  import AvahiResolver

  // `AvahiBrowserEvent`, `AvahiResolverEvent` and `AvahiClientState` as Avahi defines them.
  const AVAHI_BROWSER_NEW: int := 0
  const AVAHI_BROWSER_REMOVE: int := 1
  const AVAHI_BROWSER_FAILURE: int := 4
  const AVAHI_RESOLVER_FOUND: int := 0
  const AVAHI_RESOLVER_FAILURE: int := 1
  const AVAHI_CLIENT_FAILURE: int := 100

  /** The error `resolve_callback` reports for a failed resolution. */
  function ResolveFailureMessage(name: string, kind: string, domain: string): string {
    "failed to resolve service `" + name + "` of type `" + kind + "` in domain `" + domain + "`"
  }

  /** The `ServiceDiscovery` that `handle_resolver_found` builds: the fields are
      copied and the type is parsed from `kind`, which fails only on a sub-type
      holding a '.'. */
  function Discovery(name: string, kind: string, domain: string, hostName: string, address: string,
                     port: u16, txt: Option<TxtRecord>): (r: Result<ServiceDiscovery>)
    requires HeadHasDot(kind)
    ensures r.Ok? <==> !HasDottedSubType(Split(kind, ','))
    ensures r.Err? ==> r.msg == "invalid character: ."
    ensures r.Ok? ==> r.value == ServiceDiscovery(name, FromStrOf(kind).value, domain, hostName, address, port, txt)
  {
    FromStrFailsOnDottedSubType(kind);
    match FromStrOf(kind)
    case Err(e) => Err(e)
    case Ok(t) => Ok(ServiceDiscovery(name, t, domain, hostName, address, port, txt))
  }

  /** What `resolve_callback` hands to the user callback for a FOUND event. */
  function FoundEvent(d: Result<ServiceDiscovery>): Result<BrowserEvent> {
    match d
    case Ok(v) => Ok(Add(v))
    case Err(e) => Err(e)
  }

  /** `AvahiBrowserContext`: what the native callbacks see. */
  class BrowserContext {
    var client: Option<Handle>
    const resolvers: AvahiResolver.ServiceResolverSet
    var hasCallback: bool
    var delivered: seq<Result<BrowserEvent>>
    var interfaceIndex: i32
    var kind: string
    var browser: Option<Handle>

    ghost predicate Valid()
      reads this, resolvers
    {
      resolvers.Valid()
    }

    /** `AvahiBrowserContext::new`. */
    constructor (kind: string, interfaceIndex: i32)
      ensures this.kind == kind && this.interfaceIndex == interfaceIndex
      ensures client == None && browser == None && !hasCallback && delivered == []
      ensures resolvers.resolvers == map[]
      ensures fresh(resolvers) && Valid()
    {
      client := None;
      resolvers := new AvahiResolver.ServiceResolverSet();
      hasCallback := false;
      delivered := [];
      this.interfaceIndex := interfaceIndex;
      this.kind := kind;
      browser := None;
    }

    /** What the user callback receives for `result`: it, or nothing without a callback. */
    function Delivery(result: Result<BrowserEvent>): seq<Result<BrowserEvent>>
      reads this`hasCallback
    {
      if hasCallback then [result] else []
    }

    /** `invoke_callback`: forwards to the callback, or only warns when none is set. */
    method InvokeCallback(result: Result<BrowserEvent>)
      modifies this`delivered
      ensures delivered == old(delivered) + Delivery(result)
    {
      if hasCallback {
        delivered := delivered + [result];
      }
    }

    /** `client_callback`: only `AVAHI_CLIENT_FAILURE` is reported, with the client's
        last error text. */
    method ClientCallback(state: int, lastError: string)
      modifies this`delivered
      ensures state == AVAHI_CLIENT_FAILURE ==> delivered == old(delivered) + Delivery(Err(lastError))
      ensures state != AVAHI_CLIENT_FAILURE ==> delivered == old(delivered)
    {
      if state == AVAHI_CLIENT_FAILURE {
        InvokeCallback(Err(lastError));
      }
    }

    /** `handle_browser_new`: a resolver for the new service goes into the set under
        its own handle; `resolverHandle` is what `avahi_service_resolver_new` returned. */
    method HandleBrowserNew(resolverHandle: Handle) returns (r: Result<Unit>)
      requires Valid()
      modifies resolvers
      ensures Valid()
      ensures client.None? ==> r == Err("expected initialized client")
      ensures client.Some? && resolverHandle == NULL ==> r == Err("could not initialize AvahiServiceResolver")
      ensures r.Err? ==> resolvers.resolvers == old(resolvers.resolvers)
      ensures r.Ok? <==> client.Some? && resolverHandle != NULL
      ensures r.Ok? ==>
        resolvers.resolvers == old(resolvers.resolvers)[resolverHandle := AvahiResolver.ManagedResolver(resolverHandle, client.value)]
    {
      if client.None? {
        return Err("expected initialized client");
      }
      var resolver := AvahiResolver.NewResolver(resolverHandle, client.value);
      if resolver.Err? {
        return Err(resolver.msg);
      }
      resolvers.Insert(resolver.value);
      r := Ok(Unit);
    }

    /** `handle_browser_remove`: the removal carries the callback's strings verbatim. */
    method HandleBrowserRemove(name: string, kind: string, domain: string)
      modifies this`delivered
      ensures delivered == old(delivered) + Delivery(Ok(Remove(ServiceRemoval(name, kind, domain))))
    {
      InvokeCallback(Ok(Remove(ServiceRemoval(name, kind, domain))));
    }

    /** `browse_callback`: NEW starts a resolution, REMOVE reports the removal,
        FAILURE reports "browser failure"; other events are ignored. */
    method BrowseCallback(event: int, name: string, kind: string, domain: string, resolverHandle: Handle)
      requires Valid()
      modifies this`delivered, resolvers
      ensures Valid()
      ensures event == AVAHI_BROWSER_NEW && client.None? ==>
        delivered == old(delivered) + Delivery(Err("expected initialized client"))
        && resolvers.resolvers == old(resolvers.resolvers)
      ensures event == AVAHI_BROWSER_NEW && client.Some? && resolverHandle == NULL ==>
        delivered == old(delivered) + Delivery(Err("could not initialize AvahiServiceResolver"))
        && resolvers.resolvers == old(resolvers.resolvers)
      ensures event == AVAHI_BROWSER_NEW && client.Some? && resolverHandle != NULL ==>
        delivered == old(delivered)
        && resolvers.resolvers ==
          old(resolvers.resolvers)[resolverHandle := AvahiResolver.ManagedResolver(resolverHandle, client.value)]
      ensures event == AVAHI_BROWSER_FAILURE ==>
        delivered == old(delivered) + Delivery(Err("browser failure"))
        && resolvers.resolvers == old(resolvers.resolvers)
      ensures event == AVAHI_BROWSER_REMOVE ==>
        delivered == old(delivered) + Delivery(Ok(Remove(ServiceRemoval(name, kind, domain))))
        && resolvers.resolvers == old(resolvers.resolvers)
      ensures event != AVAHI_BROWSER_NEW && event != AVAHI_BROWSER_FAILURE && event != AVAHI_BROWSER_REMOVE ==>
        delivered == old(delivered) && resolvers.resolvers == old(resolvers.resolvers)
    {
      if event == AVAHI_BROWSER_NEW {
        var r := HandleBrowserNew(resolverHandle);
        if r.Err? {
          InvokeCallback(Err(r.msg));
        }
      } else if event == AVAHI_BROWSER_FAILURE {
        InvokeCallback(Err("browser failure"));
      } else if event == AVAHI_BROWSER_REMOVE {
        HandleBrowserRemove(name, kind, domain);
      }
    }

    /** `handle_resolver_found`: the discovery is handed to the callback, or its
        build error is returned. */
    method HandleResolverFound(name: string, kind: string, domain: string, hostName: string,
                               address: string, port: u16, txt: Option<TxtRecord>) returns (r: Result<Unit>)
      requires HeadHasDot(kind)
      modifies this`delivered
      ensures var d := Discovery(name, kind, domain, hostName, address, port, txt);
        (d.Err? ==> r == Err(d.msg) && delivered == old(delivered))
        && (d.Ok? ==> r == Ok(Unit) && delivered == old(delivered) + Delivery(Ok(Add(d.value))))
    {
      var d := Discovery(name, kind, domain, hostName, address, port, txt);
      if d.Err? {
        return Err(d.msg);
      }
      InvokeCallback(Ok(Add(d.value)));
      r := Ok(Unit);
    }

    /** `resolve_callback`: reports the outcome, then always drops the resolver, so
        the set only holds resolutions still in flight. The source parses `kind`
        with `from_str`, which panics unless it holds a '.'. */
    method ResolveCallback(resolver: Handle, event: int, name: string, kind: string, domain: string,
                           hostName: string, address: string, port: u16, txt: Option<TxtRecord>)
      requires event == AVAHI_RESOLVER_FOUND ==> HeadHasDot(kind)
      requires Valid()
      modifies this`delivered, resolvers
      ensures Valid()
      ensures resolvers.resolvers == old(resolvers.resolvers) - {resolver}
      ensures event == AVAHI_RESOLVER_FAILURE ==>
        delivered == old(delivered) + Delivery(Err(ResolveFailureMessage(name, kind, domain)))
      ensures event == AVAHI_RESOLVER_FOUND ==>
        delivered == old(delivered) + Delivery(FoundEvent(Discovery(name, kind, domain, hostName, address, port, txt)))
      ensures event != AVAHI_RESOLVER_FAILURE && event != AVAHI_RESOLVER_FOUND ==> delivered == old(delivered)
    {
      if event == AVAHI_RESOLVER_FAILURE {
        InvokeCallback(Err(ResolveFailureMessage(name, kind, domain)));
      } else if event == AVAHI_RESOLVER_FOUND {
        var result := HandleResolverFound(name, kind, domain, hostName, address, port, txt);
        if result.Err? {
          InvokeCallback(Err(result.msg));
        }
      }
      resolvers.RemoveRaw(resolver);
    }
  }

  /** `AvahiMdnsBrowser`. */
  class AvahiMdnsBrowser {
    const context: BrowserContext
    var client: Option<Handle>
    var poll: Option<AvahiPoll.ManagedSimplePoll>

    ghost predicate Valid()
      reads this, context, context.resolvers
    {
      context.Valid()
    }

    /** `new`: browses the `_sub` form of the first sub-type, on every interface. */
    constructor (serviceType: ServiceType)
      ensures context.kind == AvahiUtil.FormatBrowserType(serviceType)
      ensures context.interfaceIndex == AvahiUtil.AVAHI_IF_UNSPEC
      ensures client == None && poll == None && context.client == None && context.browser == None
      ensures !context.hasCallback && context.delivered == [] && context.resolvers.resolvers == map[]
      ensures fresh(context) && fresh(context.resolvers) && Valid()
    {
      client := None;
      poll := None;
      context := new BrowserContext(AvahiUtil.FormatBrowserType(serviceType), AvahiUtil.AVAHI_IF_UNSPEC);
    }

    /** `set_network_interface`; reading it back gives the same interface unless its
        index wraps onto `AVAHI_IF_UNSPEC`. */
    method SetNetworkInterface(interface: NetworkInterface)
      modifies context`interfaceIndex
      ensures context.interfaceIndex == AvahiUtil.InterfaceIndex(interface)
      ensures interface != AtIndex(0xFFFF_FFFF) ==> NetworkInterface() == interface
    {
      context.interfaceIndex := AvahiUtil.InterfaceIndex(interface);
      AvahiUtil.InterfaceRoundTrip(interface, 0);
    }

    /** `network_interface`. */
    function NetworkInterface(): NetworkInterface
      reads this, context
    {
      AvahiUtil.InterfaceFromIndex(context.interfaceIndex)
    }

    /** `set_service_callback`. */
    method SetServiceCallback()
      modifies context`hasCallback
      ensures context.hasCallback
    {
      context.hasCallback := true;
    }

    /** `browse_services`: `pollHandle` is what `avahi_simple_poll_new` returned,
        `clientNew` the outcome of `ManagedAvahiClient::new` and `browserHandle`
        what `avahi_service_browser_new` returned. A browser that cannot be created
        is reported through the callback, and the event loop is still returned. */
    method BrowseServices(pollHandle: Handle, clientNew: Result<Handle>, browserHandle: Handle)
      returns (r: Result<AvahiPoll.ManagedSimplePoll>)
      requires Valid()
      modifies this, context`client, context`browser, context`delivered
      ensures Valid()
      ensures pollHandle == NULL ==>
        r == Err("could not initialize AvahiSimplePoll") && poll == old(poll) && client == old(client)
        && context.client == old(context.client) && context.delivered == old(context.delivered)
      ensures pollHandle != NULL ==> poll == Some(AvahiPoll.ManagedSimplePoll(pollHandle))
      ensures pollHandle != NULL && clientNew.Err? ==>
        r == Err(clientNew.msg) && client == old(client) && context.client == old(context.client)
        && context.delivered == old(context.delivered)
      ensures pollHandle != NULL && clientNew.Ok? ==>
        r == Ok(AvahiPoll.ManagedSimplePoll(pollHandle))
        && client == Some(clientNew.value) && context.client == client
      ensures pollHandle != NULL && clientNew.Ok? && browserHandle == NULL ==>
        context.browser == old(context.browser)
        && context.delivered == old(context.delivered) + context.Delivery(Err("could not initialize Avahi service browser"))
      ensures pollHandle != NULL && clientNew.Ok? && browserHandle != NULL ==>
        context.browser == Some(browserHandle) && context.delivered == old(context.delivered)
      ensures r.Err? ==> context.browser == old(context.browser)
    {
      var newPoll := AvahiPoll.New(pollHandle);
      if newPoll.Err? {
        return Err(newPoll.msg);
      }
      poll := Some(newPoll.value);
      if clientNew.Err? {
        return Err(clientNew.msg);
      }
      client := Some(clientNew.value);
      context.client := client;
      var created := CreateBrowser(browserHandle);
      if created.Err? {
        context.InvokeCallback(Err(created.msg));
      }
      r := Ok(newPoll.value);
    }

    /** `create_browser`: needs the client; a null browser handle is an error. */
    method CreateBrowser(browserHandle: Handle) returns (r: Result<Unit>)
      modifies context`browser
      ensures context.client.None? ==> r == Err("could not get client as ref")
      ensures context.client.Some? && browserHandle == NULL ==> r == Err("could not initialize Avahi service browser")
      ensures r.Ok? <==> context.client.Some? && browserHandle != NULL
      ensures r.Ok? ==> context.browser == Some(browserHandle)
      ensures r.Err? ==> context.browser == old(context.browser)
    {
      if context.client.None? {
        return Err("could not get client as ref");
      }
      if browserHandle == NULL {
        return Err("could not initialize Avahi service browser");
      }
      context.browser := Some(browserHandle);
      r := Ok(Unit);
    }
  }
}
