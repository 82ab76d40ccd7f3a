/** The older Avahi service browser (linux/browser.rs) and its one-shot future.
    The context caches the last result handed to the callback, and the future
    takes it from there. Native calls and the event loop's `poll` are inputs;
    a panic of the source is an out-parameter `panicked`. */
module LinuxBrowser {
  import opened Common
  import opened ServiceTypes
  import AvahiUtil
  import LinuxAvahiUtil
  import AvahiPoll
  import LinuxResolver
  import AvahiBrowser

  /** `client_callback`: a client failure panics (the source marks it "TODO");
      other states are ignored. */
  function ClientCallbackPanics(state: int): (panicked: bool)
    ensures panicked <==> state == AvahiBrowser.AVAHI_CLIENT_FAILURE
  {
    state == AvahiBrowser.AVAHI_CLIENT_FAILURE
  }

  /** `AvahiBrowserContext`. */
  class BrowserContext {
    var client: Option<Handle>
    const resolvers: LinuxResolver.ServiceResolverSet
    var discoveredService: Option<Result<ServiceDiscovery>>
    var hasCallback: bool
    var delivered: seq<Result<ServiceDiscovery>>

    ghost predicate Valid()
      reads this, resolvers
    {
      resolvers.Valid()
    }

    /** `AvahiBrowserContext::default`. */
    constructor ()
      ensures client == None && discoveredService == None && !hasCallback && delivered == []
      ensures resolvers.resolvers == map[]
      ensures fresh(resolvers) && Valid()
    {
      client := None;
      resolvers := new LinuxResolver.ServiceResolverSet();
      discoveredService := None;
      hasCallback := false;
      delivered := [];
    }

    function Delivery(result: Result<ServiceDiscovery>): seq<Result<ServiceDiscovery>>
      reads this`hasCallback
    {
      if hasCallback then [result] else []
    }

    /** `invoke_callback`: the result is cached for the future first, whether or not
        a callback is set. */
    method InvokeCallback(result: Result<ServiceDiscovery>)
      modifies this`discoveredService, this`delivered
      ensures discoveredService == Some(result)
      ensures delivered == old(delivered) + Delivery(result)
    {
      discoveredService := Some(result);
      if hasCallback {
        delivered := delivered + [result];
      }
    }

    /** `browse_callback` with `handle_browser_new`: NEW starts a resolution (a
        missing client panics at its `unwrap`), FAILURE is reported; every other
        event, REMOVE included, is ignored. */
    method BrowseCallback(event: int, resolverHandle: Handle) returns (panicked: bool)
      requires Valid()
      modifies this`discoveredService, this`delivered, resolvers
      ensures Valid()
      ensures panicked <==> event == AvahiBrowser.AVAHI_BROWSER_NEW && client.None?
      ensures event == AvahiBrowser.AVAHI_BROWSER_NEW && client.Some? && resolverHandle == NULL ==>
        discoveredService == Some(Err("could not initialize AvahiServiceResolver"))
        && delivered == old(delivered) + Delivery(Err("could not initialize AvahiServiceResolver"))
        && resolvers.resolvers == old(resolvers.resolvers)
      ensures event == AvahiBrowser.AVAHI_BROWSER_NEW && client.Some? && resolverHandle != NULL ==>
        discoveredService == old(discoveredService) && delivered == old(delivered)
        && resolvers.resolvers == old(resolvers.resolvers)[resolverHandle := LinuxResolver.ManagedResolver(resolverHandle)]
      ensures event == AvahiBrowser.AVAHI_BROWSER_FAILURE ==>
        discoveredService == Some(Err("browser failure"))
        && delivered == old(delivered) + Delivery(Err("browser failure"))
        && resolvers.resolvers == old(resolvers.resolvers)
      ensures event != AvahiBrowser.AVAHI_BROWSER_NEW && event != AvahiBrowser.AVAHI_BROWSER_FAILURE ==>
        discoveredService == old(discoveredService) && delivered == old(delivered)
        && resolvers.resolvers == old(resolvers.resolvers)
    {
      panicked := false;
      if event == AvahiBrowser.AVAHI_BROWSER_NEW {
        if client.None? {
          return true;
        }
        var resolver := LinuxResolver.NewResolver(resolverHandle);
        if resolver.Err? {
          InvokeCallback(Err(resolver.msg));
        } else {
          resolvers.Insert(resolver.value);
        }
      } else if event == AvahiBrowser.AVAHI_BROWSER_FAILURE {
        InvokeCallback(Err("browser failure"));
      }
    }

    /** `resolve_callback` with `handle_resolver_found`: reports the outcome, then
        always drops the resolver. `from_str` panics unless `kind` holds a '.'. */
    method ResolveCallback(resolver: Handle, event: int, name: string, kind: string, domain: string,
                           hostName: string, address: string, port: u16, txt: Option<TxtRecord>)
      requires event == AvahiBrowser.AVAHI_RESOLVER_FOUND ==> HeadHasDot(kind)
      requires Valid()
      modifies this`discoveredService, this`delivered, resolvers
      ensures Valid()
      ensures resolvers.resolvers == old(resolvers.resolvers) - {resolver}
      ensures event == AvahiBrowser.AVAHI_RESOLVER_FAILURE ==>
        var e := Err(AvahiBrowser.ResolveFailureMessage(name, kind, domain));
        discoveredService == Some(e) && delivered == old(delivered) + Delivery(e)
      ensures event == AvahiBrowser.AVAHI_RESOLVER_FOUND ==>
        var d := AvahiBrowser.Discovery(name, kind, domain, hostName, address, port, txt);
        discoveredService == Some(d) && delivered == old(delivered) + Delivery(d)
      ensures event != AvahiBrowser.AVAHI_RESOLVER_FAILURE && event != AvahiBrowser.AVAHI_RESOLVER_FOUND ==>
        discoveredService == old(discoveredService) && delivered == old(delivered)
    {
      if event == AvahiBrowser.AVAHI_RESOLVER_FAILURE {
        InvokeCallback(Err(AvahiBrowser.ResolveFailureMessage(name, kind, domain)));
      } else if event == AvahiBrowser.AVAHI_RESOLVER_FOUND {
        var d := AvahiBrowser.Discovery(name, kind, domain, hostName, address, port, txt);
        if d.Err? {
          InvokeCallback(Err(d.msg));
        } else {
          InvokeCallback(Ok(d.value));
        }
      }
      resolvers.RemoveRaw(resolver);
    }
  }

  /** `AvahiMdnsBrowser`. */
  class AvahiMdnsBrowser {
    var client: Option<Handle>
    var eventLoop: Option<AvahiPoll.ManagedSimplePoll>
    var timeout: Duration
    var browser: Option<Handle>
    var kind: string
    var interfaceIndex: i32
    const context: BrowserContext

    ghost predicate Valid()
      reads this, context, context.resolvers
    {
      context.Valid()
    }

    /** `new`: timeout zero, nothing created yet, every interface; the kind is the
        full string form of the service type. */
    constructor (serviceType: ServiceType)
      ensures client == None && eventLoop == None && browser == None
      ensures timeout == Duration(0, 0)
      ensures kind == ServiceTypes.ToString(serviceType)
      ensures interfaceIndex == LinuxAvahiUtil.AVAHI_IF_UNSPEC
      ensures context.client == None && context.discoveredService == None
      ensures !context.hasCallback && context.delivered == [] && context.resolvers.resolvers == map[]
      ensures fresh(context) && fresh(context.resolvers) && Valid()
    {
      client := None;
      eventLoop := None;
      timeout := Duration(0, 0);
      browser := None;
      kind := ServiceTypes.ToString(serviceType);
      context := new BrowserContext();
      interfaceIndex := LinuxAvahiUtil.AVAHI_IF_UNSPEC;
    }

    /** `set_network_interface`. */
    method SetNetworkInterface(interface: NetworkInterface)
      modifies this`interfaceIndex
      ensures interfaceIndex == LinuxAvahiUtil.InterfaceIndex(interface)
    {
      interfaceIndex := LinuxAvahiUtil.InterfaceIndex(interface);
    }

    /** `set_service_discovered_callback`. */
    method SetServiceDiscoveredCallback()
      modifies context`hasCallback
      ensures context.hasCallback
    {
      context.hasCallback := true;
    }

    /** `set_timeout`. */
    method SetTimeout(timeout: Duration)
      modifies this`timeout
      ensures this.timeout == timeout
    {
      this.timeout := timeout;
    }

    /** `browse`: poll, then client, then browser; the first failure is returned and
        leaves the event loop unset. `clientNew` is the outcome of
        `ManagedAvahiClient::new`; the handles are what the native constructors returned. */
    method Browse(pollHandle: Handle, clientNew: Result<Handle>, browserHandle: Handle) returns (r: Result<Unit>)
      modifies this`client, this`browser, this`eventLoop, context`client
      ensures pollHandle == NULL ==> r == Err("could not initialize AvahiSimplePoll") && client == old(client)
      ensures pollHandle != NULL && clientNew.Err? ==> r == Err(clientNew.msg) && client == old(client)
      ensures pollHandle != NULL && clientNew.Ok? ==> client == Some(clientNew.value) && context.client == client
      ensures pollHandle != NULL && clientNew.Ok? && browserHandle == NULL ==>
        r == Err("could not initialize Avahi service browser")
      ensures r.Ok? <==> pollHandle != NULL && clientNew.Ok? && browserHandle != NULL
      ensures r.Ok? ==> browser == Some(browserHandle) && eventLoop == Some(AvahiPoll.ManagedSimplePoll(pollHandle))
      ensures r.Err? ==> browser == old(browser) && eventLoop == old(eventLoop)
      ensures r.Err? && !(pollHandle != NULL && clientNew.Ok?) ==> context.client == old(context.client)
    {
      var poll := AvahiPoll.New(pollHandle);
      if poll.Err? {
        return Err(poll.msg);
      }
      if clientNew.Err? {
        return Err(clientNew.msg);
      }
      client := Some(clientNew.value);
      context.client := client;
      if browserHandle == NULL {
        return Err("could not initialize Avahi service browser");
      }
      browser := Some(browserHandle);
      eventLoop := Some(poll.value);
      r := Ok(Unit);
    }

    /** `AvahiBrowseFuture::poll`: a cached result is taken and is Ready; else an
        existing event loop is polled once (`loopResult`), whose error is Ready;
        else `browse` is started, whose error is Ready; otherwise Pending. */
    method PollFuture(loopResult: Result<Unit>, pollHandle: Handle, clientNew: Result<Handle>, browserHandle: Handle)
      returns (p: Poll<Result<ServiceDiscovery>>)
      modifies this`client, this`browser, this`eventLoop, context`client, context`discoveredService
      ensures old(context.discoveredService).Some? ==>
        p == Ready(old(context.discoveredService).value) && context.discoveredService == None
        && eventLoop == old(eventLoop) && client == old(client)
      ensures old(context.discoveredService).None? ==> context.discoveredService == None
      ensures old(context.discoveredService).None? && old(eventLoop).Some? ==>
        p == (if loopResult.Err? then Ready(Err(loopResult.msg)) else Pending)
        && eventLoop == old(eventLoop) && client == old(client)
      ensures old(context.discoveredService).None? && old(eventLoop).None? ==>
        var started := pollHandle != NULL && clientNew.Ok? && browserHandle != NULL;
        (started ==> p == Pending && eventLoop == Some(AvahiPoll.ManagedSimplePoll(pollHandle)))
        && (!started ==> p.Ready? && p.result.Err? && eventLoop == None)
    {
      if context.discoveredService.Some? {
        p := Ready(context.discoveredService.value);
        context.discoveredService := None;
      } else if eventLoop.Some? {
        if loopResult.Err? {
          return Ready(Err(loopResult.msg));
        }
        p := Pending;
      } else {
        var r := Browse(pollHandle, clientNew, browserHandle);
        if r.Err? {
          return Ready(Err(r.msg));
        }
        p := Pending;
      }
    }
  }
}
