/** The Avahi service registration (avahi/service.rs). Registering creates the poll
    and the client, then the entry group, whose batch of calls (add the service,
    add each sub-type, commit) is issued in order until one fails. The group's
    native calls are an oracle `native`; the calls issued are kept in `groupOps`. */
module AvahiService {
  import opened Common
  import opened ServiceTypes
  import AvahiUtil
  import AvahiPoll

  // Entry-group states
  const AVAHI_ENTRY_GROUP_UNCOMMITED: int := 0
  const AVAHI_ENTRY_GROUP_REGISTERING: int := 1
  const AVAHI_ENTRY_GROUP_ESTABLISHED: int := 2
  const AVAHI_ENTRY_GROUP_COLLISION: int := 3
  const AVAHI_ENTRY_GROUP_FAILURE: int := 4

  // Server states, which the client callback matches against
  const AVAHI_SERVER_INVALID: int := 0
  const AVAHI_SERVER_COLLISION: int := 3
  const AVAHI_SERVER_FAILURE: int := 4

  // Client states, which the client callback receives
  const AVAHI_CLIENT_S_REGISTERING: int := 1
  const AVAHI_CLIENT_S_RUNNING: int := 2
  const AVAHI_CLIENT_S_COLLISION: int := 3
  const AVAHI_CLIENT_FAILURE: int := 100
  const AVAHI_CLIENT_CONNECTING: int := 101

  /** One call on the entry group. */
  datatype GroupOp =
    | AddService(name: string, kind: string, port: u16, interfaceIndex: i32,
                 domain: Option<string>, host: Option<string>, txt: Option<TxtRecord>)
    | AddSubtype(name: string, kind: string, domain: Option<string>, subType: string, interfaceIndex: i32)
    | Commit

  /** The calls issued and the outcome of the batch. */
  datatype Outcome = Outcome(issued: seq<GroupOp>, result: Result<Unit>)

  /** Issues the calls in order and stops at the first that fails; its error is the
      batch's. */
  function RunBatch(ops: seq<GroupOp>, native: GroupOp -> Result<Unit>): Outcome {
    if |ops| == 0 then Outcome([], Ok(Unit))
    else
      match native(ops[0])
      case Err(e) => Outcome([ops[0]], Err(e))
      case Ok(_) =>
        var rest := RunBatch(ops[1..], native);
        Outcome([ops[0]] + rest.issued, rest.result)
  }

  /** When the call at `k` is the first to fail, the batch issued exactly the calls up
      to it and reports its error. */
  lemma {:induction false} RunBatchStopsAt(ops: seq<GroupOp>, k: nat, native: GroupOp -> Result<Unit>)
    requires k < |ops| && native(ops[k]).Err?
    requires forall j :: 0 <= j < k ==> native(ops[j]).Ok?
    ensures RunBatch(ops, native) == Outcome(ops[..k + 1], native(ops[k]))
  {
    if k > 0 {
      RunBatchStopsAt(ops[1..], k - 1, native);
      assert [ops[0]] + ops[1..][..k] == ops[..k + 1];
    }
  }

  /** A batch whose every call succeeds issues them all and succeeds. */
  lemma {:induction false} RunBatchAllOk(ops: seq<GroupOp>, native: GroupOp -> Result<Unit>)
    requires forall j :: 0 <= j < |ops| ==> native(ops[j]).Ok?
    ensures RunBatch(ops, native) == Outcome(ops, Ok(Unit))
  {
    if |ops| > 0 {
      assert forall j :: 0 <= j < |ops| - 1 ==> ops[1..][j] == ops[j + 1];
      RunBatchAllOk(ops[1..], native);
      assert [ops[0]] + ops[1..] == ops;
    }
  }

  /** Issues the calls of a batch in order, stopping at the first the native library
      refuses: what it issued and returned is the batch's outcome. */
  method IssueBatch(ops: seq<GroupOp>, native: GroupOp -> Result<Unit>) returns (issued: seq<GroupOp>, r: Result<Unit>)
    ensures Outcome(issued, r) == RunBatch(ops, native)
  {
    issued := [];
    for i := 0 to |ops|
      invariant issued == ops[..i]
      invariant forall j :: 0 <= j < i ==> native(ops[j]).Ok?
    {
      issued := issued + [ops[i]];
      r := native(ops[i]);
      if r.Err? {
        RunBatchStopsAt(ops, i, native);
        return;
      }
    }
    RunBatchAllOk(ops, native);
    r := Ok(Unit);
  }

  /** The calls of one `add_services`: the service, each sub-type in order, then the
      commit. */
  function Batch(name: string, kind: string, port: u16, interfaceIndex: i32, domain: Option<string>,
                 host: Option<string>, txt: Option<TxtRecord>, subTypes: seq<string>): (ops: seq<GroupOp>)
    ensures |ops| == |subTypes| + 2
    ensures ops[0] == AddService(name, kind, port, interfaceIndex, domain, host, txt)
    ensures ops[|ops| - 1] == Commit
  {
    [AddService(name, kind, port, interfaceIndex, domain, host, txt)]
    + SubtypeCalls(name, kind, domain, subTypes, interfaceIndex)
    + [Commit]
  }

  /** One `add_subtype` call per sub-type, in order. */
  function SubtypeCalls(name: string, kind: string, domain: Option<string>, subTypes: seq<string>,
                        interfaceIndex: i32): (ops: seq<GroupOp>)
    ensures |ops| == |subTypes|
  {
    if |subTypes| == 0 then []
    else [AddSubtype(name, kind, domain, subTypes[0], interfaceIndex)]
         + SubtypeCalls(name, kind, domain, subTypes[1..], interfaceIndex)
  }

  /** The call after the service call at `i + 1` adds the `i`-th sub-type. */
  lemma BatchSubtype(name: string, kind: string, port: u16, interfaceIndex: i32, domain: Option<string>,
                     host: Option<string>, txt: Option<TxtRecord>, subTypes: seq<string>, i: nat)
    requires i < |subTypes|
    ensures Batch(name, kind, port, interfaceIndex, domain, host, txt, subTypes)[i + 1]
         == AddSubtype(name, kind, domain, subTypes[i], interfaceIndex)
  {
    SubtypeCallsAt(name, kind, domain, subTypes, interfaceIndex, i);
  }

  lemma {:induction false} SubtypeCallsAt(name: string, kind: string, domain: Option<string>, subTypes: seq<string>,
                                          interfaceIndex: i32, i: nat)
    requires i < |subTypes|
    ensures SubtypeCalls(name, kind, domain, subTypes, interfaceIndex)[i]
         == AddSubtype(name, kind, domain, subTypes[i], interfaceIndex)
  {
    if i > 0 {
      SubtypeCallsAt(name, kind, domain, subTypes[1..], interfaceIndex, i - 1);
    }
  }

  /** What the entry group reports once established: the service's name, the type read
      back from `kind` and the domain "local". `from_str` panics unless `kind` holds a '.'. */
  function GroupEstablished(name: Option<string>, kind: string): (r: Result<ServiceRegistration>)
    requires name.Some? ==> HeadHasDot(kind)
    ensures name.None? ==> r == Err("could not get name as ref")
    ensures name.Some? ==> (r.Ok? <==> FromStrOf(kind).Ok?)
    ensures r.Ok? ==> r.value.name == name.value && r.value.domain == "local"
    ensures r.Ok? ==> r.value.serviceType == FromStrOf(kind).value
    ensures name.Some? && FromStrOf(kind).Err? ==> r == Err(FromStrOf(kind).msg)
  {
    match name
    case None => Err("could not get name as ref")
    case Some(n) =>
      match FromStrOf(kind)
      case Err(e) => Err(e)
      case Ok(t) => Ok(ServiceRegistration(n, t, "local"))
  }

  /** The registered kind carries no sub-types, so the registration reports the
      service's name and protocol and an empty sub-type list. */
  lemma GroupEstablishedDropsSubTypes(name: string, t: ServiceType)
    requires ValidPart(t.name) && ValidPart(t.protocol)
    ensures HeadHasDot(AvahiUtil.FormatServiceType(t))
    ensures GroupEstablished(Some(name), AvahiUtil.FormatServiceType(t))
         == Ok(ServiceRegistration(name, ServiceType(t.name, t.protocol, []), "local"))
  {
    AvahiUtil.FormatServiceTypeRoundTrip(t);
  }

  // ---------------------------------------------------------------------------
  // The client callback's state match

  /** As written: the client state is compared with server-state constants. */
  predicate ClientStateReportedAsWritten(state: int) {
    state == AVAHI_SERVER_INVALID || state == AVAHI_SERVER_COLLISION || state == AVAHI_SERVER_FAILURE
  }

  /** A client failure goes unreported, while 4, which no client state has, would be. */
  lemma ClientFailureIgnoredAsWritten()
    ensures !ClientStateReportedAsWritten(AVAHI_CLIENT_FAILURE)
    ensures ClientStateReportedAsWritten(AVAHI_SERVER_FAILURE)
    ensures AVAHI_SERVER_FAILURE !in {AVAHI_CLIENT_S_REGISTERING, AVAHI_CLIENT_S_RUNNING,
                                      AVAHI_CLIENT_S_COLLISION, AVAHI_CLIENT_FAILURE, AVAHI_CLIENT_CONNECTING}
  {
  }

  /** The intended match: the client states in which it cannot serve, a name
      collision and a failure. */
  predicate ClientStateReported(state: int) {
    state == AVAHI_CLIENT_S_COLLISION || state == AVAHI_CLIENT_FAILURE
  }

  /** Of the client states, the two matches agree only on the collision: the corrected
      match also reports a failure, which the match as written ignores, and neither
      reports any other client state. */
  lemma ClientStateReportedExactly(state: int)
    requires state in {AVAHI_CLIENT_S_REGISTERING, AVAHI_CLIENT_S_RUNNING,
                       AVAHI_CLIENT_S_COLLISION, AVAHI_CLIENT_FAILURE, AVAHI_CLIENT_CONNECTING}
    ensures ClientStateReported(state) && ClientStateReportedAsWritten(state) <==> state == AVAHI_CLIENT_S_COLLISION
    ensures ClientStateReported(state) && !ClientStateReportedAsWritten(state) <==> state == AVAHI_CLIENT_FAILURE
    ensures !ClientStateReported(state) ==> !ClientStateReportedAsWritten(state)
  {
  }

  /** `AvahiServiceContext`. */
  class ServiceContext {
    var client: Option<Handle>
    var name: Option<string>
    const kind: string
    const subTypes: seq<string>
    const port: u16
    var group: Option<Handle>
    var groupOps: seq<GroupOp>
    var txtRecord: Option<TxtRecord>
    var interfaceIndex: i32
    var domain: Option<string>
    var host: Option<string>
    var hasCallback: bool
    var delivered: seq<Result<ServiceRegistration>>

    /** `AvahiServiceContext::new`. */
    constructor (kind: string, port: u16, subTypes: seq<string>)
      ensures this.kind == kind && this.port == port && this.subTypes == subTypes
      ensures client == None && name == None && group == None && groupOps == []
      ensures txtRecord == None && interfaceIndex == AvahiUtil.AVAHI_IF_UNSPEC
      ensures domain == None && host == None && !hasCallback && delivered == []
    {
      client := None;
      name := None;
      this.kind := kind;
      this.port := port;
      this.subTypes := subTypes;
      group := None;
      groupOps := [];
      txtRecord := None;
      interfaceIndex := AvahiUtil.AVAHI_IF_UNSPEC;
      domain := None;
      host := None;
      hasCallback := false;
      delivered := [];
    }

    function Delivery(result: Result<ServiceRegistration>): seq<Result<ServiceRegistration>>
      reads this`hasCallback
    {
      if hasCallback then [result] else []
    }

    /** `invoke_callback`: the callback, or a warning. */
    method InvokeCallback(result: Result<ServiceRegistration>)
      modifies this`delivered
      ensures delivered == old(delivered) + Delivery(result)
    {
      if hasCallback {
        delivered := delivered + [result];
      }
    }

    /** The batch `add_services` issues for `name`. */
    function BatchFor(name: string): seq<GroupOp>
      reads this`interfaceIndex, this`domain, this`host, this`txtRecord
    {
      Batch(name, kind, port, interfaceIndex, domain, host, txtRecord, subTypes)
    }

    /** `add_services`: on the existing group, the service call, one call per
        sub-type and the commit, stopping at the first refused call. */
    method AddServices(name: string, native: GroupOp -> Result<Unit>) returns (r: Result<Unit>)
      modifies this`groupOps
      ensures group.None? ==> r == Err("could not borrow group as mut") && groupOps == old(groupOps)
      ensures group.Some? ==>
        var o := RunBatch(BatchFor(name), native);
        groupOps == old(groupOps) + o.issued && r == o.result
    {
      if group.None? {
        return Err("could not borrow group as mut");
      }
      var issued;
      issued, r := IssueBatch(Batch(name, kind, port, interfaceIndex, domain, host, txtRecord, subTypes), native);
      groupOps := groupOps + issued;
    }

    /** `create_service`: a missing name becomes the client's host name (`hostName`
        is that lookup's outcome); a missing group is created (`groupNew`); a group
        that already has entries (`groupIsEmpty` false) is left alone; otherwise the
        batch is issued under the name. */
    method CreateService(hostName: Result<string>, groupNew: Result<Handle>, groupIsEmpty: bool,
                         native: GroupOp -> Result<Unit>)
      returns (r: Result<Unit>)
      modifies this`name, this`group, this`groupOps
      ensures old(name).None? && client.None? ==>
        r == Err("expected initialized client") && name == None && group == old(group) && groupOps == old(groupOps)
      ensures old(name).None? && client.Some? && hostName.Err? ==>
        r == Err(hostName.msg) && name == None && group == old(group) && groupOps == old(groupOps)
      ensures old(name).None? && client.Some? && hostName.Ok? ==> name == Some(hostName.value)
      ensures old(name).Some? ==> name == old(name)
      ensures name.Some? && old(group).None? && client.None? ==>
        r == Err("could not get client as ref") && group == None && groupOps == old(groupOps)
      ensures name.Some? && old(group).None? && client.Some? && groupNew.Err? ==>
        r == Err(groupNew.msg) && group == None && groupOps == old(groupOps)
      ensures name.Some? && old(group).None? && client.Some? && groupNew.Ok? ==> group == Some(groupNew.value)
      ensures old(group).Some? ==> group == old(group)
      ensures name.Some? && group.Some? && !groupIsEmpty ==> r == Ok(Unit) && groupOps == old(groupOps)
      ensures name.Some? && group.Some? && groupIsEmpty ==>
        groupOps == old(groupOps) + RunBatch(BatchFor(name.value), native).issued
        && r == RunBatch(BatchFor(name.value), native).result
    {
      if name.None? {
        if client.None? {
          return Err("expected initialized client");
        }
        if hostName.Err? {
          return Err(hostName.msg);
        }
        name := Some(hostName.value);
      }
      if group.None? {
        if client.None? {
          return Err("could not get client as ref");
        }
        if groupNew.Err? {
          return Err(groupNew.msg);
        }
        group := Some(groupNew.value);
      }
      if !groupIsEmpty {
        return Ok(Unit);
      }
      r := AddServices(name.value, native);
    }

    /** `client_callback` as written: the client state is matched against the server
        constants invalid, collision and failure, so a client failure is dropped. */
    method ClientCallbackAsWritten(state: int, lastError: string)
      modifies this`delivered
      ensures ClientStateReportedAsWritten(state) ==> delivered == old(delivered) + Delivery(Err(lastError))
      ensures !ClientStateReportedAsWritten(state) ==> delivered == old(delivered)
      ensures state == AVAHI_CLIENT_FAILURE ==> delivered == old(delivered)
    {
      if state == AVAHI_SERVER_INVALID || state == AVAHI_SERVER_COLLISION || state == AVAHI_SERVER_FAILURE {
        InvokeCallback(Err(lastError));
      }
    }

    /** `client_callback`, with the intended state match: a collision or a failure of
        the client reports the client's last error. */
    method ClientCallback(state: int, lastError: string)
      modifies this`delivered
      ensures ClientStateReported(state) ==> delivered == old(delivered) + Delivery(Err(lastError))
      ensures !ClientStateReported(state) ==> delivered == old(delivered)
    {
      if state == AVAHI_CLIENT_S_COLLISION || state == AVAHI_CLIENT_FAILURE {
        InvokeCallback(Err(lastError));
      }
    }

    /** `entry_group_callback`: ESTABLISHED reports the registration; FAILURE the
        client's last error; COLLISION reissues the batch under the alternative name
        (`alternative`, the native renaming), keeps that name whatever the outcome and
        reports only a failure; other states are ignored. The client `expect` and the
        name `expect` panic when absent. */
    method EntryGroupCallback(state: int, lastError: string, alternative: string -> string,
                              native: GroupOp -> Result<Unit>)
      requires client.Some?
      requires state == AVAHI_ENTRY_GROUP_COLLISION ==> name.Some?
      requires state == AVAHI_ENTRY_GROUP_ESTABLISHED && name.Some? ==> HeadHasDot(kind)
      modifies this`name, this`groupOps, this`delivered
      ensures state == AVAHI_ENTRY_GROUP_ESTABLISHED ==>
        name == old(name) && groupOps == old(groupOps)
        && delivered == old(delivered) + Delivery(GroupEstablished(name, kind))
      ensures state == AVAHI_ENTRY_GROUP_FAILURE ==>
        delivered == old(delivered) + Delivery(Err(lastError)) && name == old(name) && groupOps == old(groupOps)
      ensures state == AVAHI_ENTRY_GROUP_COLLISION ==>
        var newName := alternative(old(name).value);
        name == Some(newName)
        && (group.None? ==>
              groupOps == old(groupOps) && delivered == old(delivered) + Delivery(Err("could not borrow group as mut")))
        && (group.Some? ==>
              var o := RunBatch(BatchFor(newName), native);
              groupOps == old(groupOps) + o.issued
              && delivered == old(delivered) + (if o.result.Err? then Delivery(Err(o.result.msg)) else []))
      ensures state != AVAHI_ENTRY_GROUP_ESTABLISHED && state != AVAHI_ENTRY_GROUP_FAILURE
              && state != AVAHI_ENTRY_GROUP_COLLISION ==>
        delivered == old(delivered) && name == old(name) && groupOps == old(groupOps)
    {
      if state == AVAHI_ENTRY_GROUP_ESTABLISHED {
        InvokeCallback(GroupEstablished(name, kind));
      } else if state == AVAHI_ENTRY_GROUP_FAILURE {
        InvokeCallback(Err(lastError));
      } else if state == AVAHI_ENTRY_GROUP_COLLISION {
        var newName := alternative(name.value);
        var result := AddServices(newName, native);
        name := Some(newName);
        if result.Err? {
          InvokeCallback(Err(result.msg));
        }
      }
    }
  }

  /** `AvahiMdnsService`. */
  class AvahiMdnsService {
    var client: Option<Handle>
    var poll: Option<AvahiPoll.ManagedSimplePoll>
    const context: ServiceContext

    /** `new`: the kind is `_name._protocol` and each sub-type is registered in its
        `_sub._sub._name._protocol` form, in order. */
    constructor (serviceType: ServiceType, port: u16)
      ensures client == None && poll == None
      ensures context.kind == AvahiUtil.FormatServiceType(serviceType) && context.port == port
      ensures |context.subTypes| == |serviceType.subTypes|
      ensures forall i :: 0 <= i < |serviceType.subTypes| ==>
        context.subTypes[i] == "_" + StripUnderscore(serviceType.subTypes[i]) + "._sub." + context.kind
      ensures context.client == None && context.name == None && context.group == None && context.groupOps == []
      ensures context.interfaceIndex == AvahiUtil.AVAHI_IF_UNSPEC && !context.hasCallback && context.delivered == []
      ensures context.domain == None && context.host == None && context.txtRecord == None
      ensures fresh(context)
    {
      var kind := AvahiUtil.FormatServiceType(serviceType);
      var subTypes := [];
      for i := 0 to |serviceType.subTypes|
        invariant |subTypes| == i
        invariant forall j :: 0 <= j < i ==> subTypes[j] == AvahiUtil.FormatSubType(serviceType.subTypes[j], kind)
      {
        subTypes := subTypes + [AvahiUtil.FormatSubType(serviceType.subTypes[i], kind)];
      }
      client := None;
      poll := None;
      context := new ServiceContext(kind, port, subTypes);
    }

    /** `set_name`; `name` reads it back. */
    method SetName(name: string)
      modifies context`name
      ensures context.name == Some(name) && Name() == Some(name)
    {
      context.name := Some(name);
    }

    function Name(): Option<string>
      reads context
    {
      context.name
    }

    /** `set_network_interface`; reading it back gives the interface again except for
        `AtIndex(0xFFFF_FFFF)`, whose index is `AVAHI_IF_UNSPEC`. */
    method SetNetworkInterface(interface: NetworkInterface)
      modifies context`interfaceIndex
      ensures context.interfaceIndex == AvahiUtil.InterfaceIndex(interface)
      ensures interface != AtIndex(0xFFFF_FFFF) ==> NetworkInterface() == interface
    {
      context.interfaceIndex := AvahiUtil.InterfaceIndex(interface);
      AvahiUtil.InterfaceRoundTrip(interface, context.interfaceIndex);
    }

    function NetworkInterface(): NetworkInterface
      reads context
    {
      AvahiUtil.InterfaceFromIndex(context.interfaceIndex)
    }

    /** `set_domain`; `domain` reads it back. */
    method SetDomain(domain: string)
      modifies context`domain
      ensures Domain() == Some(domain)
    {
      context.domain := Some(domain);
    }

    function Domain(): Option<string>
      reads context
    {
      context.domain
    }

    /** `set_host`; `host` reads it back. */
    method SetHost(host: string)
      modifies context`host
      ensures Host() == Some(host)
    {
      context.host := Some(host);
    }

    function Host(): Option<string>
      reads context
    {
      context.host
    }

    /** `set_txt_record`; `txt_record` reads it back. */
    method SetTxtRecord(txt: TxtRecord)
      modifies context`txtRecord
      ensures TxtRecord() == Some(txt)
    {
      context.txtRecord := Some(txt);
    }

    function TxtRecord(): Option<TxtRecord>
      reads context
    {
      context.txtRecord
    }

    /** `set_registered_callback`. */
    method SetRegisteredCallback()
      modifies context`hasCallback
      ensures context.hasCallback
    {
      context.hasCallback := true;
    }

    /** `register`: the poll and the client are created (a failure of either is
        returned); the context gets the client; a failure to create the service goes
        to the callback and `register` still succeeds. */
    method Register(pollHandle: Handle, clientNew: Result<Handle>, hostName: Result<string>,
                    groupNew: Result<Handle>, groupIsEmpty: bool, native: GroupOp -> Result<Unit>)
      returns (r: Result<Unit>)
      modifies this`poll, this`client, context`client, context`name, context`group, context`groupOps, context`delivered
      ensures pollHandle == NULL ==>
        r == Err("could not initialize AvahiSimplePoll") && poll == old(poll) && client == old(client)
        && context.client == old(context.client) && context.delivered == old(context.delivered)
      ensures pollHandle != NULL ==> poll == Some(AvahiPoll.ManagedSimplePoll(pollHandle))
      ensures pollHandle != NULL && clientNew.Err? ==>
        r == Err(clientNew.msg) && client == old(client) && context.client == old(context.client)
        && context.delivered == old(context.delivered)
      ensures r.Ok? <==> pollHandle != NULL && clientNew.Ok?
      ensures r.Ok? ==>
        client == Some(clientNew.value) && context.client == client
        && context.name.Some? == (old(context.name).Some? || hostName.Ok?)
        && (context.delivered == old(context.delivered)
            || exists e :: context.delivered == old(context.delivered) + context.Delivery(Err(e)))
    {
      var p := AvahiPoll.New(pollHandle);
      if p.Err? {
        return Err(p.msg);
      }
      poll := Some(p.value);
      if clientNew.Err? {
        return Err(clientNew.msg);
      }
      client := Some(clientNew.value);
      context.client := client;
      var created := context.CreateService(hostName, groupNew, groupIsEmpty, native);
      if created.Err? {
        context.InvokeCallback(Err(created.msg));
      }
      r := Ok(Unit);
    }
  }
}
