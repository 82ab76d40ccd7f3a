/** The older Avahi service registration (linux/service.rs). `register` creates only
    the poll and the client; the service itself is created when the client reports
    that it is running. Failures that the newer backend reports through the callback
    panic here, which the model returns as `panicked`. The entry group's calls use the
    batch of the newer backend (`AvahiService.Batch`, `AvahiService.RunBatch`). */
module LinuxService {
  import opened Common
  import opened ServiceTypes
  import AvahiUtil
  import AvahiPoll
  import AvahiService

  /** `AvahiServiceContext`. */
  class ServiceContext {
    var name: Option<string>
    const kind: string
    const subTypes: seq<string>
    const port: u16
    var group: Option<Handle>
    var groupOps: seq<AvahiService.GroupOp>
    var txtRecord: Option<TxtRecord>
    var interfaceIndex: i32
    var domain: Option<string>
    var host: Option<string>
    var hasCallback: bool
    var delivered: seq<Result<ServiceRegistration>>

    /** `AvahiServiceContext::new`: no name, group, TXT record, domain, host or
        callback, and every interface. */
    constructor (kind: string, port: u16, subTypes: seq<string>)
      ensures this.kind == kind && this.port == port && this.subTypes == subTypes
      ensures name == None && group == None && groupOps == [] && txtRecord == None
      ensures interfaceIndex == AvahiUtil.AVAHI_IF_UNSPEC
      ensures domain == None && host == None && !hasCallback && delivered == []
    {
      name := None;
      this.kind := kind;
      this.port := port;
      this.subTypes := subTypes;
      group := None;
      groupOps := [];
      txtRecord := None;
      interfaceIndex := AvahiUtil.AVAHI_IF_UNSPEC;
      domain := None;
      host := None;
      hasCallback := false;
      delivered := [];
    }

    function Delivery(result: Result<ServiceRegistration>): seq<Result<ServiceRegistration>>
      reads this`hasCallback
    {
      if hasCallback then [result] else []
    }

    /** `invoke_callback`: the callback gets the result; without one it panics. */
    method InvokeCallback(result: Result<ServiceRegistration>) returns (panicked: bool)
      modifies this`delivered
      ensures panicked <==> !hasCallback
      ensures delivered == old(delivered) + Delivery(result)
    {
      panicked := !hasCallback;
      if hasCallback {
        delivered := delivered + [result];
      }
    }

    /** The batch `create_service` issues under `name`. */
    function BatchFor(name: string): seq<AvahiService.GroupOp>
      reads this`interfaceIndex, this`domain, this`host, this`txtRecord
    {
      AvahiService.Batch(name, kind, port, interfaceIndex, domain, host, txtRecord, subTypes)
    }

    /** `create_service`: a missing name becomes the client's host name (`hostName`,
        that lookup's outcome); a missing group is created (`groupNew`); a group that
        already has entries (`groupIsEmpty` false) is left alone; otherwise the service
        call, the sub-type calls and the commit are issued until one is refused. */
    method CreateService(hostName: Result<string>, groupNew: Result<Handle>, groupIsEmpty: bool,
                         native: AvahiService.GroupOp -> Result<Unit>)
      returns (r: Result<Unit>)
      modifies this`name, this`group, this`groupOps
      ensures old(name).None? && hostName.Err? ==>
        r == Err(hostName.msg) && name == None && group == old(group) && groupOps == old(groupOps)
      ensures old(name).None? && hostName.Ok? ==> name == Some(hostName.value)
      ensures old(name).Some? ==> name == old(name)
      ensures name.Some? && old(group).None? && groupNew.Err? ==>
        r == Err(groupNew.msg) && group == None && groupOps == old(groupOps)
      ensures name.Some? && old(group).None? && groupNew.Ok? ==> group == Some(groupNew.value)
      ensures old(group).Some? ==> group == old(group)
      ensures name.Some? && group.Some? && !groupIsEmpty ==> r == Ok(Unit) && groupOps == old(groupOps)
      ensures name.Some? && group.Some? && groupIsEmpty ==>
        var o := AvahiService.RunBatch(BatchFor(name.value), native);
        groupOps == old(groupOps) + o.issued && r == o.result
    {
      if name.None? {
        if hostName.Err? {
          return Err(hostName.msg);
        }
        name := Some(hostName.value);
      }
      if group.None? {
        if groupNew.Err? {
          return Err(groupNew.msg);
        }
        group := Some(groupNew.value);
      }
      if !groupIsEmpty {
        return Ok(Unit);
      }
      var issued;
      issued, r := AvahiService.IssueBatch(
        AvahiService.Batch(name.value, kind, port, interfaceIndex, domain, host, txtRecord, subTypes), native);
      groupOps := groupOps + issued;
    }

    /** `client_callback`: a running client creates the service, and a failure to do
        so panics; every other state is ignored. */
    method ClientCallback(state: int, hostName: Result<string>, groupNew: Result<Handle>, groupIsEmpty: bool,
                          native: AvahiService.GroupOp -> Result<Unit>)
      returns (panicked: bool)
      modifies this`name, this`group, this`groupOps
      ensures state != AvahiService.AVAHI_CLIENT_S_RUNNING ==>
        !panicked && name == old(name) && group == old(group) && groupOps == old(groupOps)
      ensures state == AvahiService.AVAHI_CLIENT_S_RUNNING ==>
        name == (if old(name).Some? then old(name) else if hostName.Ok? then Some(hostName.value) else None)
        && group == (if old(group).Some? || name.None? then old(group)
                     else if groupNew.Ok? then Some(groupNew.value) else None)
      ensures state == AvahiService.AVAHI_CLIENT_S_RUNNING && (name.None? || group.None?) ==>
        panicked && groupOps == old(groupOps)
      ensures state == AvahiService.AVAHI_CLIENT_S_RUNNING && name.Some? && group.Some? && !groupIsEmpty ==>
        !panicked && groupOps == old(groupOps)
      ensures state == AvahiService.AVAHI_CLIENT_S_RUNNING && name.Some? && group.Some? && groupIsEmpty ==>
        var o := AvahiService.RunBatch(BatchFor(name.value), native);
        groupOps == old(groupOps) + o.issued && (panicked <==> o.result.Err?)
    {
      panicked := false;
      if state == AvahiService.AVAHI_CLIENT_S_RUNNING {
        var r := CreateService(hostName, groupNew, groupIsEmpty, native);
        panicked := r.Err?;
      }
    }

    /** `entry_group_callback` with `handle_group_established`: only ESTABLISHED is
        handled; it reports the registration under the name with the type read back
        from `kind` and domain "local", or the parse error. A missing name panics at
        its `unwrap`, and so does a missing callback. */
    method EntryGroupCallback(state: int) returns (panicked: bool)
      requires state == AvahiService.AVAHI_ENTRY_GROUP_ESTABLISHED && name.Some? ==> HeadHasDot(kind)
      modifies this`delivered
      ensures state != AvahiService.AVAHI_ENTRY_GROUP_ESTABLISHED ==> !panicked && delivered == old(delivered)
      ensures state == AvahiService.AVAHI_ENTRY_GROUP_ESTABLISHED && name.None? ==>
        panicked && delivered == old(delivered)
      ensures state == AvahiService.AVAHI_ENTRY_GROUP_ESTABLISHED && name.Some? ==>
        (panicked <==> !hasCallback)
        && delivered == old(delivered) + Delivery(AvahiService.GroupEstablished(name, kind))
    {
      panicked := false;
      if state == AvahiService.AVAHI_ENTRY_GROUP_ESTABLISHED {
        if name.None? {
          return true;
        }
        var result := AvahiService.GroupEstablished(name, kind);
        panicked := InvokeCallback(result);
      }
    }
  }

  /** `AvahiMdnsService`. */
  class AvahiMdnsService {
    var client: Option<Handle>
    var poll: Option<AvahiPoll.ManagedSimplePoll>
    const context: ServiceContext

    /** `new`: the kind is `_name._protocol` and each sub-type is registered in its
        `_sub._sub._name._protocol` form, in order. */
    constructor (serviceType: ServiceType, port: u16)
      ensures client == None && poll == None
      ensures context.kind == AvahiUtil.FormatServiceType(serviceType) && context.port == port
      ensures |context.subTypes| == |serviceType.subTypes|
      ensures forall i :: 0 <= i < |serviceType.subTypes| ==>
        context.subTypes[i] == AvahiUtil.FormatSubType(serviceType.subTypes[i], context.kind)
      ensures context.name == None && context.group == None && context.groupOps == []
      ensures context.interfaceIndex == AvahiUtil.AVAHI_IF_UNSPEC && !context.hasCallback && context.delivered == []
      ensures context.domain == None && context.host == None && context.txtRecord == None
      ensures fresh(context)
    {
      var kind := AvahiUtil.FormatServiceType(serviceType);
      var subTypes := [];
      for i := 0 to |serviceType.subTypes|
        invariant |subTypes| == i
        invariant forall j :: 0 <= j < i ==> subTypes[j] == AvahiUtil.FormatSubType(serviceType.subTypes[j], kind)
      {
        subTypes := subTypes + [AvahiUtil.FormatSubType(serviceType.subTypes[i], kind)];
      }
      client := None;
      poll := None;
      context := new ServiceContext(kind, port, subTypes);
    }

    /** `set_registered_callback`. */
    method SetRegisteredCallback()
      modifies context`hasCallback
      ensures context.hasCallback
    {
      context.hasCallback := true;
    }

    /** `register`: only the poll and the client are created, and the first failure is
        returned; nothing about the service is touched, since it is created later by
        the client callback. */
    method Register(pollHandle: Handle, clientNew: Result<Handle>) returns (r: Result<Unit>)
      modifies this`poll, this`client
      ensures pollHandle == NULL ==>
        r == Err("could not initialize AvahiSimplePoll") && poll == old(poll) && client == old(client)
      ensures pollHandle != NULL ==> poll == Some(AvahiPoll.ManagedSimplePoll(pollHandle))
      ensures pollHandle != NULL && clientNew.Err? ==> r == Err(clientNew.msg) && client == old(client)
      ensures r.Ok? <==> pollHandle != NULL && clientNew.Ok?
      ensures r.Ok? ==> client == Some(clientNew.value)
    {
      var p := AvahiPoll.New(pollHandle);
      if p.Err? {
        return Err(p.msg);
      }
      poll := Some(p.value);
      if clientNew.Err? {
        return Err(clientNew.msg);
      }
      client := Some(clientNew.value);
      r := Ok(Unit);
    }
  }
}
