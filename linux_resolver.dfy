/** `ManagedAvahiServiceResolver` and `ServiceResolverSet` of the older Avahi backend
    (linux/resolver.rs): the table of resolutions in flight, keyed by native
    resolver handle. */
module LinuxResolver {
  import opened Common

  /** A resolver holds only its native handle. */
  datatype ManagedResolver = ManagedResolver(inner: Handle)

  /** `ManagedAvahiServiceResolver::new`: `inner` is what `avahi_service_resolver_new` returned. */
  function NewResolver(inner: Handle): (r: Result<ManagedResolver>)
    ensures r.Err? <==> inner == NULL
    ensures r.Err? ==> r.msg == "could not initialize AvahiServiceResolver"
    ensures r.Ok? ==> r.value.inner == inner
  {
    if inner == NULL then Err("could not initialize AvahiServiceResolver")
    else Ok(ManagedResolver(inner))
  }

  class ServiceResolverSet {
    var resolvers: map<Handle, ManagedResolver>

    /** Every entry sits under its own resolver's handle. */
    ghost predicate Valid()
      reads this
    {
      forall k :: k in resolvers ==> resolvers[k].inner == k
    }

    /** `ServiceResolverSet::default`. */
    constructor ()
      ensures resolvers == map[]
      ensures Valid()
    {
      resolvers := map[];
    }

    /** `insert`: keyed by `resolver.inner`, replacing an entry with that key. */
    method Insert(resolver: ManagedResolver)
      requires Valid()
      modifies this
      ensures resolvers == old(resolvers)[resolver.inner := resolver]
      ensures Valid()
      ensures |resolvers| == if resolver.inner in old(resolvers) then |old(resolvers)| else |old(resolvers)| + 1
      ensures forall k :: k != resolver.inner ==> (k in resolvers <==> k in old(resolvers))
      ensures forall k :: k != resolver.inner && k in resolvers ==> resolvers[k] == old(resolvers)[k]
    {
      resolvers := resolvers[resolver.inner := resolver];
    }

    /** `remove_raw`: deletes that key only; an absent key changes nothing. */
    method RemoveRaw(raw: Handle)
      requires Valid()
      modifies this
      ensures resolvers == old(resolvers) - {raw}
      ensures Valid()
      ensures raw !in old(resolvers) ==> resolvers == old(resolvers)
      ensures forall k :: k != raw ==> (k in resolvers <==> k in old(resolvers))
      ensures forall k :: k != raw && k in resolvers ==> resolvers[k] == old(resolvers)[k]
    {
      resolvers := resolvers - {raw};
    }
  }
}
