/** The Metal3Data manager: acquiring an address from every referenced pool and
    releasing all of them. Any call to the API server may fail. */
module DataManager {
  import opened Wrappers
  import opened ApiServer
  import opened IPPools
  import opened IPClaims
  import opened PoolReferences
  import opened Rendering

  /** Looking for the BareMetalHost of the Metal3Data: an error, no template or machine
      yet, or a host. */
  datatype HostLookup = LookupFailed | NotThere | Host(name: string)

  datatype Ensured = EnsureFailed | NoClaim | HaveClaim(fetchAgain: bool)

  /** What became of a claim: still waiting, an error, or an address. */
  datatype Metal3Allocation =
    | Pending
    | Broken
    | Assigned(address: string, prefix: int, gateway: Option<string>, dns: seq<string>)

  datatype GenericAllocation = Waiting | Failing | Given(address: Address)

  datatype AcquireError = Requeue | Failed | BadTemplate(error: PoolReferences.Error)

  /** newAddressFromIPAMv1: the prefix is always there, and must fit int32. */
  function NewAddress(a: Metal3Allocation): Option<Address>
    requires a.Assigned?
  {
    if FitsInt32(a.prefix) then Some(Address(a.address, Some(a.prefix), if a.gateway.None? then "" else a.gateway.value, a.dns))
    else None
  }

  /** The address a claim of this type of pool yields; Some(None) means not yet. */
  function Outcome(metal3: bool, m: Metal3Allocation, g: GenericAllocation): Option<Option<Address>> {
    if metal3 then
      match m
      case Pending => Some(None)
      case Broken => None
      case Assigned(_, _, _, _) => if NewAddress(m).None? then None else Some(NewAddress(m))
    else
      match g
      case Waiting => Some(None)
      case Failing => None
      case Given(a) => Some(Some(a))
  }

  predicate Yields(metal3: bool, m: Metal3Allocation, g: GenericAllocation) {
    Outcome(metal3, m, g).Some? && Outcome(metal3, m, g).value.Some?
  }

  predicate AllYield(refs: Result<Refs, PoolReferences.Error>, metal3Of: string -> Metal3Allocation, genericOf: string -> GenericAllocation) {
    refs.Ok? && forall p :: p in refs.value ==> Yields(IsMetal3(refs.value[p]), metal3Of(p), genericOf(p))
  }

  /** The address is what the claim was assigned, with its own prefix, gateway and DNS
      servers. */
  predicate AddressAssigned(metal3: bool, m: Metal3Allocation, g: GenericAllocation, a: Address) {
    if metal3 then
      && m.Assigned? && -0x8000_0000 <= m.prefix < 0x8000_0000
      && a.address == m.address && a.prefix == Some(m.prefix) && a.dns == m.dns
      && (m.gateway.Some? ==> a.gateway == m.gateway.value) && (m.gateway.None? ==> a.gateway == "")
    else g.Given? && a == g.address
  }

  /** The host a new Metal3 claim is named after, if any. */
  function Base(lookup: HostLookup, byHost: bool): Option<string> {
    if byHost && lookup.Host? then Some(lookup.name) else None
  }

  /** No Metal3 claim for the pool under either name. */
  predicate Fresh(metal3: Store, data: string, lookup: HostLookup, pool: string) {
    ClaimName(data, pool) !in metal3 && (lookup.Host? ==> ClaimName(lookup.name, pool) !in metal3)
  }

  predicate NoneFresh(metal3: Store, data: string, lookup: HostLookup, refs: Refs) {
    forall p :: p in refs && IsMetal3(refs[p]) ==> !Fresh(metal3, data, lookup, p)
  }

  ghost predicate MadeFor(refs: Refs, claims: map<string, Ensured>, data: string, lookup: HostLookup, byHost: bool, n: string) {
    exists q :: q in claims && claims[q] == HaveClaim(true) && q in refs && IsMetal3(refs[q])
                && n == Metal3Name(data, Base(lookup, byHost), q)
  }

  /** A claim the manager can go on with. */
  predicate ReadyIn(metal3: Store, generic: Store, ref: PoolRef, e: Ensured, data: string, lookup: HostLookup) {
    && (e.NoClaim? ==> IsMetal3(ref) && lookup.NotThere?)
    && (e.HaveClaim? && !IsMetal3(ref) ==> ClaimName(data, ref.name) in generic)
    && (e == HaveClaim(false) && IsMetal3(ref) ==>
          ClaimName(data, ref.name) in metal3 || (lookup.Host? && ClaimName(lookup.name, ref.name) in metal3))
  }

  /** Every claim made is ready, and the new Metal3 claims are those just created. */
  ghost predicate MadeIn(metal3: Store, generic: Store, before: Store, refs: Refs, claims: map<string, Ensured>, data: string,
                         lookup: HostLookup, byHost: bool) {
    && before.Keys <= metal3.Keys
    && (forall p :: p in claims ==> p in refs && !claims[p].EnsureFailed? && ReadyIn(metal3, generic, refs[p], claims[p], data, lookup))
    && (forall p :: p in claims && claims[p] == HaveClaim(true) && IsMetal3(refs[p]) ==>
          Fresh(before, data, lookup, p) && Metal3Name(data, Base(lookup, byHost), p) in metal3)
    && (forall n :: n in metal3 && n !in before ==> MadeFor(refs, claims, data, lookup, byHost, n))
  }

  lemma MadeForKept(refs: Refs, claims: map<string, Ensured>, data: string, lookup: HostLookup, byHost: bool, p: string, e: Ensured)
    requires p !in claims
    ensures forall n :: MadeFor(refs, claims, data, lookup, byHost, n) ==> MadeFor(refs, claims[p := e], data, lookup, byHost, n)
    ensures e == HaveClaim(true) && p in refs && IsMetal3(refs[p]) ==>
              MadeFor(refs, claims[p := e], data, lookup, byHost, Metal3Name(data, Base(lookup, byHost), p))
  {
    forall n | MadeFor(refs, claims, data, lookup, byHost, n)
      ensures MadeFor(refs, claims[p := e], data, lookup, byHost, n)
    {
      var q :| q in claims && claims[q] == HaveClaim(true) && q in refs && IsMetal3(refs[q])
               && n == Metal3Name(data, Base(lookup, byHost), q);
      assert claims[p := e][q] == HaveClaim(true);
    }
    assert claims[p := e][p] == e;
  }

  lemma EarlierReady(old3: Store, oldG: Store, new3: Store, newG: Store, ref: PoolRef, e: Ensured, data: string, lookup: HostLookup)
    requires old3.Keys <= new3.Keys && oldG.Keys <= newG.Keys && ReadyIn(old3, oldG, ref, e, data, lookup)
    ensures ReadyIn(new3, newG, ref, e, data, lookup)
  {
  }

  lemma EarlierFresh(before: Store, old3: Store, data: string, lookup: HostLookup, p: string)
    requires before.Keys <= old3.Keys && Fresh(old3, data, lookup, p)
    ensures Fresh(before, data, lookup, p)
  {
  }

  /** What one more claim does to the store of Metal3 claims. */
  predicate Adds(old3: Store, new3: Store, p: string, ref: PoolRef, e: Ensured, data: string, lookup: HostLookup, byHost: bool) {
    if e == HaveClaim(true) && IsMetal3(ref) then
      Fresh(old3, data, lookup, p) && new3.Keys == old3.Keys + {Metal3Name(data, Base(lookup, byHost), p)}
    else new3 == old3
  }

  /** The earlier claims are still there, and the new one joins them. */
  lemma MadeNext(old3: Store, oldG: Store, new3: Store, newG: Store, before: Store, p: string, refs: Refs,
                 claims: map<string, Ensured>, e: Ensured, data: string, lookup: HostLookup, byHost: bool)
    requires p in refs && refs[p].name == p && p !in claims && !e.EnsureFailed? && ReadyIn(new3, newG, refs[p], e, data, lookup)
    requires MadeIn(old3, oldG, before, refs, claims, data, lookup, byHost)
    requires old3.Keys <= new3.Keys && oldG.Keys <= newG.Keys && Adds(old3, new3, p, refs[p], e, data, lookup, byHost)
    ensures MadeIn(new3, newG, before, refs, claims[p := e], data, lookup, byHost)
  {
    var claims' := claims[p := e];
    forall q | q in claims'
      ensures q in refs && !claims'[q].EnsureFailed? && ReadyIn(new3, newG, refs[q], claims'[q], data, lookup)
      ensures claims'[q] == HaveClaim(true) && IsMetal3(refs[q]) ==>
                Fresh(before, data, lookup, q) && Metal3Name(data, Base(lookup, byHost), q) in new3
    {
      if q != p {
        assert q in claims && claims'[q] == claims[q];
        EarlierReady(old3, oldG, new3, newG, refs[q], claims[q], data, lookup);
      } else if e == HaveClaim(true) && IsMetal3(refs[p]) {
        EarlierFresh(before, old3, data, lookup, p);
      }
    }
    NewNames(old3, oldG, new3, before, p, refs, claims, e, data, lookup, byHost);
  }

  lemma NewNames(old3: Store, oldG: Store, new3: Store, before: Store, p: string, refs: Refs, claims: map<string, Ensured>,
                 e: Ensured, data: string, lookup: HostLookup, byHost: bool)
    requires p in refs && p !in claims && Adds(old3, new3, p, refs[p], e, data, lookup, byHost)
    requires MadeIn(old3, oldG, before, refs, claims, data, lookup, byHost)
    ensures forall n :: n in new3 && n !in before ==> MadeFor(refs, claims[p := e], data, lookup, byHost, n)
  {
    MadeForKept(refs, claims, data, lookup, byHost, p, e);
    forall n | n in new3 && n !in before
      ensures MadeFor(refs, claims[p := e], data, lookup, byHost, n)
    {
      if n in old3 {
        assert MadeFor(refs, claims, data, lookup, byHost, n);
      }
    }
  }

  lemma RunOne(c: Claims, e: Event)
    ensures Run(c, [e]) == Apply(c, e)
  {
    assert [e][..0] == [];
    assert Run(c, []) == c;
  }

  lemma SamePool(base: string, p: string, q: string)
    ensures ClaimName(base, p) == ClaimName(base, q) <==> p == q
  {
    assert ClaimName(base, p)[|base| + 1..] == p && ClaimName(base, q)[|base| + 1..] == q;
  }

  /** Joined names that coincide over different bases have pools of different lengths. */
  lemma NamesApart(data: string, p: string, host: string, q: string)
    requires ClaimName(data, p) == ClaimName(host, q) && data != host
    ensures |host| > |data| ==> |q| < |p|
    ensures |host| <= |data| ==> |q| > |p|
  {
    assert |ClaimName(data, p)| == |data| + 1 + |p| && |ClaimName(host, q)| == |host| + 1 + |q|;
    assert ClaimName(data, p)[..|data|] == data && ClaimName(host, q)[..|host|] == host;
    assert |host| != |data|;
  }

  /** A shortest, or a longest, string of the set. */
  lemma {:induction false} Extreme(s: set<string>, shortest: bool) returns (p: string)
    requires s != {}
    ensures p in s && forall q :: q in s ==> if shortest then |p| <= |q| else |p| >= |q|
    decreases s
  {
    p :| p in s;
    var rest := s - {p};
    assert forall x :: x in s ==> x == p || x in rest;
    if rest != {} {
      var q := Extreme(rest, shortest);
      if (shortest && |q| < |p|) || (!shortest && |q| > |p|) {
        p := q;
      }
    }
  }

  /** Metal3 addresses have a prefix, so having all addresses is being allocated. */
  lemma AllocatedKeys(objects: Objects, t: Template, refs: Refs, addresses: Addresses,
                      metal3Of: string -> Metal3Allocation, genericOf: string -> GenericAllocation)
    requires Collect(map[], Mentions(objects, t)) == Ok(refs) && addresses.Keys <= refs.Keys
    requires forall p :: p in addresses ==> Outcome(IsMetal3(refs[p]), metal3Of(p), genericOf(p)) == Some(Some(addresses[p]))
    ensures Allocated(objects, t, addresses) <==> forall p :: p in refs ==> p in addresses
    ensures Allocated(objects, t, addresses) <==> addresses.Keys == refs.Keys
  {
    if forall p :: p in refs ==> p in addresses {
      assert addresses.Keys == refs.Keys;
    }
    if Allocated(objects, t, addresses) {
      assert addresses.Keys == refs.Keys;
    }
  }

  class Manager {
    const name: string
    const hasUid: bool
    const hasTemplate: bool
    const fails: nat -> bool
    var calls: nat
    var labels: map<string, string>
    var metal3: Store
    var generic: Store

    constructor (name: string, hasUid: bool, hasTemplate: bool, labels: map<string, string>, claims: Claims, fails: nat -> bool)
      ensures this.name == name && this.hasUid == hasUid && this.hasTemplate == hasTemplate
      ensures this.labels == labels && Stored() == claims && this.fails == fails
    {
      this.name, this.hasUid, this.hasTemplate := name, hasUid, hasTemplate;
      this.labels, this.metal3, this.generic := labels, claims.metal3, claims.generic;
      this.fails, this.calls := fails, 0;
    }

    function Stored(): Claims
      reads this
    {
      Claims(metal3, generic)
    }

    /** One request to the API server. */
    method Call() returns (ok: bool)
      modifies this`calls
      ensures (forall k :: !fails(k)) ==> ok
    {
      ok := !fails(calls);
      calls := calls + 1;
    }

    // ----- acquiring -----

    ghost predicate Reliable() {
      forall k :: !fails(k)
    }

    method EnsureM3IPClaim(pool: string, lookup: HostLookup, byHost: bool) returns (r: Ensured)
      modifies this
      ensures r != HaveClaim(true) ==> Stored() == old(Stored())
      ensures r == HaveClaim(true) ==>
                && lookup.Host?
                && Stored() == Apply(old(Stored()), AcquireMetal3(name, old(labels), if byHost then Some(lookup.name) else None, pool))
                && ClaimName(name, pool) !in old(metal3) && ClaimName(lookup.name, pool) !in old(metal3)
      ensures r == HaveClaim(true) ==>
                var name' := (if byHost then lookup.name else name) + "-" + pool;
                && name' in metal3 && name' !in old(metal3)
                && metal3[name'].finalizers == {"metal3data.infrastructure.cluster.x-k8s.io"} && !metal3[name'].deleting
                && metal3[name'].body.owner == name && metal3[name'].body.pool == PoolRef(pool, "ipam.metal3.io", "IPPool")
                && metal3[name'].body.labels ==
                   if byHost then old(labels)["infrastructure.cluster.x-k8s.io/data-name" := name]
                                             ["infrastructure.cluster.x-k8s.io/pool-name" := pool]
                   else old(labels)
      ensures r == HaveClaim(false) ==>
                ClaimName(name, pool) in metal3 || (lookup.Host? && ClaimName(lookup.name, pool) in metal3)
      ensures r.NoClaim? ==> lookup.NotThere?
      ensures Reliable() && lookup.Host? ==> !r.EnsureFailed?
    {
      var ok := Call();
      if !ok {
        return EnsureFailed;
      }
      if ClaimName(name, pool) in metal3 {
        return HaveClaim(false);
      }
      if lookup.LookupFailed? {
        return EnsureFailed;
      }
      if lookup.NotThere? {
        return NoClaim;
      }
      ok := Call();
      if !ok {
        return EnsureFailed;
      }
      if ClaimName(lookup.name, pool) in metal3 {
        return HaveClaim(false);
      }
      var base := name;
      if byHost {
        labels := labels[DATA_LABEL := name][POOL_LABEL := pool];
        base := lookup.name;
      }
      ok := Call();
      if !ok {
        return EnsureFailed;
      }
      metal3 := Create(metal3, ClaimName(base, pool), Object(Claim(name, labels, Metal3Pool(pool)), {DATA_FINALIZER}, false));
      r := HaveClaim(true);
    }

    method EnsureIPClaim(ref: PoolRef) returns (r: Ensured)
      requires !IsMetal3(Defaulted(ref))
      modifies this
      ensures !r.NoClaim?
      ensures r != HaveClaim(true) ==> Stored() == old(Stored())
      ensures r == HaveClaim(true) ==> Stored() == Apply(old(Stored()), AcquireGeneric(name, old(labels), ref))
      ensures r == HaveClaim(true) ==>
                var claim := name + "-" + ref.name;
                && claim in generic && claim !in old(generic)
                && generic[claim].finalizers == {"metal3data.infrastructure.cluster.x-k8s.io"} && !generic[claim].deleting
                && generic[claim].body.owner == name && generic[claim].body.labels == old(labels)
                && generic[claim].body.pool.name == ref.name
                && generic[claim].body.pool.group == (if ref.group == "" then "ipam.metal3.io" else ref.group)
                && generic[claim].body.pool.kind == (if ref.kind == "" then "IPPool" else ref.kind)
      ensures r.HaveClaim? ==> ClaimName(name, ref.name) in generic
      ensures Reliable() && name != "" ==> !r.EnsureFailed?
    {
      if name == "" {
        return EnsureFailed;
      }
      var ok := Call();
      if !ok {
        return EnsureFailed;
      }
      if ClaimName(name, ref.name) in generic {
        return HaveClaim(false);
      }
      ok := Call();
      if !ok {
        return EnsureFailed;
      }
      generic := Create(generic, ClaimName(name, ref.name), Object(Claim(name, labels, Defaulted(ref)), {DATA_FINALIZER}, false));
      r := HaveClaim(true);
    }

    /** One claim for one pool: at most one acquisition, of the pool's type. */
    method EnsureClaim(p: string, ref: PoolRef, lookup: HostLookup, byHost: bool) returns (e: Ensured, ghost events: seq<Event>)
      requires ref.name == p && ref == Defaulted(ref)
      modifies this
      ensures Stored() == Run(old(Stored()), events)
      ensures forall generic :: (!IsMetal3(ref) <==> p in generic) ==> OneType(events, name, generic)
      ensures Ready(ref, e, lookup)
      ensures old(metal3).Keys <= metal3.Keys && old(generic).Keys <= generic.Keys
      ensures e == HaveClaim(true) && IsMetal3(ref) ==>
                && Fresh(old(metal3), name, lookup, p)
                && metal3.Keys == old(metal3).Keys + {Metal3Name(name, Base(lookup, byHost), p)}
      ensures !(e == HaveClaim(true) && IsMetal3(ref)) ==> metal3 == old(metal3)
      ensures Reliable() && lookup.Host? && name != "" ==> !e.EnsureFailed?
    {
      ghost var before, labels' := Stored(), labels;
      events := [];
      if IsMetal3(ref) {
        e := EnsureM3IPClaim(p, lookup, byHost);
        if e == HaveClaim(true) {
          events := [AcquireMetal3(name, labels', Base(lookup, byHost), p)];
        }
      } else {
        e := EnsureIPClaim(ref);
        if e == HaveClaim(true) {
          events := [AcquireGeneric(name, labels', ref)];
        }
      }
      if events != [] {
        RunOne(before, events[0]);
      }
    }

    ghost predicate Ready(ref: PoolRef, e: Ensured, lookup: HostLookup)
      reads this
    {
      ReadyIn(metal3, generic, ref, e, name, lookup)
    }

    ghost predicate Made(before: Store, refs: Refs, claims: map<string, Ensured>, lookup: HostLookup, byHost: bool)
      reads this
    {
      MadeIn(metal3, generic, before, refs, claims, name, lookup, byHost)
    }

    /** A claim for every pool, or None on an error. */
    method EnsureClaims(refs: Refs, lookup: HostLookup, byHost: bool, ghost generic: set<string>)
      returns (r: Option<map<string, Ensured>>, ghost events: seq<Event>)
      requires forall p :: p in refs ==> refs[p].name == p && refs[p] == Defaulted(refs[p]) && (!IsMetal3(refs[p]) <==> p in generic)
      modifies this
      ensures Stored() == Run(old(Stored()), events) && OneType(events, name, generic)
      ensures r.Some? ==> r.value.Keys == refs.Keys && Made(old(metal3), refs, r.value, lookup, byHost)
      ensures Reliable() && lookup.Host? && name != "" ==> r.Some?
    {
      var claims: map<string, Ensured> := map[];
      var left := refs.Keys;
      events := [];
      while left != {}
        invariant left <= refs.Keys && claims.Keys == refs.Keys - left
        invariant Stored() == Run(old(Stored()), events) && OneType(events, name, generic)
        invariant Made(old(metal3), refs, claims, lookup, byHost)
        decreases left
      {
        var p :| p in left;
        var failed;
        ghost var more;
        claims, failed, more := EnsureNext(p, refs, claims, lookup, byHost, old(metal3));
        RunConcat(old(Stored()), events, more);
        OneTypeAppend(events, more, name, generic);
        events := events + more;
        if failed {
          return None, events;
        }
        left := left - {p};
      }
      r := Some(claims);
    }

    method EnsureNext(p: string, refs: Refs, claims: map<string, Ensured>, lookup: HostLookup, byHost: bool, ghost before: Store)
      returns (claims': map<string, Ensured>, failed: bool, ghost events: seq<Event>)
      requires p in refs && refs[p].name == p && refs[p] == Defaulted(refs[p]) && p !in claims
      requires Made(before, refs, claims, lookup, byHost)
      modifies this
      ensures Stored() == Run(old(Stored()), events)
      ensures forall generic :: (!IsMetal3(refs[p]) <==> p in generic) ==> OneType(events, name, generic)
      ensures !failed ==> claims'.Keys == claims.Keys + {p} && Made(before, refs, claims', lookup, byHost)
      ensures Reliable() && lookup.Host? && name != "" ==> !failed
    {
      var e;
      ghost var old3, oldG := metal3, generic;
      e, events := EnsureClaim(p, refs[p], lookup, byHost);
      failed := e.EnsureFailed?;
      claims' := claims[p := e];
      if !failed {
        MadeNext(old3, oldG, metal3, generic, before, p, refs, claims, e, name, lookup, byHost);
      }
    }

    /** The claim is read again when it was just created, always under the name made
        from this Metal3Data. */
    method Refetch(ref: PoolRef) returns (ok: bool)
      modifies this`calls
      ensures Reliable() ==> (ok <==> ClaimName(name, ref.name) in (if IsMetal3(ref) then metal3 else generic))
    {
      ok := Call();
      ok := ok && ClaimName(name, ref.name) in (if IsMetal3(ref) then metal3 else generic);
    }

    /** A pool is passed over, without an error, when it has no claim or its new claim
        is not found under the expected name. */
    ghost predicate PassedOver(ref: PoolRef, e: Ensured)
      reads this
    {
      IsMetal3(ref) && (e.NoClaim? || (e == HaveClaim(true) && ClaimName(name, ref.name) !in metal3))
    }

    method ReadAddresses(refs: Refs, claims: map<string, Ensured>, lookup: HostLookup,
                         metal3Of: string -> Metal3Allocation, genericOf: string -> GenericAllocation)
      returns (r: Result<Addresses, AcquireError>)
      requires claims.Keys == refs.Keys && forall p :: p in refs ==> refs[p].name == p && !claims[p].EnsureFailed? && Ready(refs[p], claims[p], lookup)
      modifies this`calls
      ensures r.Ok? ==> r.value.Keys <= refs.Keys
      ensures r.Ok? ==> forall p :: p in r.value ==> Outcome(IsMetal3(refs[p]), metal3Of(p), genericOf(p)) == Some(Some(r.value[p]))
      ensures r.Ok? ==> forall p :: p in r.value ==> AddressAssigned(IsMetal3(refs[p]), metal3Of(p), genericOf(p), r.value[p])
      ensures r.Ok? && Reliable() ==> forall p :: p in refs ==> (p !in r.value <==> PassedOver(refs[p], claims[p]))
      ensures Reliable() && !lookup.NotThere? && (forall p :: p in refs ==> Yields(IsMetal3(refs[p]), metal3Of(p), genericOf(p))) ==> r.Ok?
    {
      var addresses: Addresses := map[];
      var requeue, stale := false, false;
      var left := refs.Keys;
      while left != {}
        invariant left <= refs.Keys && addresses.Keys <= refs.Keys - left
        invariant !requeue ==>
                    forall p :: p in addresses ==> Outcome(IsMetal3(refs[p]), metal3Of(p), genericOf(p)) == Some(Some(addresses[p]))
        invariant !requeue && Reliable() ==>
                    forall p :: p in refs && p !in left ==> (p !in addresses <==> PassedOver(refs[p], claims[p]))
        invariant (forall p :: p in refs ==> Yields(IsMetal3(refs[p]), metal3Of(p), genericOf(p))) ==> !requeue
        decreases left
      {
        var p :| p in left;
        left := left - {p};
        if claims[p] == HaveClaim(true) {
          var ok := Refetch(refs[p]);
          if !ok {
            stale := true;
            continue;
          }
        }
        if claims[p].NoClaim? {
          if stale {
            return Err(Failed);
          }
          continue;
        }
        stale := false;
        var outcome := Outcome(IsMetal3(refs[p]), metal3Of(p), genericOf(p));
        if outcome.None? {
          return Err(Failed);
        }
        if outcome.value.Some? {
          addresses := addresses[p := outcome.value.value];
        } else {
          requeue := true;
        }
      }
      r := if requeue then Err(Requeue) else Ok(addresses);
    }

    /** An address for every pool the template refers to. The store has then gone through
        acquisitions of the types the template fixes. Without failing calls, what is
        returned is all that rendering relies on, always when claims are named after
        the Metal3Data, and with claims named after the host exactly when every Metal3
        pool had a claim before or host and Metal3Data share a name. */
    method GetAddressesFromPool(objects: Objects, t: Template, lookup: HostLookup, byHost: bool,
                                metal3Of: string -> Metal3Allocation, genericOf: string -> GenericAllocation)
      returns (r: Result<Addresses, AcquireError>, ghost events: seq<Event>)
      modifies this
      ensures Stored() == Run(old(Stored()), events) && OneType(events, name, GenericNames(t))
      ensures r.Ok? ==> Collect(map[], Mentions(objects, t)).Ok? && r.value.Keys <= Collect(map[], Mentions(objects, t)).value.Keys
      ensures r.Ok? ==> forall p :: p in r.value ==>
                AddressAssigned(IsMetal3(Collect(map[], Mentions(objects, t)).value[p]), metal3Of(p), genericOf(p), r.value[p])
      ensures r.Ok? ==> (Allocated(objects, t, r.value) <==> r.value.Keys == Collect(map[], Mentions(objects, t)).value.Keys)
      ensures r.Ok? && lookup.Host? && Reliable() ==>
                (Allocated(objects, t, r.value) <==>
                 !byHost || lookup.name == name || NoneFresh(old(metal3), name, lookup, Collect(map[], Mentions(objects, t)).value))
      ensures Reliable() && lookup.Host? && name != "" && AllYield(Collect(map[], Mentions(objects, t)), metal3Of, genericOf) ==> r.Ok?
    {
      var pools := GetReferencedPools(objects, t);
      events := [];
      if pools.Err? {
        return Err(BadTemplate(pools.error)), events;
      }
      ghost var before := metal3;
      ghost var refs := pools.value;
      CollectDefaulted(Mentions(objects, t));
      forall p | p in refs
        ensures !IsMetal3(refs[p]) <==> p in GenericNames(t)
      {
        TemplateFixesTypes(objects, t, p);
      }
      var claims;
      claims, events := EnsureClaims(pools.value, lookup, byHost, GenericNames(t));
      if claims.None? {
        return Err(Failed), events;
      }
      r := ReadAddresses(pools.value, claims.value, lookup, metal3Of, genericOf);
      if r.Ok? {
        AllocatedKeys(objects, t, refs, r.value, metal3Of, genericOf);
        if lookup.Host? && Reliable() {
          AllPassedExactly(before, refs, claims.value, lookup, byHost);
        }
      }
    }

    /** No pool is passed over exactly in these cases. A new claim named after the host
        can be found under the name made from the Metal3Data only if the two names are
        the same: if another pool's new claim happened to have that name, that pool
        would be shorter, or longer, without end. */
    lemma AllPassedExactly(before: Store, refs: Refs, claims: map<string, Ensured>, lookup: HostLookup, byHost: bool)
      requires lookup.Host? && claims.Keys == refs.Keys && Made(before, refs, claims, lookup, byHost)
      requires forall p :: p in refs ==> refs[p].name == p
      ensures (forall p :: p in refs ==> !PassedOver(refs[p], claims[p])) <==>
              !byHost || lookup.name == name || NoneFresh(before, name, lookup, refs)
    {
      if byHost && lookup.name != name && !NoneFresh(before, name, lookup, refs) {
        var lacking := set p | p in refs && IsMetal3(refs[p]) && Fresh(before, name, lookup, p);
        var some :| some in refs && IsMetal3(refs[some]) && Fresh(before, name, lookup, some);
        assert some in lacking;
        var p := Extreme(lacking, |lookup.name| > |name|);
        if ClaimName(name, p) in metal3 {
          assert MadeFor(refs, claims, name, lookup, byHost, ClaimName(name, p));
          var q :| q in claims && claims[q] == HaveClaim(true) && q in refs && IsMetal3(refs[q]) && ClaimName(name, p) == ClaimName(lookup.name, q);
          assert q in lacking;
          NamesApart(name, p, lookup.name, q);
        }
        OwnClaim(before, refs, claims, lookup, p);
        assert PassedOver(refs[p], claims[p]);
      }
    }

    /** A pool without claims before, and without one under the data's name now, got one
        named after the host. */
    lemma OwnClaim(before: Store, refs: Refs, claims: map<string, Ensured>, lookup: HostLookup, p: string)
      requires lookup.Host? && claims.Keys == refs.Keys && Made(before, refs, claims, lookup, true)
      requires p in refs && refs[p].name == p && IsMetal3(refs[p]) && Fresh(before, name, lookup, p) && ClaimName(name, p) !in metal3
      ensures claims[p] == HaveClaim(true)
    {
      if claims[p] == HaveClaim(false) {
        assert MadeFor(refs, claims, name, lookup, true, ClaimName(lookup.name, p));
        var q :| q in claims && claims[q] == HaveClaim(true) && q in refs && ClaimName(lookup.name, p) == ClaimName(lookup.name, q);
        SamePool(lookup.name, p, q);
      }
    }

    // ----- releasing -----

    /** Takes the finalizer off a Metal3 claim and deletes it. */
    method ReleaseM3Claim(n: string) returns (ok: bool)
      requires n in metal3
      modifies this`metal3, this`calls
      ensures ok ==> metal3 == ReleaseAll(old(metal3), {n})
    {
      ReleaseOne(metal3, n);
      if DATA_FINALIZER in metal3[n].finalizers {
        ok := Call();
        if !ok {
          return;
        }
        metal3 := DropFinalizer(metal3, n, DATA_FINALIZER);
      }
      ok := Call();
      if ok {
        metal3 := Delete(metal3, n);
      }
    }

    /** Deletes the claims labelled for this Metal3Data and pool, then the one named
        after them. */
    method ReleaseAddressFromM3Pool(pool: string) returns (ok: bool)
      modifies this`metal3, this`calls
      ensures ok ==> metal3 == ReleaseAll(old(metal3), FoundMetal3(old(metal3), name, {pool}))
      ensures ok ==> forall n :: n in old(metal3) ==>
                if n == name + "-" + pool || LabelsSay(old(metal3)[n].body.labels, name, pool)
                then Released(metal3, n, "metal3data.infrastructure.cluster.x-k8s.io")
                else n in metal3 && metal3[n] == old(metal3)[n]
    {
      ghost var start := metal3;
      ok := ReleaseLabelled(pool);
      if !ok {
        return;
      }
      ghost var labelled := WithLabels(start, name, pool);
      var n := ClaimName(name, pool);
      FoundParts(start, name, pool);
      ok := Call();
      if !ok || n !in metal3 {
        return;
      }
      ok := ReleaseM3Claim(n);
      ReleaseTwice(start, labelled, {n});
    }

    method ReleaseLabelled(pool: string) returns (ok: bool)
      modifies this`metal3, this`calls
      ensures ok ==> metal3 == ReleaseAll(old(metal3), WithLabels(old(metal3), name, pool))
    {
      ghost var start := metal3;
      ok := Call();
      if !ok {
        return;
      }
      var listed := WithLabels(metal3, name, pool);
      var left := listed;
      ghost var done := {};
      assert ReleaseAll(start, {}) == start;
      while left != {}
        invariant left <= listed && done == listed - left && ok
        invariant metal3 == ReleaseAll(start, done)
        invariant forall n :: n in left ==> n in metal3
        decreases left
      {
        var n :| n in left;
        ok := ReleaseM3Claim(n);
        if !ok {
          return;
        }
        ReleaseTwice(start, done, {n});
        left := left - {n};
        done := done + {n};
      }
      assert done == listed;
    }

    method ReleaseAddressFromPool(pool: string) returns (ok: bool)
      modifies this`generic, this`calls
      ensures ok ==> generic == ReleaseAll(old(generic), FoundGeneric(old(generic), name, {pool}))
      ensures ok ==> forall n :: n in old(generic) ==>
                if n == name + "-" + pool then Released(generic, n, "metal3data.infrastructure.cluster.x-k8s.io")
                else n in generic && generic[n] == old(generic)[n]
    {
      var n := ClaimName(name, pool);
      assert FoundGeneric(generic, name, {pool}) == if n in generic then {n} else {};
      assert ReleaseAll(generic, {}) == generic;
      ReleaseOne(generic, n);
      ok := Call();
      if !ok || n !in generic {
        return;
      }
      if DATA_FINALIZER in generic[n].finalizers {
        ok := Call();
        if !ok {
          return;
        }
        generic := DropFinalizer(generic, n, DATA_FINALIZER);
      }
      ok := Call();
      if ok {
        generic := Delete(generic, n);
      }
    }

    /** Reads the pools off the claims this Metal3Data owns. */
    method GetClaimedPools() returns (r: Option<map<string, PoolRef>>)
      modifies this`calls
      ensures r.Some? && hasUid ==> PoolsOf(Stored(), name, r.value)
      ensures r.Some? && !hasUid ==> r.value == map[]
    {
      var ok := Call();
      if !ok {
        return None;
      }
      var pools := PoolsFromMetal3();
      ok := Call();
      if !ok {
        return None;
      }
      ghost var first := pools;
      var left := generic.Keys;
      while left != {}
        invariant left <= generic.Keys
        invariant !hasUid ==> pools == map[]
        invariant forall p :: p in first ==> p in pools
        invariant forall p :: p in pools ==> (p in first && pools[p] == first[p]) || FromGeneric(generic, name, pools, p)
        invariant hasUid ==> forall n :: n in generic && n !in left && generic[n].body.owner == name ==>
                    generic[n].body.pool.name in pools && FromGeneric(generic, name, pools, generic[n].body.pool.name)
        decreases left
      {
        var n :| n in left;
        if hasUid && generic[n].body.owner == name {
          pools := pools[generic[n].body.pool.name := Defaulted(generic[n].body.pool)];
        }
        left := left - {n};
      }
      r := Some(pools);
    }

    method PoolsFromMetal3() returns (pools: map<string, PoolRef>)
      ensures !hasUid ==> pools == map[]
      ensures hasUid ==> forall n :: n in metal3 && metal3[n].body.owner == name ==> metal3[n].body.pool.name in pools
      ensures forall p :: p in pools ==> FromMetal3(metal3, name, pools, p)
    {
      pools := map[];
      var left := metal3.Keys;
      while left != {}
        invariant left <= metal3.Keys
        invariant !hasUid ==> pools == map[]
        invariant hasUid ==>
                    forall n :: n in metal3 && n !in left && metal3[n].body.owner == name ==> metal3[n].body.pool.name in pools
        invariant forall p :: p in pools ==> FromMetal3(metal3, name, pools, p)
        decreases left
      {
        var n :| n in left;
        if hasUid && metal3[n].body.owner == name {
          pools := pools[metal3[n].body.pool.name := Metal3Pool(metal3[n].body.pool.name)];
        }
        left := left - {n};
      }
    }

    /** Releases every pool the owned claims name. */
    method ReleaseAddressesFromPool() returns (ok: bool, ghost pools: map<string, PoolRef>)
      modifies this`metal3, this`generic, this`calls
      ensures ok && hasUid ==> PoolsOf(old(Stored()), name, pools)
      ensures ok && !hasUid ==> pools == map[]
      ensures ok ==> Stored() == AfterRelease(old(Stored()), name, pools)
    {
      pools := map[];
      var claimed := GetClaimedPools();
      if claimed.None? {
        return false, pools;
      }
      pools := claimed.value;
      ok := ReleasePools(claimed.value);
    }

    method ReleasePools(pools: map<string, PoolRef>) returns (ok: bool)
      modifies this`metal3, this`generic, this`calls
      ensures ok ==> Stored() == AfterRelease(old(Stored()), name, pools)
    {
      ghost var start := Stored();
      ghost var done3, doneG := {}, {};
      var left := pools.Keys;
      ok := true;
      assert FoundMetal3(start.metal3, name, {}) == {} && ReleaseAll(start.metal3, {}) == start.metal3;
      assert FoundGeneric(start.generic, name, {}) == {} && ReleaseAll(start.generic, {}) == start.generic;
      while left != {}
        invariant left <= pools.Keys && ok
        invariant done3 == Metal3Pools(pools) - left && doneG == GenericPools(pools) - left
        invariant metal3 == ReleaseAll(start.metal3, FoundMetal3(start.metal3, name, done3))
        invariant generic == ReleaseAll(start.generic, FoundGeneric(start.generic, name, doneG))
        decreases left
      {
        var p :| p in left;
        if IsMetal3(pools[p]) {
          ok := ReleaseAddressFromM3Pool(p);
          FoundMetal3Next(start.metal3, name, done3, p);
          done3 := done3 + {p};
        } else {
          ok := ReleaseAddressFromPool(p);
          FoundGenericNext(start.generic, name, doneG, p);
          doneG := doneG + {p};
        }
        if !ok {
          return;
        }
        left := left - {p};
      }
      assert done3 == Metal3Pools(pools) && doneG == GenericPools(pools);
    }

    /** ReleaseLeases does nothing for a Metal3Data without a template. */
    method ReleaseLeases() returns (ok: bool, ghost pools: map<string, PoolRef>)
      modifies this`metal3, this`generic, this`calls
      ensures !hasTemplate ==> ok && Stored() == old(Stored())
      ensures hasTemplate && hasUid && ok ==>
                PoolsOf(old(Stored()), name, pools) && Stored() == AfterRelease(old(Stored()), name, pools)
      ensures hasTemplate && hasUid && ok && Formed(old(Stored()), name) ==>
                && (NothingHeld(Stored(), name) <==> SharedAreReached(old(Stored()), name))
                && forall generic :: Typed(old(Stored()), name, generic) ==> NothingHeld(Stored(), name)
    {
      if !hasTemplate {
        return true, map[];
      }
      ok, pools := ReleaseAddressesFromPool();
      if ok && hasUid && Formed(old(Stored()), name) {
        NothingHeldExactly(old(Stored()), name, pools);
        forall generic | Typed(old(Stored()), name, generic)
          ensures SharedAreReached(old(Stored()), name)
        {
          TypedAreReached(old(Stored()), name, generic);
        }
      }
    }
  }

  lemma TypedAreReached(c: Claims, data: string, generic: set<string>)
    requires Typed(c, data, generic)
    ensures SharedAreReached(c, data)
  {
    forall n | n in c.metal3 && c.metal3[n].body.owner == data
      ensures !ClaimedIn(c.generic, data, c.metal3[n].body.pool.name)
    {
      assert c.metal3[n].body.pool.name !in generic;
    }
  }

  /** Whatever the annotations and the naming mode were at each acquisition: as long as the
      template stays the same, a release leaves nothing behind. */
  lemma OneTemplateLeavesNothing(c: Claims, es: seq<Event>, data: string, t: Template, pools: map<string, PoolRef>)
    requires NoClaims(c, data) && OneType(es, data, GenericNames(t)) && PoolsOf(Run(c, es), data, pools)
    ensures Formed(Run(c, es), data) && Typed(Run(c, es), data, GenericNames(t))
    ensures NothingHeld(AfterRelease(Run(c, es), data, pools), data)
  {
    RunKeepsFormed(c, es, data);
    RunKeepsTyped(c, es, data, GenericNames(t));
    ReleaseLeavesNothing(c, es, data, GenericNames(t), pools);
  }

  /** With claims named after the host, the reconcile that creates the claim for a pool
      gets no address for it and reports no error. */
  method PassesOverNewClaim(data: string, host: string, pool: string, address: string) returns (r: Result<Addresses, AcquireError>)
    requires data != "" && pool != "" && host != data
    ensures r == Ok(map[])
    ensures !Allocated(NO_OBJECTS, OnePool(Metal3Pool(pool)), map[])
  {
    var m := new Manager(data, true, true, map[], Claims(map[], map[]), _ => false);
    var t := OnePool(Metal3Pool(pool));
    OnePoolMentions(NO_OBJECTS, Metal3Pool(pool));
    ghost var refs: Refs := map[pool := Metal3Pool(pool)];
    assert Fresh(map[], data, Host(host), pool) && pool in refs && IsMetal3(refs[pool]);
    ghost var events;
    r, events := m.GetAddressesFromPool(NO_OBJECTS, t, Host(host), true, _ => Assigned(address, 24, None, []), _ => Waiting);
    assert !NoneFresh(map[], data, Host(host), refs);
    assert !Allocated(NO_OBJECTS, t, r.value);
    assert r.value.Keys != {pool};
    assert r.value == map[];
  }

  lemma CollectDefaulted(ms: seq<Mention>)
    requires Collect(map[], ms).Ok?
    ensures var refs := Collect(map[], ms).value;
            forall p :: p in refs ==> refs[p].name == p && refs[p] == Defaulted(refs[p])
  {
    CollectExactly(ms);
    CollectMeans(map[], ms);
    var refs := Collect(map[], ms).value;
    forall p | p in refs
      ensures refs[p] == Defaulted(refs[p])
    {
      var i :| 0 <= i < |ms| && ms[i].Ok? && ms[i].value.name == p;
      assert refs[ms[i].value.name] == Defaulted(ms[i].value);
    }
  }
}
