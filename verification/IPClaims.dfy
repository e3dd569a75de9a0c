/** The IP claims of Metal3Data objects: created in either of two naming modes when
    addresses are acquired, found again and deleted when they are released. */
module IPClaims {
  import opened Wrappers
  import opened ApiServer
  import opened IPPools

  const DATA_FINALIZER := "metal3data.infrastructure.cluster.x-k8s.io"
  const DATA_LABEL := "infrastructure.cluster.x-k8s.io/data-name"
  const POOL_LABEL := "infrastructure.cluster.x-k8s.io/pool-name"

  /** `owner` is the name of the Metal3Data that created the claim, as its owner
      reference records it. */
  datatype Claim = Claim(owner: string, labels: map<string, string>, pool: PoolRef)

  type Store = map<string, Object<Claim>>

  /** IPClaims of Metal3 pools, and IPAddressClaims of all others. */
  datatype Claims = Claims(metal3: Store, generic: Store)

  function ClaimName(base: string, pool: string): string {
    base + "-" + pool
  }

  /** With one pool, different bases give different names. */
  lemma SameClaimName(a: string, b: string, pool: string)
    ensures ClaimName(a, pool) == ClaimName(b, pool) <==> a == b
  {
    assert ClaimName(a, pool)[..|a|] == a && ClaimName(b, pool)[..|b|] == b;
    assert |ClaimName(a, pool)| == |a| + 1 + |pool| && |ClaimName(b, pool)| == |b| + 1 + |pool|;
  }

  predicate Labelled(c: Claim, data: string, pool: string) {
    DATA_LABEL in c.labels && c.labels[DATA_LABEL] == data && POOL_LABEL in c.labels && c.labels[POOL_LABEL] == pool
  }

  /** The two labels of a claim named after a host. */
  predicate LabelsSay(labels: map<string, string>, data: string, pool: string) {
    && "infrastructure.cluster.x-k8s.io/data-name" in labels && labels["infrastructure.cluster.x-k8s.io/data-name"] == data
    && "infrastructure.cluster.x-k8s.io/pool-name" in labels && labels["infrastructure.cluster.x-k8s.io/pool-name"] == pool
  }

  // ----- releasing many claims -----

  /** The store after each claim named in `names` was freed of the finalizer and
      deleted. */
  function ReleaseAll(s: Store, names: set<string>): Store {
    map n | n in s && !(n in names && s[n].finalizers <= {DATA_FINALIZER}) ::
      if n in names then Object(s[n].body, s[n].finalizers - {DATA_FINALIZER}, true) else s[n]
  }

  lemma ReleaseOne(s: Store, n: string)
    ensures Release(s, n, DATA_FINALIZER) == ReleaseAll(s, {n})
    ensures n in s && DATA_FINALIZER !in s[n].finalizers ==> Delete(s, n) == ReleaseAll(s, {n})
  {
    var b := ReleaseAll(s, {n});
    assert Release(s, n, DATA_FINALIZER) == b;
    if n in s && DATA_FINALIZER !in s[n].finalizers {
      assert s[n].finalizers - {DATA_FINALIZER} == s[n].finalizers;
      assert Delete(s, n) == b;
    }
  }

  lemma ReleaseTwice(s: Store, a: set<string>, b: set<string>)
    ensures ReleaseAll(ReleaseAll(s, a), b) == ReleaseAll(s, a + b)
  {
    var x, y := ReleaseAll(ReleaseAll(s, a), b), ReleaseAll(s, a + b);
    assert forall n :: n in x <==> n in y;
    assert forall n :: n in x ==> x[n] == y[n];
  }

  // ----- what a release finds -----

  /** The pools of the claims the Metal3Data owns. A pool claimed both ways counts as
      the generic one. */
  ghost predicate PoolsOf(c: Claims, data: string, pools: map<string, PoolRef>) {
    && (forall n :: n in c.metal3 && c.metal3[n].body.owner == data ==> c.metal3[n].body.pool.name in pools)
    && (forall n :: n in c.generic && c.generic[n].body.owner == data ==>
          c.generic[n].body.pool.name in pools && FromGeneric(c.generic, data, pools, c.generic[n].body.pool.name))
    && forall p :: p in pools ==> FromMetal3(c.metal3, data, pools, p) || FromGeneric(c.generic, data, pools, p)
  }

  ghost predicate FromMetal3(s: Store, data: string, pools: map<string, PoolRef>, p: string)
    requires p in pools
  {
    pools[p] == Metal3Pool(p) && exists n :: n in s && s[n].body.owner == data && s[n].body.pool.name == p
  }

  ghost predicate FromGeneric(s: Store, data: string, pools: map<string, PoolRef>, p: string)
    requires p in pools
  {
    exists n :: n in s && s[n].body.owner == data && s[n].body.pool.name == p && pools[p] == Defaulted(s[n].body.pool)
  }

  predicate Reaches(n: string, c: Claim, data: string, pool: string) {
    Labelled(c, data, pool) || n == ClaimName(data, pool)
  }

  /** The Metal3 claims reached through these pools: by labels or by name. */
  function FoundMetal3(s: Store, data: string, ps: set<string>): set<string> {
    set n | n in s && exists p :: p in ps && Reaches(n, s[n].body, data, p)
  }

  function WithLabels(s: Store, data: string, pool: string): set<string> {
    set n | n in s && Labelled(s[n].body, data, pool)
  }

  lemma FoundParts(s: Store, data: string, pool: string)
    ensures var n := ClaimName(data, pool);
            var labelled := WithLabels(s, data, pool);
            && ReleaseAll(s, labelled + {n}) == ReleaseAll(s, FoundMetal3(s, data, {pool}))
            && (n !in ReleaseAll(s, labelled) ==> ReleaseAll(s, labelled) == ReleaseAll(s, labelled + {n}))
  {
    var n := ClaimName(data, pool);
    var labelled := WithLabels(s, data, pool);
    assert forall m :: m in s ==> (m in FoundMetal3(s, data, {pool}) <==> m in labelled + {n});
  }

  /** Other claims are reached by name only. */
  function FoundGeneric(s: Store, data: string, ps: set<string>): set<string> {
    set n | n in s && exists p :: p in ps && n == ClaimName(data, p)
  }

  function Metal3Pools(pools: map<string, PoolRef>): set<string> {
    set p | p in pools && IsMetal3(pools[p])
  }

  function GenericPools(pools: map<string, PoolRef>): set<string> {
    set p | p in pools && !IsMetal3(pools[p])
  }

  function AfterRelease(c: Claims, data: string, pools: map<string, PoolRef>): Claims {
    Claims(ReleaseAll(c.metal3, FoundMetal3(c.metal3, data, Metal3Pools(pools))),
           ReleaseAll(c.generic, FoundGeneric(c.generic, data, GenericPools(pools))))
  }

  /** Releasing pool after pool is releasing all of them at once. */
  lemma FoundMetal3Next(s: Store, data: string, done: set<string>, p: string)
    ensures var s' := ReleaseAll(s, FoundMetal3(s, data, done));
            ReleaseAll(s', FoundMetal3(s', data, {p})) == ReleaseAll(s, FoundMetal3(s, data, done + {p}))
  {
    var a := FoundMetal3(s, data, done);
    var b := FoundMetal3(ReleaseAll(s, a), data, {p});
    ReleaseTwice(s, a, b);
    var both := FoundMetal3(s, data, done + {p});
    assert ReleaseAll(s, a + b) == ReleaseAll(s, both);
  }

  lemma FoundGenericNext(s: Store, data: string, done: set<string>, p: string)
    ensures var s' := ReleaseAll(s, FoundGeneric(s, data, done));
            ReleaseAll(s', FoundGeneric(s', data, {p})) == ReleaseAll(s, FoundGeneric(s, data, done + {p}))
  {
    var a := FoundGeneric(s, data, done);
    var b := FoundGeneric(ReleaseAll(s, a), data, {p});
    ReleaseTwice(s, a, b);
    var both := FoundGeneric(s, data, done + {p});
    assert ReleaseAll(s, a + b) == ReleaseAll(s, both);
  }

  // ----- histories -----

  /** One call that reaches the API server. Acquisitions come from any Metal3Data and
      create the claim unless one of that name exists; anybody may delete claims and
      put or take finalizers, but only this controller puts its own. */
  datatype Event =
    | AcquireMetal3(data: string, labels: map<string, string>, host: Option<string>, pool: string)
    | AcquireGeneric(data: string, labels: map<string, string>, ref: PoolRef)
    | TakeFinalizer(metal3: bool, n: string, finalizer: string)
    | PutFinalizer(metal3: bool, n: string, finalizer: string)
    | DeleteClaim(metal3: bool, n: string)

  /** With a host, the claim is named after it and carries the two labels. */
  function Metal3Claim(data: string, labels: map<string, string>, host: Option<string>, pool: string): Object<Claim> {
    var labels' := if host.None? then labels else labels[DATA_LABEL := data][POOL_LABEL := pool];
    Object(Claim(data, labels', Metal3Pool(pool)), {DATA_FINALIZER}, false)
  }

  function Metal3Name(data: string, host: Option<string>, pool: string): string {
    ClaimName(if host.None? then data else host.value, pool)
  }

  function GenericClaim(data: string, labels: map<string, string>, pool: PoolRef): Object<Claim> {
    Object(Claim(data, labels, Defaulted(pool)), {DATA_FINALIZER}, false)
  }

  function TouchStore(s: Store, e: Event): Store {
    match e
    case TakeFinalizer(_, n, f) => DropFinalizer(s, n, f)
    case PutFinalizer(_, n, f) =>
      if n in s && f != DATA_FINALIZER then s[n := s[n].(finalizers := s[n].finalizers + {f})] else s
    case DeleteClaim(_, n) => Delete(s, n)
    case _ => s
  }

  function Apply(c: Claims, e: Event): Claims {
    match e
    case AcquireMetal3(d, labels, host, pool) =>
      c.(metal3 := Create(c.metal3, Metal3Name(d, host, pool), Metal3Claim(d, labels, host, pool)))
    case AcquireGeneric(d, labels, pool) =>
      if IsMetal3(Defaulted(pool)) then c
      else c.(generic := Create(c.generic, ClaimName(d, pool.name), GenericClaim(d, labels, pool)))
    case _ =>
      if e.metal3 then c.(metal3 := TouchStore(c.metal3, e)) else c.(generic := TouchStore(c.generic, e))
  }

  function Run(c: Claims, es: seq<Event>): Claims {
    if es == [] then c else Apply(Run(c, es[..|es| - 1]), es[|es| - 1])
  }

  ghost predicate NoClaims(c: Claims, data: string) {
    && (forall n :: n in c.metal3 ==> c.metal3[n].body.owner != data)
    && (forall n :: n in c.generic ==> c.generic[n].body.owner != data)
  }

  /** For this Metal3Data the pools named in `generic` are generic and all others are
      Metal3 pools. */
  predicate TypedEvent(e: Event, data: string, generic: set<string>) {
    match e
    case AcquireMetal3(d, _, _, pool) => d == data ==> pool !in generic
    case AcquireGeneric(d, _, ref) => d == data ==> ref.name in generic
    case _ => true
  }

  predicate OneType(es: seq<Event>, data: string, generic: set<string>) {
    forall i :: 0 <= i < |es| ==> TypedEvent(es[i], data, generic)
  }

  /** A Metal3 claim can be found by its name or by its labels. */
  predicate Metal3Formed(n: string, c: Claim) {
    && (n == ClaimName(c.owner, c.pool.name) || Labelled(c, c.owner, c.pool.name))
    && c.pool == Metal3Pool(c.pool.name)
  }

  predicate GenericFormed(n: string, c: Claim) {
    n == ClaimName(c.owner, c.pool.name) && !IsMetal3(c.pool) && c.pool == Defaulted(c.pool)
  }

  ghost predicate Formed(c: Claims, data: string) {
    && (forall n :: n in c.metal3 && c.metal3[n].body.owner == data ==> Metal3Formed(n, c.metal3[n].body))
    && (forall n :: n in c.generic && c.generic[n].body.owner == data ==> GenericFormed(n, c.generic[n].body))
  }

  ghost predicate Typed(c: Claims, data: string, generic: set<string>) {
    && (forall n :: n in c.metal3 && c.metal3[n].body.owner == data ==> c.metal3[n].body.pool.name !in generic)
    && (forall n :: n in c.generic && c.generic[n].body.owner == data ==> c.generic[n].body.pool.name in generic)
  }

  lemma ApplyKeepsFormed(c: Claims, e: Event, data: string)
    requires Formed(c, data)
    ensures Formed(Apply(c, e), data)
  {
  }

  lemma {:induction false} RunKeepsFormed(c: Claims, es: seq<Event>, data: string)
    requires NoClaims(c, data)
    ensures Formed(Run(c, es), data)
  {
    if es != [] {
      RunKeepsFormed(c, es[..|es| - 1], data);
      ApplyKeepsFormed(Run(c, es[..|es| - 1]), es[|es| - 1], data);
    }
  }

  lemma ApplyKeepsTyped(c: Claims, e: Event, data: string, generic: set<string>)
    requires Typed(c, data, generic) && TypedEvent(e, data, generic)
    ensures Typed(Apply(c, e), data, generic)
  {
  }

  lemma {:induction false} RunKeepsTyped(c: Claims, es: seq<Event>, data: string, generic: set<string>)
    requires Typed(c, data, generic) && OneType(es, data, generic)
    ensures Typed(Run(c, es), data, generic)
  {
    if es != [] {
      var n := |es| - 1;
      assert forall i :: 0 <= i < n ==> es[..n][i] == es[i];
      RunKeepsTyped(c, es[..n], data, generic);
      ApplyKeepsTyped(Run(c, es[..n]), es[n], data, generic);
    }
  }

  /** No claim of the Metal3Data is left undeleted or held by its finalizer. */
  ghost predicate NothingHeld(c: Claims, data: string) {
    && (forall n :: n in c.metal3 && c.metal3[n].body.owner == data ==> Released(c.metal3, n, DATA_FINALIZER))
    && (forall n :: n in c.generic && c.generic[n].body.owner == data ==> Released(c.generic, n, DATA_FINALIZER))
  }

  ghost predicate ClaimedIn(s: Store, data: string, pool: string) {
    exists n :: n in s && s[n].body.owner == data && s[n].body.pool.name == pool
  }

  /** Which pools a release treats as Metal3 pools, and which as generic ones. */
  lemma PoolsExactly(c: Claims, data: string, pools: map<string, PoolRef>, p: string)
    requires Formed(c, data) && PoolsOf(c, data, pools)
    ensures p in GenericPools(pools) <==> ClaimedIn(c.generic, data, p)
    ensures p in Metal3Pools(pools) <==> ClaimedIn(c.metal3, data, p) && !ClaimedIn(c.generic, data, p)
  {
    if p in pools {
      assert FromMetal3(c.metal3, data, pools, p) || FromGeneric(c.generic, data, pools, p);
    }
  }

  lemma GenericFound(c: Claims, data: string, pools: map<string, PoolRef>, n: string)
    requires Formed(c, data) && PoolsOf(c, data, pools) && n in c.generic && c.generic[n].body.owner == data
    ensures n in FoundGeneric(c.generic, data, GenericPools(pools))
  {
    var p := c.generic[n].body.pool.name;
    PoolsExactly(c, data, pools, p);
    assert n == ClaimName(data, p);
  }

  /** The release reaches the claim through a pool claimed only as a Metal3 pool. */
  ghost predicate Reached(c: Claims, data: string, n: string)
    requires n in c.metal3
  {
    exists q :: ClaimedIn(c.metal3, data, q) && !ClaimedIn(c.generic, data, q) && Reaches(n, c.metal3[n].body, data, q)
  }

  lemma Metal3FoundExactly(c: Claims, data: string, pools: map<string, PoolRef>, n: string)
    requires Formed(c, data) && PoolsOf(c, data, pools) && n in c.metal3
    ensures n in FoundMetal3(c.metal3, data, Metal3Pools(pools)) <==> Reached(c, data, n)
  {
    if n in FoundMetal3(c.metal3, data, Metal3Pools(pools)) {
      var q :| q in Metal3Pools(pools) && Reaches(n, c.metal3[n].body, data, q);
      PoolsExactly(c, data, pools, q);
    }
    if Reached(c, data, n) {
      var q :| ClaimedIn(c.metal3, data, q) && !ClaimedIn(c.generic, data, q) && Reaches(n, c.metal3[n].body, data, q);
      PoolsExactly(c, data, pools, q);
    }
  }

  /** An owned claim whose pool name no generic claim shares is reached. */
  lemma UnsharedIsReached(c: Claims, data: string, n: string)
    requires Formed(c, data) && n in c.metal3 && c.metal3[n].body.owner == data
    requires !ClaimedIn(c.generic, data, c.metal3[n].body.pool.name)
    ensures Reached(c, data, n)
  {
    var p := c.metal3[n].body.pool.name;
    assert ClaimedIn(c.metal3, data, p) && Reaches(n, c.metal3[n].body, data, p);
  }

  /** Every owned Metal3 claim whose pool name a generic claim shares is out of the way
      already, or is reached through another pool. */
  ghost predicate SharedAreReached(c: Claims, data: string) {
    forall n :: n in c.metal3 && c.metal3[n].body.owner == data && ClaimedIn(c.generic, data, c.metal3[n].body.pool.name) ==>
      Released(c.metal3, n, DATA_FINALIZER) || Reached(c, data, n)
  }

  lemma NothingHeldExactly(c: Claims, data: string, pools: map<string, PoolRef>)
    requires Formed(c, data) && PoolsOf(c, data, pools)
    ensures NothingHeld(AfterRelease(c, data, pools), data) <==> SharedAreReached(c, data)
  {
    var after := AfterRelease(c, data, pools);
    forall n | n in c.generic && c.generic[n].body.owner == data
      ensures Released(after.generic, n, DATA_FINALIZER)
    {
      GenericFound(c, data, pools, n);
    }
    forall n | n in c.metal3 && c.metal3[n].body.owner == data
      ensures (Released(after.metal3, n, DATA_FINALIZER) <==> Released(c.metal3, n, DATA_FINALIZER) || Reached(c, data, n))
      ensures !ClaimedIn(c.generic, data, c.metal3[n].body.pool.name) ==> Reached(c, data, n)
    {
      Metal3FoundExactly(c, data, pools, n);
      if !ClaimedIn(c.generic, data, c.metal3[n].body.pool.name) {
        UnsharedIsReached(c, data, n);
      }
    }
  }

  /** After every history, in whichever naming mode each acquisition ran, a release leaves
      nothing of the Metal3Data behind if and only if no pool name claimed both ways
      hides a Metal3 claim from it. */
  lemma ReleaseLeavesNothingExactly(c: Claims, es: seq<Event>, data: string, pools: map<string, PoolRef>)
    requires NoClaims(c, data) && PoolsOf(Run(c, es), data, pools)
    ensures NothingHeld(AfterRelease(Run(c, es), data, pools), data) <==> SharedAreReached(Run(c, es), data)
  {
    RunKeepsFormed(c, es, data);
    NothingHeldExactly(Run(c, es), data, pools);
  }

  /** In particular nothing is left when every pool name stands for one type. */
  lemma ReleaseLeavesNothing(c: Claims, es: seq<Event>, data: string, generic: set<string>, pools: map<string, PoolRef>)
    requires NoClaims(c, data) && OneType(es, data, generic) && PoolsOf(Run(c, es), data, pools)
    ensures NothingHeld(AfterRelease(Run(c, es), data, pools), data)
  {
    RunKeepsTyped(c, es, data, generic);
    ReleaseLeavesNothingExactly(c, es, data, pools);
  }

  /** It does happen: when a Metal3 pool and another pool of one name were both claimed,
      the Metal3 claim stays as it was. */
  lemma SharedNameIsLeftBehind(data: string, pool: string, labels: map<string, string>, group: string, kind: string, pools: map<string, PoolRef>)
    requires group != "" && kind != "" && (group != POOL_GROUP || kind != POOL_KIND)
    requires PoolsOf(Run(Claims(map[], map[]), BothTypes(data, pool, labels, group, kind)), data, pools)
    ensures var c := Run(Claims(map[], map[]), BothTypes(data, pool, labels, group, kind));
            && ClaimName(data, pool) in c.metal3
            && AfterRelease(c, data, pools).metal3 == c.metal3
            && !NothingHeld(AfterRelease(c, data, pools), data)
  {
    var es := BothTypes(data, pool, labels, group, kind);
    var c0 := Claims(map[], map[]);
    var n := ClaimName(data, pool);
    RunTwo(c0, es);
    var c := Run(c0, es);
    assert c.metal3 == map[n := Metal3Claim(data, labels, None, pool)];
    assert c.generic == map[n := GenericClaim(data, labels, PoolRef(pool, group, kind))];
    RunKeepsFormed(c0, es, data);
    assert c.generic[n].body.owner == data;
    assert ClaimedIn(c.generic, data, pool);
    forall q | ClaimedIn(c.metal3, data, q)
      ensures q == pool
    {
    }
    assert FoundMetal3(c.metal3, data, Metal3Pools(pools)) == {} by {
      Metal3FoundExactly(c, data, pools, n);
    }
    assert ReleaseAll(c.metal3, {}) == c.metal3;
    assert c.metal3[n].body.owner == data && !Released(c.metal3, n, DATA_FINALIZER);
  }

  function BothTypes(data: string, pool: string, labels: map<string, string>, group: string, kind: string): seq<Event> {
    [AcquireMetal3(data, labels, None, pool), AcquireGeneric(data, labels, PoolRef(pool, group, kind))]
  }

  lemma RunTwo(c: Claims, es: seq<Event>)
    requires |es| == 2
    ensures Run(c, es) == Apply(Apply(c, es[0]), es[1])
  {
    assert es[..1] == [es[0]] && [es[0]][..0] == [];
    assert Run(c, [es[0]]) == Apply(Run(c, []), es[0]);
  }

  lemma {:induction false} RunConcat(c: Claims, es: seq<Event>, fs: seq<Event>)
    ensures Run(c, es + fs) == Run(Run(c, es), fs)
    decreases |fs|
  {
    if fs == [] {
      assert es + fs == es;
    } else {
      var n := |fs| - 1;
      assert (es + fs)[..|es + fs| - 1] == es + fs[..n];
      RunConcat(c, es, fs[..n]);
    }
  }

  lemma OneTypeAppend(es: seq<Event>, fs: seq<Event>, data: string, generic: set<string>)
    requires OneType(es, data, generic) && OneType(fs, data, generic)
    ensures OneType(es + fs, data, generic)
  {
  }

  // ----- the claims of others -----

  /** A claim of another Metal3Data is reached by a release of `data` exactly when
      `data` claims some pool only as a Metal3 pool and the claim's labels, copied
      from its owner, name both, or its own name is `data` joined to that pool. Then
      `data` claims that pool under another name. */
  ghost predicate Collides(c: Claims, data: string, n: string, p: string)
    requires n in c.metal3
  {
    && ClaimedIn(c.metal3, data, p) && !ClaimedIn(c.generic, data, p)
    && (LabelsSay(c.metal3[n].body.labels, data, p) || n == data + "-" + p)
  }

  lemma ForeignReachedExactly(c: Claims, es: seq<Event>, data: string, pools: map<string, PoolRef>, n: string)
    requires NoClaims(c, data) && PoolsOf(Run(c, es), data, pools)
    requires n in Run(c, es).metal3 && Run(c, es).metal3[n].body.owner != data && NoClaims(c, Run(c, es).metal3[n].body.owner)
    ensures var r := Run(c, es);
            var after := AfterRelease(r, data, pools).metal3;
            && ((exists p :: Collides(r, data, n, p)) ==> Released(after, n, DATA_FINALIZER))
            && (!(exists p :: Collides(r, data, n, p)) ==> n in after && after[n] == r.metal3[n])
    ensures forall p :: Collides(Run(c, es), data, n, p) ==> HowItCollides(Run(c, es), data, n, p)
  {
    var r := Run(c, es);
    var other := r.metal3[n].body.owner;
    RunKeepsFormed(c, es, data);
    RunKeepsFormed(c, es, other);
    Metal3FoundExactly(r, data, pools, n);
    assert Reached(r, data, n) <==> exists p :: Collides(r, data, n, p) by {
      if Reached(r, data, n) {
        var q :| ClaimedIn(r.metal3, data, q) && !ClaimedIn(r.generic, data, q) && Reaches(n, r.metal3[n].body, data, q);
        assert Collides(r, data, n, q);
      }
      if p :| Collides(r, data, n, p) {
        assert Reaches(n, r.metal3[n].body, data, p);
      }
    }
    forall p | Collides(r, data, n, p)
      ensures HowItCollides(r, data, n, p)
    {
      CollisionShape(r, data, n, p);
    }
  }

  /** A label match needs a claim named after its owner. A name match is a collision of
      joined names, and the Metal3Data has a labelled claim of its own, named after a
      host, for that pool. */
  ghost predicate HowItCollides(c: Claims, data: string, n: string, p: string)
    requires n in c.metal3
  {
    var other, q := c.metal3[n].body.owner, c.metal3[n].body.pool.name;
    && (Labelled(c.metal3[n].body, data, p) ==> n == ClaimName(other, q))
    && (n == ClaimName(data, p) ==>
          && (ClaimName(other, q) == ClaimName(data, p) || Labelled(c.metal3[n].body, other, q))
          && exists m :: m in c.metal3 && m != n && c.metal3[m].body.owner == data && Labelled(c.metal3[m].body, data, p))
  }

  lemma CollisionShape(c: Claims, data: string, n: string, p: string)
    requires n in c.metal3 && c.metal3[n].body.owner != data && Formed(c, data) && Formed(c, c.metal3[n].body.owner)
    requires Collides(c, data, n, p)
    ensures HowItCollides(c, data, n, p)
  {
    var m :| m in c.metal3 && c.metal3[m].body.owner == data && c.metal3[m].body.pool.name == p;
    assert Metal3Formed(m, c.metal3[m].body) && Metal3Formed(n, c.metal3[n].body);
  }

  /** A release never reaches a generic claim of another Metal3Data: it goes by name, and
      a pool counts as generic only if the Metal3Data has the claim of that name. */
  lemma ForeignGenericUntouched(c: Claims, es: seq<Event>, data: string, pools: map<string, PoolRef>, n: string)
    requires NoClaims(c, data) && PoolsOf(Run(c, es), data, pools)
    requires n in Run(c, es).generic && Run(c, es).generic[n].body.owner != data
    ensures var after := AfterRelease(Run(c, es), data, pools).generic;
            n in after && after[n] == Run(c, es).generic[n]
  {
    var r := Run(c, es);
    RunKeepsFormed(c, es, data);
    forall p | p in GenericPools(pools)
      ensures n != ClaimName(data, p)
    {
      GenericNameIsOwn(r, data, pools, p);
    }
  }

  lemma GenericNameIsOwn(c: Claims, data: string, pools: map<string, PoolRef>, p: string)
    requires Formed(c, data) && PoolsOf(c, data, pools) && p in GenericPools(pools)
    ensures ClaimName(data, p) in c.generic && c.generic[ClaimName(data, p)].body.owner == data
  {
    PoolsExactly(c, data, pools, p);
    var m :| m in c.generic && c.generic[m].body.owner == data && c.generic[m].body.pool.name == p;
    assert GenericFormed(m, c.generic[m].body);
  }

  /** It does happen: for pool `index-pool`, claimed under the host's name, the release of
      `data` also deletes the claim that `data-index` has on `pool`. */
  lemma ReleaseTakesForeignClaim(data: string, index: string, pool: string, host: string, labels: map<string, string>, pools: map<string, PoolRef>)
    requires host != data
    requires PoolsOf(Run(Claims(map[], map[]), Joined(data, index, pool, host, labels)), data, pools)
    ensures var c := Run(Claims(map[], map[]), Joined(data, index, pool, host, labels));
            var n := ClaimName(ClaimName(data, index), pool);
            && n in c.metal3 && c.metal3[n].body.owner == ClaimName(data, index) != data
            && n !in AfterRelease(c, data, pools).metal3
  {
    var c := Run(Claims(map[], map[]), Joined(data, index, pool, host, labels));
    var p := ClaimName(index, pool);
    var m, n := ClaimName(host, p), ClaimName(ClaimName(data, index), pool);
    JoinedState(data, index, pool, host, labels);
    RunKeepsFormed(Claims(map[], map[]), Joined(data, index, pool, host, labels), data);
    assert c.metal3[m].body.owner == data && c.metal3[m].body.pool.name == p;
    assert ClaimedIn(c.metal3, data, p) && Reaches(n, c.metal3[n].body, data, p);
    Metal3FoundExactly(c, data, pools, n);
  }

  lemma JoinedState(data: string, index: string, pool: string, host: string, labels: map<string, string>)
    requires host != data
    ensures var p, other := ClaimName(index, pool), ClaimName(data, index);
            && |other| > |data| && ClaimName(other, pool) == ClaimName(data, p) != ClaimName(host, p)
            && Run(Claims(map[], map[]), Joined(data, index, pool, host, labels)) ==
               Claims(map[ClaimName(host, p) := Metal3Claim(data, labels, Some(host), p),
                          ClaimName(other, pool) := Metal3Claim(other, labels, None, pool)], map[])
  {
    var p := ClaimName(index, pool);
    RunTwo(Claims(map[], map[]), Joined(data, index, pool, host, labels));
    assert ClaimName(ClaimName(data, index), pool) == ClaimName(data, p);
    SameClaimName(host, data, p);
  }

  function Joined(data: string, index: string, pool: string, host: string, labels: map<string, string>): seq<Event> {
    [AcquireMetal3(data, labels, Some(host), ClaimName(index, pool)), AcquireMetal3(ClaimName(data, index), labels, None, pool)]
  }
}
