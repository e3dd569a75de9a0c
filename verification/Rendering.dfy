/** Rendering a Metal3DataTemplate with the addresses obtained from its pools: the
    second traversal of the template, which must find every pool it looks up. */
module Rendering {
  import opened Wrappers
  import opened IPPools
  import opened PoolReferences
  import Names

  datatype Address = Address(address: string, prefix: Option<int>, gateway: string, dns: seq<string>)

  type Addresses = map<string, Address>

  /** `NilPrefix` stands for the crash on a missing prefix; `Other` for errors that have
      nothing to do with pools. */
  datatype RenderError = PoolNotFound | NilPrefix | BadAnnotation(error: PoolReferences.Error) | Other(text: string)

  // ----- networks -----

  datatype RouteOut = RouteOut(network: string, prefix: int, gateway: string, services: seq<string>)

  datatype NetworkOut =
    | StaticOut(kind: string, id: string, link: string, prefix: Option<int>, address: string, routes: seq<RouteOut>)
    | DynamicOut(kind: string, id: string, link: string, routes: seq<RouteOut>)

  function PoolGateway(addresses: Addresses, pool: string): Result<string, RenderError> {
    if pool in addresses then Ok(addresses[pool].gateway) else Err(PoolNotFound)
  }

  function RenderGateway(objects: Objects, addresses: Addresses, g: Gateway): Result<string, RenderError> {
    if g.text.Some? then Ok(g.text.value)
    else if g.annotation != NO_ANNOTATION then
      var v := Value(objects, g.annotation);
      if v.Err? then Err(BadAnnotation(v.error)) else PoolGateway(addresses, v.value)
    else if g.ref.name != "" then PoolGateway(addresses, g.ref.name)
    else if g.pool != "" then PoolGateway(addresses, g.pool)
    else Ok("")
  }

  function RenderServices(addresses: Addresses, s: Services): Result<seq<string>, RenderError> {
    if s.pool == "" then Ok(s.dns)
    else if s.pool in addresses then Ok(s.dns + addresses[s.pool].dns)
    else Err(PoolNotFound)
  }

  function RenderRoute(objects: Objects, addresses: Addresses, r: Route): Result<RouteOut, RenderError> {
    var gateway := RenderGateway(objects, addresses, r.gateway);
    var services := if r.services.None? then Ok([]) else RenderServices(addresses, r.services.value);
    if gateway.Err? then Err(gateway.error)
    else if services.Err? then Err(services.error)
    else Ok(RouteOut(r.network, if r.prefix.None? then 0 else r.prefix.value, gateway.value, services.value))
  }

  /** `done` followed by what is still to come. */
  function After<T>(done: seq<T>, rest: Result<seq<T>, RenderError>): (r: Result<seq<T>, RenderError>)
    ensures done == [] ==> r == rest
    ensures rest == Ok([]) ==> r == Ok(done)
  {
    if rest.Err? then rest
    else
      assert done == [] ==> done + rest.value == rest.value;
      assert rest.value == [] ==> done + rest.value == done;
      Ok(done + rest.value)
  }

  lemma AfterAppend<T>(done: seq<T>, x: T, rest: Result<seq<T>, RenderError>)
    ensures After(done + [x], rest) == After(done, After([x], rest))
  {
    if rest.Ok? {
      assert done + [x] + rest.value == done + ([x] + rest.value);
    }
  }

  function RenderRoutes(objects: Objects, addresses: Addresses, rs: seq<Route>): Result<seq<RouteOut>, RenderError> {
    if rs == [] then Ok([])
    else
      var r := RenderRoute(objects, addresses, rs[0]);
      if r.Err? then Err(r.error) else After([r.value], RenderRoutes(objects, addresses, rs[1..]))
  }

  /** The pool a network with an address of its own takes it from. */
  function StaticPool(objects: Objects, n: Static): Result<string, RenderError> {
    if n.annotation != NO_ANNOTATION then
      var v := Value(objects, n.annotation);
      if v.Err? then Err(BadAnnotation(v.error)) else Ok(v.value)
    else Ok(if n.ref.name != "" then n.ref.name else n.pool)
  }

  function RenderStatic(objects: Objects, addresses: Addresses, kind: string, n: Static): Result<NetworkOut, RenderError> {
    var pool := StaticPool(objects, n);
    if pool.Err? then Err(pool.error)
    else if pool.value !in addresses then Err(PoolNotFound)
    else
      var routes := RenderRoutes(objects, addresses, n.routes);
      if routes.Err? then Err(routes.error)
      else
        var a := addresses[pool.value];
        Ok(StaticOut(kind, n.id, n.link, a.prefix, a.address, routes.value))
  }

  function RenderStatics(objects: Objects, addresses: Addresses, kind: string, ns: seq<Static>): Result<seq<NetworkOut>, RenderError> {
    if ns == [] then Ok([])
    else
      var n := RenderStatic(objects, addresses, kind, ns[0]);
      if n.Err? then Err(n.error) else After([n.value], RenderStatics(objects, addresses, kind, ns[1..]))
  }

  function RenderDynamic(objects: Objects, addresses: Addresses, kind: string, n: Dynamic): Result<NetworkOut, RenderError> {
    var routes := RenderRoutes(objects, addresses, n.routes);
    if routes.Err? then Err(routes.error) else Ok(DynamicOut(kind, n.id, n.link, routes.value))
  }

  function RenderDynamics(objects: Objects, addresses: Addresses, kind: string, ns: seq<Dynamic>): Result<seq<NetworkOut>, RenderError> {
    if ns == [] then Ok([])
    else
      var n := RenderDynamic(objects, addresses, kind, ns[0]);
      if n.Err? then Err(n.error) else After([n.value], RenderDynamics(objects, addresses, kind, ns[1..]))
  }

  /** One rendering after the other, up to the first error. */
  function Both<T>(a: Result<seq<T>, RenderError>, b: Result<seq<T>, RenderError>): Result<seq<T>, RenderError> {
    if a.Err? then a else After(a.value, b)
  }

  function RenderNetworks(objects: Objects, addresses: Addresses, n: Networks): Result<seq<NetworkOut>, RenderError> {
    Both(Both(Both(Both(RenderStatics(objects, addresses, "ipv4", n.ipv4), RenderStatics(objects, addresses, "ipv6", n.ipv6)),
                   RenderDynamics(objects, addresses, "ipv4_dhcp", n.ipv4Dhcp)),
              RenderDynamics(objects, addresses, "ipv6_dhcp", n.ipv6Dhcp)),
         RenderDynamics(objects, addresses, "ipv6_slaac", n.ipv6Slaac))
  }

  // ----- what the rendered networks say -----

  /** The pool named here is `p`: by an annotation first, then by a reference, then by
      name. */
  ghost predicate NamesPoolAs(objects: Objects, annotation: Annotation, ref: PoolRef, pool: string, p: string) {
    if annotation != NO_ANNOTATION then Value(objects, annotation) == Ok(p)
    else if ref.name != "" then p == ref.name
    else p == pool
  }

  /** The route's own network and prefix; the gateway written out, or that of the named
      pool; the listed servers, then those of the pool. */
  ghost predicate RouteShown(objects: Objects, addresses: Addresses, r: Route, out: RouteOut) {
    && out.network == r.network
    && (r.prefix.Some? ==> out.prefix == r.prefix.value) && (r.prefix.None? ==> out.prefix == 0)
    && (r.gateway.text.Some? ==> out.gateway == r.gateway.text.value)
    && (r.gateway.text.None? && r.gateway.annotation == NO_ANNOTATION && r.gateway.ref.name == "" && r.gateway.pool == "" ==>
          out.gateway == "")
    && (r.gateway.text.None? && (r.gateway.annotation != NO_ANNOTATION || r.gateway.ref.name != "" || r.gateway.pool != "") ==>
          exists p :: p in addresses && NamesPoolAs(objects, r.gateway.annotation, r.gateway.ref, r.gateway.pool, p)
                      && out.gateway == addresses[p].gateway)
    && (r.services.None? ==> out.services == [])
    && (r.services.Some? ==>
          if r.services.value.pool == "" then out.services == r.services.value.dns
          else r.services.value.pool in addresses && out.services == r.services.value.dns + addresses[r.services.value.pool].dns)
  }

  ghost predicate RoutesShown(objects: Objects, addresses: Addresses, rs: seq<Route>, out: seq<RouteOut>) {
    |out| == |rs| && forall i :: 0 <= i < |rs| ==> RouteShown(objects, addresses, rs[i], out[i])
  }

  ghost predicate StaticShown(objects: Objects, addresses: Addresses, kind: string, n: Static, out: NetworkOut) {
    && out.StaticOut? && out.kind == kind && out.id == n.id && out.link == n.link
    && RoutesShown(objects, addresses, n.routes, out.routes)
    && exists p :: p in addresses && NamesPoolAs(objects, n.annotation, n.ref, n.pool, p)
                   && out.address == addresses[p].address && out.prefix == addresses[p].prefix
  }

  ghost predicate DynamicShown(objects: Objects, addresses: Addresses, kind: string, n: Dynamic, out: NetworkOut) {
    && out.DynamicOut? && out.kind == kind && out.id == n.id && out.link == n.link
    && RoutesShown(objects, addresses, n.routes, out.routes)
  }

  ghost predicate StaticsShown(objects: Objects, addresses: Addresses, kind: string, ns: seq<Static>, out: seq<NetworkOut>) {
    |out| == |ns| && forall i :: 0 <= i < |ns| ==> StaticShown(objects, addresses, kind, ns[i], out[i])
  }

  ghost predicate DynamicsShown(objects: Objects, addresses: Addresses, kind: string, ns: seq<Dynamic>, out: seq<NetworkOut>) {
    |out| == |ns| && forall i :: 0 <= i < |ns| ==> DynamicShown(objects, addresses, kind, ns[i], out[i])
  }

  /** One entry per network: static ones first, then DHCP, then SLAAC. */
  ghost predicate NetworksShown(objects: Objects, addresses: Addresses, n: Networks, out: seq<NetworkOut>) {
    var a := |n.ipv4|;
    var b := a + |n.ipv6|;
    var c := b + |n.ipv4Dhcp|;
    var d := c + |n.ipv6Dhcp|;
    && |out| == d + |n.ipv6Slaac|
    && StaticsShown(objects, addresses, "ipv4", n.ipv4, out[..a])
    && StaticsShown(objects, addresses, "ipv6", n.ipv6, out[a..b])
    && DynamicsShown(objects, addresses, "ipv4_dhcp", n.ipv4Dhcp, out[b..c])
    && DynamicsShown(objects, addresses, "ipv6_dhcp", n.ipv6Dhcp, out[c..d])
    && DynamicsShown(objects, addresses, "ipv6_slaac", n.ipv6Slaac, out[d..])
  }

  lemma RouteIsShown(objects: Objects, addresses: Addresses, r: Route)
    requires RenderRoute(objects, addresses, r).Ok?
    ensures RouteShown(objects, addresses, r, RenderRoute(objects, addresses, r).value)
  {
    var g := r.gateway;
    if g.text.None? && (g.annotation != NO_ANNOTATION || g.ref.name != "" || g.pool != "") {
      var p := if g.annotation != NO_ANNOTATION then Value(objects, g.annotation).value
               else if g.ref.name != "" then g.ref.name else g.pool;
      assert p in addresses && NamesPoolAs(objects, g.annotation, g.ref, g.pool, p);
    }
  }

  lemma {:induction false} RoutesAreShown(objects: Objects, addresses: Addresses, rs: seq<Route>)
    requires RenderRoutes(objects, addresses, rs).Ok?
    ensures RoutesShown(objects, addresses, rs, RenderRoutes(objects, addresses, rs).value)
    decreases |rs|
  {
    if rs != [] {
      RouteIsShown(objects, addresses, rs[0]);
      RoutesAreShown(objects, addresses, rs[1..]);
      var rest := RenderRoutes(objects, addresses, rs[1..]).value;
      assert forall i :: 1 <= i < |rs| ==> rs[i] == rs[1..][i - 1];
      assert RenderRoutes(objects, addresses, rs).value == [RenderRoute(objects, addresses, rs[0]).value] + rest;
    }
  }

  lemma StaticIsShown(objects: Objects, addresses: Addresses, kind: string, n: Static)
    requires RenderStatic(objects, addresses, kind, n).Ok?
    ensures StaticShown(objects, addresses, kind, n, RenderStatic(objects, addresses, kind, n).value)
  {
    RoutesAreShown(objects, addresses, n.routes);
    var p := StaticPool(objects, n).value;
    assert p in addresses && NamesPoolAs(objects, n.annotation, n.ref, n.pool, p);
  }

  lemma {:induction false} StaticsAreShown(objects: Objects, addresses: Addresses, kind: string, ns: seq<Static>)
    requires RenderStatics(objects, addresses, kind, ns).Ok?
    ensures StaticsShown(objects, addresses, kind, ns, RenderStatics(objects, addresses, kind, ns).value)
    decreases |ns|
  {
    if ns != [] {
      StaticIsShown(objects, addresses, kind, ns[0]);
      StaticsAreShown(objects, addresses, kind, ns[1..]);
      assert forall i :: 1 <= i < |ns| ==> ns[i] == ns[1..][i - 1];
      assert RenderStatics(objects, addresses, kind, ns).value ==
             [RenderStatic(objects, addresses, kind, ns[0]).value] + RenderStatics(objects, addresses, kind, ns[1..]).value;
    }
  }

  lemma {:induction false} DynamicsAreShown(objects: Objects, addresses: Addresses, kind: string, ns: seq<Dynamic>)
    requires RenderDynamics(objects, addresses, kind, ns).Ok?
    ensures DynamicsShown(objects, addresses, kind, ns, RenderDynamics(objects, addresses, kind, ns).value)
    decreases |ns|
  {
    if ns != [] {
      RoutesAreShown(objects, addresses, ns[0].routes);
      DynamicsAreShown(objects, addresses, kind, ns[1..]);
      assert forall i :: 1 <= i < |ns| ==> ns[i] == ns[1..][i - 1];
      assert RenderDynamics(objects, addresses, kind, ns).value ==
             [RenderDynamic(objects, addresses, kind, ns[0]).value] + RenderDynamics(objects, addresses, kind, ns[1..]).value;
    }
  }

  lemma FiveParts<T>(a: seq<T>, b: seq<T>, c: seq<T>, d: seq<T>, e: seq<T>)
    ensures var all := a + b + c + d + e;
            && all[..|a|] == a && all[|a|..|a| + |b|] == b && all[|a| + |b|..|a| + |b| + |c|] == c
            && all[|a| + |b| + |c|..|a| + |b| + |c| + |d|] == d && all[|a| + |b| + |c| + |d|..] == e
  {
  }

  lemma FiveShown(objects: Objects, addresses: Addresses, n: Networks, a: seq<NetworkOut>, b: seq<NetworkOut>, c: seq<NetworkOut>,
                  d: seq<NetworkOut>, e: seq<NetworkOut>)
    requires StaticsShown(objects, addresses, "ipv4", n.ipv4, a) && StaticsShown(objects, addresses, "ipv6", n.ipv6, b)
    requires DynamicsShown(objects, addresses, "ipv4_dhcp", n.ipv4Dhcp, c) && DynamicsShown(objects, addresses, "ipv6_dhcp", n.ipv6Dhcp, d)
    requires DynamicsShown(objects, addresses, "ipv6_slaac", n.ipv6Slaac, e)
    ensures NetworksShown(objects, addresses, n, a + b + c + d + e)
  {
    FiveParts(a, b, c, d, e);
    assert |a| == |n.ipv4| && |b| == |n.ipv6| && |c| == |n.ipv4Dhcp| && |d| == |n.ipv6Dhcp| && |e| == |n.ipv6Slaac|;
  }

  lemma NetworksValue(objects: Objects, addresses: Addresses, n: Networks)
    requires RenderNetworks(objects, addresses, n).Ok?
    ensures RenderStatics(objects, addresses, "ipv4", n.ipv4).Ok? && RenderStatics(objects, addresses, "ipv6", n.ipv6).Ok?
    ensures RenderDynamics(objects, addresses, "ipv4_dhcp", n.ipv4Dhcp).Ok? && RenderDynamics(objects, addresses, "ipv6_dhcp", n.ipv6Dhcp).Ok?
    ensures RenderDynamics(objects, addresses, "ipv6_slaac", n.ipv6Slaac).Ok?
    ensures RenderNetworks(objects, addresses, n).value ==
            RenderStatics(objects, addresses, "ipv4", n.ipv4).value + RenderStatics(objects, addresses, "ipv6", n.ipv6).value
            + RenderDynamics(objects, addresses, "ipv4_dhcp", n.ipv4Dhcp).value
            + RenderDynamics(objects, addresses, "ipv6_dhcp", n.ipv6Dhcp).value
            + RenderDynamics(objects, addresses, "ipv6_slaac", n.ipv6Slaac).value
  {
  }

  lemma NetworksAreShown(objects: Objects, addresses: Addresses, n: Networks)
    requires RenderNetworks(objects, addresses, n).Ok?
    ensures NetworksShown(objects, addresses, n, RenderNetworks(objects, addresses, n).value)
  {
    NetworksValue(objects, addresses, n);
    StaticsAreShown(objects, addresses, "ipv4", n.ipv4);
    StaticsAreShown(objects, addresses, "ipv6", n.ipv6);
    DynamicsAreShown(objects, addresses, "ipv4_dhcp", n.ipv4Dhcp);
    DynamicsAreShown(objects, addresses, "ipv6_dhcp", n.ipv6Dhcp);
    DynamicsAreShown(objects, addresses, "ipv6_slaac", n.ipv6Slaac);
    FiveShown(objects, addresses, n,
              RenderStatics(objects, addresses, "ipv4", n.ipv4).value, RenderStatics(objects, addresses, "ipv6", n.ipv6).value,
              RenderDynamics(objects, addresses, "ipv4_dhcp", n.ipv4Dhcp).value,
              RenderDynamics(objects, addresses, "ipv6_dhcp", n.ipv6Dhcp).value,
              RenderDynamics(objects, addresses, "ipv6_slaac", n.ipv6Slaac).value);
  }

  // ----- the loops -----

  method GetServices(addresses: Addresses, s: Services) returns (r: Result<seq<string>, RenderError>)
    ensures r == RenderServices(addresses, s)
    ensures r.Ok? ==> r.value == s.dns + (if s.pool in addresses && s.pool != "" then addresses[s.pool].dns else [])
    ensures r.Err? <==> s.pool != "" && s.pool !in addresses
  {
    var data: seq<string> := [];
    for i := 0 to |s.dns|
      invariant data == s.dns[..i]
    {
      data := data + [s.dns[i]];
    }
    assert s.dns[..|s.dns|] == s.dns;
    if s.pool != "" {
      if s.pool !in addresses {
        return Err(PoolNotFound);
      }
      var servers := addresses[s.pool].dns;
      for i := 0 to |servers|
        invariant data == s.dns + servers[..i]
      {
        data := data + [servers[i]];
      }
      assert servers[..|servers|] == servers;
    }
    r := Ok(data);
  }

  method GetRoutes(objects: Objects, addresses: Addresses, rs: seq<Route>) returns (r: Result<seq<RouteOut>, RenderError>)
    ensures r == RenderRoutes(objects, addresses, rs)
    ensures r.Ok? ==> RoutesShown(objects, addresses, rs, r.value)
  {
    var routes: seq<RouteOut> := [];
    assert rs[0..] == rs;
    for i := 0 to |rs|
      invariant RenderRoutes(objects, addresses, rs) == After(routes, RenderRoutes(objects, addresses, rs[i..]))
    {
      assert rs[i..][1..] == rs[i + 1..];
      var gateway := RenderGateway(objects, addresses, rs[i].gateway);
      if gateway.Err? {
        return Err(gateway.error);
      }
      var services := Ok([]);
      if rs[i].services.Some? {
        services := GetServices(addresses, rs[i].services.value);
        if services.Err? {
          return Err(services.error);
        }
      }
      var prefix := if rs[i].prefix.None? then 0 else rs[i].prefix.value;
      var out := RouteOut(rs[i].network, prefix, gateway.value, services.value);
      AfterAppend(routes, out, RenderRoutes(objects, addresses, rs[i + 1..]));
      routes := routes + [out];
    }
    r := Ok(routes);
    RoutesAreShown(objects, addresses, rs);
  }

  method GetStatics(objects: Objects, addresses: Addresses, kind: string, ns: seq<Static>)
    returns (r: Result<seq<NetworkOut>, RenderError>)
    ensures r == RenderStatics(objects, addresses, kind, ns)
  {
    var data: seq<NetworkOut> := [];
    assert ns[0..] == ns;
    for i := 0 to |ns|
      invariant RenderStatics(objects, addresses, kind, ns) == After(data, RenderStatics(objects, addresses, kind, ns[i..]))
    {
      assert ns[i..][1..] == ns[i + 1..];
      var pool := StaticPool(objects, ns[i]);
      if pool.Err? {
        return Err(pool.error);
      }
      if pool.value !in addresses {
        return Err(PoolNotFound);
      }
      var address := addresses[pool.value];
      var routes := GetRoutes(objects, addresses, ns[i].routes);
      if routes.Err? {
        return Err(routes.error);
      }
      var out := StaticOut(kind, ns[i].id, ns[i].link, address.prefix, address.address, routes.value);
      AfterAppend(data, out, RenderStatics(objects, addresses, kind, ns[i + 1..]));
      data := data + [out];
    }
    r := Ok(data);
  }

  method GetDynamics(objects: Objects, addresses: Addresses, kind: string, ns: seq<Dynamic>)
    returns (r: Result<seq<NetworkOut>, RenderError>)
    ensures r == RenderDynamics(objects, addresses, kind, ns)
  {
    var data: seq<NetworkOut> := [];
    assert ns[0..] == ns;
    for i := 0 to |ns|
      invariant RenderDynamics(objects, addresses, kind, ns) == After(data, RenderDynamics(objects, addresses, kind, ns[i..]))
    {
      assert ns[i..][1..] == ns[i + 1..];
      var routes := GetRoutes(objects, addresses, ns[i].routes);
      if routes.Err? {
        return Err(routes.error);
      }
      var out := DynamicOut(kind, ns[i].id, ns[i].link, routes.value);
      AfterAppend(data, out, RenderDynamics(objects, addresses, kind, ns[i + 1..]));
      data := data + [out];
    }
    r := Ok(data);
  }

  method GetAllNetworks(objects: Objects, addresses: Addresses, n: Networks) returns (r: Result<seq<NetworkOut>, RenderError>)
    ensures r == RenderNetworks(objects, addresses, n)
  {
    r := GetStatics(objects, addresses, "ipv4", n.ipv4);
    if r.Err? {
      return;
    }
    var next := GetStatics(objects, addresses, "ipv6", n.ipv6);
    r := After(r.value, next);
    if r.Err? {
      return;
    }
    next := GetDynamics(objects, addresses, "ipv4_dhcp", n.ipv4Dhcp);
    r := After(r.value, next);
    if r.Err? {
      return;
    }
    next := GetDynamics(objects, addresses, "ipv6_dhcp", n.ipv6Dhcp);
    r := After(r.value, next);
    if r.Err? {
      return;
    }
    next := GetDynamics(objects, addresses, "ipv6_slaac", n.ipv6Slaac);
    r := After(r.value, next);
  }

  method GetNetworks(objects: Objects, addresses: Addresses, n: Networks) returns (r: Result<seq<NetworkOut>, RenderError>)
    ensures r == RenderNetworks(objects, addresses, n)
    ensures r.Ok? ==> NetworksShown(objects, addresses, n, r.value)
  {
    r := GetAllNetworks(objects, addresses, n);
    if r.Ok? {
      NetworksAreShown(objects, addresses, n);
    }
  }

  // ----- collected pools are found again -----

  /** Every mention was resolved and its pool has an address. */
  ghost predicate Served(addresses: Addresses, ms: seq<Mention>) {
    forall m :: m in ms ==> m.Ok? && m.value.name in addresses
  }

  /** A gateway annotation that is rendered names a pool that has an address. */
  predicate GatewayKnown(objects: Objects, addresses: Addresses, g: Gateway) {
    g.text.None? && g.annotation != NO_ANNOTATION ==>
      Value(objects, g.annotation).Ok? && Value(objects, g.annotation).value in addresses
  }

  /** The network says where its address comes from. */
  predicate NamesPool(n: Static) {
    n.annotation != NO_ANNOTATION || n.ref.name != "" || n.pool != ""
  }

  lemma NamedServed(addresses: Addresses, ref: PoolRef, name: string)
    requires Served(addresses, Named(ref, name))
    ensures ref.name != "" ==> ref.name in addresses
    ensures ref.name == "" && name != "" ==> name in addresses
  {
    assert ref.name != "" ==> Named(ref, name)[0] in Named(ref, name);
    assert ref.name == "" && name != "" ==> Named(ref, name)[0] in Named(ref, name);
  }

  lemma AnnotatedServed(objects: Objects, addresses: Addresses, a: Annotation)
    requires Served(addresses, Annotated(objects, a)) && a != NO_ANNOTATION
    ensures Value(objects, a).Ok? && Value(objects, a).value in addresses
  {
    assert Annotated(objects, a)[0] in Annotated(objects, a);
  }

  /** A route whose own mentions are served renders exactly when its gateway
      annotation is known; where annotations are collected that is always so. */
  lemma RouteRenders(objects: Objects, addresses: Addresses, annotated: bool, r: Route)
    requires Served(addresses, RouteMentions(objects, annotated, r))
    ensures RenderRoute(objects, addresses, r).Ok? <==> GatewayKnown(objects, addresses, r.gateway)
    ensures annotated ==> GatewayKnown(objects, addresses, r.gateway)
  {
    var g := r.gateway;
    if annotated && g.annotation != NO_ANNOTATION {
      AnnotatedServed(objects, addresses, g.annotation);
    }
    NamedServed(addresses, g.ref, g.pool);
    if r.services.Some? {
      NamedServed(addresses, PoolRef("", "", ""), r.services.value.pool);
    }
  }

  ghost predicate RoutesKnown(objects: Objects, addresses: Addresses, rs: seq<Route>) {
    forall i :: 0 <= i < |rs| ==> GatewayKnown(objects, addresses, rs[i].gateway)
  }

  lemma {:induction false} RoutesRender(objects: Objects, addresses: Addresses, annotated: bool, rs: seq<Route>)
    requires Served(addresses, RoutesMentions(objects, annotated, rs))
    ensures RenderRoutes(objects, addresses, rs).Ok? <==> RoutesKnown(objects, addresses, rs)
    ensures annotated ==> RoutesKnown(objects, addresses, rs)
    decreases |rs|
  {
    if rs != [] {
      RouteRenders(objects, addresses, annotated, rs[0]);
      RoutesRender(objects, addresses, annotated, rs[1..]);
      RoutesKnownSplit(objects, addresses, rs);
    }
  }

  lemma RoutesKnownSplit(objects: Objects, addresses: Addresses, rs: seq<Route>)
    requires rs != []
    ensures RoutesKnown(objects, addresses, rs) <==>
            GatewayKnown(objects, addresses, rs[0].gateway) && RoutesKnown(objects, addresses, rs[1..])
  {
    assert forall i :: 1 <= i < |rs| ==> rs[i] == rs[1..][i - 1];
  }

  lemma StaticRenders(objects: Objects, addresses: Addresses, kind: string, n: Static)
    requires Served(addresses, Annotated(objects, n.annotation) + Named(n.ref, n.pool) + RoutesMentions(objects, true, n.routes))
    ensures RenderStatic(objects, addresses, kind, n).Ok? <==> NamesPool(n) || "" in addresses
  {
    if n.annotation != NO_ANNOTATION {
      AnnotatedServed(objects, addresses, n.annotation);
    }
    NamedServed(addresses, n.ref, n.pool);
    RoutesRender(objects, addresses, true, n.routes);
  }

  ghost predicate StaticsNamed(addresses: Addresses, ns: seq<Static>) {
    forall i :: 0 <= i < |ns| ==> NamesPool(ns[i]) || "" in addresses
  }

  lemma {:induction false} StaticsRender(objects: Objects, addresses: Addresses, kind: string, ns: seq<Static>)
    requires Served(addresses, StaticMentions(objects, ns))
    ensures RenderStatics(objects, addresses, kind, ns).Ok? <==> StaticsNamed(addresses, ns)
    decreases |ns|
  {
    if ns != [] {
      StaticRenders(objects, addresses, kind, ns[0]);
      StaticsRender(objects, addresses, kind, ns[1..]);
      assert forall i :: 1 <= i < |ns| ==> ns[i] == ns[1..][i - 1];
    }
  }

  ghost predicate DynamicsKnown(objects: Objects, addresses: Addresses, ns: seq<Dynamic>) {
    forall i :: 0 <= i < |ns| ==> RoutesKnown(objects, addresses, ns[i].routes)
  }

  lemma {:induction false} DynamicsRender(objects: Objects, addresses: Addresses, kind: string, ns: seq<Dynamic>)
    requires Served(addresses, DynamicMentions(objects, ns))
    ensures RenderDynamics(objects, addresses, kind, ns).Ok? <==> DynamicsKnown(objects, addresses, ns)
    decreases |ns|
  {
    if ns != [] {
      RoutesRender(objects, addresses, false, ns[0].routes);
      DynamicsRender(objects, addresses, kind, ns[1..]);
      assert forall i :: 1 <= i < |ns| ==> ns[i] == ns[1..][i - 1];
    }
  }

  /** What the collecting traversal does not vouch for: networks that name no pool, and
      gateway annotations of DHCP and SLAAC networks. */
  ghost predicate Complete(objects: Objects, addresses: Addresses, n: Networks) {
    && StaticsNamed(addresses, n.ipv4) && StaticsNamed(addresses, n.ipv6)
    && DynamicsKnown(objects, addresses, n.ipv4Dhcp) && DynamicsKnown(objects, addresses, n.ipv6Dhcp)
    && DynamicsKnown(objects, addresses, n.ipv6Slaac)
  }

  lemma NetworksRender(objects: Objects, addresses: Addresses, n: Networks)
    requires Served(addresses, NetworksMentions(objects, n))
    ensures RenderNetworks(objects, addresses, n).Ok? <==> Complete(objects, addresses, n)
  {
    StaticsRender(objects, addresses, "ipv4", n.ipv4);
    StaticsRender(objects, addresses, "ipv6", n.ipv6);
    DynamicsRender(objects, addresses, "ipv4_dhcp", n.ipv4Dhcp);
    DynamicsRender(objects, addresses, "ipv6_dhcp", n.ipv6Dhcp);
    DynamicsRender(objects, addresses, "ipv6_slaac", n.ipv6Slaac);
  }

  /** The collected pools, each with an address; addresses of Metal3 pools have a
      prefix. */
  ghost predicate Allocated(objects: Objects, t: Template, addresses: Addresses) {
    var refs := Collect(map[], Mentions(objects, t));
    && refs.Ok? && addresses.Keys == refs.value.Keys
    && forall p :: p in addresses && IsMetal3(refs.value[p]) ==> addresses[p].prefix.Some?
  }

  lemma AllServed(objects: Objects, t: Template, addresses: Addresses)
    requires Allocated(objects, t, addresses)
    ensures Served(addresses, Mentions(objects, t))
  {
    var ms := Mentions(objects, t);
    CollectExactly(ms);
    forall m | m in ms
      ensures m.Ok? && m.value.name in addresses
    {
      var i :| 0 <= i < |ms| && ms[i] == m;
    }
  }

  /** Once every collected pool has an address, the networks render exactly when the
      template is complete, and the global DNS services always do. */
  lemma NetworksRenderExactly(objects: Objects, t: Template, addresses: Addresses)
    requires Allocated(objects, t, addresses) && t.network.Some?
    ensures t.network.value.networks.Some? ==>
              (RenderNetworks(objects, addresses, t.network.value.networks.value).Ok? <==>
               Complete(objects, addresses, t.network.value.networks.value))
    ensures t.network.value.services.Some? ==> RenderServices(addresses, t.network.value.services.value).Ok?
  {
    AllServed(objects, t, addresses);
    var n := t.network.value;
    if n.networks.Some? {
      assert Served(addresses, NetworksMentions(objects, n.networks.value)) by {
        assert forall m :: m in NetworksMentions(objects, n.networks.value) ==> m in Mentions(objects, t);
      }
      NetworksRender(objects, addresses, n.networks.value);
    }
    if n.services.Some? {
      assert Served(addresses, ByName(n.services.value.pool)) by {
        assert forall m :: m in ByName(n.services.value.pool) ==> m in Mentions(objects, t);
      }
      NamedServed(addresses, PoolRef("", "", ""), n.services.value.pool);
    }
  }

  predicate NoGatewayAnnotations(ns: seq<Dynamic>) {
    forall i, j :: 0 <= i < |ns| && 0 <= j < |ns[i].routes| ==> ns[i].routes[j].gateway.annotation == NO_ANNOTATION
  }

  predicate WellNamed(n: Networks) {
    && (forall i :: 0 <= i < |n.ipv4| ==> NamesPool(n.ipv4[i]))
    && (forall i :: 0 <= i < |n.ipv6| ==> NamesPool(n.ipv6[i]))
    && NoGatewayAnnotations(n.ipv4Dhcp) && NoGatewayAnnotations(n.ipv6Dhcp) && NoGatewayAnnotations(n.ipv6Slaac)
  }

  /** In particular the networks render for every template whose static networks name
      a pool and whose other networks have no gateway annotation. */
  lemma CollectedPoolsRender(objects: Objects, t: Template, addresses: Addresses)
    requires Allocated(objects, t, addresses) && t.network.Some? && t.network.value.networks.Some?
    requires WellNamed(t.network.value.networks.value)
    ensures RenderNetworks(objects, addresses, t.network.value.networks.value).Ok?
  {
    NetworksRenderExactly(objects, t, addresses);
  }

  /** A DHCP gateway annotation is rendered though its pool is never collected: with
      this template collecting succeeds, there is nothing to allocate, and rendering
      fails. */
  lemma DhcpAnnotationFails(pool: string)
    ensures var objects := Objects(None, Some(map["gw" := pool]), None);
            var gateway := Gateway(None, Annotation("machine", "gw"), PoolRef("", "", ""), "");
            var dhcp := Dynamic("net", "eth0", [Route("0.0.0.0", None, gateway, None)]);
            var n := Networks([], [], [dhcp], [], []);
            && Allocated(objects, Template(None, Some(NetworkData(Some(n), None))), map[])
            && RenderNetworks(objects, map[], n) == Err(PoolNotFound)
  {
    var objects := Objects(None, Some(map["gw" := pool]), None);
    var gateway := Gateway(None, Annotation("machine", "gw"), PoolRef("", "", ""), "");
    var route := Route("0.0.0.0", None, gateway, None);
    var dhcp := Dynamic("net", "eth0", [route]);
    assert Lower("machine") == "machine";
    assert RouteMentions(objects, false, route) == [];
    assert RoutesMentions(objects, false, [route]) == [];
    assert DynamicMentions(objects, [dhcp]) == [];
    assert RenderRoute(objects, map[], route) == Err(PoolNotFound);
  }

  // ----- metadata -----

  datatype MetaIndex = MetaIndex(key: string, prefix: string, suffix: string, offset: Option<int>, step: int)

  /** A metadata item that does not depend on pools or indexes. */
  datatype Plain = Plain(key: string, value: Result<string, string>)

  datatype Item = Item(key: string, value: Result<string, RenderError>)

  const TWO32 := 0x1_0000_0000

  /** int32 arithmetic. */
  function Wrap32(n: int): int {
    (n + 0x8000_0000) % TWO32 - 0x8000_0000
  }

  function RenderIndex(e: MetaIndex, index: int): string {
    var step := if e.step == 0 then 1 else e.step;
    var offset := if e.offset.None? then 0 else e.offset.value;
    e.prefix + Names.Itoa(Wrap32(offset + Wrap32(index * step))) + e.suffix
  }

  function AddressItem(addresses: Addresses, e: FromPool): Item {
    Item(e.key, if e.name in addresses then Ok(addresses[e.name].address) else Err(PoolNotFound))
  }

  function PrefixItem(addresses: Addresses, e: FromPool): Item {
    Item(e.key,
          if e.name !in addresses then Err(PoolNotFound)
          else if addresses[e.name].prefix.None? then Err(NilPrefix)
          else Ok(Names.Itoa(addresses[e.name].prefix.value)))
  }

  function GatewayItem(addresses: Addresses, e: FromPool): Item {
    Item(e.key, PoolGateway(addresses, e.name))
  }

  function IndexItem(e: MetaIndex, index: int): Item {
    Item(e.key, Ok(RenderIndex(e, index)))
  }

  function PlainItem(p: Plain): Item {
    Item(p.key, if p.value.Ok? then Ok(p.value.value) else Err(Other(p.value.error)))
  }

  function AddressItems(addresses: Addresses, es: seq<FromPool>): (r: seq<Item>)
    ensures |r| == |es|
  {
    seq(|es|, i requires 0 <= i < |es| => AddressItem(addresses, es[i]))
  }

  function PrefixItems(addresses: Addresses, es: seq<FromPool>): (r: seq<Item>)
    ensures |r| == |es|
  {
    seq(|es|, i requires 0 <= i < |es| => PrefixItem(addresses, es[i]))
  }

  function GatewayItems(addresses: Addresses, es: seq<FromPool>): (r: seq<Item>)
    ensures |r| == |es|
  {
    seq(|es|, i requires 0 <= i < |es| => GatewayItem(addresses, es[i]))
  }

  function IndexItems(index: int, es: seq<MetaIndex>): (r: seq<Item>)
    ensures |r| == |es|
  {
    seq(|es|, i requires 0 <= i < |es| => IndexItem(es[i], index))
  }

  function PlainItems(es: seq<Plain>): (r: seq<Item>)
    ensures |r| == |es|
  {
    seq(|es|, i requires 0 <= i < |es| => PlainItem(es[i]))
  }

  /** All items in the order they are rendered: interface addresses first, then pools
      and indexes, then names, labels, annotations and strings. */
  function MetaItems(addresses: Addresses, m: MetaData, indexes: seq<MetaIndex>, index: int, first: seq<Plain>, last: seq<Plain>): seq<Item> {
    PlainItems(first)
    + AddressItems(addresses, m.addresses)
    + PrefixItems(addresses, m.prefixes)
    + GatewayItems(addresses, m.gateways)
    + IndexItems(index, indexes)
    + PlainItems(last)
  }

  /** Items are written in order; a later one overwrites an earlier one of its key. */
  function Fill(data: map<string, string>, es: seq<Item>): Result<map<string, string>, RenderError>
    decreases |es|
  {
    if es == [] then Ok(data)
    else if es[0].value.Err? then Err(es[0].value.error)
    else Fill(data[es[0].key := es[0].value.value], es[1..])
  }

  lemma {:induction false} FillAppend(data: map<string, string>, a: seq<Item>, b: seq<Item>)
    ensures Fill(data, a + b) == if Fill(data, a).Err? then Fill(data, a) else Fill(Fill(data, a).value, b)
    decreases |a|
  {
    if a == [] {
      assert a + b == b;
    } else {
      assert (a + b)[1..] == a[1..] + b;
      if a[0].value.Ok? {
        FillAppend(data[a[0].key := a[0].value.value], a[1..], b);
      }
    }
  }

  /** `es[i]` is the last item of its key. */
  predicate IsLast(es: seq<Item>, i: int)
    requires 0 <= i < |es|
  {
    forall j :: i < j < |es| ==> es[j].key != es[i].key
  }

  lemma {:induction false} FillFails(data: map<string, string>, es: seq<Item>)
    ensures Fill(data, es).Ok? <==> forall i :: 0 <= i < |es| ==> es[i].value.Ok?
    ensures Fill(data, es).Err? ==> exists i :: 0 <= i < |es| && es[i].value == Err(Fill(data, es).error)
    decreases |es|
  {
    if es != [] {
      assert forall i :: 1 <= i < |es| ==> es[i] == es[1..][i - 1];
      if es[0].value.Ok? {
        FillFails(data[es[0].key := es[0].value.value], es[1..]);
        if Fill(data, es).Err? {
          var i :| 0 <= i < |es[1..]| && es[1..][i].value == Err(Fill(data, es).error);
          assert es[i + 1] == es[1..][i];
        }
      }
    }
  }

  /** A key no item has keeps its value. */
  lemma {:induction false} FillLeaves(data: map<string, string>, es: seq<Item>, k: string)
    requires Fill(data, es).Ok? && k in data && forall i :: 0 <= i < |es| ==> es[i].key != k
    ensures k in Fill(data, es).value && Fill(data, es).value[k] == data[k]
    decreases |es|
  {
    if es != [] {
      assert forall i :: 1 <= i < |es| ==> es[i] == es[1..][i - 1];
      FillLeaves(data[es[0].key := es[0].value.value], es[1..], k);
    }
  }

  lemma {:induction false} FillWrites(data: map<string, string>, es: seq<Item>, i: int)
    requires Fill(data, es).Ok? && 0 <= i < |es| && IsLast(es, i)
    ensures es[i].value.Ok? && es[i].key in Fill(data, es).value && Fill(data, es).value[es[i].key] == es[i].value.value
    decreases |es|
  {
    LastOfRest(es);
    var data' := data[es[0].key := es[0].value.value];
    if i == 0 {
      FillLeaves(data', es[1..], es[0].key);
    } else {
      assert es[i] == es[1..][i - 1];
      FillWrites(data', es[1..], i - 1);
    }
  }

  /** Rendering fails exactly when some item does, with the error of an item; otherwise
      each key has the value of its last item. */
  lemma FillExactly(data: map<string, string>, es: seq<Item>)
    ensures Fill(data, es).Ok? <==> forall i :: 0 <= i < |es| ==> es[i].value.Ok?
    ensures Fill(data, es).Err? ==> exists i :: 0 <= i < |es| && es[i].value == Err(Fill(data, es).error)
    ensures Fill(data, es).Ok? ==>
              && (forall i :: 0 <= i < |es| && IsLast(es, i) ==>
                    es[i].key in Fill(data, es).value && Fill(data, es).value[es[i].key] == es[i].value.value)
              && (forall k :: k in data && (forall i :: 0 <= i < |es| ==> es[i].key != k) ==>
                    k in Fill(data, es).value && Fill(data, es).value[k] == data[k])
  {
    FillFails(data, es);
    if Fill(data, es).Ok? {
      forall i | 0 <= i < |es| && IsLast(es, i)
        ensures es[i].key in Fill(data, es).value && Fill(data, es).value[es[i].key] == es[i].value.value
      {
        FillWrites(data, es, i);
      }
      forall k | k in data && forall i :: 0 <= i < |es| ==> es[i].key != k
        ensures k in Fill(data, es).value && Fill(data, es).value[k] == data[k]
      {
        FillLeaves(data, es, k);
      }
    }
  }

  lemma LastOfRest(es: seq<Item>)
    requires es != []
    ensures forall i :: 1 <= i < |es| && IsLast(es, i) ==> IsLast(es[1..], i - 1)
    ensures IsLast(es, 0) ==> forall i :: 0 <= i < |es[1..]| ==> es[1..][i].key != es[0].key
  {
  }

  method FillAddresses(data: map<string, string>, addresses: Addresses, es: seq<FromPool>) returns (r: Result<map<string, string>, RenderError>)
    ensures r == Fill(data, AddressItems(addresses, es))
  {
    ghost var all := AddressItems(addresses, es);
    var metadata := data;
    for i := 0 to |es|
      invariant Fill(data, all) == Fill(metadata, all[i..])
    {
      assert all[i..][1..] == all[i + 1..];
      if es[i].name !in addresses {
        return Err(PoolNotFound);
      }
      metadata := metadata[es[i].key := addresses[es[i].name].address];
    }
    r := Ok(metadata);
  }

  method FillPrefixes(data: map<string, string>, addresses: Addresses, es: seq<FromPool>) returns (r: Result<map<string, string>, RenderError>)
    ensures r == Fill(data, PrefixItems(addresses, es))
  {
    ghost var all := PrefixItems(addresses, es);
    var metadata := data;
    for i := 0 to |es|
      invariant Fill(data, all) == Fill(metadata, all[i..])
    {
      assert all[i..][1..] == all[i + 1..];
      if es[i].name !in addresses {
        return Err(PoolNotFound);
      }
      if addresses[es[i].name].prefix.None? {
        return Err(NilPrefix);
      }
      metadata := metadata[es[i].key := Names.Itoa(addresses[es[i].name].prefix.value)];
    }
    r := Ok(metadata);
  }

  method FillGateways(data: map<string, string>, addresses: Addresses, es: seq<FromPool>) returns (r: Result<map<string, string>, RenderError>)
    ensures r == Fill(data, GatewayItems(addresses, es))
  {
    ghost var all := GatewayItems(addresses, es);
    var metadata := data;
    for i := 0 to |es|
      invariant Fill(data, all) == Fill(metadata, all[i..])
    {
      assert all[i..][1..] == all[i + 1..];
      if es[i].name !in addresses {
        return Err(PoolNotFound);
      }
      metadata := metadata[es[i].key := addresses[es[i].name].gateway];
    }
    r := Ok(metadata);
  }

  method FillIndexes(data: map<string, string>, index: int, es: seq<MetaIndex>) returns (r: Result<map<string, string>, RenderError>)
    ensures r == Fill(data, IndexItems(index, es))
  {
    ghost var all := IndexItems(index, es);
    var metadata := data;
    for i := 0 to |es|
      invariant Fill(data, all) == Fill(metadata, all[i..])
    {
      assert all[i..][1..] == all[i + 1..];
      metadata := metadata[es[i].key := RenderIndex(es[i], index)];
    }
    r := Ok(metadata);
  }

  method FillPlain(data: map<string, string>, es: seq<Plain>) returns (r: Result<map<string, string>, RenderError>)
    ensures r == Fill(data, PlainItems(es))
  {
    ghost var all := PlainItems(es);
    var metadata := data;
    for i := 0 to |es|
      invariant Fill(data, all) == Fill(metadata, all[i..])
    {
      assert all[i..][1..] == all[i + 1..];
      if es[i].value.Err? {
        return Err(Other(es[i].value.error));
      }
      metadata := metadata[es[i].key := es[i].value.value];
    }
    r := Ok(metadata);
  }

  // ----- what the rendered metadata says -----

  /** One list of items was written: other keys keep their values, and a key has the text
      of the last entry that has it. */
  ghost predicate PlainWritten(es: seq<Plain>, before: map<string, string>, after: map<string, string>) {
    && (forall k :: k in before && (forall i :: 0 <= i < |es| ==> es[i].key != k) ==> k in after && after[k] == before[k])
    && forall i :: 0 <= i < |es| ==>
         && es[i].value.Ok?
         && ((forall j :: i < j < |es| ==> es[j].key != es[i].key) ==>
               es[i].key in after && after[es[i].key] == es[i].value.value)
  }

  /** The text of an entry is something of the pool it names. */
  ghost predicate PoolWritten(addresses: Addresses, text: Address -> string, es: seq<FromPool>, before: map<string, string>,
                              after: map<string, string>) {
    && (forall k :: k in before && (forall i :: 0 <= i < |es| ==> es[i].key != k) ==> k in after && after[k] == before[k])
    && forall i :: 0 <= i < |es| ==>
         && es[i].name in addresses
         && ((forall j :: i < j < |es| ==> es[j].key != es[i].key) ==>
               es[i].key in after && after[es[i].key] == text(addresses[es[i].name]))
  }

  /** The number is offset plus index times step, where that fits. */
  ghost predicate IndexSays(index: int, e: MetaIndex, after: map<string, string>) {
    var n := (if e.offset.None? then 0 else e.offset.value) + index * (if e.step == 0 then 1 else e.step);
    -0x8000_0000 <= n < 0x8000_0000 ==> e.key in after && after[e.key] == e.prefix + Names.Itoa(n) + e.suffix
  }

  ghost predicate IndexesWritten(index: int, es: seq<MetaIndex>, before: map<string, string>, after: map<string, string>) {
    && (forall k :: k in before && (forall i :: 0 <= i < |es| ==> es[i].key != k) ==> k in after && after[k] == before[k])
    && forall i :: 0 <= i < |es| && (forall j :: i < j < |es| ==> es[j].key != es[i].key) ==> IndexSays(index, es[i], after)
  }

  function AddressText(a: Address): string {
    a.address
  }

  function GatewayText(a: Address): string {
    a.gateway
  }

  function PrefixText(a: Address): string {
    if a.prefix.None? then "" else Names.Itoa(a.prefix.value)
  }

  /** The metadata comes about in six steps, from nothing: plain items, addresses,
      prefixes, gateways, index items, and plain items again. */
  ghost predicate MetaShown(addresses: Addresses, m: MetaData, indexes: seq<MetaIndex>, index: int, first: seq<Plain>, last: seq<Plain>,
                            steps: seq<map<string, string>>, data: map<string, string>) {
    && |steps| == 7 && steps[0] == map[] && steps[6] == data
    && PlainWritten(first, steps[0], steps[1])
    && PoolWritten(addresses, AddressText, m.addresses, steps[1], steps[2])
    && PoolWritten(addresses, PrefixText, m.prefixes, steps[2], steps[3])
    && (forall i :: 0 <= i < |m.prefixes| ==> m.prefixes[i].name in addresses && addresses[m.prefixes[i].name].prefix.Some?)
    && PoolWritten(addresses, GatewayText, m.gateways, steps[3], steps[4])
    && IndexesWritten(index, indexes, steps[4], steps[5])
    && PlainWritten(last, steps[5], steps[6])
  }

  lemma IndexTextPlain(e: MetaIndex, index: int)
    requires var n := (if e.offset.None? then 0 else e.offset.value) + index * (if e.step == 0 then 1 else e.step);
             FitsInt32(n)
    ensures var n := (if e.offset.None? then 0 else e.offset.value) + index * (if e.step == 0 then 1 else e.step);
            RenderIndex(e, index) == e.prefix + Names.Itoa(n) + e.suffix
  {
    var offset := if e.offset.None? then 0 else e.offset.value;
    var product := index * (if e.step == 0 then 1 else e.step);
    WrapTwice(product);
    WrapDistinct(Wrap32(product), product);
    WrapDistinct(offset + Wrap32(product), offset + product);
    assert Wrap32(offset + product) == offset + product;
  }

  lemma PlainIsWritten(es: seq<Plain>, before: map<string, string>, after: map<string, string>)
    requires Fill(before, PlainItems(es)) == Ok(after)
    ensures PlainWritten(es, before, after)
  {
    FillFails(before, PlainItems(es));
    forall i | 0 <= i < |es|
      ensures es[i].value.Ok? && PlainItems(es)[i].key == es[i].key && PlainItems(es)[i].value == Ok(es[i].value.value)
    {
      assert PlainItems(es)[i] == PlainItem(es[i]);
    }
    ItemsAreWritten(es, PlainItems(es), before, after);
  }

  lemma ItemsAreWritten(es: seq<Plain>, items: seq<Item>, before: map<string, string>, after: map<string, string>)
    requires Fill(before, items) == Ok(after) && |items| == |es|
    requires forall i :: 0 <= i < |es| ==> es[i].value.Ok? && items[i].key == es[i].key && items[i].value == Ok(es[i].value.value)
    ensures PlainWritten(es, before, after)
  {
    forall k | k in before && forall i :: 0 <= i < |es| ==> es[i].key != k
      ensures k in after && after[k] == before[k]
    {
      FillLeaves(before, items, k);
    }
    forall i | 0 <= i < |es| && forall j :: i < j < |es| ==> es[j].key != es[i].key
      ensures es[i].key in after && after[es[i].key] == es[i].value.value
    {
      FillWrites(before, items, i);
    }
  }

  lemma PoolIsWritten(addresses: Addresses, text: Address -> string, es: seq<FromPool>, items: seq<Item>, before: map<string, string>,
                      after: map<string, string>)
    requires Fill(before, items) == Ok(after) && |items| == |es|
    requires forall i :: 0 <= i < |es| ==>
               items[i].key == es[i].key
               && (items[i].value.Ok? ==> es[i].name in addresses && items[i].value.value == text(addresses[es[i].name]))
    ensures PoolWritten(addresses, text, es, before, after)
  {
    FillFails(before, items);
    forall k | k in before && forall i :: 0 <= i < |es| ==> es[i].key != k
      ensures k in after && after[k] == before[k]
    {
      FillLeaves(before, items, k);
    }
    forall i | 0 <= i < |es| && forall j :: i < j < |es| ==> es[j].key != es[i].key
      ensures es[i].name in addresses && es[i].key in after && after[es[i].key] == text(addresses[es[i].name])
    {
      FillWrites(before, items, i);
    }
  }

  lemma IndexesAreWritten(index: int, es: seq<MetaIndex>, before: map<string, string>, after: map<string, string>)
    requires Fill(before, IndexItems(index, es)) == Ok(after)
    ensures IndexesWritten(index, es, before, after)
  {
    var items := IndexItems(index, es);
    assert forall i :: 0 <= i < |es| ==> items[i].key == es[i].key && items[i].value == Ok(RenderIndex(es[i], index));
    forall k | k in before && forall i :: 0 <= i < |es| ==> es[i].key != k
      ensures k in after && after[k] == before[k]
    {
      FillLeaves(before, items, k);
    }
    forall i | 0 <= i < |es| && forall j :: i < j < |es| ==> es[j].key != es[i].key
      ensures IndexSays(index, es[i], after)
    {
      FillWrites(before, items, i);
      IndexWritten(index, es[i], after);
    }
  }

  lemma IndexWritten(index: int, e: MetaIndex, after: map<string, string>)
    requires e.key in after && after[e.key] == RenderIndex(e, index)
    ensures IndexSays(index, e, after)
  {
    var n := (if e.offset.None? then 0 else e.offset.value) + index * (if e.step == 0 then 1 else e.step);
    if FitsInt32(n) {
      IndexTextPlain(e, index);
    }
  }

  method RenderMetaData(addresses: Addresses, m: MetaData, indexes: seq<MetaIndex>, index: int, first: seq<Plain>, last: seq<Plain>)
    returns (r: Result<map<string, string>, RenderError>)
    ensures r == Fill(map[], MetaItems(addresses, m, indexes, index, first, last))
    ensures r.Ok? ==> exists steps :: MetaShown(addresses, m, indexes, index, first, last, steps, r.value)
  {
    ghost var steps: seq<map<string, string>>;
    r, steps := FillAll(addresses, m, indexes, index, first, last);
    if r.Ok? {
      StepsShown(addresses, m, indexes, index, first, last, steps, r.value);
    }
  }

  /** The items of one list, written onto what is there. */
  ghost predicate Steps(addresses: Addresses, m: MetaData, indexes: seq<MetaIndex>, index: int, first: seq<Plain>, last: seq<Plain>,
                        steps: seq<map<string, string>>, data: map<string, string>) {
    && |steps| == 7 && steps[0] == map[] && steps[6] == data
    && Fill(steps[0], PlainItems(first)) == Ok(steps[1])
    && Fill(steps[1], AddressItems(addresses, m.addresses)) == Ok(steps[2])
    && Fill(steps[2], PrefixItems(addresses, m.prefixes)) == Ok(steps[3])
    && Fill(steps[3], GatewayItems(addresses, m.gateways)) == Ok(steps[4])
    && Fill(steps[4], IndexItems(index, indexes)) == Ok(steps[5])
    && Fill(steps[5], PlainItems(last)) == Ok(steps[6])
  }

  lemma StepsShown(addresses: Addresses, m: MetaData, indexes: seq<MetaIndex>, index: int, first: seq<Plain>, last: seq<Plain>,
                   steps: seq<map<string, string>>, data: map<string, string>)
    requires Steps(addresses, m, indexes, index, first, last, steps, data)
    ensures MetaShown(addresses, m, indexes, index, first, last, steps, data)
  {
    PlainIsWritten(first, steps[0], steps[1]);
    AddressesAreWritten(addresses, m.addresses, steps[1], steps[2]);
    PrefixesAreWritten(addresses, m.prefixes, steps[2], steps[3]);
    GatewaysAreWritten(addresses, m.gateways, steps[3], steps[4]);
    IndexesAreWritten(index, indexes, steps[4], steps[5]);
    PlainIsWritten(last, steps[5], steps[6]);
  }

  lemma AddressesAreWritten(addresses: Addresses, es: seq<FromPool>, before: map<string, string>, after: map<string, string>)
    requires Fill(before, AddressItems(addresses, es)) == Ok(after)
    ensures PoolWritten(addresses, AddressText, es, before, after)
  {
    PoolIsWritten(addresses, AddressText, es, AddressItems(addresses, es), before, after);
  }

  lemma PrefixesAreWritten(addresses: Addresses, es: seq<FromPool>, before: map<string, string>, after: map<string, string>)
    requires Fill(before, PrefixItems(addresses, es)) == Ok(after)
    ensures PoolWritten(addresses, PrefixText, es, before, after)
    ensures forall i :: 0 <= i < |es| ==> es[i].name in addresses && addresses[es[i].name].prefix.Some?
  {
    var items := PrefixItems(addresses, es);
    PrefixesThere(addresses, es, before);
    forall i | 0 <= i < |es|
      ensures items[i].key == es[i].key
      ensures items[i].value.Ok? ==> es[i].name in addresses && items[i].value.value == PrefixText(addresses[es[i].name])
    {
    }
    PoolIsWritten(addresses, PrefixText, es, items, before, after);
  }

  lemma PrefixesThere(addresses: Addresses, es: seq<FromPool>, before: map<string, string>)
    requires Fill(before, PrefixItems(addresses, es)).Ok?
    ensures forall i :: 0 <= i < |es| ==> es[i].name in addresses && addresses[es[i].name].prefix.Some?
  {
    FillFails(before, PrefixItems(addresses, es));
    forall i | 0 <= i < |es|
      ensures es[i].name in addresses && addresses[es[i].name].prefix.Some?
    {
      assert PrefixItems(addresses, es)[i].value.Ok?;
    }
  }

  lemma GatewaysAreWritten(addresses: Addresses, es: seq<FromPool>, before: map<string, string>, after: map<string, string>)
    requires Fill(before, GatewayItems(addresses, es)) == Ok(after)
    ensures PoolWritten(addresses, GatewayText, es, before, after)
  {
    PoolIsWritten(addresses, GatewayText, es, GatewayItems(addresses, es), before, after);
  }

  method FillAll(addresses: Addresses, m: MetaData, indexes: seq<MetaIndex>, index: int, first: seq<Plain>, last: seq<Plain>)
    returns (r: Result<map<string, string>, RenderError>, ghost steps: seq<map<string, string>>)
    ensures r == Fill(map[], MetaItems(addresses, m, indexes, index, first, last))
    ensures r.Ok? ==> Steps(addresses, m, indexes, index, first, last, steps, r.value)
  {
    ghost var a, b := PlainItems(first), AddressItems(addresses, m.addresses);
    ghost var c, d := PrefixItems(addresses, m.prefixes), GatewayItems(addresses, m.gateways);
    ghost var f, g := IndexItems(index, indexes), PlainItems(last);
    FillAppend(map[], a + b + c + d + f, g);
    FillAppend(map[], a + b + c + d, f);
    FillAppend(map[], a + b + c, d);
    FillAppend(map[], a + b, c);
    FillAppend(map[], a, b);
    steps := [map[]];
    r := FillPlain(map[], first);
    if r.Ok? {
      steps := steps + [r.value];
      r := FillAddresses(r.value, addresses, m.addresses);
    }
    if r.Ok? {
      steps := steps + [r.value];
      r := FillPrefixes(r.value, addresses, m.prefixes);
    }
    if r.Ok? {
      steps := steps + [r.value];
      r := FillGateways(r.value, addresses, m.gateways);
    }
    if r.Ok? {
      steps := steps + [r.value];
      r := FillIndexes(r.value, index, indexes);
    }
    if r.Ok? {
      steps := steps + [r.value];
      r := FillPlain(r.value, last);
    }
    if r.Ok? {
      steps := steps + [r.value];
    }
  }

  lemma MetaPoolServed(objects: Objects, t: Template, addresses: Addresses, name: string)
    requires Allocated(objects, t, addresses) && t.meta.Some? && Ok(Metal3Pool(name)) in MetaMentions(t.meta.value)
    ensures name in addresses && addresses[name].prefix.Some?
  {
    var ms := Mentions(objects, t);
    assert Ok(Metal3Pool(name)) in ms;
    var i :| 0 <= i < |ms| && ms[i] == Ok(Metal3Pool(name));
    CollectExactly(ms);
    assert Collect(map[], ms).value[ms[i].value.name] == Defaulted(ms[i].value);
  }

  lemma PoolItemOk(objects: Objects, t: Template, addresses: Addresses, es: seq<FromPool>, i: int)
    requires Allocated(objects, t, addresses) && t.meta.Some? && 0 <= i < |es|
    requires es == t.meta.value.addresses || es == t.meta.value.prefixes || es == t.meta.value.gateways
    ensures AddressItem(addresses, es[i]).value.Ok? && PrefixItem(addresses, es[i]).value.Ok?
    ensures GatewayItem(addresses, es[i]).value.Ok?
  {
    assert FromPoolMentions(es)[i] == Ok(Metal3Pool(es[i].name));
    assert FromPoolMentions(es)[i] in MetaMentions(t.meta.value);
    MetaPoolServed(objects, t, addresses, es[i].name);
  }

  /** Once every collected pool has an address, no metadata item misses a pool or a
      prefix: only items that have nothing to do with pools can fail. */
  lemma MetaDataRenders(objects: Objects, t: Template, addresses: Addresses, indexes: seq<MetaIndex>, index: int, first: seq<Plain>, last: seq<Plain>)
    requires Allocated(objects, t, addresses) && t.meta.Some?
    ensures var r := Fill(map[], MetaItems(addresses, t.meta.value, indexes, index, first, last));
            && (r.Err? ==> r.error.Other?)
            && (r.Ok? <==> (forall i :: 0 <= i < |first| ==> first[i].value.Ok?) && (forall i :: 0 <= i < |last| ==> last[i].value.Ok?))
  {
    var es := MetaItems(addresses, t.meta.value, indexes, index, first, last);
    FillExactly(map[], es);
    forall e | e in es
      ensures e.value.Ok? || e.value.error.Other?
      ensures e.value.Err? ==> e in PlainItems(first) || e in PlainItems(last)
    {
      MetaItemOk(objects, t, addresses, indexes, index, first, last, e);
    }
    PlainMatters(first, es);
    PlainMatters(last, es);
  }

  lemma PlainMatters(ps: seq<Plain>, es: seq<Item>)
    requires forall e :: e in PlainItems(ps) ==> e in es
    ensures (forall e :: e in es ==> e.value.Ok?) ==> forall i :: 0 <= i < |ps| ==> ps[i].value.Ok?
    ensures (forall i :: 0 <= i < |ps| ==> ps[i].value.Ok?) ==> forall e :: e in PlainItems(ps) ==> e.value.Ok?
  {
    forall i | 0 <= i < |ps|
      ensures PlainItem(ps[i]) in es
    {
      assert PlainItems(ps)[i] == PlainItem(ps[i]);
    }
  }

  lemma MetaItemOk(objects: Objects, t: Template, addresses: Addresses, indexes: seq<MetaIndex>, index: int, first: seq<Plain>, last: seq<Plain>, e: Item)
    requires Allocated(objects, t, addresses) && t.meta.Some?
    requires e in MetaItems(addresses, t.meta.value, indexes, index, first, last)
    ensures e.value.Ok? || e.value.error.Other?
    ensures e.value.Err? ==> e in PlainItems(first) || e in PlainItems(last)
  {
    var m := t.meta.value;
    if e in PlainItems(first) || e in PlainItems(last) {
    } else if e in AddressItems(addresses, m.addresses) {
      var i :| 0 <= i < |m.addresses| && AddressItem(addresses, m.addresses[i]) == e;
      PoolItemOk(objects, t, addresses, m.addresses, i);
    } else if e in PrefixItems(addresses, m.prefixes) {
      var i :| 0 <= i < |m.prefixes| && PrefixItem(addresses, m.prefixes[i]) == e;
      PoolItemOk(objects, t, addresses, m.prefixes, i);
    } else if e in GatewayItems(addresses, m.gateways) {
      var i :| 0 <= i < |m.gateways| && GatewayItem(addresses, m.gateways[i]) == e;
      PoolItemOk(objects, t, addresses, m.gateways, i);
    }
  }

  // ----- index items -----

  lemma WrapDistinct(a: int, b: int)
    ensures Wrap32(a) == Wrap32(b) <==> (a - b) % TWO32 == 0
  {
    var x, y := a + 0x8000_0000, b + 0x8000_0000;
    assert x == TWO32 * (x / TWO32) + x % TWO32;
    assert y == TWO32 * (y / TWO32) + y % TWO32;
    assert a - b == TWO32 * (x / TWO32 - y / TWO32) + (x % TWO32 - y % TWO32);
    MultipleOf(a - b, x / TWO32 - y / TWO32, x % TWO32 - y % TWO32);
  }

  lemma MultipleOf(n: int, q: int, r: int)
    requires n == TWO32 * q + r && -TWO32 < r < TWO32
    ensures n % TWO32 == 0 <==> r == 0
  {
  }

  /** Two Metal3Data of one template render an index item alike exactly when the step
      carries the difference of their indexes over a multiple of 2 to the 32nd. */
  lemma SameIndexTextExactly(e: MetaIndex, i: int, j: int)
    ensures var step := if e.step == 0 then 1 else e.step;
            RenderIndex(e, i) == RenderIndex(e, j) <==> ((i - j) * step) % TWO32 == 0
  {
    var step := if e.step == 0 then 1 else e.step;
    var offset := if e.offset.None? then 0 else e.offset.value;
    var a, b := offset + Wrap32(i * step), offset + Wrap32(j * step);
    Names.ItoaInjective(Wrap32(a), Wrap32(b));
    WrapDistinct(a, b);
    assert i * step - j * step == (i - j) * step;
    WrapDistinct(Wrap32(i * step), Wrap32(j * step));
    WrapDistinct(i * step, j * step);
    WrapTwice(i * step);
    WrapTwice(j * step);
    var x, y := Names.Itoa(Wrap32(a)), Names.Itoa(Wrap32(b));
    if e.prefix + x + e.suffix == e.prefix + y + e.suffix {
      assert |x| == |y|;
      assert x == (e.prefix + x + e.suffix)[|e.prefix|..|e.prefix| + |x|];
      assert y == (e.prefix + y + e.suffix)[|e.prefix|..|e.prefix| + |y|];
    }
  }

  lemma WrapTwice(n: int)
    ensures Wrap32(Wrap32(n)) == Wrap32(n)
  {
  }

  predicate FitsInt32(n: int) {
    -0x8000_0000 <= n < 0x8000_0000
  }

  /** Without overflow, different indexes render differently, and each as the plain
      arithmetic says. */
  lemma IndexTextsDiffer(e: MetaIndex, i: int, j: int)
    requires var step := if e.step == 0 then 1 else e.step;
             var offset := if e.offset.None? then 0 else e.offset.value;
             FitsInt32(offset + i * step) && FitsInt32(offset + j * step)
    ensures RenderIndex(e, i) == RenderIndex(e, j) <==> i == j
  {
    var step := if e.step == 0 then 1 else e.step;
    SameIndexTextExactly(e, i, j);
    assert i * step - j * step == (i - j) * step;
    MultipleOf((i - j) * step, 0, (i - j) * step);
    if i != j {
      NonZeroProduct(i - j, step);
    }
  }

  lemma NonZeroProduct(a: int, b: int)
    requires a != 0 && b != 0
    ensures a * b != 0
  {
  }

  /** With overflow they may not: step 65536 gives indexes 0 and 65536 the same text. */
  lemma OverflowCollides(key: string, prefix: string, suffix: string, offset: Option<int>)
    ensures RenderIndex(MetaIndex(key, prefix, suffix, offset, 65536), 0) ==
            RenderIndex(MetaIndex(key, prefix, suffix, offset, 65536), 65536)
  {
    SameIndexTextExactly(MetaIndex(key, prefix, suffix, offset, 65536), 0, 65536);
  }
}
