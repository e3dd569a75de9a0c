/** Which IP pools a Metal3DataTemplate refers to: the traversal that collects them
    before any address is claimed. */
module PoolReferences {
  import opened Wrappers
  import opened IPPools

  datatype Error = DifferentTypes | UnknownObject | MissingObject | EmptyAnnotation

  // ----- the template -----

  datatype Annotation = Annotation(owner: string, key: string)

  const NO_ANNOTATION := Annotation("", "")

  /** The annotations of the Metal3Machine, the Machine and the BareMetalHost, where
      these exist. */
  datatype Objects = Objects(metal3Machine: Option<map<string, string>>, machine: Option<map<string, string>>,
                             host: Option<map<string, string>>)

  datatype Gateway = Gateway(text: Option<string>, annotation: Annotation, ref: PoolRef, pool: string)

  datatype Services = Services(dns: seq<string>, pool: string)

  datatype Route = Route(network: string, prefix: Option<int>, gateway: Gateway, services: Option<Services>)

  /** A network with an address of its own from a pool. */
  datatype Static = Static(id: string, link: string, annotation: Annotation, ref: PoolRef, pool: string, routes: seq<Route>)

  /** A DHCP or SLAAC network. */
  datatype Dynamic = Dynamic(id: string, link: string, routes: seq<Route>)

  datatype Networks = Networks(ipv4: seq<Static>, ipv6: seq<Static>, ipv4Dhcp: seq<Dynamic>, ipv6Dhcp: seq<Dynamic>,
                               ipv6Slaac: seq<Dynamic>)

  datatype NetworkData = NetworkData(networks: Option<Networks>, services: Option<Services>)

  datatype FromPool = FromPool(key: string, name: string)

  datatype MetaData = MetaData(addresses: seq<FromPool>, prefixes: seq<FromPool>, gateways: seq<FromPool>, dns: seq<FromPool>)

  datatype Template = Template(meta: Option<MetaData>, network: Option<NetworkData>)

  // ----- annotations -----

  function LowerChar(c: char): char {
    if 'A' <= c <= 'Z' then c - 'A' + 'a' else c
  }

  /** strings.ToLower, on ASCII. */
  function Lower(s: string): string {
    seq(|s|, i requires 0 <= i < |s| => LowerChar(s[i]))
  }

  function Lookup(annotations: Option<map<string, string>>, key: string): Result<string, Error> {
    if annotations.None? then Err(MissingObject)
    else if key in annotations.value then Ok(annotations.value[key])
    else Ok("")
  }

  /** getValueFromAnnotation; an absent annotation reads as empty. */
  function Value(objects: Objects, a: Annotation): Result<string, Error> {
    var owner := Lower(a.owner);
    if owner == "metal3machine" then Lookup(objects.metal3Machine, a.key)
    else if owner == "machine" then Lookup(objects.machine, a.key)
    else if owner == "baremetalhost" then Lookup(objects.host, a.key)
    else Err(UnknownObject)
  }

  // ----- what is mentioned, in the order of the traversal -----

  type Mention = Result<PoolRef, Error>

  function AnnotatedRef(objects: Objects, a: Annotation): Mention {
    var v := Value(objects, a);
    if v.Err? then Err(v.error) else if v.value == "" then Err(EmptyAnnotation) else Ok(Metal3Pool(v.value))
  }

  function Annotated(objects: Objects, a: Annotation): seq<Mention> {
    if a == NO_ANNOTATION then [] else [AnnotatedRef(objects, a)]
  }

  function ByName(name: string): seq<Mention> {
    if name == "" then [] else [Ok(PoolRef(name, "", ""))]
  }

  function Named(ref: PoolRef, name: string): seq<Mention> {
    if ref.name != "" then [Ok(ref)] else ByName(name)
  }

  function ServiceMentions(s: Option<Services>): seq<Mention> {
    if s.None? then [] else ByName(s.value.pool)
  }

  /** Gateway annotations count only in networks with an address of their own. */
  function RouteMentions(objects: Objects, annotated: bool, r: Route): seq<Mention> {
    (if annotated then Annotated(objects, r.gateway.annotation) else [])
    + Named(r.gateway.ref, r.gateway.pool) + ServiceMentions(r.services)
  }

  function RoutesMentions(objects: Objects, annotated: bool, rs: seq<Route>): seq<Mention> {
    if rs == [] then [] else RouteMentions(objects, annotated, rs[0]) + RoutesMentions(objects, annotated, rs[1..])
  }

  function StaticMentions(objects: Objects, ns: seq<Static>): seq<Mention> {
    if ns == [] then []
    else
      Annotated(objects, ns[0].annotation) + Named(ns[0].ref, ns[0].pool)
      + RoutesMentions(objects, true, ns[0].routes) + StaticMentions(objects, ns[1..])
  }

  function DynamicMentions(objects: Objects, ns: seq<Dynamic>): seq<Mention> {
    if ns == [] then [] else RoutesMentions(objects, false, ns[0].routes) + DynamicMentions(objects, ns[1..])
  }

  function NetworksMentions(objects: Objects, n: Networks): seq<Mention> {
    StaticMentions(objects, n.ipv4) + StaticMentions(objects, n.ipv6) + DynamicNetworksMentions(objects, n)
  }

  function DynamicNetworksMentions(objects: Objects, n: Networks): seq<Mention> {
    DynamicMentions(objects, n.ipv4Dhcp) + DynamicMentions(objects, n.ipv6Dhcp) + DynamicMentions(objects, n.ipv6Slaac)
  }

  function NetworkMentions(objects: Objects, n: NetworkData): seq<Mention> {
    (if n.networks.None? then [] else NetworksMentions(objects, n.networks.value)) + ServiceMentions(n.services)
  }

  function FromPoolMentions(es: seq<FromPool>): seq<Mention> {
    seq(|es|, i requires 0 <= i < |es| => Ok(Metal3Pool(es[i].name)))
  }

  function MetaMentions(m: MetaData): seq<Mention> {
    FromPoolMentions(m.addresses) + FromPoolMentions(m.prefixes) + FromPoolMentions(m.gateways) + FromPoolMentions(m.dns)
  }

  function Mentions(objects: Objects, t: Template): seq<Mention> {
    (if t.meta.None? then [] else MetaMentions(t.meta.value))
    + (if t.network.None? then [] else NetworkMentions(objects, t.network.value))
  }

  // ----- collecting them -----

  type Refs = map<string, PoolRef>

  function Add(refs: Refs, m: Mention): Result<Refs, Error> {
    if m.Err? then Err(m.error)
    else
      var r := Defaulted(m.value);
      if r.name !in refs then Ok(refs[r.name := r])
      else if refs[r.name].group != r.group || refs[r.name].kind != r.kind then Err(DifferentTypes)
      else Ok(refs)
  }

  function Collect(refs: Refs, ms: seq<Mention>): Result<Refs, Error>
    decreases |ms|
  {
    if ms == [] then Ok(refs)
    else
      var refs' := Add(refs, ms[0]);
      if refs'.Err? then refs' else Collect(refs'.value, ms[1..])
  }

  lemma {:induction false} CollectAppend(refs: Refs, a: seq<Mention>, b: seq<Mention>)
    ensures Collect(refs, a + b) ==
            if Collect(refs, a).Err? then Collect(refs, a) else Collect(Collect(refs, a).value, b)
    decreases |a|
  {
    if a == [] {
      assert a + b == b;
    } else {
      assert (a + b)[1..] == a[1..] + b;
      if Add(refs, a[0]).Ok? {
        CollectAppend(Add(refs, a[0]).value, a[1..], b);
      }
    }
  }

  predicate RefsOk(refs: Refs) {
    forall p :: p in refs ==> refs[p].name == p
  }

  /** Every mention can be resolved and no two of them disagree on a pool's type. */
  predicate Consistent(ms: seq<Mention>) {
    && (forall i :: 0 <= i < |ms| ==> ms[i].Ok?)
    && (forall i, j :: 0 <= i < |ms| && 0 <= j < |ms| && ms[i].value.name == ms[j].value.name ==>
          Defaulted(ms[i].value) == Defaulted(ms[j].value))
  }

  predicate Fits(refs: Refs, ms: seq<Mention>) {
    forall i :: 0 <= i < |ms| && ms[i].Ok? && ms[i].value.name in refs ==> refs[ms[i].value.name] == Defaulted(ms[i].value)
  }

  predicate Holds(refs: Refs, ms: seq<Mention>) {
    forall i :: 0 <= i < |ms| && ms[i].Ok? ==>
      ms[i].value.name in refs && refs[ms[i].value.name] == Defaulted(ms[i].value)
  }

  predicate OnlyFrom(refs: Refs, before: Refs, ms: seq<Mention>) {
    forall p :: p in refs ==>
      if p in before then refs[p] == before[p]
      else exists i :: 0 <= i < |ms| && ms[i].Ok? && ms[i].value.name == p
  }

  lemma {:induction false} CollectSucceeds(refs: Refs, ms: seq<Mention>)
    requires RefsOk(refs) && Consistent(ms) && Fits(refs, ms)
    ensures Collect(refs, ms).Ok?
    decreases |ms|
  {
    if ms != [] {
      var r := Defaulted(ms[0].value);
      assert Add(refs, ms[0]).Ok?;
      CollectSucceeds(Add(refs, ms[0]).value, ms[1..]);
    }
  }

  lemma {:induction false} CollectMeans(refs: Refs, ms: seq<Mention>)
    requires RefsOk(refs) && Collect(refs, ms).Ok?
    ensures var refs' := Collect(refs, ms).value;
            && RefsOk(refs') && Holds(refs', ms) && OnlyFrom(refs', refs, ms)
            && (forall p :: p in refs ==> p in refs' && refs'[p] == refs[p])
            && forall i :: 0 <= i < |ms| ==> ms[i].Ok?
    decreases |ms|
  {
    if ms != [] {
      var added := Add(refs, ms[0]).value;
      CollectMeans(added, ms[1..]);
      var refs' := Collect(refs, ms).value;
      forall i | 0 <= i < |ms|
        ensures ms[i].Ok? && ms[i].value.name in refs' && refs'[ms[i].value.name] == Defaulted(ms[i].value)
      {
        assert i > 0 ==> ms[i] == ms[1..][i - 1];
      }
      forall p | p in refs' && p !in refs
        ensures exists i :: 0 <= i < |ms| && ms[i].Ok? && ms[i].value.name == p
      {
        if p in added {
          assert ms[0].value.name == p;
        } else {
          var i :| 0 <= i < |ms[1..]| && ms[1..][i].Ok? && ms[1..][i].value.name == p;
          assert ms[i + 1] == ms[1..][i];
        }
      }
    }
  }

  /** The traversal succeeds exactly when the mentions agree with each other, in
      whatever order they come, and then yields each pool mentioned with its type. */
  lemma CollectExactly(ms: seq<Mention>)
    ensures Collect(map[], ms).Ok? <==> Consistent(ms)
    ensures Collect(map[], ms).Ok? ==>
              var refs := Collect(map[], ms).value;
              && Holds(refs, ms)
              && forall p :: p in refs <==> exists i :: 0 <= i < |ms| && ms[i].Ok? && ms[i].value.name == p
  {
    if Consistent(ms) {
      CollectSucceeds(map[], ms);
    }
    if Collect(map[], ms).Ok? {
      CollectMeans(map[], ms);
    }
  }

  // ----- the places that mention a pool -----

  /** Which object an annotation is read from, in whatever case it is written. */
  lemma ValueOfEachObject(objects: Objects, key: string)
    ensures Value(objects, Annotation("metal3machine", key)) == Value(objects, Annotation("Metal3Machine", key))
            == (if objects.metal3Machine.None? then Err(MissingObject)
                else if key in objects.metal3Machine.value then Ok(objects.metal3Machine.value[key]) else Ok(""))
    ensures Value(objects, Annotation("machine", key)) == Value(objects, Annotation("Machine", key))
            == (if objects.machine.None? then Err(MissingObject)
                else if key in objects.machine.value then Ok(objects.machine.value[key]) else Ok(""))
    ensures Value(objects, Annotation("baremetalhost", key)) == Value(objects, Annotation("BareMetalHost", key))
            == (if objects.host.None? then Err(MissingObject)
                else if key in objects.host.value then Ok(objects.host.value[key]) else Ok(""))
    ensures Value(objects, Annotation("host", key)) == Err(UnknownObject)
  {
    assert Lower("metal3machine") == "metal3machine" && Lower("Metal3Machine") == "metal3machine";
    assert Lower("machine") == "machine" && Lower("Machine") == "machine";
    assert Lower("baremetalhost") == "baremetalhost" && Lower("BareMetalHost") == "baremetalhost";
    assert Lower("host") == "host";
    assert |Lower("host")| == 4;
  }

  predicate AnnotationNames(objects: Objects, a: Annotation, ref: PoolRef) {
    && a != NO_ANNOTATION && Value(objects, a).Ok? && Value(objects, a).value != ""
    && ref == PoolRef(Value(objects, a).value, "ipam.metal3.io", "IPPool")
  }

  /** A reference counts before a mere name. */
  predicate FieldsName(r: PoolRef, pool: string, ref: PoolRef) {
    if r.name != "" then ref == r else pool != "" && ref == PoolRef(pool, "", "")
  }

  predicate ServicesName(s: Option<Services>, ref: PoolRef) {
    s.Some? && s.value.pool != "" && ref == PoolRef(s.value.pool, "", "")
  }

  predicate RouteNames(objects: Objects, annotated: bool, r: Route, ref: PoolRef) {
    || (annotated && AnnotationNames(objects, r.gateway.annotation, ref))
    || FieldsName(r.gateway.ref, r.gateway.pool, ref) || ServicesName(r.services, ref)
  }

  predicate RoutesName(objects: Objects, annotated: bool, rs: seq<Route>, ref: PoolRef) {
    exists i :: 0 <= i < |rs| && RouteNames(objects, annotated, rs[i], ref)
  }

  predicate StaticNames(objects: Objects, n: Static, ref: PoolRef) {
    AnnotationNames(objects, n.annotation, ref) || FieldsName(n.ref, n.pool, ref) || RoutesName(objects, true, n.routes, ref)
  }

  predicate StaticsName(objects: Objects, ns: seq<Static>, ref: PoolRef) {
    exists i :: 0 <= i < |ns| && StaticNames(objects, ns[i], ref)
  }

  predicate DynamicsName(objects: Objects, ns: seq<Dynamic>, ref: PoolRef) {
    exists i :: 0 <= i < |ns| && RoutesName(objects, false, ns[i].routes, ref)
  }

  predicate ItemsName(es: seq<FromPool>, ref: PoolRef) {
    exists i :: 0 <= i < |es| && ref == PoolRef(es[i].name, "ipam.metal3.io", "IPPool")
  }

  /** Somewhere in the template this reference is made; annotations of DHCP and SLAAC
      gateways do not count. */
  predicate Mentioned(objects: Objects, t: Template, ref: PoolRef) {
    || (t.meta.Some? && var m := t.meta.value;
                        ItemsName(m.addresses, ref) || ItemsName(m.prefixes, ref) || ItemsName(m.gateways, ref) || ItemsName(m.dns, ref))
    || (t.network.Some? &&
        (|| ServicesName(t.network.value.services, ref)
         || (t.network.value.networks.Some? && var n := t.network.value.networks.value;
                                               || StaticsName(objects, n.ipv4, ref) || StaticsName(objects, n.ipv6, ref)
                                               || DynamicsName(objects, n.ipv4Dhcp, ref) || DynamicsName(objects, n.ipv6Dhcp, ref)
                                               || DynamicsName(objects, n.ipv6Slaac, ref))))
  }

  lemma RouteMentionsNames(objects: Objects, annotated: bool, r: Route, ref: PoolRef)
    ensures Ok(ref) in RouteMentions(objects, annotated, r) <==> RouteNames(objects, annotated, r, ref)
  {
  }

  lemma {:induction false} RoutesMentionsNames(objects: Objects, annotated: bool, rs: seq<Route>, ref: PoolRef)
    ensures Ok(ref) in RoutesMentions(objects, annotated, rs) <==> RoutesName(objects, annotated, rs, ref)
    decreases |rs|
  {
    if rs != [] {
      RouteMentionsNames(objects, annotated, rs[0], ref);
      RoutesMentionsNames(objects, annotated, rs[1..], ref);
      assert forall i :: 1 <= i < |rs| ==> rs[i] == rs[1..][i - 1];
    }
  }

  lemma {:induction false} StaticMentionsNames(objects: Objects, ns: seq<Static>, ref: PoolRef)
    ensures Ok(ref) in StaticMentions(objects, ns) <==> StaticsName(objects, ns, ref)
    decreases |ns|
  {
    if ns != [] {
      RoutesMentionsNames(objects, true, ns[0].routes, ref);
      StaticMentionsNames(objects, ns[1..], ref);
      assert forall i :: 1 <= i < |ns| ==> ns[i] == ns[1..][i - 1];
    }
  }

  lemma {:induction false} DynamicMentionsNames(objects: Objects, ns: seq<Dynamic>, ref: PoolRef)
    ensures Ok(ref) in DynamicMentions(objects, ns) <==> DynamicsName(objects, ns, ref)
    decreases |ns|
  {
    if ns != [] {
      RoutesMentionsNames(objects, false, ns[0].routes, ref);
      DynamicMentionsNames(objects, ns[1..], ref);
      assert forall i :: 1 <= i < |ns| ==> ns[i] == ns[1..][i - 1];
    }
  }

  lemma FromPoolMentionsNames(es: seq<FromPool>, ref: PoolRef)
    ensures Ok(ref) in FromPoolMentions(es) <==> ItemsName(es, ref)
  {
    if ItemsName(es, ref) {
      var i :| 0 <= i < |es| && ref == PoolRef(es[i].name, "ipam.metal3.io", "IPPool");
      assert FromPoolMentions(es)[i] == Ok(ref);
    }
  }

  /** The traversal's mentions are exactly these places. */
  lemma MentionedExactly(objects: Objects, t: Template, ref: PoolRef)
    ensures Ok(ref) in Mentions(objects, t) <==> Mentioned(objects, t, ref)
  {
    if t.meta.Some? {
      FromPoolMentionsNames(t.meta.value.addresses, ref);
      FromPoolMentionsNames(t.meta.value.prefixes, ref);
      FromPoolMentionsNames(t.meta.value.gateways, ref);
      FromPoolMentionsNames(t.meta.value.dns, ref);
    }
    if t.network.Some? && t.network.value.networks.Some? {
      NetworksMentionsNames(objects, t.network.value.networks.value, ref);
    }
  }

  lemma NetworksMentionsNames(objects: Objects, n: Networks, ref: PoolRef)
    ensures Ok(ref) in NetworksMentions(objects, n) <==>
            || StaticsName(objects, n.ipv4, ref) || StaticsName(objects, n.ipv6, ref) || DynamicsName(objects, n.ipv4Dhcp, ref)
            || DynamicsName(objects, n.ipv6Dhcp, ref) || DynamicsName(objects, n.ipv6Slaac, ref)
  {
    StaticMentionsNames(objects, n.ipv4, ref);
    StaticMentionsNames(objects, n.ipv6, ref);
    DynamicMentionsNames(objects, n.ipv4Dhcp, ref);
    DynamicMentionsNames(objects, n.ipv6Dhcp, ref);
    DynamicMentionsNames(objects, n.ipv6Slaac, ref);
  }

  /** The pools are those mentioned somewhere, each with the group and kind given there,
      or else those of Metal3 pools. */
  ghost predicate RefsAre(objects: Objects, t: Template, refs: Refs) {
    && (forall p :: p in refs <==> exists ref :: Mentioned(objects, t, ref) && ref.name == p)
    && (forall ref :: Mentioned(objects, t, ref) ==>
          && ref.name in refs && refs[ref.name].name == ref.name
          && refs[ref.name].group == (if ref.group == "" then "ipam.metal3.io" else ref.group)
          && refs[ref.name].kind == (if ref.kind == "" then "IPPool" else ref.kind))
  }

  lemma CollectedAreMentioned(objects: Objects, t: Template)
    requires Collect(map[], Mentions(objects, t)).Ok?
    ensures RefsAre(objects, t, Collect(map[], Mentions(objects, t)).value)
  {
    var ms := Mentions(objects, t);
    CollectExactly(ms);
    var refs := Collect(map[], ms).value;
    forall ref | Mentioned(objects, t, ref)
      ensures ref.name in refs && refs[ref.name] == Defaulted(ref)
    {
      MentionedExactly(objects, t, ref);
      var i :| 0 <= i < |ms| && ms[i] == Ok(ref);
      assert refs[ms[i].value.name] == Defaulted(ms[i].value);
    }
    forall p | p in refs
      ensures exists ref :: Mentioned(objects, t, ref) && ref.name == p
    {
      var i :| 0 <= i < |ms| && ms[i].Ok? && ms[i].value.name == p;
      MentionedExactly(objects, t, ms[i].value);
    }
  }

  // ----- types of pools a template fixes -----

  /** Nothing to read annotations from. */
  const NO_OBJECTS := Objects(None, None, None)

  predicate IsGeneric(m: Mention) {
    m.Ok? && !IsMetal3(Defaulted(m.value))
  }

  /** The names of generic pools; annotations never name one. */
  function GenericNames(t: Template): set<string> {
    set m | m in Mentions(NO_OBJECTS, t) && IsGeneric(m) :: m.value.name
  }

  lemma {:induction false} RoutesGeneric(o1: Objects, o2: Objects, annotated: bool, rs: seq<Route>, m: Mention)
    requires m in RoutesMentions(o1, annotated, rs) && IsGeneric(m)
    ensures m in RoutesMentions(o2, annotated, rs)
    decreases |rs|
  {
    if m !in RouteMentions(o1, annotated, rs[0]) {
      RoutesGeneric(o1, o2, annotated, rs[1..], m);
    }
  }

  lemma {:induction false} StaticsGeneric(o1: Objects, o2: Objects, ns: seq<Static>, m: Mention)
    requires m in StaticMentions(o1, ns) && IsGeneric(m)
    ensures m in StaticMentions(o2, ns)
    decreases |ns|
  {
    if m in RoutesMentions(o1, true, ns[0].routes) {
      RoutesGeneric(o1, o2, true, ns[0].routes, m);
    } else if m in StaticMentions(o1, ns[1..]) {
      StaticsGeneric(o1, o2, ns[1..], m);
    }
  }

  lemma {:induction false} DynamicsGeneric(o1: Objects, o2: Objects, ns: seq<Dynamic>, m: Mention)
    requires m in DynamicMentions(o1, ns) && IsGeneric(m)
    ensures m in DynamicMentions(o2, ns)
    decreases |ns|
  {
    if m in RoutesMentions(o1, false, ns[0].routes) {
      RoutesGeneric(o1, o2, false, ns[0].routes, m);
    } else {
      DynamicsGeneric(o1, o2, ns[1..], m);
    }
  }

  lemma NetworksGeneric(o1: Objects, o2: Objects, n: Networks, m: Mention)
    requires m in NetworksMentions(o1, n) && IsGeneric(m)
    ensures m in NetworksMentions(o2, n)
  {
    if m in StaticMentions(o1, n.ipv4) {
      StaticsGeneric(o1, o2, n.ipv4, m);
    } else if m in StaticMentions(o1, n.ipv6) {
      StaticsGeneric(o1, o2, n.ipv6, m);
    } else if m in DynamicMentions(o1, n.ipv4Dhcp) {
      DynamicsGeneric(o1, o2, n.ipv4Dhcp, m);
    } else if m in DynamicMentions(o1, n.ipv6Dhcp) {
      DynamicsGeneric(o1, o2, n.ipv6Dhcp, m);
    } else {
      DynamicsGeneric(o1, o2, n.ipv6Slaac, m);
    }
  }

  lemma MentionsGeneric(o1: Objects, o2: Objects, t: Template, m: Mention)
    requires m in Mentions(o1, t) && IsGeneric(m)
    ensures m in Mentions(o2, t)
  {
    if t.network.Some? && t.network.value.networks.Some? && m in NetworksMentions(o1, t.network.value.networks.value) {
      NetworksGeneric(o1, o2, t.network.value.networks.value, m);
    }
  }

  /** Whatever the annotations say, a template that is collected refers to a pool as a
      generic one exactly when its name is among the template's generic names: a pool
      name has one type for as long as the template stays the same. */
  lemma TemplateFixesTypes(objects: Objects, t: Template, p: string)
    requires Collect(map[], Mentions(objects, t)).Ok?
    ensures var refs := Collect(map[], Mentions(objects, t)).value;
            p in refs ==> (!IsMetal3(refs[p]) <==> p in GenericNames(t))
  {
    var ms := Mentions(objects, t);
    CollectExactly(ms);
    var refs := Collect(map[], ms).value;
    if p in refs {
      var i :| 0 <= i < |ms| && ms[i].Ok? && ms[i].value.name == p;
      assert refs[ms[i].value.name] == Defaulted(ms[i].value);
      if IsGeneric(ms[i]) {
        MentionsGeneric(objects, NO_OBJECTS, t, ms[i]);
      }
      if p in GenericNames(t) {
        var m :| m in Mentions(NO_OBJECTS, t) && IsGeneric(m) && m.value.name == p;
        MentionsGeneric(NO_OBJECTS, objects, t, m);
        var j :| 0 <= j < |ms| && ms[j] == m;
        assert refs[ms[j].value.name] == Defaulted(ms[j].value);
      }
    }
  }

  /** A template with one network that takes its address from this pool. */
  function OnePool(ref: PoolRef): Template {
    Template(None, Some(NetworkData(Some(Networks([Static("net", "eth0", NO_ANNOTATION, ref, "", [])], [], [], [], [])), None)))
  }

  /** One template cannot name a pool both ways; two can, one after the other. */
  lemma OneNameTwoTemplates(objects: Objects, pool: string, group: string, kind: string)
    requires pool != "" && group != "" && kind != "" && (group != POOL_GROUP || kind != POOL_KIND)
    ensures var other := PoolRef(pool, group, kind);
            && Collect(map[], Mentions(objects, OnePool(Metal3Pool(pool)))) == Ok(map[pool := Metal3Pool(pool)])
            && Collect(map[], Mentions(objects, OnePool(other))) == Ok(map[pool := other])
            && Collect(map[], [Ok(Metal3Pool(pool)), Ok(other)]) == Err(DifferentTypes)
  {
    OnePoolMentions(objects, Metal3Pool(pool));
    OnePoolMentions(objects, PoolRef(pool, group, kind));
  }

  lemma OnePoolMentions(objects: Objects, ref: PoolRef)
    requires ref.name != ""
    ensures Mentions(objects, OnePool(ref)) == [Ok(ref)]
    ensures Collect(map[], [Ok(ref)]) == Ok(map[ref.name := Defaulted(ref)])
  {
    var n := OnePool(ref).network.value.networks.value;
    assert RoutesMentions(objects, true, []) == [] && StaticMentions(objects, []) == [];
    assert n.ipv4[1..] == [];
    assert StaticMentions(objects, n.ipv4) == [Ok(ref)];
    assert Collect(map[], [Ok(ref)]) == Collect(map[ref.name := Defaulted(ref)], []);
  }

  // ----- the traversal itself -----

  /** The pools found so far. */
  class PoolRefs {
    var refs: Refs

    constructor ()
      ensures refs == map[]
    {
      refs := map[];
    }

    ghost predicate Result(before: Refs, ms: seq<Mention>, err: Option<Error>)
      reads this
    {
      Collect(before, ms) == if err.None? then Ok(refs) else Err(err.value)
    }

    method AddRef(ref: PoolRef) returns (err: Option<Error>)
      modifies this
      ensures Result(old(refs), [Ok(ref)], err)
      ensures var group := if ref.group == "" then "ipam.metal3.io" else ref.group;
              var kind := if ref.kind == "" then "IPPool" else ref.kind;
              && (err.Some? <==> ref.name in old(refs) && (old(refs)[ref.name].group != group || old(refs)[ref.name].kind != kind))
              && refs == if ref.name in old(refs) then old(refs) else old(refs)[ref.name := PoolRef(ref.name, group, kind)]
    {
      var r := ref;
      if r.group == "" {
        r := r.(group := POOL_GROUP);
      }
      if r.kind == "" {
        r := r.(kind := POOL_KIND);
      }
      assert r == Defaulted(ref);
      if r.name !in refs {
        refs := refs[r.name := r];
        return None;
      }
      if refs[r.name].group != r.group || refs[r.name].kind != r.kind {
        return Some(DifferentTypes);
      }
      err := None;
    }

    method AddFromPools(es: seq<FromPool>) returns (err: Option<Error>)
      modifies this
      ensures Result(old(refs), FromPoolMentions(es), err)
    {
      ghost var ms := FromPoolMentions(es);
      for i := 0 to |es|
        invariant Collect(old(refs), ms) == Collect(refs, ms[i..])
      {
        ghost var before := refs;
        assert ms[i..] == [ms[i]] + ms[i + 1..];
        CollectAppend(before, [ms[i]], ms[i + 1..]);
        err := AddRef(Metal3Pool(es[i].name));
        if err.Some? {
          return;
        }
      }
      err := None;
    }

    method AddName(name: string) returns (err: Option<Error>)
      modifies this
      ensures Result(old(refs), ByName(name), err)
    {
      if name == "" {
        return None;
      }
      err := AddRef(PoolRef(name, "", ""));
    }

    method AddFromAnnotation(objects: Objects, a: Annotation) returns (err: Option<Error>)
      modifies this
      ensures Result(old(refs), Annotated(objects, a), err)
    {
      if a == NO_ANNOTATION {
        return None;
      }
      var v := Value(objects, a);
      if v.Err? {
        return Some(v.error);
      }
      if v.value == "" {
        return Some(EmptyAnnotation);
      }
      err := AddRef(Metal3Pool(v.value));
    }

    method AddNamed(ref: PoolRef, name: string) returns (err: Option<Error>)
      modifies this
      ensures Result(old(refs), Named(ref, name), err)
    {
      if ref.name != "" {
        err := AddRef(ref);
      } else {
        err := AddName(name);
      }
    }

    method AddRoute(objects: Objects, annotated: bool, r: Route) returns (err: Option<Error>)
      modifies this
      ensures Result(old(refs), RouteMentions(objects, annotated, r), err)
    {
      ghost var start := refs;
      ghost var a := if annotated then Annotated(objects, r.gateway.annotation) else [];
      ghost var b := Named(r.gateway.ref, r.gateway.pool);
      CollectAppend(start, a + b, ServiceMentions(r.services));
      CollectAppend(start, a, b);
      err := None;
      if annotated {
        err := AddFromAnnotation(objects, r.gateway.annotation);
      }
      if err.Some? {
        return;
      }
      err := AddNamed(r.gateway.ref, r.gateway.pool);
      if err.Some? {
        return;
      }
      if r.services.Some? {
        err := AddName(r.services.value.pool);
      }
    }

    method AddRoutes(objects: Objects, annotated: bool, rs: seq<Route>) returns (err: Option<Error>)
      modifies this
      ensures Result(old(refs), RoutesMentions(objects, annotated, rs), err)
    {
      for i := 0 to |rs|
        invariant Collect(old(refs), RoutesMentions(objects, annotated, rs)) ==
                  Collect(refs, RoutesMentions(objects, annotated, rs[i..]))
      {
        assert rs[i..][1..] == rs[i + 1..];
        CollectAppend(refs, RouteMentions(objects, annotated, rs[i]), RoutesMentions(objects, annotated, rs[i + 1..]));
        err := AddRoute(objects, annotated, rs[i]);
        if err.Some? {
          return;
        }
      }
      err := None;
    }

    method AddStatic(objects: Objects, n: Static) returns (err: Option<Error>)
      modifies this
      ensures Result(old(refs), Annotated(objects, n.annotation) + Named(n.ref, n.pool) + RoutesMentions(objects, true, n.routes), err)
    {
      ghost var a, b := Annotated(objects, n.annotation), Named(n.ref, n.pool);
      CollectAppend(refs, a + b, RoutesMentions(objects, true, n.routes));
      CollectAppend(refs, a, b);
      err := AddFromAnnotation(objects, n.annotation);
      if err.Some? {
        return;
      }
      err := AddNamed(n.ref, n.pool);
      if err.Some? {
        return;
      }
      err := AddRoutes(objects, true, n.routes);
    }

    method AddStatics(objects: Objects, ns: seq<Static>) returns (err: Option<Error>)
      modifies this
      ensures Result(old(refs), StaticMentions(objects, ns), err)
    {
      for i := 0 to |ns|
        invariant Collect(old(refs), StaticMentions(objects, ns)) == Collect(refs, StaticMentions(objects, ns[i..]))
      {
        assert ns[i..][1..] == ns[i + 1..];
        ghost var here := Annotated(objects, ns[i].annotation) + Named(ns[i].ref, ns[i].pool) + RoutesMentions(objects, true, ns[i].routes);
        CollectAppend(refs, here, StaticMentions(objects, ns[i + 1..]));
        err := AddStatic(objects, ns[i]);
        if err.Some? {
          return;
        }
      }
      err := None;
    }

    method AddDynamics(objects: Objects, ns: seq<Dynamic>) returns (err: Option<Error>)
      modifies this
      ensures Result(old(refs), DynamicMentions(objects, ns), err)
    {
      for i := 0 to |ns|
        invariant Collect(old(refs), DynamicMentions(objects, ns)) == Collect(refs, DynamicMentions(objects, ns[i..]))
      {
        assert ns[i..][1..] == ns[i + 1..];
        CollectAppend(refs, RoutesMentions(objects, false, ns[i].routes), DynamicMentions(objects, ns[i + 1..]));
        err := AddRoutes(objects, false, ns[i].routes);
        if err.Some? {
          return;
        }
      }
      err := None;
    }

    method AddDynamicNetworks(objects: Objects, n: Networks) returns (err: Option<Error>)
      modifies this
      ensures Result(old(refs), DynamicNetworksMentions(objects, n), err)
    {
      ghost var a, b := DynamicMentions(objects, n.ipv4Dhcp), DynamicMentions(objects, n.ipv6Dhcp);
      CollectAppend(refs, a + b, DynamicMentions(objects, n.ipv6Slaac));
      CollectAppend(refs, a, b);
      err := AddDynamics(objects, n.ipv4Dhcp);
      if err.Some? {
        return;
      }
      err := AddDynamics(objects, n.ipv6Dhcp);
      if err.Some? {
        return;
      }
      err := AddDynamics(objects, n.ipv6Slaac);
    }

    method AddNetworks(objects: Objects, n: Networks) returns (err: Option<Error>)
      modifies this
      ensures Result(old(refs), NetworksMentions(objects, n), err)
    {
      ghost var a, b := StaticMentions(objects, n.ipv4), StaticMentions(objects, n.ipv6);
      CollectAppend(refs, a + b, DynamicNetworksMentions(objects, n));
      CollectAppend(refs, a, b);
      err := AddStatics(objects, n.ipv4);
      if err.Some? {
        return;
      }
      err := AddStatics(objects, n.ipv6);
      if err.Some? {
        return;
      }
      err := AddDynamicNetworks(objects, n);
    }

    method AddNetwork(objects: Objects, n: NetworkData) returns (err: Option<Error>)
      modifies this
      ensures Result(old(refs), NetworkMentions(objects, n), err)
    {
      ghost var a := if n.networks.None? then [] else NetworksMentions(objects, n.networks.value);
      CollectAppend(refs, a, ServiceMentions(n.services));
      err := None;
      if n.networks.Some? {
        err := AddNetworks(objects, n.networks.value);
      }
      if err.Some? {
        return;
      }
      if n.services.Some? {
        err := AddName(n.services.value.pool);
      }
    }

    method AddMeta(m: MetaData) returns (err: Option<Error>)
      modifies this
      ensures Result(old(refs), MetaMentions(m), err)
    {
      ghost var a, b, c := FromPoolMentions(m.addresses), FromPoolMentions(m.prefixes), FromPoolMentions(m.gateways);
      CollectAppend(refs, a + b + c, FromPoolMentions(m.dns));
      CollectAppend(refs, a + b, c);
      CollectAppend(refs, a, b);
      err := AddFromPools(m.addresses);
      if err.Some? {
        return;
      }
      err := AddFromPools(m.prefixes);
      if err.Some? {
        return;
      }
      err := AddFromPools(m.gateways);
      if err.Some? {
        return;
      }
      err := AddFromPools(m.dns);
    }
  }

  method GetReferencedPools(objects: Objects, t: Template) returns (r: Result<Refs, Error>)
    ensures r == Collect(map[], Mentions(objects, t))
    ensures r.Ok? ==> RefsAre(objects, t, r.value)
  {
    r := CollectPools(objects, t);
    if r.Ok? {
      CollectedAreMentioned(objects, t);
    }
  }

  method CollectPools(objects: Objects, t: Template) returns (r: Result<Refs, Error>)
    ensures r == Collect(map[], Mentions(objects, t))
  {
    var pools := new PoolRefs();
    ghost var a := if t.meta.None? then [] else MetaMentions(t.meta.value);
    ghost var b := if t.network.None? then [] else NetworkMentions(objects, t.network.value);
    CollectAppend(map[], a, b);
    var err: Option<Error> := None;
    if t.meta.Some? {
      err := pools.AddMeta(t.meta.value);
    }
    if err.Some? {
      return Err(err.value);
    }
    if t.network.Some? {
      err := pools.AddNetwork(objects, t.network.value);
    }
    r := if err.Some? then Err(err.value) else Ok(pools.refs);
  }
}
