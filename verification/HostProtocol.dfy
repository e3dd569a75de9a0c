/** Any number of Metal3Machines competing for any number of BareMetalHosts.

    Associate lists the hosts and patches one of them under a mutex; Update and
    Delete read and patch without it, but each machine runs one reconcile at a time.
    Every read and every write is a separate event, a reconcile may stop after any of
    them, and a machine may be read from a cache that has not seen its host annotation
    or its deletion mark yet (it never unsees a deletion). Users and the bare metal
    operator change hosts at any time, except for the fields of `Core`. Hosts are not
    removed, machine names are not used again, and a machine's selector and spec are
    fixed. */
module HostProtocol {
  import opened Wrappers
  import opened HostModel
  import opened HostChoice

  datatype Config = Config(spec: string -> MachineSpec, selects: (string, string) -> bool,
                           namespace: string, fastTrack: bool)

  /** A stored Metal3Machine, and whether a reconcile has seen its deletion mark. */
  datatype Machine = Machine(deleting: bool, annotation: Option<string>, sawDeleting: bool)

  /** The reconcile in flight: the host it works on and the copy it read. A Delete
      that is about to drop the machine remembers whether it had found a host. */
  datatype Thread =
    | Associating(host: string, copy: Host)
    | Storing(host: string)
    | Updating(host: string, copy: Host)
    | Releasing(host: string, copy: Host)
    | Finishing(found: bool)

  datatype State = State(hosts: map<string, Host>, machines: map<string, Machine>, created: set<string>,
                         threads: map<string, Thread>, mutex: Option<string>)

  datatype Event =
    | CreateMachine(m: string)
    | MarkDeleting(m: string)
    | AddHost(h: string, host: Host)
    | HostDrifts(h: string, extra: Extra, status: Status)
    | BeginAssociate(m: string, listing: seq<string>, groups: seq<Option<string>>, domain: Domain, choice: Choice)
    | AssociatePatch(m: string, data: MachineData)
    | StoreAnnotation(m: string)
    | BeginUpdate(m: string)
    | UpdatePatch(m: string, data: MachineData)
    | BeginDelete(m: string, seesAnnotation: bool)
    | DeletePatch(m: string, data: MachineData, reuse: Reuse)
    | FinishDelete(m: string)
    | Abort(m: string)
    | Crash

  // ----- the steps -----

  /** What a List restricted to the machine's selector returns, in some order. */
  ghost predicate Lists(cfg: Config, hosts: map<string, Host>, m: string, listing: seq<string>) {
    && (forall i :: 0 <= i < |listing| ==> listing[i] in hosts && cfg.selects(m, listing[i]))
    && (forall h :: h in hosts && cfg.selects(m, h) ==> h in listing)
  }

  function Items(hosts: map<string, Host>, listing: seq<string>): seq<Host>
    requires forall i :: 0 <= i < |listing| ==> listing[i] in hosts
  {
    seq(|listing|, i requires 0 <= i < |listing| => hosts[listing[i]])
  }

  /** Each lookup of the machine's group either fails or finds it. */
  predicate GroupsOf(spec: MachineSpec, groups: seq<Option<string>>) {
    forall i :: 0 <= i < |groups| ==> groups[i].None? || groups[i] == spec.group
  }

  ghost predicate MayBegin(cfg: Config, s: State, m: string, listing: seq<string>, groups: seq<Option<string>>,
                           d: Domain, c: Choice) {
    && m in s.machines && m !in s.threads && s.mutex.None? && !s.machines[m].sawDeleting
    && Lists(cfg, s.hosts, m, listing) && |groups| == |listing| && GroupsOf(cfg.spec(m), groups)
    && c.Chosen? && Allowed(Items(s.hosts, listing), groups, m, d, c)
  }

  function Done(s: State, m: string): State {
    s.(threads := s.threads - {m}, mutex := if s.mutex == Some(m) then None else s.mutex)
  }

  /** Sends the patch and moves the reconcile on to `next`, or ends it. */
  function Write(s: State, m: string, h: string, copy: Host, after: Host, next: Option<Thread>): State {
    if h !in s.hosts then Done(s, m)
    else
      var s' := Done(s, m).(hosts := s.hosts[h := Patched(s.hosts[h], copy, after)]);
      if next.None? then s' else s'.(threads := s'.threads[m := next.value])
  }

  predicate ReuseOf(spec: MachineSpec, r: Reuse) {
    r.KeepFor? ==> spec.group == Some(r.group)
  }

  function DeleteStep(cfg: Config, s: State, m: string, d: MachineData, r: Reuse): State
    requires m in s.threads && s.threads[m].Releasing?
  {
    var Releasing(h, copy) := s.threads[m];
    var clean := Deprovision(copy, d, cfg.fastTrack);
    if clean != copy then Write(s, m, h, copy, clean, None)
    else if MustWait(copy.status) || !ReuseOf(cfg.spec(m), r) then Done(s, m)
    else Write(s, m, h, copy, LetGo(copy, cfg.spec(m), r), Some(Finishing(true)))
  }

  /** The host a Delete reconcile finds through the annotation it sees. */
  function DeleteTarget(s: State, m: string, sees: bool): Option<string>
    requires m in s.machines
  {
    var a := s.machines[m].annotation;
    if sees && a.Some? && a.value in s.hosts && ConsumedBy(s.hosts[a.value].core, m) then a else None
  }

  /** An event that is not possible in the state leaves it as it is. */
  ghost function Step(cfg: Config, s: State, e: Event): State {
    match e
    case CreateMachine(m) =>
      if m in s.created then s
      else s.(machines := s.machines[m := Machine(false, None, false)], created := s.created + {m})
    case MarkDeleting(m) =>
      if m !in s.machines then s else s.(machines := s.machines[m := s.machines[m].(deleting := true)])
    case AddHost(h, host) =>
      if h in s.hosts || MachineConsumed(host.core) || host.core.image.Some? || host.core.deploy.Some? then s
      else s.(hosts := s.hosts[h := host])
    case HostDrifts(h, extra, status) =>
      if h !in s.hosts then s else s.(hosts := s.hosts[h := Host(s.hosts[h].core, extra, status)])
    case BeginAssociate(m, listing, groups, d, c) =>
      if !MayBegin(cfg, s, m, listing, groups, d, c) then s
      else
        var h := listing[c.index];
        s.(threads := s.threads[m := Associating(h, s.hosts[h])], mutex := Some(m))
    case AssociatePatch(m, d) =>
      if m !in s.threads || !s.threads[m].Associating? then s
      else
        var Associating(h, copy) := s.threads[m];
        var after := Associated(copy, m, cfg.spec(m), d, cfg.namespace);
        if after.Err? then Done(s, m) else Write(s, m, h, copy, after.value, Some(Storing(h)))
    case StoreAnnotation(m) =>
      if m !in s.threads || !s.threads[m].Storing? || m !in s.machines then s
      else Done(s, m).(machines := s.machines[m := s.machines[m].(annotation := Some(s.threads[m].host))])
    case BeginUpdate(m) =>
      if m !in s.machines || m in s.threads || s.machines[m].sawDeleting || s.machines[m].annotation.None? then s
      else
        var h := s.machines[m].annotation.value;
        if h !in s.hosts then s else s.(threads := s.threads[m := Updating(h, s.hosts[h])])
    case UpdatePatch(m, d) =>
      if m !in s.threads || !s.threads[m].Updating? then s
      else
        var Updating(h, copy) := s.threads[m];
        var after := Updated(copy, m, cfg.spec(m), d, cfg.namespace);
        if after.Err? then Done(s, m) else Write(s, m, h, copy, after.value, None)
    case BeginDelete(m, sees) =>
      if m !in s.machines || m in s.threads || !s.machines[m].deleting then s
      else
        var h := DeleteTarget(s, m, sees);
        s.(machines := s.machines[m := s.machines[m].(sawDeleting := true)],
           threads := s.threads[m := if h.None? then Finishing(false) else Releasing(h.value, s.hosts[h.value])])
    case DeletePatch(m, d, r) =>
      if m !in s.threads || !s.threads[m].Releasing? then s else DeleteStep(cfg, s, m, d, r)
    case FinishDelete(m) =>
      if m !in s.threads || !s.threads[m].Finishing? then s else Done(s, m).(machines := s.machines - {m})
    case Abort(m) => Done(s, m)
    case Crash => s.(threads := map[], mutex := None)
  }

  ghost function Run(cfg: Config, s: State, es: seq<Event>): State {
    if es == [] then s else Step(cfg, Run(cfg, s, es[..|es| - 1]), es[|es| - 1])
  }

  /** No machines yet; hosts may be labelled or used by something else, but none is
      provisioned and none is consumed by a machine. */
  ghost predicate Initial(s: State) {
    && s.machines == map[] && s.created == {} && s.threads == map[] && s.mutex.None?
    && forall h :: h in s.hosts ==>
         !MachineConsumed(s.hosts[h].core) && s.hosts[h].core.image.None? && s.hosts[h].core.deploy.None?
  }

  // ----- what every reachable state satisfies -----

  /** Reuse labels and machine consumers exclude each other, and a provisioned host
      is provisioned as its consumer's spec says. */
  predicate HostOk(cfg: Config, created: set<string>, h: string, c: Core) {
    && (c.reuse.Some? ==> !MachineConsumed(c))
    && (MachineConsumed(c) ==> c.consumer.value.machine in created && cfg.selects(c.consumer.value.machine, h))
    && (c.image.Some? || c.deploy.Some? ==>
          && MachineConsumed(c)
          && c.image == cfg.spec(c.consumer.value.machine).image
          && c.deploy == cfg.spec(c.consumer.value.machine).deploy)
  }

  ghost predicate NoHostOf(hosts: map<string, Host>, m: string) {
    forall h :: h in hosts ==> !ConsumedBy(hosts[h].core, m)
  }

  ghost predicate OneHostEach(hosts: map<string, Host>) {
    forall h1, h2 :: h1 in hosts && h2 in hosts && MachineConsumed(hosts[h1].core) ==>
      (hosts[h1].core.consumer == hosts[h2].core.consumer ==> h1 == h2)
  }

  /** An annotated machine consumes no other host, and until its deletion is noticed
      it does consume that one. */
  ghost predicate MachineOk(s: State, m: string)
    requires m in s.machines
  {
    && m in s.created
    && (s.machines[m].annotation.Some? ==>
          forall h :: h in s.hosts && ConsumedBy(s.hosts[h].core, m) ==> h == s.machines[m].annotation.value)
    && (s.machines[m].annotation.Some? && !s.machines[m].sawDeleting ==>
          s.machines[m].annotation.value in s.hosts && ConsumedBy(s.hosts[s.machines[m].annotation.value].core, m))
  }

  predicate MayTake(spec: MachineSpec, c: Core) {
    !MachineConsumed(c) && if c.reuse.None? then c.consumer.None? else c.reuse == spec.group
  }

  /** Nobody else writes the host a reconcile works on. */
  ghost predicate ThreadOk(cfg: Config, s: State, m: string)
    requires m in s.threads
  {
    && m in s.machines
    && match s.threads[m]
       case Associating(h, copy) =>
         && s.mutex == Some(m) && !s.machines[m].sawDeleting
         && h in s.hosts && s.hosts[h].core == copy.core && cfg.selects(m, h)
         && (ConsumedBy(copy.core, m) || (MayTake(cfg.spec(m), copy.core) && NoHostOf(s.hosts, m)))
       case Storing(h) =>
         !s.machines[m].sawDeleting && h in s.hosts && ConsumedBy(s.hosts[h].core, m)
       case Updating(h, copy) =>
         && !s.machines[m].sawDeleting && h in s.hosts && s.hosts[h].core == copy.core && ConsumedBy(copy.core, m)
       case Releasing(h, copy) =>
         && s.machines[m].sawDeleting && h in s.hosts && s.hosts[h].core == copy.core && ConsumedBy(copy.core, m)
       case Finishing(found) => s.machines[m].sawDeleting && (found ==> NoHostOf(s.hosts, m))
  }

  ghost predicate Inv(cfg: Config, s: State) {
    && (forall h :: h in s.hosts ==> HostOk(cfg, s.created, h, s.hosts[h].core))
    && OneHostEach(s.hosts)
    && (forall m :: m in s.machines ==> MachineOk(s, m))
    && (forall m :: m in s.threads ==> ThreadOk(cfg, s, m))
    && (s.mutex.Some? ==> s.mutex.value in s.threads && s.threads[s.mutex.value].Associating?)
  }
}
