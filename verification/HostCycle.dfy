/** A whole life of a host in the association protocol: taken, provisioned, cleaned,
    kept for its group and taken again by another machine of the group. */
module HostCycle {
  import opened Wrappers
  import opened HostModel
  import opened HostChoice
  import opened HostProtocol
  import opened HostTheorems

  /** One host, one machine, and the machine's reconcile, if one is in flight. */
  ghost predicate Scene(s: State, h: string, host: Host, m: string, machine: Machine, t: Option<Thread>) {
    && s.hosts == map[h := host] && s.machines == map[m := machine]
    && s.threads == (if t.None? then map[] else map[m := t.value])
    && s.mutex == (if t.Some? && t.value.Associating? then Some(m) else None)
  }

  /** A patch computed from the current host writes just what was made of it. */
  lemma PatchedCurrent(host: Host, after: Host)
    requires after.status == host.status
    ensures Patched(host, host, after) == after
  {
  }

  lemma Claims(cfg: Config, s: State, h: string, host: Host, m: string, machine: Machine, d: MachineData)
    requires Scene(s, h, host, m, machine, Some(Associating(h, host)))
    requires Associated(host, m, cfg.spec(m), d, cfg.namespace).Ok?
    ensures Scene(Step(cfg, s, AssociatePatch(m, d)), h, Associated(host, m, cfg.spec(m), d, cfg.namespace).value, m, machine,
                  Some(Storing(h)))
  {
    PatchedCurrent(host, Associated(host, m, cfg.spec(m), d, cfg.namespace).value);
  }

  lemma Stores(cfg: Config, s: State, h: string, host: Host, m: string, machine: Machine)
    requires Scene(s, h, host, m, machine, Some(Storing(h)))
    ensures Scene(Step(cfg, s, StoreAnnotation(m)), h, host, m, machine.(annotation := Some(h)), None)
  {
  }

  lemma Updates(cfg: Config, s: State, h: string, host: Host, m: string, machine: Machine, d: MachineData)
    requires Scene(s, h, host, m, machine, None) && machine.annotation == Some(h) && !machine.sawDeleting
    requires Updated(host, m, cfg.spec(m), d, cfg.namespace).Ok?
    ensures Scene(Step(cfg, Step(cfg, s, BeginUpdate(m)), UpdatePatch(m, d)), h,
                  Updated(host, m, cfg.spec(m), d, cfg.namespace).value, m, machine, None)
  {
    assert Scene(Step(cfg, s, BeginUpdate(m)), h, host, m, machine, Some(Updating(h, host)));
    PatchedCurrent(host, Updated(host, m, cfg.spec(m), d, cfg.namespace).value);
  }

  lemma BeginsDelete(cfg: Config, s: State, h: string, host: Host, m: string, machine: Machine)
    requires Scene(s, h, host, m, machine, None) && machine.annotation == Some(h) && machine.deleting && ConsumedBy(host.core, m)
    ensures Scene(Step(cfg, s, BeginDelete(m, true)), h, host, m, machine.(sawDeleting := true), Some(Releasing(h, host)))
  {
  }

  lemma Cleans(cfg: Config, s: State, h: string, host: Host, m: string, machine: Machine, d: MachineData, r: Reuse)
    requires Scene(s, h, host, m, machine, Some(Releasing(h, host))) && Deprovision(host, d, cfg.fastTrack) != host
    ensures Scene(Step(cfg, s, DeletePatch(m, d, r)), h, Deprovision(host, d, cfg.fastTrack), m, machine, None)
  {
    PatchedCurrent(host, Deprovision(host, d, cfg.fastTrack));
  }

  lemma Frees(cfg: Config, s: State, h: string, host: Host, m: string, machine: Machine, d: MachineData, r: Reuse)
    requires Scene(s, h, host, m, machine, Some(Releasing(h, host))) && Deprovision(host, d, cfg.fastTrack) == host
    requires !MustWait(host.status) && ReuseOf(cfg.spec(m), r)
    ensures Scene(Step(cfg, s, DeletePatch(m, d, r)), h, LetGo(host, cfg.spec(m), r), m, machine, Some(Finishing(true)))
  {
    PatchedCurrent(host, LetGo(host, cfg.spec(m), r));
  }

  lemma Finishes(cfg: Config, s: State, h: string, host: Host, m: string, machine: Machine)
    requires Scene(s, h, host, m, machine, Some(Finishing(true)))
    ensures var s' := Step(cfg, s, FinishDelete(m));
            s'.hosts == map[h := host] && s'.machines == map[] && s'.threads == map[] && s'.mutex.None?
  {
  }

  lemma Drifts(cfg: Config, s: State, h: string, host: Host, m: string, machine: Machine, extra: Extra, status: Status)
    requires Scene(s, h, host, m, machine, None)
    ensures Scene(Step(cfg, s, HostDrifts(h, extra, status)), h, Host(host.core, extra, status), m, machine, None)
  {
  }

  lemma Marks(cfg: Config, s: State, h: string, host: Host, m: string, machine: Machine)
    requires Scene(s, h, host, m, machine, None)
    ensures Scene(Step(cfg, s, MarkDeleting(m)), h, host, m, machine.(deleting := true), None)
  {
  }

  /** A new machine begins to associate with the only host there is, through `via`. */
  lemma Arrives(cfg: Config, s: State, h: string, host: Host, m: string, group: Option<string>, via: bool)
    requires s.hosts == map[h := host] && s.machines == map[] && s.threads == map[] && s.mutex.None? && m !in s.created
    requires cfg.selects(m, h) && (group.None? || group == cfg.spec(m).group) && IsAvailable(host) && !ConsumedBy(host.core, m)
    requires if via then ReuseCandidate(host, group) else FreshCandidate(host)
    ensures var e := BeginAssociate(m, [h], [group], NoDomain, Chosen(0, via));
            Scene(Step(cfg, Step(cfg, s, CreateMachine(m)), e), h, host, m, Machine(false, None, false), Some(Associating(h, host)))
  {
    var c := Step(cfg, s, CreateMachine(m));
    assert c == s.(machines := map[m := Machine(false, None, false)], created := s.created + {m});
    assert Items(c.hosts, [h]) == [host];
    assert [h][0] == h;
    OneAllowed(host, group, m, via);
  }

  // ----- the life -----

  lemma Then(cfg: Config, s0: State, es: seq<Event>, e1: Event, e2: Event) returns (fs: seq<Event>)
    ensures fs == es + [e1] + [e2] && Run(cfg, s0, fs) == Step(cfg, Step(cfg, Run(cfg, s0, es), e1), e2)
  {
    RunAppend(cfg, s0, es, e1);
    RunAppend(cfg, s0, es + [e1], e2);
    fs := es + [e1] + [e2];
  }

  /** Both machines are of group `g`, wait for a data template, and want an image. */
  predicate SameGroup(cfg: Config, h: string, m1: string, m2: string, g: string) {
    && m1 != m2 && g != "" && cfg.selects(m1, h) && cfg.selects(m2, h)
    && cfg.spec(m1).group == Some(g) && cfg.spec(m2).group == Some(g)
    && cfg.spec(m1).dataTemplate && cfg.spec(m2).dataTemplate && cfg.spec(m1).image.Some?
  }

  const KNOWN := MachineData(Some(Secret("user-data", "")), None, None)

  /** The machine takes the host and stores its annotation. */
  lemma TakesHost(cfg: Config, s0: State, h: string, host: Host, m: string) returns (es: seq<Event>, after: Host)
    requires s0.hosts == map[h := host] && s0.machines == map[] && s0.threads == map[] && s0.mutex.None? && m !in s0.created
    requires cfg.selects(m, h) && cfg.spec(m).dataTemplate && FreshCandidate(host)
    ensures Scene(Run(cfg, s0, es), h, after, m, Machine(false, Some(h), false), None)
    ensures after == Associated(host, m, cfg.spec(m), KNOWN, cfg.namespace).value
    ensures forall x :: CreateMachine(x) in es ==> x == m
  {
    assert Run(cfg, s0, []) == s0;
    Arrives(cfg, s0, h, host, m, None, false);
    es := Then(cfg, s0, [], CreateMachine(m), BeginAssociate(m, [h], [None], NoDomain, Chosen(0, false)));
    Claims(cfg, Run(cfg, s0, es), h, host, m, Machine(false, None, false), KNOWN);
    after := Associated(host, m, cfg.spec(m), KNOWN, cfg.namespace).value;
    Stores(cfg, Step(cfg, Run(cfg, s0, es), AssociatePatch(m, KNOWN)), h, after, m, Machine(false, None, false));
    es := Then(cfg, s0, es, AssociatePatch(m, KNOWN), StoreAnnotation(m));
  }

  /** The host is taken and provisioned for the first machine. */
  lemma Provisions(cfg: Config, s0: State, h: string, host: Host, m: string) returns (es: seq<Event>, after: Host)
    requires s0.hosts == map[h := host] && s0.machines == map[] && s0.threads == map[] && s0.mutex.None? && m !in s0.created
    requires cfg.selects(m, h) && cfg.spec(m).dataTemplate && cfg.spec(m).image.Some?
    requires FreshCandidate(host) && host.core.image.None? && host.core.deploy.None? && host.extra.metaData.None? && host.extra.networkData.None?
    ensures Scene(Run(cfg, s0, es), h, after, m, Machine(false, Some(h), false), None)
    ensures after.core == Core(Some(MachineRef(m)), None, cfg.spec(m).image, cfg.spec(m).deploy)
    ensures forall x :: CreateMachine(x) in es ==> x == m
  {
    var taken;
    es, taken := TakesHost(cfg, s0, h, host, m);
    Updates(cfg, Run(cfg, s0, es), h, taken, m, Machine(false, Some(h), false), KNOWN);
    after := Updated(taken, m, cfg.spec(m), KNOWN, cfg.namespace).value;
    es := Then(cfg, s0, es, BeginUpdate(m), UpdatePatch(m, KNOWN));
  }

  /** A host as its operator reports it once it is clean: off or on as it should be,
      available, and not paused. */
  predicate ReadyToGo(cfg: Config, m: string, host: Host) {
    && host.core == Core(Some(MachineRef(m)), None, None, None)
    && Deprovision(host, KNOWN, cfg.fastTrack) == host && host.extra.pause.None?
    && host.status == Status(Available, false, false, false, false, None, false)
  }

  /** The machine is deleted: its first Delete cleans the host, and the operator follows. */
  lemma CleansHost(cfg: Config, s0: State, es: seq<Event>, h: string, host: Host, m: string, machine: Machine)
    returns (fs: seq<Event>, ready: Host)
    requires Scene(Run(cfg, s0, es), h, host, m, machine, None) && machine.annotation == Some(h)
    requires ConsumedBy(host.core, m) && host.core.reuse.None? && host.core.image.Some?
    ensures Scene(Run(cfg, s0, fs), h, ready, m, machine.(deleting := true, sawDeleting := true), None)
    ensures ReadyToGo(cfg, m, ready)
    ensures es <= fs && forall x :: CreateMachine(x) in fs ==> CreateMachine(x) in es
  {
    var marked := machine.(deleting := true);
    Marks(cfg, Run(cfg, s0, es), h, host, m, machine);
    BeginsDelete(cfg, Step(cfg, Run(cfg, s0, es), MarkDeleting(m)), h, host, m, marked);
    fs := Then(cfg, s0, es, MarkDeleting(m), BeginDelete(m, true));
    var saw := marked.(sawDeleting := true);
    var clean := Deprovision(host, KNOWN, cfg.fastTrack);
    assert clean.core.image.None? && host.core.image.Some?;
    Cleans(cfg, Run(cfg, s0, fs), h, host, m, saw, KNOWN, NoReuse);
    var status := Status(Available, false, false, false, false, None, false);
    var extra := clean.extra.(pause := None, userData := None, online := OnlineAfter(Host(clean.core, clean.extra, status), cfg.fastTrack));
    Drifts(cfg, Step(cfg, Run(cfg, s0, fs), DeletePatch(m, KNOWN, NoReuse)), h, clean, m, saw, extra, status);
    fs := Then(cfg, s0, fs, DeletePatch(m, KNOWN, NoReuse), HostDrifts(h, extra, status));
    ready := Host(clean.core, extra, status);
  }

  /** The second Delete keeps the host for the group under the Cluster's name. */
  lemma Releases(cfg: Config, s0: State, es: seq<Event>, h: string, host: Host, m: string, machine: Machine, g: string, cluster: string)
    returns (fs: seq<Event>, after: Host)
    requires Scene(Run(cfg, s0, es), h, host, m, machine, None) && machine == Machine(true, Some(h), true)
    requires ReadyToGo(cfg, m, host) && cfg.spec(m).group == Some(g)
    ensures var s := Run(cfg, s0, fs);
            s.hosts == map[h := after] && s.machines == map[] && s.threads == map[] && s.mutex.None?
    ensures after.core == Core(Some(ClusterRef(cluster)), Some(g), None, None)
    ensures Eligible(after) && IsAvailable(after)
    ensures es <= fs && forall x :: CreateMachine(x) in fs ==> CreateMachine(x) in es
  {
    BeginsDelete(cfg, Run(cfg, s0, es), h, host, m, machine);
    Frees(cfg, Step(cfg, Run(cfg, s0, es), BeginDelete(m, true)), h, host, m, machine, KNOWN, KeepFor(g, cluster));
    fs := Then(cfg, s0, es, BeginDelete(m, true), DeletePatch(m, KNOWN, KeepFor(g, cluster)));
    after := LetGo(host, cfg.spec(m), KeepFor(g, cluster));
    Finishes(cfg, Run(cfg, s0, fs), h, after, m, machine);
    RunAppend(cfg, s0, fs, FinishDelete(m));
    fs := fs + [FinishDelete(m)];
  }

  /** The second machine takes the host. */
  lemma Retakes(cfg: Config, s0: State, es: seq<Event>, h: string, host: Host, m: string, g: string) returns (fs: seq<Event>)
    requires var s := Run(cfg, s0, es);
             s.hosts == map[h := host] && s.machines == map[] && s.threads == map[] && s.mutex.None? && m !in s.created
    requires host.core.reuse == Some(g) && g != "" && !MachineConsumed(host.core) && Eligible(host) && IsAvailable(host)
    requires cfg.selects(m, h) && cfg.spec(m).group == Some(g) && cfg.spec(m).dataTemplate
    ensures es <= fs && h in Run(cfg, s0, fs).hosts
    ensures Run(cfg, s0, fs).hosts[h].core == host.core.(consumer := Some(MachineRef(m)), reuse := None)
  {
    var s := Run(cfg, s0, es);
    Arrives(cfg, s, h, host, m, Some(g), true);
    fs := Then(cfg, s0, es, CreateMachine(m), BeginAssociate(m, [h], [Some(g)], NoDomain, Chosen(0, true)));
    Claims(cfg, Run(cfg, s0, fs), h, host, m, Machine(false, None, false), KNOWN);
    RunAppend(cfg, s0, fs, AssociatePatch(m, KNOWN));
    fs := fs + [AssociatePatch(m, KNOWN)];
  }

  lemma {:induction false} OnlyCreated(cfg: Config, s0: State, es: seq<Event>, m: string)
    requires m !in s0.created && CreateMachine(m) !in es
    ensures m !in Run(cfg, s0, es).created
  {
    if es != [] {
      OnlyCreated(cfg, s0, es[..|es| - 1], m);
      CreatedByStep(cfg, Run(cfg, s0, es[..|es| - 1]), es[|es| - 1], m);
    }
  }

  lemma CreatedByStep(cfg: Config, s: State, e: Event, m: string)
    requires m !in s.created && e != CreateMachine(m)
    ensures m !in Step(cfg, s, e).created
  {
  }

  /** From nothing: the host is provisioned with the first machine's image, later kept for
      the group with nothing on it, and in the end the second machine's. */
  lemma HostLivesOn(cfg: Config, h: string, host: Host, m1: string, m2: string, g: string, cluster: string)
    returns (s0: State, used: seq<Event>, kept: seq<Event>, again: seq<Event>)
    requires SameGroup(cfg, h, m1, m2, g) && FreshCandidate(host) && host.core.image.None? && host.core.deploy.None?
    requires host.extra.metaData.None? && host.extra.networkData.None?
    ensures Initial(s0) && used <= kept <= again
    ensures h in Run(cfg, s0, used).hosts && h in Run(cfg, s0, kept).hosts && h in Run(cfg, s0, again).hosts
    ensures Run(cfg, s0, used).hosts[h].core == Core(Some(MachineRef(m1)), None, cfg.spec(m1).image, cfg.spec(m1).deploy)
    ensures Run(cfg, s0, kept).hosts[h].core == Core(Some(ClusterRef(cluster)), Some(g), None, None)
    ensures Run(cfg, s0, again).hosts[h].core == Core(Some(MachineRef(m2)), None, None, None)
  {
    s0 := State(map[h := host], map[], {}, map[], None);
    var provisioned, ready, free;
    used, provisioned := Provisions(cfg, s0, h, host, m1);
    kept, ready := CleansHost(cfg, s0, used, h, provisioned, m1, Machine(false, Some(h), false));
    kept, free := Releases(cfg, s0, kept, h, ready, m1, Machine(true, Some(h), true), g, cluster);
    OnlyCreated(cfg, s0, kept, m2);
    again := Retakes(cfg, s0, kept, h, free, m2, g);
  }
}
