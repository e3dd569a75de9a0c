/** What every run of the host association protocol keeps. */
module HostSafety {
  import opened Wrappers
  import opened HostModel
  import opened HostChoice
  import opened HostProtocol

  // ----- writing a host -----

  /** The reconcile of `m` works on `h`, and may write `c` there. */
  ghost predicate Writes(cfg: Config, s: State, m: string, h: string, c: Core) {
    && m in s.threads && m in s.machines && h in s.hosts
    && HostOk(cfg, s.created, h, c)
    && (MachineConsumed(c) ==> ConsumedBy(c, m))
    && (!s.machines[m].sawDeleting ==> ConsumedBy(c, m))
    && (ConsumedBy(s.hosts[h].core, m) ||
        (NoHostOf(s.hosts, m) && !MachineConsumed(s.hosts[h].core) && s.mutex == Some(m)))
  }

  predicate NextOk(s: State, m: string, h: string, c: Core, next: Option<Thread>)
    requires m in s.machines
  {
    match next
    case None => true
    case Some(Storing(g)) => g == h && !s.machines[m].sawDeleting
    case Some(Finishing(found)) => s.machines[m].sawDeleting && found && !MachineConsumed(c)
    case Some(_) => false
  }

  lemma WriteOneHost(cfg: Config, s: State, m: string, h: string, host: Host)
    requires Inv(cfg, s) && Writes(cfg, s, m, h, host.core)
    ensures OneHostEach(s.hosts[h := host])
  {
    var hosts := s.hosts[h := host];
    forall h1, h2 | h1 in hosts && h2 in hosts && MachineConsumed(hosts[h1].core)
      ensures hosts[h1].core.consumer == hosts[h2].core.consumer ==> h1 == h2
    {
      if hosts[h1].core.consumer == hosts[h2].core.consumer && h1 != h2 && (h1 == h || h2 == h) {
        var other := if h1 == h then h2 else h1;
        assert ConsumedBy(s.hosts[other].core, m);
      }
    }
  }

  lemma WriteMachine(cfg: Config, s: State, m: string, h: string, host: Host, n: string)
    requires Inv(cfg, s) && Writes(cfg, s, m, h, host.core) && n in s.machines
    ensures MachineOk(s.(hosts := s.hosts[h := host]), n)
  {
    assert MachineOk(s, n);
    assert ThreadOk(cfg, s, m);
  }

  lemma WriteThread(cfg: Config, s: State, m: string, h: string, host: Host, n: string)
    requires Inv(cfg, s) && Writes(cfg, s, m, h, host.core) && n in s.threads && n != m
    ensures ThreadOk(cfg, s.(hosts := s.hosts[h := host]), n)
  {
    assert ThreadOk(cfg, s, n);
  }

  lemma OwnerLetsGo(cfg: Config, s: State, m: string, h: string, host: Host)
    requires Inv(cfg, s) && Writes(cfg, s, m, h, host.core) && !MachineConsumed(host.core)
    ensures NoHostOf(s.hosts[h := host], m)
  {
  }

  /** Ending or moving on one reconcile does not disturb the others. */
  lemma DoneThread(cfg: Config, s: State, m: string, n: string)
    requires n in s.threads && ThreadOk(cfg, s, n) && n != m
    ensures n in Done(s, m).threads && ThreadOk(cfg, Done(s, m), n)
  {
  }

  lemma DoneKeepsInv(cfg: Config, s: State, m: string)
    requires Inv(cfg, s)
    ensures Inv(cfg, Done(s, m))
  {
    var s' := Done(s, m);
    forall n | n in s'.threads
      ensures ThreadOk(cfg, s', n)
    {
      DoneThread(cfg, s, m, n);
    }
    forall n | n in s'.machines
      ensures MachineOk(s', n)
    {
      assert MachineOk(s, n);
    }
  }

  lemma WriteKeepsInv(cfg: Config, s: State, m: string, h: string, copy: Host, after: Host, next: Option<Thread>)
    requires Inv(cfg, s) && Writes(cfg, s, m, h, after.core) && s.hosts[h].core == copy.core && NextOk(s, m, h, after.core, next)
    ensures Write(s, m, h, copy, after, next).hosts[h].core == after.core
    ensures Inv(cfg, Write(s, m, h, copy, after, next))
  {
    var host := Patched(s.hosts[h], copy, after);
    assert host.core == after.core;
    var written := s.(hosts := s.hosts[h := host]);
    var s' := Write(s, m, h, copy, after, next);
    WriteOneHost(cfg, s, m, h, host);
    forall n | n in s'.machines
      ensures MachineOk(s', n)
    {
      WriteMachine(cfg, s, m, h, host, n);
    }
    forall n | n in s'.threads
      ensures ThreadOk(cfg, s', n)
    {
      if n != m {
        WriteThread(cfg, s, m, h, host, n);
        DoneThread(cfg, written, m, n);
      } else if next == Some(Finishing(true)) {
        OwnerLetsGo(cfg, s, m, h, host);
      }
    }
  }

  // ----- the events -----

  /** The machine that begins to associate either takes its own host again, or owns
      none and takes one it may take. */
  lemma ChosenFacts(cfg: Config, s: State, m: string, listing: seq<string>, groups: seq<Option<string>>, d: Domain, c: Choice)
    requires Inv(cfg, s) && MayBegin(cfg, s, m, listing, groups, d, c)
    ensures var h := listing[c.index];
            && h in s.hosts && cfg.selects(m, h)
            && (ConsumedBy(s.hosts[h].core, m) || (MayTake(cfg.spec(m), s.hosts[h].core) && NoHostOf(s.hosts, m)))
  {
    var items := Items(s.hosts, listing);
    var h := listing[c.index];
    assert items[c.index] == s.hosts[h];
    if !AnyOwn(items, m) {
      forall g | g in s.hosts && cfg.selects(m, g)
        ensures !ConsumedBy(s.hosts[g].core, m)
      {
        var i :| 0 <= i < |listing| && listing[i] == g;
        assert items[i] == s.hosts[g];
      }
    }
  }

  lemma BeginAssociateKeepsInv(cfg: Config, s: State, e: Event)
    requires Inv(cfg, s) && e.BeginAssociate?
    ensures Inv(cfg, Step(cfg, s, e))
  {
    var s' := Step(cfg, s, e);
    if MayBegin(cfg, s, e.m, e.listing, e.groups, e.domain, e.choice) {
      ChosenFacts(cfg, s, e.m, e.listing, e.groups, e.domain, e.choice);
      forall n | n in s'.threads
        ensures ThreadOk(cfg, s', n)
      {
        assert n == e.m || ThreadOk(cfg, s, n);
      }
      forall n | n in s'.machines
        ensures MachineOk(s', n)
      {
        assert MachineOk(s, n);
      }
    }
  }

  /** Claiming and provisioning a host the machine may write leaves it in order. */
  lemma ClaimOk(cfg: Config, created: set<string>, m: string, h: string, before: Host, mine: Host, d: MachineData)
    requires HostOk(cfg, created, h, before.core) && m in created && cfg.selects(m, h)
    requires ConsumedBy(before.core, m) || !MachineConsumed(before.core)
    requires mine.core == Claimed(before.core, m)
    ensures HostOk(cfg, created, h, mine.core) && ConsumedBy(mine.core, m)
    ensures var r := Provision(mine, cfg.spec(m), d, cfg.namespace);
            r.Ok? ==> HostOk(cfg, created, h, r.value.core) && ConsumedBy(r.value.core, m)
  {
  }

  lemma AssociatePatchKeepsInv(cfg: Config, s: State, m: string, d: MachineData)
    requires Inv(cfg, s)
    ensures Inv(cfg, Step(cfg, s, AssociatePatch(m, d)))
  {
    if m in s.threads && s.threads[m].Associating? {
      var Associating(h, copy) := s.threads[m];
      assert ThreadOk(cfg, s, m) && MachineOk(s, m);
      var after := Associated(copy, m, cfg.spec(m), d, cfg.namespace);
      if after.Err? {
        DoneKeepsInv(cfg, s, m);
      } else {
        var mine := Host(Claimed(copy.core, m), copy.extra.(clusterLabel := Some(cfg.spec(m).cluster)), copy.status);
        ClaimOk(cfg, s.created, m, h, s.hosts[h], mine, d);
        WriteKeepsInv(cfg, s, m, h, copy, after.value, Some(Storing(h)));
      }
    }
  }

  lemma UpdatePatchKeepsInv(cfg: Config, s: State, m: string, d: MachineData)
    requires Inv(cfg, s)
    ensures Inv(cfg, Step(cfg, s, UpdatePatch(m, d)))
  {
    if m in s.threads && s.threads[m].Updating? {
      var Updating(h, copy) := s.threads[m];
      assert ThreadOk(cfg, s, m) && MachineOk(s, m);
      var after := Updated(copy, m, cfg.spec(m), d, cfg.namespace);
      if after.Err? {
        DoneKeepsInv(cfg, s, m);
      } else {
        ClaimOk(cfg, s.created, m, h, s.hosts[h], copy.(core := Claimed(copy.core, m)), d);
        WriteKeepsInv(cfg, s, m, h, copy, after.value, None);
      }
    }
  }

  lemma DeletePatchKeepsInv(cfg: Config, s: State, m: string, d: MachineData, r: Reuse)
    requires Inv(cfg, s)
    ensures Inv(cfg, Step(cfg, s, DeletePatch(m, d, r)))
  {
    if m in s.threads && s.threads[m].Releasing? {
      var Releasing(h, copy) := s.threads[m];
      assert ThreadOk(cfg, s, m);
      var clean := Deprovision(copy, d, cfg.fastTrack);
      if clean != copy {
        WriteKeepsInv(cfg, s, m, h, copy, clean, None);
      } else if MustWait(copy.status) || !ReuseOf(cfg.spec(m), r) {
        DoneKeepsInv(cfg, s, m);
      } else {
        WriteKeepsInv(cfg, s, m, h, copy, LetGo(copy, cfg.spec(m), r), Some(Finishing(true)));
      }
    }
  }

  lemma StoreAnnotationKeepsInv(cfg: Config, s: State, m: string)
    requires Inv(cfg, s)
    ensures Inv(cfg, Step(cfg, s, StoreAnnotation(m)))
  {
    var s' := Step(cfg, s, StoreAnnotation(m));
    if m in s.threads && s.threads[m].Storing? {
      assert ThreadOk(cfg, s, m);
      forall n | n in s'.threads
        ensures ThreadOk(cfg, s', n)
      {
        DoneThread(cfg, s, m, n);
      }
      forall n | n in s'.machines
        ensures MachineOk(s', n)
      {
        assert MachineOk(s, n);
      }
    }
  }

  /** Beginning an Update: the host read is the machine's own. */
  lemma BeginUpdateKeepsInv(cfg: Config, s: State, m: string)
    requires Inv(cfg, s)
    ensures Inv(cfg, Step(cfg, s, BeginUpdate(m)))
  {
    var s' := Step(cfg, s, BeginUpdate(m));
    forall n | n in s'.machines
      ensures MachineOk(s', n)
    {
      assert MachineOk(s, n);
    }
    forall n | n in s'.threads
      ensures ThreadOk(cfg, s', n)
    {
      if n in s.threads {
        assert ThreadOk(cfg, s, n);
      } else {
        assert MachineOk(s, n);
      }
    }
  }

  lemma BeginDeleteKeepsInv(cfg: Config, s: State, m: string, sees: bool)
    requires Inv(cfg, s)
    ensures Inv(cfg, Step(cfg, s, BeginDelete(m, sees)))
  {
    var s' := Step(cfg, s, BeginDelete(m, sees));
    forall n | n in s'.machines
      ensures MachineOk(s', n)
    {
      assert MachineOk(s, n);
    }
    forall n | n in s'.threads
      ensures ThreadOk(cfg, s', n)
    {
      if n in s.threads {
        assert ThreadOk(cfg, s, n);
      } else {
        assert MachineOk(s, n);
      }
    }
  }

  lemma FinishKeepsInv(cfg: Config, s: State, m: string)
    requires Inv(cfg, s)
    ensures Inv(cfg, Step(cfg, s, FinishDelete(m)))
  {
    var s' := Step(cfg, s, FinishDelete(m));
    if m in s.threads && s.threads[m].Finishing? {
      forall n | n in s'.threads
        ensures ThreadOk(cfg, s', n)
      {
        DoneThread(cfg, s, m, n);
      }
      forall n | n in s'.machines
        ensures MachineOk(s', n)
      {
        assert MachineOk(s, n);
      }
    }
  }

  /** What users, the bare metal operator and a crash do. */
  lemma MachineEventKeepsInv(cfg: Config, s: State, e: Event)
    requires Inv(cfg, s)
    requires e.CreateMachine? || e.MarkDeleting? || e.Crash?
    ensures Inv(cfg, Step(cfg, s, e))
  {
    var s' := Step(cfg, s, e);
    forall n | n in s'.threads
      ensures ThreadOk(cfg, s', n)
    {
      assert ThreadOk(cfg, s, n);
    }
    forall n | n in s'.machines
      ensures MachineOk(s', n)
    {
      assert n in s.machines ==> MachineOk(s, n);
    }
  }

  lemma AddHostKeepsInv(cfg: Config, s: State, h: string, host: Host)
    requires Inv(cfg, s)
    ensures Inv(cfg, Step(cfg, s, AddHost(h, host)))
  {
    var s' := Step(cfg, s, AddHost(h, host));
    forall n | n in s'.threads
      ensures ThreadOk(cfg, s', n)
    {
      assert ThreadOk(cfg, s, n);
    }
    forall n | n in s'.machines
      ensures MachineOk(s', n)
    {
      assert n in s.machines ==> MachineOk(s, n);
    }
  }

  lemma DriftKeepsInv(cfg: Config, s: State, h: string, extra: Extra, status: Status)
    requires Inv(cfg, s)
    ensures Inv(cfg, Step(cfg, s, HostDrifts(h, extra, status)))
  {
    var s' := Step(cfg, s, HostDrifts(h, extra, status));
    forall n | n in s'.threads
      ensures ThreadOk(cfg, s', n)
    {
      assert ThreadOk(cfg, s, n);
    }
    forall n | n in s'.machines
      ensures MachineOk(s', n)
    {
      assert n in s.machines ==> MachineOk(s, n);
    }
  }

  lemma StepKeepsInv(cfg: Config, s: State, e: Event)
    requires Inv(cfg, s)
    ensures Inv(cfg, Step(cfg, s, e))
  {
    match e
    case BeginAssociate(_, _, _, _, _) => BeginAssociateKeepsInv(cfg, s, e);
    case AssociatePatch(m, d) => AssociatePatchKeepsInv(cfg, s, m, d);
    case StoreAnnotation(m) => StoreAnnotationKeepsInv(cfg, s, m);
    case BeginUpdate(m) => BeginUpdateKeepsInv(cfg, s, m);
    case UpdatePatch(m, d) => UpdatePatchKeepsInv(cfg, s, m, d);
    case BeginDelete(m, sees) => BeginDeleteKeepsInv(cfg, s, m, sees);
    case DeletePatch(m, d, r) => DeletePatchKeepsInv(cfg, s, m, d, r);
    case FinishDelete(m) => FinishKeepsInv(cfg, s, m);
    case Abort(m) => DoneKeepsInv(cfg, s, m);
    case AddHost(h, host) => AddHostKeepsInv(cfg, s, h, host);
    case HostDrifts(h, extra, status) => DriftKeepsInv(cfg, s, h, extra, status);
    case _ => MachineEventKeepsInv(cfg, s, e);
  }

  lemma {:induction false} RunKeepsInv(cfg: Config, s: State, es: seq<Event>)
    requires Initial(s)
    ensures Inv(cfg, Run(cfg, s, es))
  {
    if es != [] {
      RunKeepsInv(cfg, s, es[..|es| - 1]);
      StepKeepsInv(cfg, Run(cfg, s, es[..|es| - 1]), es[|es| - 1]);
    }
  }
}
