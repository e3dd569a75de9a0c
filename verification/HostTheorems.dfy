/** Safety of host association over whole runs: who consumes a host, how it is
    provisioned, and to whom it may go next. */
module HostTheorems {
  import opened Wrappers
  import opened HostModel
  import opened HostChoice
  import opened HostProtocol
  import opened HostSafety

  // ----- the life of one host -----

  /** The machine takes a host nobody uses, or one kept for its group. */
  predicate Takes(cfg: Config, m: string, b: Core, a: Core) {
    MayTake(cfg.spec(m), b) && ConsumedBy(a, m) && a.reuse.None?
  }

  /** The machine provisions or deprovisions its own host. */
  predicate WorksOn(m: string, b: Core, a: Core) {
    ConsumedBy(b, m) && ConsumedBy(a, m) && a.reuse.None?
  }

  /** The machine lets go of its own host, on which nothing is provisioned any more. */
  predicate Frees(cfg: Config, m: string, b: Core, a: Core) {
    && ConsumedBy(b, m) && b.image.None? && b.deploy.None?
    && a.image.None? && a.deploy.None? && !MachineConsumed(a)
    && ((a.reuse.None? && a.consumer.None?) || (a.reuse.Some? && a.reuse == cfg.spec(m).group && a.consumer.Some?))
  }

  /** The machine whose reconcile writes a host in this event. */
  function Writer(e: Event): Option<string> {
    match e
    case AssociatePatch(m, _) => Some(m)
    case UpdatePatch(m, _) => Some(m)
    case DeletePatch(m, _, _) => Some(m)
    case _ => None
  }

  /** One event's effect on one host, as its consumers may expect it. */
  predicate Lawful(cfg: Config, s: State, e: Event, b: Core, a: Core) {
    || a == b
    || (&& Writer(e).Some? && Writer(e).value in s.machines
        && var m := Writer(e).value;
           Takes(cfg, m, b, a) || WorksOn(m, b, a) || Frees(cfg, m, b, a))
  }

  /** A patch computed from an unchanged core writes exactly the new core. */
  lemma WriteCore(s: State, m: string, h: string, copy: Host, after: Host, next: Option<Thread>, g: string)
    requires h in s.hosts && s.hosts[h].core == copy.core && g in s.hosts
    ensures g in Write(s, m, h, copy, after, next).hosts
    ensures Write(s, m, h, copy, after, next).hosts[g].core == if g == h then after.core else s.hosts[g].core
  {
  }

  lemma ClaimLawful(cfg: Config, s: State, m: string, d: MachineData, h: string)
    requires Inv(cfg, s) && h in s.hosts
    ensures var s' := Step(cfg, s, AssociatePatch(m, d));
            h in s'.hosts && Lawful(cfg, s, AssociatePatch(m, d), s.hosts[h].core, s'.hosts[h].core)
  {
    if m in s.threads && s.threads[m].Associating? {
      assert ThreadOk(cfg, s, m);
      var Associating(g, copy) := s.threads[m];
      var after := Associated(copy, m, cfg.spec(m), d, cfg.namespace);
      if after.Ok? {
        WriteCore(s, m, g, copy, after.value, Some(Storing(g)), h);
        assert Takes(cfg, m, copy.core, after.value.core) || WorksOn(m, copy.core, after.value.core);
      }
    }
  }

  lemma UpdateLawful(cfg: Config, s: State, m: string, d: MachineData, h: string)
    requires Inv(cfg, s) && h in s.hosts
    ensures var s' := Step(cfg, s, UpdatePatch(m, d));
            h in s'.hosts && Lawful(cfg, s, UpdatePatch(m, d), s.hosts[h].core, s'.hosts[h].core)
  {
    if m in s.threads && s.threads[m].Updating? {
      assert ThreadOk(cfg, s, m);
      var Updating(g, copy) := s.threads[m];
      var after := Updated(copy, m, cfg.spec(m), d, cfg.namespace);
      if after.Ok? {
        WriteCore(s, m, g, copy, after.value, None, h);
        assert WorksOn(m, copy.core, after.value.core);
      }
    }
  }

  lemma DeleteStepLawful(cfg: Config, s: State, m: string, d: MachineData, r: Reuse, h: string)
    requires Inv(cfg, s) && h in s.hosts && m in s.threads && s.threads[m].Releasing?
    ensures var s' := DeleteStep(cfg, s, m, d, r);
            h in s'.hosts && Lawful(cfg, s, DeletePatch(m, d, r), s.hosts[h].core, s'.hosts[h].core)
  {
    assert ThreadOk(cfg, s, m);
    var Releasing(g, copy) := s.threads[m];
    assert HostOk(cfg, s.created, g, copy.core);
    var clean := Deprovision(copy, d, cfg.fastTrack);
    if clean != copy {
      WriteCore(s, m, g, copy, clean, None, h);
      assert WorksOn(m, copy.core, clean.core);
    } else if !MustWait(copy.status) && ReuseOf(cfg.spec(m), r) {
      var free := LetGo(copy, cfg.spec(m), r);
      WriteCore(s, m, g, copy, free, Some(Finishing(true)), h);
      assert copy.core.image == clean.core.image && copy.core.deploy == clean.core.deploy;
      assert Frees(cfg, m, copy.core, free.core);
    }
  }

  lemma OthersWriteNothing(cfg: Config, s: State, e: Event, h: string)
    requires h in s.hosts && Writer(e).None?
    ensures h in Step(cfg, s, e).hosts && Step(cfg, s, e).hosts[h].core == s.hosts[h].core
  {
  }

  lemma StepLawful(cfg: Config, s: State, e: Event, h: string)
    requires Inv(cfg, s) && h in s.hosts
    ensures h in Step(cfg, s, e).hosts && Lawful(cfg, s, e, s.hosts[h].core, Step(cfg, s, e).hosts[h].core)
  {
    match e
    case AssociatePatch(m, d) => ClaimLawful(cfg, s, m, d, h);
    case UpdatePatch(m, d) => UpdateLawful(cfg, s, m, d, h);
    case DeletePatch(m, d, r) =>
      if m in s.threads && s.threads[m].Releasing? {
        DeleteStepLawful(cfg, s, m, d, r, h);
      }
    case _ => OthersWriteNothing(cfg, s, e, h);
  }

  /** In every run and at every event, what happens to a host is lawful. */
  lemma EveryWriteLawful(cfg: Config, s0: State, es: seq<Event>, e: Event, h: string)
    requires Initial(s0) && h in Run(cfg, s0, es).hosts
    ensures Run(cfg, s0, es + [e]) == Step(cfg, Run(cfg, s0, es), e)
    ensures h in Run(cfg, s0, es + [e]).hosts
    ensures Lawful(cfg, Run(cfg, s0, es), e, Run(cfg, s0, es).hosts[h].core, Run(cfg, s0, es + [e]).hosts[h].core)
  {
    RunKeepsInv(cfg, s0, es);
    assert (es + [e])[..|es|] == es;
    StepLawful(cfg, Run(cfg, s0, es), e, h);
  }

  // ----- consumers -----

  /** No event hands a host from one machine to another. */
  lemma NoSteal(cfg: Config, s0: State, es: seq<Event>, e: Event, h: string)
    requires Initial(s0) && h in Run(cfg, s0, es).hosts
    requires MachineConsumed(Run(cfg, s0, es).hosts[h].core)
    ensures h in Run(cfg, s0, es + [e]).hosts
    ensures var c := Run(cfg, s0, es + [e]).hosts[h].core;
            MachineConsumed(c) ==> c.consumer == Run(cfg, s0, es).hosts[h].core.consumer
  {
    EveryWriteLawful(cfg, s0, es, e, h);
  }

  /** Between two different machines a host is given up: while it is always some
      machine's, it is the same machine's. */
  lemma {:induction false} HeldUntilReleased(cfg: Config, s0: State, es: seq<Event>, more: seq<Event>, h: string)
    requires Initial(s0) && h in Run(cfg, s0, es).hosts
    requires forall k :: 0 <= k <= |more| ==>
               h in Run(cfg, s0, es + more[..k]).hosts && MachineConsumed(Run(cfg, s0, es + more[..k]).hosts[h].core)
    ensures h in Run(cfg, s0, es + more).hosts
    ensures Run(cfg, s0, es + more).hosts[h].core.consumer == Run(cfg, s0, es).hosts[h].core.consumer
  {
    if more == [] {
      assert es + more == es;
    } else {
      var n := |more| - 1;
      var less := more[..n];
      forall k | 0 <= k <= |less|
        ensures h in Run(cfg, s0, es + less[..k]).hosts && MachineConsumed(Run(cfg, s0, es + less[..k]).hosts[h].core)
      {
        assert less[..k] == more[..k];
      }
      HeldUntilReleased(cfg, s0, es, less, h);
      assert es + more == es + less + [more[n]];
      assert less == less[..n] && more == more[..n + 1];
      NoSteal(cfg, s0, es + less, more[n], h);
    }
  }

  /** A machine never consumes two hosts, whatever crashed or was read late. */
  lemma OneHostPerMachine(cfg: Config, s0: State, es: seq<Event>, m: string, h1: string, h2: string)
    requires Initial(s0) && h1 in Run(cfg, s0, es).hosts && h2 in Run(cfg, s0, es).hosts
    requires ConsumedBy(Run(cfg, s0, es).hosts[h1].core, m) && ConsumedBy(Run(cfg, s0, es).hosts[h2].core, m)
    ensures h1 == h2
  {
    RunKeepsInv(cfg, s0, es);
  }

  /** Until its deletion has been noticed, a machine with a host annotation consumes
      that host; a host labelled for reuse is never consumed by a machine. */
  lemma AnnotationMeansOwnership(cfg: Config, s0: State, es: seq<Event>, m: string, h: string)
    requires Initial(s0)
    ensures var s := Run(cfg, s0, es);
            m in s.machines && !s.machines[m].sawDeleting && s.machines[m].annotation == Some(h) ==>
              h in s.hosts && ConsumedBy(s.hosts[h].core, m)
    ensures var s := Run(cfg, s0, es);
            h in s.hosts && s.hosts[h].core.reuse.Some? ==> !MachineConsumed(s.hosts[h].core)
  {
    RunKeepsInv(cfg, s0, es);
    var s := Run(cfg, s0, es);
    assert m in s.machines ==> MachineOk(s, m);
  }

  // ----- provisioning -----

  /** Whatever is provisioned on a host is what its consumer's spec asks for. */
  lemma ProvisionedForConsumer(cfg: Config, s0: State, es: seq<Event>, h: string)
    requires Initial(s0) && h in Run(cfg, s0, es).hosts
    ensures var c := Run(cfg, s0, es).hosts[h].core;
            c.image.Some? || c.deploy.Some? ==>
              && MachineConsumed(c)
              && c.image == cfg.spec(c.consumer.value.machine).image
              && c.deploy == cfg.spec(c.consumer.value.machine).deploy
  {
    RunKeepsInv(cfg, s0, es);
  }

  /** The copy a reconcile holds is the host as it was at some earlier moment. */
  ghost predicate WasRead(cfg: Config, s0: State, es: seq<Event>, h: string, copy: Host) {
    exists k :: 0 <= k <= |es| && h in Run(cfg, s0, es[..k]).hosts && Run(cfg, s0, es[..k]).hosts[h] == copy
  }

  lemma WasReadLater(cfg: Config, s0: State, es: seq<Event>, e: Event, h: string, copy: Host)
    requires WasRead(cfg, s0, es, h, copy)
    ensures WasRead(cfg, s0, es + [e], h, copy)
  {
    var k :| 0 <= k <= |es| && h in Run(cfg, s0, es[..k]).hosts && Run(cfg, s0, es[..k]).hosts[h] == copy;
    assert (es + [e])[..k] == es[..k];
  }

  predicate Holds(s: State, m: string, h: string, copy: Host) {
    m in s.threads && s.threads[m] == Releasing(h, copy)
  }

  /** Only the beginning of a Delete puts a copy there, and it is what was stored. */
  lemma CopyAppears(cfg: Config, s: State, e: Event, m: string, h: string, copy: Host)
    requires !Holds(s, m, h, copy) && Holds(Step(cfg, s, e), m, h, copy)
    ensures h in s.hosts && s.hosts[h] == copy
  {
  }

  lemma {:induction false} CopyWasRead(cfg: Config, s0: State, es: seq<Event>, m: string, h: string, copy: Host)
    requires Initial(s0) && Holds(Run(cfg, s0, es), m, h, copy)
    ensures WasRead(cfg, s0, es, h, copy)
  {
    var n := |es| - 1;
    var s := Run(cfg, s0, es[..n]);
    assert es == es[..n] + [es[n]];
    if Holds(s, m, h, copy) {
      CopyWasRead(cfg, s0, es[..n], m, h, copy);
      WasReadLater(cfg, s0, es[..n], es[n], h, copy);
    } else {
      CopyAppears(cfg, s, es[n], m, h, copy);
    }
  }

  /** A host is given up only by its consumer's Delete, with nothing provisioned on it,
      and after it was seen, with nothing provisioned, in a state Delete need not wait
      for. */
  lemma ReleasedOnlyWhenClean(cfg: Config, s0: State, es: seq<Event>, e: Event, h: string)
    requires Initial(s0) && h in Run(cfg, s0, es).hosts && h in Run(cfg, s0, es + [e]).hosts
    requires MachineConsumed(Run(cfg, s0, es).hosts[h].core) && !MachineConsumed(Run(cfg, s0, es + [e]).hosts[h].core)
    ensures e.DeletePatch? && ConsumedBy(Run(cfg, s0, es).hosts[h].core, e.m)
    ensures Run(cfg, s0, es).hosts[h].core.image.None? && Run(cfg, s0, es).hosts[h].core.deploy.None?
    ensures exists copy :: WasRead(cfg, s0, es, h, copy) && copy.core == Run(cfg, s0, es).hosts[h].core
                           && match copy.status.state
                              case StateNone | Unmanaged | Registering | MatchProfile | Inspecting | Ready | Available => true
                              case ExternallyProvisioned => !copy.status.poweredOn
                              case _ => false
  {
    var s := Run(cfg, s0, es);
    EveryWriteLawful(cfg, s0, es, e, h);
    RunKeepsInv(cfg, s0, es);
    ReleaseEvent(cfg, s, e, h);
    var copy := s.threads[e.m].copy;
    CopyWasRead(cfg, s0, es, e.m, h, copy);
  }

  lemma ReleaseEvent(cfg: Config, s: State, e: Event, h: string)
    requires Inv(cfg, s) && h in s.hosts && h in Step(cfg, s, e).hosts
    requires MachineConsumed(s.hosts[h].core) && !MachineConsumed(Step(cfg, s, e).hosts[h].core)
    requires Lawful(cfg, s, e, s.hosts[h].core, Step(cfg, s, e).hosts[h].core)
    ensures e.DeletePatch? && e.m in s.threads && s.threads[e.m].Releasing? && s.threads[e.m].host == h
    ensures s.threads[e.m].copy.core == s.hosts[h].core && !MustWait(s.threads[e.m].copy.status)
  {
    var m := Writer(e).value;
    assert m in s.threads && ThreadOk(cfg, s, m);
  }

  // ----- reuse -----

  /** A host kept for group `g` goes next to a machine of group `g`: if no machine
      consumes it up to `more`, then whoever takes it at the next event is of that
      group. */
  lemma ReusedBySameGroup(cfg: Config, s0: State, es: seq<Event>, more: seq<Event>, e: Event, h: string, g: string, m: string)
    requires Initial(s0) && h in Run(cfg, s0, es).hosts && Run(cfg, s0, es).hosts[h].core.reuse == Some(g)
    requires forall k :: 0 <= k <= |more| ==>
               h in Run(cfg, s0, es + more[..k]).hosts && !MachineConsumed(Run(cfg, s0, es + more[..k]).hosts[h].core)
    requires h in Run(cfg, s0, es + more + [e]).hosts && ConsumedBy(Run(cfg, s0, es + more + [e]).hosts[h].core, m)
    ensures cfg.spec(m).group == Some(g)
  {
    assert more[..|more|] == more;
    KeptWhileUnused(cfg, s0, es, more, h);
    EveryWriteLawful(cfg, s0, es + more, e, h);
  }

  /** A host no machine consumes keeps its label. */
  lemma {:induction false} KeptWhileUnused(cfg: Config, s0: State, es: seq<Event>, more: seq<Event>, h: string)
    requires Initial(s0) && h in Run(cfg, s0, es).hosts
    requires forall k :: 0 <= k <= |more| ==>
               h in Run(cfg, s0, es + more[..k]).hosts && !MachineConsumed(Run(cfg, s0, es + more[..k]).hosts[h].core)
    ensures h in Run(cfg, s0, es + more).hosts
    ensures Run(cfg, s0, es + more).hosts[h].core == Run(cfg, s0, es).hosts[h].core
  {
    if more == [] {
      assert es + more == es;
    } else {
      var n := |more| - 1;
      var less := more[..n];
      forall k | 0 <= k <= |less|
        ensures h in Run(cfg, s0, es + less[..k]).hosts && !MachineConsumed(Run(cfg, s0, es + less[..k]).hosts[h].core)
      {
        assert less[..k] == more[..k];
      }
      KeptWhileUnused(cfg, s0, es, less, h);
      assert es + more == es + less + [more[n]];
      assert less == less[..n] && more == more[..n + 1];
      EveryWriteLawful(cfg, s0, es + less, more[n], h);
    }
  }

  // ----- machines that go while they still hold a host -----

  predicate MayBeginDelete(s: State, m: string) {
    m in s.machines && m !in s.threads && s.machines[m].deleting
  }

  /** A Delete that begins drops the machine at once, leaving a host that names it,
      exactly when the machine consumes a host and its annotation is missing or not
      yet visible. */
  lemma DanglingExactly(cfg: Config, s0: State, es: seq<Event>, m: string, sees: bool)
    requires Initial(s0) && MayBeginDelete(Run(cfg, s0, es), m)
    ensures var s := Run(cfg, s0, es);
            var end := Step(cfg, Step(cfg, s, BeginDelete(m, sees)), FinishDelete(m));
            (m !in end.machines && !NoHostOf(end.hosts, m)) <==>
            (!NoHostOf(s.hosts, m) && (!sees || s.machines[m].annotation.None?))
  {
    RunKeepsInv(cfg, s0, es);
    assert MachineOk(Run(cfg, s0, es), m);
  }

  /** A Delete that found its host drops the machine only when no host names it. */
  lemma FoundMeansFreed(cfg: Config, s0: State, es: seq<Event>, m: string)
    requires Initial(s0) && m in Run(cfg, s0, es).threads && Run(cfg, s0, es).threads[m] == Finishing(true)
    ensures NoHostOf(Run(cfg, s0, es + [FinishDelete(m)]).hosts, m) && m !in Run(cfg, s0, es + [FinishDelete(m)]).machines
  {
    RunKeepsInv(cfg, s0, es);
    assert (es + [FinishDelete(m)])[..|es|] == es;
    assert ThreadOk(cfg, Run(cfg, s0, es), m);
  }

  lemma RunAppend(cfg: Config, s: State, es: seq<Event>, e: Event)
    ensures Run(cfg, s, es + [e]) == Step(cfg, Run(cfg, s, es), e)
  {
    assert (es + [e])[..|es|] == es;
  }

  /** A crash followed by a deletion of the machine. */
  lemma UnannotatedIsDropped(cfg: Config, s0: State, es: seq<Event>, m: string) returns (fs: seq<Event>)
    requires m in Run(cfg, s0, es).machines && Run(cfg, s0, es).machines[m].annotation.None?
    ensures fs == es + [Crash] + [MarkDeleting(m)] + [BeginDelete(m, true)] + [FinishDelete(m)]
    ensures m !in Run(cfg, s0, fs).machines && Run(cfg, s0, fs).hosts == Run(cfg, s0, es).hosts
  {
    var s := Run(cfg, s0, es);
    var marked := s.(threads := map[], mutex := None, machines := s.machines[m := s.machines[m].(deleting := true)]);
    RunAppend(cfg, s0, es, Crash);
    fs := es + [Crash];
    assert Run(cfg, s0, fs) == s.(threads := map[], mutex := None);
    RunAppend(cfg, s0, fs, MarkDeleting(m));
    fs := fs + [MarkDeleting(m)];
    assert Run(cfg, s0, fs) == marked;
    RunAppend(cfg, s0, fs, BeginDelete(m, true));
    fs := fs + [BeginDelete(m, true)];
    RunAppend(cfg, s0, fs, FinishDelete(m));
    fs := fs + [FinishDelete(m)];
    DeletedAtOnce(cfg, marked, m);
  }

  lemma DeletedAtOnce(cfg: Config, s: State, m: string)
    requires m in s.machines && s.machines[m].annotation.None? && s.machines[m].deleting && s.threads == map[]
    ensures var end := Step(cfg, Step(cfg, s, BeginDelete(m, true)), FinishDelete(m));
            m !in end.machines && end.hosts == s.hosts
  {
    assert Step(cfg, s, BeginDelete(m, true)).threads == map[m := Finishing(false)];
  }

  lemma PatchConsumes(cfg: Config, s: State, m: string, d: MachineData)
    requires Inv(cfg, s) && m in s.threads && s.threads[m].Associating?
    requires Associated(s.threads[m].copy, m, cfg.spec(m), d, cfg.namespace).Ok?
    ensures var h, s' := s.threads[m].host, Step(cfg, s, AssociatePatch(m, d));
            h in s'.hosts && ConsumedBy(s'.hosts[h].core, m) && s'.machines == s.machines
  {
    assert ThreadOk(cfg, s, m);
    var Associating(h, copy) := s.threads[m];
    WriteCore(s, m, h, copy, Associated(copy, m, cfg.spec(m), d, cfg.namespace).value, Some(Storing(h)), h);
  }

  /** In every run: a crash between the host patch and the storing of the annotation,
      followed by a deletion, loses the host. */
  lemma CrashLosesHost(cfg: Config, s0: State, es: seq<Event>, m: string, d: MachineData) returns (fs: seq<Event>)
    requires Initial(s0)
    requires var s := Run(cfg, s0, es);
             && m in s.threads && s.threads[m].Associating? && m in s.machines && s.machines[m].annotation.None?
             && Associated(s.threads[m].copy, m, cfg.spec(m), d, cfg.namespace).Ok?
    ensures fs == es + [AssociatePatch(m, d)] + [Crash] + [MarkDeleting(m)] + [BeginDelete(m, true)] + [FinishDelete(m)]
    ensures var h := Run(cfg, s0, es).threads[m].host;
            var end := Run(cfg, s0, fs);
            m !in end.machines && h in end.hosts && ConsumedBy(end.hosts[h].core, m)
  {
    RunKeepsInv(cfg, s0, es);
    PatchConsumes(cfg, Run(cfg, s0, es), m, d);
    RunAppend(cfg, s0, es, AssociatePatch(m, d));
    fs := UnannotatedIsDropped(cfg, s0, es + [AssociatePatch(m, d)], m);
  }

  /** And such runs exist: any machine and any free host it selects will do. */
  lemma SomeHostIsLost(cfg: Config, h: string, host: Host, m: string) returns (s0: State, es: seq<Event>)
    requires cfg.selects(m, h) && FreshCandidate(host) && host.core.image.None? && host.core.deploy.None?
    ensures Initial(s0)
    ensures var end := Run(cfg, s0, es);
            m in end.created && m !in end.machines && h in end.hosts && ConsumedBy(end.hosts[h].core, m)
  {
    s0 := State(map[], map[], {}, map[], None);
    es := Associates(cfg, h, host, m, s0);
    es := CrashLosesHost(cfg, s0, es, m, MachineData(None, None, None));
    RunKeepsInv(cfg, s0, es);
    assert HostOk(cfg, Run(cfg, s0, es).created, h, Run(cfg, s0, es).hosts[h].core);
  }

  lemma BeginsAlone(cfg: Config, s: State, h: string, host: Host, m: string)
    requires s.hosts == map[h := host] && m in s.machines && !s.machines[m].sawDeleting && m !in s.threads && s.mutex.None?
    requires cfg.selects(m, h) && FreshCandidate(host)
    ensures MayBegin(cfg, s, m, [h], [None], NoDomain, Chosen(0, false))
  {
    assert [h][0] == h;
    assert Items(s.hosts, [h]) == [host];
    OneAllowed(host, None, m, false);
  }

  /** A machine begins to associate with the only host. */
  lemma Associates(cfg: Config, h: string, host: Host, m: string, s0: State) returns (es: seq<Event>)
    requires s0 == State(map[], map[], {}, map[], None)
    requires cfg.selects(m, h) && FreshCandidate(host) && host.core.image.None? && host.core.deploy.None?
    ensures var s := Run(cfg, s0, es);
            && m in s.machines && s.machines[m].annotation.None?
            && m in s.threads && s.threads[m] == Associating(h, host)
  {
    assert Run(cfg, s0, []) == s0;
    RunAppend(cfg, s0, [], AddHost(h, host));
    es := [] + [AddHost(h, host)];
    RunAppend(cfg, s0, es, CreateMachine(m));
    es := es + [CreateMachine(m)];
    var s := Run(cfg, s0, es);
    assert s == State(map[h := host], map[m := Machine(false, None, false)], {m}, map[], None);
    var listing, groups: seq<Option<string>> := [h], [None];
    BeginsAlone(cfg, s, h, host, m);
    var e := BeginAssociate(m, listing, groups, NoDomain, Chosen(0, false));
    RunAppend(cfg, s0, es, e);
    es := es + [e];
  }

  /** A host that names a machine that is gone is never used again. */
  lemma {:induction false} DanglingStays(cfg: Config, s0: State, es: seq<Event>, more: seq<Event>, h: string, m: string)
    requires Initial(s0) && h in Run(cfg, s0, es).hosts && ConsumedBy(Run(cfg, s0, es).hosts[h].core, m)
    requires m !in Run(cfg, s0, es).machines
    ensures h in Run(cfg, s0, es + more).hosts
    ensures Run(cfg, s0, es + more).hosts[h].core == Run(cfg, s0, es).hosts[h].core
    ensures m !in Run(cfg, s0, es + more).machines
  {
    if more == [] {
      assert es + more == es;
    } else {
      var n := |more| - 1;
      DanglingStays(cfg, s0, es, more[..n], h, m);
      assert es + more == es + more[..n] + [more[n]];
      EveryWriteLawful(cfg, s0, es + more[..n], more[n], h);
      RunKeepsInv(cfg, s0, es + more[..n]);
      assert HostOk(cfg, Run(cfg, s0, es + more[..n]).created, h, Run(cfg, s0, es + more[..n]).hosts[h].core);
      GoneStaysGone(cfg, Run(cfg, s0, es + more[..n]), more[n], m);
    }
  }

  lemma GoneStaysGone(cfg: Config, s: State, e: Event, m: string)
    requires m in s.created && m !in s.machines
    ensures m !in Step(cfg, s, e).machines
  {
  }
}
