/** What single reconciles of a Metal3Remediation achieve when their calls succeed. */
module Reconciles {
  import opened Wrappers
  import opened Remediation
  import opened RemediationController

  /** Every call succeeds and the Node can be read. */
  const ALL_OK := Calls(true, true, true, true, true, true, true, true, true, true, false)

  /** One whole reconcile, with nothing happening in between. */
  function Reconciled(cfg: Config, s: State): State {
    Completed(cfg, NextCall(cfg, s, ALL_OK), ALL_OK)
  }

  predicate AllOk(es: seq<Event>) {
    forall k :: 0 <= k < |es| && es[k].Controller? ==> es[k].ok
  }

  lemma {:induction false} CompletedRuns(cfg: Config, s0: State, es: seq<Event>) returns (fs: seq<Event>)
    requires AllOk(es)
    ensures AllOk(fs) && es <= fs
    ensures Run(cfg, s0, fs) == Completed(cfg, Run(cfg, s0, es), ALL_OK)
    decreases CallsLeft(Run(cfg, s0, es).pc)
  {
    var s := Run(cfg, s0, es);
    if s.pc.Idle? {
      return es;
    }
    FewerCalls(cfg, s, true, View(ALL_OK, s.node));
    var next := es + [Controller(true, View(ALL_OK, s.node))];
    assert next[..|es|] == es;
    fs := CompletedRuns(cfg, s0, next);
  }

  /** Extends a run by one reconcile. */
  lemma Reconcile(cfg: Config, s0: State, es: seq<Event>) returns (fs: seq<Event>)
    requires AllOk(es) && Run(cfg, s0, es).pc.Idle?
    ensures AllOk(fs) && es <= fs && Run(cfg, s0, fs) == Reconciled(cfg, Run(cfg, s0, es))
  {
    var s := Run(cfg, s0, es);
    var next := es + [Controller(true, View(ALL_OK, s.node))];
    assert next[..|es|] == es;
    fs := CompletedRuns(cfg, s0, next);
  }

  /** Extends a run by an event of the environment. */
  lemma Outside(cfg: Config, s0: State, es: seq<Event>, e: Event) returns (fs: seq<Event>)
    requires AllOk(es) && !e.Controller?
    ensures AllOk(fs) && es <= fs && Run(cfg, s0, fs) == Step(cfg, Run(cfg, s0, es), e)
  {
    fs := es + [e];
    assert fs[..|es|] == es;
  }

  // ----- single reconciles -----

  predicate Deletes(cfg: Config) {
    cfg.reboot && !cfg.taintMode && cfg.retryLimit > 0
  }

  predicate At(s: State, phase: Phase, finalizer: bool, off: bool, on: bool, node: Option<Node>) {
    && s.pc.Idle? && s.record.phase == phase && s.record.finalizer == finalizer
    && s.host.online && s.host.powerOff == off && s.host.poweredOn == on && s.node == node
  }

  function Calls3(cfg: Config, s: State): State {
    NextCall(cfg, NextCall(cfg, NextCall(cfg, s, ALL_OK), ALL_OK), ALL_OK)
  }

  /** The Node has been read. */
  lemma ReadsNode(cfg: Config, s: State)
    requires cfg.reboot && s.pc.Idle? && s.host.online && (s.record.phase.Running? || s.record.phase.Waiting?)
    ensures var v := if s.node.None? then Absent else Seen(s.node.value);
            && Calls3(cfg, s) == s.(pc := AfterNode(s, v))
            && Reconciled(cfg, s) == Completed(cfg, Calls3(cfg, s), ALL_OK)
  {
    var a := NextCall(cfg, s, ALL_OK);
    var b := NextCall(cfg, a, ALL_OK);
    assert a.pc == GetHost && b.pc == GetNode;
    assert Completed(cfg, a, ALL_OK) == Completed(cfg, b, ALL_OK);
  }

  lemma Begins(cfg: Config, s: State)
    requires cfg.reboot && At(s, NoPhase, false, false, true, s.node)
    ensures At(Reconciled(cfg, s), Running, false, false, true, s.node)
    ensures Reconciled(cfg, s).record == s.record.(phase := Running, lastRemediated := Some(s.clock - s.clock % 1_000_000_000))
  {
    var a := NextCall(cfg, s, ALL_OK);
    var b := NextCall(cfg, a, ALL_OK);
    assert b.pc.Save?;
    assert Completed(cfg, a, ALL_OK) == Completed(cfg, b, ALL_OK);
    assert Completed(cfg, b, ALL_OK) == NextCall(cfg, b, ALL_OK);
  }

  lemma AddsFinalizer(cfg: Config, s: State)
    requires cfg.reboot && At(s, Running, false, false, true, s.node)
    ensures At(Reconciled(cfg, s), Running, true, false, true, s.node)
    ensures Reconciled(cfg, s).record.retryCount == s.record.retryCount && Reconciled(cfg, s).record.lastRemediated.Some? == s.record.lastRemediated.Some?
  {
    ReadsNode(cfg, s);
    var a := Calls3(cfg, s);
    assert a.pc.Save?;
    assert Completed(cfg, a, ALL_OK) == NextCall(cfg, a, ALL_OK);
  }

  lemma RequestsPowerOff(cfg: Config, s: State)
    requires cfg.reboot && At(s, Running, true, false, true, s.node)
    ensures At(Reconciled(cfg, s), Running, true, true, true, s.node) && Reconciled(cfg, s).record == s.record
  {
    ReadsNode(cfg, s);
    var a := Calls3(cfg, s);
    var b := NextCall(cfg, a, ALL_OK);
    assert b.pc.SetOff?;
    assert Completed(cfg, a, ALL_OK) == Completed(cfg, b, ALL_OK);
    assert Completed(cfg, b, ALL_OK) == NextCall(cfg, b, ALL_OK);
  }

  /** Up to the handling of the Node, with the host seen off. */
  lemma Handles(cfg: Config, s: State)
    requires cfg.reboot && At(s, Running, true, true, false, s.node)
    ensures var v := if s.node.None? then Absent else Seen(s.node.value);
            Reconciled(cfg, s) == Completed(cfg, HandleNodeStep(cfg, s.(pc := HandleNode(v)), true, v), ALL_OK)
  {
    ReadsNode(cfg, s);
    var a := Calls3(cfg, s);
    var b := NextCall(cfg, a, ALL_OK);
    var c := NextCall(cfg, b, ALL_OK);
    assert a.pc.ReadOffRunning? && b.pc.ReadPowerRunning? && c.pc.HandleNode?;
    assert Completed(cfg, a, ALL_OK) == Completed(cfg, b, ALL_OK);
    assert Completed(cfg, b, ALL_OK) == Completed(cfg, c, ALL_OK);
  }

  lemma BacksUp(cfg: Config, s: State, n: Node)
    requires Deletes(cfg) && At(s, Running, true, true, false, Some(n)) && !BackedUp(s.record, n) && s.record.lastRemediated.Some?
    ensures At(Reconciled(cfg, s), Running, true, true, false, Some(n)) && BackedUp(Reconciled(cfg, s).record, n)
    ensures Reconciled(cfg, s).record.retryCount == s.record.retryCount && Reconciled(cfg, s).record.lastRemediated.Some?
  {
    Handles(cfg, s);
    var a := HandleNodeStep(cfg, s.(pc := HandleNode(Seen(n))), true, Seen(n));
    assert a.pc.Save?;
    assert Completed(cfg, a, ALL_OK) == NextCall(cfg, a, ALL_OK);
  }

  lemma DeletesNode(cfg: Config, s: State, n: Node)
    requires Deletes(cfg) && At(s, Running, true, true, false, Some(n)) && BackedUp(s.record, n) && !n.terminating
    ensures At(Reconciled(cfg, s), Running, true, true, false, None) && Reconciled(cfg, s).record == s.record
  {
    Handles(cfg, s);
  }

  lemma EntersWaiting(cfg: Config, s: State)
    requires cfg.reboot && At(s, Running, true, true, false, None) && s.record.lastRemediated.Some?
    ensures At(Reconciled(cfg, s), Waiting, true, true, false, None) && SameBackup(Reconciled(cfg, s).record, s.record)
    ensures Reconciled(cfg, s).record.retryCount == s.record.retryCount && Reconciled(cfg, s).record.lastRemediated.Some?
  {
    Handles(cfg, s);
    var a := HandleNodeStep(cfg, s.(pc := HandleNode(Absent)), true, Absent);
    assert a.pc.SaveWaiting?;
    assert Completed(cfg, a, ALL_OK) == NextCall(cfg, a, ALL_OK);
  }

  lemma ClearsPowerOff(cfg: Config, s: State)
    requires cfg.reboot && At(s, Waiting, true, true, false, s.node)
    ensures At(Reconciled(cfg, s), Waiting, true, false, false, s.node) && Reconciled(cfg, s).record == s.record
  {
    ReadsNode(cfg, s);
    var a := Calls3(cfg, s);
    var b := NextCall(cfg, a, ALL_OK);
    var c := NextCall(cfg, b, ALL_OK);
    assert a.pc.ReadOffWaiting? && b.pc.ClearOff? && c.pc.ReadPowerWaiting?;
    assert Completed(cfg, a, ALL_OK) == Completed(cfg, b, ALL_OK);
    assert Completed(cfg, b, ALL_OK) == Completed(cfg, c, ALL_OK);
    assert Completed(cfg, c, ALL_OK) == NextCall(cfg, c, ALL_OK);
  }

  /** Up to the end of Waiting, with the host seen on. */
  lemma Finishes(cfg: Config, s: State)
    requires cfg.reboot && At(s, Waiting, true, false, true, s.node)
    ensures var v := if s.node.None? then Absent else Seen(s.node.value);
            Reconciled(cfg, s) == Completed(cfg, FinishStep(cfg, s.(pc := Finish(v)), true, v), ALL_OK)
  {
    ReadsNode(cfg, s);
    var a := Calls3(cfg, s);
    var b := NextCall(cfg, a, ALL_OK);
    var c := NextCall(cfg, b, ALL_OK);
    assert a.pc.ReadOffWaiting? && b.pc.ReadPowerWaiting? && c.pc.Finish?;
    assert Completed(cfg, a, ALL_OK) == Completed(cfg, b, ALL_OK);
    assert Completed(cfg, b, ALL_OK) == Completed(cfg, c, ALL_OK);
  }

  lemma Retries(cfg: Config, s: State)
    requires Deletes(cfg) && At(s, Waiting, true, false, true, None) && s.record.retryCount == 0
    requires TimeToRemediate(cfg, s.record, s.clock)
    ensures At(Reconciled(cfg, s), Running, true, false, true, None) && SameBackup(Reconciled(cfg, s).record, s.record)
    ensures Reconciled(cfg, s).record.lastRemediated.Some?
  {
    Finishes(cfg, s);
    var a := FinishStep(cfg, s.(pc := Finish(Absent)), true, Absent);
    var b := NextCall(cfg, a, ALL_OK);
    assert a.pc.TimedOut? && b.pc.Save?;
    assert Completed(cfg, a, ALL_OK) == Completed(cfg, b, ALL_OK);
    assert Completed(cfg, b, ALL_OK) == NextCall(cfg, b, ALL_OK);
  }

  lemma Restores(cfg: Config, s: State, n: Node)
    requires Deletes(cfg) && At(s, Waiting, true, false, true, Some(n))
    ensures At(Reconciled(cfg, s), Waiting, false, false, true,
               Some(if s.record.annotationsBackup.Blank? && s.record.labelsBackup.Blank? then n else RestoredNode(s.record, n)))
  {
    Finishes(cfg, s);
    var a := FinishStep(cfg, s.(pc := Finish(Seen(n))), true, Seen(n));
    assert a.pc.Save?;
    assert Completed(cfg, a, ALL_OK) == NextCall(cfg, a, ALL_OK);
  }

  /** A host that is not to be online fails the remediation. */
  lemma OfflineFails(cfg: Config, s: State)
    requires s.pc.Idle? && !s.host.online
    ensures Reconciled(cfg, s).record.phase == Failed && Reconciled(cfg, s).record.retryCount == s.record.retryCount
    ensures Reconciled(cfg, s).host == s.host && Reconciled(cfg, s).node == s.node
  {
    var a := NextCall(cfg, s, ALL_OK);
    var b := NextCall(cfg, a, ALL_OK);
    assert b.pc.Save?;
    assert Completed(cfg, a, ALL_OK) == Completed(cfg, b, ALL_OK);
    assert Completed(cfg, b, ALL_OK) == NextCall(cfg, b, ALL_OK);
  }

  /** Timed out with no retry left: the host is marked and the Machine handed over. */
  lemma GivesUp(cfg: Config, s: State)
    requires cfg.reboot && At(s, Waiting, true, false, true, None) && (cfg.retryLimit <= 0 || cfg.retryLimit == s.record.retryCount)
    requires TimeToRemediate(cfg, s.record, s.clock)
    ensures At(Reconciled(cfg, s), Deleting, true, false, true, None) && Reconciled(cfg, s).host.unhealthy
    ensures Reconciled(cfg, s).record.retryCount == s.record.retryCount
  {
    Finishes(cfg, s);
    var a := FinishStep(cfg, s.(pc := Finish(Absent)), true, Absent);
    var b := NextCall(cfg, a, ALL_OK);
    var c := NextCall(cfg, b, ALL_OK);
    var d := NextCall(cfg, c, ALL_OK);
    assert a.pc.TimedOut? && b.pc.SetOwnerCondition? && c.pc.SetUnhealthy? && d.pc.Save?;
    assert Completed(cfg, a, ALL_OK) == Completed(cfg, b, ALL_OK);
    assert Completed(cfg, b, ALL_OK) == Completed(cfg, c, ALL_OK);
    assert Completed(cfg, c, ALL_OK) == Completed(cfg, d, ALL_OK);
    assert Completed(cfg, d, ALL_OK) == NextCall(cfg, d, ALL_OK);
  }

  // ----- taint mode -----

  predicate Untainted(n: Node) {
    forall k :: 0 <= k < |n.taints| ==>
      !(n.taints[k].key == "node.kubernetes.io/out-of-service" && n.taints[k].effect == "NoExecute")
  }

  /** The Node with the out-of-service taint after its own. */
  function WithTaint(n: Node): Node {
    n.(taints := n.taints + [Taint("node.kubernetes.io/out-of-service", "nodeshutdown", "NoExecute")])
  }

  /** With the host off, the first reconcile taints the Node and does nothing else. */
  lemma TaintsNode(cfg: Config, s: State, n: Node)
    requires cfg.reboot && cfg.taintMode && At(s, Running, true, true, false, Some(n)) && Untainted(n)
    ensures At(Reconciled(cfg, s), Running, true, true, false, Some(WithTaint(n))) && Reconciled(cfg, s).record == s.record
    ensures Reconciled(cfg, s).drained == s.drained && HasOutOfServiceTaint(WithTaint(n))
  {
    Handles(cfg, s);
    var tainted := WithTaint(n);
    assert Matches(tainted.taints[|n.taints|]);
  }

  /** A tainted Node that is drained lets the remediation go on to Waiting. */
  lemma DrainsToWaiting(cfg: Config, s: State, n: Node)
    requires cfg.reboot && cfg.taintMode && At(s, Running, true, true, false, Some(n)) && HasOutOfServiceTaint(n) && s.drained
    ensures At(Reconciled(cfg, s), Waiting, true, true, false, Some(n))
    ensures Reconciled(cfg, s).record.retryCount == s.record.retryCount
  {
    Handles(cfg, s);
    var a := HandleNodeStep(cfg, s.(pc := HandleNode(Seen(n))), true, Seen(n));
    assert a.pc.SaveWaiting?;
    assert Completed(cfg, a, ALL_OK) == NextCall(cfg, a, ALL_OK);
  }

  /** A tainted Node that is not drained is waited for. */
  lemma WaitsForDrain(cfg: Config, s: State, n: Node)
    requires cfg.reboot && cfg.taintMode && At(s, Running, true, true, false, Some(n)) && HasOutOfServiceTaint(n) && !s.drained
    ensures At(Reconciled(cfg, s), Running, true, true, false, Some(n)) && Reconciled(cfg, s).record == s.record
  {
    Handles(cfg, s);
  }

  /** Once the host is on again, the taint is taken off. */
  lemma Untaints(cfg: Config, s: State, n: Node)
    requires cfg.reboot && cfg.taintMode && At(s, Waiting, true, false, true, Some(WithTaint(n))) && Untainted(n)
    ensures At(Reconciled(cfg, s), Waiting, false, false, true, Some(n))
  {
    Finishes(cfg, s);
    var tainted := WithTaint(n);
    assert Matches(tainted.taints[|n.taints|]);
    assert tainted == AddTaint(n);
    DropTaintUndoesAdd(n);
    var a := FinishStep(cfg, s.(pc := Finish(Seen(tainted))), true, Seen(tainted));
    assert a.pc.Save?;
    assert Completed(cfg, a, ALL_OK) == NextCall(cfg, a, ALL_OK);
  }

  /** Two reconciles fence a drained Node off and enter Waiting; clearing the power-off
      request and one more reconcile give the Node back as it was. */
  lemma TaintCycle(cfg: Config, s: State, n: Node)
    requires cfg.reboot && cfg.taintMode && At(s, Running, true, true, false, Some(n)) && Untainted(n) && s.drained
    ensures var tainted := Reconciled(cfg, s);
            var waiting := Reconciled(cfg, tainted);
            var cleared := Reconciled(cfg, waiting);
            var done := Reconciled(cfg, Step(cfg, cleared, PowerChanges(true)));
            && At(tainted, Running, true, true, false, Some(WithTaint(n)))
            && At(waiting, Waiting, true, true, false, Some(WithTaint(n)))
            && At(cleared, Waiting, true, false, false, Some(WithTaint(n)))
            && At(done, Waiting, false, false, true, Some(n))
  {
    TaintsNode(cfg, s, n);
    var tainted := Reconciled(cfg, s);
    DrainsToWaiting(cfg, tainted, WithTaint(n));
    var waiting := Reconciled(cfg, tainted);
    ClearsPowerOff(cfg, waiting);
    Untaints(cfg, Step(cfg, Reconciled(cfg, waiting), PowerChanges(true)), n);
  }
}
