/** The Metal3Remediation reconciler as it is written: a method that works on the
    live objects call by call. `machine` follows the state machine of module
    Remediation, one event per API call, so everything proved of its runs holds of
    what these methods do. */
module RemediationController {
  import opened Wrappers
  import opened Remediation

  /** Which API calls of one reconcile succeed. */
  datatype Calls = Calls(host: bool, node: bool, readOff: bool, setOff: bool, clearOff: bool, readPower: bool,
                         updateNode: bool, owner: bool, unhealthy: bool, save: bool, forbidden: bool)

  /** The answer to the call the reconcile makes at `pc`. */
  function Answer(c: Calls, pc: Pc): bool {
    match pc
    case Idle | TimedOut => true
    case GetHost => c.host
    case GetNode => c.node
    case ReadOffRunning(_) | ReadOffWaiting(_) => c.readOff
    case SetOff => c.setOff
    case ClearOff(_) => c.clearOff
    case ReadPowerRunning(_) | ReadPowerWaiting(_) => c.readPower
    case HandleNode(_) | Finish(_) => c.updateNode
    case SetOwnerCondition => c.owner
    case SetUnhealthy => c.unhealthy
    case SaveWaiting(_, _) | Save(_) => c.save
  }

  function View(c: Calls, node: Option<Node>): NodeView {
    if c.forbidden then Forbidden else if node.None? then Absent else Seen(node.value)
  }

  /** A bound on the calls still to come. */
  function CallsLeft(pc: Pc): nat {
    match pc
    case Idle => 0
    case GetHost => 10
    case GetNode => 9
    case ReadOffRunning(_) | ReadOffWaiting(_) => 8
    case SetOff | ClearOff(_) => 7
    case ReadPowerRunning(_) | ReadPowerWaiting(_) => 6
    case HandleNode(_) | Finish(_) => 5
    case TimedOut => 4
    case SetOwnerCondition => 3
    case SetUnhealthy => 2
    case SaveWaiting(_, _) | Save(_) => 1
  }

  function NextCall(cfg: Config, s: State, c: Calls): State {
    ControllerStep(cfg, s, Answer(c, s.pc), View(c, s.node))
  }

  /** The whole reconcile: call after call until it is done. */
  function Completed(cfg: Config, s: State, c: Calls): (r: State)
    ensures r.pc.Idle?
    decreases CallsLeft(s.pc)
  {
    if s.pc.Idle? then s
    else
      FewerCalls(cfg, s, Answer(c, s.pc), View(c, s.node));
      Completed(cfg, NextCall(cfg, s, c), c)
  }

  lemma FewerCalls(cfg: Config, s: State, ok: bool, view: NodeView)
    requires !s.pc.Idle?
    ensures CallsLeft(ControllerStep(cfg, s, ok, view).pc) < CallsLeft(s.pc)
  {
    match s.pc
    case HandleNode(v) => assert CallsLeft(HandleNodeStep(cfg, s, ok, v).pc) <= 1;
    case Finish(v) => assert CallsLeft(FinishStep(cfg, s, ok, v).pc) <= 4;
    case Save(r) => assert Saved(s, r).pc.Idle?;
    case _ =>
  }

  /** mergeMaps: adds the entries of `other` whose keys `own` does not have. */
  method MergeMaps(own: Option<map<string, string>>, other: map<string, string>) returns (r: map<string, string>)
    ensures r == other + (if own.None? then map[] else own.value)
  {
    var first := if own.None? then map[] else own.value;
    r := first;
    var keys := other.Keys;
    while keys != {}
      invariant keys <= other.Keys
      invariant r.Keys == first.Keys + (other.Keys - keys)
      invariant forall k :: k in r ==> r[k] == if k in first then first[k] else other[k]
      decreases |keys|
    {
      var k :| k in keys;
      if k !in r {
        r := r[k := other[k]];
      }
      keys := keys - {k};
    }
  }

  method FindTaint(n: Node) returns (found: bool)
    ensures found <==> HasOutOfServiceTaint(n)
  {
    found := false;
    for k := 0 to |n.taints|
      invariant forall j :: 0 <= j < k ==> !Matches(n.taints[j])
    {
      if Matches(n.taints[k]) {
        return true;
      }
    }
  }

  /** The taint list RemoveOutOfServiceTaint writes back. */
  method DropTaint(taints: seq<Taint>) returns (r: seq<Taint>)
    ensures r == WithoutTaint(taints)
  {
    r := [];
    for k := 0 to |taints|
      invariant r == WithoutTaint(taints[..k])
    {
      assert taints[..k + 1][..k] == taints[..k];
      if !Matches(taints[k]) {
        r := r + [taints[k]];
      }
    }
    assert taints[..|taints|] == taints;
  }

  /** No out-of-service taint is left, and no other taint is lost or moved. */
  lemma {:induction false} DropTaintUndoesAdd(n: Node)
    requires !HasOutOfServiceTaint(n)
    ensures AddTaint(n) == n.(taints := n.taints + [Taint("node.kubernetes.io/out-of-service", "nodeshutdown", "NoExecute")])
    ensures HasOutOfServiceTaint(AddTaint(n)) && WithoutTaint(AddTaint(n).taints) == n.taints
  {
    assert Matches(AddTaint(n).taints[|n.taints|]);
    KeepsOthers(n.taints);
    assert AddTaint(n).taints[..|n.taints|] == n.taints;
  }

  lemma {:induction false} KeepsOthers(taints: seq<Taint>)
    requires forall k :: 0 <= k < |taints| ==> !Matches(taints[k])
    ensures WithoutTaint(taints) == taints
  {
    if taints != [] {
      KeepsOthers(taints[..|taints| - 1]);
    }
  }

  method RestoreNode(r: Record, n: Node) returns (restored: Node)
    ensures restored == RestoredNode(r, n)
  {
    restored := n;
    var annotations := Unmarshal(r.annotationsBackup);
    if annotations != map[] {
      var merged := MergeMaps(n.annotations, annotations);
      restored := restored.(annotations := Some(merged));
    }
    var labels := Unmarshal(r.labelsBackup);
    if labels != map[] {
      var merged := MergeMaps(n.labels, labels);
      restored := restored.(labels := Some(merged));
    }
  }

  /** The timeout, 600 seconds unless the strategy says otherwise, is over. */
  predicate Late(cfg: Config, r: Record, now: int) {
    r.lastRemediated.Some? &&
    now > r.lastRemediated.value + (if cfg.timeoutSeconds == 0 then 600 else cfg.timeoutSeconds) * 1_000_000_000
  }

  /** Nothing happens in time. Late, the remediation is retried with the present time in
      whole seconds as long as the count differs from a positive limit; otherwise the
      Machine is handed over and the host marked. */
  predicate TimeoutHandled(cfg: Config, c: Calls, r: Record, h: Host, now: int, r': Record, h': Host) {
    && (!Late(cfg, r, now) ==> r' == r && h' == h)
    && (Late(cfg, r, now) && cfg.retryLimit > 0 && r.retryCount != cfg.retryLimit && c.save ==>
          r' == r.(phase := Running, retryCount := r.retryCount + 1, lastRemediated := Some(now - now % 1_000_000_000)))
    && (Late(cfg, r, now) && !(cfg.retryLimit > 0 && r.retryCount != cfg.retryLimit) && c.owner && c.unhealthy && c.save ==>
          r'.phase.Deleting? && r'.retryCount == r.retryCount && h' == h.(unhealthy := true))
  }

  lemma TimeoutMeans(cfg: Config, s: State, c: Calls)
    requires s.pc == if TimeToRemediate(cfg, s.record, s.clock) then TimedOut else Idle
    ensures var t := Completed(cfg, s, c); TimeoutHandled(cfg, c, s.record, s.host, s.clock, t.record, t.host)
  {
    LateExactly(cfg, s.record, s.clock);
    if s.pc.TimedOut? {
      var a := NextCall(cfg, s, c);
      assert Completed(cfg, s, c) == Completed(cfg, a, c);
      if a.pc.Save? {
        assert Completed(cfg, a, c) == NextCall(cfg, a, c);
      } else if c.owner && c.unhealthy && c.save {
        GivenUp(cfg, a, c);
      }
    }
  }

  lemma GivenUp(cfg: Config, s: State, c: Calls)
    requires s.pc.SetOwnerCondition? && c.owner && c.unhealthy && c.save
    ensures var t := Completed(cfg, s, c);
            t.record.phase.Deleting? && t.record.retryCount == s.record.retryCount && t.host == s.host.(unhealthy := true)
  {
    var a := NextCall(cfg, s, c);
    var b := NextCall(cfg, a, c);
    assert a.pc.SetUnhealthy? && b.pc.Save?;
    assert Completed(cfg, s, c) == Completed(cfg, a, c);
    assert Completed(cfg, a, c) == Completed(cfg, b, c);
    assert Completed(cfg, b, c) == NextCall(cfg, b, c);
  }

  lemma LateExactly(cfg: Config, r: Record, now: int)
    ensures Late(cfg, r, now) <==> TimeToRemediate(cfg, r, now)
  {
  }

  class Reconciler {
    const cfg: Config
    var record: Record
    var host: Host
    var node: Option<Node>
    var drained: bool
    var clock: int
    ghost const start: State
    ghost var machine: State
    ghost var trace: seq<Event>

    ghost predicate Valid()
      reads this
    {
      && machine == Run(cfg, start, trace)
      && machine.record == record && machine.host == host && machine.node == node
      && machine.drained == drained && machine.clock == clock
    }

    constructor (cfg: Config, s: State)
      requires s.pc.Idle?
      ensures Valid() && this.cfg == cfg && start == s && machine == s && trace == []
    {
      this.cfg := cfg;
      record, host, node, drained, clock := s.record, s.host, s.node, s.drained, s.clock;
      start, machine, trace := s, s, [];
    }

    /** One API call, on the machine's side. */
    ghost method Advance(c: Calls)
      requires machine == Run(cfg, start, trace)
      modifies this`machine, this`trace
      ensures machine == NextCall(cfg, old(machine), c) == Run(cfg, start, trace)
      ensures !old(machine).pc.Idle? ==> Completed(cfg, machine, c) == Completed(cfg, old(machine), c)
      ensures old(trace) < trace
    {
      var e := Controller(Answer(c, machine.pc), View(c, machine.node));
      assert (trace + [e])[..|trace|] == trace;
      trace := trace + [e];
      machine := Step(cfg, machine, e);
    }

    /** The deferred patch of the Metal3Remediation. */
    method Patch(mem: Record, c: Calls)
      requires Valid()
      requires machine.pc == Save(mem) || (machine.pc.SaveWaiting? && mem == record.(phase := Waiting))
      modifies this`record, this`machine, this`trace
      ensures Valid() && old(trace) <= trace && machine == Completed(cfg, old(machine), c)
    {
      Advance(c);
      if c.save {
        record := if mem.lastRemediated.None? then mem else mem.(lastRemediated := Some(Truncated(mem.lastRemediated.value)));
      }
    }

    method ReconcileNormal(c: Calls)
      requires Valid() && machine.pc.Idle?
      modifies this
      ensures Valid() && old(trace) < trace && machine == Completed(cfg, NextCall(cfg, old(machine), c), c)
    {
      Advance(c);
      Advance(c);
      if !c.host {
        return;
      }
      if !host.online {
        Patch(record.(phase := Failed), c);
        return;
      }
      if !cfg.reboot {
        return;
      }
      if record.phase.NoPhase? {
        Patch(record.(phase := Running, lastRemediated := Some(clock)), c);
        return;
      }
      var view := View(c, node);
      Advance(c);
      if !c.node {
        return;
      }
      match record.phase {
        case Running => RemediateRebootStrategy(c, view);
        case Waiting => WaitForNode(c, view);
        case _ =>
      }
    }

    method RemediateRebootStrategy(c: Calls, view: NodeView)
      requires Valid() && record.phase.Running? && machine.pc == AfterNode(machine, view)
      requires view.Seen? ==> node == Some(view.node)
      modifies this
      ensures Valid() && old(trace) <= trace && machine == Completed(cfg, old(machine), c)
    {
      if !record.finalizer {
        Patch(record.(finalizer := true), c);
        return;
      }
      var requested := RequestPowerOff(c, view);
      if !requested {
        return;
      }
      Advance(c);
      if c.readPower && !host.poweredOn {
        FenceNode(c, view);
      }
    }

    /** Sets the power-off annotation unless it is there already. */
    method RequestPowerOff(c: Calls, view: NodeView) returns (requested: bool)
      requires Valid() && machine.pc == ReadOffRunning(view)
      modifies this`host, this`machine, this`trace
      ensures Valid() && old(trace) <= trace
      ensures machine.pc == if requested then ReadPowerRunning(view) else Idle
      ensures Completed(cfg, machine, c) == Completed(cfg, old(machine), c)
    {
      Advance(c);
      requested := c.readOff && host.powerOff;
      if c.readOff && !host.powerOff {
        Advance(c);
        if c.setOff {
          host := host.(powerOff := true);
        }
      }
    }

    method FenceNode(c: Calls, view: NodeView)
      requires Valid() && machine.pc == HandleNode(view)
      requires view.Seen? ==> node == Some(view.node)
      modifies this
      ensures Valid() && old(trace) <= trace && machine == Completed(cfg, old(machine), c)
      ensures view.Seen? && cfg.taintMode && c.updateNode && (forall k :: 0 <= k < |view.node.taints| ==>
                !(view.node.taints[k].key == "node.kubernetes.io/out-of-service" && view.node.taints[k].effect == "NoExecute")) ==>
                && record == old(record)
                && node == Some(view.node.(taints := view.node.taints
                                                     + [Taint("node.kubernetes.io/out-of-service", "nodeshutdown", "NoExecute")]))
      ensures !cfg.taintMode && node != old(node) ==>
                node.None? && record == old(record) && view.Seen? && BackedUp(record, view.node)
      ensures !view.Seen? && c.save ==> record.phase.Waiting?
    {
      Advance(c);
      if view.Seen? {
        var n := view.node;
        if cfg.taintMode {
          var tainted := FindTaint(n);
          if !tainted {
            if c.updateNode {
              node := Some(AddTaint(n));
            }
            return;
          }
          if !c.updateNode || !drained {
            return;
          }
        } else {
          var annotations, labels := Marshal(n.annotations), Marshal(n.labels);
          if record.annotationsBackup != annotations || record.labelsBackup != labels {
            Patch(record.(annotationsBackup := annotations, labelsBackup := labels), c);
            return;
          }
          if c.updateNode && !n.terminating {
            node := None;
          }
          return;
        }
      }
      Patch(record.(phase := Waiting), c);
    }

    method WaitForNode(c: Calls, view: NodeView)
      requires Valid() && record.phase.Waiting? && machine.pc == ReadOffWaiting(view)
      requires view.Seen? ==> node == Some(view.node)
      modifies this
      ensures Valid() && old(trace) <= trace && machine == Completed(cfg, old(machine), c)
    {
      var cleared := ClearPowerOff(c, view);
      if !cleared {
        return;
      }
      Advance(c);
      if c.readPower && host.poweredOn {
        FinishWaiting(c, view);
      }
    }

    /** Removes the power-off annotation if it is there. */
    method ClearPowerOff(c: Calls, view: NodeView) returns (cleared: bool)
      requires Valid() && machine.pc == ReadOffWaiting(view)
      modifies this`host, this`machine, this`trace
      ensures Valid() && old(trace) <= trace
      ensures machine.pc == if cleared then ReadPowerWaiting(view) else Idle
      ensures Completed(cfg, machine, c) == Completed(cfg, old(machine), c)
    {
      Advance(c);
      cleared := c.readOff;
      if c.readOff && host.powerOff {
        Advance(c);
        cleared := c.clearOff;
        if c.clearOff {
          host := host.(powerOff := false);
        }
      }
    }

    /** The rest of the Waiting branch, once the host is on. */
    method FinishWaiting(c: Calls, view: NodeView)
      requires Valid() && machine.pc == Finish(view)
      requires view.Seen? ==> node == Some(view.node)
      modifies this
      ensures Valid() && old(trace) <= trace && machine == Completed(cfg, old(machine), c)
    {
      Advance(c);
      if record.finalizer && view.Seen? {
        UnfenceNode(c, view.node);
      } else if record.finalizer && view.Forbidden? {
        Patch(record.(finalizer := false), c);
      } else {
        CheckTimeout(c);
      }
    }

    /** The clean-up after the Node came back. */
    method UnfenceNode(c: Calls, n: Node)
      requires record.finalizer && node == Some(n)
      requires machine == Run(cfg, start, trace)
      requires var s := State(record, host, node, drained, clock, Finish(Seen(n)), machine.history);
               machine == FinishStep(cfg, s, c.updateNode, Seen(n))
      modifies this
      ensures Valid() && old(trace) <= trace && machine == Completed(cfg, old(machine), c)
    {
      if cfg.taintMode {
        var tainted := FindTaint(n);
        if tainted {
          if !c.updateNode {
            return;
          }
          var taints := DropTaint(n.taints);
          node := Some(n.(taints := taints));
        }
        Patch(record.(finalizer := false), c);
      } else {
        if record.annotationsBackup != Blank || record.labelsBackup != Blank {
          var restored := RestoreNode(record, n);
          if c.updateNode {
            node := Some(restored);
          }
        }
        Patch(record.(finalizer := false, annotationsBackup := Blank, labelsBackup := Blank), c);
      }
    }

    method CheckTimeout(c: Calls)
      requires Valid() && machine.pc == if TimeToRemediate(cfg, record, clock) then TimedOut else Idle
      modifies this`record, this`host, this`machine, this`trace
      ensures Valid() && old(trace) <= trace && machine == Completed(cfg, old(machine), c)
      ensures TimeoutHandled(cfg, c, old(record), old(host), clock, record, host)
    {
      TimeoutMeans(cfg, machine, c);
      RetryOrGiveUp(c);
    }

    method RetryOrGiveUp(c: Calls)
      requires Valid() && machine.pc == if TimeToRemediate(cfg, record, clock) then TimedOut else Idle
      modifies this`record, this`host, this`machine, this`trace
      ensures Valid() && old(trace) <= trace && machine == Completed(cfg, old(machine), c)
    {
      if !TimeToRemediate(cfg, record, clock) {
        return;
      }
      Advance(c);
      if RetryLimitIsSet(cfg) && !HasReachRetryLimit(cfg, record) {
        Patch(record.(phase := Running, lastRemediated := Some(clock), retryCount := record.retryCount + 1), c);
      } else {
        GiveUp(c);
      }
    }

    method GiveUp(c: Calls)
      requires Valid() && machine.pc.SetOwnerCondition?
      modifies this`record, this`host, this`machine, this`trace
      ensures Valid() && old(trace) <= trace && machine == Completed(cfg, old(machine), c)
    {
      Advance(c);
      if !c.owner {
        return;
      }
      Advance(c);
      if !c.unhealthy {
        return;
      }
      host := host.(unhealthy := true);
      Patch(record.(phase := Deleting), c);
    }
  }
}
