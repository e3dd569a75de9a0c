/** Reboot remediation of an unhealthy host as a state machine.

    One controller event is one API call of the reconcile in flight, so a crash, a
    failed call or a change made by the environment can fall between any two calls.
    The environment may do anything except power the host on while this
    remediation's power-off annotation is set, and write that annotation or the
    Metal3Remediation itself. */
module Remediation {
  import opened Wrappers

  const SECOND := 1_000_000_000
  const DEFAULT_TIMEOUT := 600

  datatype Phase = NoPhase | Running | Waiting | Deleting | Failed

  /** A backup annotation: the empty (or missing) string, or the JSON of a map. */
  datatype Encoded = Blank | Json(content: map<string, string>)

  datatype Taint = Taint(key: string, value: string, effect: string)

  datatype Node = Node(annotations: Option<map<string, string>>, labels: Option<map<string, string>>,
                       taints: seq<Taint>, terminating: bool)

  datatype Host = Host(powerOff: bool, poweredOn: bool, online: bool, unhealthy: bool)

  /** The stored Metal3Remediation. Times are in nanoseconds. */
  datatype Record = Record(phase: Phase, retryCount: int, lastRemediated: Option<int>, finalizer: bool,
                           annotationsBackup: Encoded, labelsBackup: Encoded)

  datatype Config = Config(reboot: bool, retryLimit: int, timeoutSeconds: int, taintMode: bool)

  /** What GetNode told the reconcile. */
  datatype NodeView = Seen(node: Node) | Absent | Forbidden

  /** Where the reconcile in flight is; each value names the API call it makes next. */
  datatype Pc =
    | Idle
    | GetHost
    | GetNode
    | ReadOffRunning(view: NodeView)
    | SetOff
    | ReadPowerRunning(view: NodeView)
    | HandleNode(view: NodeView)
    | ReadOffWaiting(view: NodeView)
    | ClearOff(view: NodeView)
    | ReadPowerWaiting(view: NodeView)
    | Finish(view: NodeView)
    | TimedOut
    | SetOwnerCondition
    | SetUnhealthy
    | SaveWaiting(view: NodeView, sawDrained: bool)
    | Save(record: Record)

  /** Facts about the past that the properties speak of: whether the Node was fenced
      off (deleted or tainted) since the run last entered Waiting, how often Waiting
      was entered, how often the phase changed, and the first time stamp stored. */
  datatype History = History(fenced: bool, waits: nat, changes: nat, first: Option<int>)

  datatype State = State(record: Record, host: Host, node: Option<Node>, drained: bool, clock: int,
                         pc: Pc, history: History)

  datatype Event =
    | Controller(ok: bool, view: NodeView)
    | Crash
    | PowerChanges(on: bool)
    | OnlineChanges(online: bool)
    | NodeChanges(node: Option<Node>)
    | DrainChanges(drained: bool)
    | Tick(now: int)

  // ----- pieces of the manager -----

  const OUT_OF_SERVICE := Taint("node.kubernetes.io/out-of-service", "nodeshutdown", "NoExecute")

  predicate Matches(t: Taint) {
    t.key == OUT_OF_SERVICE.key && t.effect == OUT_OF_SERVICE.effect
  }

  predicate HasOutOfServiceTaint(n: Node) {
    exists k :: 0 <= k < |n.taints| && Matches(n.taints[k])
  }

  function WithoutTaint(taints: seq<Taint>): seq<Taint> {
    if taints == [] then []
    else
      var init, last := WithoutTaint(taints[..|taints| - 1]), taints[|taints| - 1];
      if Matches(last) then init else init + [last]
  }

  function AddTaint(n: Node): Node {
    n.(taints := n.taints + [OUT_OF_SERVICE])
  }

  function Marshal(m: Option<map<string, string>>): Encoded {
    if m.None? then Blank else Json(m.value)
  }

  function Unmarshal(e: Encoded): map<string, string> {
    if e.Blank? then map[] else e.content
  }

  predicate BackedUp(r: Record, n: Node) {
    r.annotationsBackup == Marshal(n.annotations) && r.labelsBackup == Marshal(n.labels)
  }

  /** mergeMaps: the first map wins. */
  function Merge(own: Option<map<string, string>>, backup: map<string, string>): Option<map<string, string>> {
    if backup == map[] then own else Some(backup + (if own.None? then map[] else own.value))
  }

  function RestoredNode(r: Record, n: Node): Node {
    n.(annotations := Merge(n.annotations, Unmarshal(r.annotationsBackup)),
       labels := Merge(n.labels, Unmarshal(r.labelsBackup)))
  }

  function Timeout(cfg: Config): int {
    if cfg.timeoutSeconds != 0 then cfg.timeoutSeconds else DEFAULT_TIMEOUT
  }

  predicate RetryLimitIsSet(cfg: Config) {
    cfg.retryLimit > 0
  }

  predicate HasReachRetryLimit(cfg: Config, r: Record) {
    cfg.retryLimit == r.retryCount
  }

  predicate TimeToRemediate(cfg: Config, r: Record, now: int) {
    r.lastRemediated.Some? && r.lastRemediated.value + Timeout(cfg) * SECOND < now
  }

  /** Time stamps are stored with whole seconds. */
  function Truncated(t: int): (r: int)
    ensures r <= t < r + SECOND && r % SECOND == 0
  {
    t - t % SECOND
  }

  // ----- the steps -----

  function Saved(s: State, r: Record): State {
    var stored := if r.lastRemediated.None? then r else r.(lastRemediated := Some(Truncated(r.lastRemediated.value)));
    var changed := stored.phase != s.record.phase;
    var h := s.history;
    s.(record := stored, pc := Idle,
       history := History(
         h.fenced && !(changed && stored.phase.Waiting?),
         if changed && stored.phase.Waiting? then h.waits + 1 else h.waits,
         if changed then h.changes + 1 else h.changes,
         if h.first.None? then stored.lastRemediated else h.first))
  }

  /** The switch on the phase, once the Node has been fetched. */
  function AfterNode(s: State, view: NodeView): Pc {
    match s.record.phase
    case Running => if s.record.finalizer then ReadOffRunning(view) else Save(s.record.(finalizer := true))
    case Waiting => ReadOffWaiting(view)
    case _ => Idle
  }

  /** Running, with the host seen powered off: fence the Node, then move on. */
  function HandleNodeStep(cfg: Config, s: State, ok: bool, view: NodeView): State {
    match view
    case Seen(n) =>
      if cfg.taintMode then
        if !HasOutOfServiceTaint(n) then
          if ok && s.node == Some(n) then s.(pc := Idle, node := Some(AddTaint(n)), history := s.history.(fenced := true))
          else s.(pc := Idle)
        else if ok && s.drained then s.(pc := SaveWaiting(view, true))
        else s.(pc := Idle)
      else if !BackedUp(s.record, n) then
        s.(pc := Save(s.record.(annotationsBackup := Marshal(n.annotations), labelsBackup := Marshal(n.labels))))
      else if ok && !n.terminating then s.(pc := Idle, node := None, history := s.history.(fenced := true))
      else s.(pc := Idle)
    case _ => s.(pc := SaveWaiting(view, false))
  }

  function AfterTimeoutCheck(cfg: Config, s: State): State {
    s.(pc := if TimeToRemediate(cfg, s.record, s.clock) then TimedOut else Idle)
  }

  /** Waiting, with the host seen powered on: undo the fencing or check the timeout. */
  function FinishStep(cfg: Config, s: State, ok: bool, view: NodeView): State {
    if !s.record.finalizer || view.Absent? then AfterTimeoutCheck(cfg, s)
    else if view.Forbidden? then s.(pc := Save(s.record.(finalizer := false)))
    else
      var n := view.node;
      if cfg.taintMode then
        if !HasOutOfServiceTaint(n) then s.(pc := Save(s.record.(finalizer := false)))
        else if ok && s.node == Some(n) then
          s.(node := Some(n.(taints := WithoutTaint(n.taints))), pc := Save(s.record.(finalizer := false)))
        else s.(pc := Idle)
      else
        var done := Save(s.record.(finalizer := false, annotationsBackup := Blank, labelsBackup := Blank));
        if s.record.annotationsBackup.Blank? && s.record.labelsBackup.Blank? then s.(pc := done)
        else if ok && s.node == Some(n) then s.(node := Some(RestoredNode(s.record, n)), pc := done)
        else s.(pc := done)
  }

  /** One API call of the reconcile; `ok` says whether the call succeeds. */
  function ControllerStep(cfg: Config, s: State, ok: bool, view: NodeView): State {
    match s.pc
    case Idle => s.(pc := GetHost)
    case GetHost =>
      if !ok then s.(pc := Idle)
      else if !s.host.online then s.(pc := Save(s.record.(phase := Failed)))
      else if !cfg.reboot then s.(pc := Idle)
      else if s.record.phase.NoPhase? then s.(pc := Save(s.record.(phase := Running, lastRemediated := Some(s.clock))))
      else s.(pc := GetNode)
    case GetNode =>
      if !ok || (view.Seen? && s.node != Some(view.node)) || (view.Absent? && s.node.Some?) then s.(pc := Idle)
      else s.(pc := AfterNode(s, view))
    case ReadOffRunning(v) =>
      if !ok then s.(pc := Idle) else s.(pc := if s.host.powerOff then ReadPowerRunning(v) else SetOff)
    case SetOff =>
      if !ok then s.(pc := Idle) else s.(pc := Idle, host := s.host.(powerOff := true))
    case ReadPowerRunning(v) =>
      if !ok || s.host.poweredOn then s.(pc := Idle) else s.(pc := HandleNode(v))
    case HandleNode(v) => HandleNodeStep(cfg, s, ok, v)
    case ReadOffWaiting(v) =>
      if !ok then s.(pc := Idle) else s.(pc := if s.host.powerOff then ClearOff(v) else ReadPowerWaiting(v))
    case ClearOff(v) =>
      if !ok then s.(pc := Idle) else s.(pc := ReadPowerWaiting(v), host := s.host.(powerOff := false))
    case ReadPowerWaiting(v) =>
      if !ok || !s.host.poweredOn then s.(pc := Idle) else s.(pc := Finish(v))
    case Finish(v) => FinishStep(cfg, s, ok, v)
    case TimedOut =>
      if RetryLimitIsSet(cfg) && !HasReachRetryLimit(cfg, s.record) then
        s.(pc := Save(s.record.(phase := Running, lastRemediated := Some(s.clock), retryCount := s.record.retryCount + 1)))
      else s.(pc := SetOwnerCondition)
    case SetOwnerCondition => s.(pc := if ok then SetUnhealthy else Idle)
    case SetUnhealthy =>
      if !ok then s.(pc := Idle) else s.(pc := Save(s.record.(phase := Deleting)), host := s.host.(unhealthy := true))
    case SaveWaiting(_, _) => if ok then Saved(s, s.record.(phase := Waiting)) else s.(pc := Idle)
    case Save(r) => if ok then Saved(s, r) else s.(pc := Idle)
  }

  /** An event that is not possible in the state leaves it as it is. */
  function Step(cfg: Config, s: State, e: Event): State {
    match e
    case Controller(ok, view) => ControllerStep(cfg, s, ok, view)
    case Crash => s.(pc := Idle)
    case PowerChanges(on) => if on && s.host.powerOff then s else s.(host := s.host.(poweredOn := on))
    case OnlineChanges(b) => s.(host := s.host.(online := b))
    case NodeChanges(n) => s.(node := n)
    case DrainChanges(b) => s.(drained := b)
    case Tick(now) => if now < s.clock then s else s.(clock := now)
  }

  function Run(cfg: Config, s: State, es: seq<Event>): State {
    if es == [] then s else Step(cfg, Run(cfg, s, es[..|es| - 1]), es[|es| - 1])
  }

  /** A Metal3Remediation that no reconcile has touched yet. */
  predicate Initial(s: State) {
    && s.record.phase.NoPhase? && s.record.retryCount == 0 && s.record.lastRemediated.None?
    && s.pc.Idle? && s.history == History(false, 0, 0, None)
  }

  // ----- what every state of every run satisfies -----

  function Limit(cfg: Config): nat {
    if cfg.retryLimit > 0 then cfg.retryLimit else 0
  }

  /** How many phase changes can still follow. */
  function Rank(cfg: Config, r: Record): int {
    match r.phase
    case NoPhase => 2 * Limit(cfg) + 4
    case Running => 2 * (Limit(cfg) - r.retryCount) + 3
    case Waiting => 2 * (Limit(cfg) - r.retryCount) + 2
    case Deleting => 1
    case Failed => 0
  }

  predicate CountsOk(cfg: Config, r: Record, waits: nat, changes: nat) {
    && 0 <= r.retryCount <= Limit(cfg)
    && (r.phase.NoPhase? ==> r.retryCount == 0)
    && (!r.phase.Failed? ==> waits == r.retryCount + (if r.phase.Waiting? || r.phase.Deleting? then 1 else 0))
    && changes + Rank(cfg, r) <= 2 * Limit(cfg) + 4
  }

  predicate TimesOk(cfg: Config, r: Record, first: Option<int>) {
    && (first.None? <==> r.lastRemediated.None?)
    && (r.phase.NoPhase? ==> r.lastRemediated.None?)
    && (r.lastRemediated.None? ==> r.retryCount == 0)
    && (r.phase.Running? || r.phase.Waiting? ==> r.lastRemediated.Some?)
    && (r.lastRemediated.Some? ==>
          && r.lastRemediated.value % SECOND == 0
          && r.lastRemediated.value >= first.value + r.retryCount * Timeout(cfg) * SECOND)
  }

  predicate PowerOk(s: State) {
    s.history.fenced ==> s.host.powerOff && !s.host.poweredOn && (s.record.phase.Running? || s.record.phase.Failed?)
  }

  /** What may be on its way to the store. */
  predicate SaveOk(cfg: Config, s: State, r: Record) {
    var was := s.record;
    || (r.phase == was.phase && r.retryCount == was.retryCount && r.lastRemediated == was.lastRemediated)
    || r == was.(phase := Failed)
    || (was.phase.NoPhase? && r.lastRemediated.Some? && r == was.(phase := Running, lastRemediated := r.lastRemediated))
    || (was.phase.Waiting? && was.retryCount < Limit(cfg) && r.lastRemediated.Some? && was.lastRemediated.Some?
        && r == was.(phase := Running, lastRemediated := r.lastRemediated, retryCount := was.retryCount + 1)
        && r.lastRemediated.value > was.lastRemediated.value + Timeout(cfg) * SECOND)
    || (was.phase.Waiting? && r == was.(phase := Deleting))
  }

  predicate PcOk(cfg: Config, s: State) {
    match s.pc
    case ReadOffRunning(_) | SetOff => s.record.phase.Running?
    case ReadPowerRunning(_) => s.record.phase.Running? && s.host.powerOff
    case HandleNode(_) => s.record.phase.Running? && s.host.powerOff && !s.host.poweredOn
    case SaveWaiting(v, sawDrained) =>
      && s.record.phase.Running? && s.host.powerOff && !s.host.poweredOn
      && (v.Seen? ==> cfg.taintMode && HasOutOfServiceTaint(v.node) && sawDrained)
    case ReadOffWaiting(_) | ClearOff(_) | ReadPowerWaiting(_) | Finish(_) => s.record.phase.Waiting?
    case TimedOut => s.record.phase.Waiting? && TimeToRemediate(cfg, s.record, s.clock)
    case SetOwnerCondition | SetUnhealthy => s.record.phase.Waiting?
    case Save(r) => SaveOk(cfg, s, r)
    case _ => true
  }

  predicate Inv(cfg: Config, s: State) {
    && CountsOk(cfg, s.record, s.history.waits, s.history.changes)
    && TimesOk(cfg, s.record, s.history.first)
    && PowerOk(s) && PcOk(cfg, s)
  }

  /** Truncation cannot take a time below a whole second it has passed. */
  lemma TruncateAtLeast(t: int, last: int, seconds: int)
    requires t >= last + seconds * SECOND && last % SECOND == 0
    ensures Truncated(t) >= last + seconds * SECOND
  {
    var bound := last / SECOND + seconds;
    assert last + seconds * SECOND == bound * SECOND;
    assert t / SECOND >= bound;
  }

  lemma SavedKeepsTimes(cfg: Config, s: State, r: Record)
    requires Inv(cfg, s) && SaveOk(cfg, s, r)
    ensures var s' := Saved(s, r); TimesOk(cfg, s'.record, s'.history.first)
  {
    if s.record.phase.Waiting? && r.phase.Running? {
      TruncateAtLeast(r.lastRemediated.value, s.record.lastRemediated.value, Timeout(cfg));
      assert (s.record.retryCount + 1) * Timeout(cfg) * SECOND
          == s.record.retryCount * Timeout(cfg) * SECOND + Timeout(cfg) * SECOND;
    } else if r.lastRemediated == s.record.lastRemediated {
      assert r.lastRemediated.Some? ==> Truncated(r.lastRemediated.value) == r.lastRemediated.value;
    } else {
      assert r.retryCount * Timeout(cfg) * SECOND == 0;
    }
  }

  lemma SavedKeepsInv(cfg: Config, s: State, r: Record)
    requires Inv(cfg, s) && SaveOk(cfg, s, r)
    ensures Inv(cfg, Saved(s, r))
  {
    SavedKeepsTimes(cfg, s, r);
  }

  lemma HandleNodeKeepsInv(cfg: Config, s: State, ok: bool)
    requires Inv(cfg, s) && s.pc.HandleNode?
    ensures Inv(cfg, HandleNodeStep(cfg, s, ok, s.pc.view))
  {
  }

  lemma FinishKeepsInv(cfg: Config, s: State, ok: bool)
    requires Inv(cfg, s) && s.pc.Finish?
    ensures Inv(cfg, FinishStep(cfg, s, ok, s.pc.view))
  {
  }

  lemma StartKeepsInv(cfg: Config, s: State, ok: bool, view: NodeView)
    requires Inv(cfg, s) && (s.pc.Idle? || s.pc.GetHost? || s.pc.GetNode?)
    ensures Inv(cfg, ControllerStep(cfg, s, ok, view))
  {
  }

  lemma RunningKeepsInv(cfg: Config, s: State, ok: bool, view: NodeView)
    requires Inv(cfg, s) && (s.pc.ReadOffRunning? || s.pc.SetOff? || s.pc.ReadPowerRunning?)
    ensures Inv(cfg, ControllerStep(cfg, s, ok, view))
  {
  }

  lemma WaitingKeepsInv(cfg: Config, s: State, ok: bool, view: NodeView)
    requires Inv(cfg, s) && (s.pc.ReadOffWaiting? || s.pc.ClearOff? || s.pc.ReadPowerWaiting?)
    ensures Inv(cfg, ControllerStep(cfg, s, ok, view))
  {
  }

  lemma TimeoutKeepsInv(cfg: Config, s: State, ok: bool, view: NodeView)
    requires Inv(cfg, s) && (s.pc.TimedOut? || s.pc.SetOwnerCondition? || s.pc.SetUnhealthy?)
    ensures Inv(cfg, ControllerStep(cfg, s, ok, view))
  {
  }

  lemma SaveWaitingKeepsInv(cfg: Config, s: State, ok: bool, view: NodeView)
    requires Inv(cfg, s) && s.pc.SaveWaiting?
    ensures Inv(cfg, ControllerStep(cfg, s, ok, view))
  {
    assert s.record.lastRemediated.Some?;
    assert Truncated(s.record.lastRemediated.value) == s.record.lastRemediated.value;
  }

  lemma ControllerKeepsInv(cfg: Config, s: State, ok: bool, view: NodeView)
    requires Inv(cfg, s)
    ensures Inv(cfg, ControllerStep(cfg, s, ok, view))
  {
    match s.pc
    case Idle | GetHost | GetNode => StartKeepsInv(cfg, s, ok, view);
    case ReadOffRunning(_) | SetOff | ReadPowerRunning(_) => RunningKeepsInv(cfg, s, ok, view);
    case ReadOffWaiting(_) | ClearOff(_) | ReadPowerWaiting(_) => WaitingKeepsInv(cfg, s, ok, view);
    case TimedOut | SetOwnerCondition | SetUnhealthy => TimeoutKeepsInv(cfg, s, ok, view);
    case HandleNode(_) => HandleNodeKeepsInv(cfg, s, ok);
    case Finish(_) => FinishKeepsInv(cfg, s, ok);
    case SaveWaiting(_, _) => SaveWaitingKeepsInv(cfg, s, ok, view);
    case Save(r) => SavedKeepsInv(cfg, s, r);
  }

  lemma StepKeepsInv(cfg: Config, s: State, e: Event)
    requires Inv(cfg, s)
    ensures Inv(cfg, Step(cfg, s, e))
  {
    if e.Controller? {
      ControllerKeepsInv(cfg, s, e.ok, e.view);
    }
  }

  lemma {:induction false} RunKeepsInv(cfg: Config, s: State, es: seq<Event>)
    requires Inv(cfg, s)
    ensures Inv(cfg, Run(cfg, s, es))
  {
    if es != [] {
      RunKeepsInv(cfg, s, es[..|es| - 1]);
      StepKeepsInv(cfg, Run(cfg, s, es[..|es| - 1]), es[|es| - 1]);
    }
  }

  // ----- counting along a run -----

  /** Number of events of the run that changed the stored phase. */
  function PhaseChanges(cfg: Config, s: State, es: seq<Event>): nat {
    if es == [] then 0
    else
      var init := es[..|es| - 1];
      PhaseChanges(cfg, s, init) + (if Run(cfg, s, init).record.phase != Run(cfg, s, es).record.phase then 1 else 0)
  }

  predicate Enters(before: State, after: State) {
    !before.record.phase.Waiting? && after.record.phase.Waiting?
  }

  /** Number of events of the run that entered Waiting. */
  function WaitingEntries(cfg: Config, s: State, es: seq<Event>): nat {
    if es == [] then 0
    else
      var init := es[..|es| - 1];
      WaitingEntries(cfg, s, init) + (if Enters(Run(cfg, s, init), Run(cfg, s, es)) then 1 else 0)
  }

  lemma StepCounts(cfg: Config, s: State, e: Event)
    ensures var s' := Step(cfg, s, e);
            && s'.history.changes == s.history.changes + (if s.record.phase != s'.record.phase then 1 else 0)
            && s'.history.waits == s.history.waits + (if Enters(s, s') then 1 else 0)
  {
  }

  lemma {:induction false} RunCounts(cfg: Config, s: State, es: seq<Event>)
    requires Initial(s)
    ensures Run(cfg, s, es).history.changes == PhaseChanges(cfg, s, es)
    ensures Run(cfg, s, es).history.waits == WaitingEntries(cfg, s, es)
  {
    if es != [] {
      RunCounts(cfg, s, es[..|es| - 1]);
      StepCounts(cfg, Run(cfg, s, es[..|es| - 1]), es[|es| - 1]);
    }
  }

  /** Retries stop exactly at the limit although the test is an equality, Waiting is
      entered once per retry and once more, and no run changes phase more than
      2 * limit + 4 times. */
  lemma RetriesBounded(cfg: Config, s: State, es: seq<Event>)
    requires Initial(s)
    ensures var r := Run(cfg, s, es).record;
            && 0 <= r.retryCount <= Limit(cfg)
            && (!r.phase.Failed? ==>
                  WaitingEntries(cfg, s, es) == r.retryCount + (if r.phase.Waiting? || r.phase.Deleting? then 1 else 0))
            && PhaseChanges(cfg, s, es) <= 2 * Limit(cfg) + 4
  {
    RunKeepsInv(cfg, s, es);
    RunCounts(cfg, s, es);
  }

  lemma FailedStays(cfg: Config, s: State, e: Event)
    requires Inv(cfg, s) && s.record.phase.Failed?
    ensures Step(cfg, s, e).record.phase.Failed?
  {
  }

  lemma {:induction false} RunConcat(cfg: Config, s: State, es: seq<Event>, fs: seq<Event>)
    ensures Run(cfg, s, es + fs) == Run(cfg, Run(cfg, s, es), fs)
  {
    if fs == [] {
      assert es + fs == es;
    } else {
      var n := |fs| - 1;
      assert (es + fs)[..|es + fs| - 1] == es + fs[..n];
      RunConcat(cfg, s, es, fs[..n]);
    }
  }

  /** Failed is absorbing. */
  lemma {:induction false} FailedIsFinal(cfg: Config, s: State, es: seq<Event>, fs: seq<Event>)
    requires Initial(s) && Run(cfg, s, es).record.phase.Failed?
    ensures Run(cfg, s, es + fs).record.phase.Failed?
    decreases |fs|
  {
    RunConcat(cfg, s, es, fs);
    if fs != [] {
      var n := |fs| - 1;
      FailedIsFinal(cfg, s, es, fs[..n]);
      RunConcat(cfg, s, es, fs[..n]);
      RunKeepsInv(cfg, s, es + fs[..n]);
      FailedStays(cfg, Run(cfg, s, es + fs[..n]), fs[n]);
    }
  }

  // ----- time -----

  /** The first time stamp the run stored. */
  function FirstStamp(cfg: Config, s: State, es: seq<Event>): Option<int> {
    if es == [] then s.record.lastRemediated
    else
      var first := FirstStamp(cfg, s, es[..|es| - 1]);
      if first.Some? then first else Run(cfg, s, es).record.lastRemediated
  }

  lemma StepFirst(cfg: Config, s: State, e: Event)
    requires Inv(cfg, s)
    ensures Step(cfg, s, e).history.first == if s.history.first.Some? then s.history.first else Step(cfg, s, e).record.lastRemediated
  {
  }

  lemma {:induction false} RunFirst(cfg: Config, s: State, es: seq<Event>)
    requires Initial(s)
    ensures Run(cfg, s, es).history.first == FirstStamp(cfg, s, es)
  {
    if es != [] {
      RunFirst(cfg, s, es[..|es| - 1]);
      RunKeepsInv(cfg, s, es[..|es| - 1]);
      StepFirst(cfg, Run(cfg, s, es[..|es| - 1]), es[|es| - 1]);
    }
  }

  /** Retries are at least a full timeout apart, although the stored stamps lose
      their fractions of a second. */
  lemma RetriesSpaced(cfg: Config, s: State, es: seq<Event>)
    requires Initial(s) && Run(cfg, s, es).record.lastRemediated.Some?
    ensures var r := Run(cfg, s, es).record;
            && FirstStamp(cfg, s, es).Some?
            && r.lastRemediated.value >= FirstStamp(cfg, s, es).value + r.retryCount * Timeout(cfg) * SECOND
  {
    RunKeepsInv(cfg, s, es);
    RunFirst(cfg, s, es);
  }

  // ----- power -----

  /** The controller call deletes or taints the Node. */
  predicate Fences(cfg: Config, s: State, e: Event) {
    e.Controller? && s.record.phase.Running? && Step(cfg, s, e).node != s.node
  }

  lemma FencingSets(cfg: Config, s: State, e: Event)
    requires Inv(cfg, s) && Fences(cfg, s, e)
    ensures Step(cfg, s, e).history.fenced
    ensures !s.host.poweredOn
  {
  }

  lemma FenceStays(cfg: Config, s: State, e: Event)
    requires Inv(cfg, s) && s.history.fenced && !Step(cfg, s, e).record.phase.Waiting?
    ensures Step(cfg, s, e).history.fenced
  {
  }

  /** From the call that deletes or taints the Node until the run enters Waiting,
      the host is off: no other copy of the workload can be running on it. */
  lemma {:induction false} HostStaysOff(cfg: Config, s: State, es: seq<Event>, e: Event, fs: seq<Event>)
    requires Initial(s) && Fences(cfg, Run(cfg, s, es), e)
    requires forall k :: 0 <= k <= |fs| ==> !Run(cfg, s, es + [e] + fs[..k]).record.phase.Waiting?
    ensures !Run(cfg, s, es).host.poweredOn && !Run(cfg, s, es + [e] + fs).host.poweredOn
    ensures Run(cfg, s, es + [e] + fs).history.fenced
    decreases |fs|
  {
    RunKeepsInv(cfg, s, es);
    FencingSets(cfg, Run(cfg, s, es), e);
    assert (es + [e])[..|es|] == es;
    RunKeepsInv(cfg, s, es + [e] + fs);
    if fs == [] {
      assert es + [e] + fs == es + [e];
    } else {
      var n := |fs| - 1;
      var before := es + [e] + fs[..n];
      assert (es + [e] + fs)[..|es + [e] + fs| - 1] == before;
      assert forall k :: 0 <= k <= n ==> fs[..n][..k] == fs[..k];
      HostStaysOff(cfg, s, es, e, fs[..n]);
      RunKeepsInv(cfg, s, before);
      assert fs[..|fs|] == fs;
      FenceStays(cfg, Run(cfg, s, before), fs[n]);
    }
  }

  /** What the reconcile in flight knows of the Node. */
  function ViewOf(pc: Pc): Option<NodeView> {
    match pc
    case ReadOffRunning(v) => Some(v)
    case ReadPowerRunning(v) => Some(v)
    case HandleNode(v) => Some(v)
    case ReadOffWaiting(v) => Some(v)
    case ClearOff(v) => Some(v)
    case ReadPowerWaiting(v) => Some(v)
    case Finish(v) => Some(v)
    case SaveWaiting(v, _) => Some(v)
    case _ => None
  }

  predicate Shows(s: State, v: NodeView) {
    s.pc.GetNode? && (v.Seen? ==> s.node == Some(v.node)) && (v.Absent? ==> s.node.None?)
  }

  /** The view is what the store held when the Node was fetched. */
  ghost predicate WasShown(cfg: Config, s: State, es: seq<Event>, v: NodeView) {
    exists k :: 0 <= k <= |es| && Shows(Run(cfg, s, es[..k]), v)
  }

  lemma ViewAppears(cfg: Config, s: State, e: Event, v: NodeView)
    requires ViewOf(Step(cfg, s, e).pc) == Some(v) && ViewOf(s.pc) != Some(v)
    ensures Shows(s, v)
  {
  }

  lemma {:induction false} ViewWasShown(cfg: Config, s: State, es: seq<Event>, v: NodeView)
    requires Initial(s) && ViewOf(Run(cfg, s, es).pc) == Some(v)
    ensures WasShown(cfg, s, es, v)
  {
    var n := |es| - 1;
    var before := Run(cfg, s, es[..n]);
    if ViewOf(before.pc) == Some(v) {
      ViewWasShown(cfg, s, es[..n], v);
      var k :| 0 <= k <= n && Shows(Run(cfg, s, es[..n][..k]), v);
      assert es[..n][..k] == es[..k];
    } else {
      ViewAppears(cfg, before, es[n], v);
      assert Shows(Run(cfg, s, es[..n]), v);
    }
  }

  ghost predicate WasDrained(cfg: Config, s: State, es: seq<Event>) {
    exists k :: 0 <= k <= |es| && Run(cfg, s, es[..k]).pc.HandleNode? && Run(cfg, s, es[..k]).drained
  }

  lemma DrainAppears(cfg: Config, s: State, e: Event)
    requires var pc := Step(cfg, s, e).pc; pc.SaveWaiting? && pc.sawDrained && pc != s.pc
    ensures s.pc.HandleNode? && s.drained
  {
  }

  lemma {:induction false} DrainWasSeen(cfg: Config, s: State, es: seq<Event>)
    requires Initial(s) && Run(cfg, s, es).pc.SaveWaiting? && Run(cfg, s, es).pc.sawDrained
    ensures WasDrained(cfg, s, es)
  {
    var n := |es| - 1;
    var before := Run(cfg, s, es[..n]);
    if before.pc == Run(cfg, s, es).pc {
      DrainWasSeen(cfg, s, es[..n]);
      var k :| 0 <= k <= n && Run(cfg, s, es[..n][..k]).pc.HandleNode? && Run(cfg, s, es[..n][..k]).drained;
      assert es[..n][..k] == es[..k];
    } else {
      DrainAppears(cfg, before, es[n]);
      assert Run(cfg, s, es[..n]).drained;
    }
  }

  /** Waiting is entered only with the power-off request standing, the host off, and
      the Node found gone, out of reach, or tainted and drained; found, that is, in the
      store when it was read. */
  lemma WaitingEntered(cfg: Config, s: State, es: seq<Event>, e: Event)
    requires Initial(s) && Enters(Run(cfg, s, es), Step(cfg, Run(cfg, s, es), e))
    ensures var now := Run(cfg, s, es);
            && now.host.powerOff && !now.host.poweredOn && now.pc.SaveWaiting?
            && WasShown(cfg, s, es, now.pc.view)
            && (now.pc.view.Seen? ==> cfg.taintMode && HasOutOfServiceTaint(now.pc.view.node) && WasDrained(cfg, s, es))
  {
    RunKeepsInv(cfg, s, es);
    ViewWasShown(cfg, s, es, Run(cfg, s, es).pc.view);
    if Run(cfg, s, es).pc.sawDrained {
      DrainWasSeen(cfg, s, es);
    }
  }

  /** The power-off annotation is removed in phase Waiting and nowhere else. */
  lemma PowerOffClearedInWaiting(cfg: Config, s: State, es: seq<Event>, e: Event)
    requires Initial(s) && Run(cfg, s, es).host.powerOff && !Step(cfg, Run(cfg, s, es), e).host.powerOff
    ensures Run(cfg, s, es).record.phase.Waiting? && e.Controller?
  {
    RunKeepsInv(cfg, s, es);
  }

  // ----- backup and restore -----

  function Content(m: Option<map<string, string>>): map<string, string> {
    if m.None? then map[] else m.value
  }

  /** A Node is deleted only when the stored backup is exactly its annotations and
      labels, as the store held them when this reconcile fetched it. */
  lemma DeletedNodeIsBackedUp(cfg: Config, s: State, es: seq<Event>, e: Event)
    requires Initial(s) && Fences(cfg, Run(cfg, s, es), e) && !cfg.taintMode
    ensures var now := Run(cfg, s, es);
            && now.pc.HandleNode? && now.pc.view.Seen? && Step(cfg, now, e).node.None?
            && BackedUp(now.record, now.pc.view.node) && WasShown(cfg, s, es, now.pc.view)
  {
    RunKeepsInv(cfg, s, es);
    ViewWasShown(cfg, s, es, Run(cfg, s, es).pc.view);
  }

  predicate SameBackup(a: Record, b: Record) {
    a.annotationsBackup == b.annotationsBackup && a.labelsBackup == b.labelsBackup
  }

  /** A Running reconcile saves the content of another Node over the backup. */
  predicate Overwrites(s: State, e: Event) {
    e.Controller? && e.ok && Overwriting(s)
  }

  /** A Waiting reconcile saves that the Node was cleaned up. */
  predicate CleansUp(s: State, e: Event) {
    && e.Controller? && e.ok && s.record.phase.Waiting? && s.pc.Save?
    && s.record.finalizer && !s.pc.record.finalizer
  }

  /** What is on its way to the store changes the backup only so. */
  predicate SavesBackup(s: State) {
    s.pc.Save? ==>
      || SameBackup(s.pc.record, s.record) || s.record.phase.Running?
      || (s.record.phase.Waiting? && s.record.finalizer && !s.pc.record.finalizer)
  }

  lemma StepSavesBackup(cfg: Config, s: State, e: Event)
    requires Inv(cfg, s) && SavesBackup(s)
    ensures SavesBackup(Step(cfg, s, e))
  {
  }

  lemma StepKeepsBackup(cfg: Config, s: State, e: Event)
    requires SavesBackup(s)
    ensures !Overwrites(s, e) && !CleansUp(s, e) ==> SameBackup(Step(cfg, s, e).record, s.record)
    ensures Overwrites(s, e) ==> SameBackup(Step(cfg, s, e).record, s.pc.record)
  {
  }

  lemma {:induction false} RunSavesBackup(cfg: Config, s: State, es: seq<Event>)
    requires Initial(s)
    ensures SavesBackup(Run(cfg, s, es))
  {
    if es != [] {
      RunSavesBackup(cfg, s, es[..|es| - 1]);
      RunKeepsInv(cfg, s, es[..|es| - 1]);
      StepSavesBackup(cfg, Run(cfg, s, es[..|es| - 1]), es[|es| - 1]);
    }
  }

  /** The backup is the Node's content after each of the events. */
  predicate BackupKept(cfg: Config, s: State, fs: seq<Event>, n: Node) {
    BackedUp(Run(cfg, s, fs).record, n) && (fs != [] ==> BackupKept(cfg, s, fs[..|fs| - 1], n))
  }

  predicate NoOverwrite(cfg: Config, s: State, fs: seq<Event>) {
    fs != [] ==> NoOverwrite(cfg, s, fs[..|fs| - 1]) && !Overwrites(Run(cfg, s, fs[..|fs| - 1]), fs[|fs| - 1])
  }

  predicate NoCleanUp(cfg: Config, s: State, fs: seq<Event>) {
    fs != [] ==> NoCleanUp(cfg, s, fs[..|fs| - 1]) && !CleansUp(Run(cfg, s, fs[..|fs| - 1]), fs[|fs| - 1])
  }

  lemma {:induction false} BackupKeptExactly(cfg: Config, s: State, es: seq<Event>, fs: seq<Event>, n: Node)
    requires Initial(s) && BackedUp(Run(cfg, s, es).record, n) && NoCleanUp(cfg, Run(cfg, s, es), fs)
    ensures BackupKept(cfg, Run(cfg, s, es), fs, n) <==> NoOverwrite(cfg, Run(cfg, s, es), fs)
    decreases |fs|
  {
    if fs != [] {
      var less := fs[..|fs| - 1];
      BackupKeptExactly(cfg, s, es, less, n);
      RunConcat(cfg, s, es, less);
      RunSavesBackup(cfg, s, es + less);
      StepKeepsBackup(cfg, Run(cfg, s, es + less), fs[|fs| - 1]);
    }
  }

  /** From the deletion of a Node until its clean-up the stored backup stays that Node's
      content if and only if no Running reconcile saves another Node's over it. */
  lemma BackupSurvivesExactly(cfg: Config, s: State, es: seq<Event>, e: Event, fs: seq<Event>)
    requires Initial(s) && Fences(cfg, Run(cfg, s, es), e) && !cfg.taintMode
    requires NoCleanUp(cfg, Run(cfg, s, es + [e]), fs)
    ensures Run(cfg, s, es).pc.HandleNode? && Run(cfg, s, es).pc.view.Seen?
    ensures BackupKept(cfg, Run(cfg, s, es + [e]), fs, Run(cfg, s, es).pc.view.node) <==>
            NoOverwrite(cfg, Run(cfg, s, es + [e]), fs)
  {
    DeletedNodeIsBackedUp(cfg, s, es, e);
    assert (es + [e])[..|es|] == es;
    BackupKeptExactly(cfg, s, es + [e], fs, Run(cfg, s, es).pc.view.node);
  }

  /** The reconcile works on a Node whose content the record has and the store has not. */
  predicate SavesOther(s: State, r: Record) {
    s.pc.HandleNode? && s.pc.view.Seen? && BackedUp(r, s.pc.view.node) && !BackedUp(s.record, s.pc.view.node)
  }

  /** At some moment of the run such a Node was being handled, fetched from the store. */
  ghost predicate CameFromNode(cfg: Config, s: State, es: seq<Event>, r: Record) {
    || (SavesOther(Run(cfg, s, es), r) && WasShown(cfg, s, es, Run(cfg, s, es).pc.view))
    || (es != [] && CameFromNode(cfg, s, es[..|es| - 1], r))
  }

  predicate Overwriting(s: State) {
    s.pc.Save? && s.record.phase.Running? && !SameBackup(s.pc.record, s.record)
  }

  lemma SaveAppears(cfg: Config, s: State, e: Event)
    requires Inv(cfg, s) && Overwriting(Step(cfg, s, e))
    ensures var t := Step(cfg, s, e); SavesOther(s, t.pc.record) || (Overwriting(s) && s.pc == t.pc)
  {
  }

  /** What overwrites a backup is the content of a Node that was registered, and fetched,
      with content other than the backup's. */
  lemma {:induction false} OverwriteIsAnotherNode(cfg: Config, s: State, es: seq<Event>)
    requires Initial(s) && Overwriting(Run(cfg, s, es))
    ensures CameFromNode(cfg, s, es, Run(cfg, s, es).pc.record)
  {
    var less := es[..|es| - 1];
    RunKeepsInv(cfg, s, less);
    SaveAppears(cfg, Run(cfg, s, less), es[|es| - 1]);
    if Overwriting(Run(cfg, s, less)) && Run(cfg, s, less).pc == Run(cfg, s, es).pc {
      OverwriteIsAnotherNode(cfg, s, less);
    } else {
      ViewWasShown(cfg, s, less, Run(cfg, s, less).pc.view);
    }
  }

  /** A restore that reaches the API server gives the new Node the backed-up entries,
      overridden key by key by its own. */
  lemma RestoreGivesBackup(r: Record, lost: Node, node: Node)
    requires BackedUp(r, lost)
    ensures Content(RestoredNode(r, node).annotations) == Content(lost.annotations) + Content(node.annotations)
    ensures Content(RestoredNode(r, node).labels) == Content(lost.labels) + Content(node.labels)
    ensures RestoredNode(r, node).taints == node.taints
  {
  }

  /** A failed or conflicting Node update is only logged: the backup is dropped all the
      same, and the Node ends up restored exactly when the update was written or the
      store held the restored Node already. */
  lemma RestoreLostExactlyWhen(cfg: Config, s: State, ok: bool)
    requires s.pc.Finish? && s.pc.view.Seen? && s.record.finalizer && !cfg.taintMode
    ensures var s' := ControllerStep(cfg, s, ok, s.pc.view);
            && s'.pc.Save? && !s'.pc.record.finalizer
            && s'.pc.record.annotationsBackup.Blank? && s'.pc.record.labelsBackup.Blank?
            && (s'.node == Some(RestoredNode(s.record, s.pc.view.node)) <==>
                  (ok && s.node == Some(s.pc.view.node)) || s.node == Some(RestoredNode(s.record, s.pc.view.node)))
  {
  }

  /** Over a whole run: with no overwriting since the deletion, the Node that came back
      gets the deleted Node's entries under its own exactly when the update is written
      or it has them already. */
  lemma LostNodeRestoredExactly(cfg: Config, s: State, es: seq<Event>, e: Event, fs: seq<Event>, ok: bool)
    requires Initial(s) && Fences(cfg, Run(cfg, s, es), e) && !cfg.taintMode
    requires NoCleanUp(cfg, Run(cfg, s, es + [e]), fs) && NoOverwrite(cfg, Run(cfg, s, es + [e]), fs)
    requires var t := Run(cfg, s, es + [e] + fs); t.pc.Finish? && t.pc.view.Seen? && t.record.finalizer
    ensures Run(cfg, s, es).pc.HandleNode? && Run(cfg, s, es).pc.view.Seen?
    ensures var lost, t := Run(cfg, s, es).pc.view.node, Run(cfg, s, es + [e] + fs);
            var back := t.pc.view.node;
            var restored := RestoredNode(t.record, back);
            && Content(restored.annotations) == Content(lost.annotations) + Content(back.annotations)
            && Content(restored.labels) == Content(lost.labels) + Content(back.labels)
            && (ControllerStep(cfg, t, ok, t.pc.view).node == Some(restored) <==>
                  (ok && t.node == Some(back)) || t.node == Some(restored))
  {
    BackupSurvivesExactly(cfg, s, es, e, fs);
    RunConcat(cfg, s, es + [e], fs);
    var lost, t := Run(cfg, s, es).pc.view.node, Run(cfg, s, es + [e] + fs);
    assert BackedUp(t.record, lost);
    RestoreGivesBackup(t.record, lost, t.pc.view.node);
    RestoreLostExactlyWhen(cfg, t, ok);
  }
}
