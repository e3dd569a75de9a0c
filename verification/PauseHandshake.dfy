/** The pause / block-move handshake between a Metal3Machine's reconciler and
    clusterctl. The host must not be moved before it is paused and carries its
    status; the controller writes this in up to three patches and may stop after any
    of them. A patch sends only the fields that differ between the copy the
    controller read and the copy it edited. */
module PauseHandshake {
  import opened Wrappers
  import HostModel

  const CAPM3_PAUSE := HostModel.CAPM3_PAUSE

  /** A BareMetalHost: the three annotations, its status (with and without the
      hardware details), its cluster label, and whether this machine consumes it. */
  datatype Bmh = Bmh(pause: Option<string>, blockMove: bool, statusAnnotation: Option<string>,
                     status: string, hardware: string, clusterLabel: Option<string>, owned: bool)

  /** The merge patch from `before` to `after`, applied to what the server holds. */
  function Merged(current: Bmh, before: Bmh, after: Bmh): Bmh {
    current.(pause := if before.pause != after.pause then after.pause else current.pause,
             blockMove := if before.blockMove != after.blockMove then after.blockMove else current.blockMove,
             statusAnnotation := if before.statusAnnotation != after.statusAnnotation then after.statusAnnotation
                                 else current.statusAnnotation)
  }

  /** The patch the call in flight makes next, with the copy it works on. */
  datatype Pc =
    | Idle
    | EnsureBlock(copy: Bmh)
    | PutBlock(copy: Bmh)
    | PutPause(copy: Bmh)
    | DropBlock(copy: Bmh)
    | DropStaleBlock(copy: Bmh)

  datatype State = State(bmh: Bmh, pc: Pc)

  /** `Ensure` and `SetPause` start the two calls a reconcile of a paused Cluster
      makes; `Call` is the next patch. The user may pause the host himself and the
      bare metal operator may change its status at any time. */
  datatype Event =
    | Ensure
    | SetPause
    | Call(ok: bool)
    | Crash
    | UserPauses(value: string)
    | StatusChanges(status: string, hardware: string)

  function WithPause(copy: Bmh): Bmh {
    copy.(pause := Some(CAPM3_PAUSE), statusAnnotation := Some(copy.status))
  }

  function EnsureStart(b: Bmh): Pc {
    if !b.owned || b.blockMove || b.pause.Some? then Idle else EnsureBlock(b)
  }

  function SetPauseStart(b: Bmh): Pc {
    if b.pause.Some? then if b.blockMove then DropStaleBlock(b) else Idle
    else if b.blockMove then PutPause(b) else PutBlock(b)
  }

  function CallStep(s: State): State {
    match s.pc
    case Idle => s
    case EnsureBlock(c) => State(Merged(s.bmh, c, c.(blockMove := true)), Idle)
    case PutBlock(c) => State(Merged(s.bmh, c, c.(blockMove := true)), PutPause(c.(blockMove := true)))
    case PutPause(c) => State(Merged(s.bmh, c, WithPause(c)), DropBlock(WithPause(c)))
    case DropBlock(c) => State(Merged(s.bmh, c, c.(blockMove := false)), Idle)
    case DropStaleBlock(c) => State(Merged(s.bmh, c, c.(blockMove := false)), Idle)
  }

  function Step(s: State, e: Event): State {
    match e
    case Ensure => if s.pc.Idle? then s.(pc := EnsureStart(s.bmh)) else s
    case SetPause => if s.pc.Idle? then s.(pc := SetPauseStart(s.bmh)) else s
    case Call(ok) => if ok then CallStep(s) else s.(pc := Idle)
    case Crash => s.(pc := Idle)
    case UserPauses(v) =>
      if v == CAPM3_PAUSE || s.bmh.pause.Some? then s else s.(bmh := s.bmh.(pause := Some(v)))
    case StatusChanges(st, hw) => s.(bmh := s.bmh.(status := st, hardware := hw))
  }

  function Run(s: State, es: seq<Event>): State {
    if es == [] then s else Step(Run(s, es[..|es| - 1]), es[|es| - 1])
  }

  /** clusterctl may move the host: nothing blocks it. */
  predicate Movable(b: Bmh) {
    !b.blockMove
  }

  predicate Paused(b: Bmh) {
    b.pause.Some?
  }

  predicate PausedByUs(b: Bmh) {
    b.pause == Some(CAPM3_PAUSE)
  }

  predicate StatusKept(b: Bmh) {
    PausedByUs(b) ==> b.statusAnnotation.Some?
  }

  predicate Inv(s: State) {
    && StatusKept(s.bmh)
    && match s.pc
       case Idle => true
       case EnsureBlock(c) => c.pause.None? && !c.blockMove
       case PutBlock(c) => c.pause.None? && !c.blockMove && s.bmh.statusAnnotation == c.statusAnnotation
       case PutPause(c) => c.pause.None? && c.blockMove && s.bmh.statusAnnotation == c.statusAnnotation
       case DropBlock(_) => Paused(s.bmh)
       case DropStaleBlock(_) => Paused(s.bmh)
  }

  lemma StepKeeps(s: State, e: Event)
    requires Inv(s)
    ensures Inv(Step(s, e))
    ensures !Movable(s.bmh) || Paused(s.bmh) ==> !Movable(Step(s, e).bmh) || Paused(Step(s, e).bmh)
    ensures Paused(s.bmh) ==> Paused(Step(s, e).bmh)
  {
  }

  lemma {:induction false} RunKeeps(s: State, es: seq<Event>)
    requires Inv(s)
    ensures Inv(Run(s, es))
    ensures !Movable(s.bmh) || Paused(s.bmh) ==> !Movable(Run(s, es).bmh) || Paused(Run(s, es).bmh)
  {
    if es != [] {
      RunKeeps(s, es[..|es| - 1]);
      StepKeeps(Run(s, es[..|es| - 1]), es[|es| - 1]);
    }
  }

  lemma {:induction false} RunConcat(s: State, es: seq<Event>, fs: seq<Event>)
    ensures Run(s, es + fs) == Run(Run(s, es), fs)
  {
    if fs == [] {
      assert es + fs == es;
    } else {
      var n := |fs| - 1;
      assert (es + fs)[..|es + fs| - 1] == es + fs[..n];
      RunConcat(s, es, fs[..n]);
    }
  }

  /** Once a host has carried block-move, it can be moved only while it is paused,
      and a pause of ours always comes with the status annotation, wherever the
      controller was stopped and whatever the user and the operator did meanwhile. */
  lemma MovableOnlyWhenPaused(s: State, es: seq<Event>, fs: seq<Event>)
    requires s.pc.Idle? && StatusKept(s.bmh) && Run(s, es).bmh.blockMove
    ensures Movable(Run(s, es + fs).bmh) ==> Paused(Run(s, es + fs).bmh)
    ensures PausedByUs(Run(s, es + fs).bmh) ==> Run(s, es + fs).bmh.statusAnnotation.Some?
  {
    RunKeeps(s, es);
    RunConcat(s, es, fs);
    RunKeeps(Run(s, es), fs);
  }

  /** The annotation written with our pause is the host's status as last read. */
  lemma PauseCarriesStatus(s: State, es: seq<Event>, e: Event)
    requires s.pc.Idle? && StatusKept(s.bmh)
    requires !PausedByUs(Run(s, es).bmh) && PausedByUs(Step(Run(s, es), e).bmh)
    ensures Run(s, es).pc.PutPause?
    ensures Step(Run(s, es), e).bmh.statusAnnotation == Some(Run(s, es).pc.copy.status)
  {
    RunKeeps(s, es);
  }

  const UNINTERRUPTED := [SetPause, Call(true), Call(true), Call(true)]

  lemma RunFour(s: State)
    ensures Run(s, UNINTERRUPTED) == Step(Step(Step(Step(s, SetPause), Call(true)), Call(true)), Call(true))
  {
    var e1, e2, e3 := [SetPause], [SetPause, Call(true)], [SetPause, Call(true), Call(true)];
    assert e1[..0] == [] && e2[..1] == e1 && e3[..2] == e2 && UNINTERRUPTED[..3] == e3;
    assert Run(s, []) == s;
    assert Run(s, e1) == Step(s, SetPause);
    assert Run(s, e2) == Step(Run(s, e1), Call(true));
    assert Run(s, e3) == Step(Run(s, e2), Call(true));
  }

  /** Wherever an earlier attempt stopped, one uninterrupted SetPauseAnnotation leaves
      the host paused and free to move; a pause the user set stays his. */
  lemma RerunCompletes(s: State, es: seq<Event>)
    requires s.pc.Idle? && StatusKept(s.bmh)
    ensures var stopped := Step(Run(s, es), Crash);
            var done := Run(stopped, UNINTERRUPTED);
            && done.pc.Idle? && Paused(done.bmh) && Movable(done.bmh)
            && (if Paused(stopped.bmh) then done.bmh == stopped.bmh.(blockMove := false)
                else done.bmh == stopped.bmh.(blockMove := false, pause := Some(CAPM3_PAUSE),
                                              statusAnnotation := Some(stopped.bmh.status)))
  {
    RunFour(Step(Run(s, es), Crash));
  }

  // ----- lifting the pause -----

  /** RemovePauseAnnotation, when the Cluster is no longer paused. */
  function RemovePause(b: Bmh, cluster: string): Bmh {
    if PausedByUs(b) && b.clusterLabel == Some(cluster) then b.(pause := None) else b
  }

  /** Pausing, unpausing and protecting again, for every host. One that was not paused
      comes back protected if it is owned, with its status noted, provided its Cluster
      label lets the pause be lifted; a pause of ours left from before is lifted
      likewise; a pause the user set survives, and the host stays free to move. */
  lemma PauseCycle(b: Bmh, cluster: string)
    ensures var lifted := RemovePause(Run(State(b, Idle), UNINTERRUPTED).bmh, cluster);
            var after := Step(Step(State(lifted, Idle), Ensure), Call(true)).bmh;
            var ours := b.clusterLabel == Some(cluster);
            && (b.pause.None? && ours ==> after == b.(statusAnnotation := Some(b.status), blockMove := b.owned))
            && (b.pause.None? && !ours ==>
                  after == b.(statusAnnotation := Some(b.status), blockMove := false, pause := Some(CAPM3_PAUSE)))
            && (PausedByUs(b) && ours ==> after == b.(pause := None, blockMove := b.owned))
            && (b.pause.Some? && !(PausedByUs(b) && ours) ==> after == b.(blockMove := false))
  {
    RunFour(State(b, Idle));
  }

  // ----- the methods -----

  /** The host after the first `calls` patches of SetPauseAnnotation: block-move comes
      first, then pause and status together, and block-move goes last. */
  function Interrupted(b: Bmh, calls: nat): Bmh {
    if b.pause.Some? then b.(blockMove := b.blockMove && calls == 0)
    else
      var made := if b.blockMove then calls + 1 else calls;
      if made == 0 then b
      else if made == 1 then b.(blockMove := true)
      else WithPause(b).(blockMove := made == 2)
  }

  class Manager {
    var bmh: Bmh
    ghost const start: State
    ghost var machine: State
    ghost var trace: seq<Event>

    ghost predicate Valid()
      reads this
    {
      machine == Run(start, trace) && machine.bmh == bmh
    }

    constructor (b: Bmh)
      ensures Valid() && bmh == b && start == machine == State(b, Idle) && trace == []
    {
      bmh := b;
      start, machine, trace := State(b, Idle), State(b, Idle), [];
    }

    ghost method Advance(e: Event)
      requires machine == Run(start, trace)
      modifies this`machine, this`trace
      ensures machine == Step(old(machine), e) == Run(start, trace) && trace == old(trace) + [e]
    {
      assert (trace + [e])[..|trace|] == trace;
      trace := trace + [e];
      machine := Step(machine, e);
    }

    method Patch(before: Bmh, after: Bmh, ok: bool)
      requires Valid()
      requires CallStep(machine).bmh == Merged(bmh, before, after)
      modifies this
      ensures Valid() && trace == old(trace) + [Call(ok)]
      ensures machine == if ok then CallStep(old(machine)) else old(machine).(pc := Idle)
      ensures bmh == if ok then Merged(old(bmh), before, after) else old(bmh)
    {
      Advance(Call(ok));
      if ok {
        bmh := Merged(bmh, before, after);
      }
    }

    method EnsureBlockMoveAnnotation(ok: bool)
      requires Valid() && machine.pc.Idle?
      modifies this
      ensures Valid() && machine.pc.Idle? && old(trace) < trace
      ensures bmh == old(bmh).(blockMove := old(bmh).blockMove || (ok && old(bmh).owned && old(bmh).pause.None?))
      ensures ok && bmh.owned ==> !Movable(bmh) || Paused(bmh)
    {
      Advance(Ensure);
      var host := bmh;
      if !host.owned || host.blockMove || host.pause.Some? {
        return;
      }
      Patch(host, host.(blockMove := true), ok);
    }

    /** `calls` patches reach the API server, then one fails. */
    method SetPauseAnnotation(calls: nat) returns (err: bool)
      requires Valid() && machine.pc.Idle?
      modifies this
      ensures Valid() && machine.pc.Idle? && old(trace) < trace
      ensures bmh == Interrupted(old(bmh), calls)
      ensures !err ==> Paused(bmh) && Movable(bmh)
      ensures calls >= 3 ==> !err
    {
      err := false;
      Advance(SetPause);
      var host := bmh;
      if host.pause.Some? {
        if host.blockMove {
          Patch(host, host.(blockMove := false), calls >= 1);
          err := calls == 0;
        }
      } else if host.blockMove {
        err := PauseAndFree(calls);
      } else {
        Patch(host, host.(blockMove := true), calls >= 1);
        if calls == 0 {
          return true;
        }
        err := PauseAndFree(calls - 1);
      }
    }

    /** Pause and status go together; block-move goes last. */
    method PauseAndFree(calls: nat) returns (err: bool)
      requires Valid() && machine.pc == PutPause(bmh) && bmh.pause.None? && bmh.blockMove
      modifies this
      ensures Valid() && machine.pc.Idle? && old(trace) < trace
      ensures bmh == if calls == 0 then old(bmh) else WithPause(old(bmh)).(blockMove := calls == 1)
      ensures err <==> calls < 2
    {
      var host := bmh;
      Patch(host, WithPause(host), calls >= 1);
      if calls == 0 {
        return true;
      }
      host := WithPause(host);
      Patch(host, host.(blockMove := false), calls >= 2);
      err := calls == 1;
    }
  }
}
