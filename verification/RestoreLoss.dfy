/** A remediation in which every call of the controller succeeds and yet the deleted
    Node's labels and annotations are not restored. */
module RestoreLoss {
  import opened Wrappers
  import opened Remediation
  import opened RemediationController
  import opened Reconciles

  /** The Node is fenced off: from the request to power off to the deletion. */
  lemma PowersOffAndDeletes(cfg: Config, s0: State, es: seq<Event>, n: Node) returns (fs: seq<Event>)
    requires Deletes(cfg) && AllOk(es) && !n.terminating
    requires var s := Run(cfg, s0, es);
             At(s, Running, true, false, true, Some(n)) && s.record.lastRemediated.Some? && !BackedUp(s.record, n)
    ensures AllOk(fs) && es <= fs
    ensures var t := Run(cfg, s0, fs);
            && At(t, Running, true, true, false, None) && BackedUp(t.record, n)
            && t.record.retryCount == Run(cfg, s0, es).record.retryCount && t.record.lastRemediated.Some?
  {
    RequestsPowerOff(cfg, Run(cfg, s0, es));
    fs := Reconcile(cfg, s0, es);
    fs := Outside(cfg, s0, fs, PowerChanges(false));
    BacksUp(cfg, Run(cfg, s0, fs), n);
    fs := Reconcile(cfg, s0, fs);
    DeletesNode(cfg, Run(cfg, s0, fs), n);
    fs := Reconcile(cfg, s0, fs);
  }

  /** The host is powered on again while the Node is gone. */
  lemma PowersOn(cfg: Config, s0: State, es: seq<Event>) returns (fs: seq<Event>)
    requires Deletes(cfg) && AllOk(es)
    requires var s := Run(cfg, s0, es); At(s, Running, true, true, false, None) && s.record.lastRemediated.Some?
    ensures AllOk(fs) && es <= fs
    ensures var s, t := Run(cfg, s0, es), Run(cfg, s0, fs);
            && At(t, Waiting, true, false, true, None) && SameBackup(t.record, s.record)
            && t.record.retryCount == s.record.retryCount && t.record.lastRemediated.Some?
  {
    EntersWaiting(cfg, Run(cfg, s0, es));
    fs := Reconcile(cfg, s0, es);
    ClearsPowerOff(cfg, Run(cfg, s0, fs));
    fs := Reconcile(cfg, s0, fs);
    fs := Outside(cfg, s0, fs, PowerChanges(true));
  }

  lemma StartsRunning(cfg: Config, n: Node) returns (s0: State, es: seq<Event>)
    requires Deletes(cfg) && n.labels.Some?
    ensures Initial(s0) && AllOk(es)
    ensures var s := Run(cfg, s0, es);
            && At(s, Running, true, false, true, Some(n)) && s.record.lastRemediated.Some? && s.record.retryCount == 0
            && !BackedUp(s.record, n)
  {
    var record := Record(NoPhase, 0, None, false, Blank, Blank);
    s0 := State(record, Host(false, true, true, false), Some(n), false, 0, Idle, History(false, 0, 0, None));
    assert Run(cfg, s0, []) == s0;
    Begins(cfg, s0);
    es := Reconcile(cfg, s0, []);
    KeepsBlank(cfg, s0);
    AddsFinalizer(cfg, Run(cfg, s0, es));
    KeepsBlank(cfg, Run(cfg, s0, es));
    es := Reconcile(cfg, s0, es);
  }

  /** The first two reconciles write no backup. */
  lemma KeepsBlank(cfg: Config, s: State)
    requires Deletes(cfg) && s.pc.Idle? && s.host.online && s.record.labelsBackup.Blank?
    requires s.record.phase.NoPhase? || (s.record.phase.Running? && !s.record.finalizer)
    ensures Reconciled(cfg, s).record.labelsBackup.Blank?
  {
    if s.record.phase.Running? {
      ReadsNode(cfg, s);
      var a := Calls3(cfg, s);
      assert a.pc.Save?;
      assert Completed(cfg, a, ALL_OK) == NextCall(cfg, a, ALL_OK);
    } else {
      var a := NextCall(cfg, s, ALL_OK);
      var b := NextCall(cfg, a, ALL_OK);
      assert b.pc.Save?;
      assert Completed(cfg, a, ALL_OK) == Completed(cfg, b, ALL_OK);
      assert Completed(cfg, b, ALL_OK) == NextCall(cfg, b, ALL_OK);
    }
  }

  /** Waiting times out, a retry begins, and the Node registers again, bare. */
  lemma TimesOut(cfg: Config, s0: State, es: seq<Event>, bare: Node) returns (fs: seq<Event>)
    requires Deletes(cfg) && AllOk(es)
    requires var s := Run(cfg, s0, es);
             At(s, Waiting, true, false, true, None) && s.record.retryCount == 0 && s.record.lastRemediated.Some?
    ensures AllOk(fs) && es <= fs
    ensures var s, t := Run(cfg, s0, es), Run(cfg, s0, fs);
            At(t, Running, true, false, true, Some(bare)) && SameBackup(t.record, s.record) && t.record.lastRemediated.Some?
  {
    var s := Run(cfg, s0, es);
    var late := s.record.lastRemediated.value + Timeout(cfg) * SECOND + 1;
    fs := Outside(cfg, s0, es, Tick(late));
    assert TimeToRemediate(cfg, s.record, Run(cfg, s0, fs).clock);
    Retries(cfg, Run(cfg, s0, fs));
    fs := Reconcile(cfg, s0, fs);
    fs := Outside(cfg, s0, fs, NodeChanges(Some(bare)));
  }

  /** For any two Nodes with different labels: the first is backed up and deleted, a
      retry finds the second and saves its content over the backup, and after the
      clean-up the Node has only what the second one had. Every call succeeded. */
  lemma LostThoughAllSucceeds(cfg: Config, lost: Node, bare: Node) returns (s0: State, es: seq<Event>, fs: seq<Event>, back: Node)
    requires Deletes(cfg) && !lost.terminating && !bare.terminating
    requires lost.labels.Some? && bare.labels.Some? && lost.labels != bare.labels
    ensures Initial(s0) && AllOk(fs) && es <= fs
    ensures Run(cfg, s0, es).node.None? && BackedUp(Run(cfg, s0, es).record, lost)
    ensures At(Run(cfg, s0, fs), Waiting, false, false, true, Some(back))
    ensures Content(back.labels) == Content(bare.labels) != Content(lost.labels)
    ensures Content(back.annotations) == Content(bare.annotations)
  {
    s0, es := StartsRunning(cfg, lost);
    es := PowersOffAndDeletes(cfg, s0, es, lost);
    fs := PowersOn(cfg, s0, es);
    fs := TimesOut(cfg, s0, fs, bare);
    fs := PowersOffAndDeletes(cfg, s0, fs, bare);
    fs := PowersOn(cfg, s0, fs);
    fs := Outside(cfg, s0, fs, NodeChanges(Some(bare)));
    var s := Run(cfg, s0, fs);
    Restores(cfg, s, bare);
    fs := Reconcile(cfg, s0, fs);
    RestoreGivesBackup(s.record, bare, bare);
    back := RestoredNode(s.record, bare);
  }
}
