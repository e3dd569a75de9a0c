/** BareMetalHosts as the Metal3Machine manager reads and writes them: choosing a
    host, claiming it, provisioning it and letting it go. */
module HostModel {
  import opened Wrappers

  const CAPM3_PAUSE := "metal3.io/capm3"

  datatype Consumer = MachineRef(machine: string) | ClusterRef(cluster: string) | OtherRef(object: string)

  datatype Image = Image(url: string, checksum: string, checksumType: string, diskFormat: string)

  datatype Secret = Secret(name: string, namespace: string)

  /** The fields only this controller writes: ConsumerRef, the node-reuse label,
      Image and CustomDeploy. */
  datatype Core = Core(consumer: Option<Consumer>, reuse: Option<string>, image: Option<Image>, deploy: Option<string>)

  /** Fields the user edits too: the cluster label, the secrets, cleaning mode,
      Online and the pause annotation. */
  datatype Extra = Extra(clusterLabel: Option<string>, userData: Option<Secret>, metaData: Option<Secret>,
                         networkData: Option<Secret>, cleaning: string, online: bool, pause: Option<string>)

  datatype Provisioning =
    | StateNone | Unmanaged | Registering | MatchProfile | Preparing | Ready | Available | Provisioning
    | Provisioned | ExternallyProvisioned | Deprovisioning | Inspecting | PoweringOffBeforeDelete | Deleting
    | OtherState

  datatype Status = Status(state: Provisioning, poweredOn: bool, error: bool, deleting: bool, unhealthy: bool,
                           domain: Option<string>, disablePowerOff: bool)

  datatype Host = Host(core: Core, extra: Extra, status: Status)

  /** What a Metal3Machine asks for. `group` is the name under which its hosts are
      kept for reuse, when its owner can be resolved. */
  datatype MachineSpec = MachineSpec(image: Option<Image>, deploy: Option<string>, dataTemplate: bool,
                                     cleaning: string, cluster: string, group: Option<string>)

  /** The secrets in the machine's status. */
  datatype MachineData = MachineData(userData: Option<Secret>, metaData: Option<Secret>, networkData: Option<Secret>)

  datatype Error = NothingConfigured | CrossNamespace

  /** The merge patch from `before` to `after`, applied to what the server holds. */
  function Patched(current: Host, before: Host, after: Host): Host {
    Host(PatchedCore(current.core, before.core, after.core), PatchedExtra(current.extra, before.extra, after.extra),
         current.status)
  }

  function Field<T(==)>(current: T, before: T, after: T): T {
    if before == after then current else after
  }

  function PatchedCore(c: Core, b: Core, a: Core): Core {
    Core(Field(c.consumer, b.consumer, a.consumer), Field(c.reuse, b.reuse, a.reuse),
         Field(c.image, b.image, a.image), Field(c.deploy, b.deploy, a.deploy))
  }

  function PatchedExtra(c: Extra, b: Extra, a: Extra): Extra {
    Extra(Field(c.clusterLabel, b.clusterLabel, a.clusterLabel), Field(c.userData, b.userData, a.userData),
          Field(c.metaData, b.metaData, a.metaData), Field(c.networkData, b.networkData, a.networkData),
          Field(c.cleaning, b.cleaning, a.cleaning), Field(c.online, b.online, a.online), Field(c.pause, b.pause, a.pause))
  }

  // ----- group names -----

  function ControlPlaneGroup(name: string): string {
    "cp-" + name
  }

  function DeploymentGroup(name: string): string {
    "md-" + name
  }

  /** A control plane and a MachineDeployment never share a group, and neither do two
      of either kind. */
  lemma GroupsDisjoint(a: string, b: string)
    ensures ControlPlaneGroup(a) != DeploymentGroup(b)
    ensures ControlPlaneGroup(a) == ControlPlaneGroup(b) <==> a == b
    ensures DeploymentGroup(a) == DeploymentGroup(b) <==> a == b
  {
    assert ControlPlaneGroup(a)[0] == 'c' && DeploymentGroup(b)[0] == 'm';
    assert ControlPlaneGroup(a)[3..] == a && ControlPlaneGroup(b)[3..] == b;
    assert DeploymentGroup(a)[3..] == a && DeploymentGroup(b)[3..] == b;
  }

  // ----- claiming, provisioning, releasing -----

  predicate ConsumedBy(c: Core, machine: string) {
    c.consumer == Some(MachineRef(machine))
  }

  predicate MachineConsumed(c: Core) {
    c.consumer.Some? && c.consumer.value.MachineRef?
  }

  /** setHostConsumerRef: claims the host and takes the reuse label off. */
  function Claimed(c: Core, machine: string): Core {
    c.(consumer := Some(MachineRef(machine)), reuse := None)
  }

  /** The namespace check and default applied to a secret reference. */
  function Local(s: Option<Secret>, namespace: string): Result<Option<Secret>, Error> {
    if s.None? then Ok(None)
    else if s.value.namespace == "" then Ok(Some(s.value.(namespace := namespace)))
    else if s.value.namespace != namespace then Err(CrossNamespace)
    else Ok(s)
  }

  function Or(s: Option<Secret>, other: Option<Secret>): Option<Secret> {
    if s.Some? then s else other
  }

  /** setHostSpec: provisions a host that is not provisioned yet, once the user data
      is known, and turns it on. */
  function Provision(h: Host, spec: MachineSpec, d: MachineData, namespace: string): Result<Host, Error> {
    var base := h.extra.(cleaning := if spec.cleaning != "" then spec.cleaning else h.extra.cleaning, online := true);
    if h.core.image.Some? || h.core.deploy.Some? || d.userData.None? then Ok(h.(extra := base))
    else if spec.image.None? && spec.deploy.None? then Err(NothingConfigured)
    else
      var user := Local(d.userData, namespace);
      var meta := Local(Or(d.metaData, h.extra.metaData), namespace);
      var network := Local(Or(d.networkData, h.extra.networkData), namespace);
      if user.Err? || meta.Err? || network.Err? then Err(CrossNamespace)
      else
        Ok(h.(core := h.core.(image := spec.image, deploy := spec.deploy),
              extra := base.(userData := user.value, metaData := meta.value, networkData := network.value)))
  }

  /** The secret a reference ends up as: in the machine's namespace. */
  ghost predicate InNamespace(after: Option<Secret>, given: Option<Secret>, namespace: string) {
    if given.None? then after.None? else after == Some(Secret(given.value.name, namespace))
  }

  /** Field by field what provisioning leaves: of a host with nothing on it, once the
      user data is known, image and deploy method of the spec and the machine's own
      secrets before those the host had; of any other host none of these changes. */
  ghost predicate ProvisionedAs(h: Host, after: Host, spec: MachineSpec, d: MachineData, namespace: string) {
    && after.core.consumer == h.core.consumer && after.core.reuse == h.core.reuse && after.status == h.status
    && after.extra.online && after.extra.clusterLabel == h.extra.clusterLabel && after.extra.pause == h.extra.pause
    && after.extra.cleaning == (if spec.cleaning == "" then h.extra.cleaning else spec.cleaning)
    && if h.core.image.None? && h.core.deploy.None? && d.userData.Some? then
         && (spec.image.Some? || spec.deploy.Some?)
         && after.core.image == spec.image && after.core.deploy == spec.deploy
         && InNamespace(after.extra.userData, d.userData, namespace)
         && InNamespace(after.extra.metaData, if d.metaData.Some? then d.metaData else h.extra.metaData, namespace)
         && InNamespace(after.extra.networkData, if d.networkData.Some? then d.networkData else h.extra.networkData, namespace)
       else
         && after.core.image == h.core.image && after.core.deploy == h.core.deploy
         && after.extra.userData == h.extra.userData && after.extra.metaData == h.extra.metaData
         && after.extra.networkData == h.extra.networkData
  }

  predicate Foreign(s: Option<Secret>, namespace: string) {
    s.Some? && s.value.namespace != "" && s.value.namespace != namespace
  }

  /** Provisioning does that, and it fails exactly for a spec with nothing to provision or
      a secret of another namespace. */
  lemma ProvisionExactly(h: Host, spec: MachineSpec, d: MachineData, namespace: string)
    ensures var r := Provision(h, spec, d, namespace);
            && (r.Ok? ==> ProvisionedAs(h, r.value, spec, d, namespace))
            && (r.Err? <==>
                  && h.core.image.None? && h.core.deploy.None? && d.userData.Some?
                  && ((spec.image.None? && spec.deploy.None?) || Foreign(d.userData, namespace)
                      || Foreign(if d.metaData.Some? then d.metaData else h.extra.metaData, namespace)
                      || Foreign(if d.networkData.Some? then d.networkData else h.extra.networkData, namespace)))
  {
  }

  /** What Associate makes of its copy: labelled, claimed and, when no data template is
      to be waited for, provisioned. */
  function Associated(h: Host, machine: string, spec: MachineSpec, d: MachineData, namespace: string): Result<Host, Error> {
    var mine := Host(Claimed(h.core, machine), h.extra.(clusterLabel := Some(spec.cluster)), h.status);
    if spec.dataTemplate then Ok(mine) else Provision(mine, spec, d, namespace)
  }

  /** What Update makes of its copy: it claims the host again without looking. */
  function Updated(h: Host, machine: string, spec: MachineSpec, d: MachineData, namespace: string): Result<Host, Error> {
    Provision(h.(core := Claimed(h.core, machine)), spec, d, namespace)
  }

  function OnlineAfter(h: Host, fastTrack: bool): bool {
    h.status.disablePowerOff || (fastTrack && h.extra.cleaning != "disabled")
  }

  /** What Delete first makes of the host. */
  function Deprovision(h: Host, d: MachineData, fastTrack: bool): Host {
    h.(core := h.core.(image := None, deploy := None),
       extra := h.extra.(userData := if d.userData.Some? then None else h.extra.userData,
                         metaData := if d.metaData.Some? then None else h.extra.metaData,
                         networkData := if d.networkData.Some? then None else h.extra.networkData,
                         online := OnlineAfter(h, fastTrack)))
  }

  /** Delete must wait for the host to be deprovisioned. */
  predicate MustWait(s: Status) {
    match s.state
    case Registering | MatchProfile | Inspecting | Ready | Available | StateNone | Unmanaged => false
    case ExternallyProvisioned => s.poweredOn
    case _ => true
  }

  /** Whether the freed host is kept for its group. */
  datatype Reuse = NoReuse | KeepFor(group: string, cluster: string)

  /** What Delete makes of a host that is ready to go. */
  function LetGo(h: Host, spec: MachineSpec, r: Reuse): Host {
    h.(core := h.core.(consumer := if r.NoReuse? then None else Some(ClusterRef(r.cluster)),
                       reuse := if r.NoReuse? then h.core.reuse else Some(r.group)),
       extra := h.extra.(clusterLabel := if h.extra.clusterLabel == Some(spec.cluster) then None else h.extra.clusterLabel,
                         pause := if h.extra.pause == Some(CAPM3_PAUSE) then None else h.extra.pause))
  }

  /** DissociateM3Metadata, which a Delete reconcile calls first: of the machine's data,
      what its spec did not give is forgotten. */
  function Dissociated(d: MachineData, inSpec: MachineData): MachineData {
    d.(metaData := if inSpec.metaData.None? then None else d.metaData,
       networkData := if inSpec.networkData.None? then None else d.networkData)
  }

  /** Of what was provisioned on the host, exactly those references survive its release
      that the machine's status had, or has, no counterpart for; with a data template
      dissociation has cleared the counterparts of metaData and networkData. */
  lemma FreedHostKeepsExactly(h: Host, d: MachineData, inSpec: MachineData, fastTrack: bool, spec: MachineSpec, r: Reuse)
    ensures var freed := LetGo(Deprovision(h, Dissociated(d, inSpec), fastTrack), spec, r);
            && (freed.extra.metaData.Some? <==> h.extra.metaData.Some? && (d.metaData.None? || inSpec.metaData.None?))
            && (freed.extra.networkData.Some? <==> h.extra.networkData.Some? && (d.networkData.None? || inSpec.networkData.None?))
            && (freed.extra.userData.Some? <==> h.extra.userData.Some? && d.userData.None?)
            && (freed.extra.metaData.Some? ==> freed.extra.metaData == h.extra.metaData)
            && (freed.extra.networkData.Some? ==> freed.extra.networkData == h.extra.networkData)
  {
  }

  // ----- the manager's methods on its copy of the host -----

  /** The copy of a BareMetalHost a reconcile has in memory. */
  class Copy {
    var core: Core
    var extra: Extra
    const status: Status

    constructor (h: Host)
      ensures View() == h
    {
      core, extra, status := h.core, h.extra, h.status;
    }

    function View(): Host
      reads this
    {
      Host(core, extra, status)
    }
  }

  datatype Outcome = NotMine | Deprovisioning | Blocked | Free

  class Manager {
    const name: string
    const namespace: string
    const spec: MachineSpec
    const data: MachineData

    constructor (name: string, namespace: string, spec: MachineSpec, data: MachineData)
      ensures this.name == name && this.namespace == namespace && this.spec == spec && this.data == data
    {
      this.name, this.namespace, this.spec, this.data := name, namespace, spec, data;
    }

    method SetHostConsumerRef(host: Copy)
      modifies host
      ensures host.core.consumer == Some(MachineRef(name)) && host.core.reuse.None?
      ensures host.View() == old(host.View()).(core := Claimed(old(host.core), name))
    {
      host.core := host.core.(consumer := Some(MachineRef(name)));
      if host.core.reuse.Some? {
        host.core := host.core.(reuse := None);
      }
    }

    method SetHostSpec(host: Copy) returns (err: Option<Error>)
      modifies host
      ensures err.None? <==> Provision(old(host.View()), spec, data, namespace).Ok?
      ensures err.None? ==> Provision(old(host.View()), spec, data, namespace) == Ok(host.View())
      ensures err.Some? ==> Provision(old(host.View()), spec, data, namespace) == Err(err.value)
      ensures err.None? ==> ProvisionedAs(old(host.View()), host.View(), spec, data, namespace)
    {
      ProvisionExactly(host.View(), spec, data, namespace);
      if host.core.image.None? && host.core.deploy.None? && data.userData.Some? {
        if spec.image.None? && spec.deploy.None? {
          return Some(NothingConfigured);
        }
        if spec.image.Some? {
          host.core := host.core.(image := spec.image);
        }
        if spec.deploy.Some? {
          host.core := host.core.(deploy := spec.deploy);
        }
        var user := Local(data.userData, namespace);
        if user.Err? {
          return Some(CrossNamespace);
        }
        host.extra := host.extra.(userData := user.value);
        if data.metaData.Some? {
          host.extra := host.extra.(metaData := data.metaData);
        }
        var meta := Local(host.extra.metaData, namespace);
        if meta.Err? {
          return Some(CrossNamespace);
        }
        host.extra := host.extra.(metaData := meta.value);
        if data.networkData.Some? {
          host.extra := host.extra.(networkData := data.networkData);
        }
        var network := Local(host.extra.networkData, namespace);
        if network.Err? {
          return Some(CrossNamespace);
        }
        host.extra := host.extra.(networkData := network.value);
      }
      if spec.cleaning != "" && host.extra.cleaning != spec.cleaning {
        host.extra := host.extra.(cleaning := spec.cleaning);
      }
      host.extra := host.extra.(online := true);
      err := None;
    }

    /** The body of Associate between choosing the host and patching it. */
    method Associate(host: Copy) returns (err: Option<Error>)
      modifies host
      ensures err.None? ==> Associated(old(host.View()), name, spec, data, namespace) == Ok(host.View())
      ensures err.Some? ==> Associated(old(host.View()), name, spec, data, namespace) == Err(err.value)
      ensures err.None? ==> host.extra.clusterLabel == Some(spec.cluster)
      ensures err.None? ==> host.core.consumer == Some(MachineRef(name)) && host.core.reuse.None?
      ensures err.None? && spec.dataTemplate ==>
                host.core.image == old(host.core.image) && host.core.deploy == old(host.core.deploy) && host.extra.online == old(host.extra.online)
    {
      host.extra := host.extra.(clusterLabel := Some(spec.cluster));
      SetHostConsumerRef(host);
      err := None;
      if !spec.dataTemplate {
        err := SetHostSpec(host);
      }
    }

    /** The body of Update between reading the host and patching it. */
    method Update(host: Copy) returns (err: Option<Error>)
      modifies host
      ensures err.None? ==> Updated(old(host.View()), name, spec, data, namespace) == Ok(host.View())
      ensures err.Some? ==> Updated(old(host.View()), name, spec, data, namespace) == Err(err.value)
      ensures err.None? ==> host.core.consumer == Some(MachineRef(name)) && host.core.reuse.None?
    {
      SetHostConsumerRef(host);
      err := SetHostSpec(host);
    }

    /** The body of Delete between reading the host and patching it. A host is let go
        exactly when it is the machine's, nothing is left to clean, and it is in one of
        the states listed; what it is left as is written out field by field. */
    method Delete(host: Copy, fastTrack: bool, reuse: Reuse) returns (r: Outcome)
      modifies host
      ensures var h := old(host.View());
              var clean := Deprovision(h, data, fastTrack);
              if !ConsumedBy(h.core, name) then r == NotMine && host.View() == h
              else if clean != h then r == Outcome.Deprovisioning && host.View() == clean
              else if MustWait(h.status) then r == Blocked && host.View() == h
              else r == Outcome.Free && host.View() == LetGo(h, spec, reuse)
      ensures r == Outcome.Free <==>
                (&& old(host.core.consumer) == Some(MachineRef(name)) && Cleaned(old(host.View()), fastTrack)
                 && match host.status.state
                    case StateNone | Unmanaged | Registering | MatchProfile | Inspecting | Ready | Available => true
                    case ExternallyProvisioned => !host.status.poweredOn
                    case _ => false)
      ensures r == Outcome.Free ==> ReleasedAs(old(host.View()), host.View(), reuse)
      ensures r == NotMine <==> old(host.core.consumer) != Some(MachineRef(name))
      ensures r == Outcome.Deprovisioning ==> CleanedAs(old(host.View()), host.View(), fastTrack)
      ensures r == NotMine || r == Blocked ==> host.View() == old(host.View())
    {
      if !ConsumedBy(host.core, name) {
        return NotMine;
      }
      CleanMeans(host.View(), fastTrack);
      var updated := Clean(host, fastTrack);
      if updated {
        return Outcome.Deprovisioning;
      }
      var waiting := true;
      match host.status.state {
        case Registering | MatchProfile | Inspecting | Ready | Available | StateNone | Unmanaged => waiting := false;
        case ExternallyProvisioned => waiting := host.status.poweredOn;
        case _ =>
      }
      if waiting {
        return Blocked;
      }
      Release(host, reuse);
      r := Outcome.Free;
    }

    /** Nothing is provisioned, no known secret is referenced, and Online is as it is to
        be left. */
    ghost predicate Cleaned(h: Host, fastTrack: bool) {
      && h.core.image.None? && h.core.deploy.None?
      && (data.userData.None? || h.extra.userData.None?)
      && (data.metaData.None? || h.extra.metaData.None?)
      && (data.networkData.None? || h.extra.networkData.None?)
      && (h.extra.online <==> h.status.disablePowerOff || (fastTrack && h.extra.cleaning != "disabled"))
    }

    ghost predicate CleanedAs(h: Host, after: Host, fastTrack: bool) {
      && Cleaned(after, fastTrack)
      && after.core.consumer == h.core.consumer && after.core.reuse == h.core.reuse && after.status == h.status
      && after.extra.clusterLabel == h.extra.clusterLabel && after.extra.pause == h.extra.pause
      && after.extra.cleaning == h.extra.cleaning
      && (data.userData.None? ==> after.extra.userData == h.extra.userData)
      && (data.metaData.None? ==> after.extra.metaData == h.extra.metaData)
      && (data.networkData.None? ==> after.extra.networkData == h.extra.networkData)
    }

    ghost predicate ReleasedAs(h: Host, after: Host, reuse: Reuse) {
      && after.core.image == h.core.image && after.core.deploy == h.core.deploy && after.status == h.status
      && (if reuse.KeepFor? then after.core.consumer == Some(ClusterRef(reuse.cluster)) && after.core.reuse == Some(reuse.group)
          else after.core.consumer.None? && after.core.reuse == h.core.reuse)
      && after.extra.clusterLabel == (if h.extra.clusterLabel == Some(spec.cluster) then None else h.extra.clusterLabel)
      && after.extra.pause == (if h.extra.pause == Some("metal3.io/capm3") then None else h.extra.pause)
      && after.extra.userData == h.extra.userData && after.extra.metaData == h.extra.metaData
      && after.extra.networkData == h.extra.networkData
      && after.extra.cleaning == h.extra.cleaning && after.extra.online == h.extra.online
    }

    lemma CleanMeans(h: Host, fastTrack: bool)
      ensures CleanedAs(h, Deprovision(h, data, fastTrack), fastTrack)
      ensures Deprovision(h, data, fastTrack) == h <==> Cleaned(h, fastTrack)
    {
    }

    /** Takes off what is provisioned and sets Online. */
    method Clean(host: Copy, fastTrack: bool) returns (updated: bool)
      modifies host
      ensures host.View() == Deprovision(old(host.View()), data, fastTrack)
      ensures updated <==> host.View() != old(host.View())
    {
      updated := false;
      if host.core.image.Some? {
        host.core := host.core.(image := None);
        updated := true;
      }
      if host.core.deploy.Some? {
        host.core := host.core.(deploy := None);
        updated := true;
      }
      var cleared := ClearSecrets(host);
      var online := host.extra.online;
      if host.status.disablePowerOff {
        host.extra := host.extra.(online := true);
      } else if fastTrack && host.extra.cleaning != "disabled" {
        host.extra := host.extra.(online := true);
      } else {
        host.extra := host.extra.(online := false);
      }
      updated := updated || cleared || online != host.extra.online;
    }

    /** Drops the consumer, or hands the host to the Cluster for reuse. */
    method Release(host: Copy, reuse: Reuse)
      modifies host
      ensures host.View() == LetGo(old(host.View()), spec, reuse)
      ensures ReleasedAs(old(host.View()), host.View(), reuse)
    {
      host.core := host.core.(consumer := None);
      if reuse.KeepFor? {
        host.core := host.core.(reuse := Some(reuse.group), consumer := Some(ClusterRef(reuse.cluster)));
      }
      if host.extra.clusterLabel == Some(spec.cluster) {
        host.extra := host.extra.(clusterLabel := None);
      }
      if host.extra.pause == Some(CAPM3_PAUSE) {
        host.extra := host.extra.(pause := None);
      }
    }

    /** Drops the secret references the machine status still knows of. */
    method ClearSecrets(host: Copy) returns (updated: bool)
      modifies host`extra
      ensures host.extra == old(host.extra).(
                userData := if data.userData.Some? then None else old(host.extra.userData),
                metaData := if data.metaData.Some? then None else old(host.extra.metaData),
                networkData := if data.networkData.Some? then None else old(host.extra.networkData))
      ensures updated <==> host.extra != old(host.extra)
    {
      updated := false;
      if data.userData.Some? && host.extra.userData.Some? {
        host.extra := host.extra.(userData := None);
        updated := true;
      }
      if data.metaData.Some? && host.extra.metaData.Some? {
        host.extra := host.extra.(metaData := None);
        updated := true;
      }
      if data.networkData.Some? && host.extra.networkData.Some? {
        host.extra := host.extra.(networkData := None);
        updated := true;
      }
    }
  }
}
