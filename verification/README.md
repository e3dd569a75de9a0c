# Cluster API Provider Metal3: verified cores

Cluster API Provider Metal3 (CAPM3) turns bare metal hosts into Cluster API machines. Under its Kubernetes
reconcilers lie five pieces of logic whose correctness depends on more than one function at a time. This project
models them in Dafny and proves what they keep over every input and every interleaving.

The API server is a store in which each Get, List, Create, Patch and Delete is one atomic step. A patch is a merge
patch: it writes the fields that differ between the copy a reconcile read and the copy it edited, and nothing else.
A reconcile may stop after any call, because the call failed or because the process died. Protocols are total `Step`
functions over events (an event that is not possible leaves the state alone), `Run` folds them over a sequence of
events, and the theorems quantify over all sequences. Code that changes things step by step is written as classes and
methods with loops, each proved against the function or the state machine it implements.

| module | what it holds |
|---|---|
| `HostModel`, `HostChoice` | BareMetalHosts, the manager's edits to its copy of a host, and the choice of a host |
| `HostProtocol`, `HostSafety`, `HostTheorems`, `HostCycle` | any number of Metal3Machines competing for any number of hosts; the inductive invariant; the theorems; a whole life of a host |
| `PauseHandshake` | the pause and block-move annotations around `clusterctl move` |
| `Remediation`, `RemediationController`, `Reconciles`, `RestoreLoss` | reboot remediation as a state machine, the reconciler that follows it call by call, what single reconciles achieve, and a history that loses a Node's labels |
| `IndexLists`, `Names`, `DataTemplateManager` | the index allocator of Metal3DataTemplates |
| `Conversion` | v1beta1/v1beta2 conversion of index lists and failure domains |
| `IPPools`, `PoolReferences`, `Rendering` | the traversal that collects IP pools and the traversal that renders them |
| `IPClaims`, `DataManager` | IP claims over whole histories; acquiring and releasing addresses |
| `ApiServer`, `Wrappers` | the store steps and the result types |

## What is proved

**Host association.** Associate holds a mutex, Update and Delete do not, and Update writes ConsumerRef without
looking at it. Still, in every interleaving, with crashes and stale caches, no event hands a host from one machine to
another, a machine never consumes two hosts, whatever is provisioned on a host is what its consumer's spec asks for, a
host is given up only when nothing is provisioned on it, and a host kept for a group goes next to a machine of that
group. This rests on an invariant no function states: a reuse label excludes a machine as consumer, an annotated
machine whose deletion was not noticed owns its host, and nobody else writes the host a reconcile works on. The known
gap is characterised exactly: a machine is dropped while a host still names it precisely when it consumes a host and
its annotation is missing or not yet visible, and such a host is never used again.

**Pause handshake.** Once a host has carried block-move it is movable only while paused, wherever the controller
stopped, and one uninterrupted call finishes the job from every stopping point.

**Remediation.** Retries stop at the limit although the test is an equality; phase changes are bounded; Failed is
absorbing; retries are a timeout apart although stored stamps lose fractions of a second; the host stays off from the
moment its Node is deleted or tainted until Waiting; a deleted Node was backed up; its backup survives until the
clean-up exactly when no other Node's content is saved over it, and a history in which every call succeeds and the
labels are lost all the same.

**Index allocator.** The chosen index is the least free one for every list; two lists stay equal and
strictly sorted and refine a map; with arbitrarily stale lists no template has two Metal3Data with one index, and no
claim two Metal3Data exactly when no Create goes through for a claim that has one; the list survives conversion to
v1beta1 and back exactly when it is well formed.

**IP pools.** Collecting succeeds exactly when the references agree; once every collected pool has an address,
metadata never misses a pool or a prefix, and networks render exactly when the template is complete, which
excludes DHCP gateway annotations. One template gives each pool name one type, so after every history of acquisitions
in either naming mode a successful release leaves no claim behind. What it deletes of others is characterised exactly.

## Model

| member | source | states |
|---|---|---|
| `HostModel.GroupsDisjoint` | baremetal/metal3machine_manager.go:2003-2042 | group names of control planes and of MachineDeployments never coincide, and each determines its owner |
| `HostModel.Manager.SetHostConsumerRef` | baremetal/metal3machine_manager.go:1297-1317 | the machine becomes consumer, the reuse label goes, nothing else on the host changes |
| `HostModel.ProvisionExactly` | baremetal/metal3machine_manager.go:1220-1293 | field by field what provisioning leaves of a host, each secret in its place and in the machine's namespace; it fails exactly for a spec with nothing to provision or a foreign secret |
| `HostModel.Manager.SetHostSpec` | baremetal/metal3machine_manager.go:1220-1293 | image, deploy method and secrets are written together, only on a host with neither, only once user data is known; Online and cleaning mode always; the errors |
| `HostModel.Manager.Associate` | baremetal/metal3machine_manager.go:490-510 | labels, claims and, without a data template, provisions the copy; the errors are those of provisioning |
| `HostModel.Manager.Update` | baremetal/metal3machine_manager.go:788-822 | claims the host again without looking at its consumer, then provisions it |
| `HostModel.Manager.Delete` | baremetal/metal3machine_manager.go:584-781 | a host is let go if and only if it is the machine's, nothing is left to clean, and it is in one of the listed states; what cleaning and letting go leave is written out field by field |
| `HostModel.Manager.ClearSecrets` | baremetal/metal3machine_manager.go:621-632 | only the references the machine's status still has are cleared, and the answer says whether anything was |
| `HostModel.FreedHostKeepsExactly` | baremetal/metal3machine_manager.go:1962-1971 | a freed host still carries its metaData or networkData reference if and only if it had one and the machine's status had none or dissociation cleared it first |
| `HostChoice.PickHost` | baremetal/metal3machine_manager.go:2428-2467 | a candidate, from the failure domain whenever a candidate is in it; an error exactly for a malformed domain |
| `HostChoice.TakeReused` | baremetal/metal3machine_manager.go:1017-1045 | all hosts kept for the group must be available, else requeue; the last one is taken |
| `HostChoice.GatherHosts` | baremetal/metal3machine_manager.go:952-1005 | the machine's first own host, or else all unlabelled candidates and all hosts kept for its group |
| `HostChoice.ChooseHost` | baremetal/metal3machine_manager.go:929-1059 | own host first, then hosts kept for the group, unlabelled hosts only without any of those; on the fields: what is chosen is Ready or Available, healthy and unclaimed or labelled for the group, nothing is chosen only if no host is that, and the failure domain is kept to |
| `HostChoice.AllowedOnFields` | baremetal/metal3machine_manager.go:952-1055 | the rules of the choice, said of the hosts' fields |
| `HostChoice.AnswersExactly` | baremetal/metal3machine_manager.go:1009-1055 | no host, requeue and error each come if and only if a condition on the listing and the failure domain holds |
| `HostSafety.WriteKeepsInv` | baremetal/metal3machine_manager.go:441-532 | a patch by the reconcile that owns or may take the host keeps every invariant of every other machine and reconcile |
| `HostSafety.ChosenFacts` | baremetal/metal3machine_manager.go:929-1059 | the chosen host is the machine's own, or the machine owns none and may take this one |
| `HostSafety.RunKeepsInv` | baremetal/metal3machine_manager.go:441-837 | the invariant holds in every reachable state of every interleaving |
| `HostTheorems.EveryWriteLawful` | baremetal/metal3machine_manager.go:441-837 | every event either leaves a host's core alone or is a taking, a working or a freeing by the machine that writes |
| `HostTheorems.NoSteal` | baremetal/metal3machine_manager.go:1297-1317 | no event changes a host's consumer from one machine to a different one |
| `HostTheorems.HeldUntilReleased` | baremetal/metal3machine_manager.go:441-837 | between two different machine consumers there is a state in which no machine consumes the host |
| `HostTheorems.OneHostPerMachine` | baremetal/metal3machine_manager.go:929-960 | a machine never consumes two hosts, also after a crash before its annotation was stored |
| `HostTheorems.AnnotationMeansOwnership` | baremetal/metal3machine_manager.go:1321-1342 | an annotated machine whose deletion was not noticed consumes that host; a labelled host has no machine consumer |
| `HostTheorems.ProvisionedForConsumer` | baremetal/metal3machine_manager.go:1220-1293 | image and deploy method on a host are those of its consumer's spec |
| `HostTheorems.CopyWasRead` | baremetal/metal3machine_manager.go:568-600 | the copy a Delete works on is the stored host of an earlier moment of the same history |
| `HostTheorems.ReleasedOnlyWhenClean` | baremetal/metal3machine_manager.go:611-781 | release happens only in the consumer's Delete, with nothing provisioned, after the host was seen in a state that need not be waited for |
| `HostTheorems.ReusedBySameGroup` | baremetal/metal3machine_manager.go:1124-1172 | a host labelled for a group is next consumed by a machine of that group |
| `HostTheorems.KeptWhileUnused` | baremetal/metal3machine_manager.go:929-1059 | while no machine consumes a host, its label, consumer and provisioning do not change |
| `HostTheorems.DanglingExactly` | baremetal/metal3machine_manager.go:568-600 | when a starting Delete drops the machine and leaves a host naming it: if and only if it consumes one and its annotation is missing or unseen |
| `HostTheorems.FoundMeansFreed` | baremetal/metal3machine_manager.go:704-785 | a Delete that found its host drops the machine only when no host names it |
| `HostTheorems.CrashLosesHost` | baremetal/metal3machine_manager.go:511-532 | in every history: a crash between host patch and annotation, then deletion, leaves a host naming a machine that is gone |
| `HostTheorems.SomeHostIsLost` | baremetal/metal3machine_manager.go:511-532 | such a history exists from an empty start, for any machine and any free host it selects |
| `HostTheorems.DanglingStays` | baremetal/metal3machine_manager.go:949-985 | a host naming a machine that is gone keeps doing so for ever |
| `HostCycle.HostLivesOn` | baremetal/metal3machine_manager.go:441-837 | a history from nothing in which a host is taken, provisioned with the first machine's image, cleaned, kept for the group and taken by the second machine |
| `PauseHandshake.MovableOnlyWhenPaused` | baremetal/metal3machine_manager.go:263-438 | after block-move was set once, the host is movable only while paused, and our pause implies the status annotation |
| `PauseHandshake.PauseCarriesStatus` | baremetal/metal3machine_manager.go:336-438 | the status annotation written with our pause is the host's status as read |
| `PauseHandshake.RerunCompletes` | baremetal/metal3machine_manager.go:336-438 | from every stopping point one uninterrupted call ends paused and movable; a user's pause is kept |
| `PauseHandshake.PauseCycle` | baremetal/metal3machine_manager.go:300-333 | for every host, what pausing, unpausing and protecting again leaves: status noted, protection restored if owned and the label allows, a user's pause kept |
| `PauseHandshake.Manager.EnsureBlockMoveAnnotation` | baremetal/metal3machine_manager.go:263-297 | adds block-move to an owned, unpaused host and changes nothing else |
| `PauseHandshake.Manager.SetPauseAnnotation` | baremetal/metal3machine_manager.go:336-438 | the exact host after any number of patches that went through; without an error it is paused and movable |
| `Remediation.RunKeepsInv` | controllers/metal3remediation_controller.go:161-502 | counts, time stamps, power and the meaning of each program point hold in every reachable state |
| `Remediation.RetriesBounded` | controllers/metal3remediation_controller.go:178-398 | retry count at most the limit; Waiting entered once per retry and once more; at most 2 * limit + 4 phase changes |
| `Remediation.FailedIsFinal` | controllers/metal3remediation_controller.go:178-200 | Failed is absorbing |
| `Remediation.RetriesSpaced` | baremetal/metal3remediation_manager.go:147-173 | the stored time is at least the first one plus a timeout per retry, truncated stamps included |
| `Remediation.TruncateAtLeast` | baremetal/metal3remediation_manager.go:380-391 | cutting a stamp to whole seconds never takes it below a whole second it has passed |
| `Remediation.HostStaysOff` | controllers/metal3remediation_controller.go:403-502 | the host is off from the call that deletes or taints its Node until Waiting |
| `Remediation.ViewWasShown` | controllers/metal3remediation_controller.go:225-238 | what a reconcile knows of the Node is what the store held when it was fetched |
| `Remediation.WaitingEntered` | controllers/metal3remediation_controller.go:430-502 | Waiting is entered only with power-off requested, the host off, and the Node gone, out of reach, or tainted and drained, as the store showed when it was read |
| `Remediation.PowerOffClearedInWaiting` | controllers/metal3remediation_controller.go:248-274 | the power-off annotation is removed only in Waiting |
| `Remediation.DeletedNodeIsBackedUp` | controllers/metal3remediation_controller.go:479-526 | a Node is deleted only when the stored backup is its annotations and labels, as the store held them when it was fetched |
| `Remediation.BackupSurvivesExactly` | controllers/metal3remediation_controller.go:479-526 | from the deletion until the clean-up the stored backup stays that Node's content if and only if no Running reconcile saves another Node's over it |
| `Remediation.OverwriteIsAnotherNode` | controllers/metal3remediation_controller.go:505-526 | what overwrites a backup is the content of a Node that was fetched from the store with other content |
| `Remediation.RestoreGivesBackup` | controllers/metal3remediation_controller.go:528-582 | a restored Node has the backed-up entries overridden by its own, key by key |
| `Remediation.RestoreLostExactlyWhen` | controllers/metal3remediation_controller.go:570-582 | the backup is dropped in any case, after a conflict too; the Node is restored if and only if the update was written or the store held the restored Node already |
| `Remediation.LostNodeRestoredExactly` | controllers/metal3remediation_controller.go:479-582 | from deletion to restore: without overwriting in between, the new Node gets the lost entries under its own if and only if the update is written or it has them |
| `RestoreLoss.LostThoughAllSucceeds` | controllers/metal3remediation_controller.go:324-355 | for any two Nodes with different labels a history in which every call succeeds, a retry overwrites the backup, and the lost labels do not come back |
| `RemediationController.MergeMaps` | controllers/metal3remediation_controller.go:616-628 | the union in which the first map wins |
| `RemediationController.FindTaint` | baremetal/metal3remediation_manager.go:591-598 | finds the out-of-service taint if and only if it is there |
| `RemediationController.DropTaint` | baremetal/metal3remediation_manager.go:612-635 | the list without the out-of-service taint, in order |
| `RemediationController.DropTaintUndoesAdd` | baremetal/metal3remediation_manager.go:600-635 | adding appends the out-of-service taint, removing it undoes that |
| `RemediationController.RestoreNode` | controllers/metal3remediation_controller.go:528-576 | both maps merged from the backup, nothing else touched |
| `RemediationController.Reconciler.ReconcileNormal` | controllers/metal3remediation_controller.go:161-398 | the whole reconcile refines the state machine, and ends in exactly the state the machine reaches with the same answers |
| `RemediationController.Reconciler.RemediateRebootStrategy` | controllers/metal3remediation_controller.go:403-502 | the same for the Running phase |
| `RemediationController.Reconciler.FenceNode` | controllers/metal3remediation_controller.go:445-502 | refines the machine; in taint mode an untainted Node is left with the out-of-service taint after its own and nothing else changed; a Node is deleted only when backed up |
| `RemediationController.Reconciler.WaitForNode` | controllers/metal3remediation_controller.go:248-322 | the same for the Waiting phase |
| `RemediationController.Reconciler.CheckTimeout` | controllers/metal3remediation_controller.go:324-398 | refines the machine; nothing happens in time, late it retries while the count differs from a positive limit, else hands over and marks the host |
| `RemediationController.TimeoutMeans` | controllers/metal3remediation_controller.go:324-382 | the same of the machine, with timeout, stamp and limit written out |
| `Reconciles.OfflineFails` | controllers/metal3remediation_controller.go:178-187 | a host that is not to be online fails the remediation |
| `Reconciles.Begins` | controllers/metal3remediation_controller.go:203-213 | the first reconcile starts Running with the time in whole seconds |
| `Reconciles.GivesUp` | controllers/metal3remediation_controller.go:357-382 | timed out with no retry left, the phase becomes Deleting and the host is marked unhealthy |
| `Reconciles.TaintsNode` | controllers/metal3remediation_controller.go:450-462 | with the host off the first reconcile taints the Node and does nothing else |
| `Reconciles.DrainsToWaiting` | controllers/metal3remediation_controller.go:464-502 | a tainted and drained Node lets the remediation enter Waiting |
| `Reconciles.TaintCycle` | controllers/metal3remediation_controller.go:403-502 | two reconciles fence a drained Node and enter Waiting; later ones clear the power-off request and give the Node back as it was |
| `Names.ItoaInjective` | baremetal/metal3data_manager.go:1765-1775 | different integers print differently |
| `Names.DataNameInjective` | baremetal/metal3datatemplate_manager.go:286-311 | template and index can be read off a Metal3Data name, whatever dashes the template name contains |
| `IndexLists.SortDistinct` | baremetal/metal3datatemplate_manager.go:126-132 | sorting distinct entries gives the strictly sorted list of the same map |
| `IndexLists.SortedListsEqual` | baremetal/metal3datatemplate_manager.go:126-132 | a strictly sorted list is determined by its entries |
| `ApiServer.ReleaseReleases` | baremetal/metal3datatemplate_manager.go:466-482 | dropping the finalizer and deleting frees that object, leaves all others alone and undoes no earlier release |
| `DataTemplateManager.Pigeonhole` | baremetal/metal3datatemplate_manager.go:286-308 | covering 0..n-1 takes n entries, duplicates or not |
| `DataTemplateManager.ChooseIndex` | baremetal/metal3datatemplate_manager.go:286-308 | the least free index, at most the length, for every list; refused exactly beyond int32 |
| `DataTemplateManager.AppendSorted` | baremetal/metal3datatemplate_manager.go:374-394 | creation inserts exactly one entry, with the least free index |
| `DataTemplateManager.FilteredRemovesClaim` | baremetal/metal3datatemplate_manager.go:493-511 | the delete filter, which drops on either match, removes exactly the claim's entries |
| `DataTemplateManager.FilteredRemovesOne` | baremetal/metal3datatemplate_manager.go:493-511 | on a well-formed list it removes exactly one key |
| `DataTemplateManager.EntryRunOnMap` | baremetal/metal3datatemplate_manager.go:146-213 | while claims have one entry each, the entries stand for a claim-to-index map in which creation inserts one key and deletion removes one |
| `DataTemplateManager.Manager.GetIndexes` | baremetal/metal3datatemplate_manager.go:84-137 | both lists are the sorted entries of the listed Metal3Data of this template |
| `DataTemplateManager.Manager.CreateData` | baremetal/metal3datatemplate_manager.go:249-397 | an existing entry is kept; otherwise one object and one entry appear; on every error, a failing Create included, nothing changes |
| `DataTemplateManager.Manager.CreateAt` | baremetal/metal3datatemplate_manager.go:310-397 | fails if and only if the Create fails or the name is taken; otherwise object, both lists and the claim's reference are exactly so |
| `DataTemplateManager.DeletionExactly` | baremetal/metal3datatemplate_manager.go:445-482 | without faults the Metal3Data with the claim's name and smallest index is released; those of other claims are as they were if and only if the claim has an entry or its reference leads to no such one |
| `DataTemplateManager.StaleReferenceTakesOther` | baremetal/metal3datatemplate_manager.go:455-482 | a claim without an entry whose reference names an index that went to another claim: the other's Metal3Data is deleted |
| `DataTemplateManager.Manager.DeleteMetal3DataAndClaim` | baremetal/metal3datatemplate_manager.go:426-516 | exactly the claim's entries go; its own Metal3Data is released and others are kept under that condition; on an error the lists stay |
| `DataTemplateManager.Manager.UpdateData` | baremetal/metal3datatemplate_manager.go:215-247 | one claim's effect on entries and store; the two lists stay equal and strictly sorted; one Metal3Data per claim is kept if it held |
| `DataTemplateManager.Manager.UpdateDatas` | baremetal/metal3datatemplate_manager.go:146-213 | from a current listing, the entries follow the abstract allocator claim by claim, whatever stale passes did before; with one Metal3Data per claim to begin with, that is kept and the lists refine a claim-to-index map; without failing calls every Metal3Data of a deleted claim is released and, if no deleted claim has a reference without an entry, all others are untouched; the flags and the paused requeue |
| `DataTemplateManager.OneDataPerIndex` | baremetal/metal3datatemplate_manager.go:286-372 | however stale the lists, the store never holds two Metal3Data of one template and index |
| `DataTemplateManager.ClaimsUniqueExactly` | baremetal/metal3datatemplate_manager.go:258-372 | over every history, claims keep one Metal3Data each if and only if no Create goes through for a claim that has one |
| `DataTemplateManager.CurrentListsNeverDouble` | baremetal/metal3datatemplate_manager.go:258-266 | that is so when each list names the claim it serves, if the claim has a Metal3Data |
| `DataTemplateManager.StaleListsDoubleClaim` | baremetal/metal3datatemplate_manager.go:258-372 | two passes whose lists miss the claim give it two Metal3Data |
| `Conversion.IndexesToV1Beta1` | api/v1beta1/conversion.go:968-982 | the map of the list; a nil index crashes |
| `Conversion.IndexesToV1Beta2` | api/v1beta1/conversion.go:942-966 | a sorted list of the map, for every iteration order |
| `Conversion.IndexesReturnExactly` | api/v1beta1/conversion.go:942-982 | a list returns unchanged under every map order if and only if it is well formed |
| `Conversion.IndexesRoundTrip` | api/v1beta1/conversion.go:942-982 | the composed conversions are the identity on what the allocator produces |
| `Conversion.DomainsToV1Beta2` | api/v1beta1/conversion.go:324-343 | the failure domains of the map in name order |
| `Conversion.DomainsToV1Beta1` | api/v1beta1/conversion.go:303-316 | the map of the list |
| `Conversion.DomainMapReturns` | api/v1beta1/conversion.go:303-343 | every map of failure domains comes back unchanged |
| `Conversion.DomainsRoundTrip` | api/v1beta1/conversion.go:303-343 | map to list to map is the identity, nil included |
| `Conversion.DomainListReturnsExactly` | api/v1beta1/conversion.go:303-343 | a list comes back unchanged if and only if its names are strictly sorted and no control-plane flag is an explicit false |
| `PoolReferences.CollectExactly` | baremetal/metal3data_manager.go:616-840 | collecting succeeds if and only if every reference resolves and no two disagree on a pool's type; the result is each mentioned pool with its type |
| `PoolReferences.TemplateFixesTypes` | baremetal/metal3data_manager.go:616-840 | whatever the annotations say, a template that is collected gives each pool name the one type fixed by the template |
| `PoolReferences.OneNameTwoTemplates` | internal/webhooks/v1beta2/metal3datatemplate_webhook.go:52-93 | one traversal refuses a pool name used both ways, and a template cannot be changed; two templates, one after the other, are collected |
| `PoolReferences.PoolRefs.AddRef` | baremetal/metal3data_manager.go:616-635 | defaults group and kind, keeps the first reference, refuses another type |
| `PoolReferences.PoolRefs.AddFromAnnotation` | baremetal/metal3data_manager.go:653-679 | the annotated Metal3 pool; missing objects and empty values are errors |
| `PoolReferences.ValueOfEachObject` | baremetal/metal3data_manager.go:1843-1864 | which object an annotation is read from, in either case of its name |
| `PoolReferences.MentionedExactly` | baremetal/metal3data_manager.go:683-840 | the traversal's mentions are exactly the listed places of the template |
| `PoolReferences.GetReferencedPools` | baremetal/metal3data_manager.go:683-840 | the result is exactly the pools mentioned somewhere in the template, each with its group and kind; the nested loops collect them in order |
| `Rendering.GetRoutes` | baremetal/metal3data_manager.go:1502-1639 | each route rendered, up to the first error |
| `Rendering.GetServices` | baremetal/metal3data_manager.go:1249-1273 | the listed servers followed by those of the pool |
| `Rendering.GetNetworks` | baremetal/metal3data_manager.go:1376-1495 | one entry per network in the order of the five lists, each with its id, link and kind, the address and prefix of the pool it names, and its routes with gateways and servers; otherwise the first error |
| `Rendering.NetworksAreShown` | baremetal/metal3data_manager.go:1376-1639 | the same of what is rendered |
| `Rendering.NetworksRenderExactly` | baremetal/metal3data_manager.go:1249-1639 | once every collected pool has an address, networks render if and only if each static network names a pool and each rendered DHCP or SLAAC gateway annotation names a served one; services always render |
| `Rendering.CollectedPoolsRender` | baremetal/metal3data_manager.go:1376-1639 | static networks that name a pool and no such annotation suffice |
| `Rendering.DhcpAnnotationFails` | baremetal/metal3data_manager.go:777-832 | a template whose collecting succeeds and whose rendering misses the pool |
| `Rendering.FillExactly` | baremetal/metal3data_manager.go:1708-1827 | rendering fails if and only if an item does; otherwise the last item of a key wins |
| `Rendering.RenderMetaData` | baremetal/metal3data_manager.go:1708-1827 | written list by list: each address, prefix and gateway is that of the named pool, each index item its prefix, offset plus index times step, and suffix; later keys win |
| `Rendering.MetaDataRenders` | baremetal/metal3data_manager.go:1738-1763 | no metadata item misses a pool or dereferences a nil prefix |
| `Rendering.SameIndexTextExactly` | baremetal/metal3data_manager.go:1765-1775 | two indexes render alike if and only if step times their difference is a multiple of 2^32 |
| `Rendering.IndexTextsDiffer` | baremetal/metal3data_manager.go:1765-1775 | without overflow different indexes render differently |
| `Rendering.OverflowCollides` | baremetal/metal3data_manager.go:1765-1775 | with overflow they need not |
| `IPClaims.FoundMetal3Next` | baremetal/metal3data_manager.go:589-607 | releasing pool after pool equals releasing all of them at once |
| `IPClaims.RunKeepsFormed` | baremetal/metal3data_manager.go:844-950 | over every history each claim can be found by the name or the labels a release looks for |
| `IPClaims.ReleaseLeavesNothingExactly` | baremetal/metal3data_manager.go:526-607 | after every history, in either naming mode, a release leaves no claim undeleted or held if and only if every Metal3 claim whose pool name a generic claim shares is released already or reached through another pool |
| `IPClaims.ReleaseLeavesNothing` | baremetal/metal3data_manager.go:526-607 | nothing is left when each pool name stands for one type |
| `IPClaims.SharedNameIsLeftBehind` | baremetal/metal3data_manager.go:550-585 | with one pool name used for two types the Metal3 claim stays untouched |
| `IPClaims.ForeignReachedExactly` | baremetal/metal3data_manager.go:1026-1071 | over every history a release deletes another Metal3Data's Metal3 claim if and only if its copied labels name this one, or its name collides with this one joined to a pool claimed under another name; all others stay as they were |
| `IPClaims.ForeignGenericUntouched` | baremetal/metal3data_manager.go:1185-1205 | a release never touches another Metal3Data's generic claim |
| `IPClaims.ReleaseTakesForeignClaim` | baremetal/metal3data_manager.go:1051-1071 | two acquisitions after which a release deletes the other Metal3Data's claim |
| `DataManager.Manager.EnsureM3IPClaim` | baremetal/metal3data_manager.go:871-950 | creates at most one claim, only when neither name exists, with the name, labels, owner, pool and finalizer written out |
| `DataManager.Manager.EnsureIPClaim` | baremetal/metal3data_manager.go:1074-1138 | creates at most one claim, written out field by field; afterwards one exists |
| `DataManager.Manager.EnsureClaims` | baremetal/metal3data_manager.go:385-401 | the store has gone through acquisitions of the right types; every claim is ready and new Metal3 claims are exactly those just created |
| `DataManager.Manager.ReadAddresses` | baremetal/metal3data_manager.go:403-437 | each address with the prefix, gateway and servers its claim was assigned; without failing calls a pool is passed over exactly when it has no claim or its new claim is not found under the data name |
| `DataManager.Manager.GetAddressesFromPool` | baremetal/metal3data_manager.go:374-438 | the store has gone through acquisitions of the types the template fixes; without failing calls, rendering has all it needs if and only if claims are named after the data, or host and data share a name, or every Metal3 pool had a claim under one of the two names before |
| `DataManager.PassesOverNewClaim` | baremetal/metal3data_manager.go:409-419 | an acquisition that returns no address and no error, so that rendering cannot succeed |
| `DataManager.OneTemplateLeavesNothing` | baremetal/metal3data_manager.go:325-334 | over every history of one template, whatever its annotations and naming modes, a release leaves nothing behind |
| `DataManager.Manager.ReleaseAddressFromM3Pool` | baremetal/metal3data_manager.go:1026-1071 | exactly the claims with the labels or the name lose the finalizer and are deleted |
| `DataManager.Manager.ReleaseAddressFromPool` | baremetal/metal3data_manager.go:1185-1205 | exactly the claim with the name does |
| `DataManager.Manager.GetClaimedPools` | baremetal/metal3data_manager.go:550-585 | the pools of the owned claims; a pool claimed both ways counts as the generic one |
| `DataManager.Manager.ReleaseAddressesFromPool` | baremetal/metal3data_manager.go:589-607 | the whole new store, as a function of the old one |
| `DataManager.Manager.ReleaseLeases` | baremetal/metal3data_manager.go:325-334 | a release that reports no error leaves nothing of the Metal3Data held; without a template nothing happens |

## Where the code falls short

These are kept as the code has them; each has an input and a condition.

- A machine deleted after its host was patched and before its annotation is stored leaves a host that names it
  (`HostTheorems.SomeHostIsLost`, `HostTheorems.DanglingExactly`).
- A failed or conflicting Node update during restore is only logged and the backup is dropped
  (`Remediation.RestoreLostExactlyWhen`); a retry that finds a Node registered anew saves its content over the backup
  (`RestoreLoss.LostThoughAllSucceeds`, `Remediation.BackupSurvivesExactly`).
- Passes with stale lists can give one claim two Metal3Data (`DataTemplateManager.StaleListsDoubleClaim`,
  `DataTemplateManager.ClaimsUniqueExactly`).
- A deleted claim without an entry whose reference names an index given to another claim takes the other's Metal3Data
  with it (`DataTemplateManager.StaleReferenceTakesOther`, `DataTemplateManager.DeletionExactly`).
- Gateway annotations of DHCP and SLAAC networks are rendered but never collected
  (`Rendering.DhcpAnnotationFails`, `Rendering.NetworksRenderExactly`).
- Index items overflow int32 (`Rendering.OverflowCollides`, `Rendering.SameIndexTextExactly`).
- A pool name used for two types leaves a claim behind (`IPClaims.SharedNameIsLeftBehind`,
  `IPClaims.ReleaseLeavesNothingExactly`). One template cannot lead there, whatever its annotations
  (`PoolReferences.TemplateFixesTypes`, `DataManager.OneTemplateLeavesNothing`), and the webhook does not let its pools
  change; a template deleted and created again under its name can (`PoolReferences.OneNameTwoTemplates`).
- A release can delete a claim of another Metal3Data (`IPClaims.ReleaseTakesForeignClaim`,
  `IPClaims.ForeignReachedExactly`).
- With claims named after the host, a claim that was just created is looked up under the other name, and its pool
  is passed over in that reconcile (`DataManager.PassesOverNewClaim`, `DataManager.Manager.GetAddressesFromPool`).
- Freed hosts can still carry metaData and networkData references (`HostModel.FreedHostKeepsExactly`).
- The comment at api/v1beta1/conversion.go:973 says entries without an index are filtered out; the code
  dereferences them (`Conversion.IndexesToV1Beta1`).

## Left out

- Host association assumes that machine names are not used again, hosts are not removed, selectors and specs are
  fixed, all objects share a namespace, one controller leads, and only the controller writes ConsumerRef, the reuse
  label, Image and CustomDeploy; labels and selectors are an arbitrary fixed relation.
- HostTheorems.ReleasedOnlyWhenClean: the state that need not be waited for is the one the Delete read; the operator
  may change it before the patch arrives.
- HostModel.Manager.SetHostSpec: the user data reference is shared between the machine's status and the host in the
  original, so its defaulted namespace shows in both; the model works on values.
- The secret label of the BMC credentials, conditions, metrics, events, provider IDs and node lookup: no hard property.
- PauseHandshake.PauseCycle: lifting the pause is a function of the host, with failed calls left out; the
  annotation holds the status as an opaque string.
- Remediation.DeletedNodeIsBackedUp: the Node is the one read at the start of the reconcile; a change between that
  read and the deletion is not in the backup.
- The Metal3Remediation is read as stored; the original reads it through a cache.
- During the pause handshake nobody but this controller removes a pause or sets or removes block-move.
- JSON is an injective encoding; draining, workload clusters and clocks are answers the environment gives.
- DataTemplateManager.Manager.UpdateDatas: starts from a current listing of Metal3Data; stale listings are covered by
  the histories of single calls. That other claims are untouched is stated for passes in which no deleted claim has a
  reference without an entry; the exact condition is stated call by call.
- DataTemplateManager.Manager.GetIndexes: spec.index is optional and a missing one is dereferenced when the list is
  sorted or used; a Metal3Data without an index is not part of this model.
- Lookup of the template, the machine and the host while claims are ensured is one answer per reconcile; owner
  references are matched by name, the group and kind of a Metal3Data being constant.
- IPClaims.ReleaseLeavesNothing: a Metal3Data without a UID owns no claims in the code, so its release does nothing;
  objects read from the API server always have one.
- Rendering: link rendering, masks and MAC addresses are not part of the model; metadata items that do not depend
  on pools or indexes are values or errors given from outside; only ASCII letters are lower-cased.
- Metal3Cluster, Metal3MachineTemplate and label synchronisation, webhooks and the remaining conversions: they
  would only add easy members.
