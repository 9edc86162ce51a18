# The WX-ONE infrastructure provider, modelled and proved

The provider drives a remote cloud from the stored status of two Kubernetes objects. A
WXOneCluster owns a network, a floating IP and a key; every WXOneMachine owns a VM and, on a
control-plane node, a route from the cluster's floating IP to that VM. Two reconcilers
create and tear these down, one call at a time, and may fail or die between any two calls.
This project states what that protocol guarantees and proves it with Dafny.

## How it is built

* `Api` holds the values of the two kinds and the merge patch: a leaf is sent only if it
  differs from the snapshot that the patch helper took when the pass began.
* `System` is one transition system with any number of machines. Every call that leaves the
  process is a step. A step may fail, may do its work and still report an error, or may never
  happen because the process died. `PassNext` and `CPassNext` say what the code does between
  one reply and the next call, guard by guard; the environment adds machines, requests
  deletion, edits specs as far as admission lets it, and removes objects between any two
  steps. `Reachable` is reachability by any run from a fresh cluster.
* `Invariant`, `MachineSteps`, `ClusterSteps`, `Frames` and `Preservation` carry the invariant
  through every action. `Safety`, `Ledger`, `Growth`, `Runs`, `ImageSelection`, `FixedPoint`,
  `LostRoutes`, `Recovery` and `MachineRecovery` draw the theorems from it, and `Scenarios` gives
  runs that reach the states which the negative results speak of.
* `Calls` says of every call what is stored when it is made, what it names and what comes of its reply, in
  terms of stored objects and replies alone, and lists the outcomes of the passes exactly.
* `TornPatches` and `TornRuns` take back one simplification: a patch goes out as two requests, one for
  metadata and spec and one for the status, and either may fail alone. Every run with such
  patches ends where some run without them does, so the theorems hold there too, but for
  the provider ID, which gets its own.
* `World`, `MachineReconciler` and `ClusterReconciler` are the code itself: objects in memory whose
  fields are assigned, an annotation map that is edited, patches in between, and the loops over
  images, addresses and subnets. A server plays an arbitrary schedule while a call is pending.
  The preconditions of the calls force each one to be the call that the transition system
  has next, with the arguments it has next, so each `Reconcile` is proved to be a run of
  the system.
* `BootData`, `DeepCopy` and `Webhook` are the user data, the generated copies over arrays and
  pointer cells, and the two validating webhooks.

## What is assumed

* One pass per object at a time. A pass begins with the object last stored and the
  annotation its owner Machine has then; reads later in the pass return what is stored then.
* Each half of a patch, metadata with spec and status, is one atomic merge. Object versions and
  conflicts are not modelled: an update that loses a conflict is a call that failed without effect.
* A create that took effect made an ID that is not empty and was never used before. The IDs
  of flavors and images come from look-ups and may be empty. The default project's ID is not empty.
* A deletion that took effect removed the named resource, or route, of the named project. The
  bodies of delete replies are ignored, as the code ignores them.
* A panic (an empty list indexed, a nil name or address dereferenced) ends the pass like a crash.
* Only the machine reconciler writes the pre-drain annotation, and the role label of a
  Machine does not change. Its other annotations are whatever they are found to be.
* Destroying a VM leaves its routes in the cloud; only a detach call takes a route away.
* The WXOneCluster is not deleted while a machine object exists. The code does not guard this.
* Infrastructure readiness is reported only for a WXOneCluster that was ready and not in deletion.
* The YAML and JSON libraries are parameters, any functions of their types; nothing is assumed of
  them. The rounding of numbers to float64 is part of the model.

## What turned out not to hold, and exactly when

* A control-plane machine can be drained and destroyed with its route still in place. At both points
  this is so if and only if an attach call took effect and its ID was never stored
  (`Safety.RouteLeftExactly`, `Safety.RouteLostOnlyUnrecorded`, `Safety.HookRemovedAfterWithdrawal`,
  `Safety.DestroyedAfterWithdrawal`). `Scenarios.RouteOutlivesItsMachine` is a run in which it
  happens; deletion does not clean it up.
* A normal machine pass can fall through to the end, unready, without an error and without a requeue.
  It does so exactly when, with no instance recorded, an empty flavor ID is stored next to a
  recorded image, or the last image of the wanted name is stored and its ID or the flavor's is
  empty (`Runs.FallThroughExactly`, `Runs.EmptyFlavorStrands`). The other ends without an error,
  readiness or a requeue are the ones the code intends: waiting for the cluster, and objects
  that are not there yet (`Runs.NormalPassEnds`).
* An error-free cluster pass need not restore the control plane endpoint. Host and port are merged
  apart: each ends up right if and only if the pass found it wrong when it began, or it is
  still right when the patch is sent (`Runs.EndpointRestoredExactly`, `Runs.EndpointHalfRestored`,
  `FixedPoint.EndpointEditOutlivesPass`).
* A recorded instance can be without its provider ID for good. Without an edit by a user this is so only
  after the patch that records the instance went through in its status half alone
  (`TornRuns.ProviderIDNamesTheInstance`), and then no later pass makes it good
  (`TornRuns.TornInstanceStaysUnnamed`, `Scenarios.SomeTornInstance`).
* A control-plane node gets its configuration with the block added if and only if the libraries read
  the augmented text back as that value; else another value is sent, or the pass fails
  (`BootData.BlockIsSent`).
* When the last image of the wanted name has an empty ID, an earlier one stays stored
  (`ImageSelection.LoopStoresTheLastMatch`).
* Two branches are dead: the detach without a hook whose error is only logged, and the requeue at the
  end of the machine's `reconcileDelete` (`Safety.LateDetachUnreachable`, `Runs.DeletePassEnds`).

## Model

| member | source | states |
|---|---|---|
| MachineReconciler.Reconcile | internal/controller/wxonemachine_controller.go:111-187 | One call of Reconcile, whatever else happens meanwhile and wherever it fails or dies, is a run of the transition system that ends with the pass over and the outcome returned |
| MachineReconciler.ReconcileNormal | internal/controller/wxonemachine_controller.go:262-482 | The creating pass makes exactly the calls of the transition system, in their order and with their arguments |
| MachineReconciler.Register | internal/controller/wxonemachine_controller.go:266-291 | The hook is added to the owner's annotations unless it is there, the others stay, and it is stored before the finalizer |
| MachineReconciler.SelectFlavor | internal/controller/wxonemachine_controller.go:328-344 | The flavor block ends at the image guard with the fetched ID in memory and patched, or the pass failed |
| MachineReconciler.SelectImage | internal/controller/wxonemachine_controller.go:346-374 | The image loop with its patches refines the scan, from any list, and fails on a nil name or without a match |
| MachineReconciler.PrepareUserData | internal/controller/wxonemachine_controller.go:377-407 | The user data sent is what the secret comes to for the role and the recorded IP |
| MachineReconciler.CreateVM | internal/controller/wxonemachine_controller.go:376-434 | The instance block calls create with the recorded subnet, flavor, image, project and key, and records what came back |
| MachineReconciler.RecordInstance | internal/controller/wxonemachine_controller.go:415-433 | Provider ID, instance and every address of the reply, in its order, go into one patch; a nil address ends the pass with the VM unrecorded |
| MachineReconciler.AttachFloatingIP | internal/controller/wxonemachine_controller.go:436-457 | A control-plane node with an instance and no attachment is attached once and the first ID recorded |
| MachineReconciler.MarkReady | internal/controller/wxonemachine_controller.go:459-481 | Ready only for a running instance; otherwise a requeue, or the fall-through |
| MachineReconciler.ReconcileDelete | internal/controller/wxonemachine_controller.go:484-614 | The deleting pass, on the owner as fetched anew, makes exactly the calls of the transition system: withdraw and unhook, or destroy and release |
| MachineReconciler.WithdrawRoute | internal/controller/wxonemachine_controller.go:526-548 | Before the hook is removed the route is withdrawn and the attachment forgotten in the store |
| MachineReconciler.ReleaseHook | internal/controller/wxonemachine_controller.go:552-555 | Of the owner's annotations the hook alone is removed |
| MachineReconciler.UpdateOwner | internal/controller/wxonemachine_controller.go:274-276 | The update sends every annotation but the hook as it was fetched |
| MachineReconciler.LateWithdraw | internal/controller/wxonemachine_controller.go:564-579 | The branch without a hook goes on whatever the detach call reports |
| MachineReconciler.DestroyVM | internal/controller/wxonemachine_controller.go:581-597 | The VM is deleted under its recorded ID and project and then forgotten in the store |
| ClusterReconciler.Reconcile | internal/controller/wxonecluster_controller.go:64-96 | One call of Reconcile for the cluster, with the look-up of its owner, is a run of the transition system with the outcome returned |
| ClusterReconciler.ReconcileNormal | internal/controller/wxonecluster_controller.go:98-250 | The creating pass refines the transition system's pass call by call |
| ClusterReconciler.SubnetInputs | internal/controller/wxonecluster_controller.go:149-156 | One input per subnet of the spec, in order, with its name, IP version and CIDR; a nil list gives none |
| ClusterReconciler.MakeNetwork | internal/controller/wxonecluster_controller.go:158-175 | The network is created under the spec's name, zone and subnets in the recorded project, and its first subnet recorded |
| ClusterReconciler.MakeKey | internal/controller/wxonecluster_controller.go:196-212 | The key is created under the network's name with the spec's public key |
| ClusterReconciler.MarkReady | internal/controller/wxonecluster_controller.go:214-249 | Ready and the endpoint (recorded IP, 6443) are patched together, and only with all three IDs recorded |
| ClusterReconciler.ReconcileDelete | internal/controller/wxonecluster_controller.go:252-352 | The deleting pass refines the transition system's pass call by call |
| Preservation.ApplyKeeps | internal/controller/wxonemachine_controller.go:262-614 | Every action of either reconciler or of the environment keeps the whole invariant, for any number of machines |
| Preservation.ReachableInv | internal/controller/wxonecluster_controller.go:98-352 | Every reachable state satisfies the invariant |
| Preservation.MoveKeeps | internal/controller/wxonemachine_controller.go:262-614 | Every step of a machine pass, with any reply, keeps that machine's invariant |
| Preservation.CMoveKeeps | internal/controller/wxonecluster_controller.go:98-352 | Every step of a cluster pass, with any reply, keeps the cluster's invariant |
| Calls.MachineCallsNameTheStored | internal/controller/wxonemachine_controller.go:410-597 | Every create, attach, detach and delete call of a machine names the stored zone, subnet, project, key, floating IP, flavor, image and instance, each in its place; no other step calls |
| Calls.ClusterCallsNameTheStored | internal/controller/wxonecluster_controller.go:158-337 | Every create and delete call of the cluster names its kind, the stored ID and the recorded project |
| Calls.OnlyStepsCall | internal/controller/wxonecluster_controller.go:139-337 | Nothing but the steps of the passes calls the cloud |
| Calls.CallsAreDue | internal/controller/wxonemachine_controller.go:328-597 | What must be stored, and what must not, whenever a machine's look-up, creation, attachment, check, withdrawal, unhooking or deletion is asked for |
| Calls.ClusterCallsAreDue | internal/controller/wxonecluster_controller.go:139-349 | Network, floating IP and key are made in this order, each once the one before is stored, and deleted in this order, each once the one before is gone |
| Calls.GatesWerePassed | internal/controller/wxonemachine_controller.go:317-326 | Past its gates a pass has seen the infrastructure ready and the boot data named, and its hook and finalizer are stored |
| Calls.GatesHold | internal/controller/wxonemachine_controller.go:317-328 | At the gates a pass ends, without touching store or cloud: waiting without infrastructure, with a requeue without boot data |
| Calls.LookUpDecides | internal/controller/wxonemachine_controller.go:114-179 | An absent owner or cluster ends the pass and changes nothing; otherwise deletion, a missing hook and the finalizer are taken up in this order |
| Calls.SecretDecides | internal/controller/wxonemachine_controller.go:378-410 | A VM is asked for if and only if the secret has a value that converts for the recorded IP |
| Calls.OutcomesExactly | internal/controller/wxonemachine_controller.go:262-614 | Each outcome of a machine's pass, with exactly the calls and replies that lead to it |
| Calls.ClusterOutcomesExactly | internal/controller/wxonecluster_controller.go:64-352 | The same for the cluster, whose passes never fall through |
| Calls.InstanceIsRecorded | internal/controller/wxonemachine_controller.go:415-433 | The create call's reply and the patch after it store the ID, all addresses in order and "wxone://" with the ID, exactly unless the pass began with that very provider ID and a user changed it |
| Calls.LateDetachGoesOn | internal/controller/wxonemachine_controller.go:564-579 | Were the detach without a hook reached, the pass would forget the attachment whatever the call reports |
| Api.PatchesMeet | internal/controller/wxonemachine_controller.go:293-298 | A patch leaves what was in memory where nothing else was stored meanwhile, and one without changes leaves what is stored |
| Safety.RecordedRouteHoldsDrain | internal/controller/wxonemachine_controller.go:271-290 | A recorded attachment implies the hook, the finalizer, a recorded instance and the control-plane role |
| Safety.LateDetachUnreachable | internal/controller/wxonemachine_controller.go:563-579 | The detach branch without a hook is never taken |
| Safety.DestroyedAfterWithdrawal | internal/controller/wxonemachine_controller.go:581-588 | A VM is destroyed only without hook and without recorded route; it has a route left if and only if one was made and never recorded |
| Safety.RouteLeftExactly | internal/controller/wxonemachine_controller.go:436-457 | A VM whose route no machine holds has a live route if and only if it is marked lost |
| Safety.RouteLostOnlyUnrecorded | internal/controller/wxonemachine_controller.go:444-455 | The mark is set exactly when an attach took effect and its ID was not stored, and cleared when it is |
| Safety.OnlyRemoveHookRemovesTheHook | internal/controller/wxonemachine_controller.go:552-555 | No other action takes the hook away |
| Safety.HookRemovedAfterWithdrawal | internal/controller/wxonemachine_controller.go:522-561 | The hook goes only in deletion and without recorded route; a route is left if and only if one was made and never recorded |
| Safety.RoutesAccountedFor | internal/controller/wxonemachine_controller.go:436-457 | Every live route is the cluster's floating IP to an instance whose machine holds it, or a lost one |
| Safety.RecordedRouteIsLive | internal/controller/wxonemachine_controller.go:449-456 | Until deletion is seen a recorded attachment is a live route |
| Safety.PassesAreIsolated | internal/controller/wxonemachine_controller.go:526-597 | No pass changes another machine, its instance or its routes |
| Safety.AttachDetachPaired | internal/controller/wxonemachine_controller.go:529-535 | Every detach call repeats project, floating IP and instance of the machine's attach calls, which are all alike |
| Safety.DetachFollowsAttach | internal/controller/wxonemachine_controller.go:526-535 | A detach is called only after the attach it withdraws |
| Safety.DeletesNameTheirProject | internal/controller/wxonecluster_controller.go:284-337 | Every delete call names a resource its own object made, and the project it was made in |
| Safety.RecordedIDsShareTheProject | internal/controller/wxonecluster_controller.go:139-212 | Every recorded network, floating IP, key and instance lies in the recorded project |
| Safety.ReadyClusterIsComplete | internal/controller/wxonecluster_controller.go:214-247 | A ready cluster has project, network, subnet, floating IP and key recorded, and what it records is live |
| Safety.ReadyMachineIsComplete | internal/controller/wxonemachine_controller.go:459-474 | A ready machine has a live instance and, on a control-plane node, a live route |
| Safety.ProviderIDsInjective | internal/controller/wxonemachine_controller.go:415 | Different instances have different provider IDs |
| Safety.ProviderIDsIdentify | internal/controller/wxonemachine_controller.go:415-416 | Unless a user edits it, the provider ID is "wxone://" and the recorded instance, and no two machines share one |
| Safety.ImagesMatchTheSpec | internal/controller/wxonemachine_controller.go:346-374 | Every stored image ID, and that of every create call, was listed under the name in the spec |
| Safety.BootDataIsTheSecrets | internal/controller/wxonemachine_controller.go:376-410 | Every create call carries what the libraries make of a text that the machine's own secret held, and of the recorded IP |
| Safety.BootDataIsAlwaysTheSame | internal/controller/wxonemachine_controller.go:384-410 | While the secret holds the same text, every call carries the same user data for the recorded IP, however often creation is retried |
| Ledger.Conservation | internal/controller/wxonecluster_controller.go:158-212 | What is live is recorded, in flight or lost, and only one of these; what is gone was recorded once |
| Ledger.NothingLeftButTheLost | internal/controller/wxonecluster_controller.go:339-349 | Once the finalizer is gone, all that lives of an object is lost |
| Ledger.OneNotLost | internal/controller/wxonemachine_controller.go:376-434 | Of one kind and object, two made things that are not lost are the same |
| Ledger.CreationBound | internal/controller/wxonemachine_controller.go:376-434 | Creations that took effect are at most one more than those whose ID was not stored |
| Ledger.NoCreateInDeletion | internal/controller/wxonecluster_controller.go:89-95 | Nothing is created for an object whose deletion a pass has seen |
| Ledger.GoneOnlyByDelete | internal/controller/wxonecluster_controller.go:284-337 | A resource ceases to live only by a delete call naming it, its owner and its project, and never comes back |
| Runs.NothingMadeAfterDeletion | internal/controller/wxonemachine_controller.go:174-179 | Over any run from there on, what was made for the object stays as it is |
| Runs.MachineIDsAreWriteOnce | internal/controller/wxonemachine_controller.go:328-457 | Over any run, flavor, instance and attachment IDs are not overwritten before deletion is seen; readiness and hook stay |
| Runs.ClusterIDsAreWriteOnce | internal/controller/wxonecluster_controller.go:139-212 | The same for subnet, network, floating IP and key; the project and the IP stay for good |
| Runs.SpecsAreFrozen | internal/webhook/v1beta1/wxonemachine_webhook.go:104-126 | Over any run of edits and patches, every field of the specs but provider ID and endpoint stays |
| Runs.ProjectStaysDefault | internal/webhook/v1beta1/wxonecluster_webhook.go:97-99 | The project name is "default" in every reachable state |
| Runs.MachineWritesAdmitted | internal/controller/wxonemachine_controller.go:415-433 | Every patch of the machine reconciler passes admission, and is refused only for a gone object or a finalizer in deletion |
| Runs.ClusterWritesAdmitted | internal/controller/wxonecluster_controller.go:225-245 | The same for the cluster reconciler |
| Runs.TagsStay | internal/controller/wxonecluster_controller.go:158-212 | Kind, project and owner of a made resource never change |
| Runs.DeletionNeverGoesBack | internal/controller/wxonemachine_controller.go:522-613 | In deletion the measure (hook, attachment, instance, finalizer) never grows, whatever fails, and the hook never returns |
| Runs.ClusterDeletionNeverGoesBack | internal/controller/wxonecluster_controller.go:284-349 | The same for (subnet, floating IP, key, finalizer) of the cluster |
| Runs.CleanDeletePassShrinks | internal/controller/wxonemachine_controller.go:522-613 | Every error-free delete pass of a machine lowers the measure, unless it was zero |
| Runs.DeletionBound | internal/controller/wxonemachine_controller.go:552-613 | After two error-free delete passes the finalizer and the instance are gone, after one the hook and the attachment |
| Runs.ClusterDeletionBound | internal/controller/wxonecluster_controller.go:284-349 | For the cluster one error-free delete pass is enough |
| Runs.DeletePassEnds | internal/controller/wxonemachine_controller.go:599-613 | A delete pass ends failed, skipped, with the hook removed or with the finalizer removed; the requeue is dead code |
| Runs.FallThroughExactly | internal/controller/wxonemachine_controller.go:328-481 | A step of any pass falls through if and only if it stores an empty flavor ID next to a recorded image, or the last wanted image while an ID is empty, and no instance is recorded |
| Runs.NormalPassEnds | internal/controller/wxonemachine_controller.go:318-481 | All the ways a normal pass ends, and that it falls through only after an empty flavor or image ID |
| Runs.EmptyFlavorStrands | internal/controller/wxonemachine_controller.go:328-344 | An empty flavor ID does end the pass unready, without an instance and without a requeue |
| Runs.ClusterPassEnds | internal/controller/wxonecluster_controller.go:214-249 | An error-free creating pass of the cluster leaves it ready and complete, unless it has no owner yet |
| Runs.EndpointRestoredExactly | internal/controller/wxonecluster_controller.go:225-245 | The pass restores the endpoint (recorded IP, 6443) if and only if, for host and port each, it began with another value or the stored one is right |
| Runs.EndpointHalfRestored | internal/controller/wxonecluster_controller.go:225-242 | A host found wrong and a port edited meanwhile: the pass ends ready with the host restored and the port not |
| FixedPoint.ReadyClusterIsFixed | internal/controller/wxonecluster_controller.go:98-250 | A pass over a ready cluster changes neither store nor cloud and calls no create or delete |
| FixedPoint.EndpointEditOutlivesPass | internal/controller/wxonecluster_controller.go:225-245 | From every such state, an endpoint edit made during the pass is still there after it |
| FixedPoint.ReadyMachineIsFixed | internal/controller/wxonemachine_controller.go:262-482 | A pass over a ready machine with a running VM changes neither store nor cloud and calls no create or delete |
| Recovery.CutPassRecovers | internal/controller/wxonecluster_controller.go:139-247 | A pass cut after any number of calls and then resumed ends as one uncut pass that was given the recorded answers; one resource is lost at most, exactly if the cut fell between create and patch |
| MachineRecovery.CutPassRecovers | internal/controller/wxonemachine_controller.go:262-482 | A machine pass cut after any number of calls and then resumed ends with the outcome, object, hook and routes of one uncut pass that was given the recorded answers, whether its VM runs yet or not; the cloud differs at most by one lost VM, exactly if the cut fell between its creation and its patch |
| MachineRecovery.GoOnTheWay | internal/controller/wxonemachine_controller.go:262-482 | An undisturbed machine pass stays on its course from any call on, touches no other object and ends ready, or with a requeue if the VM does not run yet |
| Recovery.GoOnTheWay | internal/controller/wxonecluster_controller.go:139-247 | An undisturbed pass fills empty slots only, touches nothing else and ends ready |
| LostRoutes.AttachMayBeLost | internal/controller/wxonemachine_controller.go:444-448 | An attach call can leave a live route with no recorded attachment |
| LostRoutes.UnrecordedRouteOutlivesMachine | internal/controller/wxonemachine_controller.go:522-613 | Two clean delete passes then destroy the VM and release the object with every route still in place |
| Scenarios.RouteOutlivesItsMachine | internal/controller/wxonemachine_controller.go:436-613 | Some run from a fresh cluster ends with the object released, its VM gone and a route to it still live |
| Scenarios.SomeImageWithoutFlavor | internal/controller/wxonemachine_controller.go:328-374 | Some run comes to the flavor look-up of a machine whose image is recorded |
| Scenarios.SomeDoubleEdit | internal/controller/wxonecluster_controller.go:214-247 | Some run comes to the state in which the endpoint is restored by half |
| TornPatches.TornPatchIsCovered | internal/controller/wxonemachine_controller.go:415-433 | A machine patch of which one half was applied leaves a reachable state, but for the record of an edited provider ID |
| TornPatches.CTornPatchIsCovered | internal/controller/wxonecluster_controller.go:225-245 | A cluster patch of which one half was applied leaves a reachable state |
| TornRuns.TornRunsAreCovered | internal/controller/wxonemachine_controller.go:262-614 | A run with any number of torn patches ends where a run with none ends, but for that record |
| TornRuns.ProviderIDNamesTheInstance | internal/controller/wxonemachine_controller.go:415-430 | With any torn patches but the status half of the recording one, an unedited provider ID names the recorded instance |
| TornRuns.TornInstanceStaysUnnamed | internal/controller/wxonemachine_controller.go:415-430 | After that one the provider ID stays as it was, over any run without a user's edit |
| Scenarios.SomeTornInstance | internal/controller/wxonemachine_controller.go:409-430 | Some run comes to the point where a machine without a provider ID has its instance recorded |
| ImageSelection.LoopSelectsTheLastMatch | internal/controller/wxonemachine_controller.go:355-373 | A loop whose patches succeed selects the last image of the name, and reports none if and only if there is none |
| ImageSelection.LoopFailsExactly | internal/controller/wxonemachine_controller.go:355-373 | From any list the loop fails if and only if an image has no name or none has the wanted one |
| ImageSelection.MatchIsStored | internal/controller/wxonemachine_controller.go:357-366 | A patch of the loop stores its ID, unless the ID is empty |
| ImageSelection.LoopStoresTheLastMatch | internal/controller/wxonemachine_controller.go:346-374 | After the whole loop the last match's ID is stored if and only if it is not empty; otherwise the last one that is not, or what was there before |
| BootData.CloudInitYAMLToJSON | internal/controller/wxonemachine_controller.go:55-86 | Gives the YAML library exactly the body of a text of any shape, and fails on a header alone |
| BootData.ShapeDecides | internal/controller/wxonemachine_controller.go:60-86 | With a header line the body is converted, without one the trimmed text; a header alone fails |
| BootData.EveryTextHasAShape | internal/controller/wxonemachine_controller.go:60-75 | There are no other texts |
| BootData.WorkerGetsItsSecret | internal/controller/wxonemachine_controller.go:399-407 | A node that is no control-plane node gets the converted body of its secret, or fails with it |
| BootData.ControlPlaneGetsTheBlock | internal/controller/wxonemachine_controller.go:390-407 | A control-plane node gets what the YAML library reads of its own configuration with the block for the address added, and fails without an object that can be read |
| BootData.BlockIsThere | internal/controller/wxonemachine_controller.go:200-250 | The block is a script that adds the address to the loopback device, a unit that runs it and the commands that reload, enable and start it, after the old entries |
| BootData.HeaderIsStripped | internal/controller/wxonemachine_controller.go:60-72 | For any header line and any surrounding space exactly the trimmed body is converted |
| BootData.BodyIsKept | internal/controller/wxonemachine_controller.go:60-75 | Without a header nothing but surrounding space is dropped |
| BootData.ReconversionIsIdentity | internal/controller/wxonemachine_controller.go:393-402 | The conversion hands the whole of its own output to the YAML library, so the value stays as it is if and only if that library reads the text back |
| BootData.BlockIsSent | internal/controller/wxonemachine_controller.go:390-407 | A control-plane node gets its configuration with the block if and only if the libraries read the augmented text back, and the pass fails if and only if it does not convert |
| BootData.ExactIsKept | internal/controller/wxonemachine_controller.go:195-198 | Reading a document whose numbers are float64 values changes nothing in it |
| BootData.RoundedIsExact | internal/controller/wxonemachine_controller.go:195-198 | What was read of a document is read unchanged again |
| BootData.SomeLibraryKeeps | internal/controller/wxonemachine_controller.go:393-402 | For every configuration there are libraries and a secret with which the block is sent, at any address |
| BootData.AddPersistentLoAddressToCloudInit | internal/controller/wxonemachine_controller.go:189-258 | Succeeds exactly on an object whose numbers are in range, and gives the text of what was read with the block for the address |
| BootData.MakeUserData | internal/controller/wxonemachine_controller.go:390-402 | With any libraries: a worker gets the converted body of its secret, a control-plane node its configuration augmented, written and read again; every failure on the way fails the pass |
| BootData.OneBlockAdded | internal/controller/wxonemachine_controller.go:219-250 | Two files and three commands occur once more, all others as often as before; old entries are prefixes, other keys untouched |
| BootData.AugmentTwiceAddsTwo | internal/controller/wxonemachine_controller.go:219-250 | The block is not idempotent, so the augmented text must not be written back |
| Webhook.ValidateMachineUpdate | internal/webhook/v1beta1/wxonemachine_webhook.go:104-126 | Admits if and only if flavor and image agree, and writes to no existing object |
| Webhook.ValidateClusterUpdate | internal/webhook/v1beta1/wxonecluster_webhook.go:108-130 | Admits if and only if project, zone, network, key and credentials agree, and writes to no existing object |
| Webhook.ValidateClusterCreate | internal/webhook/v1beta1/wxonecluster_webhook.go:91-105 | Admits if and only if the project is "default" |
| Webhook.AdmissionIsEquivalence | internal/webhook/v1beta1/wxonecluster_webhook.go:119-127 | Admitted edits compose and can be undone, so no sequence of them reaches a frozen field |
| DeepCopy.CopyClusterSpec | api/v1beta1/zz_generated.deepcopy.go:103-114 | Equal in value, with all slices and pointers new |
| DeepCopy.CopyNetwork | api/v1beta1/zz_generated.deepcopy.go:510-517 | Equal in value, with a new slice, and nil stays nil |
| DeepCopy.CopyClusterList | api/v1beta1/zz_generated.deepcopy.go:71-82 | For any length, equal items that share no slice or pointer with the original or with each other |
| DeepCopy.CopyMachineSpec | api/v1beta1/zz_generated.deepcopy.go:357-366 | Equal in value, with a new provider ID cell |
| DeepCopy.CopyMachineStatus | api/v1beta1/zz_generated.deepcopy.go:379-390 | Equal in value, with a new address slice |
| DeepCopy.CopyMachineList | api/v1beta1/zz_generated.deepcopy.go:325-336 | For any length, equal items that share no slice or pointer with the original or with each other |

## Left out

- Cluster API's own controllers: they are not part of this repository, so nothing is said about a drain that follows the hook's removal or about deletion being requested at all.
- Stale reads from a cache: a pass begins with the object last stored. With an older object a pass could create a second instance, so Ledger.CreationBound would need one more term for each such pass.
- MachineRecovery.CutPassRecovers: both passes run on a ready cluster with a secret that converts, and the chosen image, the flavor, the VM, its addresses and the attachment come back with IDs and values wherever a pass asks for them.
- LostRoutes.UnrecordedRouteOutlivesMachine: rests on the cloud keeping a route whose VM is destroyed, of which the repository says nothing.
- BootData.CloudInitYAMLToJSON: text is a sequence of characters, not of bytes, and the check that the library's output is valid JSON is part of the conversion it is given.
- DeepCopy.CopyClusterList: TypeMeta, ObjectMeta and ListMeta are not modelled, nor are the copies of the template kinds.
- DeepCopy.CopyMachineList: TypeMeta, ObjectMeta and ListMeta are not modelled.
- MachineReconciler.NewClients: reading the credentials, logging in and fetching owners is one call that fails or succeeds; the HTTP login in internal/controller/clients.go is not modelled.
- Generated GraphQL bindings (internal/controller/generated.go): only the create, get and delete contracts the code relies on.
- Template webhooks, defaulters, ValidateDelete, the machine's ValidateCreate, conversion, event wiring, RBAC and manifests: no state, or no decision to prove anything about.
- Arguments that are constants in the code: the priority and flags of the floating group, the "deepmerge" mode of the user data and createInstance's flag. A VM's status is read as running or not.
- Logging, requeue delays and environment fallbacks: no effect on the store or the cloud.
