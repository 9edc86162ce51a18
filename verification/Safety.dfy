/** What holds in every reachable state: route before drain before destroy, agreement on the
    shared route, pairing of attach and detach, projects, and justified readiness. */
module Safety {
  import opened Api
  import opened System
  import opened Invariant
  import opened Frames
  import opened Preservation

  /** A recorded attachment of any machine holds up its drain and its finalizer. */
  lemma RecordedRouteHoldsDrain(s: Sys, k: Key)
    requires Reachable(s) && k in s.machines && s.machines[k].obj.status.attachment.Uuid?
    ensures s.machines[k].hook && s.machines[k].obj.finalizer && s.machines[k].exists_
    ensures s.machines[k].obj.status.instance.Uuid? && s.machines[k].cfg.controlPlane
  {
    ReachableInv(s);
  }

  /** The branch that detaches without a hook and swallows the error is never taken. */
  lemma LateDetachUnreachable(s: Sys, k: Key)
    requires Reachable(s) && k in s.machines && s.machines[k].pass.Run?
    ensures !s.machines[k].pass.pc.LateDetach? && !s.machines[k].pass.pc.PatchLateDetached?
  {
    ReachableInv(s);
  }

  /** A VM whose route no machine holds has a route exactly if one was made and never recorded. */
  lemma RouteLeftExactly(s: Sys, k: Key, i: Id)
    requires Reachable(s) && k in s.machines && i in s.cloud.res && s.cloud.res[i].owner == OfMachine(k)
    requires !RouteHeld(s.machines[k], i)
    ensures (exists f :: (f, i) in s.cloud.routes) <==> i in s.cloud.lostRoutes
  {
    ReachableInv(s);
    assert MRoutes(s.cluster, s.cloud, k, s.machines[k]);
    if f :| (f, i) in s.cloud.routes {
      assert (f, i).1 == i;
    }
  }

  /** The mark is set when an attach call took effect and the pass ended with its reply, or when
      the patch of the attachment did not take effect, and cleared when that patch does. */
  lemma RouteLostOnlyUnrecorded(s: Sys, a: Action, i: Id)
    requires Enabled(s, a) && (i in s.cloud.lostRoutes) != (i in Apply(s, a).cloud.lostRoutes)
    ensures (a.Step? || a.Crash?) && s.machines[a.key].pass.mem.status.instance == i
    ensures var pc := s.machines[a.key].pass.pc;
      if i in s.cloud.lostRoutes then a.Step? && pc.PatchAttachment? && Took(a.r)
      else if pc.Attach? then a.Step? && Took(a.r) && Apply(s, a).machines[a.key].pass.Idle?
      else pc.PatchAttachment? && (a.Crash? || !Took(a.r))
  {
    match a
    case Step(k, r) =>
      assert Apply(s, a).cloud.lostRoutes
          == StepLostRoutes(s.cloud, s.machines[k].pass, PassNext(s.machines[k].cfg, s.machines[k].pass, r), r);
    case _ =>
  }

  lemma HoldsNoRoute(c: Cluster, cloud: Cloud, k: Key, m: Machine)
    requires MStored(c, cloud, k, m) && MPassOk(c, cloud, k, m) && m.pass.Run?
    requires m.pass.pc.Destroy? || m.pass.pc.RemoveHook?
    ensures m.obj.status.attachment.Unset? && m.pass.mem.status.instance == m.obj.status.instance
    ensures m.deletionSeen && (m.pass.pc.Destroy? ==> !m.hook)
    ensures m.obj.status.instance.Uuid? ==>
              m.obj.status.instance in cloud.res && cloud.res[m.obj.status.instance].owner == OfMachine(k)
  {
  }

  /** When a VM is about to be destroyed its hook is gone and its route is not recorded; it has a
      route left exactly if one was made and its attachment ID was never stored. */
  lemma DestroyedAfterWithdrawal(s: Sys, k: Key)
    requires Reachable(s) && k in s.machines && s.machines[k].pass.Run? && s.machines[k].pass.pc.Destroy?
    ensures !s.machines[k].hook && s.machines[k].obj.status.attachment.Unset?
    ensures s.machines[k].pass.mem.status.instance == s.machines[k].obj.status.instance
    ensures var i := s.machines[k].obj.status.instance;
      (exists f :: (f, i) in s.cloud.routes) <==> i in s.cloud.lostRoutes
  {
    ReachableInv(s);
    var m := s.machines[k];
    HoldsNoRoute(s.cluster, s.cloud, k, m);
    assert m.pass.mem.status.instance.Uuid? by {
      assert MPassOk(s.cluster, s.cloud, k, m);
    }
    RouteLeftExactly(s, k, m.obj.status.instance);
  }

  lemma StepLeavesHook(m: Machine, next: MPass, r: Reply)
    requires m.pass.Run?
    ensures m.hook && !StepMachine(m, next, r).hook ==> m.pass.pc.RemoveHook?
  {
  }

  lemma OnlyRemoveHookRemovesTheHook(s: Sys, k: Key, a: Action)
    requires Enabled(s, a) && k in s.machines && s.machines[k].hook && !Apply(s, a).machines[k].hook
    ensures a.Step? && a.key == k && s.machines[k].pass.pc.RemoveHook?
  {
    if a.Step? && a.key == k {
      var m := s.machines[k];
      StepLeavesHook(m, PassNext(m.cfg, m.pass, a.r), a.r);
    }
  }

  /** The hook is removed only from a machine in deletion with no recorded attachment. Its VM then
      has a route left exactly if one was made and its attachment ID was never stored. */
  lemma HookRemovedAfterWithdrawal(s: Sys, k: Key, a: Action)
    requires Reachable(s) && Enabled(s, a) && k in s.machines
    requires s.machines[k].hook && !Apply(s, a).machines[k].hook
    ensures s.machines[k].deleting && s.machines[k].obj.status.attachment.Unset?
    ensures var i := s.machines[k].obj.status.instance;
      (exists f :: (f, i) in s.cloud.routes) <==> i in s.cloud.lostRoutes
  {
    OnlyRemoveHookRemovesTheHook(s, k, a);
    ReachableInv(s);
    var m := s.machines[k];
    HoldsNoRoute(s.cluster, s.cloud, k, m);
    if m.obj.status.instance.Uuid? {
      RouteLeftExactly(s, k, m.obj.status.instance);
    } else {
      assert forall rt :: rt in s.cloud.routes ==> rt.1 in s.cloud.res && rt.1.Uuid?;
    }
  }

  /** Every live route is the cluster's floating IP to the instance of a machine that has
      recorded it or is about to, or one whose record was lost. */
  lemma RoutesAccountedFor(s: Sys, f: Id, i: Id)
    requires Reachable(s) && (f, i) in s.cloud.routes
    ensures f == s.cluster.first.floatingIP && f.Uuid?
    ensures i in s.cloud.lostRoutes || exists k :: k in s.machines && RouteHeld(s.machines[k], i)
  {
    ReachableInv(s);
    assert (f, i).1 in s.cloud.res && s.cloud.res[i].owner.OfMachine?;
    var k := s.cloud.res[i].owner.key;
    assert MInv(s.cluster, s.cloud, k, s.machines[k]);
  }

  /** Until deletion begins, a recorded attachment is a live route of the recorded floating IP. */
  lemma RecordedRouteIsLive(s: Sys, k: Key)
    requires Reachable(s) && k in s.machines && !s.machines[k].deletionSeen
    requires s.machines[k].obj.status.attachment.Uuid?
    ensures s.cluster.obj.status.floatingIP.Uuid?
    ensures (s.cluster.obj.status.floatingIP, s.machines[k].obj.status.instance) in s.cloud.routes
  {
    ReachableInv(s);
  }

  lemma OtherInstanceUntouched(cloud: Cloud, cloud': Cloud, o: Owner, i: Id)
    requires OnlyOf(cloud, cloud', o) && i in cloud.res && cloud.res[i].owner != o
    ensures i in cloud'.res && cloud'.res[i] == cloud.res[i]
    ensures forall f :: (f, i) in cloud'.routes <==> (f, i) in cloud.routes
  {
    forall f ensures (f, i) in cloud'.routes <==> (f, i) in cloud.routes {
      assert (f, i).1 == i;
    }
  }

  /** No pass of one machine changes another machine, or the instance or the routes of another. */
  lemma PassesAreIsolated(s: Sys, a: Action, k: Key, j: Key)
    requires Reachable(s) && Enabled(s, a) && (a == Crash(k) || (a.Step? && a.key == k))
    requires j in s.machines && j != k && s.machines[j].obj.status.instance.Uuid?
    ensures Apply(s, a).machines[j] == s.machines[j] && Apply(s, a).cluster == s.cluster
    ensures var i := s.machines[j].obj.status.instance;
      && i in s.cloud.res && i in Apply(s, a).cloud.res && Apply(s, a).cloud.res[i] == s.cloud.res[i]
      && forall f :: (f, i) in Apply(s, a).cloud.routes <==> (f, i) in s.cloud.routes
  {
    ReachableInv(s);
    PassLeavesOthers(s, a, k, j);
    PassOnlyOf(s, a, k);
    InstanceSharesTheProject(s.cluster, s.cloud, j, s.machines[j]);
    OtherInstanceUntouched(s.cloud, Apply(s, a).cloud, OfMachine(k), s.machines[j].obj.status.instance);
  }

  lemma PassLeavesOthers(s: Sys, a: Action, k: Key, j: Key)
    requires Enabled(s, a) && (a == Crash(k) || (a.Step? && a.key == k)) && j in s.machines && j != k
    ensures j in Apply(s, a).machines && Apply(s, a).machines[j] == s.machines[j]
    ensures Apply(s, a).cluster == s.cluster
  {
  }

  lemma PassOnlyOf(s: Sys, a: Action, k: Key)
    requires Inv(s) && Enabled(s, a) && (a == Crash(k) || (a.Step? && a.key == k))
    ensures OnlyOf(s.cloud, Apply(s, a).cloud, OfMachine(k))
  {
    if a.Step? {
      var s' := Apply(s, a);
      StepOnlyOf(s.cluster, s.infraReady, s.cloud, k, s.machines[k], a.r, s'.machines[k], s'.cloud);
    } else {
      CrashOnlyOf(s, k);
    }
  }

  /** Every detach call repeats the project, floating IP and instance of an attach call made
      for the same machine, and all attach calls of a machine are the same. */
  lemma AttachDetachPaired(s: Sys, x: Call, y: Call)
    requires Reachable(s) && x in s.cloud.calls && y in s.cloud.calls
    requires x.DetachCall? && y.AttachCall? && x.key == y.key
    ensures AttachCall(x.key, x.project, x.fip, x.instance) in s.cloud.calls
    ensures y == AttachCall(x.key, x.project, x.fip, x.instance)
  {
    ReachableInv(s);
    var k := x.key;
    assert ByMachine(x) && CallKey(x) in s.machines;
    assert MInv(s.cluster, s.cloud, k, s.machines[k]);
    var z := AttachCall(k, x.project, x.fip, x.instance);
    assert z in s.cloud.calls;
    assert z.project == y.project && z.fip == y.fip && z.instance == y.instance;
  }

  /** A detach call is issued only after the attach call it withdraws. */
  lemma DetachFollowsAttach(s: Sys, a: Action, x: Call)
    requires Reachable(s) && Enabled(s, a)
    requires x.DetachCall? && x !in s.cloud.calls && x in Apply(s, a).cloud.calls
    ensures AttachCall(x.key, x.project, x.fip, x.instance) in s.cloud.calls
  {
    ReachableInv(s);
    OnlyStepsDetach(s, a, x);
    DetachesTheAttached(s.cluster, s.cloud, a.key, s.machines[a.key]);
  }

  lemma OnlyStepsDetach(s: Sys, a: Action, x: Call)
    requires Enabled(s, a) && x.DetachCall? && x !in s.cloud.calls && x in Apply(s, a).cloud.calls
    ensures a.Step? && (s.machines[a.key].pass.pc.Detach? || s.machines[a.key].pass.pc.LateDetach?)
    ensures var p := s.machines[a.key].pass;
      x == DetachCall(a.key, p.clu.project, p.clu.floatingIP, p.mem.status.instance)
  {
  }

  lemma DetachesTheAttached(c: Cluster, cloud: Cloud, k: Key, m: Machine)
    requires MStored(c, cloud, k, m) && MPassOk(c, cloud, k, m) && m.pass.Run?
    ensures !m.pass.pc.LateDetach?
    ensures m.pass.pc.Detach? ==>
              AttachCall(k, m.pass.clu.project, m.pass.clu.floatingIP, m.pass.mem.status.instance) in cloud.calls
  {
  }

  /** Every delete call, of either reconciler, names a resource that the same object had made
      and the project it was made in. */
  lemma DeletesNameTheirProject(s: Sys, x: Call)
    requires Reachable(s) && x in s.cloud.calls && x.DeleteCall?
    ensures x.id in s.cloud.res && s.cloud.res[x.id].project == x.project
    ensures s.cloud.res[x.id].owner == x.owner && s.cloud.res[x.id].kind == x.kind
  {
    ReachableInv(s);
  }

  lemma SlotSharesTheProject(cloud: Cloud, c: Cluster, kind: Kind)
    requires CStored(cloud, c) && Slot(c.obj.status, kind).Uuid?
    ensures c.obj.status.project.Uuid? && MadeAs(cloud, Slot(c.obj.status, kind), kind, c.obj.status.project, OfCluster)
    ensures cloud.res[Slot(c.obj.status, kind)].kept
  {
    assert CSlotOk(cloud, c, Network) && CSlotOk(cloud, c, FloatingIP) && CSlotOk(cloud, c, SshKey);
  }

  lemma InstanceSharesTheProject(c: Cluster, cloud: Cloud, k: Key, m: Machine)
    requires MStored(c, cloud, k, m) && m.obj.status.instance.Uuid?
    ensures c.obj.status.project.Uuid?
    ensures MadeAs(cloud, m.obj.status.instance, Instance, c.obj.status.project, OfMachine(k))
    ensures cloud.res[m.obj.status.instance].kept
  {
  }

  /** A recorded network, floating IP, key or instance lies in the recorded project. */
  lemma RecordedIDsShareTheProject(s: Sys, id: Id)
    requires Reachable(s) && id.Uuid?
    requires (exists kind :: id == Slot(s.cluster.obj.status, kind))
             || (exists k :: k in s.machines && s.machines[k].obj.status.instance == id)
    ensures s.cluster.obj.status.project.Uuid? && id in s.cloud.res
    ensures s.cloud.res[id].project == s.cluster.obj.status.project && s.cloud.res[id].kept
  {
    ReachableInv(s);
    if k :| k in s.machines && s.machines[k].obj.status.instance == id {
      InstanceSharesTheProject(s.cluster, s.cloud, k, s.machines[k]);
    } else {
      var kind :| id == Slot(s.cluster.obj.status, kind);
      SlotSharesTheProject(s.cloud, s.cluster, kind);
    }
  }

  lemma ReadyClusterIsComplete(s: Sys)
    requires Reachable(s) && s.cluster.obj.status.ready && !s.cluster.deletionSeen
    ensures Complete(s.cluster.obj) && s.cluster.obj.status.network.Uuid?
    ensures forall kind :: Slot(s.cluster.obj.status, kind).Uuid? ==>
              Slot(s.cluster.obj.status, kind) in s.cloud.res
              && s.cloud.res[Slot(s.cluster.obj.status, kind)].live
  {
    ReachableInv(s);
    forall kind | Slot(s.cluster.obj.status, kind).Uuid?
      ensures Slot(s.cluster.obj.status, kind) in s.cloud.res
        && s.cloud.res[Slot(s.cluster.obj.status, kind)].live
    {
      assert CSlotOk(s.cloud, s.cluster, kind);
    }
  }

  lemma ReadyMachineIsComplete(s: Sys, k: Key)
    requires Reachable(s) && k in s.machines
    requires s.machines[k].obj.status.ready && !s.machines[k].deletionSeen
    ensures s.machines[k].obj.status.instance in s.cloud.res
    ensures s.cloud.res[s.machines[k].obj.status.instance].live
    ensures s.machines[k].cfg.controlPlane ==>
              s.machines[k].obj.status.attachment.Uuid?
              && (s.cluster.obj.status.floatingIP, s.machines[k].obj.status.instance) in s.cloud.routes
  {
    ReachableInv(s);
    assert MInv(s.cluster, s.cloud, k, s.machines[k]);
  }

  lemma {:induction false} ProviderIDsInjective(i: Id, j: Id)
    requires i.Uuid? && j.Uuid? && ProviderID(i) == ProviderID(j)
    ensures i == j
  {
    assert i.text == ProviderID(i)[|"wxone://"|..];
    assert j.text == ProviderID(j)[|"wxone://"|..];
  }

  /** As long as no user edits them, provider IDs name the recorded instance, and two machines
      never share one. */
  lemma ProviderIDsIdentify(s: Sys, k: Key, j: Key)
    requires Reachable(s) && k in s.machines && j in s.machines && k != j
    requires !s.machines[k].edited && s.machines[k].obj.status.instance.Uuid?
    requires !s.machines[j].edited && s.machines[j].obj.status.instance.Uuid?
    ensures s.machines[k].obj.spec.providerID == Some("wxone://" + s.machines[k].obj.status.instance.text)
    ensures s.machines[k].obj.spec.providerID != s.machines[j].obj.spec.providerID
  {
    ReachableInv(s);
    var i, i' := s.machines[k].obj.status.instance, s.machines[j].obj.status.instance;
    assert MInv(s.cluster, s.cloud, k, s.machines[k]) && MInv(s.cluster, s.cloud, j, s.machines[j]);
    if ProviderID(i) == ProviderID(i') {
      ProviderIDsInjective(i, i');
    }
  }

  /** Every image ID ever stored, and every image an instance was ever asked for, was offered
      by some image list under the name in the spec. */
  lemma ImagesMatchTheSpec(s: Sys, k: Key)
    requires Reachable(s) && k in s.machines
    ensures var m := s.machines[k];
      && (m.obj.status.image.Uuid? ==> (m.obj.spec.image, m.obj.status.image) in s.cloud.offered)
      && forall x :: x in s.cloud.calls && x.CreateInstanceCall? && x.key == k ==>
           (m.obj.spec.image, x.image) in s.cloud.offered
  {
    ReachableInv(s);
    assert MInv(s.cluster, s.cloud, k, s.machines[k]);
  }

  /** Every create call carries what the libraries make of a text that the machine's own secret
      held when it was read, and of the recorded IP. */
  lemma BootDataIsTheSecrets(s: Sys, x: Call)
    requires Reachable(s) && x in s.cloud.calls && x.CreateInstanceCall?
    ensures x.key in s.machines
    ensures FromSecret(s.cloud, x.key, s.machines[x.key].cfg, s.cluster.obj.status.ip, x.user)
  {
    ReachableInv(s);
    assert ByMachine(x) && CallKey(x) in s.machines;
    assert MInv(s.cluster, s.cloud, x.key, s.machines[x.key]);
  }

  /** So as long as a machine's secret holds the same text, every call carries the same user data,
      however often the creation of its instance is retried. */
  lemma BootDataIsAlwaysTheSame(s: Sys, x: Call, text: string)
    requires Reachable(s) && x in s.cloud.calls && x.CreateInstanceCall?
    requires forall t :: (x.key, t) in s.cloud.secrets ==> t == text
    ensures x.key in s.machines && s.machines[x.key].cfg.boot(text, s.cluster.obj.status.ip) == Some(x.user)
  {
    BootDataIsTheSecrets(s, x);
  }
}
