/** Each call that leaves the process: what is stored when it is made, what it names, and what
    comes of its reply. All of it is said of stored objects and replies alone. */
module Calls {
  import opened Api
  import opened System
  import opened Invariant
  import opened Preservation
  import opened Runs

  // ---------- what is stored when a call is made ----------

  predicate PastTheGates(pc: MPc)
  {
    pc.GetFlavor? || pc.PatchFlavor? || pc.ListImages? || pc.PatchImage? || pc.GetSecret? || pc.CreateInstance?
    || pc.PatchInstance? || pc.Attach? || pc.PatchAttachment? || pc.GetInstance? || pc.PatchReady?
  }

  /** Past the gates the infrastructure was seen ready and the boot data named. */
  lemma GatesWerePassed(s: Sys, k: Key)
    requires Reachable(s) && k in s.machines && s.machines[k].pass.Run? && PastTheGates(s.machines[k].pass.pc)
    ensures var m := s.machines[k];
      m.pass.infra && m.pass.bootstrap && m.hook && m.obj.finalizer && m.exists_ && !m.deletionSeen && !m.pass.del
  {
    ReachableInv(s);
    assert MInv(s.cluster, s.cloud, k, s.machines[k]);
    MachinePassedGates(s.cluster, s.cloud, k, s.machines[k]);
  }

  lemma MachinePassedGates(c: Cluster, cloud: Cloud, k: Key, m: Machine)
    requires MStored(c, cloud, k, m) && MPassOk(c, cloud, k, m) && m.pass.Run? && PastTheGates(m.pass.pc)
    ensures m.pass.infra && m.pass.bootstrap && m.hook && m.obj.finalizer && m.exists_ && !m.deletionSeen && !m.pass.del
  {
  }

  predicate Due(c: ClusterStatus, m: Machine)
    requires m.pass.Run?
  {
    var pc, st, cp := m.pass.pc, m.obj.status, m.cfg.controlPlane;
    && (pc.GetFlavor? ==> st.flavor.Unset?)
    && (pc.ListImages? ==> m.pass.before.status.image.Unset?)
    && (pc.GetSecret? || pc.CreateInstance? ==>
          && st.instance.Unset? && st.attachment.Unset? && st.flavor.Uuid? && st.image.Uuid?
          && c.project.Uuid? && c.subnet.Uuid? && c.floatingIP.Uuid? && c.sshKey.Uuid?)
    && (pc.Attach? ==> cp && st.instance.Uuid? && st.attachment.Unset? && c.floatingIP.Uuid?)
    && (pc.GetInstance? || pc.PatchReady? ==> st.instance.Uuid? && (cp ==> st.attachment.Uuid?))
    && (pc.Detach? ==> m.deleting && m.hook && cp && st.attachment.Uuid? && st.instance.Uuid?)
    && (pc.RemoveHook? ==> m.deleting && m.hook && st.attachment.Unset?)
    && (pc.Destroy? ==> m.deleting && !m.hook && st.attachment.Unset? && st.instance.Uuid?)
    && (pc.PatchFinalizerOff? ==> m.deleting && !m.hook && st.attachment.Unset? && st.instance.Unset?)
  }

  /** No look-up, creation, attachment, withdrawal or deletion is asked for out of turn. */
  lemma CallsAreDue(s: Sys, k: Key)
    requires Reachable(s) && k in s.machines && s.machines[k].pass.Run?
    ensures Due(s.cluster.obj.status, s.machines[k])
  {
    ReachableInv(s);
    assert MInv(s.cluster, s.cloud, k, s.machines[k]);
    MachineCallIsDue(s.cluster, s.cloud, k, s.machines[k]);
  }

  lemma MachineCallIsDue(c: Cluster, cloud: Cloud, k: Key, m: Machine)
    requires MStored(c, cloud, k, m) && MPassOk(c, cloud, k, m) && m.pass.Run?
    ensures Due(c.obj.status, m)
  {
  }

  predicate CDue(c: Cluster)
    requires c.pass.CRun?
  {
    var pc, st := c.pass.pc, c.obj.status;
    && (pc.GetProject? ==> st.project.Unset?)
    && (pc == Create(Network) ==> c.obj.finalizer && st.network.Unset? && st.subnet.Unset?)
    && (pc == Create(FloatingIP) ==> c.obj.finalizer && st.subnet.Uuid? && st.floatingIP.Unset?)
    && (pc == Create(SshKey) ==> c.obj.finalizer && st.subnet.Uuid? && st.floatingIP.Uuid? && st.sshKey.Unset?)
    && (pc.CPatchReady? ==> st.subnet.Uuid? && st.floatingIP.Uuid? && st.sshKey.Uuid?)
    && (pc == Delete(Network) ==> c.deleting && st.subnet.Uuid? && st.network.Uuid?)
    && (pc == Delete(FloatingIP) ==> c.deleting && st.subnet.Unset? && st.network.Unset? && st.floatingIP.Uuid?)
    && (pc == Delete(SshKey) ==> c.deleting && st.subnet.Unset? && st.floatingIP.Unset? && st.sshKey.Uuid?)
    && (pc.CPatchFinalizerOff? ==> c.deleting && st.subnet.Unset? && st.floatingIP.Unset? && st.sshKey.Unset?)
  }

  /** The cluster's network, floating IP and key are made and deleted in this order. */
  lemma ClusterCallsAreDue(s: Sys)
    requires Reachable(s) && s.cluster.pass.CRun?
    ensures CDue(s.cluster)
  {
    ReachableInv(s);
    ClusterCallIsDue(s.cloud, s.cluster);
  }

  lemma ClusterCallIsDue(cloud: Cloud, c: Cluster)
    requires CStored(cloud, c) && CPassOk(cloud, c) && c.pass.CRun?
    ensures CDue(c)
  {
    assert CSlotOk(cloud, c, Network) && CSlotOk(cloud, c, FloatingIP) && CSlotOk(cloud, c, SshKey);
  }

  // ---------- what a call names ----------

  /** The calls of a machine pass that change the cloud, with every argument as it is stored. */
  lemma MachineCallsNameTheStored(s: Sys, k: Key, r: Reply)
    requires Reachable(s) && StepEnabled(s, k, r)
    ensures var m, c, now, calls :=
        s.machines[k], s.cluster.obj, s.cloud.calls, ApplyStep(s, k, r).cloud.calls;
      match m.pass.pc
      case CreateInstance(user) =>
        calls == now + {CreateInstanceCall(k, c.spec.zone, c.status.subnet, m.obj.status.flavor, m.obj.status.image,
                                           c.status.project, c.status.sshKey, user)}
      case Attach => calls == now + {AttachCall(k, c.status.project, c.status.floatingIP, m.obj.status.instance)}
      case Detach => calls == now + {DetachCall(k, c.status.project, c.status.floatingIP, m.obj.status.instance)}
      case Destroy => calls == now + {DeleteCall(OfMachine(k), Instance, m.obj.status.instance, c.status.project)}
      case _ => calls == now
  {
    ReachableInv(s);
    assert MInv(s.cluster, s.cloud, k, s.machines[k]);
    MachineCallNames(s.cluster, s.cloud, k, s.machines[k]);
    assert ApplyStep(s, k, r).cloud.calls == StepCalls(s.cloud, k, s.machines[k].pass);
  }

  lemma MachineCallNames(c: Cluster, cloud: Cloud, k: Key, m: Machine)
    requires MStored(c, cloud, k, m) && MPassOk(c, cloud, k, m) && m.pass.Run?
    ensures var o, now, calls := c.obj, cloud.calls, StepCalls(cloud, k, m.pass);
      match m.pass.pc
      case CreateInstance(user) =>
        calls == now + {CreateInstanceCall(k, o.spec.zone, o.status.subnet, m.obj.status.flavor, m.obj.status.image,
                                           o.status.project, o.status.sshKey, user)}
      case Attach => calls == now + {AttachCall(k, o.status.project, o.status.floatingIP, m.obj.status.instance)}
      case Detach => calls == now + {DetachCall(k, o.status.project, o.status.floatingIP, m.obj.status.instance)}
      case Destroy => calls == now + {DeleteCall(OfMachine(k), Instance, m.obj.status.instance, o.status.project)}
      case _ => calls == now
  {
  }

  /** The cluster's calls that change the cloud. A project that is not stored yet is stored with the
      network that is made in it. */
  lemma ClusterCallsNameTheStored(s: Sys, r: Reply)
    requires Reachable(s) && CStepEnabled(s, r)
    ensures var st, project, now, calls :=
        s.cluster.obj.status, s.cluster.pass.mem.status.project, s.cloud.calls, CApplyStep(s, r).cloud.calls;
      match s.cluster.pass.pc
      case Create(kind) =>
        calls == now + {CreateCall(kind, project)} && project.Uuid? && (st.project.Uuid? ==> project == st.project)
      case Delete(Network) => calls == now + {DeleteCall(OfCluster, Network, st.network, st.project)}
      case Delete(FloatingIP) => calls == now + {DeleteCall(OfCluster, FloatingIP, st.floatingIP, st.project)}
      case Delete(SshKey) => calls == now + {DeleteCall(OfCluster, SshKey, st.sshKey, st.project)}
      case _ => calls == now
  {
    ReachableInv(s);
  }

  /** Nothing else calls the cloud. */
  lemma OnlyStepsCall(s: Sys, a: Action)
    requires Enabled(s, a) && !a.Step? && !a.CStep?
    ensures Apply(s, a).cloud.calls == s.cloud.calls
  {
  }

  // ---------- what comes of a reply ----------

  /** A pass waits at its gates: it ends there without a call that changes anything until the
      infrastructure is ready and the boot data named. */
  lemma GatesHold(s: Sys, k: Key, r: Reply)
    requires StepEnabled(s, k, r) && s.machines[k].pass.pc.Connect? && r.Done?
    ensures var p, m' := s.machines[k].pass, ApplyStep(s, k, r).machines[k];
      && m'.obj == s.machines[k].obj && m'.hook == s.machines[k].hook && ApplyStep(s, k, r).cloud == s.cloud
      && (!p.infra ==> m'.pass == Idle(WaitingForCluster))
      && (p.infra && !p.bootstrap ==> m'.pass == Idle(Requeued))
      && (p.infra && p.bootstrap && p.mem.status.flavor.Unset? ==> m'.pass == p.(pc := GetFlavor))
  {
  }

  /** What the first look-ups lead to. */
  lemma LookUpDecides(s: Sys, k: Key, r: Reply)
    requires StepEnabled(s, k, r) && s.machines[k].pass.pc.LookupCluster? && !r.Fail?
    ensures var p, m' := s.machines[k].pass, ApplyStep(s, k, r).machines[k];
      && m'.obj == s.machines[k].obj && m'.hook == s.machines[k].hook && ApplyStep(s, k, r).cloud == s.cloud
      && (r.Absent? ==> m'.pass == Idle(Skipped))
      && (r.GotCluster? ==>
            && m'.pass.Run? && m'.pass.infra == r.infra && m'.pass.bootstrap == r.bootstrap
            && (p.del <==> m'.pass.pc.Prepare?) && (!p.del && !p.hook <==> m'.pass.pc.UpdateHook?)
            && (!p.del && p.hook <==> m'.pass.pc.PatchFinalizer? && m'.pass.mem.finalizer))
  {
  }

  /** A create call is made only with a secret that has a value and converts for the recorded IP. */
  lemma SecretDecides(s: Sys, k: Key, r: Reply)
    requires Reachable(s) && StepEnabled(s, k, r) && s.machines[k].pass.pc.GetSecret?
    ensures var m, ip, next := s.machines[k], s.cluster.obj.status.ip, ApplyStep(s, k, r).machines[k].pass;
      if r.GotSecret? && r.text.Some? && m.cfg.boot(r.text.value, ip).Some?
      then next == m.pass.(pc := CreateInstance(m.cfg.boot(r.text.value, ip).value))
      else next == Idle(Failed)
  {
    SeesTheRecordedIP(s, k);
    StepEnds(s, k, r);
    SecretIsTaken(s.machines[k], r);
  }

  lemma SeesTheRecordedIP(s: Sys, k: Key)
    requires Reachable(s) && k in s.machines && s.machines[k].pass.Run? && s.machines[k].pass.pc.GetSecret?
    ensures s.machines[k].pass.clu.ip == s.cluster.obj.status.ip
  {
    ReachableInv(s);
    assert MInv(s.cluster, s.cloud, k, s.machines[k]);
  }

  lemma SecretIsTaken(m: Machine, r: Reply)
    requires m.pass.Run? && m.pass.pc.GetSecret? && Fits(m.pass.pc, r)
    ensures PassNext(m.cfg, m.pass, r) ==
      if r.GotSecret? && r.text.Some? && m.cfg.boot(r.text.value, m.pass.clu.ip).Some?
      then m.pass.(pc := CreateInstance(m.cfg.boot(r.text.value, m.pass.clu.ip).value)) else Idle(Failed)
  {
  }

  lemma StepEnds(s: Sys, k: Key, r: Reply)
    requires StepEnabled(s, k, r)
    ensures k in ApplyStep(s, k, r).machines
    ensures ApplyStep(s, k, r).machines[k].pass == PassNext(s.machines[k].cfg, s.machines[k].pass, r)
  {
  }

  // ---------- how a pass ends ----------

  /** The loop meets an image without a name before it meets a wanted one, or has none to take. */
  predicate Stuck(images: seq<Image>, name: string, found: bool)
  {
    || (exists i :: 0 <= i < |images| && images[i].name.None?
          && forall j :: 0 <= j < i ==> images[j].name != Some(name))
    || (!found && forall i :: 0 <= i < |images| ==> images[i].name != Some(name))
  }

  lemma StuckAhead(images: seq<Image>, name: string, found: bool)
    requires images != [] && images[0].name.Some? && images[0].name.value != name
    ensures Stuck(images, name, found) <==> Stuck(images[1..], name, found)
  {
    if i :| 0 <= i < |images| && images[i].name.None? && forall j :: 0 <= j < i ==> images[j].name != Some(name) {
      assert images[1..][i - 1] == images[i];
      assert forall j :: 0 <= j < i - 1 ==> images[1..][j] == images[j + 1];
    }
    var rest := images[1..];
    if i :| 0 <= i < |rest| && rest[i].name.None? && forall j :: 0 <= j < i ==> rest[j].name != Some(name) {
      assert images[i + 1] == images[1..][i];
      assert forall j :: 0 < j < i + 1 ==> images[j] == images[1..][j - 1];
    }
    assert forall i :: 0 < i < |images| ==> images[i] == images[1..][i - 1];
    assert forall i :: 0 <= i < |images[1..]| ==> images[1..][i] == images[i + 1];
  }

  lemma {:induction false} ScanFailsExactly(cfg: MachineConfig, p: MPass, rest: seq<Image>, found: bool)
    requires p.Run?
    ensures Scan(cfg, p, rest, found) == Idle(Failed) <==> Stuck(rest, p.mem.spec.image, found)
    ensures Scan(cfg, p, rest, found).Idle? ==>
              Scan(cfg, p, rest, found).last == Failed || Scan(cfg, p, rest, found).last == FellThrough
    decreases |rest|
  {
    if rest != [] {
      if rest[0].name.Some? && rest[0].name.value != p.mem.spec.image {
        StuckAhead(rest, p.mem.spec.image, found);
        ScanFailsExactly(cfg, p, rest[1..], found);
      } else {
        assert rest[0].name.None? || rest[0].name == Some(p.mem.spec.image);
      }
    }
  }

  /** A reply that is no error and yet ends the pass with one: a panic, or an error of the code. */
  predicate Useless(cfg: MachineConfig, ip: string, p: MPass, r: Reply)
    requires p.Run?
  {
    match r
    case GotImages(images) => p.pc.ListImages? && Stuck(images, p.mem.spec.image, false)
    case Done => p.pc.PatchImage? && Stuck(p.pc.rest, p.mem.spec.image, true)
    case GotSecret(text) => p.pc.GetSecret? && (text.None? || cfg.boot(text.value, ip).None?)
    case MadeInstance(_, addresses) =>
      p.pc.CreateInstance? && exists i :: 0 <= i < |addresses| && addresses[i].None?
    case Attached(ids) => p.pc.Attach? && ids == []
    case _ => false
  }

  predicate EndsAs(cfg: MachineConfig, ip: string, p: MPass, r: Reply, next: MPass)
    requires p.Run?
  {
    var pc := p.pc;
    && next != Idle(NeverRan)
    && (next == Idle(Failed) <==> r.Fail? || Useless(cfg, ip, p, r))
    && (next == Idle(Skipped) <==> pc.LookupCluster? && r.Absent?)
    && (next == Idle(WaitingForCluster) <==> pc.Connect? && r.Done? && !p.infra)
    && (next == Idle(Requeued) <==>
          (pc.Connect? && r.Done? && p.infra && !p.bootstrap) || (pc.GetInstance? && r == GotState(false)))
    && (next == Idle(MadeReady) <==> pc.PatchReady? && r.Done?)
    && (next == Idle(HookRemoved) <==> pc.RemoveHook? && r.Done?)
    && (next == Idle(FinalizerRemoved) <==> pc.PatchFinalizerOff? && r.Done?)
    && (next == Idle(FellThrough) <==> LastReply(p, r))
  }

  lemma NormalGuards(cfg: MachineConfig, p: MPass)
    requires p.Run?
    ensures GoFlavor(cfg, p).Run?
    ensures GoImage(cfg, p).Run? || GoImage(cfg, p) == Idle(FellThrough)
    ensures GoAttach(cfg, p).Run? || GoAttach(cfg, p) == Idle(FellThrough)
    ensures GoReady(cfg, p).Run? || GoReady(cfg, p) == Idle(FellThrough)
  {
  }

  lemma NormalPassOutcome(c: Cluster, cloud: Cloud, k: Key, m: Machine, r: Reply)
    requires MStored(c, cloud, k, m) && MPassOk(c, cloud, k, m) && m.pass.Run? && Fits(m.pass.pc, r) && !m.pass.del
    ensures EndsAs(m.cfg, m.pass.clu.ip, m.pass, r, PassNext(m.cfg, m.pass, r))
  {
    var p := m.pass;
    PassFallsThrough(c, cloud, k, m, r);
    NormalGuards(m.cfg, p);
    match p.pc
    case ListImages => if r.GotImages? { ScanFailsExactly(m.cfg, p, r.images, false); }
    case PatchImage(rest) => ScanFailsExactly(m.cfg, p, rest, true);
    case _ =>
  }

  lemma DeletePassOutcome(c: Cluster, cloud: Cloud, k: Key, m: Machine, r: Reply)
    requires MStored(c, cloud, k, m) && MPassOk(c, cloud, k, m) && m.pass.Run? && Fits(m.pass.pc, r) && m.pass.del
    requires r.GotOwner? ==> r.hook == m.hook
    ensures EndsAs(m.cfg, m.pass.clu.ip, m.pass, r, PassNext(m.cfg, m.pass, r))
  {
  }

  /** Every outcome of a machine's pass, and exactly the replies that lead to it. */
  lemma OutcomesExactly(s: Sys, k: Key, r: Reply)
    requires Reachable(s) && StepEnabled(s, k, r)
    ensures var m := s.machines[k];
      EndsAs(m.cfg, m.pass.clu.ip, m.pass, r, ApplyStep(s, k, r).machines[k].pass)
  {
    ReachableInv(s);
    var m := s.machines[k];
    assert MInv(s.cluster, s.cloud, k, m);
    if m.pass.del {
      DeletePassOutcome(s.cluster, s.cloud, k, m, r);
    } else {
      NormalPassOutcome(s.cluster, s.cloud, k, m, r);
    }
    StepEnds(s, k, r);
  }

  /** The same for the cluster: it never falls through. */
  lemma ClusterOutcomesExactly(s: Sys, r: Reply)
    requires Reachable(s) && CStepEnabled(s, r)
    ensures var pc, next := s.cluster.pass.pc, CApplyStep(s, r).cluster.pass;
      && (next == CIdle(Failed) <==> r.Fail? || (pc == Create(Network) && r.MadeNetwork? && r.subnets == []))
      && (next == CIdle(Skipped) <==> pc.CLookupOwner? && r.Absent?)
      && (next == CIdle(MadeReady) <==> pc.CPatchReady? && r.Done?)
      && (next == CIdle(FinalizerRemoved) <==> pc.CPatchFinalizerOff? && r.Done?)
      && (next.CIdle? ==>
            next.last == Failed || next.last == Skipped || next.last == MadeReady || next.last == FinalizerRemoved)
  {
    ReachableInv(s);
    ClusterPassOutcome(s.cloud, s.cluster, r);
    assert CApplyStep(s, r).cluster.pass == CPassNext(s.cluster.pass, r);
  }

  lemma ClusterPassOutcome(cloud: Cloud, c: Cluster, r: Reply)
    requires CStored(cloud, c) && CPassOk(cloud, c) && c.pass.CRun? && CFits(c.pass.pc, r)
    ensures var pc, next := c.pass.pc, CPassNext(c.pass, r);
      && (next == CIdle(Failed) <==> r.Fail? || (pc == Create(Network) && r.MadeNetwork? && r.subnets == []))
      && (next == CIdle(Skipped) <==> pc.CLookupOwner? && r.Absent?)
      && (next == CIdle(MadeReady) <==> pc.CPatchReady? && r.Done?)
      && (next == CIdle(FinalizerRemoved) <==> pc.CPatchFinalizerOff? && r.Done?)
      && (next.CIdle? ==>
            next.last == Failed || next.last == Skipped || next.last == MadeReady || next.last == FinalizerRemoved)
  {
  }

  /** The delete passes that end without an error, and only they, are counted as clean. */
  lemma CleanPassesAreCounted(s: Sys, k: Key, r: Reply)
    requires Reachable(s) && StepEnabled(s, k, r)
    ensures var m, m' := s.machines[k], ApplyStep(s, k, r).machines[k];
      m'.cleanDeletes == m.cleanDeletes +
        if m'.pass == Idle(HookRemoved) || m'.pass == Idle(FinalizerRemoved) then 1 else 0
  {
    ReachableInv(s);
    var m := s.machines[k];
    assert MInv(s.cluster, s.cloud, k, m);
    OutcomesExactly(s, k, r);
    DeletesInDeletion(s.cluster, s.cloud, k, m);
    if m.pass.del && ApplyStep(s, k, r).machines[k].pass.Idle? {
      DeletePassEnds(s, k, r);
    }
    MachineAfter(s, k, r);
  }

  lemma DeletesInDeletion(c: Cluster, cloud: Cloud, k: Key, m: Machine)
    requires MPassOk(c, cloud, k, m) && m.pass.Run?
    ensures m.pass.pc.RemoveHook? || m.pass.pc.PatchFinalizerOff? ==> m.pass.del
  {
  }

  // ---------- the branch that is never taken ----------

  /** Were a pass to detach without a hook, it would go on whatever the call reports: it forgets the
      attachment and patches. */
  lemma LateDetachGoesOn(cfg: MachineConfig, p: MPass, r: Reply)
    requires p.Run? && p.pc.LateDetach? && Fits(p.pc, r)
    ensures PassNext(cfg, p, r) ==
              p.(pc := PatchLateDetached, mem := p.mem.(status := p.mem.status.(attachment := Unset)))
  {
  }

  /** And then it would destroy the VM. */
  lemma LateDetachDestroys(cfg: MachineConfig, p: MPass)
    requires p.Run? && p.pc.PatchLateDetached? && p.mem.status.attachment.Unset? && p.mem.status.instance.Uuid?
    ensures PassNext(cfg, p, Done) == p.(pc := Destroy)
  {
  }

  // ---------- what an instance leaves in the store ----------

  /** The create call's reply and the patch after it store the ID and every address, in the order of the
      reply. The provider ID made of the ID is stored too, unless the pass read that very one when it
      began and a user has changed it since. */
  lemma InstanceIsRecorded(s: Sys, k: Key, id: Id, addresses: seq<Option<string>>)
    requires Reachable(s) && StepEnabled(s, k, MadeInstance(id, addresses))
    requires s.machines[k].pass.pc.CreateInstance? && forall i :: 0 <= i < |addresses| ==> addresses[i].Some?
    ensures StepEnabled(ApplyStep(s, k, MadeInstance(id, addresses)), k, Done)
    ensures id.Uuid?
    ensures var m, m' := s.machines[k], ApplyStep(ApplyStep(s, k, MadeInstance(id, addresses)), k, Done).machines[k];
      Holds(m, m'.obj, id, addresses)
  {
    var r := MadeInstance(id, addresses);
    ReachableStep(s, Step(k, r));
    MachineAfter(s, k, r);
    InstanceComesBack(s, k, id, addresses);
    PatchIsStored(ApplyStep(s, k, r), k);
  }

  lemma InstanceComesBack(s: Sys, k: Key, id: Id, addresses: seq<Option<string>>)
    requires Reachable(s) && StepEnabled(s, k, MadeInstance(id, addresses))
    requires s.machines[k].pass.pc.CreateInstance? && forall i :: 0 <= i < |addresses| ==> addresses[i].Some?
    ensures id.Uuid?
    ensures var m, r := s.machines[k], MadeInstance(id, addresses);
      var n := StepMachine(m, PassNext(m.cfg, m.pass, r), r);
      n.pass.Run? && n.pass.pc.PatchInstance? && n.exists_ && Holds(m, Merged(n), id, addresses)
  {
    ReachableInv(s);
    assert MInv(s.cluster, s.cloud, k, s.machines[k]);
    PatchRecords(s.cluster, s.cloud, k, s.machines[k], id, addresses);
  }

  lemma PatchIsStored(t: Sys, k: Key)
    requires Reachable(t) && k in t.machines && t.machines[k].pass.Run? && t.machines[k].pass.pc.PatchInstance?
    requires t.machines[k].exists_
    ensures StepEnabled(t, k, Done) && ApplyStep(t, k, Done).machines[k].obj == Merged(t.machines[k])
  {
    MachineWritesAdmitted(t, k);
    MachineAfter(t, k, Done);
    StoresMerged(t.machines[k]);
  }

  predicate Holds(m: Machine, o: MachineObj, id: Id, addresses: seq<Option<string>>)
    requires m.pass.Run? && id.Uuid?
  {
    var named := Some("wxone://" + id.text);
    && o.status.instance == id && |o.status.addresses| == |addresses|
    && (forall i :: 0 <= i < |addresses| ==> addresses[i] == Some(o.status.addresses[i]))
    && (o.spec.providerID == named <==> m.pass.before.spec.providerID != named || m.obj.spec.providerID == named)
  }

  lemma MachineAfter(s: Sys, k: Key, r: Reply)
    requires StepEnabled(s, k, r)
    ensures k in ApplyStep(s, k, r).machines
    ensures var m := s.machines[k]; ApplyStep(s, k, r).machines[k] == StepMachine(m, PassNext(m.cfg, m.pass, r), r)
  {
  }

  lemma StoresMerged(m: Machine)
    requires m.pass.Run? && IsPatch(m.pass.pc)
    ensures StepMachine(m, PassNext(m.cfg, m.pass, Done), Done).obj == Merged(m)
  {
  }

  lemma PatchRecords(c: Cluster, cloud: Cloud, k: Key, m: Machine, id: Id, addresses: seq<Option<string>>)
    requires MStored(c, cloud, k, m) && MPassOk(c, cloud, k, m) && m.pass.Run? && m.pass.pc.CreateInstance?
    requires id.Uuid? && forall i :: 0 <= i < |addresses| ==> addresses[i].Some?
    ensures var r := MadeInstance(id, addresses);
      var n := StepMachine(m, PassNext(m.cfg, m.pass, r), r);
      n.pass.Run? && n.pass.pc.PatchInstance? && n.exists_ && n.obj.finalizer && Holds(m, Merged(n), id, addresses)
  {
  }
}
