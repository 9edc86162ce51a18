/** Theorems about whole runs, about the passes that end, and about the writes that the API
    server admits. */
module Runs {
  import opened Api
  import opened System
  import opened Invariant
  import opened MachineSteps
  import opened Preservation
  import opened Growth
  import opened Ledger

  lemma ReachableExtends(s: Sys, run: seq<Action>)
    requires Reachable(s) && IsRun(s, run)
    ensures Reachable(Exec(s, run))
  {
    var init, before :| Init(init) && IsRun(init, before) && Exec(init, before) == s;
    ExecAppend(init, before, run);
  }

  /** Some run takes `s` to `t`. */
  ghost predicate Leads(s: Sys, t: Sys)
  {
    exists run :: IsRun(s, run) && Exec(s, run) == t
  }

  lemma LeadsNowhere(s: Sys)
    ensures Leads(s, s)
  {
    assert IsRun(s, []) && Exec(s, []) == s;
  }

  lemma LeadsOn(s: Sys, t: Sys, a: Action)
    requires Reachable(s) && Leads(s, t) && Enabled(t, a)
    ensures Leads(s, Apply(t, a)) && Reachable(t) && Reachable(Apply(t, a))
  {
    var run :| IsRun(s, run) && Exec(s, run) == t;
    assert IsRun(Apply(t, a), [a][1..]) && Exec(Apply(t, a), [a][1..]) == Apply(t, a);
    assert IsRun(t, [a]) && Exec(t, [a]) == Apply(t, a);
    ExecAppend(s, run, [a]);
    ReachableExtends(s, run);
    ReachableExtends(s, run + [a]);
  }

  lemma ReachableStep(s: Sys, a: Action)
    requires Reachable(s) && Enabled(s, a)
    ensures Reachable(Apply(s, a))
  {
    LeadsNowhere(s);
    LeadsOn(s, s, a);
  }

  /** Whatever happens, a recorded ID of a machine is never overwritten before a pass sees its
      deletion, and readiness and the hook are not taken back. */
  lemma MachineIDsAreWriteOnce(s: Sys, run: seq<Action>, k: Key)
    requires Reachable(s) && IsRun(s, run) && k in s.machines
    ensures k in Exec(s, run).machines
    ensures var m, m' := s.machines[k], Exec(s, run).machines[k];
      !m'.deletionSeen ==>
        && Stays(m.obj.status.flavor, m'.obj.status.flavor)
        && Stays(m.obj.status.instance, m'.obj.status.instance)
        && Stays(m.obj.status.attachment, m'.obj.status.attachment)
        && (m.obj.status.ready ==> m'.obj.status.ready) && (m.hook ==> m'.hook)
  {
    ReachableInv(s);
    RunGrowsFrom(s, run);
    assert MGrows(s.machines[k], Exec(s, run).machines[k]);
  }

  /** The same for the cluster; its project stays for good, and so does the address of its
      floating IP. */
  lemma ClusterIDsAreWriteOnce(s: Sys, run: seq<Action>)
    requires Reachable(s) && IsRun(s, run)
    ensures var c, c' := s.cluster, Exec(s, run).cluster;
      && Stays(c.obj.status.project, c'.obj.status.project)
      && (c.obj.status.floatingIP.Uuid? ==> c'.obj.status.ip == c.obj.status.ip)
      && (!c'.deletionSeen ==>
            && Stays(c.obj.status.network, c'.obj.status.network)
            && Stays(c.obj.status.subnet, c'.obj.status.subnet)
            && Stays(c.obj.status.floatingIP, c'.obj.status.floatingIP)
            && Stays(c.obj.status.sshKey, c'.obj.status.sshKey))
  {
    ReachableInv(s);
    assert CSlotOk(s.cloud, s.cluster, FloatingIP);
    RunGrowsFrom(s, run);
  }

  /** Under any interleaving of admitted edits and reconciler patches, specs keep all but the
      provider ID and the control plane endpoint. */
  lemma SpecsAreFrozen(s: Sys, run: seq<Action>)
    requires Reachable(s) && IsRun(s, run)
    ensures var a, b := s.cluster.obj.spec, Exec(s, run).cluster.obj.spec;
      && b.project == a.project && b.zone == a.zone && b.networkName == a.networkName && b.subnets == a.subnets
      && b.sshKey == a.sshKey && b.credentials == a.credentials
    ensures forall k :: k in s.machines ==>
              && k in Exec(s, run).machines
              && Exec(s, run).machines[k].obj.spec.flavor == s.machines[k].obj.spec.flavor
              && Exec(s, run).machines[k].obj.spec.image == s.machines[k].obj.spec.image
  {
    ReachableInv(s);
    RunGrowsFrom(s, run);
    ErasedAlike(s.cluster.obj.spec, Exec(s, run).cluster.obj.spec);
    forall k | k in s.machines
      ensures k in Exec(s, run).machines
      ensures Exec(s, run).machines[k].obj.spec.flavor == s.machines[k].obj.spec.flavor
      ensures Exec(s, run).machines[k].obj.spec.image == s.machines[k].obj.spec.image
    {
      assert MGrows(s.machines[k], Exec(s, run).machines[k]);
      ErasedMachinesAlike(s.machines[k].obj.spec, Exec(s, run).machines[k].obj.spec);
    }
  }

  lemma ErasedAlike(a: ClusterSpec, b: ClusterSpec)
    requires EraseEndpoint(a) == EraseEndpoint(b)
    ensures b == a.(endpoint := b.endpoint)
  {
    assert EraseEndpoint(a).(endpoint := b.endpoint) == a.(endpoint := b.endpoint);
    assert EraseEndpoint(b).(endpoint := b.endpoint) == b;
  }

  lemma ErasedMachinesAlike(a: MachineSpec, b: MachineSpec)
    requires EraseProviderID(a) == EraseProviderID(b)
    ensures b.flavor == a.flavor && b.image == a.image
  {
    assert EraseProviderID(a).flavor == a.flavor && EraseProviderID(b).flavor == b.flavor;
    assert EraseProviderID(a).image == a.image && EraseProviderID(b).image == b.image;
  }

  /** What admission checked once, the project name, holds for good. */
  lemma ProjectStaysDefault(s: Sys)
    requires Reachable(s)
    ensures s.cluster.obj.spec.project == "default"
  {
    var init, run :| Init(init) && IsRun(init, run) && Exec(init, run) == s;
    InitKeeps(init);
    RunGrowsFrom(init, run);
    assert EraseEndpoint(s.cluster.obj.spec).project == s.cluster.obj.spec.project;
    assert EraseEndpoint(init.cluster.obj.spec).project == init.cluster.obj.spec.project;
  }

  /** In deletion nothing is regained: the measure never grows, whatever fails or crashes, and
      a hook that is gone stays gone. */
  lemma DeletionNeverGoesBack(s: Sys, run: seq<Action>, k: Key)
    requires Reachable(s) && IsRun(s, run) && k in s.machines && s.machines[k].deletionSeen
    ensures k in Exec(s, run).machines
    ensures var m, m' := s.machines[k], Exec(s, run).machines[k];
      m'.deletionSeen && (m'.hook ==> m.hook) && Measure(m'.hook, m'.obj) <= Measure(m.hook, m.obj)
  {
    ReachableInv(s);
    RunGrowsFrom(s, run);
    assert MGrows(s.machines[k], Exec(s, run).machines[k]);
  }

  /** The same for the cluster. */
  lemma ClusterDeletionNeverGoesBack(s: Sys, run: seq<Action>)
    requires Reachable(s) && IsRun(s, run) && s.cluster.deletionSeen
    ensures Exec(s, run).cluster.deletionSeen
    ensures CMeasure(Exec(s, run).cluster.obj) <= CMeasure(s.cluster.obj)
  {
    ReachableInv(s);
    RunGrowsFrom(s, run);
  }

  lemma InDeletionStays(s: Sys, run: seq<Action>, o: Owner)
    requires Inv(s) && IsRun(s, run) && InDeletion(s, o)
    ensures InDeletion(Exec(s, run), o)
  {
    RunGrowsFrom(s, run);
    if o.OfMachine? {
      assert MGrows(s.machines[o.key], Exec(s, run).machines[o.key]);
    }
  }

  /** Once a pass saw an object's deletion, nothing is ever made for it again. */
  lemma {:induction false} NothingMadeAfterDeletion(s: Sys, run: seq<Action>, o: Owner, kind: Kind)
    requires Reachable(s) && IsRun(s, run) && InDeletion(s, o)
    ensures Made(Exec(s, run), o, kind) == Made(s, o, kind)
    decreases |run|
  {
    if run != [] {
      var t, one := Apply(s, run[0]), [run[0]];
      assert IsRun(s, one) && Exec(s, one) == t by {
        assert IsRun(t, one[1..]) && Exec(t, one[1..]) == t;
      }
      ReachableInv(s);
      InDeletionStays(s, one, o);
      ReachableExtends(s, one);
      MadeInStep(s, run[0], o, kind);
      NothingMadeAfterDeletion(t, run[1..], o, kind);
    }
  }

  lemma MadeInStep(s: Sys, a: Action, o: Owner, kind: Kind)
    requires Reachable(s) && Enabled(s, a) && InDeletion(s, o)
    ensures Made(Apply(s, a), o, kind) == Made(s, o, kind)
  {
    var t := Apply(s, a);
    forall id | id in Made(t, o, kind) ensures id in Made(s, o, kind) {
      if id !in s.cloud.res {
        NoCreateInDeletion(s, a, id);
      } else {
        TagsStay(s, a, id);
      }
    }
    forall id | id in Made(s, o, kind) ensures id in Made(t, o, kind) {
      TagsStay(s, a, id);
    }
  }

  /** What a resource is and whose it is never changes. */
  lemma TagsStay(s: Sys, a: Action, id: Id)
    requires Reachable(s) && Enabled(s, a) && id in s.cloud.res
    ensures var r := s.cloud.res[id]; MadeAs(Apply(s, a).cloud, id, r.kind, r.project, r.owner)
  {
    ReachableInv(s);
    if a.Step? {
      StepKeepsTags(s, a.key, a.r, id);
    } else if a.Crash? {
      CrashOnlyOf(s, a.key);
    } else if a.CStep? {
      CStepKeepsTags(s, a.r, id);
    } else if a.CCrash? {
      CCrashOnlyOf(s);
    }
  }

  lemma StepKeepsTags(s: Sys, k: Key, r: Reply, id: Id)
    requires Inv(s) && StepEnabled(s, k, r) && id in s.cloud.res
    ensures var q := s.cloud.res[id]; MadeAs(ApplyStep(s, k, r).cloud, id, q.kind, q.project, q.owner)
  {
    var t := ApplyStep(s, k, r);
    StepOwnResources(s.cluster, s.infraReady, s.cloud, k, s.machines[k], r, t.machines[k], t.cloud);
  }

  lemma CStepKeepsTags(s: Sys, r: Reply, id: Id)
    requires Inv(s) && CStepEnabled(s, r) && id in s.cloud.res
    ensures var q := s.cloud.res[id]; MadeAs(CApplyStep(s, r).cloud, id, q.kind, q.project, q.owner)
  {
    var t := CApplyStep(s, r);
    ClusterStepMoves(s, r);
    CStepOnlyOf(s.cloud, s.cluster, r, t.cluster, t.cloud);
  }

  // ---------- delete passes ----------

  /** How a delete pass ends. */
  lemma DeletePassLast(c: Cluster, cloud: Cloud, k: Key, m: Machine, r: Reply)
    requires MPassOk(c, cloud, k, m) && m.pass.Run? && m.pass.del && Fits(m.pass.pc, r)
    requires m.obj.status.attachment.Uuid? ==> m.hook && m.cfg.controlPlane
    requires r.GotOwner? ==> r.hook == m.hook
    requires PassNext(m.cfg, m.pass, r).Idle?
    ensures var out := PassNext(m.cfg, m.pass, r).last;
      || out == Failed || out == Skipped
      || (out == HookRemoved && m.pass.pc.RemoveHook? && r.Done?)
      || (out == FinalizerRemoved && m.pass.pc.PatchFinalizerOff? && r.Done?)
  {
  }

  lemma FinalizerPatchReleases(c: Cluster, cloud: Cloud, k: Key, m: Machine)
    requires MPassOk(c, cloud, k, m) && m.pass.Run? && m.pass.del && m.pass.pc.PatchFinalizerOff?
    requires m.obj.status.attachment.Uuid? ==> m.hook
    ensures Measure(m.hook, Merged(m)) == 0
  {
  }

  /** A delete pass of a machine that ends without an error has brought the measure down from
      what it was when the pass began, unless there was nothing left to bring down. */
  lemma CleanDeletePassShrinks(s: Sys, k: Key, r: Reply)
    requires Reachable(s) && StepEnabled(s, k, r)
    requires ApplyStep(s, k, r).machines[k].cleanDeletes > s.machines[k].cleanDeletes
    ensures var p, m' := s.machines[k].pass, ApplyStep(s, k, r).machines[k];
      || Measure(m'.hook, m'.obj) < Measure(p.hook, p.before)
      || Measure(p.hook, p.before) == 0
  {
    ReachableInv(s);
    var m := s.machines[k];
    DeletePassLast(s.cluster, s.cloud, k, m, r);
    if m.pass.pc.PatchFinalizerOff? {
      FinalizerPatchReleases(s.cluster, s.cloud, k, m);
    }
  }

  /** After one delete pass that ended without an error the hook and the attachment are gone,
      after two the instance and the finalizer. */
  lemma DeletionBound(s: Sys, k: Key)
    requires Reachable(s) && k in s.machines
    ensures var m := s.machines[k];
      && (m.cleanDeletes >= 1 ==> !m.hook && m.obj.status.attachment.Unset?)
      && (m.cleanDeletes >= 2 ==> !m.obj.finalizer && m.obj.status.instance.Unset?)
  {
    ReachableInv(s);
    assert MInv(s.cluster, s.cloud, k, s.machines[k]);
  }

  /** For the cluster one such pass is enough. */
  lemma ClusterDeletionBound(s: Sys)
    requires Reachable(s) && s.cluster.cleanDeletes >= 1
    ensures !s.cluster.obj.finalizer && s.cluster.obj.status.subnet.Unset?
    ensures s.cluster.obj.status.floatingIP.Unset? && s.cluster.obj.status.sshKey.Unset?
  {
    ReachableInv(s);
    assert CSlotOk(s.cloud, s.cluster, Network) && CSlotOk(s.cloud, s.cluster, FloatingIP)
      && CSlotOk(s.cloud, s.cluster, SshKey);
  }

  /** The requeue at the end of reconcileDelete is dead code: a delete pass that ends without an
      error has removed the hook or the finalizer. */
  lemma DeletePassEnds(s: Sys, k: Key, r: Reply)
    requires Reachable(s) && StepEnabled(s, k, r) && s.machines[k].pass.del
    requires ApplyStep(s, k, r).machines[k].pass.Idle?
    ensures var out := ApplyStep(s, k, r).machines[k].pass.last;
      && (out == Failed || out == Skipped || out == HookRemoved || out == FinalizerRemoved)
      && (out == HookRemoved ==> !ApplyStep(s, k, r).machines[k].hook)
      && (out == FinalizerRemoved ==> !ApplyStep(s, k, r).machines[k].obj.finalizer)
  {
    ReachableInv(s);
    DeleteStepEnds(s.cluster, s.cloud, k, s.machines[k], r);
  }

  lemma DeleteStepEnds(c: Cluster, cloud: Cloud, k: Key, m: Machine, r: Reply)
    requires MStored(c, cloud, k, m) && MPassOk(c, cloud, k, m) && m.pass.Run? && m.pass.del
    requires Fits(m.pass.pc, r) && (r.GotOwner? ==> r.hook == m.hook) && PassNext(m.cfg, m.pass, r).Idle?
    ensures var m' := StepMachine(m, PassNext(m.cfg, m.pass, r), r);
      var out := m'.pass.last;
      && (out == Failed || out == Skipped || out == HookRemoved || out == FinalizerRemoved)
      && (out == HookRemoved ==> !m'.hook)
      && (out == FinalizerRemoved ==> !m'.obj.finalizer)
  {
    DeletePassLast(c, cloud, k, m, r);
    if m.pass.pc.PatchFinalizerOff? {
      FinalizerPatchReleases(c, cloud, k, m);
    }
  }

  // ---------- normal passes ----------

  /** Which guards can end a pass, and where they leave it. */
  lemma GoEnds(cfg: MachineConfig, p: MPass)
    requires p.Run?
    ensures GoFlavor(cfg, p).Run?
    ensures GoImage(cfg, p).Idle? ==>
              && GoImage(cfg, p) == Idle(FellThrough)
              && p.mem.status.instance.Unset? && p.mem.status.flavor.Unset?
    ensures GoInstance(cfg, p).Idle? ==>
              && GoInstance(cfg, p) == Idle(FellThrough)
              && p.mem.status.instance.Unset? && (p.mem.status.image.Unset? || p.mem.status.flavor.Unset?)
    ensures GoAttach(cfg, p).Idle? ==> p.mem.status.instance.Unset?
    ensures GoReady(cfg, p).Idle? ==> p.mem.status.instance.Unset? || p.mem.status.attachment.Unset?
  {
  }

  /** How a normal pass ends. */
  lemma NormalPassLast(cfg: MachineConfig, p: MPass, r: Reply)
    requires p.Run? && !p.del && Fits(p.pc, r) && !DeletePc(p.pc) && PassNext(cfg, p, r).Idle?
    requires p.pc.PatchInstance? || p.pc.PatchAttachment? ==> p.mem.status.instance.Uuid?
    requires p.pc.PatchAttachment? ==> p.mem.status.attachment.Uuid?
    ensures var out := PassNext(cfg, p, r).last;
      || out == Failed || out == Skipped || out == Requeued
      || (out == WaitingForCluster && !p.infra)
      || (out == MadeReady && p.pc.PatchReady? && r.Done?)
      || (out == FellThrough && (p.pc.PatchFlavor? || p.pc.PatchImage?) && r.Done?
          && p.mem.status.instance.Unset? && (p.mem.status.image.Unset? || p.mem.status.flavor.Unset?))
  {
    GoEnds(cfg, p);
    if p.pc.ListImages? && r.GotImages? {
      ScanStops(cfg, p, r.images, false);
    } else if p.pc.PatchImage? {
      ScanStops(cfg, p, p.pc.rest, true);
    }
  }

  /** What the last patch of a pass leaves in the store. */
  lemma LastPatchStores(c: Cluster, cloud: Cloud, k: Key, m: Machine)
    requires MPassOk(c, cloud, k, m) && m.pass.Run? && !m.pass.del
    ensures m.pass.pc.PatchReady? ==> Merged(m).status.ready
    ensures (m.pass.pc.PatchFlavor? || m.pass.pc.PatchImage?) && m.pass.mem.status.instance.Unset? ==>
              Merged(m).status.instance.Unset?
  {
  }

  lemma NormalStepEnds(c: Cluster, cloud: Cloud, k: Key, m: Machine, r: Reply)
    requires MPassOk(c, cloud, k, m) && m.pass.Run? && !m.pass.del && Fits(m.pass.pc, r)
    requires PassNext(m.cfg, m.pass, r).Idle?
    ensures var p, m' := m.pass, StepMachine(m, PassNext(m.cfg, m.pass, r), r);
      && (m'.pass.last == Failed || m'.pass.last == Skipped || m'.pass.last == WaitingForCluster
          || m'.pass.last == Requeued || m'.pass.last == MadeReady || m'.pass.last == FellThrough)
      && (m'.pass.last == MadeReady ==> m'.obj.status.ready)
      && (m'.pass.last == WaitingForCluster ==> !p.infra)
      && (m'.pass.last == FellThrough ==>
            && (p.pc.PatchFlavor? || p.pc.PatchImage?)
            && m'.obj.status.instance.Unset?
            && (p.mem.status.flavor.Unset? || p.mem.status.image.Unset?))
  {
    NormalPassLast(m.cfg, m.pass, r);
    LastPatchStores(c, cloud, k, m);
  }

  /** A normal pass that ends without an error is ready, waits for the cluster, asks for a
      requeue, was skipped, or fell through; it falls through only right after selecting a
      flavor or an image, never with both IDs set, and never with an instance recorded. */
  lemma NormalPassEnds(s: Sys, k: Key, r: Reply)
    requires Reachable(s) && StepEnabled(s, k, r) && !s.machines[k].pass.del
    requires ApplyStep(s, k, r).machines[k].pass.Idle?
    ensures var p, m' := s.machines[k].pass, ApplyStep(s, k, r).machines[k];
      && (m'.pass.last == Failed || m'.pass.last == Skipped || m'.pass.last == WaitingForCluster
          || m'.pass.last == Requeued || m'.pass.last == MadeReady || m'.pass.last == FellThrough)
      && (m'.pass.last == MadeReady ==> m'.obj.status.ready)
      && (m'.pass.last == WaitingForCluster ==> !p.infra)
      && (m'.pass.last == FellThrough ==>
            && (p.pc.PatchFlavor? || p.pc.PatchImage?)
            && m'.obj.status.instance.Unset?
            && (p.mem.status.flavor.Unset? || p.mem.status.image.Unset?))
  {
    ReachableInv(s);
    var m := s.machines[k];
    assert MInv(s.cluster, s.cloud, k, m);
    assert ApplyStep(s, k, r).machines[k] == StepMachine(m, PassNext(m.cfg, m.pass, r), r);
    NormalStepEnds(s.cluster, s.cloud, k, m, r);
  }

  /** No image in `rest` is left to take, and none ends the pass. */
  predicate NoneLeft(rest: seq<Image>, name: string)
  { forall i :: 0 <= i < |rest| ==> rest[i].name.Some? && rest[i].name.value != name }

  lemma {:induction false} ScanFallsThrough(cfg: MachineConfig, p: MPass, rest: seq<Image>, found: bool)
    requires p.Run?
    ensures Scan(cfg, p, rest, found) == Idle(FellThrough) <==>
              found && NoneLeft(rest, p.mem.spec.image) && GoInstance(cfg, p) == Idle(FellThrough)
    decreases |rest|
  {
    if rest != [] {
      ScanFallsThrough(cfg, p, rest[1..], found);
      assert rest == [rest[0]] + rest[1..];
    }
  }

  /** The replies with which a pass falls through. */
  predicate LastReply(p: MPass, r: Reply)
    requires p.Run?
  {
    var pc, st := p.pc, p.mem.status;
    && r.Done? && st.instance.Unset?
    && ((pc.PatchFlavor? && st.image.Uuid? && st.flavor.Unset?)
        || (pc.PatchImage? && NoneLeft(pc.rest, p.mem.spec.image) && (st.image.Unset? || st.flavor.Unset?)))
  }

  lemma PassFallsThrough(c: Cluster, cloud: Cloud, k: Key, m: Machine, r: Reply)
    requires MStored(c, cloud, k, m) && MPassOk(c, cloud, k, m) && m.pass.Run? && Fits(m.pass.pc, r)
    requires r.GotOwner? ==> r.hook == m.hook
    ensures PassNext(m.cfg, m.pass, r) == Idle(FellThrough) <==> LastReply(m.pass, r)
  {
    var p := m.pass;
    if PassNext(m.cfg, p, r) == Idle(FellThrough) {
      if p.del {
        DeletePassLast(c, cloud, k, m, r);
      } else {
        NormalPassLast(m.cfg, p, r);
      }
    }
    if p.pc.PatchImage? {
      ScanFallsThrough(m.cfg, p, p.pc.rest, true);
    }
  }

  /** A pass falls through to a return that is neither ready nor requeued exactly at these replies:
      without an instance, an empty flavor ID is stored next to a recorded image, or the last
      image of the wanted name is stored and the flavor ID or the image's is empty. */
  lemma FallThroughExactly(s: Sys, k: Key, r: Reply)
    requires Reachable(s) && StepEnabled(s, k, r)
    ensures var pc, st := s.machines[k].pass.pc, s.machines[k].pass.mem.status;
      ApplyStep(s, k, r).machines[k].pass == Idle(FellThrough) <==>
        && r.Done? && st.instance.Unset?
        && ((pc.PatchFlavor? && st.image.Uuid? && st.flavor.Unset?)
            || (pc.PatchImage? && NoneLeft(pc.rest, s.machines[k].pass.mem.spec.image)
                && (st.image.Unset? || st.flavor.Unset?)))
  {
    ReachableInv(s);
    var m := s.machines[k];
    assert MInv(s.cluster, s.cloud, k, m);
    PassFallsThrough(s.cluster, s.cloud, k, m, r);
    assert ApplyStep(s, k, r).machines[k].pass == PassNext(m.cfg, m.pass, r);
  }

  /** It does fall through: an empty flavor ID for a machine whose image is recorded leaves it
      without an instance, and nothing asks for another pass. */
  lemma EmptyFlavorStrands(s: Sys, k: Key)
    requires Reachable(s) && k in s.machines && s.machines[k].pass.Run? && s.machines[k].pass.pc.GetFlavor?
    requires s.machines[k].obj.status.instance.Unset? && s.machines[k].pass.mem.status.image.Uuid?
    ensures StepEnabled(s, k, GotId(Unset)) && StepEnabled(ApplyStep(s, k, GotId(Unset)), k, Done)
    ensures var t := ApplyStep(ApplyStep(s, k, GotId(Unset)), k, Done);
      && t.machines[k].pass == Idle(FellThrough) && t.machines[k].obj.status.instance.Unset?
      && !t.machines[k].obj.status.ready
  {
    ReachableInv(s);
    ReadyForFlavor(s.cluster, s.cloud, k, s.machines[k]);
    FallsThrough(ApplyStep(s, k, GotId(Unset)), k);
  }

  lemma FallsThrough(t: Sys, k: Key)
    requires k in t.machines && t.machines[k].pass.Run? && t.machines[k].pass.pc.PatchFlavor?
    requires var m := t.machines[k];
      && m.exists_ && m.obj.finalizer && !m.obj.status.ready && m.obj.status.instance.Unset? && !m.pass.del
      && SpecCarried(m.pass.mem.spec, m.obj.spec) && SpecCarried(m.pass.before.spec, m.obj.spec)
      && m.pass.mem.status.flavor.Unset? && m.pass.mem.status.image.Uuid?
      && m.pass.mem.status.instance.Unset? && !m.pass.mem.status.ready
    ensures StepEnabled(t, k, Done)
    ensures var m' := ApplyStep(t, k, Done).machines[k];
      m'.pass == Idle(FellThrough) && m'.obj.status.instance.Unset? && !m'.obj.status.ready
  {
    PatchKeepsSpec(t.machines[k]);
  }

  lemma ReadyForFlavor(c: Cluster, cloud: Cloud, k: Key, m: Machine)
    requires MStored(c, cloud, k, m) && MPassOk(c, cloud, k, m) && m.pass.Run? && m.pass.pc.GetFlavor?
    requires m.obj.status.instance.Unset?
    ensures m.exists_ && !m.pass.del && m.pass.mem.status.instance.Unset? && !m.obj.status.ready
    ensures !m.deletionSeen && m.pass.mem.status.ready == m.obj.status.ready && m.obj.finalizer
    ensures m.pass.before.status.instance.Unset?
    ensures SpecCarried(m.pass.mem.spec, m.obj.spec) && SpecCarried(m.pass.before.spec, m.obj.spec)
    ensures m.pass.before.status.ready == m.obj.status.ready
  {
  }

  /** A normal pass of the cluster that ends without an error leaves it ready and complete, unless
      its owner is not set yet. */
  lemma ClusterPassEnds(s: Sys, r: Reply)
    requires Reachable(s) && CStepEnabled(s, r) && !CDeletes(s.cluster.pass.pc)
    requires CApplyStep(s, r).cluster.pass.CIdle?
    ensures var c' := CApplyStep(s, r).cluster;
      && (c'.pass.last == Failed || c'.pass.last == MadeReady
          || (c'.pass.last == Skipped && s.cluster.pass.pc.CLookupOwner? && r.Absent?))
      && (c'.pass.last == MadeReady ==>
            c'.obj.status.ready && Complete(c'.obj) && s.cluster.pass.pc == CPatchReady)
  {
    ReachableInv(s);
  }

  /** The pass that makes the cluster ready puts the endpoint back to the recorded IP exactly
      when, of host and port each, it read another value or the stored one is right: a merge
      patch does not send a leaf that the pass itself did not change. */
  lemma EndpointRestoredExactly(s: Sys, r: Reply)
    requires Reachable(s) && CStepEnabled(s, r) && s.cluster.pass.pc == CPatchReady && r.Done?
    ensures var p, c' := s.cluster.pass, CApplyStep(s, r).cluster;
      var want := Endpoint(c'.obj.status.ip, 6443);
      c'.obj.spec.endpoint == want <==>
        && (p.before.spec.endpoint.host != want.host || s.cluster.obj.spec.endpoint.host == want.host)
        && (p.before.spec.endpoint.port != want.port || s.cluster.obj.spec.endpoint.port == want.port)
  {
    ReachableInv(s);
  }

  /** An endpoint may be restored by half: the pass found another host but the right port, and the
      port was edited while it was under way. */
  lemma EndpointHalfRestored(s: Sys, r: Reply)
    requires Reachable(s) && CStepEnabled(s, r) && s.cluster.pass.pc == CPatchReady && r.Done?
    requires s.cluster.pass.before.spec.endpoint == Endpoint("old", 6443)
    requires s.cluster.obj.spec.endpoint == Endpoint("old", 1)
    requires s.cluster.obj.status.ip != "old"
    ensures CApplyStep(s, r).cluster.obj.spec.endpoint == Endpoint(s.cluster.obj.status.ip, 1)
    ensures CApplyStep(s, r).cluster.pass == CIdle(MadeReady)
  {
    ReachableInv(s);
  }

  // ---------- writes ----------

  /** Each patch of the machine reconciler passes the webhook: the API server refuses one only
      if the object is gone, or if it would give a finalizer to an object in deletion. */
  lemma MachineWritesAdmitted(s: Sys, k: Key)
    requires Reachable(s) && k in s.machines && s.machines[k].pass.Run? && IsPatch(s.machines[k].pass.pc)
    ensures var m := s.machines[k];
      && MachineUpdateAdmitted(m.obj.spec, Merged(m).spec)
      && (PatchAllowed(m) <==>
            m.exists_ && !(m.deleting && !m.obj.finalizer && m.pass.pc.PatchFinalizer?))
  {
    ReachableInv(s);
    assert MInv(s.cluster, s.cloud, k, s.machines[k]);
  }

  lemma ClusterWritesAdmitted(s: Sys)
    requires Reachable(s) && s.cluster.pass.CRun? && CIsPatch(s.cluster.pass.pc)
    ensures var c := s.cluster;
      && ClusterUpdateAdmitted(c.obj.spec, CMerged(c).spec)
      && (CPatchAllowed(c) <==>
            c.exists_ && !(c.deleting && !c.obj.finalizer && c.pass.pc.CPatchFinalizer?))
  {
    ReachableInv(s);
  }
}
