/** A patch goes out in two halves, metadata with spec and status, and one may fail alone. What that
    leaves is what a whole or a failed patch leaves and an admitted edit of a provider ID or an
    endpoint after it, so every theorem about reachable states covers it. */
module TornPatches {
  import opened Api
  import opened System
  import opened Invariant
  import opened Preservation
  import opened Runs

  /** What is stored when the pending patch was applied by half. */
  function Half(m: Machine, status: bool): MachineObj
    requires m.pass.Run?
  {
    if status then m.obj.(status := Merged(m).status) else Merged(m).(status := m.obj.status)
  }

  /** What is stored of a machine then: what the patch was to record is recorded with the status. */
  function TornStore(m: Machine, status: bool): Machine
    requires m.pass.Run?
  {
    m.(obj := Half(m, status),
       first := if m.pass.pc.PatchInstance? && status then m.pass.mem.status.instance else m.first)
  }

  /** An error is reported, or the process died between the halves. */
  function TornMachine(m: Machine, status: bool): Machine
    requires m.pass.Run?
  { Count(TornStore(m, status), Idle(Failed)) }

  function TornCloud(cloud: Cloud, p: MPass, status: bool): Cloud
    requires p.Run?
  {
    var i := p.mem.status.instance;
    cloud.(
      res := if !p.pc.PatchInstance? then cloud.res
             else if status then KeepId(cloud.res, i) else LoseId(cloud.res, i),
      lostRoutes := if !p.pc.PatchAttachment? then cloud.lostRoutes
                    else if status then cloud.lostRoutes - {i} else cloud.lostRoutes + {i})
  }

  function Torn(s: Sys, k: Key, status: bool): Sys
    requires k in s.machines && s.machines[k].pass.Run?
  {
    var m := s.machines[k];
    s.(machines := s.machines[k := TornMachine(m, status)], cloud := TornCloud(s.cloud, m.pass, status))
  }

  /** The same for the cluster. */
  function CHalf(c: Cluster, status: bool): ClusterObj
    requires c.pass.CRun?
  {
    if status then c.obj.(status := CMerged(c).status) else CMerged(c).(status := c.obj.status)
  }

  function CTorn(s: Sys, status: bool): Sys
    requires s.cluster.pass.CRun?
  {
    var c := s.cluster; var p := c.pass;
    var id := if p.pc.Record? then Slot(p.mem.status, p.pc.kind) else Unset;
    s.(cluster := CCount(
         c.(obj := CHalf(c, status),
            first := if p.pc.Record? && status then SetFirst(c.first, p.pc.kind, id) else c.first), CIdle(Failed)),
       cloud := s.cloud.(
         res := if !p.pc.Record? then s.cloud.res
                else if status then KeepId(s.cloud.res, id) else LoseId(s.cloud.res, id)))
  }

  // ---------- what a pass has not touched ----------

  /** Before the gates only the finalizer was touched, a deleting pass leaves the spec and the
      addresses alone, and a creating one the spec unless it has just made the instance. */
  predicate Untouched(p: MPass)
  {
    p.Run? ==>
      && (BeforeGate(p.pc) ==> p.mem == p.before.(finalizer := p.mem.finalizer))
      && (p.del ==> p.mem.status.addresses == p.before.status.addresses)
      && (p.mem.spec != p.before.spec ==>
            !p.del && p.before.status.instance.Unset? && p.mem.status.instance.Uuid?)
  }

  predicate CUntouched(p: CPass)
  {
    p.CRun? && (p.pc.CLookupOwner? || p.pc.CPatchFinalizer? || p.pc.CConnect?) ==>
      p.mem == p.before.(finalizer := p.mem.finalizer)
  }

  lemma GuardsTouchNothing(cfg: MachineConfig, p: MPass)
    requires Untouched(p) && p.Run?
    ensures Untouched(GoImage(cfg, p)) && Untouched(GoInstance(cfg, p))
    ensures Untouched(GoAttach(cfg, p)) && Untouched(GoReady(cfg, p))
  {
  }

  lemma DeleteGuardsTouchNothing(cfg: MachineConfig, p: MPass)
    requires Untouched(p) && p.Run? && p.del
    ensures Untouched(GoHook(cfg, p)) && Untouched(GoDestroy(cfg, p)) && Untouched(GoFinalizerOff(p))
  {
  }

  lemma {:induction false} ScanTouchesNothing(cfg: MachineConfig, p: MPass, rest: seq<Image>, found: bool)
    requires Untouched(p) && p.Run? && !BeforeGate(p.pc)
    ensures Untouched(Scan(cfg, p, rest, found))
    decreases |rest|
  {
    if rest == [] {
      GuardsTouchNothing(cfg, p);
    } else if rest[0].name.Some? && rest[0].name.value != p.mem.spec.image {
      ScanTouchesNothing(cfg, p, rest[1..], found);
    }
  }

  /** What the above needs to know of the pending call. */
  predicate Placed(p: MPass, r: Reply)
    requires p.Run?
  {
    && Fits(p.pc, r) && (!p.pc.LookupCluster? ==> (p.del <==> DeletePc(p.pc)))
    && (p.pc.CreateInstance? ==> p.before.status.instance.Unset? && (r.MadeInstance? ==> r.id.Uuid?))
  }

  lemma NormalPassTouchesLittle(cfg: MachineConfig, p: MPass, r: Reply)
    requires p.Run? && Placed(p, r) && Untouched(p) && !p.del
    ensures Untouched(PassNext(cfg, p, r))
  {
    GuardsTouchNothing(cfg, p);
    if p.pc.ListImages? && r.GotImages? {
      ScanTouchesNothing(cfg, p, r.images, false);
    } else if p.pc.PatchImage? {
      ScanTouchesNothing(cfg, p, p.pc.rest, true);
    }
  }

  lemma DeletePassTouchesLittle(cfg: MachineConfig, p: MPass, r: Reply)
    requires p.Run? && Placed(p, r) && Untouched(p) && p.del
    ensures Untouched(PassNext(cfg, p, r))
  {
    match p.pc
    case Prepare =>
      if r.GotOwner? {
        DeleteGuardsTouchNothing(cfg, p.(hook := r.hook));
      }
    case PatchLateDetached => DeleteGuardsTouchNothing(cfg, p);
    case PatchDestroyed => DeleteGuardsTouchNothing(cfg, p);
    case _ =>
  }

  lemma PendingIsPlaced(c: Cluster, infraReady: bool, cloud: Cloud, k: Key, m: Machine, r: Reply)
    requires MPassOk(c, cloud, k, m) && m.pass.Run? && MayReply(c, infraReady, cloud, m, r)
    ensures Placed(m.pass, r)
  {
  }

  lemma StepPass(s: Sys, k: Key, r: Reply)
    requires StepEnabled(s, k, r)
    ensures ApplyStep(s, k, r).machines.Keys == s.machines.Keys
    ensures ApplyStep(s, k, r).machines[k].pass == PassNext(s.machines[k].cfg, s.machines[k].pass, r)
    ensures forall j :: j in s.machines && j != k ==> ApplyStep(s, k, r).machines[j] == s.machines[j]
    ensures ApplyStep(s, k, r).cluster == s.cluster
  {
  }

  ghost predicate AllUntouched(s: Sys)
  { CUntouched(s.cluster.pass) && forall k :: k in s.machines ==> Untouched(s.machines[k].pass) }

  lemma StepOfPassTouchesLittle(c: Cluster, infraReady: bool, cloud: Cloud, k: Key, m: Machine, r: Reply)
    requires MPassOk(c, cloud, k, m) && m.pass.Run? && MayReply(c, infraReady, cloud, m, r) && Untouched(m.pass)
    ensures Untouched(PassNext(m.cfg, m.pass, r))
  {
    PendingIsPlaced(c, infraReady, cloud, k, m, r);
    if m.pass.del {
      DeletePassTouchesLittle(m.cfg, m.pass, r);
    } else {
      NormalPassTouchesLittle(m.cfg, m.pass, r);
    }
  }

  lemma StepTouchesLittle(s: Sys, k: Key, r: Reply)
    requires Inv(s) && StepEnabled(s, k, r) && AllUntouched(s)
    ensures AllUntouched(ApplyStep(s, k, r))
  {
    assert MInv(s.cluster, s.cloud, k, s.machines[k]);
    StepOfPassTouchesLittle(s.cluster, s.infraReady, s.cloud, k, s.machines[k], r);
    StepPass(s, k, r);
  }

  lemma CPassTouchesLittle(p: CPass, r: Reply)
    requires p.CRun? && CFits(p.pc, r) && CUntouched(p)
    ensures CUntouched(CPassNext(p, r))
  {
  }

  lemma CStepTouchesLittle(s: Sys, r: Reply)
    requires CStepEnabled(s, r) && AllUntouched(s)
    ensures AllUntouched(CApplyStep(s, r))
  {
    CPassTouchesLittle(s.cluster.pass, r);
    assert CApplyStep(s, r).cluster.pass == CPassNext(s.cluster.pass, r);
    assert CApplyStep(s, r).machines == s.machines;
  }

  lemma OthersTouchNothing(s: Sys, a: Action)
    requires Enabled(s, a) && !a.Step? && !a.CStep? && AllUntouched(s)
    ensures AllUntouched(Apply(s, a))
  {
  }

  lemma {:induction false} RunsTouchLittle(s: Sys, run: seq<Action>)
    requires Inv(s) && AllUntouched(s) && IsRun(s, run)
    ensures AllUntouched(Exec(s, run))
    decreases |run|
  {
    if run != [] {
      var a := run[0];
      if a.Step? {
        StepTouchesLittle(s, a.key, a.r);
      } else if a.CStep? {
        CStepTouchesLittle(s, a.r);
      } else {
        OthersTouchNothing(s, a);
      }
      ApplyKeeps(s, a);
      RunsTouchLittle(Apply(s, a), run[1..]);
    }
  }

  lemma ReachableUntouched(s: Sys)
    requires Reachable(s)
    ensures AllUntouched(s)
  {
    var init, run :| Init(init) && IsRun(init, run) && Exec(init, run) == s;
    InitKeeps(init);
    RunsTouchLittle(init, run);
  }

  // ---------- the halves ----------

  predicate MovesFinalizer(pc: MPc)
  { pc.PatchFinalizer? || pc.PatchFinalizerOff? }

  predicate CMovesFinalizer(pc: CPc)
  { pc.CPatchFinalizer? || pc.CPatchFinalizerOff? }

  /** Only finalizer patches send metadata that is not stored yet, and they send nothing else. */
  predicate Halves(m: Machine)
    requires m.pass.Run?
  {
    if MovesFinalizer(m.pass.pc) then Merged(m) == m.obj.(finalizer := Merged(m).finalizer)
    else Merged(m).finalizer == m.obj.finalizer
  }

  predicate CHalves(c: Cluster)
    requires c.pass.CRun?
  {
    if CMovesFinalizer(c.pass.pc) then CMerged(c) == c.obj.(finalizer := CMerged(c).finalizer)
    else CMerged(c).finalizer == c.obj.finalizer
  }

  lemma HalvesOf(c: Cluster, cloud: Cloud, k: Key, m: Machine)
    requires MStored(c, cloud, k, m) && MPassOk(c, cloud, k, m) && m.pass.Run? && IsPatch(m.pass.pc)
    requires Untouched(m.pass)
    ensures Halves(m)
  {
  }

  lemma CHalvesOf(cloud: Cloud, c: Cluster)
    requires CStored(cloud, c) && CPassOk(cloud, c) && c.pass.CRun? && CIsPatch(c.pass.pc) && CUntouched(c.pass)
    ensures CHalves(c)
  {
  }

  lemma PatchHalves(s: Sys, k: Key)
    requires Reachable(s) && k in s.machines && s.machines[k].pass.Run? && IsPatch(s.machines[k].pass.pc)
    ensures Halves(s.machines[k])
  {
    ReachableInv(s);
    assert MInv(s.cluster, s.cloud, k, s.machines[k]);
    ReachableUntouched(s);
    HalvesOf(s.cluster, s.cloud, k, s.machines[k]);
  }

  lemma CPatchHalves(s: Sys)
    requires Reachable(s) && s.cluster.pass.CRun? && CIsPatch(s.cluster.pass.pc)
    ensures CHalves(s.cluster)
  {
    ReachableInv(s);
    ReachableUntouched(s);
    CHalvesOf(s.cloud, s.cluster);
  }

  // ---------- a torn patch ----------

  /** The reply of a whole or a failed patch that has the same effect, but for the spec. */
  function LikeReply(movesFinalizer: bool, status: bool): Reply
  { Fail(status != movesFinalizer, Unset) }

  lemma LikePatchEnabled(s: Sys, k: Key, status: bool)
    requires Reachable(s) && k in s.machines && s.machines[k].pass.Run? && IsPatch(s.machines[k].pass.pc)
    requires if status then s.machines[k].exists_ else PatchAllowed(s.machines[k])
    ensures StepEnabled(s, k, LikeReply(MovesFinalizer(s.machines[k].pass.pc), status))
  {
    MachineWritesAdmitted(s, k);
  }

  /** The spec before it is put back. */
  function SpecThere(m: Machine, status: bool): MachineSpec
    requires m.pass.Run?
  { if status then Merged(m).spec else m.obj.spec }

  lemma LikeObject(g: MachineObj, o: MachineObj, movesFinalizer: bool, status: bool)
    requires if movesFinalizer then g == o.(finalizer := g.finalizer) else g.finalizer == o.finalizer
    ensures (if status != movesFinalizer then g else o)
      == (if status then o.(status := g.status) else g.(status := o.status)).(
           spec := if status then g.spec else o.spec)
  {
  }

  lemma LikeMachine(m: Machine, status: bool, r: Reply)
    requires m.pass.Run? && IsPatch(m.pass.pc) && Halves(m)
    requires r == LikeReply(MovesFinalizer(m.pass.pc), status)
    ensures StepMachine(m, Idle(Failed), r)
      == TornMachine(m, status).(obj := Half(m, status).(spec := SpecThere(m, status)))
  {
    var moves := MovesFinalizer(m.pass.pc);
    LikeObject(Merged(m), m.obj, moves, status);
    var first := if m.pass.pc.PatchInstance? && status then m.pass.mem.status.instance else m.first;
    var o := if status != moves then Merged(m) else m.obj;
    assert Stored(m, r) == m.(obj := o, first := first);
    CountsAlike(m, Half(m, status), o, first);
  }

  lemma CountsAlike(m: Machine, half: MachineObj, o: MachineObj, first: Id)
    ensures Count(m.(obj := half, first := first), Idle(Failed)).(obj := o)
      == Count(m.(obj := o, first := first), Idle(Failed))
  {
  }

  lemma LikeCloud(cloud: Cloud, k: Key, p: MPass, status: bool, r: Reply)
    requires p.Run? && IsPatch(p.pc) && r == LikeReply(MovesFinalizer(p.pc), status)
    ensures StepCloud(cloud, k, p, Idle(Failed), r) == TornCloud(cloud, p, status)
  {
  }

  /** The step of that reply is the torn patch, but for the spec. */
  lemma LikePatch(s: Sys, k: Key, status: bool, r: Reply)
    requires k in s.machines && s.machines[k].pass.Run? && IsPatch(s.machines[k].pass.pc)
    requires Halves(s.machines[k])
    requires r == LikeReply(MovesFinalizer(s.machines[k].pass.pc), status) && StepEnabled(s, k, r)
    ensures var m := s.machines[k];
      ApplyStep(s, k, r) == s.(
        machines := s.machines[k := TornMachine(m, status).(
          obj := Half(m, status).(spec := SpecThere(m, status)))],
        cloud := TornCloud(s.cloud, m.pass, status))
  {
    LikeMachine(s.machines[k], status, r);
    LikeCloud(s.cloud, k, s.machines[k].pass, status, r);
  }

  lemma TornKeepsOut(m: Machine, status: bool)
    requires m.pass.Run?
    ensures TornMachine(m, status).exists_ == m.exists_ && TornMachine(m, status).edited == m.edited
    ensures TornMachine(m, status).obj == Half(m, status)
  {
  }

  lemma TornStep(s: Sys, k: Key, status: bool) returns (u: Sys)
    requires Reachable(s) && k in s.machines && s.machines[k].pass.Run? && IsPatch(s.machines[k].pass.pc)
    requires if status then s.machines[k].exists_ else PatchAllowed(s.machines[k])
    ensures Reachable(u)
    ensures var m := s.machines[k];
      && MachineUpdateAdmitted(m.obj.spec, Merged(m).spec)
      && u == s.(
        machines := s.machines[k := TornMachine(m, status).(obj := Half(m, status).(spec := SpecThere(m, status)))],
        cloud := TornCloud(s.cloud, m.pass, status))
  {
    var r := LikeReply(MovesFinalizer(s.machines[k].pass.pc), status);
    PatchHalves(s, k);
    LikePatchEnabled(s, k, status);
    LikePatch(s, k, status, r);
    ReachableStep(s, Step(k, r));
    MachineWritesAdmitted(s, k);
    u := ApplyStep(s, k, r);
  }

  /** The spec `x` of the machine is put right. */
  lemma PutRight(s: Sys, k: Key, m: Machine, cloud: Cloud, x: MachineSpec) returns (t: Sys)
    requires k in s.machines && m.exists_ && MachineUpdateAdmitted(x, m.obj.spec)
    requires Reachable(s.(machines := s.machines[k := m.(obj := m.obj.(spec := x))], cloud := cloud))
    ensures Reachable(t) && k in t.machines
    ensures t == s.(machines := s.machines[k := m.(edited := t.machines[k].edited)], cloud := cloud)
    ensures t.machines[k].edited <==> m.edited || m.obj.spec.providerID != x.providerID
  {
    var u := s.(machines := s.machines[k := m.(obj := m.obj.(spec := x))], cloud := cloud);
    ReachableStep(u, EditMachine(k, m.obj.spec));
    t := Apply(u, EditMachine(k, m.obj.spec));
    assert t.machines == s.machines[k := m.(edited := t.machines[k].edited)];
  }

  /** Half a patch leaves what a whole or a failed one leaves and an edit of the provider ID after it:
      a reachable state, in all but that the system takes the ID for edited if one was sent. */
  lemma TornPatchIsCovered(s: Sys, k: Key, status: bool) returns (t: Sys)
    requires Reachable(s) && k in s.machines && s.machines[k].pass.Run? && IsPatch(s.machines[k].pass.pc)
    requires if status then s.machines[k].exists_ else PatchAllowed(s.machines[k])
    ensures Reachable(t) && k in t.machines
    ensures var torn := Torn(s, k, status);
      t == torn.(machines := torn.machines[k := torn.machines[k].(edited := t.machines[k].edited)])
    ensures t.machines[k].edited <==>
              s.machines[k].edited || Merged(s.machines[k]).spec.providerID != s.machines[k].obj.spec.providerID
  {
    var u := TornStep(s, k, status);
    var m := s.machines[k];
    TornKeepsOut(m, status);
    SpecPutBack(m, status);
    t := PutRight(s, k, TornMachine(m, status), TornCloud(s.cloud, m.pass, status), SpecThere(m, status));
  }

  lemma SpecPutBack(m: Machine, status: bool)
    requires m.pass.Run?
    ensures Half(m, status).spec == if status then m.obj.spec else Merged(m).spec
  {
  }

  lemma CLikePatch(s: Sys, status: bool, r: Reply)
    requires s.cluster.pass.CRun? && CIsPatch(s.cluster.pass.pc) && CHalves(s.cluster)
    requires r == LikeReply(CMovesFinalizer(s.cluster.pass.pc), status) && CStepEnabled(s, r)
    ensures var u, t, c := CApplyStep(s, r), CTorn(s, status), s.cluster;
      && u == t.(cluster := t.cluster.(obj := u.cluster.obj))
      && u.cluster.obj == CHalf(c, status).(spec := if status then CMerged(c).spec else c.obj.spec)
      && u.cluster.exists_ == c.exists_
  {
  }

  /** For the cluster there is no exception: the state is reachable. */
  lemma CTornPatchIsCovered(s: Sys, status: bool)
    requires Reachable(s) && s.cluster.pass.CRun? && CIsPatch(s.cluster.pass.pc)
    requires if status then s.cluster.exists_ else CPatchAllowed(s.cluster)
    ensures Reachable(CTorn(s, status))
  {
    var r := LikeReply(CMovesFinalizer(s.cluster.pass.pc), status);
    CPatchHalves(s);
    ClusterWritesAdmitted(s);
    CLikePatch(s, status, r);
    ReachableStep(s, CStep(r));
    CSpecPutBack(s, CApplyStep(s, r), status);
  }

  lemma CSpecPutBack(s: Sys, u: Sys, status: bool)
    requires s.cluster.pass.CRun? && s.cluster.exists_ && Reachable(u) && u.cluster.exists_
    requires ClusterUpdateAdmitted(s.cluster.obj.spec, CMerged(s.cluster).spec)
    requires var t, c := CTorn(s, status), s.cluster;
      && u == t.(cluster := t.cluster.(obj := u.cluster.obj))
      && u.cluster.obj == CHalf(c, status).(spec := if status then CMerged(c).spec else c.obj.spec)
    ensures Reachable(CTorn(s, status))
  {
    var spec := CHalf(s.cluster, status).spec;
    ReachableStep(u, EditCluster(spec));
    assert Apply(u, EditCluster(spec)) == CTorn(s, status);
  }
}
