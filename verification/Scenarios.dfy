/** Runs from a fresh cluster that show the states which the negative results speak of. */
module Scenarios {
  import opened Api
  import opened BootData
  import opened System
  import opened Invariant
  import opened Preservation
  import opened Runs
  import R = Recovery
  import M = MachineRecovery
  import L = LostRoutes
  import T = TornRuns

  // ---------- a ready cluster and a new machine ----------

  const SPEC := ClusterSpec("default", "zone", "net", None, SSHKey("", "", false), Endpoint("", 0), None)

  const CLUSTER_ANSWERS :=
    R.Answers(Uuid("project"), Uuid("network"), Uuid("subnet"), [], Uuid("fip"), "10.0.0.1", Uuid("key"))

  const MACHINE := "cp-0"
  const CONFIG := MachineConfig(true, (text, ip) => Some(Obj(map[])))
  const MACHINE_SPEC := MachineSpec("small", "ubuntu", None)

  const ANSWERS :=
    M.Answers(Uuid("flavor"), [Image(Some("ubuntu"), Uuid("image"))], Uuid("vm"), [], [Uuid("attachment")], true, "")

  const FRESH := Sys(
    map[],
    Cluster(true, false, ClusterObj(false, SPEC, NO_CLUSTER_STATUS), CIdle(NeverRan),
            Slots(Unset, Unset, Unset), false, 0, 0),
    false, Cloud(map[], {}, {}, {}, {}, {}))

  lemma FreshIsReachable()
    ensures Reachable(FRESH)
  {
    assert Init(FRESH) && IsRun(FRESH, []) && Exec(FRESH, []) == FRESH;
  }

  lemma NoVM(st: ClusterStatus)
    requires R.Filled(NO_CLUSTER_STATUS, st, CLUSTER_ANSWERS)
    ensures Uuid("vm") !in R.Grown(map[], NO_CLUSTER_STATUS, st)
  {
    assert |"vm"| != |"network"| && |"vm"| != |"fip"| && |"vm"| != |"key"|;
  }

  lemma SomeReadyCluster() returns (s: Sys)
    ensures Reachable(s) && s.machines == map[] && s.cluster.exists_ && !s.cluster.deleting
    ensures s.cluster.obj.status.ready && s.cluster.pass.CIdle? && Uuid("vm") !in s.cloud.res
    ensures Complete(s.cluster.obj) && s.cluster.obj.finalizer && s.cluster.obj.status.ip == "10.0.0.1"
    ensures !s.cluster.deletionSeen
  {
    FreshIsReachable();
    R.WholePassOnTheWay(FRESH, CLUSTER_ANSWERS, R.PASS_CALLS);
    s := R.WholePass(FRESH, CLUSTER_ANSWERS);
    NoVM(s.cluster.obj.status);
  }

  lemma SomeNewMachine() returns (s: Sys)
    ensures Reachable(s) && MACHINE in s.machines && s.machines[MACHINE] == NewMachine(CONFIG, MACHINE_SPEC)
    ensures M.Open(s, MACHINE, s.machines[MACHINE].obj, ANSWERS, s.cloud)
  {
    var s0 := SomeReadyCluster();
    ReachableStep(s0, SetInfraReady);
    var s1 := Apply(s0, SetInfraReady);
    ReachableStep(s1, AddMachine(MACHINE, CONFIG, MACHINE_SPEC));
    s := Apply(s1, AddMachine(MACHINE, CONFIG, MACHINE_SPEC));
    AnswersFit();
  }

  lemma AnswersFit()
    ensures M.Answerable(ANSWERS, "ubuntu")
  {
    assert ANSWERS.images[1..] == [];
  }

  lemma Begun(s: Sys, k: Key) returns (t: Sys)
    requires Reachable(s) && k in s.machines && M.Open(s, k, s.machines[k].obj, ANSWERS, s.cloud)
    requires s.machines[k].exists_ && s.machines[k].pass.Idle? && !s.machines[k].deleting
    requires !s.machines[k].deletionSeen
    ensures t == ApplyBegin(s, k) && Reachable(t)
    ensures M.SysOnTheWay(t, k, s.machines[k].obj, ANSWERS, s.cloud) && t.machines[k].pass.Run?
  {
    t := ApplyBegin(s, k);
    ReachableStep(s, Begin(k));
    M.PassOnTheWay(s, k, ANSWERS, 0);
  }

  // ---------- an attach call ----------

  /** An undisturbed pass over a control-plane machine without an attachment comes to the call. */
  lemma {:induction false} AttachIsReached(s: Sys, k: Key, o: MachineObj, a: M.Answers, start: Cloud) returns (t: Sys)
    requires Reachable(s) && M.SysOnTheWay(s, k, o, a, start) && s.machines[k].pass.Run?
    requires s.machines[k].cfg.controlPlane && s.machines[k].obj.status.attachment.Unset?
    requires !s.machines[k].pass.pc.PatchAttachment?
    ensures Reachable(t) && M.SysOnTheWay(t, k, o, a, start) && t.machines[k].pass.Run?
    ensures t.machines[k].pass.pc.Attach? && t.machines[k].cfg == s.machines[k].cfg
    decreases M.Left(a, s.machines[k].pass)
  {
    var m := s.machines[k];
    if m.pass.pc.Attach? {
      t := s;
    } else {
      var r := M.CleanReply(s.cluster, m.pass.pc, a);
      M.CleanStep(s, k, o, a, start);
      M.OnwardsOnTheWay(s.cluster, o, a, m);
      M.Moving(s.cluster, o, a, m);
      ReachableStep(s, Step(k, r));
      t := AttachIsReached(ApplyStep(s, k, r), k, o, a, start);
    }
  }

  lemma SomeAttach() returns (s: Sys)
    ensures Reachable(s) && MACHINE in s.machines && s.machines[MACHINE].pass.Run?
    ensures s.machines[MACHINE].pass.pc.Attach? && s.machines[MACHINE].cfg == CONFIG
  {
    var s0 := SomeNewMachine();
    var s1 := Begun(s0, MACHINE);
    s := AttachIsReached(s1, MACHINE, s0.machines[MACHINE].obj, ANSWERS, s0.cloud);
  }

  /** A machine in deletion whose VM has a route that was never recorded. */
  lemma SomeLostRoute() returns (s: Sys, f: Id)
    ensures Reachable(s) && L.Doomed(s, MACHINE)
    ensures (f, s.machines[MACHINE].obj.status.instance) in s.cloud.routes
  {
    var s0 := SomeAttach();
    L.AttachMayBeLost(s0, MACHINE);
    ReachableInv(s0);
    L.AttachesTheRecorded(s0.cluster, s0.cloud, MACHINE, s0.machines[MACHINE]);
    var s1 := ApplyStep(s0, MACHINE, Fail(true, Unset));
    f := s1.cluster.obj.status.floatingIP;
    ReachableInv(s1);
    ReachableStep(s1, RequestDelete(MACHINE));
    s := Apply(s1, RequestDelete(MACHINE));
    assert MStored(s0.cluster, s0.cloud, MACHINE, s0.machines[MACHINE]);
    assert MPassOk(s0.cluster, s0.cloud, MACHINE, s0.machines[MACHINE]);
  }

  /** It happens: an object is let go and its VM destroyed while a route to it stays. */
  lemma RouteOutlivesItsMachine()
    ensures exists s, i, f :: Reachable(s) && MACHINE in s.machines && !s.machines[MACHINE].obj.finalizer
              && i in s.cloud.res && !s.cloud.res[i].live && (f, i) in s.cloud.routes
  {
    var s, f := SomeLostRoute();
    L.UnrecordedRouteOutlivesMachine(s, MACHINE);
    var t :| Leads(s, t) && L.GoneButRouted(s, t, MACHINE);
    var run :| IsRun(s, run) && Exec(s, run) == t;
    ReachableExtends(s, run);
    assert (f, s.machines[MACHINE].obj.status.instance) in t.cloud.routes;
  }

  // ---------- a torn patch ----------

  lemma NotAtTheEnd(c: Cluster, o: MachineObj, a: M.Answers, m: Machine)
    requires M.Answerable(a, o.spec.image) && M.OnTheWay(c, o, a, m) && m.pass.Run? && m.obj.status.instance.Unset?
    ensures !m.pass.pc.PatchReady? && !m.pass.pc.GetInstance?
  {
  }

  /** An undisturbed pass over a machine without an instance comes to record it. */
  lemma {:induction false} RecordIsReached(s: Sys, k: Key, o: MachineObj, a: M.Answers, start: Cloud) returns (t: Sys)
    requires Reachable(s) && M.SysOnTheWay(s, k, o, a, start) && s.machines[k].pass.Run?
    requires s.machines[k].obj.status.instance.Unset?
    ensures Reachable(t) && M.SysOnTheWay(t, k, o, a, start) && t.machines[k].pass.Run?
    ensures t.machines[k].pass.pc.PatchInstance?
    decreases M.Left(a, s.machines[k].pass)
  {
    var m := s.machines[k];
    if m.pass.pc.PatchInstance? {
      t := s;
    } else {
      var r := M.CleanReply(s.cluster, m.pass.pc, a);
      M.CleanStep(s, k, o, a, start);
      M.OnwardsOnTheWay(s.cluster, o, a, m);
      M.Moving(s.cluster, o, a, m);
      NotAtTheEnd(s.cluster, o, a, m);
      ReachableStep(s, Step(k, r));
      t := RecordIsReached(ApplyStep(s, k, r), k, o, a, start);
    }
  }

  /** A machine without a provider ID whose instance is about to be recorded. */
  lemma SomeTornInstance()
    ensures exists s :: Reachable(s) && MACHINE in s.machines && T.TEnabled(s, T.Half(MACHINE, true))
              && s.machines[MACHINE].pass.pc.PatchInstance? && s.machines[MACHINE].obj.spec.providerID == None
  {
    var s0 := SomeNewMachine();
    var o := s0.machines[MACHINE].obj;
    var s1 := Begun(s0, MACHINE);
    var s := RecordIsReached(s1, MACHINE, o, ANSWERS, s0.cloud);
    assert s.machines[MACHINE].obj == M.Selected(o, ANSWERS, M.Chosen(o, ANSWERS));
  }

  // ---------- an empty flavor ID ----------

  predicate BeforeFlavor(pc: MPc)
  { pc.LookupCluster? || pc.UpdateHook? || pc.PatchFinalizer? || pc.Connect? || pc.GetFlavor? }

  lemma StaysBeforeFlavor(c: Cluster, o: MachineObj, a: M.Answers, m: Machine)
    requires M.Answerable(a, o.spec.image) && M.OnTheWay(c, o, a, m) && m.pass.Run? && M.Sendable(c, a, m.cfg)
    requires BeforeFlavor(m.pass.pc) && !m.pass.pc.GetFlavor? && o.status.flavor.Unset?
    ensures Fits(m.pass.pc, M.CleanReply(c, m.pass.pc, a))
    ensures M.Onwards(c, a, m).pass.Run? && BeforeFlavor(M.Onwards(c, a, m).pass.pc)
  {
  }

  /** An undisturbed pass over a machine without a flavor comes to look it up. */
  lemma {:induction false} GetFlavorIsReached(s: Sys, k: Key, o: MachineObj, a: M.Answers, start: Cloud)
    returns (t: Sys)
    requires Reachable(s) && M.SysOnTheWay(s, k, o, a, start) && s.machines[k].pass.Run?
    requires BeforeFlavor(s.machines[k].pass.pc) && o.status.flavor.Unset?
    ensures Reachable(t) && M.SysOnTheWay(t, k, o, a, start) && M.Beside(s, t, k)
    ensures t.machines[k].pass.Run? && t.machines[k].pass.pc.GetFlavor?
    decreases M.Left(a, s.machines[k].pass)
  {
    var m := s.machines[k];
    if m.pass.pc.GetFlavor? {
      t := s;
    } else {
      var r := M.CleanReply(s.cluster, m.pass.pc, a);
      M.CleanStep(s, k, o, a, start);
      StaysBeforeFlavor(s.cluster, o, a, m);
      ReachableStep(s, Step(k, r));
      t := GetFlavorIsReached(ApplyStep(s, k, r), k, o, a, start);
      M.BesideChains(s, ApplyStep(s, k, r), t, k);
    }
  }

  /** A pass past its gates, at `pc`, with everything stored. */
  predicate At(s: Sys, k: Key, pc: MPc)
  {
    && k in s.machines && s.machines[k].exists_ && !s.machines[k].deleting && !s.machines[k].deletionSeen
    && s.machines[k].pass.Run? && s.machines[k].pass.pc == pc && !s.machines[k].pass.del
    && s.machines[k].obj == s.machines[k].pass.mem && s.machines[k].pass.before.spec == s.machines[k].obj.spec
    && s.machines[k].pass.before.status == s.machines[k].obj.status && s.machines[k].obj.finalizer
    && s.machines[k].obj.status.flavor.Unset? && s.machines[k].obj.status.instance.Unset?
  }

  lemma FlavorMissed(s: Sys, k: Key) returns (t: Sys)
    requires Reachable(s) && At(s, k, GetFlavor) && s.machines[k].obj.status.image.Unset?
    ensures Reachable(t) && At(t, k, ListImages) && t.machines[k].obj == s.machines[k].obj && M.Beside(s, t, k)
    ensures t.cloud.res == s.cloud.res
  {
    var u := ApplyStep(s, k, GotId(Unset));
    ReachableStep(s, Step(k, GotId(Unset)));
    assert Merged(u.machines[k]) == u.machines[k].obj;
    t := ApplyStep(u, k, Done);
    ReachableStep(u, Step(k, Done));
  }

  lemma ImageListed(s: Sys, k: Key) returns (u: Sys)
    requires Reachable(s) && At(s, k, ListImages) && s.machines[k].obj.spec.image == "ubuntu"
    ensures Reachable(u) && M.Beside(s, u, k) && u.cloud.res == s.cloud.res
    ensures u.machines[k] == s.machines[k].(pass := SetImage(s.machines[k].pass, Uuid("image"), PatchImage([])))
  {
    var r := GotImages(ANSWERS.images);
    assert ANSWERS.images[1..] == [];
    u := ApplyStep(s, k, r);
    ReachableStep(s, Step(k, r));
  }

  lemma ImageTaken(s: Sys, k: Key) returns (t: Sys)
    requires Reachable(s) && At(s, k, ListImages) && s.machines[k].obj.status.image.Unset?
    requires s.machines[k].obj.spec.image == "ubuntu"
    ensures Reachable(t) && M.Beside(s, t, k) && t.cloud.res == s.cloud.res
    ensures t.machines[k].pass == Idle(FellThrough)
    ensures t.machines[k].obj == M.WithImageID(s.machines[k].obj, Uuid("image"))
    ensures t.machines[k].exists_ && !t.machines[k].deleting && !t.machines[k].deletionSeen
  {
    var u := ImageListed(s, k);
    assert Merged(u.machines[k]) == u.machines[k].pass.mem;
    t := ApplyStep(u, k, Done);
    ReachableStep(u, Step(k, Done));
  }

  /** A machine about to look up its flavor whose image is recorded: an earlier pass got an empty
      flavor ID and went on to the image. */
  lemma SomeImageWithoutFlavor()
    ensures exists s :: Reachable(s) && MACHINE in s.machines && s.machines[MACHINE].pass.Run?
              && s.machines[MACHINE].pass.pc.GetFlavor? && s.machines[MACHINE].obj.status.instance.Unset?
              && s.machines[MACHINE].pass.mem.status.image.Uuid?
  {
    var s0 := SomeNewMachine();
    var o := s0.machines[MACHINE].obj;
    var s1 := Begun(s0, MACHINE);
    var s2 := GetFlavorIsReached(s1, MACHINE, o, ANSWERS, s0.cloud);
    var s3 := FlavorMissed(s2, MACHINE);
    var s4 := ImageTaken(s3, MACHINE);
    var s5 := Begun(s4, MACHINE);
    var s6 := GetFlavorIsReached(s5, MACHINE, s4.machines[MACHINE].obj, ANSWERS, s4.cloud);
  }

  // ---------- an endpoint edited twice ----------

  function WithEndpoint(s: Sys, e: Endpoint): Action
  { EditCluster(s.cluster.obj.spec.(endpoint := e)) }

  /** From the look-up of the owner to the last patch of a pass over a complete cluster. */
  lemma ThreeCalls(s: Sys) returns (t: Sys)
    requires Reachable(s) && s.cluster.exists_ && !s.cluster.deleting && !s.cluster.deletionSeen
    requires s.cluster.pass == CRun(CLookupOwner(false), s.cluster.obj, s.cluster.obj)
    requires Complete(s.cluster.obj) && s.cluster.obj.finalizer
    ensures Reachable(t) && t.cluster.obj == s.cluster.obj && t.cluster.exists_
    ensures t.cluster.pass.CRun? && t.cluster.pass.pc == CPatchReady && t.cluster.pass.before == s.cluster.obj
  {
    var u := CApplyStep(s, Done);
    ReachableStep(s, CStep(Done));
    assert CMerged(u.cluster) == u.cluster.obj;
    var v := CApplyStep(u, Done);
    ReachableStep(u, CStep(Done));
    t := CApplyStep(v, Done);
    ReachableStep(v, CStep(Done));
  }

  /** The state from which the endpoint is restored by half. */
  lemma SomeDoubleEdit()
    ensures exists s :: Reachable(s) && CStepEnabled(s, Done) && s.cluster.pass.pc == CPatchReady
              && s.cluster.pass.before.spec.endpoint == Endpoint("old", 6443)
              && s.cluster.obj.spec.endpoint == Endpoint("old", 1) && s.cluster.obj.status.ip != "old"
  {
    var s0 := SomeReadyCluster();
    var first := WithEndpoint(s0, Endpoint("old", 6443));
    ReachableStep(s0, first);
    var s1 := Apply(s0, first);
    ReachableStep(s1, CBegin);
    var s2 := ThreeCalls(Apply(s1, CBegin));
    var second := WithEndpoint(s2, Endpoint("old", 1));
    ReachableStep(s2, second);
    var s3 := Apply(s2, second);
    assert "10.0.0.1"[0] != "old"[0];
    LastPatchPasses(s3);
  }

  lemma LastPatchPasses(s: Sys)
    requires Reachable(s) && s.cluster.pass.CRun? && s.cluster.pass.pc == CPatchReady && s.cluster.exists_
    ensures CStepEnabled(s, Done)
  {
    ClusterWritesAdmitted(s);
  }
}
