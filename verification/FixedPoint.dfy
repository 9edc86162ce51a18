/** A pass over a ready object creates, deletes and stores nothing. */
module FixedPoint {
  import opened Api
  import opened System
  import opened Invariant
  import opened Preservation

  lemma RunCons(s: Sys, a: Action, rest: seq<Action>)
    requires Enabled(s, a) && IsRun(Apply(s, a), rest)
    ensures IsRun(s, [a] + rest) && Exec(s, [a] + rest) == Exec(Apply(s, a), rest)
  {
    assert ([a] + rest)[1..] == rest;
  }

  // ---------- the cluster ----------

  /** `s` with a pass at `pc` whose memory and snapshot are the stored object. */
  function CMidway(s: Sys, pc: CPc): Sys
  { s.(cluster := s.cluster.(pass := CRun(pc, s.cluster.obj, s.cluster.obj))) }

  function CAfter(s: Sys): Sys
  { s.(cluster := s.cluster.(pass := CIdle(MadeReady))) }

  ghost predicate ReadyCluster(s: Sys)
  {
    var c := s.cluster;
    && c.exists_ && !c.deleting && !c.deletionSeen && c.obj.finalizer && c.obj.status.ready
    && Complete(c.obj) && c.obj.spec.endpoint == Desired(c.obj.status)
  }

  lemma CStepsAreFixed(s: Sys, pc: CPc, next: CPc)
    requires ReadyCluster(s)
    requires (pc == CLookupOwner(false) && next == CPatchFinalizer)
             || (pc == CPatchFinalizer && next == CConnect) || (pc == CConnect && next == CPatchReady)
    ensures CStepEnabled(CMidway(s, pc), Done) && CApplyStep(CMidway(s, pc), Done) == CMidway(s, next)
  {
  }

  lemma CLastStepIsFixed(s: Sys)
    requires ReadyCluster(s)
    ensures CStepEnabled(CMidway(s, CPatchReady), Done)
    ensures CApplyStep(CMidway(s, CPatchReady), Done) == CAfter(s)
  {
  }

  /** The calls of an undisturbed pass over a ready cluster. */
  const READY_CLUSTER_PASS: seq<Action> := 
    [CBegin] + ([CStep(Done)] + ([CStep(Done)] + ([CStep(Done)] + ([CStep(Done)] + []))))

  /** Such a pass leaves the store and the cloud as they were, and issues no create or delete. */
  lemma ReadyClusterIsFixed(s: Sys)
    requires Reachable(s) && Enabled(s, CBegin) && !s.cluster.deleting && s.cluster.obj.status.ready
    requires s.cluster.obj.spec.endpoint == Desired(s.cluster.obj.status)
    ensures IsRun(s, READY_CLUSTER_PASS) && Exec(s, READY_CLUSTER_PASS) == CAfter(s)
  {
    ReachableInv(s);
    assert CSlotOk(s.cloud, s.cluster, Network);
    CStepsAreFixed(s, CLookupOwner(false), CPatchFinalizer);
    CStepsAreFixed(s, CPatchFinalizer, CConnect);
    CStepsAreFixed(s, CConnect, CPatchReady);
    CLastStepIsFixed(s);
    RunCons(CMidway(s, CPatchReady), CStep(Done), []);
    RunCons(CMidway(s, CConnect), CStep(Done), [CStep(Done)] + []);
    RunCons(CMidway(s, CPatchFinalizer), CStep(Done), [CStep(Done)] + ([CStep(Done)] + []));
    RunCons(CMidway(s, CLookupOwner(false)), CStep(Done), [CStep(Done)] + ([CStep(Done)] + ([CStep(Done)] + [])));
    RunCons(s, CBegin, [CStep(Done)] + ([CStep(Done)] + ([CStep(Done)] + ([CStep(Done)] + []))));
  }

  /** `s` with another endpoint, edited while the pass was at `pc`. */
  function Edited(s: Sys, e: Endpoint, pass: CPass): Sys
  { s.(cluster := s.cluster.(obj := s.cluster.obj.(spec := s.cluster.obj.spec.(endpoint := e)), pass := pass)) }

  lemma EditIsAdmitted(s: Sys, e: Endpoint)
    requires ReadyCluster(s)
    ensures var edit := EditCluster(s.cluster.obj.spec.(endpoint := e));
      && Enabled(CMidway(s, CPatchReady), edit)
      && Apply(CMidway(s, CPatchReady), edit) == Edited(s, e, CMidway(s, CPatchReady).cluster.pass)
  {
  }

  lemma EditIsKept(s: Sys, e: Endpoint)
    requires ReadyCluster(s)
    ensures var t := Edited(s, e, CMidway(s, CPatchReady).cluster.pass);
      CStepEnabled(t, Done) && CApplyStep(t, Done) == Edited(s, e, CIdle(MadeReady))
  {
  }

  /** The same pass, with an edit before its last call. */
  function EditedPass(s: Sys, e: Endpoint): seq<Action>
  {
    [CBegin] + ([CStep(Done)] + ([CStep(Done)] + ([CStep(Done)]
      + ([EditCluster(s.cluster.obj.spec.(endpoint := e))] + ([CStep(Done)] + [])))))
  }

  /** An endpoint that a user sets, to anything, while a pass over a ready cluster is under way
      outlives that pass, although it ends without an error: the pass restores only what it
      found changed when it began. */
  lemma EndpointEditOutlivesPass(s: Sys, e: Endpoint)
    requires Reachable(s) && Enabled(s, CBegin) && !s.cluster.deleting && s.cluster.obj.status.ready
    requires s.cluster.obj.spec.endpoint == Desired(s.cluster.obj.status)
    ensures IsRun(s, EditedPass(s, e))
    ensures var t := Exec(s, EditedPass(s, e));
      t.cluster.pass == CIdle(MadeReady) && t.cluster.obj.spec.endpoint == e
  {
    ReachableInv(s);
    assert CSlotOk(s.cloud, s.cluster, Network);
    CStepsAreFixed(s, CLookupOwner(false), CPatchFinalizer);
    CStepsAreFixed(s, CPatchFinalizer, CConnect);
    CStepsAreFixed(s, CConnect, CPatchReady);
    EditIsAdmitted(s, e);
    EditIsKept(s, e);
    var edit := EditCluster(s.cluster.obj.spec.(endpoint := e));
    RunCons(Edited(s, e, CMidway(s, CPatchReady).cluster.pass), CStep(Done), []);
    RunCons(CMidway(s, CPatchReady), edit, [CStep(Done)] + []);
    RunCons(CMidway(s, CConnect), CStep(Done), [edit] + ([CStep(Done)] + []));
    RunCons(CMidway(s, CPatchFinalizer), CStep(Done), [CStep(Done)] + ([edit] + ([CStep(Done)] + [])));
    RunCons(CMidway(s, CLookupOwner(false)), CStep(Done),
            [CStep(Done)] + ([CStep(Done)] + ([edit] + ([CStep(Done)] + []))));
    RunCons(s, CBegin, [CStep(Done)] + ([CStep(Done)] + ([CStep(Done)] + ([edit] + ([CStep(Done)] + [])))));
  }

  // ---------- a machine ----------

  function Midway(s: Sys, k: Key, pc: MPc, clu: ClusterView): Sys
    requires k in s.machines
  {
    var m := s.machines[k];
    s.(machines := s.machines[k := m.(pass :=
      Run(pc, false, true, clu, !pc.LookupCluster?, !pc.LookupCluster?, m.obj, m.obj))])
  }

  function After(s: Sys, k: Key): Sys
    requires k in s.machines
  { s.(machines := s.machines[k := s.machines[k].(pass := Idle(MadeReady))]) }

  ghost predicate ReadyMachine(m: Machine)
  {
    && m.exists_ && m.obj.finalizer && m.obj.status.ready && m.obj.status.instance.Uuid?
    && m.obj.status.flavor.Uuid? && m.obj.status.image.Uuid?
    && (m.cfg.controlPlane ==> m.obj.status.attachment.Uuid?)
  }

  lemma LookupIsFixed(s: Sys, k: Key)
    requires k in s.machines && ReadyMachine(s.machines[k]) && s.infraReady && s.cluster.exists_
    ensures var clu := View(s.cluster.obj);
      && StepEnabled(Midway(s, k, LookupCluster, NO_VIEW), k, GotCluster(clu, true, true))
      && ApplyStep(Midway(s, k, LookupCluster, NO_VIEW), k, GotCluster(clu, true, true))
           == Midway(s, k, PatchFinalizer, clu)
  {
  }

  lemma FinalizerIsFixed(s: Sys, k: Key, clu: ClusterView)
    requires k in s.machines && ReadyMachine(s.machines[k])
    ensures StepEnabled(Midway(s, k, PatchFinalizer, clu), k, Done)
    ensures ApplyStep(Midway(s, k, PatchFinalizer, clu), k, Done) == Midway(s, k, Connect, clu)
  {
  }

  lemma ConnectIsFixed(s: Sys, k: Key, clu: ClusterView)
    requires k in s.machines && ReadyMachine(s.machines[k])
    ensures StepEnabled(Midway(s, k, Connect, clu), k, Done)
    ensures ApplyStep(Midway(s, k, Connect, clu), k, Done) == Midway(s, k, GetInstance, clu)
  {
  }

  lemma RunningIsFixed(s: Sys, k: Key, clu: ClusterView)
    requires k in s.machines && ReadyMachine(s.machines[k])
    ensures StepEnabled(Midway(s, k, GetInstance, clu), k, GotState(true))
    ensures ApplyStep(Midway(s, k, GetInstance, clu), k, GotState(true)) == Midway(s, k, PatchReady, clu)
  {
  }

  lemma LastStepIsFixed(s: Sys, k: Key, clu: ClusterView)
    requires k in s.machines && ReadyMachine(s.machines[k])
    ensures StepEnabled(Midway(s, k, PatchReady, clu), k, Done)
    ensures ApplyStep(Midway(s, k, PatchReady, clu), k, Done) == After(s, k)
  {
  }

  /** The calls of an undisturbed pass over a ready machine whose VM is still running. */
  function ReadyMachinePass(k: Key, clu: ClusterView): seq<Action>
  { [Begin(k)] + ([Step(k, GotCluster(clu, true, true))] + ReadyMachineTail(k)) }

  function ReadyMachineTail(k: Key): seq<Action>
  { [Step(k, Done)] + ([Step(k, Done)] + ([Step(k, GotState(true))] + ([Step(k, Done)] + []))) }

  lemma ReadyMachineTailIsFixed(s: Sys, k: Key, clu: ClusterView)
    requires k in s.machines && ReadyMachine(s.machines[k])
    ensures IsRun(Midway(s, k, PatchFinalizer, clu), ReadyMachineTail(k))
    ensures Exec(Midway(s, k, PatchFinalizer, clu), ReadyMachineTail(k)) == After(s, k)
  {
    FinalizerIsFixed(s, k, clu);
    ConnectIsFixed(s, k, clu);
    RunningIsFixed(s, k, clu);
    LastStepIsFixed(s, k, clu);
    RunCons(Midway(s, k, PatchReady, clu), Step(k, Done), []);
    RunCons(Midway(s, k, GetInstance, clu), Step(k, GotState(true)), [Step(k, Done)] + []);
    RunCons(Midway(s, k, Connect, clu), Step(k, Done), [Step(k, GotState(true))] + ([Step(k, Done)] + []));
    RunCons(Midway(s, k, PatchFinalizer, clu), Step(k, Done),
            [Step(k, Done)] + ([Step(k, GotState(true))] + ([Step(k, Done)] + [])));
  }

  /** Such a pass leaves the store and the cloud as they were, and issues no create or delete. */
  lemma ReadyMachineIsFixed(s: Sys, k: Key)
    requires Reachable(s) && Enabled(s, Begin(k)) && !s.machines[k].deleting && s.infraReady
    requires s.machines[k].obj.status.ready && s.cluster.exists_
    ensures var run := ReadyMachinePass(k, View(s.cluster.obj));
      IsRun(s, run) && Exec(s, run) == After(s, k)
  {
    ReachableInv(s);
    assert MInv(s.cluster, s.cloud, k, s.machines[k]);
    var clu, start := View(s.cluster.obj), Midway(s, k, LookupCluster, NO_VIEW);
    LookupIsFixed(s, k);
    ReadyMachineTailIsFixed(s, k, clu);
    assert ApplyBegin(s, k) == start;
    RunCons(start, Step(k, GotCluster(clu, true, true)), ReadyMachineTail(k));
    RunCons(s, Begin(k), [Step(k, GotCluster(clu, true, true))] + ReadyMachineTail(k));
  }
}
