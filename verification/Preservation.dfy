/** Every action of the system keeps the invariant. */
module Preservation {
  import opened Api
  import opened System
  import opened Invariant
  import opened MachineSteps
  import opened ClusterSteps
  import opened Frames

  // ---------- machine passes ----------

  lemma OneResourceChanged(cloud: Cloud, cloud': Cloud, id: Id, o: Owner)
    requires id.Uuid? && id in cloud'.res && cloud'.res[id].owner == o
    requires cloud'.res == cloud.res[id := cloud'.res[id]]
    requires id in cloud.res ==> MadeAs(cloud', id, cloud.res[id].kind, cloud.res[id].project, cloud.res[id].owner)
    ensures OwnResources(cloud, cloud', o)
  {
  }

  lemma StepOwnResources(c: Cluster, infraReady: bool, cloud: Cloud, k: Key, m: Machine, r: Reply,
                         m': Machine, cloud': Cloud)
    requires Moves(c, infraReady, cloud, k, m, r, m', cloud')
    ensures OwnResources(cloud, cloud', OfMachine(k))
  {
    var id := if m.pass.pc.CreateInstance? then NewId(r) else m.pass.mem.status.instance;
    if cloud'.res != cloud.res {
      OneResourceChanged(cloud, cloud', id, OfMachine(k));
    }
  }

  lemma OneRouteChanged(cloud: Cloud, cloud': Cloud, f: Id, i: Id, o: Owner)
    requires i in cloud'.res && cloud'.res[i].owner == o
    requires cloud'.routes == cloud.routes || cloud'.routes == cloud.routes + {(f, i)}
             || cloud'.routes == cloud.routes - {(f, i)}
    requires cloud'.lostRoutes == cloud.lostRoutes || cloud'.lostRoutes == cloud.lostRoutes + {i}
             || cloud'.lostRoutes == cloud.lostRoutes - {i}
    ensures OwnRoutes(cloud, cloud', o)
  {
    forall rt | (rt in cloud.routes) != (rt in cloud'.routes) ensures rt.1 == i {
      assert rt == (f, i);
    }
  }

  lemma StepOwnRoutes(c: Cluster, infraReady: bool, cloud: Cloud, k: Key, m: Machine, r: Reply,
                      m': Machine, cloud': Cloud)
    requires Moves(c, infraReady, cloud, k, m, r, m', cloud')
    ensures OwnRoutes(cloud, cloud', OfMachine(k))
  {
    if m.pass.pc.Attach? || m.pass.pc.PatchAttachment? || m.pass.pc.Detach? {
      RoutesItsOwn(c, cloud, k, m);
      OneRouteChanged(cloud, cloud', m.pass.clu.floatingIP, m.pass.mem.status.instance, OfMachine(k));
    }
  }

  lemma RoutesItsOwn(c: Cluster, cloud: Cloud, k: Key, m: Machine)
    requires MStored(c, cloud, k, m) && MPassOk(c, cloud, k, m) && m.pass.Run?
    requires m.pass.pc.Attach? || m.pass.pc.PatchAttachment? || m.pass.pc.Detach?
    ensures var i := m.pass.mem.status.instance; i in cloud.res && cloud.res[i].owner == OfMachine(k)
  {
  }

  lemma StepOwnCalls(c: Cluster, infraReady: bool, cloud: Cloud, k: Key, m: Machine, r: Reply,
                     m': Machine, cloud': Cloud)
    requires Moves(c, infraReady, cloud, k, m, r, m', cloud')
    ensures OwnCalls(cloud, cloud', OfMachine(k))
  {
  }

  lemma StepOnlyOf(c: Cluster, infraReady: bool, cloud: Cloud, k: Key, m: Machine, r: Reply,
                   m': Machine, cloud': Cloud)
    requires Moves(c, infraReady, cloud, k, m, r, m', cloud')
    ensures OnlyOf(cloud, cloud', OfMachine(k))
  {
    StepOwnResources(c, infraReady, cloud, k, m, r, m', cloud');
    StepOwnRoutes(c, infraReady, cloud, k, m, r, m', cloud');
    StepOwnCalls(c, infraReady, cloud, k, m, r, m', cloud');
  }

  /** What a crash makes of machine `k` and of the cloud. */
  ghost predicate Dies(cloud: Cloud, m: Machine, m': Machine, cloud': Cloud)
  {
    && m.pass.Run? && m' == Count(m, Idle(Failed))
    && cloud'.res == (if m.pass.pc.PatchInstance? then LoseId(cloud.res, m.pass.mem.status.instance) else cloud.res)
    && cloud'.lostRoutes == (if m.pass.pc.PatchAttachment? then cloud.lostRoutes + {m.pass.mem.status.instance}
                             else cloud.lostRoutes)
    && cloud' == cloud.(res := cloud'.res, lostRoutes := cloud'.lostRoutes)
  }

  lemma CrashStores(c: Cluster, cloud: Cloud, k: Key, m: Machine, m': Machine, cloud': Cloud)
    requires MInv(c, cloud, k, m) && Dies(cloud, m, m', cloud')
    ensures MStored(c, cloud', k, m')
  {
  }

  lemma CrashLedger(c: Cluster, cloud: Cloud, k: Key, m: Machine, m': Machine, cloud': Cloud)
    requires MInv(c, cloud, k, m) && Dies(cloud, m, m', cloud')
    ensures MLedger(cloud', k, m')
  {
  }

  lemma CrashRoutes(c: Cluster, cloud: Cloud, k: Key, m: Machine, m': Machine, cloud': Cloud)
    requires MInv(c, cloud, k, m) && Dies(cloud, m, m', cloud')
    ensures MRoutes(c, cloud', k, m')
  {
  }

  lemma CrashCalls(c: Cluster, cloud: Cloud, k: Key, m: Machine, m': Machine, cloud': Cloud)
    requires MInv(c, cloud, k, m) && Dies(cloud, m, m', cloud')
    ensures MCalls(c, cloud', k, m')
  {
  }

  lemma CrashOnlyOf(s: Sys, k: Key)
    requires k in s.machines && s.machines[k].pass.Run? && MInv(s.cluster, s.cloud, k, s.machines[k])
    ensures OnlyOf(s.cloud, ApplyCrash(s, k).cloud, OfMachine(k))
  {
  }

  lemma CrashKeeps(s: Sys, k: Key)
    requires k in s.machines && s.machines[k].pass.Run? && MInv(s.cluster, s.cloud, k, s.machines[k])
    ensures MInv(s.cluster, ApplyCrash(s, k).cloud, k, ApplyCrash(s, k).machines[k])
  {
    MachineDies(s.cluster, s.cloud, k, s.machines[k], ApplyCrash(s, k).machines[k], ApplyCrash(s, k).cloud);
  }

  lemma MachineDies(c: Cluster, cloud: Cloud, k: Key, m: Machine, m': Machine, cloud': Cloud)
    requires MInv(c, cloud, k, m) && Dies(cloud, m, m', cloud')
    ensures MInv(c, cloud', k, m')
  {
    CrashStores(c, cloud, k, m, m', cloud');
    CrashLedger(c, cloud, k, m, m', cloud');
    CrashRoutes(c, cloud, k, m, m', cloud');
    CrashCalls(c, cloud, k, m, m', cloud');
  }

  lemma BeginKeeps(s: Sys, k: Key)
    requires k in s.machines && s.machines[k].pass.Idle? && MInv(s.cluster, s.cloud, k, s.machines[k])
    ensures MInv(s.cluster, s.cloud, k, ApplyBegin(s, k).machines[k])
  {
  }

  // ---------- cluster passes ----------

  lemma CStepOwnResources(cloud: Cloud, c: Cluster, r: Reply, c': Cluster, cloud': Cloud)
    requires CMoves(cloud, c, r, c', cloud')
    requires cloud' == cloud.(res := cloud'.res, calls := CStepCalls(cloud, c.pass))
    ensures OwnResources(cloud, cloud', OfCluster)
  {
    if cloud'.res != cloud.res {
      var id := if c.pass.pc.Create? then NewId(r) else Slot(c.pass.mem.status, c.pass.pc.kind);
      OneResourceChanged(cloud, cloud', id, OfCluster);
    }
  }

  lemma CStepOwnCalls(cloud: Cloud, c: Cluster, r: Reply, c': Cluster, cloud': Cloud)
    requires CMoves(cloud, c, r, c', cloud')
    requires cloud' == cloud.(res := cloud'.res, calls := CStepCalls(cloud, c.pass))
    ensures OwnCalls(cloud, cloud', OfCluster)
  {
  }

  lemma CStepOnlyOf(cloud: Cloud, c: Cluster, r: Reply, c': Cluster, cloud': Cloud)
    requires CMoves(cloud, c, r, c', cloud')
    requires cloud' == cloud.(res := cloud'.res, calls := CStepCalls(cloud, c.pass))
    ensures OnlyOf(cloud, cloud', OfCluster)
  {
    CStepOwnResources(cloud, c, r, c', cloud');
    CStepOwnCalls(cloud, c, r, c', cloud');
  }

  lemma CStepChange(cloud: Cloud, c: Cluster, r: Reply, c': Cluster, cloud': Cloud)
    requires CMoves(cloud, c, r, c', cloud')
    ensures ClusterChange(c, c')
  {
  }

  lemma CCrashOnlyOf(s: Sys)
    requires s.cluster.pass.CRun? && COk(s.cloud, s.cluster)
    ensures OnlyOf(s.cloud, CApplyCrash(s).cloud, OfCluster)
  {
  }

  lemma CCrashKeeps(s: Sys)
    requires s.cluster.pass.CRun? && COk(s.cloud, s.cluster)
    ensures COk(CApplyCrash(s).cloud, CApplyCrash(s).cluster)
  {
  }

  lemma CBeginKeeps(s: Sys)
    requires s.cluster.pass.CIdle? && COk(s.cloud, s.cluster)
    ensures COk(s.cloud, CApplyBegin(s).cluster)
  {
  }

  lemma MoveKeeps(c: Cluster, infraReady: bool, cloud: Cloud, k: Key, m: Machine, r: Reply,
                  m': Machine, cloud': Cloud)
    requires Moves(c, infraReady, cloud, k, m, r, m', cloud')
    ensures MInv(c, cloud', k, m')
  {
    match m.pass.pc
    case LookupCluster => LookupClusterKeeps(c, infraReady, cloud, k, m, r, m', cloud');
    case UpdateHook => UpdateHookKeeps(c, infraReady, cloud, k, m, r, m', cloud');
    case PatchFinalizer => PatchFinalizerKeeps(c, infraReady, cloud, k, m, r, m', cloud');
    case Connect => MachineSteps.ConnectKeeps(c, infraReady, cloud, k, m, r, m', cloud');
    case GetFlavor => GetFlavorKeeps(c, infraReady, cloud, k, m, r, m', cloud');
    case PatchFlavor => PatchFlavorKeeps(c, infraReady, cloud, k, m, r, m', cloud');
    case ListImages => ListImagesKeeps(c, infraReady, cloud, k, m, r, m', cloud');
    case PatchImage(_) => PatchImageKeeps(c, infraReady, cloud, k, m, r, m', cloud');
    case GetSecret => GetSecretKeeps(c, infraReady, cloud, k, m, r, m', cloud');
    case CreateInstance(_) => CreateInstanceKeeps(c, infraReady, cloud, k, m, r, m', cloud');
    case PatchInstance => PatchInstanceKeeps(c, infraReady, cloud, k, m, r, m', cloud');
    case Attach => AttachKeeps(c, infraReady, cloud, k, m, r, m', cloud');
    case PatchAttachment => PatchAttachmentKeeps(c, infraReady, cloud, k, m, r, m', cloud');
    case GetInstance => GetInstanceKeeps(c, infraReady, cloud, k, m, r, m', cloud');
    case PatchReady => MachineSteps.PatchReadyKeeps(c, infraReady, cloud, k, m, r, m', cloud');
    case Prepare => MachineSteps.PrepareKeeps(c, infraReady, cloud, k, m, r, m', cloud');
    case Detach => DetachKeeps(c, infraReady, cloud, k, m, r, m', cloud');
    case PatchDetached => PatchDetachedKeeps(c, infraReady, cloud, k, m, r, m', cloud');
    case RemoveHook => RemoveHookKeeps(c, infraReady, cloud, k, m, r, m', cloud');
    case Destroy => DestroyKeeps(c, infraReady, cloud, k, m, r, m', cloud');
    case PatchDestroyed => PatchDestroyedKeeps(c, infraReady, cloud, k, m, r, m', cloud');
    case PatchFinalizerOff => MachineSteps.PatchFinalizerOffKeeps(c, infraReady, cloud, k, m, r, m', cloud');
    case _ =>
  }

  lemma CMoveKeeps(cloud: Cloud, c: Cluster, r: Reply, c': Cluster, cloud': Cloud)
    requires CMoves(cloud, c, r, c', cloud')
    ensures COk(cloud', c')
  {
    match c.pass.pc
    case CLookupOwner(_) => LookupOwnerKeeps(cloud, c, r, c', cloud');
    case CPatchFinalizer => ClusterSteps.PatchFinalizerOnKeeps(cloud, c, r, c', cloud');
    case CConnect => ClusterSteps.ConnectKeeps(cloud, c, r, c', cloud');
    case GetProject => ClusterSteps.GetProjectKeeps(cloud, c, r, c', cloud');
    case CPatchReady => ClusterSteps.PatchReadyKeeps(cloud, c, r, c', cloud');
    case CPrepare => ClusterSteps.PrepareKeeps(cloud, c, r, c', cloud');
    case CPatchFinalizerOff => ClusterSteps.PatchFinalizerOffKeeps(cloud, c, r, c', cloud');
    case Create(Network) => CreateNetworkKeeps(cloud, c, r, c', cloud');
    case Create(FloatingIP) => CreateFloatingIPKeeps(cloud, c, r, c', cloud');
    case Create(SshKey) => CreateSshKeyKeeps(cloud, c, r, c', cloud');
    case Record(Network) => RecordNetworkKeeps(cloud, c, r, c', cloud');
    case Record(FloatingIP) => RecordFloatingIPKeeps(cloud, c, r, c', cloud');
    case Record(SshKey) => RecordSshKeyKeeps(cloud, c, r, c', cloud');
    case Delete(Network) => DeleteNetworkKeeps(cloud, c, r, c', cloud');
    case Delete(FloatingIP) => DeleteFloatingIPKeeps(cloud, c, r, c', cloud');
    case Delete(SshKey) => DeleteSshKeyKeeps(cloud, c, r, c', cloud');
    case Clear(Network) => ClearNetworkKeeps(cloud, c, r, c', cloud');
    case Clear(FloatingIP) => ClearFloatingIPKeeps(cloud, c, r, c', cloud');
    case Clear(SshKey) => ClearSshKeyKeeps(cloud, c, r, c', cloud');
    case _ =>
  }

  // ---------- the whole system ----------

  lemma BelongKeeps(s: Sys, s': Sys, o: Owner)
    requires Belong(s) && OnlyOf(s.cloud, s'.cloud, o) && s'.machines.Keys == s.machines.Keys
    requires if o.OfMachine? then o.key in s.machines
             else s'.cloud.routes == s.cloud.routes && s'.cloud.lostRoutes == s.cloud.lostRoutes
    ensures Belong(s')
  {
  }

  lemma OtherMachinesKeep(s: Sys, k: Key, cloud': Cloud)
    requires Inv(s) && OnlyOf(s.cloud, cloud', OfMachine(k))
    ensures forall j :: j in s.machines && j != k ==> MInv(s.cluster, cloud', j, s.machines[j])
  {
    forall j | j in s.machines && j != k ensures MInv(s.cluster, cloud', j, s.machines[j]) {
      OthersKeep(s.cluster, s.cloud, cloud', OfMachine(k), j, s.machines[j]);
    }
  }

  lemma ClusterPartKeeps(s: Sys, k: Key, m': Machine, cloud': Cloud, s': Sys)
    requires Inv(s) && k in s.machines && OnlyOf(s.cloud, cloud', OfMachine(k))
    requires s' == s.(machines := s.machines[k := m'], cloud := cloud')
    ensures CInv(s') && Belong(s')
  {
    ClusterKeeps(s.cluster, s.cloud, cloud', k);
    BelongKeeps(s, s', OfMachine(k));
  }

  /** A change of one machine and of its own part of the cloud. */
  lemma MachineActionKeeps(s: Sys, k: Key, m': Machine, cloud': Cloud, s': Sys)
    requires Inv(s) && k in s.machines
    requires MInv(s.cluster, cloud', k, m') && OnlyOf(s.cloud, cloud', OfMachine(k))
    requires s' == s.(machines := s.machines[k := m'], cloud := cloud')
    ensures Inv(s')
  {
    ClusterPartKeeps(s, k, m', cloud', s');
    OtherMachinesKeep(s, k, cloud');
  }

  lemma CCallsKeep(cloud: Cloud, cloud': Cloud, o: Owner)
    requires CCalls(cloud) && OnlyOf(cloud, cloud', o)
    ensures CCalls(cloud')
  {
  }

  lemma ClusterChangeLeaves(c: Cluster, c': Cluster, cloud: Cloud, cloud': Cloud, j: Key, m: Machine)
    requires MInv(c, cloud, j, m) && RoutesMade(cloud)
    requires ClusterChange(c, c') && OnlyOf(cloud, cloud', OfCluster)
    ensures MInv(c', cloud', j, m)
  {
    OthersKeep(c, cloud, cloud', OfCluster, j, m);
    ClusterChangeKeeps(c, c', cloud', j, m);
  }

  /** A change of the cluster and of its own part of the cloud. */
  lemma ClusterActionKeeps(s: Sys, c': Cluster, cloud': Cloud, s': Sys)
    requires Inv(s) && COk(cloud', c') && OnlyOf(s.cloud, cloud', OfCluster) && ClusterChange(s.cluster, c')
    requires cloud'.routes == s.cloud.routes && cloud'.lostRoutes == s.cloud.lostRoutes
    requires s.infraReady && !c'.deletionSeen ==> Complete(c'.obj)
    requires s' == s.(cluster := c', cloud := cloud')
    ensures Inv(s')
  {
    CCallsKeep(s.cloud, cloud', OfCluster);
    BelongKeeps(s, s', OfCluster);
    forall j | j in s'.machines ensures MInv(s'.cluster, s'.cloud, j, s'.machines[j]) {
      ClusterChangeLeaves(s.cluster, c', s.cloud, cloud', j, s.machines[j]);
    }
  }

  /** A change of one machine that leaves the cloud alone. */
  lemma QuietActionKeeps(s: Sys, k: Key, m': Machine, s': Sys)
    requires Inv(s) && k in s.machines && MInv(s.cluster, s.cloud, k, m')
    requires s' == s.(machines := s.machines[k := m'])
    ensures Inv(s')
  {
    BelongKeeps(s, s', OfMachine(k));
  }

  lemma EditKeeps(c: Cluster, cloud: Cloud, k: Key, m: Machine, spec: MachineSpec)
    requires MInv(c, cloud, k, m) && MachineUpdateAdmitted(m.obj.spec, spec)
    ensures MInv(c, cloud, k, m.(obj := m.obj.(spec := spec),
                                 edited := m.edited || spec.providerID != m.obj.spec.providerID))
  {
  }

  lemma RequestKeeps(c: Cluster, cloud: Cloud, k: Key, m: Machine)
    requires MInv(c, cloud, k, m)
    ensures MInv(c, cloud, k, m.(deleting := true))
  {
  }

  lemma RemoveKeeps(c: Cluster, cloud: Cloud, k: Key, m: Machine)
    requires MInv(c, cloud, k, m) && m.deleting && !m.obj.finalizer
    ensures MInv(c, cloud, k, m.(exists_ := false))
  {
  }

  lemma NewMachineIsOk(s: Sys, k: Key, cfg: MachineConfig, spec: MachineSpec)
    requires Belong(s) && k !in s.machines && !s.cluster.deleting
    ensures MInv(s.cluster, s.cloud, k, NewMachine(cfg, spec))
  {
    var m := NewMachine(cfg, spec);
    assert MLedger(s.cloud, k, m);
    assert MRoutes(s.cluster, s.cloud, k, m);
    assert MCalls(s.cluster, s.cloud, k, m);
  }

  lemma AddKeeps(s: Sys, k: Key, cfg: MachineConfig, spec: MachineSpec)
    requires Inv(s) && k !in s.machines && !s.cluster.deleting
    ensures Inv(s.(machines := s.machines[k := NewMachine(cfg, spec)]))
  {
    NewMachineIsOk(s, k, cfg, spec);
  }

  lemma EditClusterKeeps(s: Sys, spec: ClusterSpec)
    requires Inv(s) && ClusterUpdateAdmitted(s.cluster.obj.spec, spec)
    ensures Inv(s.(cluster := s.cluster.(obj := s.cluster.obj.(spec := spec))))
  {
    var c' := s.cluster.(obj := s.cluster.obj.(spec := spec));
    ClusterActionKeeps(s, c', s.cloud, s.(cluster := c'));
  }

  lemma DeleteClusterKeeps(s: Sys)
    requires Inv(s) && Enabled(s, RequestClusterDelete)
    ensures Inv(s.(cluster := s.cluster.(deleting := true)))
  {
    var s' := s.(cluster := s.cluster.(deleting := true));
    forall j | j in s'.machines ensures MInv(s'.cluster, s'.cloud, j, s'.machines[j]) {
    }
  }

  lemma {:induction false} InitKeeps(s: Sys)
    requires Init(s)
    ensures Inv(s)
  {
  }

  lemma MachineStepKeeps(s: Sys, k: Key, r: Reply)
    requires Inv(s) && StepEnabled(s, k, r)
    ensures Inv(ApplyStep(s, k, r))
  {
    var c, m, s' := s.cluster, s.machines[k], ApplyStep(s, k, r);
    MoveKeeps(c, s.infraReady, s.cloud, k, m, r, s'.machines[k], s'.cloud);
    StepOnlyOf(c, s.infraReady, s.cloud, k, m, r, s'.machines[k], s'.cloud);
    MachineActionKeeps(s, k, s'.machines[k], s'.cloud, s');
  }

  lemma MachineCrashKeeps(s: Sys, k: Key)
    requires Inv(s) && k in s.machines && s.machines[k].pass.Run?
    ensures Inv(ApplyCrash(s, k))
  {
    CrashKeeps(s, k);
    CrashOnlyOf(s, k);
    MachineActionKeeps(s, k, ApplyCrash(s, k).machines[k], ApplyCrash(s, k).cloud, ApplyCrash(s, k));
  }

  lemma MachineBeginKeeps(s: Sys, k: Key)
    requires Inv(s) && k in s.machines && s.machines[k].pass.Idle?
    ensures Inv(ApplyBegin(s, k))
  {
    BeginKeeps(s, k);
    QuietActionKeeps(s, k, ApplyBegin(s, k).machines[k], ApplyBegin(s, k));
  }

  lemma ClusterStepMoves(s: Sys, r: Reply)
    requires Inv(s) && CStepEnabled(s, r)
    ensures var s' := CApplyStep(s, r);
      && CMoves(s.cloud, s.cluster, r, s'.cluster, s'.cloud)
      && s'.cloud == s.cloud.(res := s'.cloud.res, calls := CStepCalls(s.cloud, s.cluster.pass))
      && s' == s.(cluster := s'.cluster, cloud := s'.cloud)
  {
  }

  lemma StaysComplete(s: Sys, r: Reply)
    requires Inv(s) && CStepEnabled(s, r) && ClusterChange(s.cluster, CApplyStep(s, r).cluster)
    ensures s.infraReady && !CApplyStep(s, r).cluster.deletionSeen ==> Complete(CApplyStep(s, r).cluster.obj)
  {
  }

  lemma ClusterStepKeeps(s: Sys, r: Reply)
    requires Inv(s) && CStepEnabled(s, r)
    ensures Inv(CApplyStep(s, r))
  {
    var s', c := CApplyStep(s, r), s.cluster;
    ClusterStepMoves(s, r);
    CMoveKeeps(s.cloud, c, r, s'.cluster, s'.cloud);
    CStepOnlyOf(s.cloud, c, r, s'.cluster, s'.cloud);
    CStepChange(s.cloud, c, r, s'.cluster, s'.cloud);
    StaysComplete(s, r);
    ClusterActionKeeps(s, s'.cluster, s'.cloud, s');
  }

  lemma ClusterCrashKeeps(s: Sys)
    requires Inv(s) && s.cluster.pass.CRun?
    ensures Inv(CApplyCrash(s))
  {
    var s' := CApplyCrash(s);
    CCrashKeeps(s);
    CCrashOnlyOf(s);
    ClusterActionKeeps(s, s'.cluster, s'.cloud, s');
  }

  lemma ClusterBeginKeeps(s: Sys)
    requires Inv(s) && s.cluster.pass.CIdle?
    ensures Inv(CApplyBegin(s))
  {
    var s' := CApplyBegin(s);
    CBeginKeeps(s);
    ClusterActionKeeps(s, s'.cluster, s'.cloud, s');
  }

  lemma RequestActionKeeps(s: Sys, k: Key)
    requires Inv(s) && Enabled(s, RequestDelete(k))
    ensures Inv(Apply(s, RequestDelete(k)))
  {
    RequestKeeps(s.cluster, s.cloud, k, s.machines[k]);
    QuietActionKeeps(s, k, s.machines[k].(deleting := true), Apply(s, RequestDelete(k)));
  }

  lemma RemoveActionKeeps(s: Sys, k: Key)
    requires Inv(s) && Enabled(s, RemoveObject(k))
    ensures Inv(Apply(s, RemoveObject(k)))
  {
    RemoveKeeps(s.cluster, s.cloud, k, s.machines[k]);
    QuietActionKeeps(s, k, s.machines[k].(exists_ := false), Apply(s, RemoveObject(k)));
  }

  lemma EditActionKeeps(s: Sys, k: Key, spec: MachineSpec)
    requires Inv(s) && Enabled(s, EditMachine(k, spec))
    ensures Inv(Apply(s, EditMachine(k, spec)))
  {
    EditKeeps(s.cluster, s.cloud, k, s.machines[k], spec);
    QuietActionKeeps(s, k, Apply(s, EditMachine(k, spec)).machines[k], Apply(s, EditMachine(k, spec)));
  }

  lemma RemoveClusterKeeps(s: Sys)
    requires Inv(s) && Enabled(s, RemoveCluster)
    ensures Inv(Apply(s, RemoveCluster))
  {
    ClusterActionKeeps(s, s.cluster.(exists_ := false), s.cloud, Apply(s, RemoveCluster));
  }

  lemma InfraReadyKeeps(s: Sys)
    requires Inv(s) && Enabled(s, SetInfraReady)
    ensures Inv(Apply(s, SetInfraReady))
  {
  }

  lemma PassActionKeeps(s: Sys, a: Action)
    requires Inv(s) && Enabled(s, a) && (a.Begin? || a.Step? || a.Crash? || a.CBegin? || a.CStep? || a.CCrash?)
    ensures Inv(Apply(s, a))
  {
    match a
    case Begin(k) => MachineBeginKeeps(s, k);
    case Step(k, r) => MachineStepKeeps(s, k, r);
    case Crash(k) => MachineCrashKeeps(s, k);
    case CBegin => ClusterBeginKeeps(s);
    case CStep(r) => ClusterStepKeeps(s, r);
    case CCrash => ClusterCrashKeeps(s);
  }

  lemma UserMachineActionKeeps(s: Sys, a: Action)
    requires Inv(s) && Enabled(s, a) && (a.AddMachine? || a.RequestDelete? || a.RemoveObject? || a.EditMachine?)
    ensures Inv(Apply(s, a))
  {
    match a
    case AddMachine(k, cfg, spec) => AddKeeps(s, k, cfg, spec);
    case RequestDelete(k) => RequestActionKeeps(s, k);
    case RemoveObject(k) => RemoveActionKeeps(s, k);
    case EditMachine(k, spec) => EditActionKeeps(s, k, spec);
  }

  lemma UserClusterActionKeeps(s: Sys, a: Action)
    requires Inv(s) && Enabled(s, a)
    requires a.RequestClusterDelete? || a.RemoveCluster? || a.EditCluster? || a.SetInfraReady?
    ensures Inv(Apply(s, a))
  {
    match a
    case RequestClusterDelete => DeleteClusterKeeps(s);
    case RemoveCluster => RemoveClusterKeeps(s);
    case EditCluster(spec) => EditClusterKeeps(s, spec);
    case SetInfraReady => InfraReadyKeeps(s);
  }

  lemma ApplyKeeps(s: Sys, a: Action)
    requires Inv(s) && Enabled(s, a)
    ensures Inv(Apply(s, a))
  {
    if a.AddMachine? || a.RequestDelete? || a.RemoveObject? || a.EditMachine? {
      UserMachineActionKeeps(s, a);
    } else if a.RequestClusterDelete? || a.RemoveCluster? || a.EditCluster? || a.SetInfraReady? {
      UserClusterActionKeeps(s, a);
    } else {
      PassActionKeeps(s, a);
    }
  }

  lemma {:induction false} ExecKeeps(s: Sys, run: seq<Action>)
    requires Inv(s) && IsRun(s, run)
    ensures Inv(Exec(s, run))
    decreases |run|
  {
    if run != [] {
      ApplyKeeps(s, run[0]);
      ExecKeeps(Apply(s, run[0]), run[1..]);
    }
  }

  lemma ReachableInv(s: Sys)
    requires Reachable(s)
    ensures Inv(s)
  {
    var init, run :| Init(init) && IsRun(init, run) && Exec(init, run) == s;
    InitKeeps(init);
    ExecKeeps(init, run);
  }
}
