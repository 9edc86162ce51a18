/** Whole runs in which any patch may be applied by half. */
module TornRuns {
  import opened Api
  import opened System
  import opened Invariant
  import opened Preservation
  import opened Runs
  import opened TornPatches

  datatype TornAction = Whole(a: Action) | Half(key: Key, status: bool) | CHalf(status: bool)

  /** A half that is sent must be admitted: the webhooks look at the spec half only. */
  predicate TEnabled(s: Sys, x: TornAction)
  {
    match x
    case Whole(a) => Enabled(s, a)
    case Half(k, status) =>
      k in s.machines && s.machines[k].pass.Run? && IsPatch(s.machines[k].pass.pc)
      && if status then s.machines[k].exists_ else PatchAllowed(s.machines[k])
    case CHalf(status) =>
      s.cluster.pass.CRun? && CIsPatch(s.cluster.pass.pc)
      && if status then s.cluster.exists_ else CPatchAllowed(s.cluster)
  }

  function TApply(s: Sys, x: TornAction): Sys
    requires TEnabled(s, x)
  {
    match x
    case Whole(a) => Apply(s, a)
    case Half(k, status) => Torn(s, k, status)
    case CHalf(status) => CTorn(s, status)
  }

  predicate TIsRun(s: Sys, run: seq<TornAction>)
    decreases |run|
  {
    run == [] || (TEnabled(s, run[0]) && TIsRun(TApply(s, run[0]), run[1..]))
  }

  function TExec(s: Sys, run: seq<TornAction>): Sys
    requires TIsRun(s, run)
    decreases |run|
  {
    if run == [] then s else TExec(TApply(s, run[0]), run[1..])
  }

  // ---------- the history of edits decides nothing ----------

  /** The same but for the record of which provider IDs were edited. */
  ghost predicate Alike(s: Sys, t: Sys)
  {
    && s.cluster == t.cluster && s.infraReady == t.infraReady && s.cloud == t.cloud
    && s.machines.Keys == t.machines.Keys
    && forall k :: k in s.machines ==> AlikeMachines(s.machines[k], t.machines[k])
  }

  ghost predicate AlikeMachines(m: Machine, n: Machine)
  { m == n.(edited := m.edited) }

  lemma SamePatch(m: Machine, n: Machine)
    requires AlikeMachines(m, n) && m.pass.Run?
    ensures Merged(m) == Merged(n) && PatchAllowed(m) == PatchAllowed(n)
  {
  }

  lemma SameReplies(c: Cluster, infraReady: bool, cloud: Cloud, m: Machine, n: Machine, r: Reply)
    requires AlikeMachines(m, n) && m.pass.Run?
    ensures MayReply(c, infraReady, cloud, m, r) == MayReply(c, infraReady, cloud, n, r)
  {
    SamePatch(m, n);
  }

  lemma CountCommutes(n: Machine, edited: bool, next: MPass)
    ensures Count(n.(edited := edited), next) == Count(n, next).(edited := edited)
  {
  }

  lemma CountAlike(m: Machine, n: Machine, next: MPass)
    requires AlikeMachines(m, n)
    ensures AlikeMachines(Count(m, next), Count(n, next))
  {
    CountCommutes(n, m.edited, next);
  }

  lemma StoredAlike(m: Machine, n: Machine, r: Reply)
    requires AlikeMachines(m, n) && m.pass.Run?
    ensures AlikeMachines(Stored(m, r), Stored(n, r))
  {
    SamePatch(m, n);
  }

  lemma StepMachineAlike(m: Machine, n: Machine, next: MPass, r: Reply)
    requires AlikeMachines(m, n) && m.pass.Run?
    ensures AlikeMachines(StepMachine(m, next, r), StepMachine(n, next, r))
  {
    StoredAlike(m, n, r);
    CountAlike(Stored(m, r), Stored(n, r), next);
  }

  lemma ReplacedAlike(s: Sys, t: Sys, k: Key, m: Machine, n: Machine, cloud: Cloud)
    requires Alike(s, t) && AlikeMachines(m, n)
    ensures Alike(s.(machines := s.machines[k := m], cloud := cloud),
                  t.(machines := t.machines[k := n], cloud := cloud))
  {
  }

  lemma StepAlike(s: Sys, t: Sys, k: Key, r: Reply)
    requires Alike(s, t) && StepEnabled(s, k, r)
    ensures StepEnabled(t, k, r) && Alike(ApplyStep(s, k, r), ApplyStep(t, k, r))
  {
    var m, n := s.machines[k], t.machines[k];
    assert AlikeMachines(m, n);
    SameReplies(s.cluster, s.infraReady, s.cloud, m, n, r);
    var next := PassNext(m.cfg, m.pass, r);
    StepMachineAlike(m, n, next, r);
    ReplacedAlike(s, t, k, StepMachine(m, next, r), StepMachine(n, next, r), StepCloud(s.cloud, k, m.pass, next, r));
  }

  lemma BeginAlike(s: Sys, t: Sys, k: Key)
    requires Alike(s, t) && Enabled(s, Begin(k))
    ensures Enabled(t, Begin(k)) && Alike(ApplyBegin(s, k), ApplyBegin(t, k))
  {
    assert AlikeMachines(s.machines[k], t.machines[k]);
  }

  lemma CrashAlike(s: Sys, t: Sys, k: Key)
    requires Alike(s, t) && Enabled(s, Crash(k))
    ensures Enabled(t, Crash(k)) && Alike(ApplyCrash(s, k), ApplyCrash(t, k))
  {
    CountAlike(s.machines[k], t.machines[k], Idle(Failed));
  }

  lemma ClusterAlike(s: Sys, t: Sys, a: Action)
    requires Alike(s, t) && Enabled(s, a) && (a.CBegin? || a.CStep? || a.CCrash?)
    ensures Enabled(t, a) && Alike(Apply(s, a), Apply(t, a))
  {
  }

  lemma AddAlike(s: Sys, t: Sys, k: Key, cfg: MachineConfig, spec: MachineSpec)
    requires Alike(s, t) && Enabled(s, AddMachine(k, cfg, spec))
    ensures Enabled(t, AddMachine(k, cfg, spec))
    ensures Alike(Apply(s, AddMachine(k, cfg, spec)), Apply(t, AddMachine(k, cfg, spec)))
  {
    ReplacedAlike(s, t, k, NewMachine(cfg, spec), NewMachine(cfg, spec), s.cloud);
  }

  lemma UserClusterAlike(s: Sys, t: Sys, a: Action)
    requires Alike(s, t) && Enabled(s, a)
    requires a.RequestClusterDelete? || a.RemoveCluster? || a.EditCluster? || a.SetInfraReady?
    ensures Enabled(t, a) && Alike(Apply(s, a), Apply(t, a))
  {
    if a.RequestClusterDelete? {
      forall k | k in t.machines ensures !t.machines[k].exists_ {
        assert AlikeMachines(s.machines[k], t.machines[k]);
      }
    }
  }

  lemma UserAlike(s: Sys, t: Sys, a: Action)
    requires Alike(s, t) && Enabled(s, a) && (a.RequestDelete? || a.RemoveObject? || a.EditMachine?)
    ensures Enabled(t, a) && Alike(Apply(s, a), Apply(t, a))
  {
    assert AlikeMachines(s.machines[a.key], t.machines[a.key]);
  }

  lemma WholeAlike(s: Sys, t: Sys, a: Action)
    requires Alike(s, t) && Enabled(s, a)
    ensures Enabled(t, a) && Alike(Apply(s, a), Apply(t, a))
  {
    match a
    case Begin(k) => BeginAlike(s, t, k);
    case Step(k, r) => StepAlike(s, t, k, r);
    case Crash(k) => CrashAlike(s, t, k);
    case CBegin => ClusterAlike(s, t, a);
    case CStep(_) => ClusterAlike(s, t, a);
    case CCrash => ClusterAlike(s, t, a);
    case AddMachine(k, cfg, spec) => AddAlike(s, t, k, cfg, spec);
    case RequestDelete(_) => UserAlike(s, t, a);
    case RemoveObject(_) => UserAlike(s, t, a);
    case EditMachine(_, _) => UserAlike(s, t, a);
    case _ => UserClusterAlike(s, t, a);
  }

  lemma HalfAlike(s: Sys, t: Sys, k: Key, status: bool)
    requires Alike(s, t) && TEnabled(s, Half(k, status))
    ensures TEnabled(t, Half(k, status)) && Alike(Torn(s, k, status), Torn(t, k, status))
  {
    var m, n := s.machines[k], t.machines[k];
    assert AlikeMachines(m, n);
    SamePatch(m, n);
    TornMachineAlike(m, n, status);
  }

  lemma TornMachineAlike(m: Machine, n: Machine, status: bool)
    requires AlikeMachines(m, n) && m.pass.Run?
    ensures AlikeMachines(TornMachine(m, status), TornMachine(n, status))
  {
    SamePatch(m, n);
    CountAlike(TornStore(m, status), TornStore(n, status), Idle(Failed));
  }

  /** One more action, whole or torn, leads from covered to covered. */
  lemma ActionIsCovered(s: Sys, t: Sys, x: TornAction) returns (u: Sys)
    requires Alike(s, t) && Reachable(t) && TEnabled(s, x)
    ensures Reachable(u) && Alike(TApply(s, x), u)
  {
    match x
    case Whole(a) =>
      WholeAlike(s, t, a);
      ReachableStep(t, a);
      u := Apply(t, a);
    case Half(k, status) =>
      HalfAlike(s, t, k, status);
      u := TornPatchIsCovered(t, k, status);
      AlikeOn(Torn(s, k, status), Torn(t, k, status), u, k);
    case CHalf(status) =>
      CTornPatchIsCovered(t, status);
      u := CTorn(t, status);
  }

  lemma AlikeOn(s: Sys, t: Sys, u: Sys, k: Key)
    requires Alike(s, t) && k in t.machines && k in u.machines
    requires u == t.(machines := t.machines[k := t.machines[k].(edited := u.machines[k].edited)])
    ensures Alike(s, u)
  {
    forall j | j in s.machines ensures AlikeMachines(s.machines[j], u.machines[j]) {
      assert AlikeMachines(s.machines[j], t.machines[j]);
    }
  }

  /** Whatever patches are applied by half, and however often, a run ends where some run ends in
      which none is, but for the record of edited provider IDs: what holds of the objects, the
      passes and the cloud in every reachable state holds there. */
  lemma {:induction false} TornRunsAreCovered(s: Sys, t: Sys, run: seq<TornAction>) returns (u: Sys)
    requires Reachable(t) && Alike(s, t) && TIsRun(s, run)
    ensures Reachable(u) && Alike(TExec(s, run), u)
    decreases |run|
  {
    if run == [] {
      u := t;
    } else {
      var t' := ActionIsCovered(s, t, run[0]);
      u := TornRunsAreCovered(TApply(s, run[0]), t', run[1..]);
    }
  }

  // ---------- the provider ID ----------

  predicate IsEdit(x: TornAction, k: Key)
  { x.Whole? && x.a.EditMachine? && x.a.key == k }

  /** No user edits machine `k`, and the patch that records its instance is not applied in its
      status half alone. */
  predicate Calm(s: Sys, run: seq<TornAction>, k: Key)
    requires TIsRun(s, run)
    decreases |run|
  {
    run == [] ||
      (&& !IsEdit(run[0], k)
       && !(run[0] == Half(k, true) && s.machines[k].pass.pc.PatchInstance?)
       && Calm(TApply(s, run[0]), run[1..], k))
  }

  predicate NamesItsInstance(o: MachineObj)
  { o.status.instance.Uuid? ==> o.spec.providerID == Some(ProviderID(o.status.instance)) }

  /** The ID is right, and no pass is going to send another one, but to record an instance. */
  predicate Named(m: Machine)
  {
    NamesItsInstance(m.obj) && (m.pass.Run? ==> SpecKept(m.pass, m.obj))
  }

  predicate SpecKept(p: MPass, o: MachineObj)
    requires p.Run?
  {
    && (if p.pc.PatchInstance? then SpecCarried(p.mem.spec, o.spec) && NamesItsInstance(p.mem)
        else p.mem.spec == o.spec)
    && (!p.del && o.status.instance.Unset? ==> p.before.spec == o.spec)
  }

  /** `q` is further on in the same pass, with the same spec and no instance to record. */
  predicate SpecStays(p: MPass, q: MPass)
    requires p.Run?
  { q.Run? ==> !q.pc.PatchInstance? && q.mem.spec == p.mem.spec && q.before == p.before && q.del == p.del }

  lemma GuardsKeepSpec(cfg: MachineConfig, p: MPass)
    requires p.Run?
    ensures SpecStays(p, GoFlavor(cfg, p)) && SpecStays(p, GoImage(cfg, p)) && SpecStays(p, GoInstance(cfg, p))
    ensures SpecStays(p, GoAttach(cfg, p)) && SpecStays(p, GoReady(cfg, p))
  {
  }

  lemma DeleteGuardsKeepSpec(cfg: MachineConfig, p: MPass)
    requires p.Run?
    ensures SpecStays(p, GoHook(cfg, p)) && SpecStays(p, GoDestroy(cfg, p)) && SpecStays(p, GoFinalizerOff(p))
  {
  }

  lemma {:induction false} ScanKeepsSpec(cfg: MachineConfig, p: MPass, rest: seq<Image>, found: bool)
    requires p.Run?
    ensures SpecStays(p, Scan(cfg, p, rest, found))
    decreases |rest|
  {
    if rest == [] {
      GuardsKeepSpec(cfg, p);
    } else {
      ScanKeepsSpec(cfg, p, rest[1..], found);
    }
  }

  /** The code sets the provider ID with the instance and never else. */
  lemma PassKeepsSpec(cfg: MachineConfig, p: MPass, r: Reply)
    requires p.Run? && Fits(p.pc, r) && !p.pc.CreateInstance?
    ensures SpecStays(p, PassNext(cfg, p, r))
  {
    match p.pc
    case Connect => GuardsKeepSpec(cfg, p);
    case PatchFlavor => GuardsKeepSpec(cfg, p);
    case ListImages => if r.GotImages? { ScanKeepsSpec(cfg, p, r.images, false); }
    case PatchImage(rest) => ScanKeepsSpec(cfg, p, rest, true);
    case PatchInstance => GuardsKeepSpec(cfg, p);
    case PatchAttachment => GuardsKeepSpec(cfg, p);
    case Prepare => if r.GotOwner? { DeleteGuardsKeepSpec(cfg, p.(hook := r.hook)); }
    case PatchLateDetached => DeleteGuardsKeepSpec(cfg, p);
    case PatchDestroyed => DeleteGuardsKeepSpec(cfg, p);
    case _ =>
  }

  lemma CreationNames(cfg: MachineConfig, p: MPass, r: Reply)
    requires p.Run? && Fits(p.pc, r) && p.pc.CreateInstance?
    ensures var q := PassNext(cfg, p, r);
      q.Run? ==>
        && q.pc.PatchInstance? && SpecCarried(q.mem.spec, p.mem.spec) && NamesItsInstance(q.mem)
        && q.before == p.before && q.del == p.del
  {
  }

  /** What is known of a pending patch. */
  lemma PatchKeepsName(c: Cluster, cloud: Cloud, k: Key, m: Machine)
    requires MStored(c, cloud, k, m) && MPassOk(c, cloud, k, m) && m.pass.Run? && IsPatch(m.pass.pc) && Named(m)
    ensures Merged(m).spec == m.pass.mem.spec && NamesItsInstance(Merged(m))
    ensures !m.pass.pc.PatchInstance? ==> Merged(m).status.instance == m.obj.status.instance || m.pass.del
    ensures m.pass.pc.PatchInstance? ==> Merged(m).status.instance.Uuid? && m.obj.status.instance.Unset?
    ensures m.pass.del ==> !m.pass.pc.PatchInstance?
  {
  }
  lemma StoredIsNamed(c: Cluster, cloud: Cloud, k: Key, m: Machine, r: Reply)
    requires MStored(c, cloud, k, m) && MPassOk(c, cloud, k, m) && m.pass.Run? && Named(m)
    ensures NamesItsInstance(Stored(m, r).obj)
    ensures Stored(m, r).obj.spec == m.obj.spec || (Took(r) && m.pass.pc.PatchInstance?)
    ensures Stored(m, r).obj.status.instance.Unset? ==> m.obj.status.instance.Unset? || m.pass.del
    ensures Took(r) && IsPatch(m.pass.pc) ==> Stored(m, r).obj.spec == m.pass.mem.spec
    ensures Took(r) && m.pass.pc.PatchInstance? ==> Stored(m, r).obj.status.instance.Uuid?
  {
    if IsPatch(m.pass.pc) {
      PatchKeepsName(c, cloud, k, m);
    }
  }

  /** From one call to the next, with `o` stored before and `o'` after it. */
  lemma SpecKeptOn(p: MPass, q: MPass, o: MachineObj, o': MachineObj)
    requires p.Run? && q.Run? && SpecKept(p, o) && q.before == p.before && q.del == p.del
    requires if q.pc.PatchInstance? then SpecCarried(q.mem.spec, p.mem.spec) && NamesItsInstance(q.mem)
             else q.mem.spec == p.mem.spec
    requires o'.spec == if p.pc.PatchInstance? then p.mem.spec else o.spec
    requires q.pc.PatchInstance? ==> !p.pc.PatchInstance?
    requires o'.status.instance.Unset? ==> (o.status.instance.Unset? && !p.pc.PatchInstance?) || p.del
    ensures SpecKept(q, o')
  {
  }

  lemma CountedIsNamed(m: Machine, q: MPass)
    requires NamesItsInstance(m.obj) && (q.Run? ==> SpecKept(q, m.obj))
    ensures Named(Count(m, q))
  {
  }

  lemma StepKeepsName(c: Cluster, infraReady: bool, cloud: Cloud, k: Key, m: Machine, r: Reply)
    requires MStored(c, cloud, k, m) && MPassOk(c, cloud, k, m) && m.pass.Run?
    requires MayReply(c, infraReady, cloud, m, r) && Named(m)
    ensures Named(StepMachine(m, PassNext(m.cfg, m.pass, r), r))
  {
    StoredIsNamed(c, cloud, k, m, r);
    var q := PassNext(m.cfg, m.pass, r);
    if m.pass.pc.CreateInstance? {
      CreationNames(m.cfg, m.pass, r);
    } else {
      PassKeepsSpec(m.cfg, m.pass, r);
    }
    if q.Run? {
      SpecKeptOn(m.pass, q, m.obj, Stored(m, r).obj);
    }
    CountedIsNamed(Stored(m, r), q);
  }

  lemma TornIsNamed(c: Cluster, cloud: Cloud, k: Key, m: Machine, status: bool)
    requires MStored(c, cloud, k, m) && MPassOk(c, cloud, k, m) && m.pass.Run? && Named(m) && IsPatch(m.pass.pc)
    requires m.pass.pc.PatchInstance? ==> !status
    ensures Named(TornMachine(m, status))
  {
    PatchKeepsName(c, cloud, k, m);
  }

  /** What any other action does to machine `k`: at most it ends or begins a pass. */
  lemma QuietAction(t: Sys, a: Action, k: Key)
    requires Enabled(t, a) && k in t.machines && !(a.Step? && a.key == k) && !IsEdit(Whole(a), k)
    ensures k in Apply(t, a).machines
    ensures var m, m' := t.machines[k], Apply(t, a).machines[k];
      && m'.obj == m.obj && m'.first == m.first
      && (m'.pass.Run? && m'.pass != m.pass ==> m'.pass.pc.LookupCluster? && m'.pass.mem == m.obj == m'.pass.before)
  {
  }

  lemma StepOfMachine(t: Sys, k: Key, r: Reply)
    requires StepEnabled(t, k, r)
    ensures k in ApplyStep(t, k, r).machines
    ensures ApplyStep(t, k, r).machines[k] ==
              StepMachine(t.machines[k], PassNext(t.machines[k].cfg, t.machines[k].pass, r), r)
  {
  }

  lemma ActionKeepsName(t: Sys, a: Action, k: Key)
    requires Inv(t) && Enabled(t, a) && k in t.machines && Named(t.machines[k]) && !IsEdit(Whole(a), k)
    ensures k in Apply(t, a).machines && Named(Apply(t, a).machines[k])
  {
    if a.Step? && a.key == k {
      assert MInv(t.cluster, t.cloud, k, t.machines[k]);
      StepKeepsName(t.cluster, t.infraReady, t.cloud, k, t.machines[k], a.r);
      StepOfMachine(t, k, a.r);
    } else {
      QuietAction(t, a, k);
    }
  }

  lemma HalfKeepsName(t: Sys, j: Key, status: bool, k: Key)
    requires Inv(t) && TEnabled(t, Half(j, status)) && k in t.machines && Named(t.machines[k])
    requires j == k && t.machines[k].pass.pc.PatchInstance? ==> !status
    ensures k in Torn(t, j, status).machines && Named(Torn(t, j, status).machines[k])
  {
    if j == k {
      assert MInv(t.cluster, t.cloud, k, t.machines[k]);
      TornIsNamed(t.cluster, t.cloud, k, t.machines[k], status);
    }
  }

  lemma ActionKeepsNameAlike(s: Sys, t: Sys, x: TornAction, k: Key)
    requires Alike(s, t) && Inv(t) && TEnabled(s, x) && k in s.machines && Named(s.machines[k]) && !IsEdit(x, k)
    requires x == Half(k, true) ==> !s.machines[k].pass.pc.PatchInstance?
    ensures k in TApply(s, x).machines && Named(TApply(s, x).machines[k])
  {
    assert AlikeMachines(s.machines[k], t.machines[k]);
    match x
    case Whole(a) =>
      WholeAlike(s, t, a);
      ActionKeepsName(t, a, k);
      assert AlikeMachines(Apply(s, a).machines[k], Apply(t, a).machines[k]);
    case Half(j, status) =>
      HalfAlike(s, t, j, status);
      HalfKeepsName(t, j, status, k);
      assert AlikeMachines(Torn(s, j, status).machines[k], Torn(t, j, status).machines[k]);
    case CHalf(_) =>
  }

  lemma {:induction false} CalmRunsName(s: Sys, t: Sys, run: seq<TornAction>, k: Key)
    requires Alike(s, t) && Reachable(t) && k in s.machines && Named(s.machines[k])
    requires TIsRun(s, run) && Calm(s, run, k)
    ensures k in TExec(s, run).machines && Named(TExec(s, run).machines[k])
    decreases |run|
  {
    if run != [] {
      ReachableInv(t);
      ActionKeepsNameAlike(s, t, run[0], k);
      var u := ActionIsCovered(s, t, run[0]);
      CalmRunsName(TApply(s, run[0]), u, run[1..], k);
    }
  }

  /** Over a run with any torn patches but one, the status half of the patch that records the
      instance, a provider ID that no user edits names the recorded instance. */
  lemma ProviderIDNamesTheInstance(s: Sys, run: seq<TornAction>, k: Key)
    requires Reachable(s) && k in s.machines && s.machines[k].pass.Idle? && !s.machines[k].edited
    requires TIsRun(s, run) && Calm(s, run, k)
    ensures k in TExec(s, run).machines && NamesItsInstance(TExec(s, run).machines[k].obj)
  {
    ReachableInv(s);
    assert MInv(s.cluster, s.cloud, k, s.machines[k]);
    CalmRunsName(s, s, run, k);
  }

  // ---------- and the exception ----------

  /** The instance is made, and no pass has a provider ID to send. */
  predicate Settled(m: Machine, id: Option<string>, first: Id)
  {
    && m.obj.spec.providerID == id && m.first == first && first.Uuid?
    && (m.pass.Run? ==> !m.pass.pc.PatchInstance? && m.pass.mem.spec == m.pass.before.spec)
  }

  lemma SettledMakesNothing(c: Cluster, cloud: Cloud, k: Key, m: Machine, id: Option<string>, first: Id)
    requires MStored(c, cloud, k, m) && MPassOk(c, cloud, k, m) && m.pass.Run? && Settled(m, id, first)
    ensures !m.pass.pc.CreateInstance? && Merged(m).spec.providerID == id
  {
  }

  lemma StepKeepsSettled(c: Cluster, infraReady: bool, cloud: Cloud, k: Key, m: Machine, r: Reply,
                         id: Option<string>, first: Id)
    requires MStored(c, cloud, k, m) && MPassOk(c, cloud, k, m) && m.pass.Run?
    requires MayReply(c, infraReady, cloud, m, r) && Settled(m, id, first)
    ensures Settled(StepMachine(m, PassNext(m.cfg, m.pass, r), r), id, first)
  {
    SettledMakesNothing(c, cloud, k, m, id, first);
    PassKeepsSpec(m.cfg, m.pass, r);
  }

  lemma ActionKeepsSettled(t: Sys, a: Action, k: Key, id: Option<string>, first: Id)
    requires Inv(t) && Enabled(t, a) && k in t.machines && Settled(t.machines[k], id, first) && !IsEdit(Whole(a), k)
    ensures k in Apply(t, a).machines && Settled(Apply(t, a).machines[k], id, first)
  {
    if a.Step? && a.key == k {
      assert MInv(t.cluster, t.cloud, k, t.machines[k]);
      StepKeepsSettled(t.cluster, t.infraReady, t.cloud, k, t.machines[k], a.r, id, first);
      StepOfMachine(t, k, a.r);
    } else {
      QuietAction(t, a, k);
    }
  }

  lemma HalfKeepsSettled(t: Sys, j: Key, status: bool, k: Key, id: Option<string>, first: Id)
    requires Inv(t) && TEnabled(t, Half(j, status)) && k in t.machines && Settled(t.machines[k], id, first)
    ensures k in Torn(t, j, status).machines && Settled(Torn(t, j, status).machines[k], id, first)
  {
    if j == k {
      assert MInv(t.cluster, t.cloud, k, t.machines[k]);
      SettledMakesNothing(t.cluster, t.cloud, k, t.machines[k], id, first);
    }
  }

  lemma ActionKeepsSettledAlike(s: Sys, t: Sys, x: TornAction, k: Key, id: Option<string>, first: Id)
    requires Alike(s, t) && Inv(t) && TEnabled(s, x) && !IsEdit(x, k)
    requires k in s.machines && Settled(s.machines[k], id, first)
    ensures k in TApply(s, x).machines && Settled(TApply(s, x).machines[k], id, first)
  {
    assert AlikeMachines(s.machines[k], t.machines[k]);
    match x
    case Whole(a) =>
      WholeAlike(s, t, a);
      ActionKeepsSettled(t, a, k, id, first);
      assert AlikeMachines(Apply(s, a).machines[k], Apply(t, a).machines[k]);
    case Half(j, status) =>
      HalfAlike(s, t, j, status);
      HalfKeepsSettled(t, j, status, k, id, first);
      assert AlikeMachines(Torn(s, j, status).machines[k], Torn(t, j, status).machines[k]);
    case CHalf(_) =>
  }

  lemma {:induction false} RunsKeepSettled(s: Sys, t: Sys, run: seq<TornAction>, k: Key, id: Option<string>, first: Id)
    requires Alike(s, t) && Reachable(t) && k in s.machines && Settled(s.machines[k], id, first)
    requires TIsRun(s, run) && forall x :: x in run ==> !IsEdit(x, k)
    ensures k in TExec(s, run).machines && Settled(TExec(s, run).machines[k], id, first)
    decreases |run|
  {
    if run != [] {
      ReachableInv(t);
      ActionKeepsSettledAlike(s, t, run[0], k, id, first);
      var u := ActionIsCovered(s, t, run[0]);
      RunsKeepSettled(TApply(s, run[0]), u, run[1..], k, id, first);
    }
  }

  lemma TornIsSettled(c: Cluster, cloud: Cloud, k: Key, m: Machine)
    requires MPassOk(c, cloud, k, m) && m.pass.Run? && m.pass.pc.PatchInstance?
    ensures Settled(TornMachine(m, true), m.obj.spec.providerID, m.pass.mem.status.instance)
  {
  }

  lemma RecordedTillDeletion(s: Sys, t: Sys, k: Key)
    requires Alike(s, t) && Reachable(t) && k in s.machines && !s.machines[k].deletionSeen
    ensures s.machines[k].obj.status.instance == s.machines[k].first
  {
    ReachableInv(t);
    assert AlikeMachines(s.machines[k], t.machines[k]);
    assert MInv(t.cluster, t.cloud, k, t.machines[k]);
  }

  /** That one half leaves a recorded instance without its provider ID, and no pass ever makes
      it good: whatever happens then, the ID stays as it was unless a user edits it. */
  lemma TornInstanceStaysUnnamed(s: Sys, k: Key, run: seq<TornAction>)
    requires Reachable(s) && TEnabled(s, Half(k, true)) && s.machines[k].pass.pc.PatchInstance?
    requires TIsRun(Torn(s, k, true), run) && forall x :: x in run ==> !IsEdit(x, k)
    ensures var m, t := s.machines[k], TExec(Torn(s, k, true), run);
      && k in t.machines && t.machines[k].obj.spec.providerID == m.obj.spec.providerID
      && (!t.machines[k].deletionSeen ==> t.machines[k].obj.status.instance == m.pass.mem.status.instance)
  {
    var m, torn := s.machines[k], Torn(s, k, true);
    var id, first := m.obj.spec.providerID, m.pass.mem.status.instance;
    TornStandsSettled(s, k);
    var t := ActionIsCovered(s, s, Half(k, true));
    RunsKeepSettled(torn, t, run, k, id, first);
    var u := TornRunsAreCovered(torn, t, run);
    if !TExec(torn, run).machines[k].deletionSeen {
      RecordedTillDeletion(TExec(torn, run), u, k);
    }
  }

  lemma TornStandsSettled(s: Sys, k: Key)
    requires Reachable(s) && TEnabled(s, Half(k, true)) && s.machines[k].pass.pc.PatchInstance?
    ensures k in Torn(s, k, true).machines
    ensures var m := s.machines[k];
      Settled(Torn(s, k, true).machines[k], m.obj.spec.providerID, m.pass.mem.status.instance)
  {
    ReachableInv(s);
    assert MInv(s.cluster, s.cloud, k, s.machines[k]);
    TornIsSettled(s.cluster, s.cloud, k, s.machines[k]);
  }
}
