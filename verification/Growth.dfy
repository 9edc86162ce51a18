/** What no action undoes: over any run, recorded IDs are write-once, specs are frozen and
    deletion only goes forward. */
module Growth {
  import opened Api
  import opened System
  import opened Invariant
  import opened MachineSteps
  import opened ClusterSteps
  import opened Preservation

  predicate Stays(a: Id, b: Id)
  { a.Uuid? ==> b == a }

  /** Hook, attachment, instance, finalizer: lexicographic, most significant first. */
  function Measure(hook: bool, obj: MachineObj): nat
  {
    (if hook then 8 else 0) + (if obj.status.attachment.Uuid? then 4 else 0)
    + (if obj.status.instance.Uuid? then 2 else 0) + (if obj.finalizer then 1 else 0)
  }

  function CMeasure(obj: ClusterObj): nat
  {
    (if obj.status.subnet.Uuid? then 8 else 0) + (if obj.status.floatingIP.Uuid? then 4 else 0)
    + (if obj.status.sshKey.Uuid? then 2 else 0) + (if obj.finalizer then 1 else 0)
  }

  ghost predicate MGrows(m: Machine, m': Machine)
  {
    var st, st' := m.obj.status, m'.obj.status;
    && m'.cfg == m.cfg && EraseProviderID(m'.obj.spec) == EraseProviderID(m.obj.spec)
    && (m.deleting ==> m'.deleting) && (m.deletionSeen ==> m'.deletionSeen) && (m.edited ==> m'.edited)
    && Stays(m.first, m'.first)
    && m.cleanDeletes <= m'.cleanDeletes && m.failedDeletes <= m'.failedDeletes
    && (!m'.deletionSeen ==>
          && Stays(st.flavor, st'.flavor) && Stays(st.instance, st'.instance)
          && Stays(st.attachment, st'.attachment) && (st.ready ==> st'.ready) && (m.hook ==> m'.hook))
    && (m.deletionSeen ==>
          (m'.hook ==> m.hook) && Measure(m'.hook, m'.obj) <= Measure(m.hook, m.obj))
  }

  predicate CGrows(c: Cluster, c': Cluster)
  {
    var st, st' := c.obj.status, c'.obj.status;
    && EraseEndpoint(c'.obj.spec) == EraseEndpoint(c.obj.spec)
    && (c.deleting ==> c'.deleting) && (c.deletionSeen ==> c'.deletionSeen)
    && Stays(st.project, st'.project)
    && (c.first.floatingIP.Uuid? ==> st'.ip == st.ip)
    && Stays(c.first.network, c'.first.network) && Stays(c.first.floatingIP, c'.first.floatingIP)
    && Stays(c.first.sshKey, c'.first.sshKey)
    && c.cleanDeletes <= c'.cleanDeletes && c.failedDeletes <= c'.failedDeletes
    && (!c'.deletionSeen ==>
          && Stays(st.network, st'.network) && Stays(st.subnet, st'.subnet)
          && Stays(st.floatingIP, st'.floatingIP) && Stays(st.sshKey, st'.sshKey)
          && (st.ready ==> st'.ready))
    && (c.deletionSeen ==> CMeasure(c'.obj) <= CMeasure(c.obj))
  }

  /** No machine is forgotten, and nothing of the above is undone. */
  ghost predicate Grows(s: Sys, s': Sys)
  {
    && CGrows(s.cluster, s'.cluster)
    && forall k :: k in s.machines ==> k in s'.machines && MGrows(s.machines[k], s'.machines[k])
  }

  lemma GrowsTransitive(s: Sys, t: Sys, u: Sys)
    requires Grows(s, t) && Grows(t, u)
    ensures Grows(s, u)
  {
    forall k | k in s.machines ensures k in u.machines && MGrows(s.machines[k], u.machines[k]) {
      assert MGrows(s.machines[k], t.machines[k]) && MGrows(t.machines[k], u.machines[k]);
    }
  }

  lemma DeletePatchShrinks(c: Cluster, cloud: Cloud, k: Key, m: Machine)
    requires MPassOk(c, cloud, k, m) && m.pass.Run? && m.pass.del && IsPatch(m.pass.pc)
    ensures Measure(m.hook, Merged(m)) <= Measure(m.hook, m.obj)
  {
  }

  lemma MoveShrinks(c: Cluster, infraReady: bool, cloud: Cloud, k: Key, m: Machine, r: Reply,
                    m': Machine, cloud': Cloud)
    requires Moves(c, infraReady, cloud, k, m, r, m', cloud') && m.deletionSeen
    ensures (m'.hook ==> m.hook) && Measure(m'.hook, m'.obj) <= Measure(m.hook, m.obj)
  {
    assert m.pass.del && !m.pass.pc.UpdateHook?;
    if IsPatch(m.pass.pc) {
      DeletePatchShrinks(c, cloud, k, m);
    }
    StepShrinks(m, PassNext(m.cfg, m.pass, r), r, m');
  }

  lemma StepShrinks(m: Machine, next: MPass, r: Reply, m': Machine)
    requires m.pass.Run? && !m.pass.pc.UpdateHook? && m' == StepMachine(m, next, r)
    requires IsPatch(m.pass.pc) ==> Measure(m.hook, Merged(m)) <= Measure(m.hook, m.obj)
    ensures (m'.hook ==> m.hook) && Measure(m'.hook, m'.obj) <= Measure(m.hook, m.obj)
  {
  }

  lemma NormalPatchGrows(c: Cluster, cloud: Cloud, k: Key, m: Machine)
    requires MPassOk(c, cloud, k, m) && m.pass.Run? && !m.pass.del && IsPatch(m.pass.pc)
    ensures Stays(m.obj.status.flavor, Merged(m).status.flavor)
    ensures Stays(m.obj.status.instance, Merged(m).status.instance)
    ensures Stays(m.obj.status.attachment, Merged(m).status.attachment)
    ensures m.obj.status.ready ==> Merged(m).status.ready
  {
  }

  lemma MoveHolds(c: Cluster, infraReady: bool, cloud: Cloud, k: Key, m: Machine, r: Reply,
                  m': Machine, cloud': Cloud)
    requires Moves(c, infraReady, cloud, k, m, r, m', cloud') && !m.deletionSeen
    ensures Stays(m.obj.status.flavor, m'.obj.status.flavor)
    ensures Stays(m.obj.status.instance, m'.obj.status.instance)
    ensures Stays(m.obj.status.attachment, m'.obj.status.attachment)
    ensures m.obj.status.ready ==> m'.obj.status.ready
    ensures m.hook ==> m'.hook
  {
    if IsPatch(m.pass.pc) {
      NormalPatchGrows(c, cloud, k, m);
    }
  }

  lemma PatchKeepsSpec(m: Machine)
    requires m.pass.Run?
    requires SpecCarried(m.pass.mem.spec, m.obj.spec) && SpecCarried(m.pass.before.spec, m.obj.spec)
    ensures EraseProviderID(Merged(m).spec) == EraseProviderID(m.obj.spec)
  {
  }

  lemma FirstInstance(c: Cluster, cloud: Cloud, k: Key, m: Machine)
    requires MStored(c, cloud, k, m) && MPassOk(c, cloud, k, m) && m.pass.Run? && m.pass.pc.PatchInstance?
    ensures m.first.Unset?
  {
  }

  lemma StepKeepsSpec(m: Machine, next: MPass, r: Reply, m': Machine)
    requires m.pass.Run? && m' == StepMachine(m, next, r)
    requires SpecCarried(m.pass.mem.spec, m.obj.spec) && SpecCarried(m.pass.before.spec, m.obj.spec)
    ensures EraseProviderID(m'.obj.spec) == EraseProviderID(m.obj.spec)
  {
    PatchKeepsSpec(m);
  }

  lemma CountKeepsHistory(m: Machine, next: MPass)
    ensures var m' := Count(m, next);
      && m' == m.(pass := next, cleanDeletes := m'.cleanDeletes, failedDeletes := m'.failedDeletes)
      && m.cleanDeletes <= m'.cleanDeletes && m.failedDeletes <= m'.failedDeletes
  {
  }

  ghost predicate SameHistory(m: Machine, m': Machine)
  {
    && m'.cfg == m.cfg && m'.deleting == m.deleting && m'.deletionSeen == m.deletionSeen
    && m'.edited == m.edited && m.cleanDeletes <= m'.cleanDeletes && m.failedDeletes <= m'.failedDeletes
  }

  lemma CountedHistory(m: Machine, o: MachineObj, hook: bool, first: Id, next: MPass)
    ensures var m' := Count(m.(obj := o, hook := hook, first := first), next);
      SameHistory(m, m') && m'.first == first
  {
    CountKeepsHistory(m.(obj := o, hook := hook, first := first), next);
  }

  lemma StepCounts(m: Machine, next: MPass, r: Reply)
    requires m.pass.Run?
    ensures var m' := StepMachine(m, next, r);
      && m' == Count(m.(obj := m'.obj, hook := m'.hook, first := m'.first), next)
      && (m'.first == m.first || m.pass.pc.PatchInstance?)
  {
  }

  lemma StepKeepsHistory(m: Machine, next: MPass, r: Reply, m': Machine)
    requires m.pass.Run? && m' == StepMachine(m, next, r)
    requires m.pass.pc.PatchInstance? ==> m.first.Unset?
    ensures SameHistory(m, m') && Stays(m.first, m'.first)
  {
    StepCounts(m, next, r);
    CountedHistory(m, m'.obj, m'.hook, m'.first, next);
  }

  lemma MoveGrows(c: Cluster, infraReady: bool, cloud: Cloud, k: Key, m: Machine, r: Reply,
                  m': Machine, cloud': Cloud)
    requires Moves(c, infraReady, cloud, k, m, r, m', cloud')
    ensures MGrows(m, m')
  {
    if m.pass.pc.PatchInstance? {
      FirstInstance(c, cloud, k, m);
    }
    StepKeepsHistory(m, PassNext(m.cfg, m.pass, r), r, m');
    StepKeepsSpec(m, PassNext(m.cfg, m.pass, r), r, m');
    if m.deletionSeen {
      MoveShrinks(c, infraReady, cloud, k, m, r, m', cloud');
    } else {
      MoveHolds(c, infraReady, cloud, k, m, r, m', cloud');
    }
  }

  lemma CMoveShrinks(cloud: Cloud, c: Cluster, r: Reply, c': Cluster, cloud': Cloud)
    requires CMoves(cloud, c, r, c', cloud') && c.deletionSeen
    ensures CMeasure(c'.obj) <= CMeasure(c.obj)
  {
  }

  lemma CMoveHolds(cloud: Cloud, c: Cluster, r: Reply, c': Cluster, cloud': Cloud)
    requires CMoves(cloud, c, r, c', cloud') && !c'.deletionSeen
    ensures var st, st' := c.obj.status, c'.obj.status;
      && Stays(st.network, st'.network) && Stays(st.subnet, st'.subnet)
      && Stays(st.floatingIP, st'.floatingIP) && Stays(st.sshKey, st'.sshKey)
      && (st.ready ==> st'.ready)
  {
  }

  lemma CMoveGrows(cloud: Cloud, c: Cluster, r: Reply, c': Cluster, cloud': Cloud)
    requires CMoves(cloud, c, r, c', cloud')
    ensures CGrows(c, c')
  {
    if c.deletionSeen {
      CMoveShrinks(cloud, c, r, c', cloud');
    }
    if !c'.deletionSeen {
      CMoveHolds(cloud, c, r, c', cloud');
    }
  }

  /** An action of or on one machine. */
  predicate OnMachine(a: Action)
  {
    a.Begin? || a.Step? || a.Crash? || a.RequestDelete? || a.RemoveObject? || a.EditMachine?
  }

  /** An action that writes no status, no hook and no finalizer. */
  lemma QuietGrows(m: Machine, m': Machine)
    requires m'.cfg == m.cfg && m'.hook == m.hook && m'.first == m.first
    requires m'.obj == m.obj.(spec := m'.obj.spec) && MachineUpdateAdmitted(m.obj.spec, m'.obj.spec)
    requires (m.deleting ==> m'.deleting) && (m.deletionSeen ==> m'.deletionSeen) && (m.edited ==> m'.edited)
    requires m.cleanDeletes <= m'.cleanDeletes && m.failedDeletes <= m'.failedDeletes
    ensures MGrows(m, m')
  {
  }

  lemma StepGrows(s: Sys, k: Key, r: Reply)
    requires Inv(s) && StepEnabled(s, k, r)
    ensures MGrows(s.machines[k], ApplyStep(s, k, r).machines[k])
  {
    var s' := ApplyStep(s, k, r);
    MoveGrows(s.cluster, s.infraReady, s.cloud, k, s.machines[k], r, s'.machines[k], s'.cloud);
  }

  lemma QuietActionGrows(s: Sys, a: Action)
    requires Enabled(s, a) && OnMachine(a) && !a.Step?
    ensures MGrows(s.machines[a.key], Apply(s, a).machines[a.key])
  {
    var m, m' := s.machines[a.key], Apply(s, a).machines[a.key];
    if a.Crash? {
      assert m' == Count(m, Idle(Failed));
      CountKeepsHistory(m, Idle(Failed));
    } else if a.EditMachine? {
      assert m'.obj == m.obj.(spec := a.mspec);
    }
    QuietGrows(m, m');
  }

  lemma MachineActionGrows(s: Sys, a: Action)
    requires Inv(s) && Enabled(s, a) && OnMachine(a)
    ensures MGrows(s.machines[a.key], Apply(s, a).machines[a.key])
  {
    if a.Step? {
      StepGrows(s, a.key, a.r);
    } else {
      QuietActionGrows(s, a);
    }
  }

  lemma OtherActionGrows(s: Sys, a: Action)
    requires Inv(s) && Enabled(s, a) && !OnMachine(a)
    ensures CGrows(s.cluster, Apply(s, a).cluster)
  {
    var s' := Apply(s, a);
    if a.CStep? {
      CMoveGrows(s.cloud, s.cluster, a.r, s'.cluster, s'.cloud);
    }
  }

  lemma OthersUntouched(s: Sys, a: Action)
    requires Enabled(s, a)
    ensures forall k :: k in s.machines ==>
              k in Apply(s, a).machines && ((OnMachine(a) && k == a.key) || Apply(s, a).machines[k] == s.machines[k])
    ensures OnMachine(a) ==> a.key in s.machines && Apply(s, a).cluster == s.cluster
  {
  }

  lemma GrowsBy(s: Sys, s': Sys, a: Action)
    requires forall k :: k in s.machines ==>
      k in s'.machines && ((OnMachine(a) && k == a.key) || s'.machines[k] == s.machines[k])
    requires if OnMachine(a)
      then a.key in s.machines && s'.cluster == s.cluster && MGrows(s.machines[a.key], s'.machines[a.key])
      else CGrows(s.cluster, s'.cluster)
    ensures Grows(s, s')
  {
  }

  lemma ApplyGrows(s: Sys, a: Action)
    requires Inv(s) && Enabled(s, a)
    ensures Grows(s, Apply(s, a))
  {
    var s' := Apply(s, a);
    OthersUntouched(s, a);
    if OnMachine(a) {
      MachineActionGrows(s, a);
    } else {
      OtherActionGrows(s, a);
    }
    GrowsBy(s, s', a);
  }

  lemma GrowsOn(s: Sys, a: Action, u: Sys)
    requires Inv(s) && Enabled(s, a) && Grows(Apply(s, a), u)
    ensures Grows(s, u)
  {
    ApplyGrows(s, a);
    GrowsTransitive(s, Apply(s, a), u);
  }

  lemma GrowsNowhere(s: Sys)
    ensures Grows(s, s)
  {
  }

  lemma {:induction false} RunGrowsFrom(s: Sys, run: seq<Action>)
    requires Inv(s) && IsRun(s, run)
    ensures Grows(s, Exec(s, run))
    decreases |run|
  {
    if run == [] {
      GrowsNowhere(s);
    } else {
      ApplyKeeps(s, run[0]);
      RunGrowsFrom(Apply(s, run[0]), run[1..]);
      GrowsOn(s, run[0], Exec(s, run));
    }
  }
}
