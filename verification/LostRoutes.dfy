/** A route whose attachment ID was never stored outlives its machine. Safety.RouteLeftExactly
    says that this is the one way in which "withdrawn before drain" fails; here it happens. */
module LostRoutes {
  import opened Api
  import opened System
  import opened Invariant
  import opened Preservation
  import opened Runs
  import opened Ledger

  /** An attach call may do its work and still report an error. */
  lemma AttachMayBeLost(s: Sys, k: Key)
    requires Reachable(s) && k in s.machines && s.machines[k].pass.Run? && s.machines[k].pass.pc.Attach?
    ensures StepEnabled(s, k, Fail(true, Unset)) && Reachable(ApplyStep(s, k, Fail(true, Unset)))
    ensures var t := ApplyStep(s, k, Fail(true, Unset));
      && t.machines[k].pass.Idle? && t.machines[k].obj == s.machines[k].obj
      && t.machines[k].obj.status.attachment.Unset?
      && (t.cluster.obj.status.floatingIP, t.machines[k].obj.status.instance) in t.cloud.routes
      && t.machines[k].obj.status.instance in t.cloud.lostRoutes
  {
    ReachableInv(s);
    AttachesTheRecorded(s.cluster, s.cloud, k, s.machines[k]);
    AttachFails(s, k);
    LeadsNowhere(s);
    LeadsOn(s, s, Step(k, Fail(true, Unset)));
  }

  lemma AttachFails(s: Sys, k: Key)
    requires k in s.machines && s.machines[k].pass.Run? && s.machines[k].pass.pc.Attach?
    ensures StepEnabled(s, k, Fail(true, Unset))
    ensures var t, p := ApplyStep(s, k, Fail(true, Unset)), s.machines[k].pass;
      && t.machines[k].pass == Idle(Failed) && t.machines[k].obj == s.machines[k].obj && t.cluster == s.cluster
      && (p.clu.floatingIP, p.mem.status.instance) in t.cloud.routes
      && p.mem.status.instance in t.cloud.lostRoutes
  {
  }

  lemma AttachesTheRecorded(c: Cluster, cloud: Cloud, k: Key, m: Machine)
    requires MStored(c, cloud, k, m) && MPassOk(c, cloud, k, m) && m.pass.Run? && m.pass.pc.Attach?
    ensures m.obj.status.attachment.Unset? && m.pass.mem.status.instance == m.obj.status.instance
    ensures m.pass.clu.floatingIP == c.obj.status.floatingIP
  {
  }

  /** An idle machine in deletion with an instance and no recorded attachment. */
  predicate Doomed(s: Sys, k: Key)
  {
    && k in s.machines && s.machines[k].exists_ && s.machines[k].deleting && s.cluster.exists_
    && s.machines[k].pass.Idle? && s.machines[k].obj.finalizer && s.machines[k].cfg.controlPlane
    && s.machines[k].obj.status.attachment.Unset? && s.machines[k].obj.status.instance.Uuid?
  }

  /** `t` is `s` but for machine `k`, and its object is the same. */
  ghost predicate OnlyPass(s: Sys, t: Sys, k: Key)
  {
    && k in s.machines && k in t.machines
    && t.machines[k].obj == s.machines[k].obj && t.machines[k].cfg == s.machines[k].cfg
    && t.machines[k].deleting == s.machines[k].deleting && t.machines[k].exists_ == s.machines[k].exists_
    && t.cluster == s.cluster && t.cloud == s.cloud
  }

  /** Begin a delete pass and look up the cluster. */
  lemma LookedUp(o: Sys, s: Sys, k: Key) returns (t: Sys)
    requires Reachable(o) && Leads(o, s) && Doomed(s, k)
    ensures Leads(o, t) && OnlyPass(s, t, k) && t.machines[k].hook == s.machines[k].hook
    ensures exists hook ::
      t.machines[k].pass ==
        Run(Prepare, true, hook, View(s.cluster.obj), false, false, s.machines[k].obj, s.machines[k].obj)
  {
    var s1 := ApplyBegin(s, k);
    LeadsOn(o, s, Begin(k));
    var r := GotCluster(View(s.cluster.obj), false, false);
    t := ApplyStep(s1, k, r);
    LeadsOn(o, s1, Step(k, r));
  }

  /** Fetch the owner too. */
  lemma Prepared(o: Sys, s: Sys, k: Key) returns (t: Sys)
    requires Reachable(o) && Leads(o, s) && Doomed(s, k)
    ensures Leads(o, t) && OnlyPass(s, t, k) && t.machines[k].hook == s.machines[k].hook
    ensures var p := t.machines[k].pass;
      && p.Run? && p.del && p.before == s.machines[k].obj && p.mem == s.machines[k].obj
      && p.clu == View(s.cluster.obj) && p.pc == (if s.machines[k].hook then RemoveHook else Destroy)
  {
    var u := LookedUp(o, s, k);
    var owner := GotOwner(s.machines[k].hook);
    t := ApplyStep(u, k, owner);
    LeadsOn(o, u, Step(k, owner));
  }

  /** The first delete pass removes the hook and leaves the route. */
  lemma HookPass(o: Sys, s: Sys, k: Key) returns (t: Sys)
    requires Reachable(o) && Leads(o, s) && Doomed(s, k) && s.machines[k].hook
    ensures Leads(o, t) && OnlyPass(s, t, k) && t.machines[k].pass == Idle(HookRemoved) && !t.machines[k].hook
  {
    var u := Prepared(o, s, k);
    t := ApplyStep(u, k, Done);
    LeadsOn(o, u, Step(k, Done));
  }

  lemma DestroyStep(o: Sys, s: Sys, u: Sys, k: Key) returns (t: Sys)
    requires Reachable(o) && Leads(o, u) && Doomed(s, k) && OnlyPass(s, u, k) && !u.machines[k].hook
    requires var p := u.machines[k].pass;
      p.Run? && p.del && p.before == s.machines[k].obj && p.mem == s.machines[k].obj
      && p.clu == View(s.cluster.obj) && p.pc == Destroy
    ensures Leads(o, t) && k in t.machines && t.cloud.routes == s.cloud.routes && !t.machines[k].hook
    ensures var i := s.machines[k].obj.status.instance; i in t.cloud.res && !t.cloud.res[i].live
    ensures var m := t.machines[k];
      && m.exists_ && m.obj == s.machines[k].obj && m.pass.Run? && m.pass.del
      && m.pass.pc == PatchDestroyed && m.pass.before == m.obj
      && m.pass.mem == m.obj.(status := m.obj.status.(instance := Unset))
  {
    LeadsOn(o, u, Step(k, Done));
    OwnVM(u, k);
    t := ApplyStep(u, k, Done);
  }

  lemma OwnVM(u: Sys, k: Key)
    requires Reachable(u) && k in u.machines && u.machines[k].pass.Run? && u.machines[k].pass.pc.Destroy?
    ensures MadeAs(u.cloud, u.machines[k].pass.mem.status.instance, Instance, u.machines[k].pass.clu.project,
                   OfMachine(k))
  {
    ReachableInv(u);
    assert MInv(u.cluster, u.cloud, k, u.machines[k]);
    DestroysItsOwn(u.cluster, u.cloud, k, u.machines[k]);
  }

  lemma ForgetStep(o: Sys, v: Sys, k: Key) returns (t: Sys)
    requires Reachable(o) && Leads(o, v) && k in v.machines && v.machines[k].pass.Run?
    requires var m := v.machines[k];
      && m.exists_ && m.obj.finalizer && m.pass.pc == PatchDestroyed && m.pass.before == m.obj
      && m.obj.status.instance.Uuid? && m.pass.mem == m.obj.(status := m.obj.status.(instance := Unset))
    ensures Leads(o, t) && k in t.machines && t.cloud == v.cloud && t.machines[k].hook == v.machines[k].hook
    ensures var m, m' := v.machines[k], t.machines[k];
      m'.exists_ && m'.obj.finalizer && m'.obj.spec == m.obj.spec
      && m'.pass == m.pass.(pc := PatchFinalizerOff, mem := m.pass.mem.(finalizer := false))
  {
    t := ApplyStep(v, k, Done);
    LeadsOn(o, v, Step(k, Done));
  }

  lemma ReleaseStep(o: Sys, v: Sys, k: Key) returns (t: Sys)
    requires Reachable(o) && Leads(o, v) && k in v.machines && v.machines[k].pass.Run?
    requires var m := v.machines[k];
      && m.exists_ && m.obj.finalizer && m.pass.pc == PatchFinalizerOff
      && m.pass.before.finalizer && !m.pass.mem.finalizer && m.pass.before.spec == m.pass.mem.spec
    ensures Leads(o, t) && k in t.machines && t.cloud == v.cloud && t.machines[k].hook == v.machines[k].hook
    ensures !t.machines[k].obj.finalizer
  {
    t := ApplyStep(v, k, Done);
    LeadsOn(o, v, Step(k, Done));
  }

  /** The second one destroys the VM and lets the object go, and leaves the route. */
  lemma DestroyPass(o: Sys, s: Sys, k: Key) returns (t: Sys)
    requires Reachable(o) && Leads(o, s) && Doomed(s, k) && !s.machines[k].hook
    ensures Leads(o, t) && GoneButRouted(s, t, k)
  {
    var u := Prepared(o, s, k);
    var v := DestroyStep(o, s, u, k);
    var w := ForgetStep(o, v, k);
    t := ReleaseStep(o, w, k);
  }

  /** Machine `k` has been let go and its VM destroyed, with all its routes still in place. */
  predicate GoneButRouted(s: Sys, t: Sys, k: Key)
    requires k in s.machines
  {
    var i := s.machines[k].obj.status.instance;
    && k in t.machines && !t.machines[k].obj.finalizer && !t.machines[k].hook
    && t.cloud.routes == s.cloud.routes && i in t.cloud.res && !t.cloud.res[i].live
  }

  /** Two undisturbed delete passes over a machine whose attachment is not recorded destroy its
      VM, and every route it had is still there. */
  lemma UnrecordedRouteOutlivesMachine(s: Sys, k: Key)
    requires Reachable(s) && Doomed(s, k)
    ensures exists t :: Leads(s, t) && GoneButRouted(s, t, k)
  {
    LeadsNowhere(s);
    if s.machines[k].hook {
      var u := HookPass(s, s, k);
      var t := DestroyPass(s, u, k);
    } else {
      var t := DestroyPass(s, s, k);
    }
  }
}
