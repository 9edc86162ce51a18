/** The invariant of the transition system, object by object. */
module Invariant {
  import opened Api
  import opened BootData
  import opened System

  // ---------- the cluster ----------

  predicate Complete(c: ClusterObj)
  {
    c.status.project.Uuid? && c.status.subnet.Uuid? && c.status.floatingIP.Uuid?
    && c.status.sshKey.Uuid?
  }

  /** The ID that a create call brought back and that the pending patch is to store. */
  function CFlight(p: CPass): Id
  { if p.CRun? && p.pc.Record? then Slot(p.mem.status, p.pc.kind) else Unset }

  function Flight(p: MPass): Id
  { if p.Run? && p.pc.PatchInstance? then p.mem.status.instance else Unset }

  /** Only the flags of history may differ from a resource as its create call tagged it. */
  predicate MadeAs(cloud: Cloud, id: Id, kind: Kind, project: Id, owner: Owner)
  {
    id in cloud.res && cloud.res[id].kind == kind && cloud.res[id].project == project
    && cloud.res[id].owner == owner
  }

  predicate CSlotOk(cloud: Cloud, c: Cluster, kind: Kind)
  {
    var id, first := Slot(c.obj.status, kind), FirstOf(c.first, kind);
    && (id.Uuid? ==>
          && c.obj.finalizer && c.obj.status.project.Uuid? && id == first
          && MadeAs(cloud, id, kind, c.obj.status.project, OfCluster)
          && cloud.res[id].kept && !cloud.res[id].lost
          && (!c.deletionSeen ==> cloud.res[id].live))
    && (!c.deletionSeen ==> id == first)
    && (first.Uuid? ==> c.obj.status.project.Uuid?)
    && (first.Uuid? && id.Unset? ==>
          first in cloud.res && cloud.res[first].owner == OfCluster && !cloud.res[first].live)
  }

  predicate CStored(cloud: Cloud, c: Cluster)
  {
    && CSlotOk(cloud, c, Network) && CSlotOk(cloud, c, FloatingIP) && CSlotOk(cloud, c, SshKey)
    && (c.obj.status.subnet.Uuid? <==> c.obj.status.network.Uuid?)
    && (c.obj.status.ready && !c.deletionSeen ==> Complete(c.obj))
    && (c.deletionSeen ==> c.deleting)
    && (c.obj.finalizer ==> c.exists_) && (!c.exists_ ==> c.deleting)
    && (c.cleanDeletes > 0 ==> !c.obj.finalizer && c.deletionSeen)
  }

  /** Each thing made for the cluster is kept, lost or in flight, and only one per kind is kept. */
  ghost predicate CLedger(cloud: Cloud, c: Cluster)
  {
    forall id :: id in cloud.res && cloud.res[id].owner == OfCluster ==>
      var r := cloud.res[id];
      && id.Uuid? && r.kind != Instance && r.project.Uuid?
      && (r.kept || r.lost || id == CFlight(c.pass)) && !(r.kept && r.lost)
      && (r.kept ==> id == FirstOf(c.first, r.kind))
      && (r.lost ==> r.live)
      && (id == CFlight(c.pass) ==> !r.kept && !r.lost && r.live)
  }

  predicate SlotCarried(b: Id, a: Id, o: Id)
  { a == o && (b.Unset? || b == o) }

  /** A slot in a creating pass: pending under `Record(kind)`, otherwise as stored. */
  predicate CSlotNormal(cloud: Cloud, c: Cluster, kind: Kind)
    requires c.pass.CRun?
  {
    var p := c.pass;
    var b, a, o := Slot(p.before.status, kind), Slot(p.mem.status, kind), Slot(c.obj.status, kind);
    if p.pc == Record(kind) then
      && b.Unset? && o.Unset? && a.Uuid?
      && MadeAs(cloud, a, kind, p.mem.status.project, OfCluster)
      && cloud.res[a].live && !cloud.res[a].kept && !cloud.res[a].lost
    else SlotCarried(b, a, o) && (p.pc == Create(kind) ==> a.Unset?)
  }

  predicate CPassNormal(cloud: Cloud, c: Cluster)
    requires c.pass.CRun?
  {
    var pc, b, a, o := c.pass.pc, c.pass.before.status, c.pass.mem.status, c.obj.status;
    && !c.deletionSeen && (pc.CLookupOwner? || c.pass.mem.finalizer)
    && (pc.CLookupOwner? || pc.CPatchFinalizer? || c.obj.finalizer)
    && (pc.CLookupOwner? ==> c.pass.mem.finalizer == c.pass.before.finalizer)
    && (c.pass.before.finalizer ==> c.obj.finalizer)
    && pc != Create(Instance) && pc != Record(Instance)
    && CSlotNormal(cloud, c, Network) && CSlotNormal(cloud, c, FloatingIP) && CSlotNormal(cloud, c, SshKey)
    && (if pc == Record(Network) then b.subnet.Unset? && o.subnet.Unset? && a.subnet.Uuid?
        else SlotCarried(b.subnet, a.subnet, o.subnet))
    && (o.project.Uuid? ==> a.project == o.project) && (b.project.Unset? || b.project == o.project)
    && (pc.Create? || pc.Record? || pc.CPatchReady? ==> a.project.Uuid?)
    && (pc == GetProject ==> a.project.Unset?)
    && (pc == Create(FloatingIP) || pc == Record(FloatingIP) ==> a.subnet.Uuid?)
    && (pc == Create(SshKey) || pc == Record(SshKey) ==> a.subnet.Uuid? && a.floatingIP.Uuid?)
    && (pc != Record(FloatingIP) ==> a.ip == o.ip)
    && (b.floatingIP == o.floatingIP ==> b.ip == o.ip)
    && (pc != CPatchReady ==> a.ready == o.ready) && (b.ready ==> o.ready)
    && (pc == CPatchReady ==>
          a.ready && Complete(c.pass.mem) && c.pass.mem.spec.endpoint == Desired(a))
    && (pc != CPatchReady ==> c.pass.mem.spec == c.pass.before.spec)
  }

  /** A slot in a deleting pass: pending under `Clear(kind)`, otherwise as stored. */
  predicate CSlotDelete(cloud: Cloud, c: Cluster, kind: Kind)
    requires c.pass.CRun?
  {
    var p := c.pass;
    var b, a, o := Slot(p.before.status, kind), Slot(p.mem.status, kind), Slot(c.obj.status, kind);
    if p.pc == Clear(kind) then
      a.Unset? && o.Uuid? && b == o && o in cloud.res && !cloud.res[o].live
    else a == o && (o.Uuid? ==> b == o) && (p.pc == Delete(kind) ==> a.Uuid?)
  }

  predicate CPassDelete(cloud: Cloud, c: Cluster)
    requires c.pass.CRun?
  {
    var pc, b, a, o := c.pass.pc, c.pass.before.status, c.pass.mem.status, c.obj.status;
    && c.deletionSeen && c.pass.before.finalizer == c.obj.finalizer
    && pc != Delete(Instance) && pc != Clear(Instance)
    && CSlotDelete(cloud, c, Network) && CSlotDelete(cloud, c, FloatingIP) && CSlotDelete(cloud, c, SshKey)
    && (if pc == Clear(Network) then a.subnet.Unset? && o.subnet.Uuid? && b.subnet == o.subnet
        else a.subnet == o.subnet && (o.subnet.Uuid? ==> b.subnet == o.subnet))
    && (pc == Delete(FloatingIP) || pc == Clear(FloatingIP) ==> a.subnet.Unset?)
    && (pc == Delete(SshKey) || pc == Clear(SshKey) ==> a.subnet.Unset? && a.floatingIP.Unset?)
    && b.project == o.project && a.project == o.project && b.ip == o.ip && a.ip == o.ip
    && b.ready == a.ready
    && (if pc == CPatchFinalizerOff
        then !c.pass.mem.finalizer && a.network.Unset? && a.floatingIP.Unset? && a.sshKey.Unset?
        else c.pass.mem.finalizer == c.pass.before.finalizer)
    && c.pass.mem.spec == c.pass.before.spec
  }

  predicate CPassOk(cloud: Cloud, c: Cluster)
  {
    c.pass.CRun? ==>
      && EraseEndpoint(c.pass.before.spec) == EraseEndpoint(c.obj.spec)
      && EraseEndpoint(c.pass.mem.spec) == EraseEndpoint(c.obj.spec)
      && if CDeletes(c.pass.pc) then CPassDelete(cloud, c) else CPassNormal(cloud, c)
  }

  ghost predicate CCalls(cloud: Cloud)
  {
    && (forall c :: c in cloud.calls && c.CreateCall? ==> c.project.Uuid?)
    && (forall c :: c in cloud.calls && c.DeleteCall? ==>
          MadeAs(cloud, c.id, c.kind, c.project, c.owner))
  }

  ghost predicate CInv(s: Sys)
  {
    && CStored(s.cloud, s.cluster) && CLedger(s.cloud, s.cluster)
    && CPassOk(s.cloud, s.cluster) && CCalls(s.cloud)
    && (s.infraReady && !s.cluster.deletionSeen ==> Complete(s.cluster.obj))
  }

  // ---------- one machine ----------

  predicate MStored(c: Cluster, cloud: Cloud, k: Key, m: Machine)
  {
    var st := m.obj.status;
    && (st.attachment.Uuid? ==>
          && m.hook && m.cfg.controlPlane && st.instance.Uuid? && st.instance !in cloud.lostRoutes
          && AttachCall(k, c.obj.status.project, c.obj.status.floatingIP, st.instance)
               in cloud.calls
          && (!m.deletionSeen ==> (c.obj.status.floatingIP, st.instance) in cloud.routes))
    && (st.instance.Uuid? ==>
          && m.obj.finalizer && m.first == st.instance && Complete(c.obj)
          && st.flavor.Uuid? && st.image.Uuid?
          && MadeAs(cloud, st.instance, Instance, c.obj.status.project, OfMachine(k))
          && cloud.res[st.instance].kept && !cloud.res[st.instance].lost
          && (!m.deletionSeen ==> cloud.res[st.instance].live)
          && (!m.edited ==> m.obj.spec.providerID == Some(ProviderID(st.instance))))
    && (!m.deletionSeen ==> st.instance == m.first)
    && (m.first.Uuid? && st.instance.Unset? ==>
          m.first in cloud.res && cloud.res[m.first].owner == OfMachine(k) && !cloud.res[m.first].live)
    && (m.obj.finalizer ==> m.exists_ && (m.deletionSeen || m.hook))
    && (st.ready && !m.deletionSeen ==>
          st.instance.Uuid? && (m.cfg.controlPlane ==> st.attachment.Uuid?))
    && (st.image.Uuid? ==> (m.obj.spec.image, st.image) in cloud.offered)
    && (m.deletionSeen ==> m.deleting) && (!m.exists_ ==> m.deleting)
    && (m.cleanDeletes > 0 ==> !m.hook && m.deletionSeen)
    && (m.cleanDeletes > 1 ==> !m.obj.finalizer)
    && (c.deleting ==> !m.exists_)
  }

  ghost predicate MLedger(cloud: Cloud, k: Key, m: Machine)
  {
    forall id :: id in cloud.res && cloud.res[id].owner == OfMachine(k) ==>
      var r := cloud.res[id];
      && id.Uuid? && r.kind == Instance
      && (r.kept || r.lost || id == Flight(m.pass)) && !(r.kept && r.lost)
      && (r.kept ==> id == m.first)
      && (r.lost ==> r.live)
      && (id == Flight(m.pass) ==> !r.kept && !r.lost && r.live)
  }

  /** The route is recorded, or its recording patch is pending. */
  predicate RouteHeld(m: Machine, i: Id)
  {
    m.obj.status.instance == i
    && (m.obj.status.attachment.Uuid? || (m.pass.Run? && m.pass.pc.PatchAttachment?))
  }

  ghost predicate MRoutes(c: Cluster, cloud: Cloud, k: Key, m: Machine)
  {
    && (forall rt :: rt in cloud.routes && rt.1 in cloud.res && cloud.res[rt.1].owner == OfMachine(k) ==>
          rt.0 == c.first.floatingIP && rt.0.Uuid? && (rt.1 in cloud.lostRoutes || RouteHeld(m, rt.1)))
    && forall i :: i in cloud.lostRoutes && i in cloud.res && cloud.res[i].owner == OfMachine(k) ==>
         (c.first.floatingIP, i) in cloud.routes
  }

  /** The user data comes of a text that the secret of machine `k` held when it was read. */
  ghost predicate FromSecret(cloud: Cloud, k: Key, cfg: MachineConfig, ip: string, user: Json)
  {
    exists text :: (k, text) in cloud.secrets && cfg.boot(text, ip) == Some(user)
  }

  ghost predicate MCalls(c: Cluster, cloud: Cloud, k: Key, m: Machine)
  {
    var calls, st, fip := cloud.calls, c.obj.status, c.first.floatingIP;
    && (forall x :: x in calls && x.AttachCall? && x.key == k ==>
          x.project == st.project && st.project.Uuid? && x.fip == fip && fip.Uuid?
          && x.instance == m.first && m.first.Uuid?)
    && (forall x :: x in calls && x.DetachCall? && x.key == k ==>
          AttachCall(k, x.project, x.fip, x.instance) in calls)
    && (forall x :: x in calls && x.CreateInstanceCall? && x.key == k ==>
          (m.obj.spec.image, x.image) in cloud.offered && x.project == st.project && st.project.Uuid?
          && fip.Uuid? && FromSecret(cloud, k, m.cfg, st.ip, x.user))
  }

  predicate SpecCarried(a: MachineSpec, o: MachineSpec)
  { a.flavor == o.flavor && a.image == o.image }

  predicate BeforeGate(pc: MPc)
  { pc.LookupCluster? || pc.UpdateHook? || pc.PatchFinalizer? || pc.Connect? }

  predicate DeletePc(pc: MPc)
  {
    pc.Prepare? || pc.Detach? || pc.PatchDetached? || pc.RemoveHook? || pc.LateDetach?
    || pc.PatchLateDetached? || pc.Destroy? || pc.PatchDestroyed? || pc.PatchFinalizerOff?
  }

  ghost predicate ImagesOffered(cloud: Cloud, images: seq<Image>)
  {
    forall i :: 0 <= i < |images| && images[i].name.Some? ==>
      (images[i].name.value, images[i].id) in cloud.offered
  }

  ghost predicate MPassNormal(c: Cluster, cloud: Cloud, k: Key, m: Machine)
    requires m.pass.Run?
  {
    var p := m.pass;
    var pc, b, a, o := p.pc, p.before.status, p.mem.status, m.obj.status;
    && !DeletePc(pc) && !m.deletionSeen
    && (pc.LookupCluster? || pc.UpdateHook? || pc.PatchFinalizer? || m.obj.finalizer)
    && (p.before.finalizer ==> m.obj.finalizer)
    && (if pc.LookupCluster? || pc.UpdateHook? then p.mem.finalizer == p.before.finalizer else p.mem.finalizer)
    && (pc.LookupCluster? || pc.UpdateHook? || m.hook) && (p.hook ==> m.hook)
    && (p.infra && m.exists_ ==> p.clu == View(c.obj) && Complete(c.obj))
    && (BeforeGate(pc) || (p.infra && p.bootstrap))
    && (if pc.PatchInstance? then
          && b.instance.Unset? && o.instance.Unset? && o.attachment.Unset? && a.instance.Uuid?
          && MadeAs(cloud, a.instance, Instance, p.clu.project, OfMachine(k))
          && cloud.res[a.instance].live && !cloud.res[a.instance].kept && !cloud.res[a.instance].lost
          && p.mem.spec.providerID == Some(ProviderID(a.instance))
        else SlotCarried(b.instance, a.instance, o.instance))
    && (if pc.PatchAttachment? then
          && b.attachment.Unset? && o.attachment.Unset? && a.attachment.Uuid? && a.instance.Uuid?
          && m.cfg.controlPlane && (p.clu.floatingIP, a.instance) in cloud.routes
          && AttachCall(k, p.clu.project, p.clu.floatingIP, a.instance) in cloud.calls
        else SlotCarried(b.attachment, a.attachment, o.attachment))
    && (if pc.PatchFlavor? then b.flavor.Unset? && o.flavor.Unset?
        else SlotCarried(b.flavor, a.flavor, o.flavor))
    && (pc.GetFlavor? ==> a.flavor.Unset?) && (pc.ListImages? ==> a.image.Unset?)
    && (a.image.Uuid? ==> (p.mem.spec.image, a.image) in cloud.offered)
    && (pc.PatchImage? ==> b.image.Unset? && ImagesOffered(cloud, pc.rest))
    && (if pc.PatchReady? then a.ready else a.ready == o.ready) && (b.ready ==> o.ready)
    && (pc.GetInstance? || pc.PatchReady? ==>
          a.instance.Uuid? && (m.cfg.controlPlane ==> a.attachment.Uuid?))
    && (pc.Attach? ==> m.cfg.controlPlane && a.instance.Uuid? && a.attachment.Unset?)
    && (pc.GetSecret? || pc.CreateInstance? ==> a.instance.Unset?)
    && (pc.GetSecret? || pc.CreateInstance? || pc.PatchInstance? ==> a.flavor.Uuid? && a.image.Uuid?)
    && (!pc.PatchImage? && a.image.Uuid? ==> o.image == a.image) && (b.image.Uuid? ==> a.image == b.image)
    && (pc.CreateInstance? ==> FromSecret(cloud, k, m.cfg, p.clu.ip, pc.user))
    && (!m.edited && o.instance.Uuid? ==> p.mem.spec.providerID == Some(ProviderID(o.instance)))
    && (o.instance.Unset? && !pc.PatchInstance? ==> p.mem.spec == p.before.spec)
    && (!m.edited && o.instance.Unset? ==> p.before.spec == m.obj.spec)
    && (o.instance.Unset? ==> b.addresses == o.addresses && (pc.PatchInstance? || a.addresses == b.addresses))
  }

  ghost predicate MPassDelete(c: Cluster, cloud: Cloud, k: Key, m: Machine)
    requires m.pass.Run?
  {
    var p := m.pass;
    var pc, b, a, o := p.pc, p.before.status, p.mem.status, m.obj.status;
    && (pc.LookupCluster? || DeletePc(pc)) && m.deletionSeen
    && !pc.LateDetach? && !pc.PatchLateDetached?
    && p.before.finalizer == m.obj.finalizer && p.mem.spec == p.before.spec
    && (if pc.PatchFinalizerOff? then !p.mem.finalizer && a.instance.Unset?
        else p.mem.finalizer == p.before.finalizer)
    && (pc.Detach? || pc.PatchDetached? || pc.RemoveHook? ==> m.hook && p.hook)
    && (pc.Destroy? || pc.PatchDestroyed? || pc.PatchFinalizerOff? ==> !m.hook)
    && (pc.RemoveHook? ==> o.attachment.Unset?)
    && (o.instance.Uuid? && !pc.LookupCluster? ==> p.clu == View(c.obj))
    && (if pc.PatchDestroyed? then
          a.instance.Unset? && o.instance.Uuid? && b.instance == o.instance
          && o.instance in cloud.res && !cloud.res[o.instance].live
        else a.instance == o.instance && (o.instance.Uuid? ==> b.instance == o.instance))
    && (if pc.PatchDetached? then
          a.attachment.Unset? && o.attachment.Uuid? && b.attachment == o.attachment
          && (p.clu.floatingIP, o.instance) !in cloud.routes
        else a.attachment == o.attachment && (o.attachment.Uuid? ==> b.attachment == o.attachment))
    && (pc.Detach? ==> a.attachment.Uuid? && m.cfg.controlPlane)
    && (pc.Destroy? ==> a.instance.Uuid?)
    && a.flavor == o.flavor && b.flavor == o.flavor && a.image == o.image && b.image == o.image
    && a.ready == o.ready && b.ready == o.ready
  }

  ghost predicate MPassOk(c: Cluster, cloud: Cloud, k: Key, m: Machine)
  {
    m.pass.Run? ==>
      && SpecCarried(m.pass.mem.spec, m.obj.spec) && SpecCarried(m.pass.before.spec, m.obj.spec)
      && if m.pass.del then MPassDelete(c, cloud, k, m) else MPassNormal(c, cloud, k, m)
  }

  ghost predicate MInv(c: Cluster, cloud: Cloud, k: Key, m: Machine)
  {
    && MStored(c, cloud, k, m) && MLedger(cloud, k, m) && MRoutes(c, cloud, k, m)
    && MCalls(c, cloud, k, m) && MPassOk(c, cloud, k, m)
  }

  // ---------- the system ----------

  /** The far end of every route, lost or not, is a VM of some machine. */
  ghost predicate RoutesMade(cloud: Cloud)
  {
    && (forall rt :: rt in cloud.routes ==> rt.1 in cloud.res && cloud.res[rt.1].owner.OfMachine?)
    && forall i :: i in cloud.lostRoutes ==> i in cloud.res && cloud.res[i].owner.OfMachine?
  }

  /** Every resource, route and call belongs to the cluster or to a machine of the system. */
  ghost predicate Belong(s: Sys)
  {
    && (forall id :: id in s.cloud.res ==>
          id.Uuid? && (s.cloud.res[id].owner.OfMachine? ==> s.cloud.res[id].owner.key in s.machines))
    && RoutesMade(s.cloud)
    && (forall c :: c in s.cloud.calls ==> ByMachine(c) ==> CallKey(c) in s.machines)
  }

  predicate ByMachine(c: Call)
  { c.CreateInstanceCall? || c.AttachCall? || c.DetachCall? || (c.DeleteCall? && c.owner.OfMachine?) }

  function CallKey(c: Call): Key
    requires ByMachine(c)
  { if c.DeleteCall? then c.owner.key else c.key }

  ghost predicate Inv(s: Sys)
  {
    && CInv(s) && Belong(s)
    && forall k :: k in s.machines ==> MInv(s.cluster, s.cloud, k, s.machines[k])
  }
}
