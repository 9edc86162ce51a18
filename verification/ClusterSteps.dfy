/** Every step of a cluster pass keeps the invariant of the cluster. */
module ClusterSteps {
  import opened Api
  import opened System
  import opened Invariant

  ghost predicate COk(cloud: Cloud, c: Cluster)
  {
    CStored(cloud, c) && CLedger(cloud, c) && CPassOk(cloud, c)
  }

  ghost predicate CMoves(cloud: Cloud, c: Cluster, r: Reply, c': Cluster, cloud': Cloud)
  {
    && c.pass.CRun? && CFits(c.pass.pc, r)
    && (c.pass.pc.Create? && Took(r) ==> Fresh(cloud, NewId(r)))
    && (CIsPatch(c.pass.pc) && Took(r) ==> CPatchAllowed(c))
    && COk(cloud, c)
    && c' == CStepCluster(c, CPassNext(c.pass, r), r)
    && cloud'.res == CStepRes(cloud, c.pass, CPassNext(c.pass, r), r)
  }

  lemma LookupOwnerKeeps(cloud: Cloud, c: Cluster, r: Reply, c': Cluster, cloud': Cloud)
    requires CMoves(cloud, c, r, c', cloud') && c.pass.pc.CLookupOwner?
    ensures COk(cloud', c')
  {
  }

  lemma PatchFinalizerOnKeeps(cloud: Cloud, c: Cluster, r: Reply, c': Cluster, cloud': Cloud)
    requires CMoves(cloud, c, r, c', cloud') && c.pass.pc.CPatchFinalizer?
    ensures COk(cloud', c')
  {
  }

  lemma ConnectKeeps(cloud: Cloud, c: Cluster, r: Reply, c': Cluster, cloud': Cloud)
    requires CMoves(cloud, c, r, c', cloud') && c.pass.pc.CConnect?
    ensures COk(cloud', c')
  {
  }

  lemma GetProjectKeeps(cloud: Cloud, c: Cluster, r: Reply, c': Cluster, cloud': Cloud)
    requires CMoves(cloud, c, r, c', cloud') && c.pass.pc.GetProject?
    ensures COk(cloud', c')
  {
  }

  lemma CreateNetworkKeeps(cloud: Cloud, c: Cluster, r: Reply, c': Cluster, cloud': Cloud)
    requires CMoves(cloud, c, r, c', cloud') && c.pass.pc == Create(Network)
    ensures COk(cloud', c')
  {
  }

  lemma CreateFloatingIPKeeps(cloud: Cloud, c: Cluster, r: Reply, c': Cluster, cloud': Cloud)
    requires CMoves(cloud, c, r, c', cloud') && c.pass.pc == Create(FloatingIP)
    ensures COk(cloud', c')
  {
  }

  lemma CreateSshKeyKeeps(cloud: Cloud, c: Cluster, r: Reply, c': Cluster, cloud': Cloud)
    requires CMoves(cloud, c, r, c', cloud') && c.pass.pc == Create(SshKey)
    ensures COk(cloud', c')
  {
  }

  /** The cluster once the pending patch of a created thing is stored. */
  function CRecorded(c: Cluster): Cluster
    requires c.pass.CRun? && c.pass.pc.Record?
  {
    c.(obj := CMerged(c), first := SetFirst(c.first, c.pass.pc.kind, Slot(c.pass.mem.status, c.pass.pc.kind)))
  }

  lemma RecordedSlot(cloud: Cloud, c: Cluster, cloud': Cloud, kind: Kind)
    requires COk(cloud, c) && c.pass.CRun? && c.pass.pc.Record? && kind != Instance
    requires cloud'.res == KeepId(cloud.res, CFlight(c.pass))
    ensures CSlotOk(cloud', CRecorded(c), kind)
  {
  }

  lemma LostSlot(cloud: Cloud, c: Cluster, c': Cluster, cloud': Cloud, kind: Kind)
    requires COk(cloud, c) && c.pass.CRun? && c.pass.pc.Record? && kind != Instance
    requires c'.obj == c.obj && c'.first == c.first && c'.deletionSeen == c.deletionSeen
    requires cloud'.res == LoseId(cloud.res, CFlight(c.pass))
    ensures CSlotOk(cloud', c', kind)
  {
  }

  lemma RecordStores(cloud: Cloud, c: Cluster, r: Reply, c': Cluster, cloud': Cloud)
    requires CMoves(cloud, c, r, c', cloud') && c.pass.pc.Record?
    ensures CStored(cloud', c')
  {
    forall kind | kind != Instance ensures CSlotOk(cloud', c', kind) {
      if Took(r) {
        RecordedSlot(cloud, c, cloud', kind);
      } else {
        LostSlot(cloud, c, c', cloud', kind);
      }
    }
  }

  /** What was in flight is now kept or lost. */
  lemma CFlightSettles(cloud: Cloud, c: Cluster, c': Cluster, cloud': Cloud, id: Id)
    requires CLedger(cloud, c) && id == CFlight(c.pass) && id in cloud.res && CFlight(c'.pass).Unset?
    requires cloud.res[id].owner == OfCluster && FirstOf(c.first, cloud.res[id].kind).Unset?
    requires || (cloud'.res == KeepId(cloud.res, id) && c'.first == SetFirst(c.first, cloud.res[id].kind, id))
             || (cloud'.res == LoseId(cloud.res, id) && c'.first == c.first)
    ensures CLedger(cloud', c')
  {
  }

  lemma RecordSettles(cloud: Cloud, c: Cluster, r: Reply, c': Cluster, cloud': Cloud)
    requires CMoves(cloud, c, r, c', cloud') && c.pass.pc.Record?
    ensures CLedger(cloud', c')
  {
    CFlightSettles(cloud, c, c', cloud', CFlight(c.pass));
  }

  lemma RecordNetworkStores(cloud: Cloud, c: Cluster, r: Reply, c': Cluster, cloud': Cloud)
    requires CMoves(cloud, c, r, c', cloud') && c.pass.pc == Record(Network)
    ensures CStored(cloud', c') && CLedger(cloud', c')
  {
    RecordStores(cloud, c, r, c', cloud');
    RecordSettles(cloud, c, r, c', cloud');
  }

  /** The code is past its gates and everything in memory is stored. */
  ghost predicate CSteady(cloud: Cloud, c: Cluster, p: CPass)
  {
    && p.CRun? && p.mem.status.project.Uuid?
    && EraseEndpoint(p.before.spec) == EraseEndpoint(c.obj.spec)
    && EraseEndpoint(p.mem.spec) == EraseEndpoint(c.obj.spec)
    && CPassNormal(cloud, c.(pass := p.(pc := CConnect)))
  }

  lemma CGoReadyKeeps(cloud: Cloud, c: Cluster, p: CPass)
    requires CSteady(cloud, c, p)
    ensures CPassOk(cloud, c.(pass := CGoReady(p)))
  {
  }

  lemma CGoKeyKeeps(cloud: Cloud, c: Cluster, p: CPass)
    requires CSteady(cloud, c, p) && p.mem.status.subnet.Uuid? && p.mem.status.floatingIP.Uuid?
    ensures CPassOk(cloud, c.(pass := CGoKey(p)))
  {
    CGoReadyKeeps(cloud, c, p);
  }

  lemma CGoFloatingIPKeeps(cloud: Cloud, c: Cluster, p: CPass)
    requires CSteady(cloud, c, p) && p.mem.status.subnet.Uuid?
    ensures CPassOk(cloud, c.(pass := CGoFloatingIP(p)))
  {
    if p.mem.status.floatingIP.Uuid? {
      CGoKeyKeeps(cloud, c, p);
    }
  }

  lemma RecordSteady(cloud: Cloud, c: Cluster, cloud': Cloud)
    requires COk(cloud, c) && c.pass.CRun? && c.pass.pc.Record?
    requires cloud'.res == KeepId(cloud.res, Slot(c.pass.mem.status, c.pass.pc.kind))
    ensures CSteady(cloud', CRecorded(c), c.pass)
  {
  }

  lemma RecordNetworkDone(cloud: Cloud, c: Cluster, c': Cluster, cloud': Cloud)
    requires CMoves(cloud, c, Done, c', cloud') && c.pass.pc == Record(Network)
    ensures CPassOk(cloud', c')
  {
    RecordSteady(cloud, c, cloud');
    CGoFloatingIPKeeps(cloud', CRecorded(c), c.pass);
  }

  lemma RecordNetworkPass(cloud: Cloud, c: Cluster, r: Reply, c': Cluster, cloud': Cloud)
    requires CMoves(cloud, c, r, c', cloud') && c.pass.pc == Record(Network)
    ensures CPassOk(cloud', c')
  {
    if r.Done? {
      RecordNetworkDone(cloud, c, c', cloud');
    } else {
      assert c'.pass == CIdle(Failed);
    }
  }

  lemma RecordNetworkKeeps(cloud: Cloud, c: Cluster, r: Reply, c': Cluster, cloud': Cloud)
    requires CMoves(cloud, c, r, c', cloud') && c.pass.pc == Record(Network)
    ensures COk(cloud', c')
  {
    RecordNetworkStores(cloud, c, r, c', cloud');
    RecordNetworkPass(cloud, c, r, c', cloud');
  }

  lemma RecordFloatingIPStores(cloud: Cloud, c: Cluster, r: Reply, c': Cluster, cloud': Cloud)
    requires CMoves(cloud, c, r, c', cloud') && c.pass.pc == Record(FloatingIP)
    ensures CStored(cloud', c') && CLedger(cloud', c')
  {
    RecordStores(cloud, c, r, c', cloud');
    RecordSettles(cloud, c, r, c', cloud');
  }

  lemma RecordFloatingIPDone(cloud: Cloud, c: Cluster, c': Cluster, cloud': Cloud)
    requires CMoves(cloud, c, Done, c', cloud') && c.pass.pc == Record(FloatingIP)
    ensures CPassOk(cloud', c')
  {
    RecordSteady(cloud, c, cloud');
    CGoKeyKeeps(cloud', CRecorded(c), c.pass);
  }

  lemma RecordFloatingIPPass(cloud: Cloud, c: Cluster, r: Reply, c': Cluster, cloud': Cloud)
    requires CMoves(cloud, c, r, c', cloud') && c.pass.pc == Record(FloatingIP)
    ensures CPassOk(cloud', c')
  {
    if r.Done? {
      RecordFloatingIPDone(cloud, c, c', cloud');
    } else {
      assert c'.pass == CIdle(Failed);
    }
  }

  lemma RecordFloatingIPKeeps(cloud: Cloud, c: Cluster, r: Reply, c': Cluster, cloud': Cloud)
    requires CMoves(cloud, c, r, c', cloud') && c.pass.pc == Record(FloatingIP)
    ensures COk(cloud', c')
  {
    RecordFloatingIPStores(cloud, c, r, c', cloud');
    RecordFloatingIPPass(cloud, c, r, c', cloud');
  }

  lemma RecordSshKeyStores(cloud: Cloud, c: Cluster, r: Reply, c': Cluster, cloud': Cloud)
    requires CMoves(cloud, c, r, c', cloud') && c.pass.pc == Record(SshKey)
    ensures CStored(cloud', c') && CLedger(cloud', c')
  {
    RecordStores(cloud, c, r, c', cloud');
    RecordSettles(cloud, c, r, c', cloud');
  }

  lemma RecordSshKeyPass(cloud: Cloud, c: Cluster, r: Reply, c': Cluster, cloud': Cloud)
    requires CMoves(cloud, c, r, c', cloud') && c.pass.pc == Record(SshKey)
    ensures CPassOk(cloud', c')
  {
    if r.Done? {
      RecordSteady(cloud, c, cloud');
      CGoReadyKeeps(cloud', CRecorded(c), c.pass);
    } else {
      assert c'.pass == CIdle(Failed);
    }
  }

  lemma RecordSshKeyKeeps(cloud: Cloud, c: Cluster, r: Reply, c': Cluster, cloud': Cloud)
    requires CMoves(cloud, c, r, c', cloud') && c.pass.pc == Record(SshKey)
    ensures COk(cloud', c')
  {
    RecordSshKeyStores(cloud, c, r, c', cloud');
    RecordSshKeyPass(cloud, c, r, c', cloud');
  }

  lemma PatchReadyKeeps(cloud: Cloud, c: Cluster, r: Reply, c': Cluster, cloud': Cloud)
    requires CMoves(cloud, c, r, c', cloud') && c.pass.pc.CPatchReady?
    ensures COk(cloud', c')
  {
  }

  lemma PrepareKeeps(cloud: Cloud, c: Cluster, r: Reply, c': Cluster, cloud': Cloud)
    requires CMoves(cloud, c, r, c', cloud') && c.pass.pc.CPrepare?
    ensures COk(cloud', c')
  {
  }

  lemma DeleteNetworkKeeps(cloud: Cloud, c: Cluster, r: Reply, c': Cluster, cloud': Cloud)
    requires CMoves(cloud, c, r, c', cloud') && c.pass.pc == Delete(Network)
    ensures COk(cloud', c')
  {
  }

  lemma DeleteFloatingIPKeeps(cloud: Cloud, c: Cluster, r: Reply, c': Cluster, cloud': Cloud)
    requires CMoves(cloud, c, r, c', cloud') && c.pass.pc == Delete(FloatingIP)
    ensures COk(cloud', c')
  {
  }

  lemma DeleteSshKeyKeeps(cloud: Cloud, c: Cluster, r: Reply, c': Cluster, cloud': Cloud)
    requires CMoves(cloud, c, r, c', cloud') && c.pass.pc == Delete(SshKey)
    ensures COk(cloud', c')
  {
  }

  lemma ClearNetworkKeeps(cloud: Cloud, c: Cluster, r: Reply, c': Cluster, cloud': Cloud)
    requires CMoves(cloud, c, r, c', cloud') && c.pass.pc == Clear(Network)
    ensures COk(cloud', c')
  {
  }

  lemma ClearFloatingIPKeeps(cloud: Cloud, c: Cluster, r: Reply, c': Cluster, cloud': Cloud)
    requires CMoves(cloud, c, r, c', cloud') && c.pass.pc == Clear(FloatingIP)
    ensures COk(cloud', c')
  {
  }

  lemma ClearSshKeyKeeps(cloud: Cloud, c: Cluster, r: Reply, c': Cluster, cloud': Cloud)
    requires CMoves(cloud, c, r, c', cloud') && c.pass.pc == Clear(SshKey)
    ensures COk(cloud', c')
  {
  }

  lemma PatchFinalizerOffKeeps(cloud: Cloud, c: Cluster, r: Reply, c': Cluster, cloud': Cloud)
    requires CMoves(cloud, c, r, c', cloud') && c.pass.pc.CPatchFinalizerOff?
    ensures COk(cloud', c')
  {
  }

}
