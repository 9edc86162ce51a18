/** Conservation of resources, and the bound on creations. */
module Ledger {
  import opened Api
  import opened System
  import opened Invariant
  import opened Preservation

  /** The ID is in the stored status of the object it was made for. */
  predicate Recorded(s: Sys, id: Id, o: Owner)
  {
    match o
    case OfMachine(k) => k in s.machines && s.machines[k].obj.status.instance == id
    case OfCluster =>
      s.cluster.obj.status.network == id || s.cluster.obj.status.floatingIP == id
      || s.cluster.obj.status.sshKey == id
  }

  /** The ID is in the memory of the pass that made it, and its patch is pending. */
  predicate InFlight(s: Sys, id: Id, o: Owner)
  {
    match o
    case OfMachine(k) => k in s.machines && Flight(s.machines[k].pass) == id
    case OfCluster => CFlight(s.cluster.pass) == id
  }

  predicate HoldsFinalizer(s: Sys, o: Owner)
  {
    match o
    case OfMachine(k) => k in s.machines && s.machines[k].obj.finalizer
    case OfCluster => s.cluster.obj.finalizer
  }

  predicate InDeletion(s: Sys, o: Owner)
  {
    match o
    case OfMachine(k) => k in s.machines && s.machines[k].deletionSeen
    case OfCluster => s.cluster.deletionSeen
  }

  function Made(s: Sys, o: Owner, kind: Kind): set<Id>
  { set id | id in s.cloud.res && s.cloud.res[id].owner == o && s.cloud.res[id].kind == kind }

  function Lost(s: Sys, o: Owner, kind: Kind): set<Id>
  { set id | id in Made(s, o, kind) && s.cloud.res[id].lost }

  /** Whatever is live is recorded, in flight or lost, and only one of these; whatever is gone
      was once recorded; what is lost is never deleted. */
  lemma Conservation(s: Sys, id: Id)
    requires Reachable(s) && id in s.cloud.res
    ensures var r := s.cloud.res[id];
      && (r.live ==> Recorded(s, id, r.owner) || InFlight(s, id, r.owner) || r.lost)
      && !(r.lost && (Recorded(s, id, r.owner) || InFlight(s, id, r.owner)))
      && !(Recorded(s, id, r.owner) && InFlight(s, id, r.owner))
      && (!r.live ==> r.kept && !r.lost)
  {
    ReachableInv(s);
    if s.cloud.res[id].owner.OfMachine? {
      var k := s.cloud.res[id].owner.key;
      assert MInv(s.cluster, s.cloud, k, s.machines[k]);
    } else {
      assert CSlotOk(s.cloud, s.cluster, s.cloud.res[id].kind);
    }
  }

  /** Once the finalizer is gone, what still lives was lost: its ID never reached the store. */
  lemma NothingLeftButTheLost(s: Sys, id: Id)
    requires Reachable(s) && id in s.cloud.res && s.cloud.res[id].live
    requires !HoldsFinalizer(s, s.cloud.res[id].owner)
    ensures s.cloud.res[id].lost && !s.cloud.res[id].kept
  {
    ReachableInv(s);
    Conservation(s, id);
    if s.cloud.res[id].owner.OfMachine? {
      var k := s.cloud.res[id].owner.key;
      assert MInv(s.cluster, s.cloud, k, s.machines[k]);
    } else {
      assert CSlotOk(s.cloud, s.cluster, s.cloud.res[id].kind);
    }
  }

  /** Of one kind and one object, no two made things are not lost. */
  lemma OneNotLost(s: Sys, o: Owner, kind: Kind, i: Id, j: Id)
    requires Reachable(s) && i in Made(s, o, kind) && j in Made(s, o, kind)
    requires !s.cloud.res[i].lost && !s.cloud.res[j].lost
    ensures i == j
  {
    ReachableInv(s);
    if o.OfMachine? {
      assert MInv(s.cluster, s.cloud, o.key, s.machines[o.key]);
    } else {
      assert CSlotOk(s.cloud, s.cluster, kind);
    }
  }

  /** Creations that took effect number at most one more than those whose ID was not stored. */
  lemma CreationBound(s: Sys, o: Owner, kind: Kind)
    requires Reachable(s)
    ensures |Made(s, o, kind)| <= 1 + |Lost(s, o, kind)|
  {
    var made, lost := Made(s, o, kind), Lost(s, o, kind);
    if i :| i in made && i !in lost {
      forall j | j in made ensures j in lost + {i} {
        if j !in lost {
          OneNotLost(s, o, kind, i, j);
        }
      }
      assert made <= lost + {i};
      SubsetCard(made, lost + {i});
    } else {
      assert made <= lost;
      SubsetCard(made, lost);
    }
  }

  lemma {:induction false} SubsetCard<T>(a: set<T>, b: set<T>)
    requires a <= b
    ensures |a| <= |b|
    decreases a
  {
    if a != {} {
      var x :| x in a;
      SubsetCard(a - {x}, b - {x});
    }
  }

  lemma CreatesBeforeDeletion(c: Cluster, cloud: Cloud, k: Key, m: Machine)
    requires MPassOk(c, cloud, k, m) && m.pass.Run? && m.pass.pc.CreateInstance?
    ensures !m.deletionSeen
  {
  }

  lemma ClusterCreatesBeforeDeletion(cloud: Cloud, c: Cluster)
    requires CPassOk(cloud, c) && c.pass.CRun? && c.pass.pc.Create?
    ensures !c.deletionSeen
  {
  }

  lemma OnlyCreatesMakeResources(s: Sys, a: Action, id: Id)
    requires Enabled(s, a) && id in Apply(s, a).cloud.res && id !in s.cloud.res
    ensures match a
      case Step(k, r) => s.machines[k].pass.pc.CreateInstance? && Apply(s, a).cloud.res[id].owner == OfMachine(k)
      case CStep(r) => s.cluster.pass.pc.Create? && Apply(s, a).cloud.res[id].owner == OfCluster
      case _ => false
  {
  }

  /** Nothing is created for an object once a pass saw its deletion. */
  lemma NoCreateInDeletion(s: Sys, a: Action, id: Id)
    requires Reachable(s) && Enabled(s, a) && id in Apply(s, a).cloud.res && id !in s.cloud.res
    ensures !InDeletion(s, Apply(s, a).cloud.res[id].owner)
  {
    ReachableInv(s);
    OnlyCreatesMakeResources(s, a, id);
    match a
    case Step(k, r) => CreatesBeforeDeletion(s.cluster, s.cloud, k, s.machines[k]);
    case CStep(r) => ClusterCreatesBeforeDeletion(s.cloud, s.cluster);
    case _ => assert false;
  }

  /** A resource ceases to live only by a delete call that names it, its project and its owner,
      and none comes back to life. */
  lemma GoneOnlyByDelete(s: Sys, a: Action, id: Id)
    requires Reachable(s) && Enabled(s, a) && id in s.cloud.res
    requires id in Apply(s, a).cloud.res && s.cloud.res[id].live != Apply(s, a).cloud.res[id].live
    ensures s.cloud.res[id].live
    ensures var r := s.cloud.res[id]; DeleteCall(r.owner, r.kind, id, r.project) in Apply(s, a).cloud.calls
  {
    ReachableInv(s);
    DeathIsCalledFor(s, a, id);
    match a
    case Step(k, r) => DestroyIsCalled(s, k, r);
    case CStep(r) => DeleteIsCalled(s, r);
    case _ => assert false;
  }

  lemma DestroyIsCalled(s: Sys, k: Key, r: Reply)
    requires Inv(s) && StepEnabled(s, k, r) && s.machines[k].pass.pc.Destroy?
    ensures var id := s.machines[k].pass.mem.status.instance;
      id in s.cloud.res && DeleteCall(s.cloud.res[id].owner, s.cloud.res[id].kind, id, s.cloud.res[id].project)
                             in ApplyStep(s, k, r).cloud.calls
  {
    assert MInv(s.cluster, s.cloud, k, s.machines[k]);
    DestroyCallIsMade(s.cluster, s.cloud, k, s.machines[k]);
    assert ApplyStep(s, k, r).cloud.calls == StepCalls(s.cloud, k, s.machines[k].pass);
  }

  lemma DestroyCallIsMade(c: Cluster, cloud: Cloud, k: Key, m: Machine)
    requires MStored(c, cloud, k, m) && MPassOk(c, cloud, k, m) && m.pass.Run? && m.pass.pc.Destroy?
    ensures var id := m.pass.mem.status.instance;
      && id in cloud.res
      && var q := cloud.res[id]; DeleteCall(q.owner, q.kind, id, q.project) in StepCalls(cloud, k, m.pass)
  {
    DestroysItsOwn(c, cloud, k, m);
  }

  lemma DeleteIsCalled(s: Sys, r: Reply)
    requires Inv(s) && CStepEnabled(s, r) && s.cluster.pass.pc.Delete?
    ensures var id := Slot(s.cluster.pass.mem.status, s.cluster.pass.pc.kind);
      id in s.cloud.res && DeleteCall(s.cloud.res[id].owner, s.cloud.res[id].kind, id, s.cloud.res[id].project)
                             in CApplyStep(s, r).cloud.calls
  {
    DeletesItsOwn(s.cloud, s.cluster);
  }

  lemma DestroysItsOwn(c: Cluster, cloud: Cloud, k: Key, m: Machine)
    requires MStored(c, cloud, k, m) && MPassOk(c, cloud, k, m) && m.pass.Run? && m.pass.pc.Destroy?
    ensures MadeAs(cloud, m.pass.mem.status.instance, Instance, m.pass.clu.project, OfMachine(k))
  {
  }

  lemma DeletesItsOwn(cloud: Cloud, c: Cluster)
    requires CStored(cloud, c) && CPassOk(cloud, c) && c.pass.CRun? && c.pass.pc.Delete?
    ensures MadeAs(cloud, Slot(c.pass.mem.status, c.pass.pc.kind), c.pass.pc.kind, c.pass.mem.status.project, OfCluster)
  {
  }

  lemma StepDestroys(cloud: Cloud, k: Key, p: MPass, next: MPass, r: Reply, id: Id)
    requires p.Run? && id in cloud.res && (p.pc.CreateInstance? && Took(r) ==> Fresh(cloud, NewId(r)))
    requires id in StepRes(cloud, k, p, next, r) && cloud.res[id].live != StepRes(cloud, k, p, next, r)[id].live
    ensures cloud.res[id].live && p.pc.Destroy? && id == p.mem.status.instance
  {
  }

  lemma CStepDestroys(cloud: Cloud, p: CPass, next: CPass, r: Reply, id: Id)
    requires p.CRun? && id in cloud.res && (p.pc.Create? && Took(r) ==> Fresh(cloud, NewId(r)))
    requires id in CStepRes(cloud, p, next, r) && cloud.res[id].live != CStepRes(cloud, p, next, r)[id].live
    ensures cloud.res[id].live && p.pc.Delete? && id == Slot(p.mem.status, p.pc.kind)
  {
  }

  lemma DeathIsCalledFor(s: Sys, a: Action, id: Id)
    requires Enabled(s, a) && id in s.cloud.res
    requires id in Apply(s, a).cloud.res && s.cloud.res[id].live != Apply(s, a).cloud.res[id].live
    ensures s.cloud.res[id].live
    ensures match a
      case Step(k, r) => s.machines[k].pass.pc.Destroy? && id == s.machines[k].pass.mem.status.instance
      case CStep(r) =>
        s.cluster.pass.pc.Delete? && id == Slot(s.cluster.pass.mem.status, s.cluster.pass.pc.kind)
      case _ => false
  {
    match a
    case Step(k, r) =>
      var m := s.machines[k];
      StepDestroys(s.cloud, k, m.pass, PassNext(m.cfg, m.pass, r), r, id);
    case CStep(r) => CStepDestroys(s.cloud, s.cluster.pass, CPassNext(s.cluster.pass, r), r, id);
    case _ =>
  }
}
