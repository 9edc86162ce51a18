/** A pass touches only what was made for its own object, and so leaves every other object's invariant alone. */
module Frames {
  import opened Api
  import opened System
  import opened Invariant

  function CallOwner(x: Call): Owner
  {
    match x
    case CreateCall(_, _) => OfCluster
    case CreateInstanceCall(k, _, _, _, _, _, _, _) => OfMachine(k)
    case AttachCall(k, _, _, _) => OfMachine(k)
    case DetachCall(k, _, _, _) => OfMachine(k)
    case DeleteCall(owner, _, _, _) => owner
  }

  ghost predicate OwnResources(cloud: Cloud, cloud': Cloud, o: Owner)
  {
    && (forall id :: id in cloud.res ==>
          id in cloud'.res && MadeAs(cloud', id, cloud.res[id].kind, cloud.res[id].project, cloud.res[id].owner)
          && (cloud.res[id].owner != o ==> cloud'.res[id] == cloud.res[id]))
    && (forall id :: id in cloud'.res && id !in cloud.res ==> id.Uuid? && cloud'.res[id].owner == o)
  }

  ghost predicate OwnRoutes(cloud: Cloud, cloud': Cloud, o: Owner)
  {
    && (forall rt :: (rt in cloud.routes) != (rt in cloud'.routes) ==>
          rt.1 in cloud'.res && cloud'.res[rt.1].owner == o)
    && (forall i :: (i in cloud.lostRoutes) != (i in cloud'.lostRoutes) ==>
          i in cloud'.res && cloud'.res[i].owner == o)
  }

  ghost predicate OwnCalls(cloud: Cloud, cloud': Cloud, o: Owner)
  {
    && (forall x :: x in cloud.calls ==> x in cloud'.calls)
    && (forall x :: x in cloud'.calls && x !in cloud.calls ==>
          CallOwner(x) == o
          && (x.CreateCall? ==> x.project.Uuid?)
          && (x.DeleteCall? ==> MadeAs(cloud, x.id, x.kind, x.project, x.owner)))
    && cloud.offered <= cloud'.offered && cloud.secrets <= cloud'.secrets
  }

  /** `cloud'` differs from `cloud` only in what was made, routed and called for `o`. */
  ghost predicate OnlyOf(cloud: Cloud, cloud': Cloud, o: Owner)
  {
    OwnResources(cloud, cloud', o) && OwnRoutes(cloud, cloud', o) && OwnCalls(cloud, cloud', o)
  }

  lemma OthersKeepObject(c: Cluster, cloud: Cloud, cloud': Cloud, o: Owner, j: Key, m: Machine)
    requires MInv(c, cloud, j, m) && OnlyOf(cloud, cloud', o) && o != OfMachine(j)
    ensures MStored(c, cloud', j, m) && MPassOk(c, cloud', j, m)
  {
  }

  lemma OthersKeepLedger(c: Cluster, cloud: Cloud, cloud': Cloud, o: Owner, j: Key, m: Machine)
    requires MInv(c, cloud, j, m) && OnlyOf(cloud, cloud', o) && o != OfMachine(j)
    requires RoutesMade(cloud)
    ensures MLedger(cloud', j, m) && MRoutes(c, cloud', j, m) && MCalls(c, cloud', j, m)
  {
  }

  lemma OthersKeep(c: Cluster, cloud: Cloud, cloud': Cloud, o: Owner, j: Key, m: Machine)
    requires MInv(c, cloud, j, m) && OnlyOf(cloud, cloud', o) && o != OfMachine(j)
    requires RoutesMade(cloud)
    ensures MInv(c, cloud', j, m)
  {
    OthersKeepObject(c, cloud, cloud', o, j, m);
    OthersKeepLedger(c, cloud, cloud', o, j, m);
  }

  lemma ClusterKeeps(c: Cluster, cloud: Cloud, cloud': Cloud, k: Key)
    requires CStored(cloud, c) && CLedger(cloud, c) && CPassOk(cloud, c) && CCalls(cloud)
    requires OnlyOf(cloud, cloud', OfMachine(k))
    ensures CStored(cloud', c) && CLedger(cloud', c) && CPassOk(cloud', c) && CCalls(cloud')
  {
  }

  /** What a change of the cluster must leave alone for the machines' sake. */
  ghost predicate ClusterChange(c: Cluster, c': Cluster)
  {
    && c'.deleting == c.deleting
    && (!c.deleting && Complete(c.obj) ==> Complete(c'.obj) && View(c'.obj) == View(c.obj))
    && (c.obj.status.project.Uuid? ==> c'.obj.status.project == c.obj.status.project)
    && (c.first.floatingIP.Uuid? ==>
          c'.first.floatingIP == c.first.floatingIP && c'.obj.status.ip == c.obj.status.ip)
  }

  lemma ClusterChangeKeeps(c: Cluster, c': Cluster, cloud: Cloud, k: Key, m: Machine)
    requires MInv(c, cloud, k, m) && ClusterChange(c, c')
    ensures MInv(c', cloud, k, m)
  {
  }
}
