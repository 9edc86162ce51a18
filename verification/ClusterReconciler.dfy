/** The code of the cluster reconciler, as a refinement of the cluster's passes: see
    MachineReconciler. */
module ClusterReconciler {
  import opened Api
  import opened System
  import opened World

  /** The pass of the cluster has come as far as `p`, by a run that goes on from `base`. */
  ghost predicate At(w: Server, base: seq<Action>, p: CPass)
    reads w
  {
    w.Valid() && base <= w.log && w.sys.cluster.pass == p
  }

  /** A subnet as createNetwork takes it. */
  datatype SubnetInput = SubnetInput(name: string, ipVersion: string, cidr: Option<string>)

  /** One input per subnet, in order; a nil list has none. */
  predicate AsksFor(input: array<SubnetInput>, subnets: Option<seq<Subnet>>)
    reads input
  {
    && input.Length == (if subnets.None? then 0 else |subnets.value|)
    && forall i :: 0 <= i < input.Length ==>
         && input[i].name == subnets.value[i].name && input[i].ipVersion == subnets.value[i].ipVersion
         && input[i].cidr == Some(subnets.value[i].cidr)
  }

  // ---------- calls ----------

  /** Get of the WXOneCluster. */
  method Fetch(w: Server, ghost base: seq<Action>) returns (obj: WXOneCluster, deleting: bool)
    requires w.Valid() && base <= w.log && Enabled(w.sys, CBegin)
    modifies w
    ensures fresh(obj)
    ensures At(w, base, CRun(CLookupOwner(deleting), obj.Mem(), obj.Mem()))
  {
    obj := new WXOneCluster(w.sys.cluster.obj);
    deleting := w.sys.cluster.deleting;
    w.Happen(CBegin);
  }

  method Patch(w: Server, obj: WXOneCluster, ghost base: seq<Action>, ghost p: CPass) returns (ok: bool)
    requires At(w, base, p) && p.CRun? && CIsPatch(p.pc) && p.mem == obj.Mem()
    modifies w
    ensures !ok ==> At(w, base, CIdle(Failed))
    ensures ok ==> At(w, base, CPassNext(p, Done))
  {
    var r := w.AwaitCluster();
    ok := !Broke(r);
  }

  /** The credentials and the clients made of them. */
  method NewClients(w: Server, ghost base: seq<Action>, ghost p: CPass) returns (ok: bool)
    requires At(w, base, p) && p.CRun? && (p.pc.CConnect? || p.pc.CPrepare?)
    modifies w
    ensures !ok ==> At(w, base, CIdle(Failed))
    ensures ok ==> At(w, base, if p.pc.CConnect? then CGoProject(p) else CGoDelete(p))
  {
    var r := w.AwaitCluster();
    ok := !Broke(r);
  }

  method GetDefaultProject(w: Server, ghost base: seq<Action>, ghost p: CPass) returns (ok: bool, id: Id)
    requires At(w, base, p) && p.CRun? && p.pc.GetProject?
    modifies w
    ensures !ok ==> At(w, base, CIdle(Failed))
    ensures ok ==> At(w, base, CGoNetwork(WithStatus(p, p.mem.status.(project := id), GetProject)))
  {
    var r := w.AwaitCluster();
    ok := !Broke(r);
    id := if ok then r.value.id else Unset;
  }

  method CreateNetwork(w: Server, name: string, zone: string, project: Id, input: array<SubnetInput>,
                       ghost base: seq<Action>, ghost p: CPass)
    returns (ok: bool, id: Id, subnets: seq<Id>)
    requires At(w, base, p) && p.CRun? && p.pc == Create(Network) && project == p.mem.status.project
    requires name == p.mem.spec.networkName && zone == p.mem.spec.zone
    requires AsksFor(input, p.mem.spec.subnets)
    modifies w
    ensures !ok ==> At(w, base, CIdle(Failed))
    ensures ok ==> At(w, base, if subnets == [] then CIdle(Failed)
              else WithStatus(p, p.mem.status.(network := id, subnet := subnets[0]), Record(Network)))
  {
    var r := w.AwaitCluster();
    ok := !Broke(r);
    id, subnets := Unset, [];
    if ok {
      id, subnets := r.value.id, r.value.subnets;
    }
  }

  method CreateFloatingIP(w: Server, project: Id, ghost base: seq<Action>, ghost p: CPass)
    returns (ok: bool, id: Id, ip: string)
    requires At(w, base, p) && p.CRun? && p.pc == Create(FloatingIP) && project == p.mem.status.project
    modifies w
    ensures !ok ==> At(w, base, CIdle(Failed))
    ensures ok ==> At(w, base, WithStatus(p, p.mem.status.(floatingIP := id, ip := ip), Record(FloatingIP)))
  {
    var r := w.AwaitCluster();
    ok := !Broke(r);
    id, ip := Unset, "";
    if ok {
      id, ip := r.value.id, r.value.ip;
    }
  }

  /** The key goes by the name of the network. */
  method CreateKey(w: Server, name: string, publicKey: string, project: Id, projectWide: bool,
                   ghost base: seq<Action>, ghost p: CPass)
    returns (ok: bool, id: Id)
    requires At(w, base, p) && p.CRun? && p.pc == Create(SshKey) && project == p.mem.status.project
    requires name == p.mem.spec.networkName && publicKey == p.mem.spec.sshKey.publicKey
    requires projectWide == p.mem.spec.sshKey.projectWide
    modifies w
    ensures !ok ==> At(w, base, CIdle(Failed))
    ensures ok ==> At(w, base, WithStatus(p, p.mem.status.(sshKey := id), Record(SshKey)))
  {
    var r := w.AwaitCluster();
    ok := !Broke(r);
    id := if ok then r.value.id else Unset;
  }

  method DeleteResource(w: Server, kind: Kind, id: Id, project: Id, ghost base: seq<Action>, ghost p: CPass)
    returns (ok: bool)
    requires At(w, base, p) && p.CRun? && p.pc == Delete(kind) && kind != Instance
    requires id == Slot(p.mem.status, kind) && project == p.mem.status.project
    modifies w
    ensures !ok ==> At(w, base, CIdle(Failed))
    ensures ok ==> At(w, base, CPassNext(p, Done))
  {
    var r := w.AwaitCluster();
    ok := !Broke(r);
  }

  /** Where the code stands does not show in what it does next. */
  lemma GoIgnoresPc(p: CPass, pc: CPc)
    requires p.CRun?
    ensures CGoFloatingIP(p.(pc := pc)) == CGoFloatingIP(p)
    ensures CGoKey(p.(pc := pc)) == CGoKey(p)
    ensures CGoReady(p.(pc := pc)) == CGoReady(p)
  {
  }

  lemma GoDeleteIgnoresPc(p: CPass, pc: CPc)
    requires p.CRun?
    ensures CGoDeleteFloatingIP(p.(pc := pc)) == CGoDeleteFloatingIP(p)
    ensures CGoDeleteKey(p.(pc := pc)) == CGoDeleteKey(p)
    ensures CGoFinalizerOff(p.(pc := pc)) == CGoFinalizerOff(p)
  {
  }

  // ---------- reconcileNormal ----------

  method SelectProject(w: Server, obj: WXOneCluster, ghost base: seq<Action>, ghost p: CPass) returns (ok: bool)
    requires p.CRun? && p.mem == obj.Mem() && At(w, base, CGoProject(p))
    modifies w, obj
    ensures obj.spec == old(obj.spec)
    ensures !ok ==> At(w, base, CIdle(Failed))
    ensures ok ==> At(w, base, CGoNetwork(p.(mem := obj.Mem())))
  {
    if obj.project.Uuid? {
      assert p.(mem := obj.Mem()) == p;
      return true;
    }
    var id: Id;
    ok, id := GetDefaultProject(w, base, p.(pc := GetProject));
    if ok {
      obj.project := id;
    }
  }

  method SubnetInputs(obj: WXOneCluster) returns (input: array<SubnetInput>)
    ensures fresh(input)
    ensures input.Length == (if obj.spec.subnets.None? then 0 else |obj.spec.subnets.value|)
    ensures forall i :: 0 <= i < input.Length ==>
              && input[i].name == obj.spec.subnets.value[i].name
              && input[i].ipVersion == obj.spec.subnets.value[i].ipVersion
              && input[i].cidr == Some(obj.spec.subnets.value[i].cidr)
  {
    var subnets := if obj.spec.subnets.None? then [] else obj.spec.subnets.value;
    input := new SubnetInput[|subnets|](_ => SubnetInput("", "", None));
    for i := 0 to |subnets|
      invariant forall j :: 0 <= j < i ==> input[j].name == subnets[j].name
      invariant forall j :: 0 <= j < i ==> input[j].ipVersion == subnets[j].ipVersion
      invariant forall j :: 0 <= j < i ==> input[j].cidr == Some(subnets[j].cidr)
    {
      var item := subnets[i];
      input[i] := SubnetInput(item.name, item.ipVersion, Some(item.cidr));
    }
  }

  method MakeNetwork(w: Server, obj: WXOneCluster, input: array<SubnetInput>, ghost base: seq<Action>, ghost p: CPass)
    returns (ok: bool)
    requires p.CRun? && p.mem == obj.Mem() && At(w, base, CGoNetwork(p))
    requires AsksFor(input, obj.spec.subnets)
    modifies w, obj
    ensures !ok ==> At(w, base, CIdle(Failed))
    ensures ok ==> At(w, base, CGoFloatingIP(p.(mem := obj.Mem())))
  {
    if obj.subnet.Uuid? {
      assert p.(mem := obj.Mem()) == p;
      return true;
    }
    ghost var q := p.(pc := Create(Network));
    var id: Id, subnets: seq<Id>;
    ok, id, subnets := CreateNetwork(w, obj.spec.networkName, obj.spec.zone, obj.project, input, base, q);
    if !ok || subnets == [] {
      return false;
    }
    obj.network := id;
    obj.subnet := subnets[0];
    q := q.(pc := Record(Network), mem := obj.Mem());
    ok := Patch(w, obj, base, q);
    GoIgnoresPc(p.(mem := obj.Mem()), Record(Network));
  }

  method MakeFloatingIP(w: Server, obj: WXOneCluster, ghost base: seq<Action>, ghost p: CPass) returns (ok: bool)
    requires p.CRun? && p.mem == obj.Mem() && At(w, base, CGoFloatingIP(p))
    modifies w, obj
    ensures !ok ==> At(w, base, CIdle(Failed))
    ensures ok ==> At(w, base, CGoKey(p.(mem := obj.Mem())))
  {
    if obj.floatingIP.Uuid? {
      assert p.(mem := obj.Mem()) == p;
      return true;
    }
    ghost var q := p.(pc := Create(FloatingIP));
    var id: Id, ip: string;
    ok, id, ip := CreateFloatingIP(w, obj.project, base, q);
    if ok {
      obj.floatingIP := id;
      obj.ip := ip;
      q := q.(pc := Record(FloatingIP), mem := obj.Mem());
      ok := Patch(w, obj, base, q);
      GoIgnoresPc(p.(mem := obj.Mem()), Record(FloatingIP));
    }
  }

  method MakeKey(w: Server, obj: WXOneCluster, ghost base: seq<Action>, ghost p: CPass) returns (ok: bool)
    requires p.CRun? && p.mem == obj.Mem() && At(w, base, CGoKey(p))
    modifies w, obj
    ensures !ok ==> At(w, base, CIdle(Failed))
    ensures ok ==> At(w, base, CGoReady(p.(mem := obj.Mem())))
  {
    if obj.sshKey.Uuid? {
      assert p.(mem := obj.Mem()) == p;
      return true;
    }
    ghost var q := p.(pc := Create(SshKey));
    var id: Id;
    ok, id := CreateKey(w, obj.spec.networkName, obj.spec.sshKey.publicKey, obj.project,
                        obj.spec.sshKey.projectWide, base, q);
    if ok {
      obj.sshKey := id;
      q := q.(pc := Record(SshKey), mem := obj.Mem());
      ok := Patch(w, obj, base, q);
      GoIgnoresPc(p.(mem := obj.Mem()), Record(SshKey));
    }
  }

  /** The owner Cluster's endpoint is set in memory only, and then copied where it is set. */
  method MarkReady(w: Server, obj: WXOneCluster, ghost base: seq<Action>, ghost p: CPass) returns (out: Outcome)
    requires p.CRun? && p.mem == obj.Mem() && At(w, base, CGoReady(p))
    modifies w, obj
    ensures out == MadeReady ==> obj.ready && obj.spec.endpoint == Endpoint(obj.ip, 6443)
    ensures At(w, base, CIdle(out))
  {
    if obj.subnet.Unset? || obj.floatingIP.Unset? || obj.sshKey.Unset? {
      return FellThrough;
    }
    var clusterEndpoint := Endpoint(obj.ip, API_PORT);
    obj.spec := obj.spec.(endpoint := Endpoint(obj.ip, API_PORT));
    if clusterEndpoint.host != "" {
      obj.spec := obj.spec.(endpoint := obj.spec.endpoint.(host := clusterEndpoint.host));
    }
    if clusterEndpoint.port != 0 {
      obj.spec := obj.spec.(endpoint := obj.spec.endpoint.(port := clusterEndpoint.port));
    }
    obj.ready := true;
    assert obj.Mem() == p.mem.(spec := p.mem.spec.(endpoint := Desired(p.mem.status)),
                               status := p.mem.status.(ready := true));
    var ok := Patch(w, obj, base, p.(pc := CPatchReady, mem := obj.Mem()));
    return if ok then MadeReady else Failed;
  }

  method ReconcileNormal(w: Server, obj: WXOneCluster, ghost base: seq<Action>, ghost p: CPass) returns (out: Outcome)
    requires p == CRun(CPatchFinalizer, obj.Mem(), obj.Mem().(finalizer := true)) && At(w, base, p)
    modifies w, obj
    ensures At(w, base, CIdle(out))
  {
    obj.finalizer := true;
    var ok := Patch(w, obj, base, p);
    if !ok {
      return Failed;
    }
    ghost var q := p.(pc := CConnect);
    ok := NewClients(w, base, q);
    if !ok {
      return Failed;
    }
    ok := SelectProject(w, obj, base, q);
    if !ok {
      return Failed;
    }
    var subnetInput := SubnetInputs(obj);
    ok := MakeNetwork(w, obj, subnetInput, base, q.(mem := obj.Mem()));
    if !ok {
      return Failed;
    }
    ok := MakeFloatingIP(w, obj, base, q.(mem := obj.Mem()));
    if !ok {
      return Failed;
    }
    ok := MakeKey(w, obj, base, q.(mem := obj.Mem()));
    if !ok {
      return Failed;
    }
    out := MarkReady(w, obj, base, q.(mem := obj.Mem()));
  }

  // ---------- reconcileDelete ----------

  method RemoveNetwork(w: Server, obj: WXOneCluster, ghost base: seq<Action>, ghost p: CPass) returns (ok: bool)
    requires p.CRun? && p.mem == obj.Mem() && At(w, base, CGoDelete(p))
    modifies w, obj
    ensures !ok ==> At(w, base, CIdle(Failed))
    ensures ok ==> At(w, base, CGoDeleteFloatingIP(p.(mem := obj.Mem())))
  {
    if obj.subnet.Unset? {
      assert p.(mem := obj.Mem()) == p;
      return true;
    }
    ok := DeleteResource(w, Network, obj.network, obj.project, base, p.(pc := Delete(Network)));
    if ok {
      obj.subnet := Unset;
      obj.network := Unset;
      ok := Patch(w, obj, base, p.(pc := Clear(Network), mem := obj.Mem()));
      GoDeleteIgnoresPc(p.(mem := obj.Mem()), Clear(Network));
    }
  }

  method RemoveFloatingIP(w: Server, obj: WXOneCluster, ghost base: seq<Action>, ghost p: CPass) returns (ok: bool)
    requires p.CRun? && p.mem == obj.Mem() && At(w, base, CGoDeleteFloatingIP(p))
    modifies w, obj
    ensures !ok ==> At(w, base, CIdle(Failed))
    ensures ok ==> At(w, base, CGoDeleteKey(p.(mem := obj.Mem())))
  {
    if obj.floatingIP.Unset? {
      assert p.(mem := obj.Mem()) == p;
      return true;
    }
    ok := DeleteResource(w, FloatingIP, obj.floatingIP, obj.project, base, p.(pc := Delete(FloatingIP)));
    if ok {
      obj.floatingIP := Unset;
      ok := Patch(w, obj, base, p.(pc := Clear(FloatingIP), mem := obj.Mem()));
      GoDeleteIgnoresPc(p.(mem := obj.Mem()), Clear(FloatingIP));
    }
  }

  method RemoveKey(w: Server, obj: WXOneCluster, ghost base: seq<Action>, ghost p: CPass) returns (ok: bool)
    requires p.CRun? && p.mem == obj.Mem() && At(w, base, CGoDeleteKey(p))
    modifies w, obj
    ensures !ok ==> At(w, base, CIdle(Failed))
    ensures ok ==> At(w, base, CGoFinalizerOff(p.(mem := obj.Mem())))
  {
    if obj.sshKey.Unset? {
      assert p.(mem := obj.Mem()) == p;
      return true;
    }
    ok := DeleteResource(w, SshKey, obj.sshKey, obj.project, base, p.(pc := Delete(SshKey)));
    if ok {
      obj.sshKey := Unset;
      ok := Patch(w, obj, base, p.(pc := Clear(SshKey), mem := obj.Mem()));
      GoDeleteIgnoresPc(p.(mem := obj.Mem()), Clear(SshKey));
    }
  }

  method ReleaseObject(w: Server, obj: WXOneCluster, ghost base: seq<Action>, ghost p: CPass) returns (out: Outcome)
    requires p.CRun? && p.mem == obj.Mem() && At(w, base, CGoFinalizerOff(p))
    modifies w, obj
    ensures At(w, base, CIdle(out))
  {
    if obj.sshKey.Uuid? || obj.subnet.Uuid? || obj.floatingIP.Uuid? {
      return FellThrough;
    }
    obj.finalizer := false;
    var ok := Patch(w, obj, base, p.(pc := CPatchFinalizerOff, mem := obj.Mem()));
    return if ok then FinalizerRemoved else Failed;
  }

  method ReconcileDelete(w: Server, obj: WXOneCluster, ghost base: seq<Action>, ghost p: CPass) returns (out: Outcome)
    requires p == CRun(CPrepare, obj.Mem(), obj.Mem()) && At(w, base, p)
    modifies w, obj
    ensures At(w, base, CIdle(out))
  {
    var ok := NewClients(w, base, p);
    if !ok {
      return Failed;
    }
    ok := RemoveNetwork(w, obj, base, p);
    if !ok {
      return Failed;
    }
    ok := RemoveFloatingIP(w, obj, base, p.(mem := obj.Mem()));
    if !ok {
      return Failed;
    }
    ok := RemoveKey(w, obj, base, p.(mem := obj.Mem()));
    if !ok {
      return Failed;
    }
    out := ReleaseObject(w, obj, base, p.(mem := obj.Mem()));
  }

  // ---------- Reconcile ----------

  /** One call of Reconcile, while everything else goes on. */
  method Reconcile(w: Server, ghost base: seq<Action>) returns (out: Outcome)
    requires w.Valid() && base <= w.log && Enabled(w.sys, CBegin)
    modifies w
    ensures At(w, base, CIdle(out)) && Reachable(w.sys)
  {
    var obj, deleting := Fetch(w, base);
    var r := w.AwaitCluster();
    w.WasReached();
    if Broke(r) {
      return Failed;
    }
    if r.value.Absent? {
      return Skipped;
    }
    if deleting {
      out := ReconcileDelete(w, obj, base, CRun(CPrepare, obj.Mem(), obj.Mem()));
    } else {
      out := ReconcileNormal(w, obj, base, CRun(CPatchFinalizer, obj.Mem(), obj.Mem().(finalizer := true)));
    }
    w.WasReached();
  }
}
