/** The code of the machine reconciler. It works on objects in memory and calls the server; the
    preconditions of the calls make it send exactly what the transition system says, so that
    whatever it does, fails at or dies in is a run of that system. */
module MachineReconciler {
  import opened Api
  import opened BootData
  import opened System
  import opened World

  /** The pass of machine `k` has come as far as `p`, by a run that goes on from `base`. */
  ghost predicate At(w: Server, base: seq<Action>, k: Key, cfg: MachineConfig, p: MPass)
    reads w
  {
    && w.Valid() && base <= w.log && k in w.sys.machines
    && w.sys.machines[k].cfg == cfg && w.sys.machines[k].pass == p
  }

  /** What the libraries make of a secret is what the transition system says. */
  ghost predicate Makes(lib: Library, cfg: MachineConfig)
  {
    forall text, ip :: cfg.boot(text, ip) == UserData(lib, text, cfg.controlPlane, ip)
  }

  // ---------- calls ----------

  /** Get of the WXOneMachine and of its owner. */
  method Fetch(w: Server, k: Key, ghost base: seq<Action>)
    returns (obj: WXOneMachine, owner: OwnerMachine, deleting: bool)
    requires w.Valid() && base <= w.log && Enabled(w.sys, Begin(k))
    modifies w
    ensures fresh(obj) && fresh(owner) && owner.controlPlane == old(w.sys.machines[k].cfg.controlPlane)
    ensures owner.OthersKept()
    ensures At(w, base, k, old(w.sys.machines[k].cfg),
               Run(LookupCluster, deleting, owner.Hooked(), NO_VIEW, false, false, obj.Mem(), obj.Mem()))
  {
    var m := w.sys.machines[k];
    obj := new WXOneMachine(m.obj);
    var annotations := w.Annotations(m.hook);
    owner := new OwnerMachine(m.cfg.controlPlane, annotations);
    deleting := m.deleting;
    w.Happen(Begin(k));
  }

  method Patch(w: Server, k: Key, obj: WXOneMachine, ghost base: seq<Action>, ghost cfg: MachineConfig, ghost p: MPass)
    returns (ok: bool)
    requires At(w, base, k, cfg, p) && p.Run?
    requires IsPatch(p.pc) && p.mem == obj.Mem()
    modifies w
    ensures !ok ==> At(w, base, k, cfg, Idle(Failed))
    ensures ok ==> At(w, base, k, cfg, PassNext(cfg, p, Done))
  {
    var r := w.Await(k);
    ok := !Broke(r);
  }

  /** Update of the owner Machine. It replaces all annotations, so the map must carry the hook just as
      the pending call does and every other one as it was fetched. */
  method UpdateOwner(w: Server, k: Key, owner: OwnerMachine,
                     ghost base: seq<Action>, ghost cfg: MachineConfig, ghost p: MPass)
    returns (ok: bool)
    requires At(w, base, k, cfg, p) && p.Run?
    requires (p.pc.UpdateHook? && owner.Hooked()) || (p.pc.RemoveHook? && !owner.Hooked())
    requires owner.OthersKept()
    modifies w
    ensures !ok ==> At(w, base, k, cfg, Idle(Failed))
    ensures ok ==> At(w, base, k, cfg, PassNext(cfg, p, Done))
  {
    var r := w.Await(k);
    ok := !Broke(r);
  }

  /** The credentials and the clients made of them. */
  method NewClients(w: Server, k: Key, ghost base: seq<Action>, ghost cfg: MachineConfig, ghost p: MPass)
    returns (ok: bool)
    requires At(w, base, k, cfg, p) && p.Run?
    requires p.pc.Connect?
    modifies w
    ensures !ok ==> At(w, base, k, cfg, Idle(Failed))
    ensures ok ==> At(w, base, k, cfg, PassNext(cfg, p, Done))
  {
    var r := w.Await(k);
    ok := !Broke(r);
  }

  method GetFlavorByName(w: Server, k: Key, name: string,
                         ghost base: seq<Action>, ghost cfg: MachineConfig, ghost p: MPass)
    returns (ok: bool, id: Id)
    requires At(w, base, k, cfg, p) && p.Run?
    requires p.pc.GetFlavor? && name == p.mem.spec.flavor
    modifies w
    ensures !ok ==> At(w, base, k, cfg, Idle(Failed))
    ensures ok ==> At(w, base, k, cfg, SetFlavor(p, id, PatchFlavor))
  {
    var r := w.Await(k);
    ok := !Broke(r);
    id := if ok then r.value.id else Unset;
  }

  method GetImageList(w: Server, k: Key, project: Id, ghost base: seq<Action>, ghost cfg: MachineConfig, ghost p: MPass)
    returns (ok: bool, images: seq<Image>)
    requires At(w, base, k, cfg, p) && p.Run?
    requires p.pc.ListImages? && project == p.clu.project
    modifies w
    ensures !ok ==> At(w, base, k, cfg, Idle(Failed))
    ensures ok ==> At(w, base, k, cfg, Scan(cfg, p, images, false))
  {
    var r := w.Await(k);
    ok := !Broke(r);
    images := if ok then r.value.images else [];
  }

  method GetBootstrapSecret(w: Server, k: Key, ghost base: seq<Action>, ghost cfg: MachineConfig, ghost p: MPass)
    returns (ok: bool, text: Option<string>)
    requires At(w, base, k, cfg, p) && p.Run?
    requires p.pc.GetSecret?
    modifies w
    ensures !ok ==> At(w, base, k, cfg, Idle(Failed))
    ensures ok ==> At(w, base, k, cfg, WithBootData(cfg, p, text))
  {
    var r := w.Await(k);
    ok := !Broke(r);
    text := if ok then r.value.text else None;
  }

  method CreateServer(w: Server, k: Key, subnet: Id, flavor: Id, image: Id, project: Id, sshKey: Id, zone: string,
                      user: Json, ghost base: seq<Action>, ghost cfg: MachineConfig, ghost p: MPass)
    returns (ok: bool, id: Id, addresses: seq<Option<string>>)
    requires At(w, base, k, cfg, p) && p.Run?
    requires p.pc.CreateInstance? && user == p.pc.user
    requires subnet == p.clu.subnet && project == p.clu.project && sshKey == p.clu.sshKey && zone == p.clu.zone
    requires flavor == p.mem.status.flavor && image == p.mem.status.image
    modifies w
    ensures !ok ==> At(w, base, k, cfg, Idle(Failed))
    ensures ok ==> At(w, base, k, cfg, WithInstance(p, id, addresses))
  {
    var r := w.Await(k);
    ok := !Broke(r);
    id, addresses := Unset, [];
    if ok {
      id, addresses := r.value.id, r.value.addresses;
    }
  }

  method CreateFloatingGroup(w: Server, k: Key, floatingIP: Id, project: Id, instance: Id,
                             ghost base: seq<Action>, ghost cfg: MachineConfig, ghost p: MPass)
    returns (ok: bool, ids: seq<Id>)
    requires At(w, base, k, cfg, p) && p.Run?
    requires p.pc.Attach? && floatingIP == p.clu.floatingIP && project == p.clu.project
    requires instance == p.mem.status.instance
    modifies w
    ensures !ok ==> At(w, base, k, cfg, Idle(Failed))
    ensures ok ==> At(w, base, k, cfg, if ids == [] then Idle(Failed) else SetAttachment(p, ids[0], PatchAttachment))
  {
    var r := w.Await(k);
    ok := !Broke(r);
    ids := if ok then r.value.ids else [];
  }

  method GetInstanceState(w: Server, k: Key, instance: Id, project: Id,
                          ghost base: seq<Action>, ghost cfg: MachineConfig, ghost p: MPass)
    returns (ok: bool, running: bool)
    requires At(w, base, k, cfg, p) && p.Run?
    requires p.pc.GetInstance? && project == p.clu.project && instance == p.mem.status.instance
    modifies w
    ensures !ok ==> At(w, base, k, cfg, Idle(Failed))
    ensures ok ==> At(w, base, k, cfg, if running then SetReady(p, PatchReady) else Idle(Requeued))
  {
    var r := w.Await(k);
    ok := !Broke(r);
    running := ok && r.value.running;
  }

  /** Clients, and the owner fetched anew. */
  method GetOwnerMachine(w: Server, k: Key, ghost base: seq<Action>, ghost cfg: MachineConfig, ghost p: MPass)
    returns (ok: bool, owner: OwnerMachine)
    requires At(w, base, k, cfg, p) && p.Run?
    requires p.pc.Prepare?
    modifies w
    ensures fresh(owner) && owner.controlPlane == cfg.controlPlane && owner.OthersKept()
    ensures !ok ==> At(w, base, k, cfg, Idle(Failed))
    ensures ok ==> At(w, base, k, cfg, GoHook(cfg, p.(hook := owner.Hooked())))
  {
    var controlPlane := w.sys.machines[k].cfg.controlPlane;
    var r := w.Await(k);
    ok := !Broke(r);
    var annotations := w.Annotations(ok && r.value.hook);
    owner := new OwnerMachine(controlPlane, annotations);
  }

  method DeleteFloatingGroup(w: Server, k: Key, project: Id, floatingIP: Id, instance: Id,
                             ghost base: seq<Action>, ghost cfg: MachineConfig, ghost p: MPass)
    returns (ok: bool)
    requires At(w, base, k, cfg, p) && p.Run?
    requires p.pc.Detach? && project == p.clu.project && floatingIP == p.clu.floatingIP
    requires instance == p.mem.status.instance
    modifies w
    ensures !ok ==> At(w, base, k, cfg, Idle(Failed))
    ensures ok ==> At(w, base, k, cfg, SetAttachment(p, Unset, PatchDetached))
  {
    var r := w.Await(k);
    ok := !Broke(r);
  }

  /** The same call in the branch that only logs its error. */
  method DeleteFloatingGroupLate(w: Server, k: Key, project: Id, floatingIP: Id, instance: Id,
                                 ghost base: seq<Action>, ghost cfg: MachineConfig, ghost p: MPass)
    returns (ok: bool)
    requires At(w, base, k, cfg, p) && p.Run?
    requires p.pc.LateDetach? && project == p.clu.project && floatingIP == p.clu.floatingIP
    requires instance == p.mem.status.instance
    modifies w
    ensures !ok ==> At(w, base, k, cfg, Idle(Failed))
    ensures ok ==> At(w, base, k, cfg, SetAttachment(p, Unset, PatchLateDetached))
  {
    var r := w.Await(k);
    ok := r.Some?;
  }

  method DeleteInstance(w: Server, k: Key, instance: Id, project: Id,
                        ghost base: seq<Action>, ghost cfg: MachineConfig, ghost p: MPass)
    returns (ok: bool)
    requires At(w, base, k, cfg, p) && p.Run?
    requires p.pc.Destroy? && project == p.clu.project && instance == p.mem.status.instance
    modifies w
    ensures !ok ==> At(w, base, k, cfg, Idle(Failed))
    ensures ok ==> At(w, base, k, cfg, ClearInstance(p, PatchDestroyed))
  {
    var r := w.Await(k);
    ok := !Broke(r);
  }

  // ---------- reconcileNormal ----------

  method SelectFlavor(w: Server, k: Key, obj: WXOneMachine,
                      ghost base: seq<Action>, ghost cfg: MachineConfig, ghost p: MPass)
    returns (ok: bool)
    requires p.Run? && p.mem == obj.Mem() && At(w, base, k, cfg, GoFlavor(cfg, p))
    modifies w, obj
    ensures !ok ==> At(w, base, k, cfg, Idle(Failed))
    ensures ok ==> At(w, base, k, cfg, GoImage(cfg, p.(mem := obj.Mem())))
  {
    if obj.flavor.Unset? {
      ghost var q := p.(pc := GetFlavor);
      var id: Id;
      ok, id := GetFlavorByName(w, k, obj.specFlavor, base, cfg, q);
      if !ok {
        return;
      }
      obj.flavor := id;
      GoIgnoresPc(cfg, p.(mem := obj.Mem()), PatchFlavor);
      ok := Patch(w, k, obj, base, cfg, p.(pc := PatchFlavor, mem := obj.Mem()));
      return;
    }
    assert p.(mem := obj.Mem()) == p;
    return true;
  }

  /** Where the code stands does not show in what it does next. */
  lemma GoIgnoresPc(cfg: MachineConfig, p: MPass, pc: MPc)
    requires p.Run?
    ensures GoImage(cfg, p.(pc := pc)) == GoImage(cfg, p)
    ensures GoAttach(cfg, p.(pc := pc)) == GoAttach(cfg, p)
    ensures GoReady(cfg, p.(pc := pc)) == GoReady(cfg, p)
  {
  }

  lemma DeleteIgnoresPc(cfg: MachineConfig, p: MPass, pc: MPc)
    requires p.Run?
    ensures GoDestroy(cfg, p.(pc := pc)) == GoDestroy(cfg, p)
    ensures GoFinalizerOff(p.(pc := pc)) == GoFinalizerOff(p)
  {
  }

  lemma {:induction false} ScanIgnoresPc(cfg: MachineConfig, p: MPass, pc: MPc, rest: seq<Image>, found: bool)
    requires p.Run?
    ensures Scan(cfg, p.(pc := pc), rest, found) == Scan(cfg, p, rest, found)
    decreases |rest|
  {
    if rest != [] && rest[0].name.Some? && rest[0].name.value != p.mem.spec.image {
      ScanIgnoresPc(cfg, p, pc, rest[1..], found);
    }
  }

  /** One turn of the loop that finds its image. */
  method RecordImage(w: Server, k: Key, obj: WXOneMachine, id: Id, ghost rest: seq<Image>,
                     ghost base: seq<Action>, ghost cfg: MachineConfig, ghost p: MPass)
    returns (ok: bool)
    requires p.Run? && p.mem == obj.Mem() && At(w, base, k, cfg, SetImage(p, id, PatchImage(rest)))
    modifies w, obj
    ensures obj.specImage == old(obj.specImage)
    ensures !ok ==> At(w, base, k, cfg, Idle(Failed))
    ensures ok ==> At(w, base, k, cfg, Scan(cfg, p.(mem := obj.Mem()), rest, true))
  {
    obj.image := id;
    ScanIgnoresPc(cfg, p.(mem := obj.Mem()), PatchImage(rest), rest, true);
    ok := Patch(w, k, obj, base, cfg, p.(pc := PatchImage(rest), mem := obj.Mem()));
  }

  method SelectImage(w: Server, k: Key, obj: WXOneMachine, clu: ClusterView,
                     ghost base: seq<Action>, ghost cfg: MachineConfig, ghost p: MPass)
    returns (ok: bool)
    requires p.Run? && p.mem == obj.Mem() && p.clu == clu && At(w, base, k, cfg, GoImage(cfg, p))
    modifies w, obj
    ensures !ok ==> At(w, base, k, cfg, Idle(Failed))
    ensures ok ==> At(w, base, k, cfg, GoInstance(cfg, p.(mem := obj.Mem())))
  {
    if obj.image.Unset? {
      ghost var q := p.(pc := ListImages);
      var images: seq<Image>;
      ok, images := GetImageList(w, k, clu.project, base, cfg, q);
      if !ok {
        return;
      }
      var imageFound := false;
      ScanIgnoresPc(cfg, p, ListImages, images, false);
      assert images[0..] == images;
      for i := 0 to |images|
        invariant At(w, base, k, cfg, Scan(cfg, p.(mem := obj.Mem()), images[i..], imageFound))
      {
        var image := images[i];
        assert images[i..][0] == image && images[i..][1..] == images[i + 1..];
        if image.name.None? {
          return false;
        }
        if image.name.value == obj.specImage {
          imageFound := true;
          ok := RecordImage(w, k, obj, image.id, images[i + 1..], base, cfg, p.(mem := obj.Mem()));
          if !ok {
            return;
          }
        }
      }
      return imageFound;
    }
    assert p.(mem := obj.Mem()) == p;
    return true;
  }

  /** The bootstrap secret, and the user data made of it. */
  method PrepareUserData(w: Server, k: Key, owner: OwnerMachine, lib: Library, clu: ClusterView,
                         ghost base: seq<Action>, ghost cfg: MachineConfig, ghost p: MPass)
    returns (user: Option<Json>)
    requires At(w, base, k, cfg, p) && p.Run? && p.pc.GetSecret? && p.clu == clu
    requires Makes(lib, cfg) && owner.controlPlane == cfg.controlPlane
    modifies w
    ensures user.None? ==> At(w, base, k, cfg, Idle(Failed))
    ensures user.Some? ==> At(w, base, k, cfg, p.(pc := CreateInstance(user.value)))
  {
    var ok, text := GetBootstrapSecret(w, k, base, cfg, p);
    if !ok || text.None? {
      return None;
    }
    user := MakeUserData(lib, text.value, owner.controlPlane, clu.ip);
  }

  method CreateVM(w: Server, k: Key, obj: WXOneMachine, owner: OwnerMachine, lib: Library, clu: ClusterView,
                  ghost base: seq<Action>, ghost cfg: MachineConfig, ghost p: MPass)
    returns (ok: bool)
    requires p.Run? && p.mem == obj.Mem() && p.clu == clu && At(w, base, k, cfg, GoInstance(cfg, p))
    requires Makes(lib, cfg) && owner.controlPlane == cfg.controlPlane
    modifies w, obj
    ensures !ok ==> At(w, base, k, cfg, Idle(Failed))
    ensures ok ==> At(w, base, k, cfg, GoAttach(cfg, p.(mem := obj.Mem())))
  {
    if obj.instance.Uuid? || obj.image.Unset? || obj.flavor.Unset? {
      assert p.(mem := obj.Mem()) == p;
      return true;
    }
    ghost var q := p.(pc := GetSecret);
    var user := PrepareUserData(w, k, owner, lib, clu, base, cfg, q);
    if user.None? {
      return false;
    }
    q := q.(pc := CreateInstance(user.value));
    var id: Id, addresses: seq<Option<string>>;
    ok, id, addresses := CreateServer(w, k, clu.subnet, obj.flavor, obj.image, clu.project, clu.sshKey, clu.zone,
                                      user.value, base, cfg, q);
    if ok {
      assert WithInstance(q, id, addresses) == WithInstance(p, id, addresses);
      ok := RecordInstance(w, k, obj, id, addresses, base, cfg, p);
    }
  }

  /** The loop over the addresses; it panics at a nil one. */
  method InternalAddresses(addresses: seq<Option<string>>) returns (values: Option<seq<string>>)
    ensures values.None? <==> exists i :: 0 <= i < |addresses| && addresses[i].None?
    ensures values.Some? ==> |values.value| == |addresses| && values.value == Values(addresses)
    ensures values.Some? ==> forall i :: 0 <= i < |addresses| ==> addresses[i] == Some(values.value[i])
  {
    var copy: seq<string> := [];
    for i := 0 to |addresses|
      invariant |copy| == i
      invariant forall j :: 0 <= j < i ==> addresses[j] == Some(copy[j])
    {
      if addresses[i].None? {
        return None;
      }
      copy := copy + [addresses[i].value];
    }
    assert copy == Values(addresses);
    return Some(copy);
  }

  /** What the code does with the reply of the create call. A nil address panics. */
  method RecordInstance(w: Server, k: Key, obj: WXOneMachine, id: Id, addresses: seq<Option<string>>,
                        ghost base: seq<Action>, ghost cfg: MachineConfig, ghost p: MPass)
    returns (ok: bool)
    requires p.Run? && p.mem == obj.Mem()
    requires At(w, base, k, cfg, WithInstance(p, id, addresses))
    modifies w, obj
    ensures ok ==>
      && obj.instance == id && |obj.addresses| == |addresses|
      && (forall i :: 0 <= i < |addresses| ==> addresses[i] == Some(obj.addresses[i]))
      && (id.Uuid? ==> obj.providerID == Some("wxone://" + id.text))
    ensures !ok ==> At(w, base, k, cfg, Idle(Failed))
    ensures ok ==> At(w, base, k, cfg, GoAttach(cfg, p.(mem := obj.Mem())))
  {
    obj.providerID := Some(ProviderID(id));
    obj.instance := id;
    var values := InternalAddresses(addresses);
    if values.None? {
      return false;
    }
    obj.addresses := values.value;
    GoIgnoresPc(cfg, p.(mem := obj.Mem()), PatchInstance);
    ghost var q := p.(pc := PatchInstance, mem := obj.Mem());
    assert q == WithInstance(p, id, addresses);
    ok := Patch(w, k, obj, base, cfg, q);
  }

  method AttachFloatingIP(w: Server, k: Key, obj: WXOneMachine, owner: OwnerMachine, clu: ClusterView,
                          ghost base: seq<Action>, ghost cfg: MachineConfig, ghost p: MPass)
    returns (ok: bool)
    requires p.Run? && p.mem == obj.Mem() && p.clu == clu && At(w, base, k, cfg, GoAttach(cfg, p))
    requires owner.controlPlane == cfg.controlPlane
    modifies w, obj
    ensures !ok ==> At(w, base, k, cfg, Idle(Failed))
    ensures ok ==> At(w, base, k, cfg, GoReady(cfg, p.(mem := obj.Mem())))
  {
    if !owner.controlPlane || obj.instance.Unset? || obj.attachment.Uuid? {
      assert p.(mem := obj.Mem()) == p;
      return true;
    }
    ghost var q := p.(pc := Attach);
    var ids: seq<Id>;
    ok, ids := CreateFloatingGroup(w, k, clu.floatingIP, clu.project, obj.instance, base, cfg, q);
    if !ok || ids == [] {
      return false;
    }
    obj.attachment := ids[0];
    q := q.(pc := PatchAttachment, mem := obj.Mem());
    ok := Patch(w, k, obj, base, cfg, q);
    GoIgnoresPc(cfg, p.(mem := obj.Mem()), PatchAttachment);
  }

  method MarkReady(w: Server, k: Key, obj: WXOneMachine, owner: OwnerMachine, clu: ClusterView,
                   ghost base: seq<Action>, ghost cfg: MachineConfig, ghost p: MPass)
    returns (out: Outcome)
    requires p.Run? && p.mem == obj.Mem() && p.clu == clu && At(w, base, k, cfg, GoReady(cfg, p))
    requires owner.controlPlane == cfg.controlPlane
    modifies w, obj
    ensures At(w, base, k, cfg, Idle(out))
  {
    if ((owner.controlPlane && obj.attachment.Uuid?) || !owner.controlPlane) && obj.instance.Uuid? {
      ghost var q := p.(pc := GetInstance);
      var ok, running := GetInstanceState(w, k, obj.instance, clu.project, base, cfg, q);
      if !ok {
        return Failed;
      }
      if !running {
        return Requeued;
      }
      obj.ready := true;
      ok := Patch(w, k, obj, base, cfg, q.(pc := PatchReady, mem := obj.Mem()));
      return if ok then MadeReady else Failed;
    }
    return FellThrough;
  }

  /** The hook, so that Cluster API waits later, and the finalizer. */
  method Register(w: Server, k: Key, obj: WXOneMachine, owner: OwnerMachine,
                  ghost base: seq<Action>, ghost cfg: MachineConfig, ghost p: MPass)
    returns (ok: bool)
    requires p.Run? && p.mem == obj.Mem() && p.hook == owner.Hooked() && owner.OthersKept()
    requires At(w, base, k, cfg, if p.hook then WithFinalizer(p) else p.(pc := UpdateHook))
    modifies w, obj, owner
    ensures var hook, was := "pre-drain.delete.hook.machine.cluster.x-k8s.io/manage-ecmp-route", old(owner.annotations);
      owner.annotations == if hook in was then was else was[hook := "true"]
    ensures !ok ==> At(w, base, k, cfg, Idle(Failed))
    ensures ok ==> At(w, base, k, cfg, p.(pc := Connect, hook := true, mem := obj.Mem()))
  {
    ghost var q := p;
    if !owner.Hooked() {
      owner.annotations := owner.annotations[PRE_DRAIN_HOOK := "true"];
      q := p.(pc := UpdateHook);
      ok := UpdateOwner(w, k, owner, base, cfg, q);
      if !ok {
        return;
      }
      q := q.(hook := true);
    }
    obj.finalizer := true;
    ok := Patch(w, k, obj, base, cfg, q.(pc := PatchFinalizer, mem := obj.Mem()));
  }

  method ReconcileNormal(w: Server, k: Key, obj: WXOneMachine, owner: OwnerMachine, lib: Library,
                         clu: ClusterView, infraReady: bool, bootstrapReady: bool,
                         ghost base: seq<Action>, ghost cfg: MachineConfig, ghost p: MPass)
    returns (out: Outcome)
    requires p.Run? && p == Run(p.pc, false, owner.Hooked(), clu, infraReady, bootstrapReady, obj.Mem(), obj.Mem())
    requires At(w, base, k, cfg, if p.hook then WithFinalizer(p) else p.(pc := UpdateHook))
    requires Makes(lib, cfg) && owner.controlPlane == cfg.controlPlane && owner.OthersKept()
    modifies w, obj, owner
    ensures At(w, base, k, cfg, Idle(out)) && owner.OthersKept()
  {
    var ok := Register(w, k, obj, owner, base, cfg, p);
    if !ok {
      return Failed;
    }
    ghost var q := p.(pc := Connect, hook := true, mem := obj.Mem());
    ok := NewClients(w, k, base, cfg, q);
    if !ok {
      return Failed;
    }
    if !infraReady {
      return WaitingForCluster;
    }
    if !bootstrapReady {
      return Requeued;
    }
    ok := SelectFlavor(w, k, obj, base, cfg, q);
    if !ok {
      return Failed;
    }
    ok := SelectImage(w, k, obj, clu, base, cfg, q.(mem := obj.Mem()));
    if !ok {
      return Failed;
    }
    ok := CreateVM(w, k, obj, owner, lib, clu, base, cfg, q.(mem := obj.Mem()));
    if !ok {
      return Failed;
    }
    ok := AttachFloatingIP(w, k, obj, owner, clu, base, cfg, q.(mem := obj.Mem()));
    if !ok {
      return Failed;
    }
    out := MarkReady(w, k, obj, owner, clu, base, cfg, q.(mem := obj.Mem()));
  }

  // ---------- reconcileDelete ----------

  /** Detach and forget the attachment, before anything is drained. */
  method WithdrawRoute(w: Server, k: Key, obj: WXOneMachine, owner: OwnerMachine, clu: ClusterView,
                       ghost base: seq<Action>, ghost cfg: MachineConfig, ghost p: MPass)
    returns (ok: bool)
    requires p.Run? && p.mem == obj.Mem() && p.clu == clu && p.hook && At(w, base, k, cfg, GoHook(cfg, p))
    requires owner.controlPlane == cfg.controlPlane
    modifies w, obj
    ensures !ok ==> At(w, base, k, cfg, Idle(Failed))
    ensures ok ==> At(w, base, k, cfg, p.(pc := RemoveHook, mem := obj.Mem()))
  {
    if !owner.controlPlane || obj.attachment.Unset? {
      return true;
    }
    ghost var q := p.(pc := Detach);
    ok := DeleteFloatingGroup(w, k, clu.project, clu.floatingIP, obj.instance, base, cfg, q);
    if ok {
      obj.attachment := Unset;
      ok := Patch(w, k, obj, base, cfg, q.(pc := PatchDetached, mem := obj.Mem()));
    }
  }

  method ReleaseHook(w: Server, k: Key, owner: OwnerMachine,
                     ghost base: seq<Action>, ghost cfg: MachineConfig, ghost p: MPass)
    returns (out: Outcome)
    requires p.Run? && p.pc.RemoveHook? && At(w, base, k, cfg, p) && owner.OthersKept()
    modifies w, owner
    ensures owner.annotations ==
              old(owner.annotations) - {"pre-drain.delete.hook.machine.cluster.x-k8s.io/manage-ecmp-route"}
    ensures At(w, base, k, cfg, Idle(out))
  {
    owner.annotations := owner.annotations - {PRE_DRAIN_HOOK};
    var updated := UpdateOwner(w, k, owner, base, cfg, p);
    return if updated then HookRemoved else Failed;
  }

  /** The branch without a hook: its error is only logged. */
  method LateWithdraw(w: Server, k: Key, obj: WXOneMachine, owner: OwnerMachine, clu: ClusterView,
                      ghost base: seq<Action>, ghost cfg: MachineConfig, ghost p: MPass)
    returns (ok: bool)
    requires p.Run? && p.mem == obj.Mem() && p.clu == clu && !p.hook && At(w, base, k, cfg, GoHook(cfg, p))
    requires owner.controlPlane == cfg.controlPlane
    modifies w, obj
    ensures !ok ==> At(w, base, k, cfg, Idle(Failed))
    ensures ok ==> At(w, base, k, cfg, GoDestroy(cfg, p.(mem := obj.Mem())))
  {
    if owner.controlPlane && obj.attachment.Uuid? {
      ghost var q := p.(pc := LateDetach);
      ok := DeleteFloatingGroupLate(w, k, clu.project, clu.floatingIP, obj.instance, base, cfg, q);
      if !ok {
        return;
      }
      obj.attachment := Unset;
      ok := Patch(w, k, obj, base, cfg, q.(pc := PatchLateDetached, mem := obj.Mem()));
      DeleteIgnoresPc(cfg, p.(mem := obj.Mem()), PatchLateDetached);
      return;
    }
    assert p.(mem := obj.Mem()) == p;
    return true;
  }

  method DestroyVM(w: Server, k: Key, obj: WXOneMachine, owner: OwnerMachine, clu: ClusterView,
                   ghost base: seq<Action>, ghost cfg: MachineConfig, ghost p: MPass)
    returns (ok: bool)
    requires p.Run? && p.mem == obj.Mem() && p.clu == clu && At(w, base, k, cfg, GoDestroy(cfg, p))
    requires owner.controlPlane == cfg.controlPlane
    modifies w, obj
    ensures !ok ==> At(w, base, k, cfg, Idle(Failed))
    ensures ok ==> At(w, base, k, cfg, GoFinalizerOff(p.(mem := obj.Mem())))
  {
    if obj.instance.Uuid? && (!owner.controlPlane || obj.attachment.Unset?) {
      ghost var q := p.(pc := Destroy);
      ok := DeleteInstance(w, k, obj.instance, clu.project, base, cfg, q);
      if !ok {
        return;
      }
      obj.instance := Unset;
      ok := Patch(w, k, obj, base, cfg, q.(pc := PatchDestroyed, mem := obj.Mem()));
      return;
    }
    assert p.(mem := obj.Mem()) == p;
    return true;
  }

  method ReleaseObject(w: Server, k: Key, obj: WXOneMachine,
                       ghost base: seq<Action>, ghost cfg: MachineConfig, ghost p: MPass)
    returns (out: Outcome)
    requires p.Run? && p.mem == obj.Mem() && At(w, base, k, cfg, GoFinalizerOff(p))
    modifies w, obj
    ensures At(w, base, k, cfg, Idle(out))
  {
    if obj.instance.Uuid? {
      return Requeued;
    }
    obj.finalizer := false;
    var ok := Patch(w, k, obj, base, cfg, p.(pc := PatchFinalizerOff, mem := obj.Mem()));
    return if ok then FinalizerRemoved else Failed;
  }

  /** The owner Machine is fetched anew. */
  method ReconcileDelete(w: Server, k: Key, obj: WXOneMachine, clu: ClusterView,
                         ghost base: seq<Action>, ghost cfg: MachineConfig, ghost p: MPass)
    returns (out: Outcome)
    requires p.Run? && p.pc.Prepare? && p.del && p.mem == obj.Mem() && p.clu == clu && At(w, base, k, cfg, p)
    modifies w, obj
    ensures At(w, base, k, cfg, Idle(out))
  {
    var ok, owner := GetOwnerMachine(w, k, base, cfg, p);
    if !ok {
      return Failed;
    }
    ghost var q := p.(hook := owner.Hooked());
    if owner.Hooked() {
      ok := WithdrawRoute(w, k, obj, owner, clu, base, cfg, q);
      if !ok {
        return Failed;
      }
      out := ReleaseHook(w, k, owner, base, cfg, q.(pc := RemoveHook, mem := obj.Mem()));
      return;
    }
    ok := LateWithdraw(w, k, obj, owner, clu, base, cfg, q);
    if !ok {
      return Failed;
    }
    ok := DestroyVM(w, k, obj, owner, clu, base, cfg, q.(mem := obj.Mem()));
    if !ok {
      return Failed;
    }
    out := ReleaseObject(w, k, obj, base, cfg, q.(mem := obj.Mem()));
  }

  // ---------- Reconcile ----------

  /** One call of Reconcile, in a world in which everything else goes on meanwhile: the system
      has made a run, at the end of which the pass is over with the outcome returned. */
  method Reconcile(w: Server, k: Key, lib: Library, ghost base: seq<Action>) returns (out: Outcome)
    requires w.Valid() && base <= w.log && Enabled(w.sys, Begin(k)) && Makes(lib, w.sys.machines[k].cfg)
    modifies w
    ensures At(w, base, k, old(w.sys.machines[k].cfg), Idle(out)) && Reachable(w.sys)
  {
    ghost var cfg := w.sys.machines[k].cfg;
    var obj, owner, deleting := Fetch(w, k, base);
    ghost var p := Run(LookupCluster, deleting, owner.Hooked(), NO_VIEW, false, false, obj.Mem(), obj.Mem());
    var r := w.Await(k);
    w.WasReached();
    if Broke(r) {
      return Failed;
    }
    if r.value.Absent? {
      return Skipped;
    }
    var clu, infraReady, bootstrapReady := r.value.clu, r.value.infra, r.value.bootstrap;
    p := p.(clu := clu, infra := infraReady, bootstrap := bootstrapReady);
    if deleting {
      out := ReconcileDelete(w, k, obj, clu, base, cfg, p.(pc := Prepare));
    } else {
      out := ReconcileNormal(w, k, obj, owner, lib, clu, infraReady, bootstrapReady, base, cfg, p);
    }
    w.WasReached();
  }
}
