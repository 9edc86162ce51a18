/** Every step of a machine pass keeps the invariant of that machine. */
module MachineSteps {
  import opened Api
  import opened System
  import opened Invariant

  /** What a step of machine `k` may rely on. */
  ghost predicate Ready(c: Cluster, infraReady: bool, cloud: Cloud, k: Key, m: Machine, r: Reply)
  {
    && m.pass.Run? && MayReply(c, infraReady, cloud, m, r)
    && CStored(cloud, c) && (infraReady && !c.deletionSeen ==> Complete(c.obj))
    && RoutesMade(cloud) && MInv(c, cloud, k, m)
  }

  /** `m'` and `cloud'` are what the step with reply `r` makes of `m` and `cloud`. */
  ghost predicate Moves(c: Cluster, infraReady: bool, cloud: Cloud, k: Key, m: Machine, r: Reply,
                        m': Machine, cloud': Cloud)
  {
    && Ready(c, infraReady, cloud, k, m, r)
    && m' == StepMachine(m, PassNext(m.cfg, m.pass, r), r)
    && cloud' == StepCloud(cloud, k, m.pass, PassNext(m.cfg, m.pass, r), r)
  }

  /** What the ledger, the routes and the calls say of a machine depends on little of it. */
  lemma SameCloudKeeps(c: Cluster, cloud: Cloud, k: Key, m: Machine, m': Machine)
    requires MLedger(cloud, k, m) && MRoutes(c, cloud, k, m) && MCalls(c, cloud, k, m)
    requires m'.first == m.first && m'.cfg == m.cfg && Flight(m'.pass) == Flight(m.pass)
    requires m'.obj.spec.image == m.obj.spec.image
    requires forall i :: RouteHeld(m, i) ==> RouteHeld(m', i)
    ensures MLedger(cloud, k, m') && MRoutes(c, cloud, k, m') && MCalls(c, cloud, k, m')
  {
  }

  /** A step that changes nothing but the pass. */
  lemma QuietKeeps(c: Cluster, cloud: Cloud, k: Key, m: Machine, q: MPass, m': Machine)
    requires MInv(c, cloud, k, m) && m.pass.Run? && MPassOk(c, cloud, k, m.(pass := q)) && m' == Count(m, q)
    requires Flight(m.pass).Unset? && !m.pass.pc.PatchAttachment?
    requires if q.Run? then Flight(q).Unset? && !q.pc.PatchAttachment?
             else !m.pass.del || q.last == Failed || q.last == Skipped
    ensures MInv(c, cloud, k, m')
  {
    SameCloudKeeps(c, cloud, k, m, m');
  }

  /** A patch of a creating pass that leaves the instance and the attachment alone. */
  lemma PatchedKeeps(c: Cluster, cloud: Cloud, k: Key, m: Machine, q: MPass, m': Machine)
    requires MInv(c, cloud, k, m) && m.pass.Run? && !m.pass.del
    requires m.pass.pc.PatchFinalizer? || m.pass.pc.PatchFlavor? || m.pass.pc.PatchImage? || m.pass.pc.PatchReady?
    requires m' == m.(obj := Merged(m), pass := q) && MStored(c, cloud, k, m.(obj := Merged(m)))
    requires q.Run? ==> MPassOk(c, cloud, k, m') && Flight(q).Unset? && !q.pc.PatchAttachment?
    ensures MInv(c, cloud, k, m')
  {
    SameCloudKeeps(c, cloud, k, m, m');
  }

  // reconcileNormal, from a state in which memory mirrors the stored object

  /** The code is past its gates and everything in memory is stored. */
  ghost predicate Steady(c: Cluster, cloud: Cloud, k: Key, m: Machine, p: MPass)
  {
    && p.Run? && !p.del && p.infra && p.bootstrap
    && SpecCarried(p.mem.spec, m.obj.spec) && SpecCarried(p.before.spec, m.obj.spec)
    && MPassNormal(c, cloud, k, m.(pass := p.(pc := Connect)))
  }

  /** `q` is `p` at another read or create, or the end of the pass. */
  predicate Onward(p: MPass, q: MPass)
    requires p.Run?
  {
    q == Idle(FellThrough)
    || (q.Run? && (q.pc.GetFlavor? || q.pc.ListImages? || q.pc.GetSecret? || q.pc.Attach? || q.pc.GetInstance?)
        && q == p.(pc := q.pc))
  }

  lemma GoReadyKeeps(c: Cluster, cloud: Cloud, k: Key, m: Machine, p: MPass)
    requires Steady(c, cloud, k, m, p)
    ensures Onward(p, GoReady(m.cfg, p)) && MPassOk(c, cloud, k, m.(pass := GoReady(m.cfg, p)))
  {
  }

  lemma GoAttachKeeps(c: Cluster, cloud: Cloud, k: Key, m: Machine, p: MPass)
    requires Steady(c, cloud, k, m, p)
    ensures Onward(p, GoAttach(m.cfg, p)) && MPassOk(c, cloud, k, m.(pass := GoAttach(m.cfg, p)))
  {
    GoReadyKeeps(c, cloud, k, m, p);
  }

  lemma GoInstanceKeeps(c: Cluster, cloud: Cloud, k: Key, m: Machine, p: MPass)
    requires Steady(c, cloud, k, m, p)
    ensures Onward(p, GoInstance(m.cfg, p)) && MPassOk(c, cloud, k, m.(pass := GoInstance(m.cfg, p)))
  {
    GoAttachKeeps(c, cloud, k, m, p);
  }

  lemma GoImageKeeps(c: Cluster, cloud: Cloud, k: Key, m: Machine, p: MPass)
    requires Steady(c, cloud, k, m, p)
    ensures Onward(p, GoImage(m.cfg, p)) && MPassOk(c, cloud, k, m.(pass := GoImage(m.cfg, p)))
  {
    GoInstanceKeeps(c, cloud, k, m, p);
  }

  lemma GoFlavorKeeps(c: Cluster, cloud: Cloud, k: Key, m: Machine, p: MPass)
    requires Steady(c, cloud, k, m, p)
    ensures Onward(p, GoFlavor(m.cfg, p)) && MPassOk(c, cloud, k, m.(pass := GoFlavor(m.cfg, p)))
  {
    GoImageKeeps(c, cloud, k, m, p);
  }

  /** The loop stops at a panic, at the first match of what is left, or after the list. */
  lemma {:induction false} ScanStops(cfg: MachineConfig, p: MPass, rest: seq<Image>, found: bool)
    requires p.Run?
    ensures var q := Scan(cfg, p, rest, found);
      || q == Idle(Failed)
      || (found && q == GoInstance(cfg, p))
      || exists j :: 0 <= j < |rest| && rest[j].name == Some(p.mem.spec.image)
           && q == SetImage(p, rest[j].id, PatchImage(rest[j + 1..]))
    decreases |rest|
  {
    if rest == [] || rest[0].name.None? {
    } else if rest[0].name.value == p.mem.spec.image {
      assert rest[0].name == Some(p.mem.spec.image);
    } else {
      ScanStops(cfg, p, rest[1..], found);
      var q := Scan(cfg, p, rest[1..], found);
      if q != Idle(Failed) && !(found && q == GoInstance(cfg, p)) {
        var j :| 0 <= j < |rest[1..]| && rest[1..][j].name == Some(p.mem.spec.image)
          && q == SetImage(p, rest[1..][j].id, PatchImage(rest[1..][j + 1..]));
        assert rest[j + 1] == rest[1..][j] && rest[j + 2..] == rest[1..][j + 1..];
      }
    }
  }

  lemma LookedUpKeeps(c: Cluster, infraReady: bool, cloud: Cloud, k: Key, m: Machine, r: Reply)
    requires Ready(c, infraReady, cloud, k, m, r) && m.pass.pc.LookupCluster? && r.GotCluster?
    ensures MPassOk(c, cloud, k, m.(pass := PassNext(m.cfg, m.pass, r)))
    ensures var q := PassNext(m.cfg, m.pass, r); q.Run? && (q.pc.Prepare? || q.pc.UpdateHook? || q.pc.PatchFinalizer?)
  {
    if m.pass.del {
      LookedUpDeleting(c, cloud, k, m, r);
    } else {
      LookedUpCreating(c, infraReady, cloud, k, m, r);
    }
  }

  lemma LookedUpDeleting(c: Cluster, cloud: Cloud, k: Key, m: Machine, r: Reply)
    requires MStored(c, cloud, k, m) && MPassOk(c, cloud, k, m) && m.pass.Run? && m.pass.del
    requires m.pass.pc.LookupCluster? && r.GotCluster? && r.clu == View(c.obj)
    ensures MPassOk(c, cloud, k, m.(pass := PassNext(m.cfg, m.pass, r)))
  {
  }

  lemma LookedUpCreating(c: Cluster, infraReady: bool, cloud: Cloud, k: Key, m: Machine, r: Reply)
    requires MStored(c, cloud, k, m) && MPassOk(c, cloud, k, m) && m.pass.Run? && !m.pass.del
    requires m.pass.pc.LookupCluster? && r.GotCluster? && r.clu == View(c.obj) && (r.infra ==> infraReady)
    requires infraReady && !c.deletionSeen ==> Complete(c.obj)
    requires c.deletionSeen ==> c.deleting
    ensures MPassOk(c, cloud, k, m.(pass := PassNext(m.cfg, m.pass, r)))
  {
  }

  lemma LookedUpMoves(c: Cluster, infraReady: bool, cloud: Cloud, k: Key, m: Machine, r: Reply, m': Machine)
    requires Ready(c, infraReady, cloud, k, m, r) && m.pass.pc.LookupCluster? && r.GotCluster?
    requires m' == m.(pass := PassNext(m.cfg, m.pass, r))
    ensures MInv(c, cloud, k, m')
  {
    LookedUpKeeps(c, infraReady, cloud, k, m, r);
    SameCloudKeeps(c, cloud, k, m, m');
  }

  lemma LookupClusterKeeps(c: Cluster, infraReady: bool, cloud: Cloud, k: Key, m: Machine, r: Reply,
                  m': Machine, cloud': Cloud)
    requires Moves(c, infraReady, cloud, k, m, r, m', cloud') && m.pass.pc.LookupCluster?
    ensures MInv(c, cloud', k, m')
  {
    assert cloud' == cloud;
    if r.GotCluster? {
      LookedUpMoves(c, infraReady, cloud', k, m, r, m');
    } else {
      QuietKeeps(c, cloud', k, m, if r.Absent? then Idle(Skipped) else Idle(Failed), m');
    }
  }

  lemma HookedKeeps(c: Cluster, cloud: Cloud, k: Key, m: Machine, q: MPass, m': Machine)
    requires MInv(c, cloud, k, m) && m.pass.Run? && m.pass.pc.UpdateHook?
    requires q == Idle(Failed) || q == WithFinalizer(m.pass.(hook := true))
    requires m' == m.(hook := true, pass := q) || (m' == Count(m, q) && q.Idle?)
    ensures MInv(c, cloud, k, m')
  {
    SameCloudKeeps(c, cloud, k, m, m');
  }

  lemma UpdateHookKeeps(c: Cluster, infraReady: bool, cloud: Cloud, k: Key, m: Machine, r: Reply,
                  m': Machine, cloud': Cloud)
    requires Moves(c, infraReady, cloud, k, m, r, m', cloud') && m.pass.pc.UpdateHook?
    ensures MInv(c, cloud', k, m')
  {
    assert cloud' == cloud;
    HookedKeeps(c, cloud', k, m, PassNext(m.cfg, m.pass, r), m');
  }

  /** A patch that a creating pass makes outside of its instance block. */
  lemma FinalizerPatchStores(c: Cluster, cloud: Cloud, k: Key, m: Machine)
    requires MInv(c, cloud, k, m) && m.pass.Run? && m.pass.pc.PatchFinalizer?
    requires PatchAllowed(m)
    ensures MStored(c, cloud, k, m.(obj := Merged(m)))
  {
  }

  lemma FinalizerPatchPasses(c: Cluster, cloud: Cloud, k: Key, m: Machine)
    requires MInv(c, cloud, k, m) && m.pass.Run? && m.pass.pc.PatchFinalizer?
    ensures MPassOk(c, cloud, k, m.(obj := Merged(m), pass := m.pass.(pc := Connect)))
  {
  }

  lemma PatchFinalizerKeeps(c: Cluster, infraReady: bool, cloud: Cloud, k: Key, m: Machine, r: Reply,
                  m': Machine, cloud': Cloud)
    requires Moves(c, infraReady, cloud, k, m, r, m', cloud') && m.pass.pc.PatchFinalizer?
    ensures MInv(c, cloud', k, m')
  {
    assert cloud' == cloud;
    if Took(r) {
      FinalizerPatchStores(c, cloud', k, m);
      FinalizerPatchPasses(c, cloud', k, m);
      PatchedKeeps(c, cloud', k, m, PassNext(m.cfg, m.pass, r), m');
    } else {
      QuietKeeps(c, cloud', k, m, Idle(Failed), m');
    }
  }

  lemma ConnectKeeps(c: Cluster, infraReady: bool, cloud: Cloud, k: Key, m: Machine, r: Reply,
                  m': Machine, cloud': Cloud)
    requires Moves(c, infraReady, cloud, k, m, r, m', cloud') && m.pass.pc.Connect?
    ensures MInv(c, cloud', k, m')
  {
    assert cloud' == cloud;
    if r.Done? && m.pass.infra && m.pass.bootstrap {
      GoFlavorKeeps(c, cloud', k, m, m.pass);
    }
    QuietKeeps(c, cloud', k, m, PassNext(m.cfg, m.pass, r), m');
  }

  lemma FlavorPending(c: Cluster, cloud: Cloud, k: Key, m: Machine, id: Id)
    requires MPassOk(c, cloud, k, m) && m.pass.Run? && m.pass.pc.GetFlavor?
    ensures MPassOk(c, cloud, k, m.(pass := SetFlavor(m.pass, id, PatchFlavor)))
  {
  }

  lemma GetFlavorKeeps(c: Cluster, infraReady: bool, cloud: Cloud, k: Key, m: Machine, r: Reply,
                  m': Machine, cloud': Cloud)
    requires Moves(c, infraReady, cloud, k, m, r, m', cloud') && m.pass.pc.GetFlavor?
    ensures MInv(c, cloud', k, m')
  {
    assert cloud' == cloud;
    if r.GotId? {
      FlavorPending(c, cloud', k, m, r.id);
      QuietKeeps(c, cloud', k, m, SetFlavor(m.pass, r.id, PatchFlavor), m');
    } else {
      QuietKeeps(c, cloud', k, m, Idle(Failed), m');
    }
  }

  /** A patch of the flavor or the image leaves memory and store in agreement. */
  lemma SelectionPatchKeeps(c: Cluster, cloud: Cloud, k: Key, m: Machine)
    requires MInv(c, cloud, k, m) && m.pass.Run? && (m.pass.pc.PatchFlavor? || m.pass.pc.PatchImage?)
    ensures MStored(c, cloud, k, m.(obj := Merged(m)))
    ensures Steady(c, cloud, k, m.(obj := Merged(m)), m.pass)
  {
  }

  lemma PatchFlavorKeeps(c: Cluster, infraReady: bool, cloud: Cloud, k: Key, m: Machine, r: Reply,
                  m': Machine, cloud': Cloud)
    requires Moves(c, infraReady, cloud, k, m, r, m', cloud') && m.pass.pc.PatchFlavor?
    ensures MInv(c, cloud', k, m')
  {
    assert cloud' == cloud;
    if Took(r) {
      SelectionPatchKeeps(c, cloud', k, m);
      if r.Done? {
        GoImageKeeps(c, cloud', k, m.(obj := Merged(m)), m.pass);
      }
      PatchedKeeps(c, cloud', k, m, PassNext(m.cfg, m.pass, r), m');
    } else {
      QuietKeeps(c, cloud', k, m, Idle(Failed), m');
    }
  }

  lemma ScanKeeps(c: Cluster, cloud: Cloud, k: Key, m: Machine, p: MPass, rest: seq<Image>, found: bool)
    requires Steady(c, cloud, k, m, p) && p.before.status.image.Unset? && ImagesOffered(cloud, rest)
    ensures var q := Scan(m.cfg, p, rest, found);
      && MPassOk(c, cloud, k, m.(pass := q))
      && (q.Idle? || (Flight(q).Unset? && !q.pc.PatchAttachment?))
  {
    ScanStops(m.cfg, p, rest, found);
    GoInstanceKeeps(c, cloud, k, m, p);
  }

  /** `cloud'` differs from `cloud` only in that more images or secrets were seen. */
  predicate MoreSeen(cloud: Cloud, cloud': Cloud)
  {
    && cloud' == cloud.(offered := cloud'.offered, secrets := cloud'.secrets)
    && cloud.offered <= cloud'.offered && cloud.secrets <= cloud'.secrets
  }

  lemma SeeingKeepsObject(c: Cluster, cloud: Cloud, k: Key, m: Machine, cloud': Cloud)
    requires MStored(c, cloud, k, m) && MPassOk(c, cloud, k, m) && MoreSeen(cloud, cloud')
    ensures MStored(c, cloud', k, m) && MPassOk(c, cloud', k, m)
  {
  }

  /** Seeing more takes nothing back. */
  lemma SeeingKeeps(c: Cluster, cloud: Cloud, k: Key, m: Machine, cloud': Cloud)
    requires MInv(c, cloud, k, m) && MoreSeen(cloud, cloud')
    ensures MInv(c, cloud', k, m)
  {
    SeeingKeepsObject(c, cloud, k, m, cloud');
  }

  lemma SeenImagesOffered(cloud: Cloud, r: Reply)
    requires r.GotImages?
    ensures ImagesOffered(cloud.(offered := StepOffered(cloud, r)), r.images)
  {
    forall i | 0 <= i < |r.images| && r.images[i].name.Some?
      ensures (r.images[i].name.value, r.images[i].id) in StepOffered(cloud, r)
    {
      assert r.images[i] in r.images;
    }
  }

  lemma ImagesSeenKeep(c: Cluster, cloud: Cloud, k: Key, m: Machine, r: Reply, m': Machine, cloud': Cloud)
    requires MInv(c, cloud, k, m) && m.pass.Run? && m.pass.pc.ListImages? && !m.pass.del && r.GotImages?
    requires cloud' == cloud.(offered := StepOffered(cloud, r))
    requires m' == Count(m, Scan(m.cfg, m.pass, r.images, false))
    ensures MInv(c, cloud', k, m')
  {
    SeeingKeeps(c, cloud, k, m, cloud');
    SeenImagesOffered(cloud, r);
    ScanKeeps(c, cloud', k, m, m.pass, r.images, false);
    QuietKeeps(c, cloud', k, m, Scan(m.cfg, m.pass, r.images, false), m');
  }

  lemma ListImagesKeeps(c: Cluster, infraReady: bool, cloud: Cloud, k: Key, m: Machine, r: Reply,
                  m': Machine, cloud': Cloud)
    requires Moves(c, infraReady, cloud, k, m, r, m', cloud') && m.pass.pc.ListImages?
    ensures MInv(c, cloud', k, m')
  {
    if r.GotImages? {
      ImagesSeenKeep(c, cloud, k, m, r, m', cloud');
    } else {
      assert cloud' == cloud;
      QuietKeeps(c, cloud', k, m, Idle(Failed), m');
    }
  }

  lemma PatchImageKeeps(c: Cluster, infraReady: bool, cloud: Cloud, k: Key, m: Machine, r: Reply,
                  m': Machine, cloud': Cloud)
    requires Moves(c, infraReady, cloud, k, m, r, m', cloud') && m.pass.pc.PatchImage?
    ensures MInv(c, cloud', k, m')
  {
    assert cloud' == cloud;
    if Took(r) {
      SelectionPatchKeeps(c, cloud', k, m);
      if r.Done? {
        ScanKeeps(c, cloud', k, m.(obj := Merged(m)), m.pass, m.pass.pc.rest, true);
      }
      PatchedKeeps(c, cloud', k, m, PassNext(m.cfg, m.pass, r), m');
    } else {
      QuietKeeps(c, cloud', k, m, Idle(Failed), m');
    }
  }

  lemma BootDataPending(c: Cluster, cloud: Cloud, k: Key, m: Machine, text: Option<string>)
    requires MPassOk(c, cloud, k, m) && m.pass.Run? && m.pass.pc.GetSecret?
    requires text.Some? ==> (k, text.value) in cloud.secrets
    ensures MPassOk(c, cloud, k, m.(pass := WithBootData(m.cfg, m.pass, text))) && !m.pass.del
    ensures var q := WithBootData(m.cfg, m.pass, text); q.Run? ==> q.pc.CreateInstance?
  {
  }

  lemma GetSecretKeeps(c: Cluster, infraReady: bool, cloud: Cloud, k: Key, m: Machine, r: Reply,
                  m': Machine, cloud': Cloud)
    requires Moves(c, infraReady, cloud, k, m, r, m', cloud') && m.pass.pc.GetSecret?
    ensures MInv(c, cloud', k, m')
  {
    assert cloud' == cloud.(secrets := StepSecrets(cloud, k, r));
    SeeingKeeps(c, cloud, k, m, cloud');
    if r.GotSecret? {
      BootDataPending(c, cloud', k, m, r.text);
      QuietKeeps(c, cloud', k, m, WithBootData(m.cfg, m.pass, r.text), m');
    } else {
      QuietKeeps(c, cloud', k, m, Idle(Failed), m');
    }
  }

  lemma CreateInstanceStored(c: Cluster, infraReady: bool, cloud: Cloud, k: Key, m: Machine, r: Reply,
                  m': Machine, cloud': Cloud)
    requires Moves(c, infraReady, cloud, k, m, r, m', cloud') && m.pass.pc.CreateInstance?
    ensures MStored(c, cloud', k, m')
  {
  }

  lemma InstancePending(c: Cluster, cloud: Cloud, k: Key, m: Machine, id: Id, addresses: seq<string>, cloud': Cloud)
    requires MPassOk(c, cloud, k, m) && m.pass.Run? && m.pass.pc.CreateInstance? && Fresh(cloud, id)
    requires MStored(c, cloud, k, m) && cloud'.offered == cloud.offered
    requires cloud'.res == cloud.res[id := Resource(Instance, m.pass.clu.project, OfMachine(k), true, false, false)]
    ensures MPassOk(c, cloud', k, m.(pass := SetInstance(m.pass, id, addresses, PatchInstance)))
  {
  }

  lemma CreateInstancePass(c: Cluster, infraReady: bool, cloud: Cloud, k: Key, m: Machine, r: Reply,
                  m': Machine, cloud': Cloud)
    requires Moves(c, infraReady, cloud, k, m, r, m', cloud') && m.pass.pc.CreateInstance?
    ensures MPassOk(c, cloud', k, m')
  {
    var q := PassNext(m.cfg, m.pass, r);
    if q.Run? {
      InstancePending(c, cloud, k, m, r.id, Values(r.addresses), cloud');
      assert m' == m.(pass := SetInstance(m.pass, r.id, Values(r.addresses), PatchInstance));
    }
  }

  lemma MadeLedger(cloud: Cloud, k: Key, m: Machine, m': Machine, cloud': Cloud, id: Id)
    requires MLedger(cloud, k, m) && Flight(m.pass).Unset? && m'.first == m.first && Fresh(cloud, id)
    requires Flight(m'.pass).Unset? || Flight(m'.pass) == id
    requires id in cloud'.res && cloud'.res == cloud.res[id := cloud'.res[id]]
    requires var r := cloud'.res[id];
      r.kind == Instance && r.live && !r.kept && r.lost == Flight(m'.pass).Unset?
    ensures MLedger(cloud', k, m')
  {
  }

  lemma CreateInstanceLedger(c: Cluster, infraReady: bool, cloud: Cloud, k: Key, m: Machine, r: Reply,
                  m': Machine, cloud': Cloud)
    requires Moves(c, infraReady, cloud, k, m, r, m', cloud') && m.pass.pc.CreateInstance?
    ensures MLedger(cloud', k, m')
  {
    var next := PassNext(m.cfg, m.pass, r);
    if Took(r) {
      MadeLedger(cloud, k, m, m', cloud', NewId(r));
    }
  }

  /** What a create call must be for the calls of machine `k` to stay in order. */
  ghost predicate CreateFits(c: Cluster, cloud: Cloud, k: Key, m: Machine, x: Call)
    requires x.CreateInstanceCall?
  {
    && (m.obj.spec.image, x.image) in cloud.offered && x.project == c.obj.status.project
    && x.project.Uuid? && c.first.floatingIP.Uuid?
    && FromSecret(cloud, k, m.cfg, c.obj.status.ip, x.user)
  }

  lemma CreateCallFits(c: Cluster, cloud: Cloud, k: Key, m: Machine)
    requires CStored(cloud, c) && MStored(c, cloud, k, m) && MPassOk(c, cloud, k, m)
    requires m.pass.Run? && m.pass.pc.CreateInstance? && !m.pass.del
    ensures var st, v := m.pass.mem.status, m.pass.clu;
      CreateFits(c, cloud, k, m,
        CreateInstanceCall(k, v.zone, v.subnet, st.flavor, st.image, v.project, v.sshKey, m.pass.pc.user))
  {
  }

  lemma CreateCallAdded(c: Cluster, cloud: Cloud, k: Key, m: Machine, m': Machine, cloud': Cloud, x: Call)
    requires MCalls(c, cloud, k, m) && x.CreateInstanceCall? && x.key == k && CreateFits(c, cloud, k, m, x)
    requires cloud'.calls == cloud.calls + {x}
    requires cloud'.offered == cloud.offered && cloud'.secrets == cloud.secrets
    requires m'.first == m.first && m'.cfg == m.cfg && m'.obj == m.obj
    ensures MCalls(c, cloud', k, m')
  {
  }

  lemma CreateInstanceCalls(c: Cluster, infraReady: bool, cloud: Cloud, k: Key, m: Machine, r: Reply,
                  m': Machine, cloud': Cloud)
    requires Moves(c, infraReady, cloud, k, m, r, m', cloud') && m.pass.pc.CreateInstance?
    ensures MCalls(c, cloud', k, m')
  {
    var st, v := m.pass.mem.status, m.pass.clu;
    var x := CreateInstanceCall(k, v.zone, v.subnet, st.flavor, st.image, v.project, v.sshKey, m.pass.pc.user);
    CreateCallFits(c, cloud, k, m);
    CreateCallAdded(c, cloud, k, m, m', cloud', x);
  }

  lemma CreateInstanceRoutes(c: Cluster, infraReady: bool, cloud: Cloud, k: Key, m: Machine, r: Reply,
                  m': Machine, cloud': Cloud)
    requires Moves(c, infraReady, cloud, k, m, r, m', cloud') && m.pass.pc.CreateInstance?
    ensures MRoutes(c, cloud', k, m')
  {
  }

  lemma CreateInstanceKeeps(c: Cluster, infraReady: bool, cloud: Cloud, k: Key, m: Machine, r: Reply,
                  m': Machine, cloud': Cloud)
    requires Moves(c, infraReady, cloud, k, m, r, m', cloud') && m.pass.pc.CreateInstance?
    ensures MInv(c, cloud', k, m')
  {
    CreateInstanceStored(c, infraReady, cloud, k, m, r, m', cloud');
    CreateInstancePass(c, infraReady, cloud, k, m, r, m', cloud');
    CreateInstanceLedger(c, infraReady, cloud, k, m, r, m', cloud');
    CreateInstanceCalls(c, infraReady, cloud, k, m, r, m', cloud');
    CreateInstanceRoutes(c, infraReady, cloud, k, m, r, m', cloud');
  }

  /** The instance is recorded: memory and store agree again. */
  lemma InstancePatchStores(c: Cluster, cloud: Cloud, k: Key, m: Machine, cloud': Cloud)
    requires CStored(cloud, c) && MInv(c, cloud, k, m) && m.pass.Run? && m.pass.pc.PatchInstance?
    requires cloud' == cloud.(res := KeepId(cloud.res, m.pass.mem.status.instance), calls := cloud'.calls)
    requires cloud.calls <= cloud'.calls
    requires PatchAllowed(m)
    ensures MStored(c, cloud', k, m.(obj := Merged(m), first := m.pass.mem.status.instance))
  {
  }

  lemma InstancePatchSteady(c: Cluster, cloud: Cloud, k: Key, m: Machine, cloud': Cloud)
    requires CStored(cloud, c) && MInv(c, cloud, k, m) && m.pass.Run? && m.pass.pc.PatchInstance?
    requires cloud' == cloud.(res := KeepId(cloud.res, m.pass.mem.status.instance), calls := cloud'.calls)
    requires cloud.calls <= cloud'.calls
    ensures Steady(c, cloud', k, m.(obj := Merged(m), first := m.pass.mem.status.instance), m.pass)
  {
  }

  lemma PatchInstanceStored(c: Cluster, infraReady: bool, cloud: Cloud, k: Key, m: Machine, r: Reply,
                  m': Machine, cloud': Cloud)
    requires Moves(c, infraReady, cloud, k, m, r, m', cloud') && m.pass.pc.PatchInstance?
    ensures MStored(c, cloud', k, m')
  {
    if Took(r) {
      InstancePatchStores(c, cloud, k, m, cloud');
    }
  }

  lemma PatchInstancePass(c: Cluster, infraReady: bool, cloud: Cloud, k: Key, m: Machine, r: Reply,
                  m': Machine, cloud': Cloud)
    requires Moves(c, infraReady, cloud, k, m, r, m', cloud') && m.pass.pc.PatchInstance?
    ensures MPassOk(c, cloud', k, m')
  {
    if r.Done? {
      InstancePatchSteady(c, cloud, k, m, cloud');
      GoAttachKeeps(c, cloud', k, m.(obj := Merged(m), first := m.pass.mem.status.instance), m.pass);
    }
  }

  /** What was in flight is now kept or lost. */
  lemma FlightSettles(cloud: Cloud, k: Key, m: Machine, m': Machine, cloud': Cloud)
    requires MLedger(cloud, k, m) && Flight(m.pass).Uuid? && Flight(m'.pass).Unset? && m.first.Unset?
    requires (cloud'.res == KeepId(cloud.res, Flight(m.pass)) && m'.first == Flight(m.pass))
             || (cloud'.res == LoseId(cloud.res, Flight(m.pass)) && m'.first == m.first)
    ensures MLedger(cloud', k, m')
  {
  }

  lemma PatchInstanceLedger(c: Cluster, infraReady: bool, cloud: Cloud, k: Key, m: Machine, r: Reply,
                  m': Machine, cloud': Cloud)
    requires Moves(c, infraReady, cloud, k, m, r, m', cloud') && m.pass.pc.PatchInstance?
    ensures MLedger(cloud', k, m')
  {
    if r.Done? {
      InstancePatchSteady(c, cloud, k, m, cloud');
      GoAttachKeeps(c, cloud', k, m.(obj := Merged(m), first := m.pass.mem.status.instance), m.pass);
    }
    FlightSettles(cloud, k, m, m', cloud');
  }

  lemma PatchInstanceRoutes(c: Cluster, infraReady: bool, cloud: Cloud, k: Key, m: Machine, r: Reply,
                  m': Machine, cloud': Cloud)
    requires Moves(c, infraReady, cloud, k, m, r, m', cloud') && m.pass.pc.PatchInstance?
    ensures MRoutes(c, cloud', k, m')
  {
  }

  /** The calls stay in order when what they name stays. */
  lemma SameCallsKeep(c: Cluster, cloud: Cloud, k: Key, m: Machine, m': Machine, cloud': Cloud)
    requires MCalls(c, cloud, k, m) && cloud'.calls == cloud.calls
    requires cloud'.offered == cloud.offered && cloud'.secrets == cloud.secrets
    requires m'.cfg == m.cfg && m'.obj.spec.image == m.obj.spec.image
    requires m'.first == m.first || m.first.Unset?
    ensures MCalls(c, cloud', k, m')
  {
  }

  /** A patch sends neither the image of the spec nor a call. */
  lemma PatchCalls(c: Cluster, cloud: Cloud, k: Key, m: Machine, r: Reply, m': Machine)
    requires MStored(c, cloud, k, m) && MPassOk(c, cloud, k, m) && m.pass.Run? && IsPatch(m.pass.pc)
    requires Fits(m.pass.pc, r) && m' == StepMachine(m, PassNext(m.cfg, m.pass, r), r)
    ensures m'.cfg == m.cfg && m'.obj.spec.image == m.obj.spec.image
    ensures m'.first == m.first || m.first.Unset?
  {
  }

  lemma PatchInstanceCalls(c: Cluster, infraReady: bool, cloud: Cloud, k: Key, m: Machine, r: Reply,
                  m': Machine, cloud': Cloud)
    requires Moves(c, infraReady, cloud, k, m, r, m', cloud') && m.pass.pc.PatchInstance?
    ensures MCalls(c, cloud', k, m')
  {
    PatchCalls(c, cloud, k, m, r, m');
    SameCallsKeep(c, cloud, k, m, m', cloud');
  }

  lemma PatchInstanceKeeps(c: Cluster, infraReady: bool, cloud: Cloud, k: Key, m: Machine, r: Reply,
                  m': Machine, cloud': Cloud)
    requires Moves(c, infraReady, cloud, k, m, r, m', cloud') && m.pass.pc.PatchInstance?
    ensures MInv(c, cloud', k, m')
  {
    PatchInstanceStored(c, infraReady, cloud, k, m, r, m', cloud');
    PatchInstancePass(c, infraReady, cloud, k, m, r, m', cloud');
    PatchInstanceRoutes(c, infraReady, cloud, k, m, r, m', cloud');
    PatchInstanceLedger(c, infraReady, cloud, k, m, r, m', cloud');
    PatchInstanceCalls(c, infraReady, cloud, k, m, r, m', cloud');
  }

  lemma AttachStores(c: Cluster, infraReady: bool, cloud: Cloud, k: Key, m: Machine, r: Reply,
                  m': Machine, cloud': Cloud)
    requires Moves(c, infraReady, cloud, k, m, r, m', cloud') && m.pass.pc.Attach?
    ensures MStored(c, cloud', k, m')
  {
  }

  /** The attachment is in memory, and its patch pending. */
  lemma AttachedPass(c: Cluster, cloud: Cloud, k: Key, m: Machine, id: Id, cloud': Cloud)
    requires MInv(c, cloud, k, m) && m.pass.Run? && m.pass.pc.Attach? && !m.pass.del && id.Uuid?
    requires (m.pass.clu.floatingIP, m.pass.mem.status.instance) in cloud'.routes
    requires AttachCall(k, m.pass.clu.project, m.pass.clu.floatingIP, m.pass.mem.status.instance) in cloud'.calls
    requires cloud'.res == cloud.res && cloud'.offered == cloud.offered && cloud'.secrets == cloud.secrets
    ensures MPassOk(c, cloud', k, m.(pass := SetAttachment(m.pass, id, PatchAttachment)))
  {
  }

  lemma AttachPass(c: Cluster, infraReady: bool, cloud: Cloud, k: Key, m: Machine, r: Reply,
                  m': Machine, cloud': Cloud)
    requires Moves(c, infraReady, cloud, k, m, r, m', cloud') && m.pass.pc.Attach?
    ensures MPassOk(c, cloud', k, m')
  {
    if r.Attached? && r.ids != [] {
      AttachedPass(c, cloud, k, m, r.ids[0], cloud');
    }
  }

  lemma AttachLedger(c: Cluster, infraReady: bool, cloud: Cloud, k: Key, m: Machine, r: Reply,
                  m': Machine, cloud': Cloud)
    requires Moves(c, infraReady, cloud, k, m, r, m', cloud') && m.pass.pc.Attach?
    ensures MLedger(cloud', k, m')
  {
  }

  /** One more route of the machine's instance, held or lost. */
  lemma RouteAdded(c: Cluster, cloud: Cloud, k: Key, m: Machine, m': Machine, cloud': Cloud, i: Id)
    requires MRoutes(c, cloud, k, m) && c.first.floatingIP.Uuid?
    requires cloud'.res == cloud.res && cloud'.routes == cloud.routes + {(c.first.floatingIP, i)}
    requires forall j :: RouteHeld(m, j) ==> RouteHeld(m', j)
    requires cloud'.lostRoutes == cloud.lostRoutes + {i} || (cloud'.lostRoutes == cloud.lostRoutes && RouteHeld(m', i))
    ensures MRoutes(c, cloud', k, m')
  {
  }

  lemma AttachRoutes(c: Cluster, infraReady: bool, cloud: Cloud, k: Key, m: Machine, r: Reply,
                  m': Machine, cloud': Cloud)
    requires Moves(c, infraReady, cloud, k, m, r, m', cloud') && m.pass.pc.Attach?
    ensures MRoutes(c, cloud', k, m')
  {
    AttachNames(c, cloud, k, m);
    if Took(r) {
      RouteAdded(c, cloud, k, m, m', cloud', m.pass.mem.status.instance);
    }
  }

  lemma AttachNames(c: Cluster, cloud: Cloud, k: Key, m: Machine)
    requires CStored(cloud, c) && MStored(c, cloud, k, m) && MPassOk(c, cloud, k, m)
    requires m.pass.Run? && m.pass.pc.Attach?
    ensures m.pass.clu.project == c.obj.status.project && c.obj.status.project.Uuid?
    ensures m.pass.clu.floatingIP == c.first.floatingIP && c.first.floatingIP.Uuid?
    ensures m.pass.mem.status.instance == m.first && m.first.Uuid?
  {
  }

  lemma AttachAdded(c: Cluster, cloud: Cloud, k: Key, m: Machine, m': Machine, cloud': Cloud)
    requires MCalls(c, cloud, k, m) && c.obj.status.project.Uuid? && c.first.floatingIP.Uuid? && m.first.Uuid?
    requires cloud'.calls == cloud.calls + {AttachCall(k, c.obj.status.project, c.first.floatingIP, m.first)}
    requires cloud'.offered == cloud.offered && cloud'.secrets == cloud.secrets
    requires m'.first == m.first && m'.cfg == m.cfg && m'.obj == m.obj
    ensures MCalls(c, cloud', k, m')
  {
  }

  lemma AttachCalls(c: Cluster, infraReady: bool, cloud: Cloud, k: Key, m: Machine, r: Reply,
                  m': Machine, cloud': Cloud)
    requires Moves(c, infraReady, cloud, k, m, r, m', cloud') && m.pass.pc.Attach?
    ensures MCalls(c, cloud', k, m')
  {
    AttachNames(c, cloud, k, m);
    AttachAdded(c, cloud, k, m, m', cloud');
  }

  lemma AttachKeeps(c: Cluster, infraReady: bool, cloud: Cloud, k: Key, m: Machine, r: Reply,
                  m': Machine, cloud': Cloud)
    requires Moves(c, infraReady, cloud, k, m, r, m', cloud') && m.pass.pc.Attach?
    ensures MInv(c, cloud', k, m')
  {
    AttachStores(c, infraReady, cloud, k, m, r, m', cloud');
    AttachPass(c, infraReady, cloud, k, m, r, m', cloud');
    AttachLedger(c, infraReady, cloud, k, m, r, m', cloud');
    AttachRoutes(c, infraReady, cloud, k, m, r, m', cloud');
    AttachCalls(c, infraReady, cloud, k, m, r, m', cloud');
  }

  /** The attachment is recorded: memory and store agree again. */
  lemma AttachmentPatchStores(c: Cluster, cloud: Cloud, k: Key, m: Machine)
    requires CStored(cloud, c) && MInv(c, cloud, k, m) && m.pass.Run? && m.pass.pc.PatchAttachment?
    requires PatchAllowed(m)
    ensures var cloud' := cloud.(lostRoutes := cloud.lostRoutes - {m.pass.mem.status.instance});
      MStored(c, cloud', k, m.(obj := Merged(m)))
  {
  }

  lemma AttachmentPatchSteady(c: Cluster, cloud: Cloud, k: Key, m: Machine, cloud': Cloud)
    requires CStored(cloud, c) && MInv(c, cloud, k, m) && m.pass.Run? && m.pass.pc.PatchAttachment?
    requires cloud' == cloud.(lostRoutes := cloud'.lostRoutes)
    ensures Steady(c, cloud', k, m.(obj := Merged(m)), m.pass)
  {
  }

  lemma PatchAttachmentStored(c: Cluster, infraReady: bool, cloud: Cloud, k: Key, m: Machine, r: Reply,
                  m': Machine, cloud': Cloud)
    requires Moves(c, infraReady, cloud, k, m, r, m', cloud') && m.pass.pc.PatchAttachment?
    ensures MStored(c, cloud', k, m')
  {
    if Took(r) {
      AttachmentPatchStores(c, cloud, k, m);
    }
  }

  lemma PatchAttachmentPass(c: Cluster, infraReady: bool, cloud: Cloud, k: Key, m: Machine, r: Reply,
                  m': Machine, cloud': Cloud)
    requires Moves(c, infraReady, cloud, k, m, r, m', cloud') && m.pass.pc.PatchAttachment?
    ensures MPassOk(c, cloud', k, m')
  {
    if r.Done? {
      AttachmentPatchSteady(c, cloud, k, m, cloud');
      GoReadyKeeps(c, cloud', k, m.(obj := Merged(m)), m.pass);
    }
  }

  lemma PatchAttachmentLedger(c: Cluster, infraReady: bool, cloud: Cloud, k: Key, m: Machine, r: Reply,
                  m': Machine, cloud': Cloud)
    requires Moves(c, infraReady, cloud, k, m, r, m', cloud') && m.pass.pc.PatchAttachment?
    ensures MLedger(cloud', k, m')
  {
  }

  /** The pending route is recorded or lost. */
  lemma SettledRoutes(c: Cluster, cloud: Cloud, k: Key, m: Machine, m': Machine, cloud': Cloud, i: Id)
    requires MRoutes(c, cloud, k, m) && cloud'.routes == cloud.routes && cloud'.res == cloud.res
    requires forall j :: RouteHeld(m, j) ==> j == i
    requires (cloud'.lostRoutes == cloud.lostRoutes + {i} && (c.first.floatingIP, i) in cloud.routes)
             || (cloud'.lostRoutes == cloud.lostRoutes - {i} && RouteHeld(m', i))
    ensures MRoutes(c, cloud', k, m')
  {
  }

  lemma PatchAttachmentRoutes(c: Cluster, infraReady: bool, cloud: Cloud, k: Key, m: Machine, r: Reply,
                  m': Machine, cloud': Cloud)
    requires Moves(c, infraReady, cloud, k, m, r, m', cloud') && m.pass.pc.PatchAttachment?
    ensures MRoutes(c, cloud', k, m')
  {
    SettledRoutes(c, cloud, k, m, m', cloud', m.pass.mem.status.instance);
  }

  lemma PatchAttachmentCalls(c: Cluster, infraReady: bool, cloud: Cloud, k: Key, m: Machine, r: Reply,
                  m': Machine, cloud': Cloud)
    requires Moves(c, infraReady, cloud, k, m, r, m', cloud') && m.pass.pc.PatchAttachment?
    ensures MCalls(c, cloud', k, m')
  {
    PatchCalls(c, cloud, k, m, r, m');
    SameCallsKeep(c, cloud, k, m, m', cloud');
  }

  lemma PatchAttachmentKeeps(c: Cluster, infraReady: bool, cloud: Cloud, k: Key, m: Machine, r: Reply,
                  m': Machine, cloud': Cloud)
    requires Moves(c, infraReady, cloud, k, m, r, m', cloud') && m.pass.pc.PatchAttachment?
    ensures MInv(c, cloud', k, m')
  {
    PatchAttachmentStored(c, infraReady, cloud, k, m, r, m', cloud');
    PatchAttachmentPass(c, infraReady, cloud, k, m, r, m', cloud');
    PatchAttachmentLedger(c, infraReady, cloud, k, m, r, m', cloud');
    PatchAttachmentRoutes(c, infraReady, cloud, k, m, r, m', cloud');
    PatchAttachmentCalls(c, infraReady, cloud, k, m, r, m', cloud');
  }

  lemma ReadyPending(c: Cluster, cloud: Cloud, k: Key, m: Machine)
    requires MPassOk(c, cloud, k, m) && m.pass.Run? && m.pass.pc.GetInstance?
    ensures MPassOk(c, cloud, k, m.(pass := SetReady(m.pass, PatchReady))) && !m.pass.del
  {
  }

  lemma GetInstanceKeeps(c: Cluster, infraReady: bool, cloud: Cloud, k: Key, m: Machine, r: Reply,
                  m': Machine, cloud': Cloud)
    requires Moves(c, infraReady, cloud, k, m, r, m', cloud') && m.pass.pc.GetInstance?
    ensures MInv(c, cloud', k, m')
  {
    assert cloud' == cloud;
    if r.GotState? && r.running {
      ReadyPending(c, cloud', k, m);
      QuietKeeps(c, cloud', k, m, SetReady(m.pass, PatchReady), m');
    } else {
      QuietKeeps(c, cloud', k, m, Idle(if r.Fail? then Failed else Requeued), m');
    }
  }

  lemma ReadyPatchStores(c: Cluster, cloud: Cloud, k: Key, m: Machine)
    requires MInv(c, cloud, k, m) && m.pass.Run? && m.pass.pc.PatchReady?
    requires PatchAllowed(m)
    ensures MStored(c, cloud, k, m.(obj := Merged(m))) && !m.pass.del
  {
  }

  lemma PatchReadyKeeps(c: Cluster, infraReady: bool, cloud: Cloud, k: Key, m: Machine, r: Reply,
                  m': Machine, cloud': Cloud)
    requires Moves(c, infraReady, cloud, k, m, r, m', cloud') && m.pass.pc.PatchReady?
    ensures MInv(c, cloud', k, m')
  {
    assert cloud' == cloud;
    if Took(r) {
      ReadyPatchStores(c, cloud', k, m);
      PatchedKeeps(c, cloud', k, m, PassNext(m.cfg, m.pass, r), m');
    } else {
      QuietKeeps(c, cloud', k, m, Idle(Failed), m');
    }
  }

  /** The branch without a hook has nothing to withdraw, so it never reaches LateDetach. */
  lemma GoHookKeeps(c: Cluster, cloud: Cloud, k: Key, m: Machine)
    requires MStored(c, cloud, k, m) && MPassOk(c, cloud, k, m) && m.pass.Run? && m.pass.del && m.pass.pc.Prepare?
    ensures var q := GoHook(m.cfg, m.pass.(hook := m.hook));
      && q.Run? && (q.pc.Detach? || q.pc.RemoveHook? || q.pc.Destroy? || q.pc.PatchFinalizerOff?)
      && MPassOk(c, cloud, k, m.(pass := q))
  {
  }

  lemma PreparedPass(c: Cluster, cloud: Cloud, k: Key, m: Machine, r: Reply)
    requires MStored(c, cloud, k, m) && MPassOk(c, cloud, k, m) && m.pass.Run? && m.pass.pc.Prepare?
    requires Fits(m.pass.pc, r) && (r.GotOwner? ==> r.hook == m.hook)
    ensures var q := PassNext(m.cfg, m.pass, r);
      && MPassOk(c, cloud, k, m.(pass := q))
      && if q.Run? then Flight(q).Unset? && !q.pc.PatchAttachment? else q.last == Failed
  {
    if r.GotOwner? {
      GoHookKeeps(c, cloud, k, m);
    }
  }

  lemma PrepareKeeps(c: Cluster, infraReady: bool, cloud: Cloud, k: Key, m: Machine, r: Reply,
                  m': Machine, cloud': Cloud)
    requires Moves(c, infraReady, cloud, k, m, r, m', cloud') && m.pass.pc.Prepare?
    ensures MInv(c, cloud', k, m')
  {
    assert cloud' == cloud;
    PreparedPass(c, cloud, k, m, r);
    QuietKeeps(c, cloud, k, m, PassNext(m.cfg, m.pass, r), m');
  }

  lemma DetachObject(c: Cluster, infraReady: bool, cloud: Cloud, k: Key, m: Machine, r: Reply,
                  m': Machine, cloud': Cloud)
    requires Moves(c, infraReady, cloud, k, m, r, m', cloud') && m.pass.pc.Detach?
    ensures MStored(c, cloud', k, m') && MPassOk(c, cloud', k, m')
  {
  }

  lemma DetachLedger(c: Cluster, infraReady: bool, cloud: Cloud, k: Key, m: Machine, r: Reply,
                  m': Machine, cloud': Cloud)
    requires Moves(c, infraReady, cloud, k, m, r, m', cloud') && m.pass.pc.Detach?
    ensures MLedger(cloud', k, m')
  {
  }

  lemma DetachRoutes(c: Cluster, infraReady: bool, cloud: Cloud, k: Key, m: Machine, r: Reply,
                  m': Machine, cloud': Cloud)
    requires Moves(c, infraReady, cloud, k, m, r, m', cloud') && m.pass.pc.Detach?
    ensures MRoutes(c, cloud', k, m')
  {
  }

  lemma DetachCalls(c: Cluster, infraReady: bool, cloud: Cloud, k: Key, m: Machine, r: Reply,
                  m': Machine, cloud': Cloud)
    requires Moves(c, infraReady, cloud, k, m, r, m', cloud') && m.pass.pc.Detach?
    ensures MCalls(c, cloud', k, m')
  {
  }

  lemma DetachKeeps(c: Cluster, infraReady: bool, cloud: Cloud, k: Key, m: Machine, r: Reply,
                  m': Machine, cloud': Cloud)
    requires Moves(c, infraReady, cloud, k, m, r, m', cloud') && m.pass.pc.Detach?
    ensures MInv(c, cloud', k, m')
  {
    DetachObject(c, infraReady, cloud, k, m, r, m', cloud');
    DetachLedger(c, infraReady, cloud, k, m, r, m', cloud');
    DetachRoutes(c, infraReady, cloud, k, m, r, m', cloud');
    DetachCalls(c, infraReady, cloud, k, m, r, m', cloud');
  }

  lemma PatchDetachedMerges(c: Cluster, cloud: Cloud, k: Key, m: Machine, q: MPass, m': Machine)
    requires MStored(c, cloud, k, m) && MPassOk(c, cloud, k, m) && m.pass.Run? && m.pass.pc.PatchDetached?
    requires (q.Run? || q == Idle(Failed)) && (m' == Count(m.(obj := Merged(m)), q) || m' == Count(m, q))
    ensures MStored(c, cloud, k, m')
  {
  }

  lemma PatchDetachedStores(c: Cluster, infraReady: bool, cloud: Cloud, k: Key, m: Machine, r: Reply,
                  m': Machine, cloud': Cloud)
    requires Moves(c, infraReady, cloud, k, m, r, m', cloud') && m.pass.pc.PatchDetached?
    ensures MStored(c, cloud', k, m')
  {
    assert cloud' == cloud;
    PatchDetachedMerges(c, cloud', k, m, PassNext(m.cfg, m.pass, r), m');
  }

  lemma PatchDetachedPass(c: Cluster, infraReady: bool, cloud: Cloud, k: Key, m: Machine, r: Reply,
                  m': Machine, cloud': Cloud)
    requires Moves(c, infraReady, cloud, k, m, r, m', cloud') && m.pass.pc.PatchDetached?
    ensures MPassOk(c, cloud', k, m')
  {
  }

  lemma PatchDetachedLedger(c: Cluster, infraReady: bool, cloud: Cloud, k: Key, m: Machine, r: Reply,
                  m': Machine, cloud': Cloud)
    requires Moves(c, infraReady, cloud, k, m, r, m', cloud') && m.pass.pc.PatchDetached?
    ensures MLedger(cloud', k, m') && MRoutes(c, cloud', k, m')
  {
  }

  lemma PatchDetachedCalls(c: Cluster, infraReady: bool, cloud: Cloud, k: Key, m: Machine, r: Reply,
                  m': Machine, cloud': Cloud)
    requires Moves(c, infraReady, cloud, k, m, r, m', cloud') && m.pass.pc.PatchDetached?
    ensures MCalls(c, cloud', k, m')
  {
    PatchCalls(c, cloud, k, m, r, m');
    SameCallsKeep(c, cloud, k, m, m', cloud');
  }

  lemma PatchDetachedKeeps(c: Cluster, infraReady: bool, cloud: Cloud, k: Key, m: Machine, r: Reply,
                  m': Machine, cloud': Cloud)
    requires Moves(c, infraReady, cloud, k, m, r, m', cloud') && m.pass.pc.PatchDetached?
    ensures MInv(c, cloud', k, m')
  {
    PatchDetachedStores(c, infraReady, cloud, k, m, r, m', cloud');
    PatchDetachedPass(c, infraReady, cloud, k, m, r, m', cloud');
    PatchDetachedLedger(c, infraReady, cloud, k, m, r, m', cloud');
    PatchDetachedCalls(c, infraReady, cloud, k, m, r, m', cloud');
  }

  lemma UnhookedKeeps(c: Cluster, cloud: Cloud, k: Key, m: Machine, m': Machine, q: MPass)
    requires MInv(c, cloud, k, m) && m.pass.Run? && m.pass.pc.RemoveHook?
    requires q == Idle(Failed) || q == Idle(HookRemoved)
    requires m' == Count(m.(hook := false), q) || (m' == Count(m, q) && q.last == Failed)
    ensures MInv(c, cloud, k, m')
  {
    SameCloudKeeps(c, cloud, k, m, m');
  }

  lemma RemoveHookKeeps(c: Cluster, infraReady: bool, cloud: Cloud, k: Key, m: Machine, r: Reply,
                  m': Machine, cloud': Cloud)
    requires Moves(c, infraReady, cloud, k, m, r, m', cloud') && m.pass.pc.RemoveHook?
    ensures MInv(c, cloud', k, m')
  {
    assert cloud' == cloud;
    UnhookedKeeps(c, cloud', k, m, m', PassNext(m.cfg, m.pass, r));
  }

  lemma DestroyObject(c: Cluster, infraReady: bool, cloud: Cloud, k: Key, m: Machine, r: Reply,
                  m': Machine, cloud': Cloud)
    requires Moves(c, infraReady, cloud, k, m, r, m', cloud') && m.pass.pc.Destroy?
    ensures MStored(c, cloud', k, m') && MPassOk(c, cloud', k, m')
  {
  }

  /** Of what was made only the liveness of something recorded has changed. */
  lemma DeathKeepsLedger(cloud: Cloud, k: Key, m: Machine, m': Machine, cloud': Cloud, i: Id)
    requires MLedger(cloud, k, m) && Flight(m.pass).Unset? && Flight(m'.pass).Unset? && m'.first == m.first
    requires i in cloud.res && cloud.res[i].kept
    requires cloud'.res == cloud.res[i := cloud.res[i].(live := false)] || cloud'.res == cloud.res
    ensures MLedger(cloud', k, m')
  {
  }

  lemma DestroyLedger(c: Cluster, infraReady: bool, cloud: Cloud, k: Key, m: Machine, r: Reply,
                  m': Machine, cloud': Cloud)
    requires Moves(c, infraReady, cloud, k, m, r, m', cloud') && m.pass.pc.Destroy?
    ensures MLedger(cloud', k, m')
  {
    DeathKeepsLedger(cloud, k, m, m', cloud', m.pass.mem.status.instance);
  }

  lemma DestroyRoutes(c: Cluster, infraReady: bool, cloud: Cloud, k: Key, m: Machine, r: Reply,
                  m': Machine, cloud': Cloud)
    requires Moves(c, infraReady, cloud, k, m, r, m', cloud') && m.pass.pc.Destroy?
    ensures MRoutes(c, cloud', k, m')
  {
  }

  lemma DestroyCalls(c: Cluster, infraReady: bool, cloud: Cloud, k: Key, m: Machine, r: Reply,
                  m': Machine, cloud': Cloud)
    requires Moves(c, infraReady, cloud, k, m, r, m', cloud') && m.pass.pc.Destroy?
    ensures MCalls(c, cloud', k, m')
  {
  }

  lemma DestroyKeeps(c: Cluster, infraReady: bool, cloud: Cloud, k: Key, m: Machine, r: Reply,
                  m': Machine, cloud': Cloud)
    requires Moves(c, infraReady, cloud, k, m, r, m', cloud') && m.pass.pc.Destroy?
    ensures MInv(c, cloud', k, m')
  {
    DestroyObject(c, infraReady, cloud, k, m, r, m', cloud');
    DestroyLedger(c, infraReady, cloud, k, m, r, m', cloud');
    DestroyRoutes(c, infraReady, cloud, k, m, r, m', cloud');
    DestroyCalls(c, infraReady, cloud, k, m, r, m', cloud');
  }

  lemma PatchDestroyedMerges(c: Cluster, cloud: Cloud, k: Key, m: Machine, q: MPass, m': Machine)
    requires MStored(c, cloud, k, m) && MPassOk(c, cloud, k, m) && m.pass.Run? && m.pass.pc.PatchDestroyed?
    requires (q.Run? || q == Idle(Failed)) && (m' == Count(m.(obj := Merged(m)), q) || m' == Count(m, q))
    ensures MStored(c, cloud, k, m')
  {
  }

  lemma PatchDestroyedStores(c: Cluster, infraReady: bool, cloud: Cloud, k: Key, m: Machine, r: Reply,
                  m': Machine, cloud': Cloud)
    requires Moves(c, infraReady, cloud, k, m, r, m', cloud') && m.pass.pc.PatchDestroyed?
    ensures MStored(c, cloud', k, m')
  {
    assert cloud' == cloud;
    PatchDestroyedMerges(c, cloud', k, m, PassNext(m.cfg, m.pass, r), m');
  }

  lemma PatchDestroyedPass(c: Cluster, infraReady: bool, cloud: Cloud, k: Key, m: Machine, r: Reply,
                  m': Machine, cloud': Cloud)
    requires Moves(c, infraReady, cloud, k, m, r, m', cloud') && m.pass.pc.PatchDestroyed?
    ensures MPassOk(c, cloud', k, m')
  {
  }

  lemma PatchDestroyedLedger(c: Cluster, infraReady: bool, cloud: Cloud, k: Key, m: Machine, r: Reply,
                  m': Machine, cloud': Cloud)
    requires Moves(c, infraReady, cloud, k, m, r, m', cloud') && m.pass.pc.PatchDestroyed?
    ensures MLedger(cloud', k, m') && MRoutes(c, cloud', k, m') && MCalls(c, cloud', k, m')
  {
  }

  lemma PatchDestroyedKeeps(c: Cluster, infraReady: bool, cloud: Cloud, k: Key, m: Machine, r: Reply,
                  m': Machine, cloud': Cloud)
    requires Moves(c, infraReady, cloud, k, m, r, m', cloud') && m.pass.pc.PatchDestroyed?
    ensures MInv(c, cloud', k, m')
  {
    PatchDestroyedStores(c, infraReady, cloud, k, m, r, m', cloud');
    PatchDestroyedPass(c, infraReady, cloud, k, m, r, m', cloud');
    PatchDestroyedLedger(c, infraReady, cloud, k, m, r, m', cloud');
  }

  lemma ReleasedKeeps(c: Cluster, cloud: Cloud, k: Key, m: Machine, q: MPass, m': Machine)
    requires MInv(c, cloud, k, m) && m.pass.Run? && m.pass.pc.PatchFinalizerOff?
    requires PatchAllowed(m) && m' == Count(m.(obj := Merged(m)), q)
    requires q == Idle(Failed) || q == Idle(FinalizerRemoved)
    ensures MInv(c, cloud, k, m')
  {
    SameCloudKeeps(c, cloud, k, m, m');
  }

  lemma PatchFinalizerOffKeeps(c: Cluster, infraReady: bool, cloud: Cloud, k: Key, m: Machine, r: Reply,
                  m': Machine, cloud': Cloud)
    requires Moves(c, infraReady, cloud, k, m, r, m', cloud') && m.pass.pc.PatchFinalizerOff?
    ensures MInv(c, cloud', k, m')
  {
    assert cloud' == cloud;
    if Took(r) {
      ReleasedKeeps(c, cloud', k, m, PassNext(m.cfg, m.pass, r), m');
    } else {
      QuietKeeps(c, cloud', k, m, Idle(Failed), m');
    }
  }

}
