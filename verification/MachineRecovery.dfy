/** A machine pass that is cut anywhere is made good by the next one. */
module MachineRecovery {
  import U = Undisturbed
  import opened Api
  import opened System
  import opened Invariant
  import opened Preservation
  import opened ImageSelection

  /** What the cloud answers an undisturbed creating pass. */
  datatype Answers = Answers(
    flavor: Id, images: seq<Image>, instance: Id, addresses: seq<Option<string>>, attachments: seq<Id>,
    running: bool, secret: string)

  /** Every name is there, some image has the wanted one, and the last that has it has an ID. */
  predicate Listed(images: seq<Image>, name: string)
  {
    && (forall i :: 0 <= i < |images| ==> images[i].name.Some?)
    && LastMatch(images, name).Some? && LastMatch(images, name).value.Uuid?
  }

  predicate Answerable(a: Answers, name: string)
  {
    && a.flavor.Uuid? && Listed(a.images, name) && a.instance.Uuid?
    && (forall i :: 0 <= i < |a.addresses| ==> a.addresses[i].Some?)
    && a.attachments != [] && forall i :: 0 <= i < |a.attachments| ==> a.attachments[i].Uuid?
  }

  function CleanReply(c: Cluster, pc: MPc, a: Answers): Reply
  {
    match pc
    case LookupCluster => GotCluster(View(c.obj), true, true)
    case GetFlavor => GotId(a.flavor)
    case ListImages => GotImages(a.images)
    case GetSecret => GotSecret(Some(a.secret))
    case CreateInstance(_) => MadeInstance(a.instance, a.addresses)
    case Attach => Attached(a.attachments)
    case GetInstance => GotState(a.running)
    case _ => Done
  }

  // ---------- the object, stage by stage ----------

  function WithFin(o: MachineObj): MachineObj
  { o.(finalizer := true) }

  function WithFlavor(o: MachineObj, a: Answers): MachineObj
  { if o.status.flavor.Uuid? then o else o.(status := o.status.(flavor := a.flavor)) }

  function WithImageID(o: MachineObj, id: Id): MachineObj
  { o.(status := o.status.(image := id)) }

  function WithVM(o: MachineObj, a: Answers): MachineObj
    requires forall i :: 0 <= i < |a.addresses| ==> a.addresses[i].Some?
  {
    if o.status.instance.Uuid? then o
    else o.(spec := o.spec.(providerID := Some(ProviderID(a.instance))),
            status := o.status.(instance := a.instance, addresses := Values(a.addresses)))
  }

  function WithRoute(o: MachineObj, a: Answers, controlPlane: bool): MachineObj
    requires a.attachments != []
  {
    if controlPlane && o.status.attachment.Unset?
    then o.(status := o.status.(attachment := a.attachments[0])) else o
  }

  function Ready(o: MachineObj): MachineObj
  { o.(status := o.status.(ready := true)) }

  /** The image that the pass ends up with. */
  function Chosen(o: MachineObj, a: Answers): Id
    requires Answerable(a, o.spec.image)
  { if o.status.image.Uuid? then o.status.image else LastMatch(a.images, o.spec.image).value }

  /** The object before and after the instance and the attachment are recorded. */
  function Selected(o: MachineObj, a: Answers, image: Id): MachineObj
  { WithImageID(WithFlavor(WithFin(o), a), image) }

  function Created(o: MachineObj, a: Answers, image: Id): MachineObj
    requires Answerable(a, o.spec.image)
  { WithVM(Selected(o, a, image), a) }

  function Routed(o: MachineObj, a: Answers, image: Id, controlPlane: bool): MachineObj
    requires Answerable(a, o.spec.image)
  { WithRoute(Created(o, a, image), a, controlPlane) }

  function Final(o: MachineObj, a: Answers, controlPlane: bool): MachineObj
    requires Answerable(a, o.spec.image)
  {
    var routed := Routed(o, a, Chosen(o, a), controlPlane);
    if a.running then Ready(routed) else routed
  }

  /** How the pass ends: a VM that does not run yet is looked at again. */
  function Ends(a: Answers): Outcome
  { if a.running then MadeReady else Requeued }

  /** Memory and store at each call of an undisturbed pass that began with `o`. */
  predicate Stage(cfg: MachineConfig, o: MachineObj, a: Answers, p: MPass, stored: MachineObj)
    requires p.Run? && Answerable(a, o.spec.image)
  {
    var i, chosen, cp := p.mem.status.image, Chosen(o, a), cfg.controlPlane;
    match p.pc
    case LookupCluster => p.mem == o && stored == o
    case UpdateHook => p.mem == o && stored == o
    case PatchFinalizer => p.mem == WithFin(o) && stored == o
    case Connect => p.mem == WithFin(o) && stored == p.mem
    case GetFlavor => p.mem == WithFin(o) && stored == p.mem && o.status.flavor.Unset?
    case PatchFlavor => p.mem == WithFlavor(WithFin(o), a) && stored == WithFin(o) && o.status.flavor.Unset?
    case ListImages => p.mem == WithFlavor(WithFin(o), a) && stored == p.mem && o.status.image.Unset?
    case PatchImage(rest) =>
      && p.mem == Selected(o, a, i) && stored == Selected(o, a, stored.status.image)
      && o.status.image.Unset? && StillToCome(o, a, rest, i)
    case GetSecret => p.mem == Selected(o, a, chosen) && stored == p.mem && o.status.instance.Unset?
    case CreateInstance(_) => p.mem == Selected(o, a, chosen) && stored == p.mem && o.status.instance.Unset?
    case PatchInstance =>
      p.mem == Created(o, a, chosen) && stored == Selected(o, a, chosen) && o.status.instance.Unset?
    case Attach =>
      p.mem == Created(o, a, chosen) && stored == p.mem && cp && o.status.attachment.Unset?
    case PatchAttachment =>
      p.mem == Routed(o, a, chosen, cp) && stored == Created(o, a, chosen) && cp && o.status.attachment.Unset?
    case GetInstance => p.mem == Routed(o, a, chosen, cp) && stored == p.mem
    case PatchReady => a.running && p.mem == Final(o, a, cp) && stored == Routed(o, a, chosen, cp)
    case _ => false
  }

  /** With `image` in memory and `rest` ahead, the loop will end with the chosen image. */
  predicate StillToCome(o: MachineObj, a: Answers, rest: seq<Image>, image: Id)
    requires Answerable(a, o.spec.image)
  {
    && (forall i :: 0 <= i < |rest| ==> rest[i].name.Some?)
    && Chosen(o, a) == match LastMatch(rest, o.spec.image) case Some(id) => id case None => image
  }

  /** Machine `m` lies on an undisturbed pass that began with the object `o`. */
  predicate OnTheWay(c: Cluster, o: MachineObj, a: Answers, m: Machine)
    requires Answerable(a, o.spec.image)
  {
    var p := m.pass;
    && m.exists_ && !m.deleting && !m.deletionSeen
    && if p.Idle? then p == Idle(Ends(a)) && m.obj == Final(o, a, m.cfg.controlPlane) && m.hook
       else
         && p.before == o && !p.del && Stage(m.cfg, o, a, p, m.obj)
         && (p.hook ==> m.hook) && (p.pc.LookupCluster? || p.pc.UpdateHook? || m.hook)
         && (p.pc.LookupCluster? || (p.clu == View(c.obj) && p.infra && p.bootstrap))
  }

  /** How many calls are left, at most. */
  function Left(a: Answers, p: MPass): nat
  {
    if p.Idle? then 0
    else match p.pc
      case LookupCluster => 15 + |a.images|
      case UpdateHook => 14 + |a.images|
      case PatchFinalizer => 13 + |a.images|
      case Connect => 12 + |a.images|
      case GetFlavor => 11 + |a.images|
      case PatchFlavor => 10 + |a.images|
      case ListImages => 9 + |a.images|
      case PatchImage(rest) => 8 + |rest|
      case GetSecret => 7
      case CreateInstance(_) => 6
      case PatchInstance => 5
      case Attach => 4
      case PatchAttachment => 3
      case GetInstance => 2
      case _ => 1
  }

  // ---------- from guard to guard ----------

  /** The pass past its gates, with the object stored as it is in memory. */
  predicate Past(c: Cluster, o: MachineObj, m: Machine, p: MPass)
  { Within(c, o, m, p) && m.obj == p.mem }

  /** The same, whatever is stored. */
  predicate Within(c: Cluster, o: MachineObj, m: Machine, p: MPass)
  {
    && m.exists_ && !m.deleting && !m.deletionSeen && m.hook
    && p.Run? && p.before == o && !p.del && p.clu == View(c.obj) && p.infra && p.bootstrap
  }

  /** A guard leads to no patch of an ID and to no end. */
  predicate Halts(q: MPass)
  { q.Run? && !q.pc.PatchInstance? && !q.pc.PatchAttachment? }

  lemma GoReadyOnTheWay(c: Cluster, o: MachineObj, a: Answers, m: Machine, p: MPass)
    requires Answerable(a, o.spec.image) && Past(c, o, m, p)
    requires p.mem == Routed(o, a, Chosen(o, a), m.cfg.controlPlane)
    ensures OnTheWay(c, o, a, m.(pass := GoReady(m.cfg, p))) && Halts(GoReady(m.cfg, p))
    ensures Left(a, GoReady(m.cfg, p)) <= 2
  {
  }

  lemma GoAttachOnTheWay(c: Cluster, o: MachineObj, a: Answers, m: Machine, p: MPass)
    requires Answerable(a, o.spec.image) && Past(c, o, m, p)
    requires p.mem == Created(o, a, Chosen(o, a))
    ensures OnTheWay(c, o, a, m.(pass := GoAttach(m.cfg, p))) && Halts(GoAttach(m.cfg, p))
    ensures Left(a, GoAttach(m.cfg, p)) <= 4
  {
    if !(m.cfg.controlPlane && p.mem.status.attachment.Unset?) {
      GoReadyOnTheWay(c, o, a, m, p);
    }
  }

  lemma ChosenIsSet(o: MachineObj, a: Answers)
    requires Answerable(a, o.spec.image)
    ensures Chosen(o, a).Uuid?
  {
  }

  lemma GoInstanceOnTheWay(c: Cluster, o: MachineObj, a: Answers, m: Machine, p: MPass)
    requires Answerable(a, o.spec.image) && Past(c, o, m, p)
    requires p.mem == Selected(o, a, Chosen(o, a))
    ensures OnTheWay(c, o, a, m.(pass := GoInstance(m.cfg, p))) && Halts(GoInstance(m.cfg, p))
    ensures Left(a, GoInstance(m.cfg, p)) <= 7
  {
    ChosenIsSet(o, a);
    if p.mem.status.instance.Uuid? {
      GoAttachOnTheWay(c, o, a, m, p);
    }
  }

  lemma GoImageOnTheWay(c: Cluster, o: MachineObj, a: Answers, m: Machine, p: MPass)
    requires Answerable(a, o.spec.image) && Past(c, o, m, p)
    requires p.mem == WithFlavor(WithFin(o), a)
    ensures OnTheWay(c, o, a, m.(pass := GoImage(m.cfg, p))) && Halts(GoImage(m.cfg, p))
    ensures Left(a, GoImage(m.cfg, p)) <= 9 + |a.images|
  {
    if p.mem.status.image.Uuid? {
      assert p.mem == Selected(o, a, Chosen(o, a));
      GoInstanceOnTheWay(c, o, a, m, p);
    }
  }

  lemma GoFlavorOnTheWay(c: Cluster, o: MachineObj, a: Answers, m: Machine, p: MPass)
    requires Answerable(a, o.spec.image) && Past(c, o, m, p)
    requires p.mem == WithFin(o)
    ensures OnTheWay(c, o, a, m.(pass := GoFlavor(m.cfg, p))) && Halts(GoFlavor(m.cfg, p))
    ensures Left(a, GoFlavor(m.cfg, p)) <= 11 + |a.images|
  {
    if p.mem.status.flavor.Uuid? {
      GoImageOnTheWay(c, o, a, m, p);
    }
  }

  lemma {:induction false} ScanOnTheWay(c: Cluster, o: MachineObj, a: Answers, m: Machine, p: MPass,
                                        rest: seq<Image>, found: bool)
    requires Answerable(a, o.spec.image) && Within(c, o, m, p) && o.status.image.Unset?
    requires m.obj == Selected(o, a, m.obj.status.image)
    requires LastMatch(rest, o.spec.image).None? ==> m.obj == p.mem
    requires p.mem == Selected(o, a, p.mem.status.image) && StillToCome(o, a, rest, p.mem.status.image)
    requires !found ==> LastMatch(rest, o.spec.image).Some?
    ensures OnTheWay(c, o, a, m.(pass := Scan(m.cfg, p, rest, found))) && Halts(Scan(m.cfg, p, rest, found))
    ensures Left(a, Scan(m.cfg, p, rest, found)) <= 7 + |rest|
    decreases |rest|
  {
    if rest == [] {
      GoInstanceOnTheWay(c, o, a, m, p);
    } else if rest[0].name.value != o.spec.image {
      ScanOnTheWay(c, o, a, m, p, rest[1..], found);
    }
  }

  // ---------- call by call ----------

  /** The bootstrap secret can be sent, and the cluster's infrastructure is there. */
  predicate Sendable(c: Cluster, a: Answers, cfg: MachineConfig)
  {
    cfg.boot(a.secret, c.obj.status.ip).Some?
  }

  /** What the machine is after the clean reply to its pending call. */
  function Onwards(c: Cluster, a: Answers, m: Machine): Machine
    requires m.pass.Run? && Fits(m.pass.pc, CleanReply(c, m.pass.pc, a))
  {
    var r := CleanReply(c, m.pass.pc, a);
    StepMachine(m, PassNext(m.cfg, m.pass, r), r)
  }

  /** Which calls lead to the patches of IDs, and which to the end. */
  predicate Follows(pc: MPc, q: MPass)
  {
    && (q.Idle? ==> pc.PatchReady? || pc.GetInstance?)
    && (q.Run? ==> (q.pc.PatchInstance? <==> pc.CreateInstance?) && (q.pc.PatchAttachment? <==> pc.Attach?))
  }

  lemma MergedIsMemory(c: Cluster, o: MachineObj, a: Answers, m: Machine)
    requires Answerable(a, o.spec.image) && OnTheWay(c, o, a, m) && m.pass.Run? && IsPatch(m.pass.pc)
    ensures m.pass.pc.PatchImage? && m.pass.mem.status.image.Unset? ==> Merged(m) == m.obj
    ensures !(m.pass.pc.PatchImage? && m.pass.mem.status.image.Unset?) ==> Merged(m) == m.pass.mem
    ensures PatchAllowed(m)
  {
  }

  lemma CleanReplyFits(c: Cluster, o: MachineObj, a: Answers, m: Machine)
    requires Answerable(a, o.spec.image) && OnTheWay(c, o, a, m) && m.pass.Run?
    ensures Fits(m.pass.pc, CleanReply(c, m.pass.pc, a)) && Took(CleanReply(c, m.pass.pc, a))
  {
  }

  lemma OpeningOnTheWay(c: Cluster, o: MachineObj, a: Answers, m: Machine)
    requires Answerable(a, o.spec.image) && OnTheWay(c, o, a, m) && m.pass.Run?
    requires m.pass.pc.LookupCluster? || m.pass.pc.UpdateHook? || m.pass.pc.PatchFinalizer? || m.pass.pc.Connect?
    ensures Fits(m.pass.pc, CleanReply(c, m.pass.pc, a))
    ensures OnTheWay(c, o, a, Onwards(c, a, m)) && Follows(m.pass.pc, Onwards(c, a, m).pass)
    ensures Left(a, Onwards(c, a, m).pass) < Left(a, m.pass)
  {
    CleanReplyFits(c, o, a, m);
    if m.pass.pc.PatchFinalizer? {
      MergedIsMemory(c, o, a, m);
    } else if m.pass.pc.Connect? {
      GoFlavorOnTheWay(c, o, a, m, m.pass);
    }
  }

  lemma SelectionOnTheWay(c: Cluster, o: MachineObj, a: Answers, m: Machine)
    requires Answerable(a, o.spec.image) && OnTheWay(c, o, a, m) && m.pass.Run?
    requires m.pass.pc.GetFlavor? || m.pass.pc.PatchFlavor? || m.pass.pc.ListImages? || m.pass.pc.PatchImage?
    ensures Fits(m.pass.pc, CleanReply(c, m.pass.pc, a))
    ensures OnTheWay(c, o, a, Onwards(c, a, m)) && Follows(m.pass.pc, Onwards(c, a, m).pass)
    ensures Left(a, Onwards(c, a, m).pass) < Left(a, m.pass)
  {
    CleanReplyFits(c, o, a, m);
    var p := m.pass;
    match p.pc
    case PatchFlavor =>
      MergedIsMemory(c, o, a, m);
      GoImageOnTheWay(c, o, a, m.(obj := p.mem), p);
    case ListImages => ScanOnTheWay(c, o, a, m, p, a.images, false);
    case PatchImage(rest) =>
      MergedIsMemory(c, o, a, m);
      ScanOnTheWay(c, o, a, m.(obj := Merged(m)), p, rest, true);
    case _ =>
  }

  lemma CreationOnTheWay(c: Cluster, o: MachineObj, a: Answers, m: Machine)
    requires Answerable(a, o.spec.image) && OnTheWay(c, o, a, m) && m.pass.Run? && Sendable(c, a, m.cfg)
    requires m.pass.pc.GetSecret? || m.pass.pc.CreateInstance? || m.pass.pc.PatchInstance?
    ensures Fits(m.pass.pc, CleanReply(c, m.pass.pc, a))
    ensures OnTheWay(c, o, a, Onwards(c, a, m)) && Follows(m.pass.pc, Onwards(c, a, m).pass)
    ensures Left(a, Onwards(c, a, m).pass) < Left(a, m.pass)
  {
    CleanReplyFits(c, o, a, m);
    if m.pass.pc.PatchInstance? {
      MergedIsMemory(c, o, a, m);
      GoAttachOnTheWay(c, o, a, m.(obj := m.pass.mem, first := m.pass.mem.status.instance), m.pass);
    }
  }

  lemma ClosingOnTheWay(c: Cluster, o: MachineObj, a: Answers, m: Machine)
    requires Answerable(a, o.spec.image) && OnTheWay(c, o, a, m) && m.pass.Run?
    requires m.pass.pc.Attach? || m.pass.pc.PatchAttachment? || m.pass.pc.GetInstance? || m.pass.pc.PatchReady?
    ensures Fits(m.pass.pc, CleanReply(c, m.pass.pc, a))
    ensures OnTheWay(c, o, a, Onwards(c, a, m)) && Follows(m.pass.pc, Onwards(c, a, m).pass)
    ensures Left(a, Onwards(c, a, m).pass) < Left(a, m.pass)
  {
    CleanReplyFits(c, o, a, m);
    if IsPatch(m.pass.pc) {
      MergedIsMemory(c, o, a, m);
    }
    if m.pass.pc.PatchAttachment? {
      GoReadyOnTheWay(c, o, a, m.(obj := m.pass.mem), m.pass);
    }
  }

  lemma OnwardsOnTheWay(c: Cluster, o: MachineObj, a: Answers, m: Machine)
    requires Answerable(a, o.spec.image) && OnTheWay(c, o, a, m) && m.pass.Run? && Sendable(c, a, m.cfg)
    ensures Fits(m.pass.pc, CleanReply(c, m.pass.pc, a))
    ensures OnTheWay(c, o, a, Onwards(c, a, m)) && Follows(m.pass.pc, Onwards(c, a, m).pass)
    ensures Left(a, Onwards(c, a, m).pass) < Left(a, m.pass)
  {
    match m.pass.pc
    case LookupCluster => OpeningOnTheWay(c, o, a, m);
    case UpdateHook => OpeningOnTheWay(c, o, a, m);
    case PatchFinalizer => OpeningOnTheWay(c, o, a, m);
    case Connect => OpeningOnTheWay(c, o, a, m);
    case GetFlavor => SelectionOnTheWay(c, o, a, m);
    case PatchFlavor => SelectionOnTheWay(c, o, a, m);
    case ListImages => SelectionOnTheWay(c, o, a, m);
    case PatchImage(_) => SelectionOnTheWay(c, o, a, m);
    case GetSecret => CreationOnTheWay(c, o, a, m);
    case CreateInstance(_) => CreationOnTheWay(c, o, a, m);
    case PatchInstance => CreationOnTheWay(c, o, a, m);
    case _ => ClosingOnTheWay(c, o, a, m);
  }

  // ---------- the cloud ----------

  /** The resources once the instance between the two objects was created and recorded. */
  function Made(res: map<Id, Resource>, k: Key, project: Id, o: MachineObj, t: MachineObj): map<Id, Resource>
  {
    if t.status.instance == o.status.instance then res
    else res[t.status.instance := Resource(Instance, project, OfMachine(k), true, true, false)]
  }

  /** The resources with what the pending patch is about to record. */
  function WithFlight(res: map<Id, Resource>, k: Key, p: MPass, lost: bool): map<Id, Resource>
  {
    if Flight(p).Unset? then res
    else res[Flight(p) := Resource(Instance, p.clu.project, OfMachine(k), true, false, lost)]
  }

  /** The routes and the lost routes once the attachment between the two objects was made. */
  function RoutesWith(routes: set<(Id, Id)>, v: ClusterView, o: MachineObj, t: MachineObj): set<(Id, Id)>
  {
    if t.status.attachment == o.status.attachment then routes
    else routes + {(v.floatingIP, t.status.instance)}
  }

  function Found(lost: set<Id>, o: MachineObj, t: MachineObj): set<Id>
  {
    if t.status.attachment == o.status.attachment then lost else lost - {t.status.instance}
  }

  function RoutesAt(routes: set<(Id, Id)>, v: ClusterView, o: MachineObj, m: Machine): set<(Id, Id)>
  {
    if m.pass.Run? && m.pass.pc.PatchAttachment? then routes + {(v.floatingIP, m.obj.status.instance)}
    else RoutesWith(routes, v, o, m.obj)
  }

  /** What a pass cut at `m` leaves of the lost routes: one more if its attach was not recorded. */
  function LostAt(lost: set<Id>, o: MachineObj, m: Machine): set<Id>
  {
    if m.pass.Run? && m.pass.pc.PatchAttachment? then lost + {m.obj.status.instance}
    else Found(lost, o, m.obj)
  }

  predicate CloudOnTheWay(start: Cloud, k: Key, c: Cluster, o: MachineObj, m: Machine, cloud: Cloud)
  {
    var v, t := View(c.obj), m.obj;
    && cloud.res == WithFlight(Made(start.res, k, v.project, o, t), k, m.pass, false)
    && cloud.routes == RoutesAt(start.routes, v, o, m)
    && cloud.lostRoutes == Found(start.lostRoutes, o, t)
  }

  /** What the clean reply makes of the cloud. */
  function CloudOnwards(c: Cluster, k: Key, a: Answers, m: Machine, cloud: Cloud): Cloud
    requires m.pass.Run? && Fits(m.pass.pc, CleanReply(c, m.pass.pc, a))
  {
    var r := CleanReply(c, m.pass.pc, a);
    StepCloud(cloud, k, m.pass, PassNext(m.cfg, m.pass, r), r)
  }

  /** Where the IDs stand at a call. */
  lemma Standing(c: Cluster, o: MachineObj, a: Answers, m: Machine)
    requires Answerable(a, o.spec.image) && OnTheWay(c, o, a, m) && m.pass.Run?
    ensures var pc, t, mem := m.pass.pc, m.obj.status, m.pass.mem.status;
      && (pc.PatchInstance? ==> t.instance.Unset? && t.instance == o.status.instance && mem.instance == a.instance)
      && (pc.CreateInstance? ==> t.instance.Unset? && t.instance == o.status.instance)
      && (pc.Attach? || pc.PatchAttachment? ==>
            t.attachment.Unset? && t.attachment == o.status.attachment && mem.instance == t.instance)
      && (pc.PatchAttachment? ==> mem.attachment.Uuid?)
      && (!pc.PatchInstance? ==> mem.instance == t.instance)
      && (!pc.PatchAttachment? ==> mem.attachment == t.attachment)
  {
  }

  /** Which calls record or bring IDs. */
  lemma Moving(c: Cluster, o: MachineObj, a: Answers, m: Machine)
    requires Answerable(a, o.spec.image) && OnTheWay(c, o, a, m) && m.pass.Run? && Sendable(c, a, m.cfg)
    ensures Fits(m.pass.pc, CleanReply(c, m.pass.pc, a))
    ensures var m' := Onwards(c, a, m);
      && m'.obj.status.instance == (if m.pass.pc.PatchInstance? then a.instance else m.obj.status.instance)
      && m'.obj.status.attachment ==
           (if m.pass.pc.PatchAttachment? then m.pass.mem.status.attachment else m.obj.status.attachment)
      && (m'.pass.Run? && m'.pass.pc.PatchInstance? ==>
            m'.pass.mem.status.instance == a.instance && m'.pass.clu == m.pass.clu)
  {
    OnwardsOnTheWay(c, o, a, m);
    Standing(c, o, a, m);
    if IsPatch(m.pass.pc) {
      MergedIsMemory(c, o, a, m);
    }
  }

  lemma ResourcesOnTheWay(start: Cloud, k: Key, c: Cluster, o: MachineObj, a: Answers, m: Machine, cloud: Cloud)
    requires Answerable(a, o.spec.image) && OnTheWay(c, o, a, m) && m.pass.Run? && Sendable(c, a, m.cfg)
    requires CloudOnTheWay(start, k, c, o, m, cloud)
    ensures Fits(m.pass.pc, CleanReply(c, m.pass.pc, a))
    ensures var m' := Onwards(c, a, m);
      CloudOnwards(c, k, a, m, cloud).res
        == WithFlight(Made(start.res, k, View(c.obj).project, o, m'.obj), k, m'.pass, false)
  {
    OnwardsOnTheWay(c, o, a, m);
    Standing(c, o, a, m);
    Moving(c, o, a, m);
  }

  lemma CloudStaysOnTheWay(start: Cloud, k: Key, c: Cluster, o: MachineObj, a: Answers, m: Machine, cloud: Cloud)
    requires Answerable(a, o.spec.image) && OnTheWay(c, o, a, m) && m.pass.Run? && Sendable(c, a, m.cfg)
    requires CloudOnTheWay(start, k, c, o, m, cloud)
    ensures Fits(m.pass.pc, CleanReply(c, m.pass.pc, a))
    ensures CloudOnTheWay(start, k, c, o, Onwards(c, a, m), CloudOnwards(c, k, a, m, cloud))
  {
    ResourcesOnTheWay(start, k, c, o, a, m, cloud);
    OnwardsOnTheWay(c, o, a, m);
    Standing(c, o, a, m);
    Moving(c, o, a, m);
  }

  // ---------- a whole pass ----------

  /** The world in which a pass of machine `k` from the object `o` can go all the way. */
  predicate Open(s: Sys, k: Key, o: MachineObj, a: Answers, start: Cloud)
  {
    && k in s.machines && s.cluster.exists_ && s.infraReady && Sendable(s.cluster, a, s.machines[k].cfg)
    && Answerable(a, o.spec.image) && a.instance !in start.res
  }

  predicate SysOnTheWay(s: Sys, k: Key, o: MachineObj, a: Answers, start: Cloud)
  {
    && Open(s, k, o, a, start) && OnTheWay(s.cluster, o, a, s.machines[k])
    && CloudOnTheWay(start, k, s.cluster, o, s.machines[k], s.cloud)
  }

  /** What an undisturbed pass of machine `k` may touch. */
  ghost predicate Beside(s: Sys, t: Sys, k: Key)
  {
    k in s.machines && k in t.machines && t.machines == s.machines[k := t.machines[k]]
    && t.machines[k].cfg == s.machines[k].cfg && t.cluster == s.cluster && t.infraReady == s.infraReady
  }

  lemma CleanStepEnabled(s: Sys, k: Key, o: MachineObj, a: Answers, start: Cloud)
    requires SysOnTheWay(s, k, o, a, start) && s.machines[k].pass.Run?
    ensures StepEnabled(s, k, CleanReply(s.cluster, s.machines[k].pass.pc, a))
  {
    var m := s.machines[k];
    CleanReplyFits(s.cluster, o, a, m);
    if IsPatch(m.pass.pc) {
      MergedIsMemory(s.cluster, o, a, m);
    }
  }

  /** The next step of the pending pass, without an error. */
  function Next(k: Key, a: Answers): Sys -> Option<Sys>
  {
    (s: Sys) => if k in s.machines && s.machines[k].pass.Run?
            && StepEnabled(s, k, CleanReply(s.cluster, s.machines[k].pass.pc, a))
         then Some(ApplyStep(s, k, CleanReply(s.cluster, s.machines[k].pass.pc, a))) else None
  }

  /** Up to `n` of them, with nothing in between. */
  function Go(s: Sys, k: Key, a: Answers, n: nat): (t: Sys)
    requires k in s.machines
    ensures k in t.machines
  {
    U.GoKeeps(Next(k, a), (z: Sys) => k in z.machines, s, n);
    U.Go(Next(k, a), s, n)
  }

  lemma CleanStep(s: Sys, k: Key, o: MachineObj, a: Answers, start: Cloud)
    requires SysOnTheWay(s, k, o, a, start) && s.machines[k].pass.Run?
    ensures StepEnabled(s, k, CleanReply(s.cluster, s.machines[k].pass.pc, a))
    ensures var t := ApplyStep(s, k, CleanReply(s.cluster, s.machines[k].pass.pc, a));
      && SysOnTheWay(t, k, o, a, start) && Beside(s, t, k)
      && Left(a, t.machines[k].pass) < Left(a, s.machines[k].pass)
  {
    var m := s.machines[k];
    CleanStepEnabled(s, k, o, a, start);
    OnwardsOnTheWay(s.cluster, o, a, m);
    CloudStaysOnTheWay(start, k, s.cluster, o, a, m, s.cloud);
    var t := ApplyStep(s, k, CleanReply(s.cluster, m.pass.pc, a));
    assert t.machines[k] == Onwards(s.cluster, a, m) && t.cloud == CloudOnwards(s.cluster, k, a, m, s.cloud);
  }

  lemma BesideChains(s: Sys, u: Sys, t: Sys, k: Key)
    requires Beside(s, u, k) && Beside(u, t, k)
    ensures Beside(s, t, k)
  {
  }

  /** An undisturbed pass stays on its way, touches nothing else, and ends ready, or with a requeue
      if its VM does not run yet. */
  lemma GoOnTheWay(s: Sys, k: Key, o: MachineObj, a: Answers, start: Cloud, n: nat)
    requires SysOnTheWay(s, k, o, a, start)
    ensures SysOnTheWay(Go(s, k, a, n), k, o, a, start) && Beside(s, Go(s, k, a, n), k)
    ensures Left(a, s.machines[k].pass) <= n ==> Go(s, k, a, n).machines[k].pass == Idle(Ends(a))
  {
    ghost var keeps := z => SysOnTheWay(z, k, o, a, start) && Beside(s, z, k);
    forall u | keeps(u) && Next(k, a)(u).Some?
      ensures keeps(Next(k, a)(u).value) && LeftIn(k, a, Next(k, a)(u).value) < LeftIn(k, a, u)
    {
      CleanStep(u, k, o, a, start);
      BesideChains(s, u, Next(k, a)(u).value, k);
    }
    U.GoKeeps(Next(k, a), keeps, s, n);
    if Left(a, s.machines[k].pass) <= n {
      U.GoEnds(Next(k, a), keeps, (z: Sys) => LeftIn(k, a, z), s, n);
      EndsIdle(Go(s, k, a, n), k, o, a, start);
    }
  }

  function LeftIn(k: Key, a: Answers, s: Sys): nat
  { if k in s.machines then Left(a, s.machines[k].pass) else 0 }

  lemma EndsIdle(s: Sys, k: Key, o: MachineObj, a: Answers, start: Cloud)
    requires SysOnTheWay(s, k, o, a, start) && Next(k, a)(s).None?
    ensures s.machines[k].pass.Idle?
  {
    if s.machines[k].pass.Run? {
      CleanStep(s, k, o, a, start);
    }
  }

  /** The whole of an undisturbed creating pass. */
  function WholePass(s: Sys, k: Key, a: Answers): Sys
    requires k in s.machines
  { Go(ApplyBegin(s, k), k, a, 15 + |a.images|) }

  lemma PassOnTheWay(s: Sys, k: Key, a: Answers, n: nat)
    requires k in s.machines && Open(s, k, s.machines[k].obj, a, s.cloud)
    requires Enabled(s, Begin(k)) && !s.machines[k].deleting && !s.machines[k].deletionSeen
    ensures var t := Go(ApplyBegin(s, k), k, a, n);
      && SysOnTheWay(t, k, s.machines[k].obj, a, s.cloud) && Beside(s, t, k)
      && (n >= 15 + |a.images| ==> t.machines[k].pass == Idle(Ends(a)))
  {
    GoOnTheWay(ApplyBegin(s, k), k, s.machines[k].obj, a, s.cloud, n);
  }

  // ---------- a cut pass ----------

  /** What the cut pass had time to record, and what the next one was answered for the rest. */
  function Mix(a: Answers, b: Answers, o: MachineObj, t: MachineObj): Answers
  {
    var vm := o.status.instance.Unset? && t.status.instance.Uuid?;
    Answers(
      if o.status.flavor.Unset? && t.status.flavor.Uuid? then a.flavor else b.flavor,
      if o.status.image.Unset? && t.status.image.Uuid? then [Image(Some(o.spec.image), t.status.image)]
      else b.images,
      if vm then a.instance else b.instance,
      if vm then a.addresses else b.addresses,
      if o.status.attachment.Unset? && t.status.attachment.Uuid? then a.attachments else b.attachments,
      b.running,
      b.secret)
  }

  lemma MixIsAnswerable(a: Answers, b: Answers, o: MachineObj, t: MachineObj)
    requires Answerable(a, o.spec.image) && Answerable(b, o.spec.image)
    ensures Answerable(Mix(a, b, o, t), o.spec.image)
    ensures Chosen(o, Mix(a, b, o, t)) ==
              if o.status.image.Uuid? then o.status.image
              else if t.status.image.Uuid? then t.status.image else LastMatch(b.images, o.spec.image).value
  {
    var images := [Image(Some(o.spec.image), t.status.image)];
    assert LastMatch(images[1..], o.spec.image) == None;
  }

  /** `t` is `o` with some empty slots filled with answers. */
  predicate Filled(o: MachineObj, a: Answers, t: MachineObj, controlPlane: bool)
    requires Answerable(a, o.spec.image)
  {
    var u, v := o.status, t.status;
    && t.spec.flavor == o.spec.flavor && t.spec.image == o.spec.image && v.ready == u.ready
    && (v.flavor == u.flavor || (u.flavor.Unset? && v.flavor == a.flavor))
    && (v.image == u.image || u.image.Unset?)
    && (v.instance == u.instance ==> t.spec.providerID == o.spec.providerID && v.addresses == u.addresses)
    && (v.instance != u.instance ==>
          && u.instance.Unset? && v.instance == a.instance && v.addresses == Values(a.addresses)
          && t.spec.providerID == Some(ProviderID(a.instance)))
    && (v.attachment == u.attachment
        || (controlPlane && u.attachment.Unset? && v.attachment == a.attachments[0] && v.instance.Uuid?))
  }

  lemma SelectedIsFilled(o: MachineObj, a: Answers, image: Id, controlPlane: bool)
    requires Answerable(a, o.spec.image) && (o.status.image.Uuid? ==> image == o.status.image)
    ensures Filled(o, a, Selected(o, a, image), controlPlane)
    ensures Filled(o, a, Created(o, a, image), controlPlane)
    ensures Filled(o, a, Routed(o, a, image, controlPlane), controlPlane)
  {
  }

  lemma StageIsFilled(cfg: MachineConfig, o: MachineObj, a: Answers, p: MPass, stored: MachineObj)
    requires p.Run? && Answerable(a, o.spec.image) && Stage(cfg, o, a, p, stored)
    ensures Filled(o, a, stored, cfg.controlPlane)
  {
    SelectedIsFilled(o, a, Chosen(o, a), cfg.controlPlane);
    if p.pc.PatchImage? {
      SelectedIsFilled(o, a, stored.status.image, cfg.controlPlane);
    }
  }

  lemma StoredIsFilled(c: Cluster, o: MachineObj, a: Answers, m: Machine)
    requires Answerable(a, o.spec.image) && OnTheWay(c, o, a, m) && m.pass.Run?
    ensures Filled(o, a, m.obj, m.cfg.controlPlane)
  {
    StageIsFilled(m.cfg, o, a, m.pass, m.obj);
  }

  lemma FilledThenFinal(o: MachineObj, a: Answers, b: Answers, t: MachineObj, controlPlane: bool)
    requires Answerable(a, o.spec.image) && Answerable(b, o.spec.image) && Filled(o, a, t, controlPlane)
    ensures Answerable(Mix(a, b, o, t), o.spec.image)
    ensures Final(t, b, controlPlane) == Final(o, Mix(a, b, o, t), controlPlane)
  {
    MixIsAnswerable(a, b, o, t);
  }

  /** What a crash in the middle of the way leaves. */
  lemma CutLeaves(start: Cloud, k: Key, o: MachineObj, a: Answers, s: Sys)
    requires SysOnTheWay(s, k, o, a, start) && s.machines[k].pass.Run?
    ensures var m, t, v := s.machines[k], ApplyCrash(s, k), View(s.cluster.obj);
      && t.machines == s.machines[k := m.(pass := Idle(Failed))]
      && t.cluster == s.cluster && t.infraReady == s.infraReady
      && t.cloud.res == WithFlight(Made(start.res, k, v.project, o, m.obj), k, m.pass, true)
      && t.cloud.routes == RoutesAt(start.routes, v, o, m)
      && t.cloud.lostRoutes == LostAt(start.lostRoutes, o, m)
  {
    Standing(s.cluster, o, a, s.machines[k]);
  }

  /** Which IDs the cut pass had recorded, and which the next one records. */
  predicate SlotsMeet(o: MachineObj, a: Answers, b: Answers, m: Machine, z: MachineObj)
  {
    var u, t, f := o.status, m.obj.status, Flight(m.pass);
    && z.status.instance == (if t.instance.Uuid? then t.instance else b.instance)
    && (t.instance == u.instance || (u.instance.Unset? && t.instance == a.instance))
    && (f.Uuid? ==> f == a.instance && t.instance.Unset?)
    && (t.attachment == u.attachment || (u.attachment.Unset? && t.instance.Uuid?))
    && (z.status.attachment == t.attachment || t.attachment.Unset?)
    && (m.pass.Run? && m.pass.pc.PatchAttachment? ==>
          && t.attachment.Unset? && z.status.attachment.Uuid? && t.instance.Uuid?
          && t.attachment == u.attachment)
  }

  lemma FinalSlots(o: MachineObj, a: Answers, controlPlane: bool)
    requires Answerable(a, o.spec.image)
    ensures var u, v := o.status, Final(o, a, controlPlane).status;
      && v.instance == (if u.instance.Uuid? then u.instance else a.instance)
      && v.attachment == (if controlPlane && u.attachment.Unset? then a.attachments[0] else u.attachment)
  {
  }

  lemma CutSlots(c: Cluster, o: MachineObj, a: Answers, b: Answers, m: Machine, z: MachineObj)
    requires Answerable(a, o.spec.image) && Answerable(b, m.obj.spec.image) && OnTheWay(c, o, a, m) && m.pass.Run?
    requires z == Final(m.obj, b, m.cfg.controlPlane)
    ensures SlotsMeet(o, a, b, m, z)
  {
    Standing(c, o, a, m);
    StoredIsFilled(c, o, a, m);
    FinalSlots(m.obj, b, m.cfg.controlPlane);
  }

  lemma SameResources(res: map<Id, Resource>, k: Key, project: Id, o: MachineObj, a: Answers, b: Answers,
                      m: Machine, z: MachineObj)
    requires SlotsMeet(o, a, b, m, z) && a.instance !in res && b.instance.Uuid?
    requires b.instance !in WithFlight(Made(res, k, project, o, m.obj), k, m.pass, true)
    ensures var w := Made(res, k, project, o, z);
      && (Flight(m.pass).Uuid? ==> Flight(m.pass) !in w)
      && Made(WithFlight(Made(res, k, project, o, m.obj), k, m.pass, true), k, project, m.obj, z)
           == WithFlight(w, k, m.pass, true)
  {
  }

  lemma SameRoutes(routes: set<(Id, Id)>, lost: set<Id>, v: ClusterView, o: MachineObj, a: Answers, b: Answers,
                   m: Machine, z: MachineObj)
    requires SlotsMeet(o, a, b, m, z)
    ensures RoutesWith(RoutesAt(routes, v, o, m), v, m.obj, z) == RoutesWith(routes, v, o, z)
    ensures Found(LostAt(lost, o, m), m.obj, z) == Found(lost, o, z)
  {
  }

  /** The end `t` of an undisturbed pass from `s` in full. */
  ghost predicate Ended(s: Sys, t: Sys, k: Key, z: MachineObj, out: Outcome)
  {
    && Beside(s, t, k)
    && t.machines[k].pass == Idle(out) && t.machines[k].obj == z && t.machines[k].hook
    && var o, v := s.machines[k].obj, View(s.cluster.obj);
      && t.cloud.res == Made(s.cloud.res, k, v.project, o, z)
      && t.cloud.routes == RoutesWith(s.cloud.routes, v, o, z)
      && t.cloud.lostRoutes == Found(s.cloud.lostRoutes, o, z)
  }

  lemma WholePassEnds(s: Sys, k: Key, a: Answers)
    requires k in s.machines && Open(s, k, s.machines[k].obj, a, s.cloud)
    requires Enabled(s, Begin(k)) && !s.machines[k].deleting && !s.machines[k].deletionSeen
    ensures Ended(s, WholePass(s, k, a), k, Final(s.machines[k].obj, a, s.machines[k].cfg.controlPlane), Ends(a))
  {
    PassOnTheWay(s, k, a, 15 + |a.images|);
  }

  /** The two ways from a cut at `x`. */
  lemma WaysMeet(s: Sys, k: Key, a: Answers, b: Answers, x: Sys)
    requires k in s.machines && Enabled(s, Begin(k)) && !s.machines[k].deleting && !s.machines[k].deletionSeen
    requires SysOnTheWay(x, k, s.machines[k].obj, a, s.cloud) && Beside(s, x, k) && x.machines[k].pass.Run?
    requires Answerable(b, s.machines[k].obj.spec.image) && b.instance !in ApplyCrash(x, k).cloud.res
    requires Sendable(s.cluster, b, s.machines[k].cfg)
    ensures Meet(s, k, a, b, x)
  {
    var o, m, v, y := s.machines[k].obj, x.machines[k], View(s.cluster.obj), ApplyCrash(x, k);
    CutLeaves(s.cloud, k, o, a, x);
    StoredIsFilled(s.cluster, o, a, m);
    FilledThenFinal(o, a, b, m.obj, m.cfg.controlPlane);
    var mix, z := Mix(a, b, o, m.obj), Final(m.obj, b, m.cfg.controlPlane);
    FreshEitherWay(s.cloud.res, k, v.project, o, a, b, m);
    WholePassEnds(y, k, b);
    WholePassEnds(s, k, mix);
    EndsMeet(s, k, a, b, x, y, z, WholePass(y, k, b), WholePass(s, k, mix));
  }

  lemma EndsMeet(s: Sys, k: Key, a: Answers, b: Answers, x: Sys, y: Sys, z: MachineObj, resumed: Sys, straight: Sys)
    requires k in s.machines && SysOnTheWay(x, k, s.machines[k].obj, a, s.cloud) && x.machines[k].pass.Run?
    requires y == ApplyCrash(x, k) && Beside(s, x, k)
    requires Answerable(b, s.machines[k].obj.spec.image) && b.instance !in y.cloud.res
    requires Answerable(b, x.machines[k].obj.spec.image)
    requires z == Final(x.machines[k].obj, b, x.machines[k].cfg.controlPlane)
    requires Ended(y, resumed, k, z, Ends(b)) && Ended(s, straight, k, z, Ends(b))
    ensures Agree(s, k, x.machines[k].pass, resumed, straight, Ends(b))
  {
    var o, m, v := s.machines[k].obj, x.machines[k], View(s.cluster.obj);
    CutLeaves(s.cloud, k, o, a, x);
    CutSlots(s.cluster, o, a, b, m, z);
    SameResources(s.cloud.res, k, v.project, o, a, b, m, z);
    SameRoutes(s.cloud.routes, s.cloud.lostRoutes, v, o, a, b, m, z);
  }

  lemma FreshEitherWay(res: map<Id, Resource>, k: Key, project: Id, o: MachineObj, a: Answers, b: Answers, m: Machine)
    requires a.instance !in res && b.instance !in WithFlight(Made(res, k, project, o, m.obj), k, m.pass, true)
    ensures Mix(a, b, o, m.obj).instance !in res
  {
  }

  /** Both ways end alike, but for the VM that the cut pass was about to record. */
  ghost predicate Agree(s: Sys, k: Key, cut: MPass, resumed: Sys, straight: Sys, out: Outcome)
  {
    && Beside(s, resumed, k) && Beside(s, straight, k)
    && resumed.machines[k].pass == Idle(out) && straight.machines[k].pass == Idle(out)
    && resumed.machines[k].obj == straight.machines[k].obj && resumed.machines[k].hook && straight.machines[k].hook
    && (Flight(cut).Uuid? ==> Flight(cut) !in straight.cloud.res)
    && resumed.cloud.res == WithFlight(straight.cloud.res, k, cut, true)
    && resumed.cloud.routes == straight.cloud.routes && resumed.cloud.lostRoutes == straight.cloud.lostRoutes
  }

  /** A pass resumed after a cut at `x` ends like a straight one with the mixed answers. */
  ghost predicate Meet(s: Sys, k: Key, a: Answers, b: Answers, x: Sys)
    requires k in s.machines && k in x.machines && x.machines[k].pass.Run?
  {
    var y := ApplyCrash(x, k);
    var mix := Mix(a, b, s.machines[k].obj, y.machines[k].obj);
    && Open(s, k, s.machines[k].obj, mix, s.cloud)
    && Agree(s, k, x.machines[k].pass, WholePass(y, k, b), WholePass(s, k, mix), Ends(b))
  }

  /** A pass that is cut after any number of calls, followed by an undisturbed one, leaves the
      machine object and the hook just as one undisturbed pass would that was given the
      answers recorded before the cut and the later answers for the rest. So it leaves the
      routes, and the cloud but for one VM if the cut fell between its creation and its
      patch: that one is lost. */
  lemma CutPassRecovers(s: Sys, k: Key, a: Answers, b: Answers, n: nat)
    requires Reachable(s) && Enabled(s, Begin(k)) && !s.machines[k].deleting
    requires Open(s, k, s.machines[k].obj, a, s.cloud) && Go(ApplyBegin(s, k), k, a, n).machines[k].pass.Run?
    requires Answerable(b, s.machines[k].obj.spec.image) && Sendable(s.cluster, b, s.machines[k].cfg)
    requires b.instance !in ApplyCrash(Go(ApplyBegin(s, k), k, a, n), k).cloud.res
    ensures Meet(s, k, a, b, Go(ApplyBegin(s, k), k, a, n))
  {
    ReachableInv(s);
    assert MStored(s.cluster, s.cloud, k, s.machines[k]);
    PassOnTheWay(s, k, a, n);
    WaysMeet(s, k, a, b, Go(ApplyBegin(s, k), k, a, n));
  }
}
