/** The two reconcilers, the API server, the cloud and their environment as one transition
    system. Every call that leaves the process is one step, so that any two calls may be
    interleaved with anything else, fail, take effect and still report an error, or be the
    last thing a crashed pass did. Local code runs with the step before it. */
module System {
  import opened Api
  import opened BootData

  // ---------- the cloud ----------

  datatype Kind = Network | FloatingIP | SshKey | Instance
  datatype Owner = OfCluster | OfMachine(key: Key)

  /** A resource the cloud ever made. `live` is the cloud's own state; `owner`, `kept` (its ID
      was once written to a stored status) and `lost` (no pass can write it any more) are
      history, which no transition reads. */
  datatype Resource = Resource(
    kind: Kind, project: Id, owner: Owner, live: bool, kept: bool, lost: bool)

  datatype Call =
    | CreateCall(kind: Kind, project: Id)
    | CreateInstanceCall(key: Key, zone: string, subnet: Id, flavor: Id, image: Id, project: Id,
                         sshKey: Id, user: Json)
    | AttachCall(key: Key, project: Id, fip: Id, instance: Id)
    | DetachCall(key: Key, project: Id, fip: Id, instance: Id)
    | DeleteCall(owner: Owner, kind: Kind, id: Id, project: Id)

  /** `routes` holds (floating IP, instance) pairs. `lostRoutes` (instances whose route was
      made but whose attachment ID is not stored), `calls`, `offered` (names and IDs that image
      lists ever paired) and `secrets` (what bootstrap secrets ever held) are history. */
  datatype Cloud = Cloud(
    res: map<Id, Resource>, routes: set<(Id, Id)>, lostRoutes: set<Id>,
    calls: set<Call>, offered: set<(string, Id)>, secrets: set<(Key, string)>)

  datatype Image = Image(name: Option<string>, id: Id)

  /** What a call came back with. `Fail` is an error report; `effect` says whether the call
      did its work all the same, and `id` names what a create then made. `Absent` ends a pass
      without an error: an owner that is not set yet, or a WXOneCluster that could not be read. */
  datatype Reply =
    | Fail(effect: bool, id: Id)
    | Done
    | Absent
    | GotCluster(clu: ClusterView, infra: bool, bootstrap: bool)
    | GotOwner(hook: bool)
    | GotId(id: Id)
    | GotImages(images: seq<Image>)
    | GotSecret(text: Option<string>)
    | MadeInstance(id: Id, addresses: seq<Option<string>>)
    | Attached(ids: seq<Id>)
    | GotState(running: bool)
    | MadeNetwork(id: Id, subnets: seq<Id>)
    | MadeFloatingIP(id: Id, ip: string)

  predicate Took(r: Reply)
  {
    r.Fail? ==> r.effect
  }

  // ---------- one pass of the machine reconciler ----------

  /** What a machine pass reads of the WXOneCluster. */
  datatype ClusterView = ClusterView(
    zone: string, project: Id, subnet: Id, floatingIP: Id, ip: string, sshKey: Id)

  datatype Outcome =
    | NeverRan | Failed | Skipped | WaitingForCluster | Requeued | MadeReady | FellThrough
    | HookRemoved | FinalizerRemoved

  datatype MPc =
    | LookupCluster
    | UpdateHook | PatchFinalizer | Connect | GetFlavor | PatchFlavor
    | ListImages | PatchImage(rest: seq<Image>) | GetSecret | CreateInstance(user: Json)
    | PatchInstance | Attach | PatchAttachment | GetInstance | PatchReady
    | Prepare | Detach | PatchDetached | RemoveHook | LateDetach | PatchLateDetached
    | Destroy | PatchDestroyed | PatchFinalizerOff

  /** `before` is the patch helper's snapshot, `mem` the object in memory, `hook` the
      annotation of the owner Machine in memory. */
  datatype MPass =
    | Idle(last: Outcome)
    | Run(pc: MPc, del: bool, hook: bool, clu: ClusterView, infra: bool, bootstrap: bool,
          before: MachineObj, mem: MachineObj)

  /** The role label of the owner Machine, a constant, and the user data that the text of a secret
      comes to for an address, if any. */
  datatype MachineConfig = MachineConfig(controlPlane: bool, boot: (string, string) -> Option<Json>)

  const NO_VIEW := ClusterView("", Unset, Unset, Unset, "", Unset)

  function SetFlavor(p: MPass, id: Id, pc: MPc): MPass
    requires p.Run?
  { p.(pc := pc, mem := p.mem.(status := p.mem.status.(flavor := id))) }

  function SetImage(p: MPass, id: Id, pc: MPc): MPass
    requires p.Run?
  { p.(pc := pc, mem := p.mem.(status := p.mem.status.(image := id))) }

  function SetInstance(p: MPass, id: Id, addresses: seq<string>, pc: MPc): MPass
    requires p.Run?
  {
    p.(pc := pc, mem := p.mem.(
      spec := p.mem.spec.(providerID := Some(ProviderID(id))),
      status := p.mem.status.(instance := id, addresses := addresses)))
  }

  function ClearInstance(p: MPass, pc: MPc): MPass
    requires p.Run?
  { p.(pc := pc, mem := p.mem.(status := p.mem.status.(instance := Unset))) }

  function SetAttachment(p: MPass, id: Id, pc: MPc): MPass
    requires p.Run?
  { p.(pc := pc, mem := p.mem.(status := p.mem.status.(attachment := id))) }

  function SetReady(p: MPass, pc: MPc): MPass
    requires p.Run?
  { p.(pc := pc, mem := p.mem.(status := p.mem.status.(ready := true))) }

  // reconcileNormal, from each guard to the next call

  function GoFlavor(cfg: MachineConfig, p: MPass): MPass
    requires p.Run?
  {
    if p.mem.status.flavor.Unset? then p.(pc := GetFlavor) else GoImage(cfg, p)
  }

  function GoImage(cfg: MachineConfig, p: MPass): MPass
    requires p.Run?
  {
    if p.mem.status.image.Unset? then p.(pc := ListImages) else GoInstance(cfg, p)
  }

  /** The image loop from `rest` on, up to its next patch. A nil name panics. */
  function Scan(cfg: MachineConfig, p: MPass, rest: seq<Image>, found: bool): MPass
    requires p.Run?
  {
    if rest == [] then (if found then GoInstance(cfg, p) else Idle(Failed))
    else if rest[0].name.None? then Idle(Failed)
    else if rest[0].name.value == p.mem.spec.image then
      SetImage(p, rest[0].id, PatchImage(rest[1..]))
    else Scan(cfg, p, rest[1..], found)
  }

  function GoInstance(cfg: MachineConfig, p: MPass): MPass
    requires p.Run?
  {
    if p.mem.status.instance.Unset? && p.mem.status.image.Uuid? && p.mem.status.flavor.Uuid?
    then p.(pc := GetSecret) else GoAttach(cfg, p)
  }

  function GoAttach(cfg: MachineConfig, p: MPass): MPass
    requires p.Run?
  {
    if cfg.controlPlane && p.mem.status.instance.Uuid? && p.mem.status.attachment.Unset?
    then p.(pc := Attach) else GoReady(cfg, p)
  }

  function GoReady(cfg: MachineConfig, p: MPass): MPass
    requires p.Run?
  {
    if ((cfg.controlPlane && p.mem.status.attachment.Uuid?) || !cfg.controlPlane)
      && p.mem.status.instance.Uuid?
    then p.(pc := GetInstance) else Idle(FellThrough)
  }

  // reconcileDelete, from each guard to the next call

  function GoHook(cfg: MachineConfig, p: MPass): MPass
    requires p.Run?
  {
    var routed := cfg.controlPlane && p.mem.status.attachment.Uuid?;
    if p.hook then p.(pc := if routed then Detach else RemoveHook)
    else if routed then p.(pc := LateDetach)
    else GoDestroy(cfg, p)
  }

  function GoDestroy(cfg: MachineConfig, p: MPass): MPass
    requires p.Run?
  {
    if p.mem.status.instance.Uuid?
      && ((cfg.controlPlane && p.mem.status.attachment.Unset?) || !cfg.controlPlane)
    then p.(pc := Destroy) else GoFinalizerOff(p)
  }

  function GoFinalizerOff(p: MPass): MPass
    requires p.Run?
  {
    if p.mem.status.instance.Unset?
    then p.(pc := PatchFinalizerOff, mem := p.mem.(finalizer := false)) else Idle(Requeued)
  }

  /** Does `r` fit the call at `pc`? An error fits every call. IDs of made things are set. */
  predicate Fits(pc: MPc, r: Reply)
  {
    r.Fail? || match pc
      case LookupCluster => r.GotCluster? || r.Absent?
      case Prepare => r.GotOwner?
      case GetFlavor => r.GotId?
      case ListImages => r.GotImages?
      case GetSecret => r.GotSecret?
      case CreateInstance(_) => r.MadeInstance?
      case Attach => r.Attached? && forall i :: 0 <= i < |r.ids| ==> r.ids[i].Uuid?
      case GetInstance => r.GotState?
      case _ => r.Done?
  }

  function Values(addresses: seq<Option<string>>): seq<string>
    requires forall i :: 0 <= i < |addresses| ==> addresses[i].Some?
  {
    seq(|addresses|, i requires 0 <= i < |addresses| => addresses[i].value)
  }

  /** The bootstrap secret in hand, the user data is made of its value, if it has one. */
  function WithBootData(cfg: MachineConfig, p: MPass, text: Option<string>): MPass
    requires p.Run?
  {
    var user := if text.None? then None else cfg.boot(text.value, p.clu.ip);
    if user.None? then Idle(Failed) else p.(pc := CreateInstance(user.value))
  }

  /** A nil address in the reply panics. */
  function WithInstance(p: MPass, id: Id, addresses: seq<Option<string>>): MPass
    requires p.Run?
  {
    if exists i :: 0 <= i < |addresses| && addresses[i].None? then Idle(Failed)
    else SetInstance(p, id, Values(addresses), PatchInstance)
  }

  function WithFinalizer(p: MPass): MPass
    requires p.Run?
  { p.(pc := PatchFinalizer, mem := p.mem.(finalizer := true)) }

  /** The pass after its pending call came back with `r` and the code ran to its next call. */
  function PassNext(cfg: MachineConfig, p: MPass, r: Reply): MPass
    requires p.Run? && Fits(p.pc, r)
  {
    if r.Fail? then
      if p.pc.LateDetach? then SetAttachment(p, Unset, PatchLateDetached)
      else Idle(Failed)
    else match p.pc
      case LookupCluster =>
        if r.Absent? then Idle(Skipped) else
        var q := p.(clu := r.clu, infra := r.infra, bootstrap := r.bootstrap);
        if q.del then q.(pc := Prepare)
        else if !q.hook then q.(pc := UpdateHook)
        else WithFinalizer(q)
      case UpdateHook => WithFinalizer(p.(hook := true))
      case PatchFinalizer => p.(pc := Connect)
      case Connect =>
        if !p.infra then Idle(WaitingForCluster)
        else if !p.bootstrap then Idle(Requeued)
        else GoFlavor(cfg, p)
      case GetFlavor => SetFlavor(p, r.id, PatchFlavor)
      case PatchFlavor => GoImage(cfg, p)
      case ListImages => Scan(cfg, p, r.images, false)
      case PatchImage(rest) => Scan(cfg, p, rest, true)
      case GetSecret => WithBootData(cfg, p, r.text)
      case CreateInstance(_) => WithInstance(p, r.id, r.addresses)
      case PatchInstance => GoAttach(cfg, p)
      case Attach =>
        if r.ids == [] then Idle(Failed) else SetAttachment(p, r.ids[0], PatchAttachment)
      case PatchAttachment => GoReady(cfg, p)
      case GetInstance =>
        if r.running then SetReady(p, PatchReady) else Idle(Requeued)
      case PatchReady => Idle(MadeReady)
      case Prepare => GoHook(cfg, p.(hook := r.hook))
      case Detach => SetAttachment(p, Unset, PatchDetached)
      case PatchDetached => p.(pc := RemoveHook)
      case RemoveHook => Idle(HookRemoved)
      case LateDetach => SetAttachment(p, Unset, PatchLateDetached)
      case PatchLateDetached => GoDestroy(cfg, p)
      case Destroy => ClearInstance(p, PatchDestroyed)
      case PatchDestroyed => GoFinalizerOff(p)
      case PatchFinalizerOff => Idle(FinalizerRemoved)
  }

  predicate IsPatch(pc: MPc)
  {
    pc.PatchFinalizer? || pc.PatchFlavor? || pc.PatchImage? || pc.PatchInstance?
    || pc.PatchAttachment? || pc.PatchReady? || pc.PatchDetached? || pc.PatchLateDetached?
    || pc.PatchDestroyed? || pc.PatchFinalizerOff?
  }

  // ---------- the stored objects ----------

  /** A WXOneMachine with the annotation of its owner Machine. `first` (the instance ID first
      stored), `edited` (a user changed the provider ID), `deletionSeen` (a pass began with the
      deletion timestamp set) and the counts of ended delete passes are history. */
  datatype Machine = Machine(
    cfg: MachineConfig, hook: bool, exists_: bool, deleting: bool, obj: MachineObj, pass: MPass,
    first: Id, edited: bool, deletionSeen: bool, cleanDeletes: nat, failedDeletes: nat)

  datatype CPc =
    | CLookupOwner(del: bool)
    | CPatchFinalizer | CConnect | GetProject | Create(kind: Kind) | Record(kind: Kind)
    | CPatchReady | CPrepare | Delete(kind: Kind) | Clear(kind: Kind) | CPatchFinalizerOff

  datatype CPass = CIdle(last: Outcome) | CRun(pc: CPc, before: ClusterObj, mem: ClusterObj)

  /** The WXOneCluster. `first` (the IDs first stored), `deletionSeen` and the counts are history. */
  datatype Cluster = Cluster(
    exists_: bool, deleting: bool, obj: ClusterObj, pass: CPass,
    first: Slots, deletionSeen: bool, cleanDeletes: nat, failedDeletes: nat)

  datatype Slots = Slots(network: Id, floatingIP: Id, sshKey: Id)

  /** `infraReady` is the readiness that Cluster API copies from the WXOneCluster. */
  datatype Sys = Sys(machines: map<Key, Machine>, cluster: Cluster, infraReady: bool, cloud: Cloud)

  function View(c: ClusterObj): ClusterView
  {
    var st := c.status;
    ClusterView(c.spec.zone, st.project, st.subnet, st.floatingIP, st.ip, st.sshKey)
  }

  function Merged(m: Machine): MachineObj
    requires m.pass.Run?
  { MergeMachine(m.pass.before, m.pass.mem, m.obj) }

  /** The API server takes a patch of an object that exists, adds no finalizer to one that is
      being deleted, and asks the validating webhook. */
  predicate PatchAllowed(m: Machine)
    requires m.pass.Run?
  {
    m.exists_ && (Merged(m).finalizer && !m.obj.finalizer ==> !m.deleting)
    && MachineUpdateAdmitted(m.obj.spec, Merged(m).spec)
  }

  // ---------- machine steps ----------

  function NewId(r: Reply): Id
  {
    match r
    case Fail(_, id) => id
    case MadeInstance(id, _) => id
    case MadeNetwork(id, _) => id
    case MadeFloatingIP(id, _) => id
    case GotId(id) => id
    case _ => Unset
  }

  predicate Fresh(cloud: Cloud, id: Id)
  {
    id.Uuid? && id !in cloud.res
  }

  /** May the call pending in `m` come back with `r`? */
  predicate MayReply(c: Cluster, infraReady: bool, cloud: Cloud, m: Machine, r: Reply)
    requires m.pass.Run?
  {
    var p := m.pass;
    && Fits(p.pc, r)
    && (p.pc.CreateInstance? && Took(r) ==> Fresh(cloud, NewId(r)))
    && (IsPatch(p.pc) && Took(r) ==> PatchAllowed(m))
    && (r.GotCluster? ==> c.exists_ && r.clu == View(c.obj) && (r.infra ==> infraReady))
    && (r.GotOwner? ==> r.hook == m.hook)
  }

  predicate StepEnabled(s: Sys, k: Key, r: Reply)
  {
    k in s.machines && s.machines[k].pass.Run?
    && MayReply(s.cluster, s.infraReady, s.cloud, s.machines[k], r)
  }

  function KeepId(res: map<Id, Resource>, id: Id): map<Id, Resource>
  { if id in res then res[id := res[id].(kept := true)] else res }

  function LoseId(res: map<Id, Resource>, id: Id): map<Id, Resource>
  { if id in res then res[id := res[id].(lost := true)] else res }

  /** A deletion works on a live resource of the project it names. */
  function DestroyId(res: map<Id, Resource>, id: Id, project: Id): map<Id, Resource>
  {
    if id in res && res[id].project == project then res[id := res[id].(live := false)] else res
  }

  function StepRes(cloud: Cloud, k: Key, p: MPass, next: MPass, r: Reply): map<Id, Resource>
    requires p.Run?
  {
    if p.pc.CreateInstance? && Took(r) then
      cloud.res[NewId(r) :=
        Resource(Instance, p.clu.project, OfMachine(k), true, false, next.Idle?)]
    else if p.pc.PatchInstance? then
      if Took(r) then KeepId(cloud.res, p.mem.status.instance)
      else LoseId(cloud.res, p.mem.status.instance)
    else if p.pc.Destroy? && Took(r) then
      DestroyId(cloud.res, p.mem.status.instance, p.clu.project)
    else cloud.res
  }

  function StepRoutes(cloud: Cloud, p: MPass, r: Reply): set<(Id, Id)>
    requires p.Run?
  {
    var route := (p.clu.floatingIP, p.mem.status.instance);
    if p.pc.Attach? && Took(r) then cloud.routes + {route}
    else if (p.pc.Detach? || p.pc.LateDetach?) && Took(r)
      && p.clu.floatingIP in cloud.res && cloud.res[p.clu.floatingIP].project == p.clu.project
    then cloud.routes - {route}
    else cloud.routes
  }

  function StepLostRoutes(cloud: Cloud, p: MPass, next: MPass, r: Reply): set<Id>
    requires p.Run?
  {
    var i := p.mem.status.instance;
    if p.pc.Attach? && Took(r) && next.Idle? then cloud.lostRoutes + {i}
    else if p.pc.PatchAttachment? then
      if Took(r) then cloud.lostRoutes - {i} else cloud.lostRoutes + {i}
    else cloud.lostRoutes
  }

  function StepCalls(cloud: Cloud, k: Key, p: MPass): set<Call>
    requires p.Run?
  {
    var st, v := p.mem.status, p.clu;
    match p.pc
    case CreateInstance(user) =>
      cloud.calls + {CreateInstanceCall(k, v.zone, v.subnet, st.flavor, st.image, v.project, v.sshKey, user)}
    case Attach => cloud.calls + {AttachCall(k, v.project, v.floatingIP, st.instance)}
    case Detach => cloud.calls + {DetachCall(k, v.project, v.floatingIP, st.instance)}
    case LateDetach => cloud.calls + {DetachCall(k, v.project, v.floatingIP, st.instance)}
    case Destroy => cloud.calls + {DeleteCall(OfMachine(k), Instance, st.instance, v.project)}
    case _ => cloud.calls
  }

  function StepOffered(cloud: Cloud, r: Reply): set<(string, Id)>
  {
    if r.GotImages?
    then cloud.offered + set img | img in r.images && img.name.Some? :: (img.name.value, img.id)
    else cloud.offered
  }

  function StepSecrets(cloud: Cloud, k: Key, r: Reply): set<(Key, string)>
  { if r.GotSecret? && r.text.Some? then cloud.secrets + {(k, r.text.value)} else cloud.secrets }

  /** Ended passes are counted; a skipped one never entered reconcileDelete. */
  function Count(m: Machine, next: MPass): Machine
  {
    var ended := next.Idle? && m.pass.Run? && m.pass.del && next.last != Skipped;
    m.(pass := next,
       cleanDeletes := m.cleanDeletes + if ended && next.last != Failed then 1 else 0,
       failedDeletes := m.failedDeletes + if ended && next.last == Failed then 1 else 0)
  }

  /** What a step stores of a machine, before its pass is counted. */
  function Stored(m: Machine, r: Reply): Machine
    requires m.pass.Run?
  {
    var p := m.pass;
    m.(obj := if IsPatch(p.pc) && Took(r) then Merged(m) else m.obj,
       hook := if p.pc.UpdateHook? && Took(r) then true
               else if p.pc.RemoveHook? && Took(r) then false else m.hook,
       first := if p.pc.PatchInstance? && Took(r) then p.mem.status.instance else m.first)
  }

  function StepMachine(m: Machine, next: MPass, r: Reply): Machine
    requires m.pass.Run?
  { Count(Stored(m, r), next) }

  function StepCloud(cloud: Cloud, k: Key, p: MPass, next: MPass, r: Reply): Cloud
    requires p.Run?
  {
    Cloud(StepRes(cloud, k, p, next, r), StepRoutes(cloud, p, r), StepLostRoutes(cloud, p, next, r),
          StepCalls(cloud, k, p), StepOffered(cloud, r), StepSecrets(cloud, k, r))
  }

  function ApplyStep(s: Sys, k: Key, r: Reply): Sys
    requires StepEnabled(s, k, r)
  {
    var m := s.machines[k];
    var next := PassNext(m.cfg, m.pass, r);
    s.(machines := s.machines[k := StepMachine(m, next, r)],
       cloud := StepCloud(s.cloud, k, m.pass, next, r))
  }

  /** The process stops before its pending call: what was not stored yet is lost. */
  function ApplyCrash(s: Sys, k: Key): Sys
    requires k in s.machines && s.machines[k].pass.Run?
  {
    var m := s.machines[k]; var p := m.pass;
    s.(machines := s.machines[k := Count(m, Idle(Failed))],
       cloud := s.cloud.(
         res := if p.pc.PatchInstance? then LoseId(s.cloud.res, p.mem.status.instance) else s.cloud.res,
         lostRoutes := if p.pc.PatchAttachment? then s.cloud.lostRoutes + {p.mem.status.instance}
                       else s.cloud.lostRoutes))
  }

  function ApplyBegin(s: Sys, k: Key): Sys
    requires k in s.machines
  {
    var m := s.machines[k];
    s.(machines := s.machines[k := m.(
      pass := Run(LookupCluster, m.deleting, m.hook, NO_VIEW, false, false, m.obj, m.obj),
      deletionSeen := m.deletionSeen || m.deleting)])
  }

  // ---------- one pass of the cluster reconciler ----------

  function Slot(st: ClusterStatus, kind: Kind): Id
  {
    match kind
    case Network => st.network
    case FloatingIP => st.floatingIP
    case SshKey => st.sshKey
    case Instance => Unset
  }

  function FirstOf(first: Slots, kind: Kind): Id
  {
    match kind
    case Network => first.network
    case FloatingIP => first.floatingIP
    case SshKey => first.sshKey
    case Instance => Unset
  }

  function SetFirst(first: Slots, kind: Kind, id: Id): Slots
  {
    match kind
    case Network => first.(network := id)
    case FloatingIP => first.(floatingIP := id)
    case SshKey => first.(sshKey := id)
    case Instance => first
  }

  function WithStatus(p: CPass, st: ClusterStatus, pc: CPc): CPass
    requires p.CRun?
  { p.(mem := p.mem.(status := st), pc := pc) }

  function CGoProject(p: CPass): CPass
    requires p.CRun?
  { if p.mem.status.project.Unset? then p.(pc := GetProject) else CGoNetwork(p) }

  function CGoNetwork(p: CPass): CPass
    requires p.CRun?
  { if p.mem.status.subnet.Unset? then p.(pc := Create(Network)) else CGoFloatingIP(p) }

  function CGoFloatingIP(p: CPass): CPass
    requires p.CRun?
  { if p.mem.status.floatingIP.Unset? then p.(pc := Create(FloatingIP)) else CGoKey(p) }

  function CGoKey(p: CPass): CPass
    requires p.CRun?
  { if p.mem.status.sshKey.Unset? then p.(pc := Create(SshKey)) else CGoReady(p) }

  function Desired(st: ClusterStatus): Endpoint
  { Endpoint(st.ip, API_PORT) }

  function CGoReady(p: CPass): CPass
    requires p.CRun?
  {
    var st := p.mem.status;
    if st.subnet.Uuid? && st.floatingIP.Uuid? && st.sshKey.Uuid? then
      p.(pc := CPatchReady, mem := p.mem.(
        spec := p.mem.spec.(endpoint := Desired(st)), status := st.(ready := true)))
    else CIdle(FellThrough)
  }

  function CGoDelete(p: CPass): CPass
    requires p.CRun?
  { if p.mem.status.subnet.Uuid? then p.(pc := Delete(Network)) else CGoDeleteFloatingIP(p) }

  function CGoDeleteFloatingIP(p: CPass): CPass
    requires p.CRun?
  { if p.mem.status.floatingIP.Uuid? then p.(pc := Delete(FloatingIP)) else CGoDeleteKey(p) }

  function CGoDeleteKey(p: CPass): CPass
    requires p.CRun?
  { if p.mem.status.sshKey.Uuid? then p.(pc := Delete(SshKey)) else CGoFinalizerOff(p) }

  function CGoFinalizerOff(p: CPass): CPass
    requires p.CRun?
  {
    var st := p.mem.status;
    if st.sshKey.Unset? && st.subnet.Unset? && st.floatingIP.Unset?
    then p.(pc := CPatchFinalizerOff, mem := p.mem.(finalizer := false)) else CIdle(FellThrough)
  }

  predicate CFits(pc: CPc, r: Reply)
  {
    r.Fail? || match pc
      case CLookupOwner(_) => r.Done? || r.Absent?
      case GetProject => r.GotId? && r.id.Uuid?
      case Create(Network) => r.MadeNetwork? && forall i :: 0 <= i < |r.subnets| ==> r.subnets[i].Uuid?
      case Create(FloatingIP) => r.MadeFloatingIP?
      case Create(SshKey) => r.GotId?
      case _ => r.Done?
  }

  function CPassNext(p: CPass, r: Reply): CPass
    requires p.CRun? && CFits(p.pc, r)
  {
    var st := p.mem.status;
    if r.Fail? then CIdle(Failed)
    else match p.pc
      case CLookupOwner(del) =>
        if r.Absent? then CIdle(Skipped)
        else if del then p.(pc := CPrepare)
        else p.(pc := CPatchFinalizer, mem := p.mem.(finalizer := true))
      case CPatchFinalizer => p.(pc := CConnect)
      case CConnect => CGoProject(p)
      case GetProject => CGoNetwork(WithStatus(p, st.(project := r.id), p.pc))
      case Create(Network) =>
        if r.subnets == [] then CIdle(Failed)
        else WithStatus(p, st.(network := r.id, subnet := r.subnets[0]), Record(Network))
      case Create(FloatingIP) =>
        WithStatus(p, st.(floatingIP := r.id, ip := r.ip), Record(FloatingIP))
      case Create(SshKey) => WithStatus(p, st.(sshKey := r.id), Record(SshKey))
      case Record(Network) => CGoFloatingIP(p)
      case Record(FloatingIP) => CGoKey(p)
      case Record(SshKey) => CGoReady(p)
      case CPatchReady => CIdle(MadeReady)
      case CPrepare => CGoDelete(p)
      case Delete(Network) => WithStatus(p, st.(network := Unset, subnet := Unset), Clear(Network))
      case Delete(FloatingIP) => WithStatus(p, st.(floatingIP := Unset), Clear(FloatingIP))
      case Delete(SshKey) => WithStatus(p, st.(sshKey := Unset), Clear(SshKey))
      case Clear(Network) => CGoDeleteFloatingIP(p)
      case Clear(FloatingIP) => CGoDeleteKey(p)
      case Clear(SshKey) => CGoFinalizerOff(p)
      case CPatchFinalizerOff => CIdle(FinalizerRemoved)
      case _ => CIdle(Failed)
  }

  predicate CIsPatch(pc: CPc)
  {
    pc.CPatchFinalizer? || pc.Record? || pc.CPatchReady? || pc.Clear? || pc.CPatchFinalizerOff?
  }

  predicate CDeletes(pc: CPc)
  {
    (pc.CLookupOwner? && pc.del)
    || pc.CPrepare? || pc.Delete? || pc.Clear? || pc.CPatchFinalizerOff?
  }

  function CMerged(c: Cluster): ClusterObj
    requires c.pass.CRun?
  { MergeCluster(c.pass.before, c.pass.mem, c.obj) }

  predicate CPatchAllowed(c: Cluster)
    requires c.pass.CRun?
  {
    c.exists_ && (CMerged(c).finalizer && !c.obj.finalizer ==> !c.deleting)
    && ClusterUpdateAdmitted(c.obj.spec, CMerged(c).spec)
  }

  predicate CStepEnabled(s: Sys, r: Reply)
  {
    s.cluster.pass.CRun? &&
    var p := s.cluster.pass;
    && CFits(p.pc, r)
    && (p.pc.Create? && Took(r) ==> Fresh(s.cloud, NewId(r)))
    && (CIsPatch(p.pc) && Took(r) ==> CPatchAllowed(s.cluster))
  }

  function CStepRes(cloud: Cloud, p: CPass, next: CPass, r: Reply): map<Id, Resource>
    requires p.CRun?
  {
    var st := p.mem.status;
    match p.pc
    case Create(kind) =>
      if Took(r) then
        cloud.res[NewId(r) := Resource(kind, st.project, OfCluster, true, false, next.CIdle?)]
      else cloud.res
    case Record(kind) =>
      if Took(r) then KeepId(cloud.res, Slot(st, kind)) else LoseId(cloud.res, Slot(st, kind))
    case Delete(kind) =>
      if Took(r) then DestroyId(cloud.res, Slot(st, kind), st.project) else cloud.res
    case _ => cloud.res
  }

  function CStepCalls(cloud: Cloud, p: CPass): set<Call>
    requires p.CRun?
  {
    var st := p.mem.status;
    match p.pc
    case Create(kind) => cloud.calls + {CreateCall(kind, st.project)}
    case Delete(kind) => cloud.calls + {DeleteCall(OfCluster, kind, Slot(st, kind), st.project)}
    case _ => cloud.calls
  }

  function CCount(c: Cluster, next: CPass): Cluster
  {
    var ended := next.CIdle? && c.pass.CRun? && CDeletes(c.pass.pc) && next.last != Skipped;
    c.(pass := next,
       cleanDeletes := c.cleanDeletes + if ended && next.last != Failed then 1 else 0,
       failedDeletes := c.failedDeletes + if ended && next.last == Failed then 1 else 0)
  }

  function CStepCluster(c: Cluster, next: CPass, r: Reply): Cluster
    requires c.pass.CRun?
  {
    var p := c.pass;
    CCount(c.(
      obj := if CIsPatch(p.pc) && Took(r) then CMerged(c) else c.obj,
      first := if p.pc.Record? && Took(r)
               then SetFirst(c.first, p.pc.kind, Slot(p.mem.status, p.pc.kind)) else c.first), next)
  }

  function CApplyStep(s: Sys, r: Reply): Sys
    requires CStepEnabled(s, r)
  {
    var c := s.cluster;
    var next := CPassNext(c.pass, r);
    s.(cluster := CStepCluster(c, next, r),
       cloud := s.cloud.(res := CStepRes(s.cloud, c.pass, next, r), calls := CStepCalls(s.cloud, c.pass)))
  }

  function CApplyCrash(s: Sys): Sys
    requires s.cluster.pass.CRun?
  {
    var c := s.cluster; var p := c.pass;
    s.(cluster := CCount(c, CIdle(Failed)),
       cloud := s.cloud.(res :=
         if p.pc.Record? then LoseId(s.cloud.res, Slot(p.mem.status, p.pc.kind)) else s.cloud.res))
  }

  function CApplyBegin(s: Sys): Sys
  {
    var c := s.cluster;
    s.(cluster := c.(
      pass := CRun(CLookupOwner(c.deleting), c.obj, c.obj),
      deletionSeen := c.deletionSeen || c.deleting))
  }

  // ---------- the whole system ----------

  datatype Action =
    | Begin(key: Key) | Step(key: Key, r: Reply) | Crash(key: Key)
    | CBegin | CStep(r: Reply) | CCrash
    | AddMachine(key: Key, cfg: MachineConfig, mspec: MachineSpec)
    | RequestDelete(key: Key) | RemoveObject(key: Key) | EditMachine(key: Key, mspec: MachineSpec)
    | RequestClusterDelete | RemoveCluster | EditCluster(cspec: ClusterSpec) | SetInfraReady

  predicate Enabled(s: Sys, a: Action)
  {
    match a
    case Begin(k) => k in s.machines && s.machines[k].exists_ && s.machines[k].pass.Idle?
    case Step(k, r) => StepEnabled(s, k, r)
    case Crash(k) => k in s.machines && s.machines[k].pass.Run?
    case CBegin => s.cluster.exists_ && s.cluster.pass.CIdle?
    case CStep(r) => CStepEnabled(s, r)
    case CCrash => s.cluster.pass.CRun?
    case AddMachine(k, _, _) => k !in s.machines && s.cluster.exists_ && !s.cluster.deleting
    case RequestDelete(k) => k in s.machines && s.machines[k].exists_
    case RemoveObject(k) =>
      k in s.machines && s.machines[k].exists_ && s.machines[k].deleting && !s.machines[k].obj.finalizer
    case EditMachine(k, spec) =>
      k in s.machines && s.machines[k].exists_ && MachineUpdateAdmitted(s.machines[k].obj.spec, spec)
    case RequestClusterDelete =>
      s.cluster.exists_ && forall k :: k in s.machines ==> !s.machines[k].exists_
    case RemoveCluster => s.cluster.exists_ && s.cluster.deleting && !s.cluster.obj.finalizer
    case EditCluster(spec) => s.cluster.exists_ && ClusterUpdateAdmitted(s.cluster.obj.spec, spec)
    case SetInfraReady => s.cluster.exists_ && !s.cluster.deleting && s.cluster.obj.status.ready
  }

  const NO_STATUS := MachineStatus(false, [], Unset, Unset, Unset, Unset)
  const NO_CLUSTER_STATUS := ClusterStatus(false, Unset, Unset, Unset, Unset, "", Unset)

  function NewMachine(cfg: MachineConfig, spec: MachineSpec): Machine
  {
    Machine(cfg, false, true, false, MachineObj(false, spec, NO_STATUS), Idle(NeverRan),
            Unset, false, false, 0, 0)
  }

  function Apply(s: Sys, a: Action): Sys
    requires Enabled(s, a)
  {
    match a
    case Begin(k) => ApplyBegin(s, k)
    case Step(k, r) => ApplyStep(s, k, r)
    case Crash(k) => ApplyCrash(s, k)
    case CBegin => CApplyBegin(s)
    case CStep(r) => CApplyStep(s, r)
    case CCrash => CApplyCrash(s)
    case AddMachine(k, cfg, spec) => s.(machines := s.machines[k := NewMachine(cfg, spec)])
    case RequestDelete(k) => s.(machines := s.machines[k := s.machines[k].(deleting := true)])
    case RemoveObject(k) => s.(machines := s.machines[k := s.machines[k].(exists_ := false)])
    case EditMachine(k, spec) =>
      var m := s.machines[k];
      s.(machines := s.machines[k := m.(
        obj := m.obj.(spec := spec),
        edited := m.edited || spec.providerID != m.obj.spec.providerID)])
    case RequestClusterDelete => s.(cluster := s.cluster.(deleting := true))
    case RemoveCluster => s.(cluster := s.cluster.(exists_ := false))
    case EditCluster(spec) => s.(cluster := s.cluster.(obj := s.cluster.obj.(spec := spec)))
    case SetInfraReady => s.(infraReady := true)
  }

  /** A cluster object as admission let a user create it, no machine, and a cloud in which nothing was made for it. */
  predicate Init(s: Sys)
  {
    && s.machines == map[] && !s.infraReady && ClusterCreateAdmitted(s.cluster.obj.spec)
    && s.cluster == Cluster(true, false, ClusterObj(false, s.cluster.obj.spec, NO_CLUSTER_STATUS),
         CIdle(NeverRan), Slots(Unset, Unset, Unset), false, 0, 0)
    && s.cloud == Cloud(map[], {}, {}, {}, {}, {})
  }

  predicate IsRun(s: Sys, run: seq<Action>)
    decreases |run|
  {
    run == [] || (Enabled(s, run[0]) && IsRun(Apply(s, run[0]), run[1..]))
  }

  function Exec(s: Sys, run: seq<Action>): Sys
    requires IsRun(s, run)
    decreases |run|
  {
    if run == [] then s else Exec(Apply(s, run[0]), run[1..])
  }

  /** `s` is reached by some run from a freshly created cluster. */
  ghost predicate Reachable(s: Sys)
  {
    exists init, run :: Init(init) && IsRun(init, run) && Exec(init, run) == s
  }

  lemma {:induction false} ExecAppend(s: Sys, run: seq<Action>, more: seq<Action>)
    requires IsRun(s, run) && IsRun(Exec(s, run), more)
    ensures IsRun(s, run + more) && Exec(s, run + more) == Exec(Exec(s, run), more)
    decreases |run|
  {
    if run == [] {
      assert run + more == more;
    } else {
      assert (run + more)[1..] == run[1..] + more;
      ExecAppend(Apply(s, run[0]), run[1..], more);
    }
  }
}
