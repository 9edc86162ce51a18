/** A cluster pass that is cut anywhere is made good by the next one. */
module Recovery {
  import U = Undisturbed
  import opened Api
  import opened System
  import opened Invariant
  import opened Preservation
  import opened Runs

  /** What the cloud answers an undisturbed creating pass. */
  datatype Answers = Answers(
    project: Id, network: Id, subnet: Id, otherSubnets: seq<Id>, floatingIP: Id, ip: string, sshKey: Id)

  function AnswerFor(a: Answers, kind: Kind): Id
  {
    match kind
    case Network => a.network
    case FloatingIP => a.floatingIP
    case SshKey => a.sshKey
    case Instance => Unset
  }

  predicate HaveIDs(ids: seq<Id>)
  { forall i :: 0 <= i < |ids| ==> ids[i].Uuid? }

  predicate Answerable(res: map<Id, Resource>, a: Answers)
  {
    && a.project.Uuid? && a.subnet.Uuid? && HaveIDs(a.otherSubnets)
    && a.network.Uuid? && a.floatingIP.Uuid? && a.sshKey.Uuid?
    && a.network != a.floatingIP && a.network != a.sshKey && a.floatingIP != a.sshKey
    && a.network !in res && a.floatingIP !in res && a.sshKey !in res
  }

  function CleanReply(pc: CPc, a: Answers): Reply
  {
    match pc
    case GetProject => GotId(a.project)
    case Create(Network) => MadeNetwork(a.network, [a.subnet] + a.otherSubnets)
    case Create(FloatingIP) => MadeFloatingIP(a.floatingIP, a.ip)
    case Create(SshKey) => GotId(a.sshKey)
    case _ => Done
  }

  /** The next step of the pending pass, without an error. */
  function Next(a: Answers): Sys -> Option<Sys>
  {
    (s: Sys) => if s.cluster.pass.CRun? && CStepEnabled(s, CleanReply(s.cluster.pass.pc, a))
         then Some(CApplyStep(s, CleanReply(s.cluster.pass.pc, a))) else None
  }

  /** Up to `n` of them, with nothing in between. */
  function Go(s: Sys, a: Answers, n: nat): Sys
  { U.Go(Next(a), s, n) }

  /** No creating pass makes more calls than this. */
  const PASS_CALLS := 11

  /** A slot that was recorded stays; an empty one may have been filled with the answer. */
  predicate SlotFilled(old_: Id, new_: Id, answer: Id)
  { new_ == old_ || (old_.Unset? && new_ == answer) }

  predicate Filled(old_: ClusterStatus, new_: ClusterStatus, a: Answers)
  {
    && SlotFilled(old_.project, new_.project, a.project)
    && SlotFilled(old_.network, new_.network, a.network)
    && SlotFilled(old_.subnet, new_.subnet, a.subnet)
    && (new_.subnet.Uuid? <==> new_.network.Uuid?)
    && SlotFilled(old_.floatingIP, new_.floatingIP, a.floatingIP)
    && new_.ip == (if new_.floatingIP == old_.floatingIP then old_.ip else a.ip)
    && SlotFilled(old_.sshKey, new_.sshKey, a.sshKey)
  }

  function AddKept(res: map<Id, Resource>, old_: Id, new_: Id, kind: Kind, project: Id): map<Id, Resource>
  {
    if new_ == old_ then res else res[new_ := Resource(kind, project, OfCluster, true, true, false)]
  }

  /** The resources once every slot filled between the two statuses was created and recorded. */
  function Grown(res: map<Id, Resource>, old_: ClusterStatus, new_: ClusterStatus): map<Id, Resource>
  {
    AddKept(AddKept(AddKept(res,
      old_.network, new_.network, Network, new_.project),
      old_.floatingIP, new_.floatingIP, FloatingIP, new_.project),
      old_.sshKey, new_.sshKey, SshKey, new_.project)
  }

  /** The resources with what the pending patch is about to record. */
  function WithFlight(res: map<Id, Resource>, p: CPass, lost: bool): map<Id, Resource>
  {
    if CFlight(p).Unset? then res
    else res[CFlight(p) := Resource(p.pc.kind, p.mem.status.project, OfCluster, true, false, lost)]
  }

  /** Object and memory of a pass that lies on an undisturbed creating pass from `s`. */
  predicate OnTheWay(o: ClusterObj, a: Answers, c: Cluster)
  {
    var p := c.pass;
    && c.exists_ && !c.deleting && !c.deletionSeen
    && Filled(o.status, c.obj.status, a)
    && (p.CRun? ==>
          && !CDeletes(p.pc) && c.obj.spec == o.spec && p.before.spec == o.spec
          && SlotFilled(c.obj.status.project, p.mem.status.project, a.project)
          && (p.pc.Record? ==> Slot(p.mem.status, p.pc.kind) == AnswerFor(a, p.pc.kind))
          && (p.pc == Record(Network) ==> p.mem.status.subnet == a.subnet)
          && (p.pc == Record(FloatingIP) ==> p.mem.status.ip == a.ip)
          && c.obj.status.ready == o.status.ready)
    && (p.CIdle? ==>
          && p.last == MadeReady && c.obj.finalizer && c.obj.status.ready && Complete(c.obj)
          && c.obj.spec == o.spec.(endpoint := Desired(c.obj.status)))
  }

  predicate ResOnTheWay(res: map<Id, Resource>, o: ClusterObj, c: Cluster, res': map<Id, Resource>)
  {
    res' == WithFlight(Grown(res, o.status, c.obj.status), c.pass, false)
  }

  /** How many calls are left, at most. */
  function Left(p: CPass): nat
  {
    if p.CIdle? then 0
    else match p.pc
      case CLookupOwner(_) => 11
      case CPatchFinalizer => 10
      case CConnect => 9
      case GetProject => 8
      case Create(Network) => 7
      case Record(Network) => 6
      case Create(FloatingIP) => 5
      case Record(FloatingIP) => 4
      case Create(SshKey) => 3
      case Record(SshKey) => 2
      case _ => 1
  }

  lemma BeginOnTheWay(s: Sys, a: Answers)
    requires Reachable(s) && Enabled(s, CBegin) && !s.cluster.deleting
    ensures OnTheWay(s.cluster.obj, a, CApplyBegin(s).cluster)
    ensures ResOnTheWay(s.cloud.res, s.cluster.obj, CApplyBegin(s).cluster, s.cloud.res)
  {
    ReachableInv(s);
  }

  /** The answers not yet used up are still fresh. */
  lemma CleanStepEnabled(res: map<Id, Resource>, o: ClusterObj, a: Answers, x: Sys)
    requires CInv(x) && x.cluster.pass.CRun? && Answerable(res, a)
    requires OnTheWay(o, a, x.cluster) && ResOnTheWay(res, o, x.cluster, x.cloud.res)
    ensures CStepEnabled(x, CleanReply(x.cluster.pass.pc, a))
  {
  }

  /** What a recording patch makes of the status. */
  lemma RecordedStatus(o: ClusterObj, a: Answers, x: Sys)
    requires CInv(x) && x.cluster.pass.CRun? && x.cluster.pass.pc.Record? && OnTheWay(o, a, x.cluster)
    ensures var t, st := x.cluster.obj.status.(project := x.cluster.pass.mem.status.project), CMerged(x.cluster).status;
      match x.cluster.pass.pc.kind
      case Network => st == t.(network := a.network, subnet := a.subnet) && t.network.Unset?
      case FloatingIP => st == t.(floatingIP := a.floatingIP, ip := a.ip) && t.floatingIP.Unset?
      case SshKey => st == t.(sshKey := a.sshKey) && t.sshKey.Unset?
      case Instance => false
  {
  }

  lemma RecordStepOnTheWay(o: ClusterObj, a: Answers, x: Sys)
    requires CInv(x) && x.cluster.pass.CRun? && x.cluster.pass.pc.Record?
    requires OnTheWay(o, a, x.cluster) && CStepEnabled(x, Done)
    ensures OnTheWay(o, a, CApplyStep(x, Done).cluster)
  {
    RecordedStatus(o, a, x);
  }

  lemma QuietStepOnTheWay(o: ClusterObj, a: Answers, x: Sys)
    requires CInv(x) && x.cluster.pass.CRun? && a.project.Uuid? && a.subnet.Uuid?
    requires OnTheWay(o, a, x.cluster) && CStepEnabled(x, CleanReply(x.cluster.pass.pc, a))
    requires !CIsPatch(x.cluster.pass.pc)
    ensures OnTheWay(o, a, CApplyStep(x, CleanReply(x.cluster.pass.pc, a)).cluster)
  {
  }

  lemma LastStepOnTheWay(o: ClusterObj, a: Answers, x: Sys)
    requires CInv(x) && x.cluster.pass.CRun? && a.project.Uuid? && a.subnet.Uuid?
    requires OnTheWay(o, a, x.cluster) && CStepEnabled(x, CleanReply(x.cluster.pass.pc, a))
    requires x.cluster.pass.pc.CPatchReady?
    ensures OnTheWay(o, a, CApplyStep(x, CleanReply(x.cluster.pass.pc, a)).cluster)
  {
  }

  lemma CleanStepOnTheWay(o: ClusterObj, a: Answers, x: Sys)
    requires CInv(x) && x.cluster.pass.CRun? && a.project.Uuid? && a.subnet.Uuid?
    requires OnTheWay(o, a, x.cluster) && CStepEnabled(x, CleanReply(x.cluster.pass.pc, a))
    ensures OnTheWay(o, a, CApplyStep(x, CleanReply(x.cluster.pass.pc, a)).cluster)
  {
    if x.cluster.pass.pc.Record? {
      RecordStepOnTheWay(o, a, x);
    } else if x.cluster.pass.pc.CPatchReady? {
      LastStepOnTheWay(o, a, x);
    } else if !CIsPatch(x.cluster.pass.pc) {
      QuietStepOnTheWay(o, a, x);
    }
  }

  lemma CleanStepLeavesLess(a: Answers, x: Sys)
    requires CInv(x) && x.cluster.pass.CRun? && !CDeletes(x.cluster.pass.pc)
    requires CStepEnabled(x, CleanReply(x.cluster.pass.pc, a))
    ensures Left(CApplyStep(x, CleanReply(x.cluster.pass.pc, a)).cluster.pass) < Left(x.cluster.pass)
  {
  }

  /** Recording one more slot adds one more resource. */
  lemma RecordedResources(res: map<Id, Resource>, o: ClusterStatus, t: ClusterStatus, u: ClusterStatus, kind: Kind,
                          id: Id)
    requires id.Uuid? && kind != Instance && Slot(o, kind).Unset? && Slot(t, kind).Unset? && Slot(u, kind) == id
    requires forall other :: other != kind ==> Slot(u, other) == Slot(t, other) && Slot(t, other) != id
    requires t.network != o.network || t.floatingIP != o.floatingIP || t.sshKey != o.sshKey ==> t.project == u.project
    ensures Grown(res, o, t)[id := Resource(kind, u.project, OfCluster, true, true, false)] == Grown(res, o, u)
  {
    assert Slot(u, Network) == u.network && Slot(u, FloatingIP) == u.floatingIP && Slot(u, SshKey) == u.sshKey;
    assert Slot(t, Network) == t.network && Slot(t, FloatingIP) == t.floatingIP && Slot(t, SshKey) == t.sshKey;
  }

  lemma RecordedSlot(res: map<Id, Resource>, o: ClusterObj, a: Answers, x: Sys)
    requires CInv(x) && x.cluster.pass.CRun? && x.cluster.pass.pc.Record? && Answerable(res, a)
    requires OnTheWay(o, a, x.cluster) && ResOnTheWay(res, o, x.cluster, x.cloud.res)
    ensures var t, u, kind := x.cluster.obj.status, CMerged(x.cluster).status, x.cluster.pass.pc.kind;
      var id := CFlight(x.cluster.pass);
      && id.Uuid? && kind != Instance && Slot(o.status, kind).Unset? && Slot(t, kind).Unset? && Slot(u, kind) == id
      && (forall other :: other != kind ==> Slot(u, other) == Slot(t, other) && Slot(t, other) != id)
      && (t.network != o.status.network || t.floatingIP != o.status.floatingIP || t.sshKey != o.status.sshKey ==>
            t.project == u.project)
      && u.project == x.cluster.pass.mem.status.project
  {
    RecordedStatus(o, a, x);
  }

  lemma RecordedStep(x: Sys)
    requires CStepEnabled(x, Done) && x.cluster.pass.pc.Record? && x.cluster.pass.pc.kind != Instance
    ensures var y := CApplyStep(x, Done);
      && CFlight(y.cluster.pass).Unset? && y.cluster.obj == CMerged(x.cluster)
      && y.cloud.res == KeepId(x.cloud.res, CFlight(x.cluster.pass))
  {
  }

  lemma FlightKept(res: map<Id, Resource>, p: CPass)
    requires CFlight(p).Uuid?
    ensures KeepId(WithFlight(res, p, false), CFlight(p))
         == res[CFlight(p) := Resource(p.pc.kind, p.mem.status.project, OfCluster, true, true, false)]
  {
  }

  lemma RecordStepResOnTheWay(res: map<Id, Resource>, o: ClusterObj, a: Answers, x: Sys)
    requires CInv(x) && x.cluster.pass.CRun? && Answerable(res, a)
    requires OnTheWay(o, a, x.cluster) && ResOnTheWay(res, o, x.cluster, x.cloud.res)
    requires CStepEnabled(x, Done)
    requires x.cluster.pass.pc.Record?
    ensures var y := CApplyStep(x, Done);
      ResOnTheWay(res, o, y.cluster, y.cloud.res)
  {
    var p, t, u := x.cluster.pass, x.cluster.obj.status, CMerged(x.cluster).status;
    RecordedSlot(res, o, a, x);
    RecordedStep(x);
    FlightKept(Grown(res, o.status, t), p);
    RecordedResources(res, o.status, t, u, p.pc.kind, CFlight(p));
  }

  lemma OtherStepResOnTheWay(res: map<Id, Resource>, o: ClusterObj, a: Answers, x: Sys)
    requires CInv(x) && x.cluster.pass.CRun? && Answerable(res, a)
    requires OnTheWay(o, a, x.cluster) && ResOnTheWay(res, o, x.cluster, x.cloud.res)
    requires CStepEnabled(x, CleanReply(x.cluster.pass.pc, a))
    requires !x.cluster.pass.pc.Record?
    ensures var y := CApplyStep(x, CleanReply(x.cluster.pass.pc, a));
      ResOnTheWay(res, o, y.cluster, y.cloud.res)
  {
  }

  lemma CleanStepResOnTheWay(res: map<Id, Resource>, o: ClusterObj, a: Answers, x: Sys)
    requires CInv(x) && x.cluster.pass.CRun? && Answerable(res, a)
    requires OnTheWay(o, a, x.cluster) && ResOnTheWay(res, o, x.cluster, x.cloud.res)
    requires CStepEnabled(x, CleanReply(x.cluster.pass.pc, a))
    ensures var y := CApplyStep(x, CleanReply(x.cluster.pass.pc, a));
      ResOnTheWay(res, o, y.cluster, y.cloud.res)
  {
    if x.cluster.pass.pc.Record? {
      assert CleanReply(x.cluster.pass.pc, a) == Done;
      RecordStepResOnTheWay(res, o, a, x);
    } else {
      OtherStepResOnTheWay(res, o, a, x);
    }
  }

  /** What an undisturbed pass may touch. */
  ghost predicate Beside(x: Sys, y: Sys)
  { y == x.(cluster := y.cluster, cloud := x.cloud.(res := y.cloud.res, calls := y.cloud.calls)) }

  lemma CleanStep(res: map<Id, Resource>, o: ClusterObj, a: Answers, x: Sys)
    requires Reachable(x) && Answerable(res, a) && x.cluster.pass.CRun?
    requires OnTheWay(o, a, x.cluster) && ResOnTheWay(res, o, x.cluster, x.cloud.res)
    ensures CStepEnabled(x, CleanReply(x.cluster.pass.pc, a))
    ensures var y := CApplyStep(x, CleanReply(x.cluster.pass.pc, a));
      && Reachable(y) && OnTheWay(o, a, y.cluster) && ResOnTheWay(res, o, y.cluster, y.cloud.res)
      && Beside(x, y) && Left(y.cluster.pass) < Left(x.cluster.pass)
  {
    ReachableInv(x);
    CleanStepEnabled(res, o, a, x);
    CleanStepOnTheWay(o, a, x);
    CleanStepLeavesLess(a, x);
    CleanStepResOnTheWay(res, o, a, x);
    ReachableStep(x, CStep(CleanReply(x.cluster.pass.pc, a)));
  }

  lemma BesideChains(x: Sys, y: Sys, z: Sys)
    requires Beside(x, y) && Beside(y, z)
    ensures Beside(x, z)
  {
  }

  /** `x` is where an undisturbed pass from the object `o` gets to. */
  ghost predicate Along(res: map<Id, Resource>, o: ClusterObj, a: Answers, x: Sys)
  {
    Reachable(x) && OnTheWay(o, a, x.cluster) && ResOnTheWay(res, o, x.cluster, x.cloud.res)
  }

  lemma GoOnTheWay(res: map<Id, Resource>, o: ClusterObj, a: Answers, x: Sys, n: nat)
    requires Along(res, o, a, x) && Answerable(res, a)
    ensures Along(res, o, a, Go(x, a, n)) && Beside(x, Go(x, a, n))
    ensures Left(x.cluster.pass) <= n ==> Go(x, a, n).cluster.pass == CIdle(MadeReady)
  {
    ghost var keeps := z => Along(res, o, a, z) && Beside(x, z);
    forall s | keeps(s) && Next(a)(s).Some?
      ensures keeps(Next(a)(s).value) && Left(Next(a)(s).value.cluster.pass) < Left(s.cluster.pass)
    {
      CleanStep(res, o, a, s);
      BesideChains(x, s, Next(a)(s).value);
    }
    U.GoKeeps(Next(a), keeps, x, n);
    if Left(x.cluster.pass) <= n {
      U.GoEnds(Next(a), keeps, (z: Sys) => Left(z.cluster.pass), x, n);
      EndsIdle(res, o, a, Go(x, a, n));
    }
  }

  lemma EndsIdle(res: map<Id, Resource>, o: ClusterObj, a: Answers, x: Sys)
    requires Along(res, o, a, x) && Answerable(res, a) && Next(a)(x).None?
    ensures x.cluster.pass.CIdle?
  {
    if x.cluster.pass.CRun? {
      CleanStep(res, o, a, x);
    }
  }

  /** The whole of an undisturbed creating pass. */
  function WholePass(s: Sys, a: Answers): Sys
  {
    Go(CApplyBegin(s), a, PASS_CALLS)
  }

  lemma WholePassOnTheWay(s: Sys, a: Answers, n: nat)
    requires Reachable(s) && Enabled(s, CBegin) && !s.cluster.deleting && Answerable(s.cloud.res, a)
    ensures var y := Go(CApplyBegin(s), a, n);
      && Reachable(y) && OnTheWay(s.cluster.obj, a, y.cluster)
      && ResOnTheWay(s.cloud.res, s.cluster.obj, y.cluster, y.cloud.res)
      && Beside(s, y)
      && (n >= PASS_CALLS ==> y.cluster.pass == CIdle(MadeReady))
  {
    BeginOnTheWay(s, a);
    ReachableStep(s, CBegin);
    GoOnTheWay(s.cloud.res, s.cluster.obj, a, CApplyBegin(s), n);
  }

  /** What the cut pass had time to record, and what the next one was answered for the rest. */
  function Mix(a: Answers, b: Answers, s: ClusterStatus, y: ClusterStatus): Answers
  {
    var net, fip := s.network.Unset? && y.network.Uuid?, s.floatingIP.Unset? && y.floatingIP.Uuid?;
    Answers(
      if s.project.Unset? && y.project.Uuid? then a.project else b.project,
      if net then a.network else b.network,
      if net then a.subnet else b.subnet,
      if net then a.otherSubnets else b.otherSubnets,
      if fip then a.floatingIP else b.floatingIP,
      if fip then a.ip else b.ip,
      if s.sshKey.Unset? && y.sshKey.Uuid? then a.sshKey else b.sshKey)
  }

  /** A pass resumed after a cut at `x` ends like a straight one with the mixed answers. */
  ghost predicate Meet(s: Sys, a: Answers, b: Answers, x: Sys)
    requires x.cluster.pass.CRun?
  {
    var y := CApplyCrash(x);
    var mix := Mix(a, b, s.cluster.obj.status, y.cluster.obj.status);
    var resumed, straight := WholePass(y, b), WholePass(s, mix);
    && Answerable(s.cloud.res, mix)
    && resumed.cluster.pass == CIdle(MadeReady) && straight.cluster.pass == CIdle(MadeReady)
    && resumed.cluster.obj == straight.cluster.obj
    && (CFlight(x.cluster.pass).Uuid? ==> CFlight(x.cluster.pass) !in straight.cloud.res)
    && resumed.cloud.res == WithFlight(straight.cloud.res, x.cluster.pass, true)
    && resumed.machines == s.machines && resumed.cloud.routes == s.cloud.routes
  }

  /** A pass that is cut after any number of calls, followed by an undisturbed one, leaves the
      cluster object just as one undisturbed pass would that was given the answers recorded
      before the cut and the later answers for the rest. The cloud agrees too, but for one
      resource if the cut fell between its creation and its patch: that one is lost. */
  lemma CutPassRecovers(s: Sys, a: Answers, b: Answers, n: nat)
    requires Reachable(s) && Enabled(s, CBegin) && !s.cluster.deleting && Answerable(s.cloud.res, a)
    requires Go(CApplyBegin(s), a, n).cluster.pass.CRun?
    requires Answerable(CApplyCrash(Go(CApplyBegin(s), a, n)).cloud.res, b)
    ensures Meet(s, a, b, Go(CApplyBegin(s), a, n))
  {
    WholePassOnTheWay(s, a, n);
    WaysMeet(s, a, b, Go(CApplyBegin(s), a, n));
  }

  /** The two ways from a cut at `x`. */
  lemma WaysMeet(s: Sys, a: Answers, b: Answers, x: Sys)
    requires Reachable(s) && Enabled(s, CBegin) && !s.cluster.deleting && Answerable(s.cloud.res, a)
    requires Reachable(x) && x.cluster.pass.CRun? && OnTheWay(s.cluster.obj, a, x.cluster) && Beside(s, x)
    requires ResOnTheWay(s.cloud.res, s.cluster.obj, x.cluster, x.cloud.res)
    requires Answerable(CApplyCrash(x).cloud.res, b)
    ensures Meet(s, a, b, x)
  {
    var y := CApplyCrash(x);
    var mix := Mix(a, b, s.cluster.obj.status, y.cluster.obj.status);
    ReachableStep(x, CCrash);
    CutPrepares(s, a, b, x);
    WholePassOnTheWay(y, b, PASS_CALLS);
    WholePassOnTheWay(s, mix, PASS_CALLS);
    var z, w := WholePass(y, b), WholePass(s, mix);
    SameStatus(s.cluster.obj, x.cluster, a, b, z.cluster, w.cluster);
    CutMatches(s, a, b, x, w.cluster.obj.status);
  }

  lemma CutPrepares(s: Sys, a: Answers, b: Answers, x: Sys)
    requires Reachable(s) && Answerable(s.cloud.res, a)
    requires Reachable(x) && x.cluster.pass.CRun? && OnTheWay(s.cluster.obj, a, x.cluster)
    requires ResOnTheWay(s.cloud.res, s.cluster.obj, x.cluster, x.cloud.res)
    requires Answerable(CApplyCrash(x).cloud.res, b)
    ensures CApplyCrash(x).cluster.obj == x.cluster.obj && Enabled(CApplyCrash(x), CBegin)
    ensures CApplyCrash(x).cloud.res
      == WithFlight(Grown(s.cloud.res, s.cluster.obj.status, x.cluster.obj.status), x.cluster.pass, true)
    ensures Answerable(s.cloud.res, Mix(a, b, s.cluster.obj.status, x.cluster.obj.status))
    ensures s.cluster.obj.status.subnet.Uuid? <==> s.cluster.obj.status.network.Uuid?
  {
    ReachableInv(s);
    ReachableInv(x);
    CrashOnTheWay(s, a, x);
    MixAnswerable(s, a, b, x);
  }

  lemma CutMatches(s: Sys, a: Answers, b: Answers, x: Sys, f: ClusterStatus)
    requires Reachable(s) && Reachable(x) && Answerable(s.cloud.res, a) && x.cluster.pass.CRun?
    requires OnTheWay(s.cluster.obj, a, x.cluster)
    requires Answerable(
      WithFlight(Grown(s.cloud.res, s.cluster.obj.status, x.cluster.obj.status), x.cluster.pass, true), b)
    requires Filled(x.cluster.obj.status, f, b)
    requires Filled(s.cluster.obj.status, f, Mix(a, b, s.cluster.obj.status, x.cluster.obj.status))
    ensures var o, t, p, res := s.cluster.obj.status, x.cluster.obj.status, x.cluster.pass, s.cloud.res;
      && (CFlight(p).Uuid? ==> CFlight(p) !in Grown(res, o, f))
      && Grown(WithFlight(Grown(res, o, t), p, true), t, f) == WithFlight(Grown(res, o, f), p, true)
  {
    ReachableInv(s);
    ReachableInv(x);
    FillingGoesOn(s, a, x, b, f);
    if CFlight(x.cluster.pass).Uuid? {
      FlightIsNobodys(s, a, x, b, f);
    }
    SameResources(s.cloud.res, s.cluster.obj.status, x.cluster.obj.status, f, x.cluster.pass);
  }

  lemma CrashOnTheWay(s: Sys, a: Answers, x: Sys)
    requires CInv(x) && x.cluster.pass.CRun? && OnTheWay(s.cluster.obj, a, x.cluster)
    requires ResOnTheWay(s.cloud.res, s.cluster.obj, x.cluster, x.cloud.res)
    ensures CApplyCrash(x).cluster.obj == x.cluster.obj && Enabled(CApplyCrash(x), CBegin)
    ensures CApplyCrash(x).cloud.res
      == WithFlight(Grown(s.cloud.res, s.cluster.obj.status, x.cluster.obj.status), x.cluster.pass, true)
  {
    var p, g := x.cluster.pass, Grown(s.cloud.res, s.cluster.obj.status, x.cluster.obj.status);
    if CFlight(p).Uuid? {
      assert LoseId(x.cloud.res, CFlight(p)) == WithFlight(g, p, true);
    }
  }

  lemma MixAnswerable(s: Sys, a: Answers, b: Answers, x: Sys)
    requires CInv(s) && Answerable(s.cloud.res, a) && x.cluster.pass.CRun?
    requires OnTheWay(s.cluster.obj, a, x.cluster)
    requires Answerable(
      WithFlight(Grown(s.cloud.res, s.cluster.obj.status, x.cluster.obj.status), x.cluster.pass, true), b)
    ensures Answerable(s.cloud.res, Mix(a, b, s.cluster.obj.status, x.cluster.obj.status))
  {
  }

  lemma SameStatus(o: ClusterObj, x: Cluster, a: Answers, b: Answers, z: Cluster, w: Cluster)
    requires x.pass.CRun? && OnTheWay(o, a, x) && (o.status.subnet.Uuid? <==> o.status.network.Uuid?)
    requires z.pass.CIdle? && OnTheWay(x.obj, b, z)
    requires w.pass.CIdle? && OnTheWay(o, Mix(a, b, o.status, x.obj.status), w)
    requires a.project.Uuid? && a.subnet.Uuid? && b.project.Uuid? && b.subnet.Uuid?
    requires b.floatingIP.Uuid? && a.floatingIP.Uuid?
    ensures z.obj == w.obj
  {
  }

  /** Two statuses record different new IDs in different slots. */
  predicate NewIDsDiffer(old_: ClusterStatus, new_: ClusterStatus)
  {
    && (new_.network != old_.network && new_.floatingIP != old_.floatingIP ==> new_.network != new_.floatingIP)
    && (new_.network != old_.network && new_.sshKey != old_.sshKey ==> new_.network != new_.sshKey)
    && (new_.floatingIP != old_.floatingIP && new_.sshKey != old_.sshKey ==> new_.floatingIP != new_.sshKey)
  }

  predicate Between(old_: Id, mid: Id, new_: Id)
  { mid == old_ || (new_ == mid && new_ != old_) }

  /** Creating in two goes creates the same as in one. */
  lemma GrownTwice(res: map<Id, Resource>, o: ClusterStatus, t: ClusterStatus, f: ClusterStatus)
    requires Between(o.network, t.network, f.network) && Between(o.floatingIP, t.floatingIP, f.floatingIP)
    requires Between(o.sshKey, t.sshKey, f.sshKey) && NewIDsDiffer(o, f)
    requires t.network != o.network || t.floatingIP != o.floatingIP || t.sshKey != o.sshKey ==>
               t.project == f.project
    ensures Grown(Grown(res, o, t), t, f) == Grown(res, o, f)
  {
  }

  lemma GrownBeside(res: map<Id, Resource>, t: ClusterStatus, f: ClusterStatus, id: Id, r: Resource)
    requires id != f.network && id != f.floatingIP && id != f.sshKey
    ensures Grown(res[id := r], t, f) == Grown(res, t, f)[id := r]
  {
  }

  lemma FillingGoesOn(s: Sys, a: Answers, x: Sys, b: Answers, f: ClusterStatus)
    requires CInv(s) && CInv(x) && Answerable(s.cloud.res, a) && x.cluster.pass.CRun?
    requires OnTheWay(s.cluster.obj, a, x.cluster)
    requires var y := WithFlight(Grown(s.cloud.res, s.cluster.obj.status, x.cluster.obj.status), x.cluster.pass, true);
      Answerable(y, b)
    requires Filled(x.cluster.obj.status, f, b)
    requires Filled(s.cluster.obj.status, f, Mix(a, b, s.cluster.obj.status, x.cluster.obj.status))
    ensures var o, t := s.cluster.obj.status, x.cluster.obj.status;
      && Between(o.network, t.network, f.network) && Between(o.floatingIP, t.floatingIP, f.floatingIP)
      && Between(o.sshKey, t.sshKey, f.sshKey) && NewIDsDiffer(o, f)
      && (t.network != o.network || t.floatingIP != o.floatingIP || t.sshKey != o.sshKey ==>
            t.project == f.project)
  {
    assert CSlotOk(x.cloud, x.cluster, Network) && CSlotOk(x.cloud, x.cluster, FloatingIP);
    assert CSlotOk(x.cloud, x.cluster, SshKey);
  }

  /** What was in flight when the pass was cut is not recorded by anyone. */
  lemma FlightIsNobodys(s: Sys, a: Answers, x: Sys, b: Answers, f: ClusterStatus)
    requires CInv(s) && CInv(x) && Answerable(s.cloud.res, a) && x.cluster.pass.CRun? && CFlight(x.cluster.pass).Uuid?
    requires OnTheWay(s.cluster.obj, a, x.cluster)
    requires var y := WithFlight(Grown(s.cloud.res, s.cluster.obj.status, x.cluster.obj.status), x.cluster.pass, true);
      Answerable(y, b)
    requires Filled(x.cluster.obj.status, f, b)
    ensures var id := CFlight(x.cluster.pass);
      id !in s.cloud.res && id != f.network && id != f.floatingIP && id != f.sshKey
  {
    assert CSlotOk(s.cloud, s.cluster, Network) && CSlotOk(s.cloud, s.cluster, FloatingIP);
    assert CSlotOk(s.cloud, s.cluster, SshKey);
  }

  lemma SameResources(res: map<Id, Resource>, o: ClusterStatus, t: ClusterStatus, f: ClusterStatus, p: CPass)
    requires Between(o.network, t.network, f.network) && Between(o.floatingIP, t.floatingIP, f.floatingIP)
    requires Between(o.sshKey, t.sshKey, f.sshKey) && NewIDsDiffer(o, f)
    requires t.network != o.network || t.floatingIP != o.floatingIP || t.sshKey != o.sshKey ==>
               t.project == f.project
    requires var id := CFlight(p);
      id.Uuid? ==> id !in res && id != f.network && id != f.floatingIP && id != f.sshKey
    ensures CFlight(p).Uuid? ==> CFlight(p) !in Grown(res, o, f)
    ensures Grown(WithFlight(Grown(res, o, t), p, true), t, f) == WithFlight(Grown(res, o, f), p, true)
  {
    GrownTwice(res, o, t, f);
    if CFlight(p).Uuid? {
      GrownBeside(Grown(res, o, t), t, f, CFlight(p),
                  Resource(p.pc.kind, p.mem.status.project, OfCluster, true, false, true));
    }
  }
}
