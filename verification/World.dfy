/** The API server and the cloud as the reconcilers meet them: every call hands control to the
    rest of the system, which may do anything it can before the call comes back, if it does. */
module World {
  import opened Api
  import opened System

  /** The annotation that makes Cluster API wait before it drains a node. */
  const PRE_DRAIN_HOOK := "pre-drain.delete.hook.machine.cluster.x-k8s.io/manage-ecmp-route"

  /** No usable reply: the process died, or the call reported an error. */
  predicate Broke(r: Option<Reply>)
  {
    r.None? || r.value.Fail?
  }

  /** A WXOneMachine in memory. */
  class WXOneMachine {
    var finalizer: bool
    var specFlavor: string
    var specImage: string
    var providerID: Option<string>
    var ready: bool
    var addresses: seq<string>
    var flavor: Id
    var image: Id
    var instance: Id
    var attachment: Id

    constructor (o: MachineObj)
      ensures Mem() == o
    {
      finalizer := o.finalizer;
      specFlavor, specImage, providerID := o.spec.flavor, o.spec.image, o.spec.providerID;
      ready, addresses := o.status.ready, o.status.addresses;
      flavor, image := o.status.flavor, o.status.image;
      instance, attachment := o.status.instance, o.status.attachment;
    }

    function Mem(): MachineObj
      reads this
    {
      MachineObj(finalizer, MachineSpec(specFlavor, specImage, providerID),
                 MachineStatus(ready, addresses, flavor, image, instance, attachment))
    }
  }

  /** The owner Machine in memory: its role and its annotations, as fetched and as they are now. */
  class OwnerMachine {
    const controlPlane: bool
    ghost const fetched: map<string, string>
    var annotations: map<string, string>

    constructor (controlPlane: bool, annotations: map<string, string>)
      ensures this.controlPlane == controlPlane && this.annotations == annotations && fetched == annotations
    {
      this.controlPlane := controlPlane;
      this.fetched := annotations;
      this.annotations := annotations;
    }

    predicate Hooked()
      reads this
    { PRE_DRAIN_HOOK in annotations }

    /** Every annotation but the hook is as it was fetched. */
    ghost predicate OthersKept()
      reads this
    {
      forall key :: key != PRE_DRAIN_HOOK ==>
        && (key in annotations <==> key in fetched)
        && (key in fetched ==> annotations[key] == fetched[key])
    }
  }

  /** A WXOneCluster in memory. */
  class WXOneCluster {
    var finalizer: bool
    var spec: ClusterSpec
    var ready: bool
    var project: Id
    var network: Id
    var subnet: Id
    var floatingIP: Id
    var ip: string
    var sshKey: Id

    constructor (o: ClusterObj)
      ensures Mem() == o
    {
      finalizer, spec := o.finalizer, o.spec;
      ready, project := o.status.ready, o.status.project;
      network, subnet := o.status.network, o.status.subnet;
      floatingIP, ip, sshKey := o.status.floatingIP, o.status.ip, o.status.sshKey;
    }

    function Mem(): ClusterObj
      reads this
    { ClusterObj(finalizer, spec, ClusterStatus(ready, project, network, subnet, floatingIP, ip, sshKey)) }
  }

  /** What has happened: every action in `log` took the system from one state of `history`
      to the next. */
  ghost predicate Unfolds(history: seq<Sys>, log: seq<Action>)
  {
    && |history| == |log| + 1
    && forall i {:trigger log[i]} :: 0 <= i < |log| ==>
         Enabled(history[i], log[i]) && history[i + 1] == Apply(history[i], log[i])
  }

  lemma {:induction false} HistoryIsRun(history: seq<Sys>, log: seq<Action>)
    requires Unfolds(history, log)
    ensures IsRun(history[0], log) && Exec(history[0], log) == history[|log|]
    decreases |log|
  {
    if log != [] {
      assert Enabled(history[0], log[0]) && history[1] == Apply(history[0], log[0]);
      forall i | 0 <= i < |log| - 1
        ensures Enabled(history[1..][i], log[1..][i])
        ensures history[1..][i + 1] == Apply(history[1..][i], log[1..][i])
      {
        assert log[1..][i] == log[i + 1];
      }
      HistoryIsRun(history[1..], log[1..]);
    }
  }

  /** `schedule` is what is still to come, and `notes` what annotations owner Machines will be found
      to have, set by whomever. */
  class Server {
    ghost var history: seq<Sys>
    ghost var log: seq<Action>
    var sys: Sys
    var schedule: seq<Action>
    var notes: seq<map<string, string>>

    ghost predicate Valid()
      reads this
    { Unfolds(history, log) && Init(history[0]) && history[|log|] == sys }

    constructor (sys: Sys, schedule: seq<Action>, notes: seq<map<string, string>>)
      requires Init(sys)
      ensures Valid() && this.sys == sys
    {
      history, log := [sys], [];
      this.sys, this.schedule, this.notes := sys, schedule, notes;
    }

    /** The annotations that an owner Machine is found with, the hook among them or not. */
    method Annotations(hook: bool) returns (found: map<string, string>)
      modifies this`notes
      ensures PRE_DRAIN_HOOK in found <==> hook
    {
      found := map[];
      if notes != [] {
        found, notes := notes[0], notes[1..];
      }
      if hook && PRE_DRAIN_HOOK !in found {
        found := found[PRE_DRAIN_HOOK := "true"];
      } else if !hook {
        found := found - {PRE_DRAIN_HOOK};
      }
    }

    lemma WasReached()
      requires Valid()
      ensures Reachable(sys)
    {
      HistoryIsRun(history, log);
    }

    /** One action of the system takes place. */
    method Happen(a: Action)
      requires Valid() && Enabled(sys, a)
      modifies this`sys, this`log, this`history
      ensures Valid() && sys == Apply(old(sys), a) && log == old(log) + [a]
    {
      sys := Apply(sys, a);
      history, log := history + [sys], log + [a];
    }

    /** Wait for the pending call of machine `k`: None means that the process died instead. */
    method Await(k: Key) returns (r: Option<Reply>)
      requires Valid() && k in sys.machines && sys.machines[k].pass.Run?
      modifies this
      ensures Valid() && old(log) <= log && k in sys.machines
      ensures sys.machines[k].cfg == old(sys.machines[k].cfg)
      ensures r.None? ==> sys.machines[k].pass == Idle(Failed)
      ensures r.Some? ==>
        && Fits(old(sys.machines[k].pass.pc), r.value)
        && sys.machines[k].pass == PassNext(old(sys.machines[k].cfg), old(sys.machines[k].pass), r.value)
    {
      while schedule != []
        invariant Valid() && old(log) <= log && k in sys.machines
        invariant sys.machines[k].cfg == old(sys.machines[k].cfg)
        invariant sys.machines[k].pass == old(sys.machines[k].pass)
        decreases |schedule|
      {
        var a := schedule[0];
        schedule := schedule[1..];
        if Enabled(sys, a) {
          OnlyOwnStepsMoveThePass(sys, a, k);
          Happen(a);
          if a.Step? && a.key == k {
            return Some(a.r);
          }
          if a == Crash(k) {
            return None;
          }
        }
      }
      OnlyOwnStepsMoveThePass(sys, Crash(k), k);
      Happen(Crash(k));
      return None;
    }

    /** The same for the cluster's pass. */
    method AwaitCluster() returns (r: Option<Reply>)
      requires Valid() && sys.cluster.pass.CRun?
      modifies this
      ensures Valid() && old(log) <= log
      ensures r.None? ==> sys.cluster.pass == CIdle(Failed)
      ensures r.Some? ==>
        && CFits(old(sys.cluster.pass.pc), r.value)
        && sys.cluster.pass == CPassNext(old(sys.cluster.pass), r.value)
    {
      while schedule != []
        invariant Valid() && old(log) <= log && sys.cluster.pass == old(sys.cluster.pass)
        decreases |schedule|
      {
        var a := schedule[0];
        schedule := schedule[1..];
        if Enabled(sys, a) {
          OnlyOwnStepsMoveTheClusterPass(sys, a);
          Happen(a);
          if a.CStep? {
            return Some(a.r);
          }
          if a.CCrash? {
            return None;
          }
        }
      }
      OnlyOwnStepsMoveTheClusterPass(sys, CCrash);
      Happen(CCrash);
      return None;
    }
  }

  lemma OnlyOwnStepsMoveThePass(s: Sys, a: Action, k: Key)
    requires Enabled(s, a) && k in s.machines && s.machines[k].pass.Run?
    ensures k in Apply(s, a).machines && Apply(s, a).machines[k].cfg == s.machines[k].cfg
    ensures var m, m' := s.machines[k], Apply(s, a).machines[k];
      if a.Step? && a.key == k then m'.pass == PassNext(m.cfg, m.pass, a.r)
      else if a == Crash(k) then m'.pass == Idle(Failed)
      else m'.pass == m.pass
  {
    if a.Step? && a.key == k {
      StepMovesThePass(s.machines[k], PassNext(s.machines[k].cfg, s.machines[k].pass, a.r), a.r);
    }
  }

  lemma StepMovesThePass(m: Machine, next: MPass, r: Reply)
    requires m.pass.Run?
    ensures StepMachine(m, next, r).pass == next && StepMachine(m, next, r).cfg == m.cfg
  {
  }

  lemma OnlyOwnStepsMoveTheClusterPass(s: Sys, a: Action)
    requires Enabled(s, a) && s.cluster.pass.CRun?
    ensures var c, c' := s.cluster, Apply(s, a).cluster;
      if a.CStep? then c'.pass == CPassNext(c.pass, a.r)
      else if a.CCrash? then c'.pass == CIdle(Failed)
      else c'.pass == c.pass
  {
  }
}
