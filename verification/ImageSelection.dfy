/** What the image loop comes to: it patches at every match and goes on, so that the last
    match wins. */
module ImageSelection {
  import opened Api
  import opened System
  import opened Invariant
  import opened MachineSteps
  import opened Preservation

  /** The ID of the last image of that name. */
  function LastMatch(images: seq<Image>, name: string): Option<Id>
  {
    if images == [] then None
    else
      var rest := LastMatch(images[1..], name);
      if rest.Some? then rest
      else if images[0].name == Some(name) then Some(images[0].id) else None
  }

  function Ahead(p: MPass): nat
  { if p.Run? && p.pc.PatchImage? then |p.pc.rest| + 1 else 0 }

  lemma ScanGetsAhead(cfg: MachineConfig, p: MPass, rest: seq<Image>, found: bool)
    requires p.Run?
    ensures Ahead(Scan(cfg, p, rest, found)) <= |rest|
  {
    ScanStops(cfg, p, rest, found);
  }

  /** The pass once every patch of its loop went through. */
  function LoopDone(cfg: MachineConfig, p: MPass): MPass
    decreases Ahead(p)
  {
    if p.Run? && p.pc.PatchImage? then
      ScanGetsAhead(cfg, p, p.pc.rest, true);
      LoopDone(cfg, PassNext(cfg, p, Done))
    else p
  }

  function WithImage(p: MPass, id: Id): MPass
    requires p.Run?
  { p.(mem := p.mem.(status := p.mem.status.(image := id))) }

  lemma PatchGoesOn(cfg: MachineConfig, q: MPass)
    requires q.Run? && q.pc.PatchImage?
    ensures LoopDone(cfg, q) == LoopDone(cfg, Scan(cfg, q, q.pc.rest, true))
  {
  }

  /** From anywhere in the loop on. */
  lemma {:induction false} LoopEnds(cfg: MachineConfig, p: MPass, rest: seq<Image>, found: bool)
    requires p.Run? && forall i :: 0 <= i < |rest| ==> rest[i].name.Some?
    ensures LoopDone(cfg, Scan(cfg, p, rest, found)) ==
      match LastMatch(rest, p.mem.spec.image)
      case None => if found then GoInstance(cfg, p) else Idle(Failed)
      case Some(id) => GoInstance(cfg, WithImage(p, id))
    decreases |rest|
  {
    if rest == [] {
    } else if rest[0].name.value == p.mem.spec.image {
      var q := SetImage(p, rest[0].id, PatchImage(rest[1..]));
      LoopEnds(cfg, q, rest[1..], true);
      PatchGoesOn(cfg, q);
    } else {
      LoopEnds(cfg, p, rest[1..], found);
    }
  }

  /** An image without a name ends the loop, whatever it found before. */
  lemma {:induction false} NilNameFails(cfg: MachineConfig, p: MPass, rest: seq<Image>, found: bool)
    requires p.Run? && exists i :: 0 <= i < |rest| && rest[i].name.None?
    ensures LoopDone(cfg, Scan(cfg, p, rest, found)) == Idle(Failed)
    decreases |rest|
  {
    if rest[0].name.Some? {
      var i :| 0 <= i < |rest| && rest[i].name.None?;
      assert rest[1..][i - 1].name.None?;
      if rest[0].name.value == p.mem.spec.image {
        var q := SetImage(p, rest[0].id, PatchImage(rest[1..]));
        NilNameFails(cfg, q, rest[1..], true);
        PatchGoesOn(cfg, q);
      } else {
        NilNameFails(cfg, p, rest[1..], found);
      }
    }
  }

  lemma GoInstanceFailsNot(cfg: MachineConfig, p: MPass)
    requires p.Run?
    ensures GoInstance(cfg, p) != Idle(Failed)
  {
  }

  /** From any image list, a loop whose patches go through fails exactly if an image has no name or
      none has the wanted one. */
  lemma LoopFailsExactly(cfg: MachineConfig, p: MPass, images: seq<Image>)
    requires p.Run? && p.pc.ListImages?
    ensures LoopDone(cfg, PassNext(cfg, p, GotImages(images))) == Idle(Failed) <==>
              || (exists i :: 0 <= i < |images| && images[i].name.None?)
              || (forall i :: 0 <= i < |images| ==> images[i].name != Some(p.mem.spec.image))
  {
    if exists i :: 0 <= i < |images| && images[i].name.None? {
      NilNameFails(cfg, p, images, false);
    } else {
      LoopEnds(cfg, p, images, false);
      MatchIsLast(images, p.mem.spec.image);
      var last := LastMatch(images, p.mem.spec.image);
      if last.Some? {
        GoInstanceFailsNot(cfg, WithImage(p, last.value));
      } else {
        assert forall i :: 0 <= i < |images| ==> images[i] in images;
      }
    }
  }

  /** For any image list without nil names, a loop whose patches go through selects the last
      image of the name in the spec, and reports that there is none exactly if there is none. */
  lemma LoopSelectsTheLastMatch(cfg: MachineConfig, p: MPass, images: seq<Image>)
    requires p.Run? && p.pc.ListImages? && forall i :: 0 <= i < |images| ==> images[i].name.Some?
    ensures var q, name := LoopDone(cfg, PassNext(cfg, p, GotImages(images))), p.mem.spec.image;
      && (q == Idle(Failed) <==> forall img :: img in images ==> img.name != Some(name))
      && (q != Idle(Failed) ==>
            exists i :: 0 <= i < |images| && images[i].name == Some(name)
              && (forall j :: i < j < |images| ==> images[j].name != Some(name))
              && q == GoInstance(cfg, WithImage(p, images[i].id)))
  {
    LoopEnds(cfg, p, images, false);
    MatchIsLast(images, p.mem.spec.image);
  }

  lemma {:induction false} MatchIsLast(images: seq<Image>, name: string)
    ensures match LastMatch(images, name)
      case None => forall img :: img in images ==> img.name != Some(name)
      case Some(id) =>
        exists i :: 0 <= i < |images| && images[i].name == Some(name) && images[i].id == id
          && forall j :: i < j < |images| ==> images[j].name != Some(name)
  {
    if images != [] {
      MatchIsLast(images[1..], name);
      match LastMatch(images[1..], name)
      case None =>
        if images[0].name == Some(name) {
          assert forall j :: 0 < j < |images| ==> images[j] in images[1..];
        }
      case Some(id) =>
        var i :| 0 <= i < |images[1..]| && images[1..][i].name == Some(name) && images[1..][i].id == id
          && forall j :: i < j < |images[1..]| ==> images[1..][j].name != Some(name);
        assert images[i + 1] == images[1..][i];
        assert forall j :: i + 1 < j < |images| ==> images[j] == images[1..][j - 1];
    }
  }

  /** A patch of the loop stores the ID it was made for, unless that ID is empty: a merge patch
      does not send a field that is as it was when the pass began. */
  lemma MatchIsStored(s: Sys, k: Key)
    requires Reachable(s) && StepEnabled(s, k, Done) && s.machines[k].pass.pc.PatchImage?
    ensures var id, st := s.machines[k].pass.mem.status.image, ApplyStep(s, k, Done).machines[k].obj.status;
      st.image == if id.Uuid? then id else s.machines[k].obj.status.image
  {
    ReachableInv(s);
    assert MInv(s.cluster, s.cloud, k, s.machines[k]);
  }

  /** The ID of the last image of that name that has one. */
  function LastSet(images: seq<Image>, name: string): Option<Id>
  {
    if images == [] then None
    else
      var rest := LastSet(images[1..], name);
      if rest.Some? then rest
      else if images[0].name == Some(name) && images[0].id.Uuid? then Some(images[0].id) else None
  }

  lemma {:induction false} LastSetIsLast(images: seq<Image>, name: string)
    ensures LastSet(images, name).Some? ==> LastSet(images, name).value.Uuid? && LastMatch(images, name).Some?
    ensures LastMatch(images, name).Some? && LastMatch(images, name).value.Uuid? ==>
              LastSet(images, name) == LastMatch(images, name)
  {
    if images != [] {
      LastSetIsLast(images[1..], name);
    }
  }

  /** The machine once every patch of its loop went through. */
  function Looped(m: Machine): Machine
    decreases Ahead(m.pass)
  {
    if m.pass.Run? && m.pass.pc.PatchImage? then
      ScanGetsAhead(m.cfg, m.pass, m.pass.pc.rest, true);
      Looped(StepMachine(m, PassNext(m.cfg, m.pass, Done), Done))
    else m
  }

  lemma PatchStoresImage(m: Machine, next: MPass)
    requires m.pass.Run? && m.pass.pc.PatchImage? && m.pass.before.status.image.Unset?
    ensures var id, m' := m.pass.mem.status.image, StepMachine(m, next, Done);
      && m'.pass == next && m'.cfg == m.cfg
      && m'.obj.status.image == if id.Uuid? then id else m.obj.status.image
  {
  }

  lemma OnePatch(m: Machine)
    requires m.pass.Run? && m.pass.pc.PatchImage? && m.pass.before.status.image.Unset?
    ensures var id, next := m.pass.mem.status.image, StepMachine(m, PassNext(m.cfg, m.pass, Done), Done);
      && next.pass == Scan(m.cfg, m.pass, m.pass.pc.rest, true) && next.cfg == m.cfg
      && next.obj.status.image == (if id.Uuid? then id else m.obj.status.image)
      && Looped(m) == Looped(next)
  {
    PatchStoresImage(m, PassNext(m.cfg, m.pass, Done));
  }

  lemma {:induction false} LoopStores(m: Machine, p: MPass, rest: seq<Image>, found: bool)
    requires p.Run? && p.before.status.image.Unset? && m.pass == Scan(m.cfg, p, rest, found)
    requires forall i :: 0 <= i < |rest| ==> rest[i].name.Some?
    ensures var last := LastSet(rest, p.mem.spec.image);
      Looped(m).obj.status.image == if last.Some? then last.value else m.obj.status.image
    decreases |rest|
  {
    if rest == [] {
    } else if rest[0].name.value == p.mem.spec.image {
      var q := SetImage(p, rest[0].id, PatchImage(rest[1..]));
      OnePatch(m);
      LoopStores(StepMachine(m, PassNext(m.cfg, q, Done), Done), q, rest[1..], true);
    } else {
      LoopStores(m, p, rest[1..], found);
    }
  }

  /** What is stored after the whole loop: the last match's ID if that is not empty. If it is
      empty, it is the ID of the last match that has one, or what was stored before. So once
      any match has an ID, the last match's is stored if and only if it is not empty. */
  lemma LoopStoresTheLastMatch(s: Sys, k: Key, images: seq<Image>)
    requires Reachable(s) && StepEnabled(s, k, GotImages(images)) && s.machines[k].pass.pc.ListImages?
    requires forall i :: 0 <= i < |images| ==> images[i].name.Some?
    ensures var m := ApplyStep(s, k, GotImages(images)).machines[k];
      var name := s.machines[k].pass.mem.spec.image;
      var stored, last, set_ := Looped(m).obj.status.image, LastMatch(images, name), LastSet(images, name);
      && (last.Some? && last.value.Uuid? ==> stored == last.value)
      && (set_.Some? ==> last.Some? && stored == set_.value && (stored == last.value <==> last.value.Uuid?))
      && (set_.None? ==> stored == s.machines[k].obj.status.image)
  {
    ReachableInv(s);
    var m := s.machines[k];
    assert MPassOk(s.cluster, s.cloud, k, m);
    LastSetIsLast(images, m.pass.mem.spec.image);
    LoopStores(ApplyStep(s, k, GotImages(images)).machines[k], m.pass, images, false);
  }
}
