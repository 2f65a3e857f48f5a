/** Every child the operator writes names, as its one and only controller, the DeviceConfig that drove the
    pass, so that every later event on the child leads back to it. */
module Ownership {
  import opened Api
  import opened Owners
  import opened Cluster
  import opened System
  import opened Guard
  import opened Draining

  /** What a pass that is about to write a child knows of the owners. */
  predicate Claimed(cl: Cluster, nn: Key, phase: Phase) {
    && (phase.Make? ==> phase.obj.owners == [Ref(nn.name, phase.cfg.uid)])
    && (phase.Amend? ==>
          && Valid(phase.base.owners)
          && SetController(phase.base.owners, nn.name, phase.cfg.uid) == Some(phase.obj.owners)
          && (phase.base.owners == phase.obj.owners ==> Unstripped(cl, nn, phase)))
  }

  /** The child, if it is still there, still carries the reference that was read. */
  predicate Unstripped(cl: Cluster, nn: Key, phase: Phase)
    requires phase.Amend?
  {
    var k := ChildKey(nn, phase.r);
    k in cl.children ==> Ref(nn.name, phase.cfg.uid) in cl.children[k].owners
  }

  ghost predicate OwnInv(s: State, nn: Key) {
    && Inv(s, nn) && OwnersValid(s.cl)
    && (s.worker.Busy? && s.worker.nn == nn ==> Claimed(s.cl, nn, s.worker.phase))
  }

  /** Polite others leave the reference alone while the pass's DeviceConfig lives, and it lives. */
  lemma OthersLeaveClaim(site: Site, s: State, nn: Key, a: Action)
    requires OwnInv(s, nn) && s.worker.Busy? && s.worker.nn == nn && s.worker.phase.Amend?
    requires Polite(s, a) && !a.Call? && Unstripped(s.cl, nn, s.worker.phase)
    ensures Unstripped(Apply(site, s, a).cl, nn, s.worker.phase)
  {
    var phase := s.worker.phase;
    if a.Prune? && a.k == ChildKey(nn, phase.r) {
      assert !Dangling(s.cl, nn.ns, Ref(nn.name, phase.cfg.uid), a.dead);
    }
  }

  lemma ReadClaims(site: Site, s: State, nn: Key, cfg: Config, r: Role)
    requires OwnersValid(s.cl)
    ensures var p := WorkRead(site, s.cl, nn, cfg, r);
            p.worker.Busy? ==> p.worker.nn == nn && Claimed(s.cl, nn, p.worker.phase)
  {
    ReadOutcomes(site, s.cl, nn, cfg, r);
    var k := ChildKey(nn, r);
    var o := if k in s.cl.children then s.cl.children[k] else BLANK;
    assert Upsert([], Ref(nn.name, cfg.uid)) == [Ref(nn.name, cfg.uid)];
    assert SetController(o.owners, nn.name, cfg.uid).Some? ==>
             Ref(nn.name, cfg.uid) in SetController(o.owners, nn.name, cfg.uid).value;
  }

  lemma CallClaims(site: Site, s: State, nn: Key, fault: Fault)
    requires OwnInv(s, nn) && s.worker.Busy? && s.worker.nn == nn
    ensures var t := CallApi(site, s, fault);
            t.worker.Busy? && t.worker.nn == nn ==> Claimed(t.cl, nn, t.worker.phase)
  {
    var phase := s.worker.phase;
    if Writes(phase) {
      WriteOutcomes(site, s, fault);
    } else if fault.Fine? && phase.Read? {
      ReadClaims(site, s, nn, phase.cfg, phase.r);
    }
  }

  lemma StepOwns(site: Site, s: State, nn: Key, a: Action)
    requires OwnInv(s, nn) && Polite(s, a)
    ensures OwnInv(Apply(site, s, a), nn)
  {
    StepKeeps(site, s, nn, a);
    StepValid(site, s, a);
    if a.Call? {
      if s.worker.Busy? && s.worker.nn == nn {
        CallClaims(site, s, nn, a.fault);
      } else if s.worker.Busy? {
        WorkNames(site, s.cl, s.worker.nn, s.worker.phase, a.fault);
      }
    } else if s.worker.Busy? && s.worker.nn == nn && s.worker.phase.Amend? && Unstripped(s.cl, nn, s.worker.phase) {
      OthersLeaveClaim(site, s, nn, a);
    }
  }

  lemma {:induction false} RunOwns(site: Site, s: State, nn: Key, run: seq<Action>)
    requires OwnInv(s, nn) && PoliteRun(site, s, run)
    ensures OwnInv(Exec(site, s, run), nn)
    decreases |run|
  {
    if run != [] {
      StepOwns(site, s, nn, run[0]);
      RunOwns(site, Apply(site, s, run[0]), nn, run[1..]);
    }
  }

  lemma ValidIsSole(owners: seq<OwnerRef>, ref: OwnerRef)
    requires Valid(owners) && ref in owners && ref.controller
    ensures SoleController(owners, ref)
  {
    var i :| 0 <= i < |owners| && owners[i] == ref;
    forall j | 0 <= j < |owners| && j != i ensures !owners[j].controller {
      assert i < j || j < i;
    }
  }

  lemma WrittenOwners(site: Site, cl: Cluster, nn: Key, phase: Phase)
    requires (phase.Make? || phase.Amend?) && Claimed(cl, nn, phase)
    ensures var reply := Attempt(site, cl, nn, phase);
            var k := ChildKey(nn, phase.r);
            reply.Some? ==>
              && k in reply.value.children
              && Valid(reply.value.children[k].owners)
              && Ref(nn.name, phase.cfg.uid) in reply.value.children[k].owners
              && (phase.Amend? ==>
                    reply.value.children[k].owners ==
                      if phase.base.owners == phase.obj.owners then cl.children[k].owners else phase.obj.owners)
  {
  }

  /** The list that a patch leaves: the server's own, with all edits made since the read, if the pass found the
      reference in place; else the list that was read with the reference put in, which keeps every other owner
      that was there when the child was read and drops whatever was changed since. */
  predicate OwnersAfter(now: seq<OwnerRef>, base: seq<OwnerRef>, ref: OwnerRef, after: seq<OwnerRef>) {
    if Upsert(base, ref) == base then after == now
    else after == Upsert(base, ref) && forall o :: o in base && !SameObject(o, ref) ==> o in after
  }

  /** Whenever, in any polite run, the operator creates or patches a child and the server accepts, even if the
      reply is lost: the stored child has exactly one controller reference, to the DeviceConfig that drove
      the pass, and its events wake that DeviceConfig and no other. */
  lemma WrittenChildrenOwned(site: Site, run: seq<Action>, nn: Key, phase: Phase)
    requires PoliteRun(site, INIT, run) && Exec(site, INIT, run).worker == Busy(nn, phase)
    requires phase.Make? || phase.Amend?
    ensures var s := Exec(site, INIT, run);
            var reply := Attempt(site, s.cl, nn, phase);
            var k := ChildKey(nn, phase.r);
            var ref := Ref(nn.name, phase.cfg.uid);
            reply.Some? ==>
              && k in reply.value.children
              && SoleController(reply.value.children[k].owners, ref)
              && Wakes(k, Some(reply.value.children[k])) == {nn}
              && (phase.Amend? ==>
                    OwnersAfter(s.cl.children[k].owners, phase.base.owners, ref, reply.value.children[k].owners))
  {
    var s := Exec(site, INIT, run);
    RunOwns(site, INIT, nn, run);
    WrittenOwners(site, s.cl, nn, phase);
    var reply := Attempt(site, s.cl, nn, phase);
    if reply.Some? {
      var owners := reply.value.children[ChildKey(nn, phase.r)].owners;
      ValidIsSole(owners, Ref(nn.name, phase.cfg.uid));
      ValidController(owners, Ref(nn.name, phase.cfg.uid));
      if phase.Amend? {
        UpsertKeepsOthers(phase.base.owners, Ref(nn.name, phase.cfg.uid));
      }
    }
  }
}
