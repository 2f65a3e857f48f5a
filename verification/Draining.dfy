/** The deleting half of quiescence: a DeviceConfig that is being deleted is woken until its finalizer
    is off, provided the others are polite; without that a deletion can hang, and a run shows it. */
module Draining {
  import opened Api
  import opened Owners
  import opened Cluster
  import opened System
  import opened Guard
  import opened Wakeup
  import Finalizers

  /** Nothing will wake the DeviceConfig: then it is not held by the operator, or a child is draining. */
  predicate Drains(s: State, nn: Key) {
    nn in s.cl.configs && s.cl.configs[nn].terminating && Finalizers.Marked(s.cl.configs[nn].finalizers) ==>
      Dying(s, nn, Metrics) || Dying(s, nn, Module)
  }

  predicate OwnersValid(cl: Cluster) {
    forall k :: k in cl.children ==> Valid(cl.children[k].owners)
  }

  ghost predicate DrainInv(site: Site, s: State, nn: Key) {
    && Inv(s, nn) && WakeInv(site, s, nn) && OwnersValid(s.cl)
    && Sleeps(s, nn)
  }

  /** On an admitted owner list a controller reference is the controller. */
  lemma {:induction false} ValidController(owners: seq<OwnerRef>, ref: OwnerRef)
    requires Valid(owners) && ref in owners && ref.controller
    ensures ControllerOf(owners) == Some(ref)
  {
    if !owners[0].controller {
      assert forall i :: 0 <= i < |owners| - 1 ==> owners[1..][i] == owners[i + 1];
      ValidController(owners[1..], ref);
    }
  }

  /** The guarded children wake their DeviceConfig. */
  lemma GuardedIsControlled(s: State, nn: Key, r: Role)
    requires Inv(s, nn) && OwnersValid(s.cl) && Has(s.cl, nn, r) && (r == Module || r == Metrics)
    ensures ControlledBy(ChildAt(s.cl.children, ChildKey(nn, r)), nn)
  {
    ValidController(s.cl.children[ChildKey(nn, r)].owners, Ref(nn.name, s.cl.configs[nn].uid));
  }

  lemma {:induction false} SolidValid(cl: Cluster, ns: string, owners: seq<OwnerRef>, dead: set<OwnerRef>)
    requires Valid(owners)
    ensures Valid(Solid(cl, ns, owners, dead))
  {
    if owners != [] {
      var rest := owners[1..];
      assert forall i :: 0 <= i < |rest| ==> rest[i] == owners[i + 1];
      SolidValid(cl, ns, rest, dead);
      var r := Solid(cl, ns, owners, dead);
      var t := Solid(cl, ns, rest, dead);
      if !Dangling(cl, ns, owners[0], dead) && owners[0].controller {
        forall j | 0 < j < |r| ensures !r[j].controller {
          assert r[j] == t[j - 1] && t[j - 1] in rest;
        }
      }
      assert forall j :: 0 < j < |r| && !Dangling(cl, ns, owners[0], dead) ==> r[j] == t[j - 1];
    }
  }

  lemma WriteValid(cl: Cluster, k: ChildKey, o: Option<Child>)
    requires OwnersValid(cl) && (o.Some? ==> Valid(o.value.owners))
    ensures OwnersValid(WriteChild(cl, k, o))
  {
  }

  lemma OthersValid(site: Site, cl: Cluster, k: ChildKey, obj: Child, dead: set<OwnerRef>)
    requires OwnersValid(cl)
    ensures OwnersValid(Or(Create(site, cl, k, obj), cl))
    ensures OwnersValid(EditChild(site, cl, k, obj))
    ensures OwnersValid(Or(DeleteChild(cl, k), cl))
    ensures OwnersValid(PruneChild(cl, k, dead))
  {
    var spec := site.defaults(k.role, obj.spec);
    if Valid(obj.owners) {
      WriteValid(cl, k, Some(obj.(spec := spec, terminating := false)));
    }
    WriteValid(cl, k, None);
    if k in cl.children {
      var o := cl.children[k];
      if Valid(obj.owners) {
        WriteValid(cl, k, Some(obj.(spec := spec, terminating := o.terminating)));
      }
      WriteValid(cl, k, Delete(o));
      SolidValid(cl, k.owner.ns, o.owners, dead);
      WriteValid(cl, k, Some(o.(owners := Solid(cl, k.owner.ns, o.owners, dead))));
    }
  }

  lemma StepValid(site: Site, s: State, a: Action)
    requires OwnersValid(s.cl)
    ensures OwnersValid(Apply(site, s, a).cl)
  {
    match a {
      case OtherCreate(k, obj) => OthersValid(site, s.cl, k, obj, {});
      case OtherEdit(k, obj) => OthersValid(site, s.cl, k, obj, {});
      case OtherDelete(k) => OthersValid(site, s.cl, k, BLANK, {});
      case Collect(k, dead) => OthersValid(site, s.cl, k, BLANK, dead);
      case Prune(k, dead) => OthersValid(site, s.cl, k, BLANK, dead);
      case Call(fault) =>
        if s.worker.Busy? {
          CallChildren(site, s, fault);
          AttemptValid(site, s.cl, s.worker.nn, s.worker.phase);
        }
      case _ => assert Apply(site, s, a).cl.children == s.cl.children;
    }
  }

  lemma AttemptValid(site: Site, cl: Cluster, nn: Key, phase: Phase)
    requires OwnersValid(cl)
    ensures var reply := Attempt(site, cl, nn, phase); reply.Some? ==> OwnersValid(reply.value)
  {
  }

  /** A reported change cannot silently finish a drain. */
  lemma ReportedDrains(s: State, t: State, nn: Key)
    requires Inv(s, nn) && OwnersValid(s.cl) && Reported(s.cl, t.cl, nn)
    requires Drains(s, nn) && !Pending(t, nn)
    ensures Drains(t, nn)
  {
    ReportedAt(s.cl, t.cl, nn, Metrics);
    ReportedAt(s.cl, t.cl, nn, Module);
    if Has(s.cl, nn, Metrics) { GuardedIsControlled(s, nn, Metrics); }
    if Has(s.cl, nn, Module) { GuardedIsControlled(s, nn, Module); }
    assert ConfigAt(s.cl, nn) == ConfigAt(t.cl, nn);
  }

  /** A finalize pass that ends well on an untouched DeviceConfig leaves it free, or waiting for a drain. */
  lemma EndDrains(site: Site, s: State, nn: Key, phase: Phase)
    requires Inv(s, nn) && OwnersValid(s.cl) && s.worker == Busy(nn, phase)
    requires phase.DropMetrics? || phase.DropModule? || phase.Unmark?
    requires Pending(s, nn) || Undisrupted(site, s.cl, nn, phase)
    ensures var reply := Attempt(site, s.cl, nn, phase);
            reply.Some? ==> var t := s.(cl := reply.value); Pending(t, nn) || Drains(t, nn)
  {
    if phase.DropMetrics? && Has(s.cl, nn, Metrics) { GuardedIsControlled(s, nn, Metrics); }
    if phase.DropModule? && Has(s.cl, nn, Module) { GuardedIsControlled(s, nn, Module); }
  }

  lemma CallDrains(site: Site, s: State, nn: Key, fault: Fault)
    requires DrainInv(site, s, nn) && s.worker.Busy? && s.worker.nn == nn && StoresDesired(site)
    ensures var t := CallApi(site, s, fault);
            t.worker.Idle? && !Pending(t, nn) ==> Drains(t, nn)
  {
    var phase := s.worker.phase;
    if Writes(phase) {
      var reply := Attempt(site, s.cl, nn, phase);
      WriteOutcomes(site, s, fault);
      if Through(reply, fault) {
        match phase {
          case Mark(cfg) => MarkWakes(s, nn, cfg);
          case Make(_, _, _) => MakeWakes(site, s, nn, phase);
          case Amend(_, _, _, _) => AmendWakes(site, s, nn, phase);
          case _ => EndDrains(site, s, nn, phase);
        }
      }
    } else if fault.Fine? && phase.Read? {
      ReadOutcomes(site, s.cl, nn, phase.cfg, phase.r);
    }
  }

  lemma CallSleeps(site: Site, s: State, nn: Key, fault: Fault)
    requires DrainInv(site, s, nn) && StoresDesired(site)
    ensures Sleeps(CallApi(site, s, fault), nn)
  {
    if s.worker.Busy? && s.worker.nn == nn {
      CallDrains(site, s, nn, fault);
    } else if s.worker.Busy? {
      WorkStaysHome(site, s.cl, s.worker.nn, s.worker.phase, fault, nn);
      SleeperDrains(s, CallApi(site, s, fault), nn);
    }
  }

  lemma OthersSleep(site: Site, s: State, nn: Key, a: Action)
    requires Sleeps(s, nn) && Inv(s, nn) && OwnersValid(s.cl) && !a.Call?
    ensures Sleeps(Apply(site, s, a), nn)
  {
    if a.Deliver? || a.Dequeue? || a.Crash? {
      QueueDrains(site, s, nn, a);
    } else {
      OthersStepReported(site, s, nn, a);
      SleeperDrains(s, Apply(site, s, a), nn);
    }
  }

  lemma StepDrains(site: Site, s: State, nn: Key, a: Action)
    requires DrainInv(site, s, nn) && Defaulted(site, s.cl) && StoresDesired(site) && Polite(s, a)
    ensures DrainInv(site, Apply(site, s, a), nn)
  {
    StepKeeps(site, s, nn, a);
    StepWakes(site, s, nn, a);
    StepValid(site, s, a);
    if a.Call? {
      CallSleeps(site, s, nn, a.fault);
    } else {
      OthersSleep(site, s, nn, a);
    }
  }

  /** What DrainInv says of a DeviceConfig that is not being worked on. */
  predicate Sleeps(s: State, nn: Key) {
    Still(s, nn) ==> Drains(s, nn)
  }

  lemma QueueDrains(site: Site, s: State, nn: Key, a: Action)
    requires Sleeps(s, nn) && Inv(s, nn) && (a.Deliver? || a.Dequeue? || a.Crash?)
    ensures Sleeps(Apply(site, s, a), nn)
  {
  }

  lemma SleeperDrains(s: State, t: State, nn: Key)
    requires Sleeps(s, nn) && Inv(s, nn) && OwnersValid(s.cl) && Reported(s.cl, t.cl, nn) && s.queue <= t.queue
    requires (s.worker.Busy? && s.worker.nn == nn) ==> t.worker == s.worker
    ensures Sleeps(t, nn)
  {
    if !(t.worker.Busy? && t.worker.nn == nn) && !Pending(t, nn) {
      ReportedDrains(s, t, nn);
    }
  }

  lemma {:induction false} RunDrains(site: Site, s: State, nn: Key, run: seq<Action>)
    requires DrainInv(site, s, nn) && Defaulted(site, s.cl)
    requires Idempotent(site.defaults) && StoresDesired(site) && PoliteRun(site, s, run)
    ensures DrainInv(site, Exec(site, s, run), nn)
    decreases |run|
  {
    if run != [] {
      StepDrains(site, s, nn, run[0]);
      StepDefaulted(site, s, run[0]);
      RunDrains(site, Apply(site, s, run[0]), nn, run[1..]);
    }
  }

  /** In every state of a polite run, a DeviceConfig that is being deleted, of which nothing is pending or in
      flight and no Module or DaemonSet is draining, is rid of the finalizer. */
  lemma StillReleased(site: Site, run: seq<Action>, nn: Key)
    requires Idempotent(site.defaults) && StoresDesired(site) && PoliteRun(site, INIT, run)
    ensures var s := Exec(site, INIT, run);
            Still(s, nn) && nn in s.cl.configs && s.cl.configs[nn].terminating
            && !Dying(s, nn, Module) && !Dying(s, nn, Metrics) ==>
              !Finalizers.Marked(s.cl.configs[nn].finalizers)
  {
    RunDrains(site, INIT, nn, run);
  }

  /** So when the whole system is quiescent, every deletion is finished or waits for a draining child. */
  lemma QuiescentReleased(site: Site, run: seq<Action>)
    requires Idempotent(site.defaults) && StoresDesired(site) && PoliteRun(site, INIT, run)
    ensures var s := Exec(site, INIT, run);
            Quiescent(s) ==>
              forall nn :: nn in s.cl.configs && s.cl.configs[nn].terminating
                           && !Dying(s, nn, Module) && !Dying(s, nn, Metrics) ==>
                !Finalizers.Marked(s.cl.configs[nn].finalizers)
  {
    var s := Exec(site, INIT, run);
    forall nn | Quiescent(s) && nn in s.cl.configs && s.cl.configs[nn].terminating
                && !Dying(s, nn, Module) && !Dying(s, nn, Metrics)
      ensures !Finalizers.Marked(s.cl.configs[nn].finalizers)
    {
      StillReleased(site, run, nn);
    }
  }

  // ---------------------------------------------------------------- why the others must be polite

  /** Right after a finalize pass has deleted a child, its DeviceConfig is pending exactly when it was before, or
      the child is controlled by it and was not draining already. Module Deletion says what follows. */
  lemma DeleteWakesIff(s: State, nn: Key, r: Role)
    requires Has(s.cl, nn, r)
    ensures var reply := DeleteChild(s.cl, ChildKey(nn, r));
            reply.Some? &&
            (Pending(s.(cl := reply.value), nn) <==>
             Pending(s, nn) ||
             (ControlledBy(ChildAt(s.cl.children, ChildKey(nn, r)), nn)
              && (!Dying(s, nn, r) || s.cl.children[ChildKey(nn, r)].finalizers == [])))
  {
  }

  /** Deletion goes by name, so it can hang: a DaemonSet under the name of the metrics child that nobody
      controls is deleted by the finalize pass, nobody is told, and the finalizer stays on. */
  lemma DeletionCanHang(site: Site, nn: Key, spec: ConfigSpec) returns (run: seq<Action>)
    ensures var s := Exec(site, INIT, run);
            && Quiescent(s) && s.cl.children == map[]
            && nn in s.cl.configs && s.cl.configs[nn].terminating && Finalizers.Marked(s.cl.configs[nn].finalizers)
  {
    var k := ChildKey(nn, Metrics);
    var stranger := Child([], false, [], map[]);
    var before := [CreateConfig(nn, [Finalizers.FINALIZER], spec), OtherCreate(k, stranger), DeleteConfig(nn),
                   Deliver(nn), Dequeue(nn)];
    var pass := [Call(Fine), Call(Fine), Call(Fine)];
    var cfg := Config(0, [Finalizers.FINALIZER], true, spec);
    var cl := Cluster(map[nn := cfg], map[k := stranger.(spec := site.defaults(Metrics, map[]))], {});
    var s := State(cl, Busy(nn, Fetch), {}, 1, {});
    HangsBefore(site, nn, spec, before);
    HangsInPass(site, nn, cfg, cl, pass);
    ExecAppend(site, INIT, before, pass);
    run := before + pass;
  }

  lemma HangsBefore(site: Site, nn: Key, spec: ConfigSpec, run: seq<Action>)
    requires run == [CreateConfig(nn, [Finalizers.FINALIZER], spec),
                     OtherCreate(ChildKey(nn, Metrics), Child([], false, [], map[])), DeleteConfig(nn),
                     Deliver(nn), Dequeue(nn)]
    ensures var cfg := Config(0, [Finalizers.FINALIZER], true, spec);
            var child := Child([], false, [], site.defaults(Metrics, map[]));
            Exec(site, INIT, run) ==
              State(Cluster(map[nn := cfg], map[ChildKey(nn, Metrics) := child], {}), Busy(nn, Fetch), {}, 1, {})
  {
    var cfg := Config(0, [Finalizers.FINALIZER], true, spec);
    var child := Child([], false, [], site.defaults(Metrics, map[]));
    var k := ChildKey(nn, Metrics);
    var s1 := State(Cluster(map[nn := cfg.(terminating := false)], map[], {nn}), Idle(false), {}, 1, {});
    var s2 := s1.(cl := s1.cl.(children := map[k := child]));
    var s3 := s2.(cl := s2.cl.(configs := map[nn := cfg]));
    var s4 := s3.(cl := s3.cl.(events := {}), queue := {nn});
    var s5 := s4.(worker := Busy(nn, Fetch), queue := {});
    assert Apply(site, INIT, run[0]) == s1;
    assert Apply(site, s1, run[1]) == s2;
    assert Apply(site, s2, run[2]) == s3;
    assert Apply(site, s3, run[3]) == s4;
    assert Apply(site, s4, run[4]) == s5;
    ExecStep(site, INIT, s1, run);
    ExecStep(site, s1, s2, run[1..]);
    ExecStep(site, s2, s3, run[2..]);
    ExecStep(site, s3, s4, run[3..]);
    ExecStep(site, s4, s5, run[4..]);
  }

  lemma HangsInPass(site: Site, nn: Key, cfg: Config, cl: Cluster, run: seq<Action>)
    requires cfg.terminating && cl.configs == map[nn := cfg] && cl.events == {}
    requires cl.children.Keys == {ChildKey(nn, Metrics)} && run == [Call(Fine), Call(Fine), Call(Fine)]
    requires cl.children[ChildKey(nn, Metrics)].finalizers == [] && cl.children[ChildKey(nn, Metrics)].owners == []
    ensures var s := Exec(site, State(cl, Busy(nn, Fetch), {}, 1, {}), run);
            Quiescent(s) && s.cl.children == map[] && s.cl.configs == cl.configs
  {
    var s0 := State(cl, Busy(nn, Fetch), {}, 1, {});
    var s1 := s0.(worker := Busy(nn, ReadMetrics(cfg)), begun := {(nn, cfg.uid)});
    var s2 := s1.(worker := Busy(nn, DropMetrics(cfg)));
    var s3 := s2.(worker := Idle(false), cl := cl.(children := map[]));
    assert CallApi(site, s0, Fine) == s1;
    assert CallApi(site, s1, Fine) == s2;
    assert CallApi(site, s2, Fine) == s3;
    ExecStep(site, s0, s1, run);
    ExecStep(site, s1, s2, run[1..]);
    ExecStep(site, s2, s3, run[2..]);
  }

  lemma ExecStep(site: Site, s: State, t: State, run: seq<Action>)
    requires run != [] && Apply(site, s, run[0]) == t
    ensures Exec(site, s, run) == Exec(site, t, run[1..])
  {
  }

  lemma {:induction false} ExecAppend(site: Site, s: State, a: seq<Action>, b: seq<Action>)
    ensures Exec(site, s, a + b) == Exec(site, Exec(site, s, a), b)
    decreases |a|
  {
    if a == [] {
      assert a + b == b;
    } else {
      assert (a + b)[1..] == a[1..] + b;
      ExecAppend(site, Apply(site, s, a[0]), a[1..], b);
    }
  }
}
