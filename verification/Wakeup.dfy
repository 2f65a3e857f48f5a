/** No wake-up is lost: when nothing is pending any more, every live DeviceConfig has converged,
    whatever anybody did to it, to its children or to the operator on the way. */
module Wakeup {
  import opened Json
  import opened Api
  import opened Owners
  import opened Cluster
  import opened System
  import Finalizers

  /** Everything in the store went through the server's defaulting. */
  ghost predicate Defaulted(site: Site, cl: Cluster) {
    forall k :: k in cl.children ==> cl.children[k].spec == site.defaults(k.role, cl.children[k].spec)
  }

  predicate ControlledBy(o: Option<Child>, nn: Key) {
    o.Some? && Controls(o.value.owners, nn.name)
  }

  /** The child exists, is controlled by this incarnation of its DeviceConfig, and has the desired spec. */
  predicate Converged(site: Site, cl: Cluster, nn: Key, cfg: Config, r: Role) {
    var o := ChildAt(cl.children, ChildKey(nn, r));
    && o.Some?
    && ControllerOf(o.value.owners) == Some(Ref(nn.name, cfg.uid))
    && o.value.spec == site.defaults(r, site.desire(nn, cfg.spec, r, o.value.spec))
  }

  predicate ConvergedBefore(site: Site, cl: Cluster, nn: Key, cfg: Config, r: Role) {
    match r
    case Module => true
    case Scheduler => Converged(site, cl, nn, cfg, Module)
    case Extension => Converged(site, cl, nn, cfg, Module) && Converged(site, cl, nn, cfg, Scheduler)
    case Metrics => Converged(site, cl, nn, cfg, Module) && Converged(site, cl, nn, cfg, Scheduler)
                    && Converged(site, cl, nn, cfg, Extension)
  }

  predicate AllConverged(site: Site, cl: Cluster, nn: Key, cfg: Config) {
    ConvergedBefore(site, cl, nn, cfg, Metrics) && Converged(site, cl, nn, cfg, Metrics)
  }

  lemma ConvergedAt(site: Site, cl: Cluster, nn: Key, cfg: Config, r: Role)
    requires AllConverged(site, cl, nn, cfg)
    ensures Converged(site, cl, nn, cfg, r)
  {
    match r { case Module => case Scheduler => case Extension => case Metrics => }
  }

  /** What holds of a DeviceConfig that nothing will wake. */
  predicate Settled(site: Site, cl: Cluster, nn: Key) {
    nn in cl.configs && !cl.configs[nn].terminating ==>
      Finalizers.Marked(cl.configs[nn].finalizers) && AllConverged(site, cl, nn, cl.configs[nn])
  }

  /** The server's child is still the copy that was read, or neither was ever this DeviceConfig's. */
  predicate Steady(cl: Cluster, nn: Key, r: Role, base: Child) {
    var o := ChildAt(cl.children, ChildKey(nn, r));
    o == Some(base) || (!ControlledBy(o, nn) && !Controls(base.owners, nn.name))
  }

  /** What the local data of a pass look like, in any case. */
  predicate Shape(site: Site, nn: Key, phase: Phase) {
    && (phase.Mark? ==> !phase.cfg.terminating && !Finalizers.Marked(phase.cfg.finalizers))
    && (phase.Make? || phase.Amend? ==> ControllerOf(phase.obj.owners) == Some(Ref(nn.name, phase.cfg.uid)))
    && (phase.Amend? ==> phase.obj.spec == site.desire(nn, phase.cfg.spec, phase.r, phase.base.spec))
  }

  /** What a pass knows as long as nothing has woken its DeviceConfig. */
  predicate Undisrupted(site: Site, cl: Cluster, nn: Key, phase: Phase) {
    phase.Fetch? ||
    (&& nn in cl.configs && cl.configs[nn] == phase.cfg
     && (phase.Read? || phase.Make? || phase.Amend? ==>
           && !phase.cfg.terminating && Finalizers.Marked(phase.cfg.finalizers)
           && ConvergedBefore(site, cl, nn, phase.cfg, phase.r))
     && (phase.Amend? ==> Steady(cl, nn, phase.r, phase.base))
     && (phase.ReadMetrics? || phase.DropMetrics? || phase.ReadModule? || phase.DropModule? || phase.Unmark? ==>
           phase.cfg.terminating))
  }

  predicate WakeInv(site: Site, s: State, nn: Key) {
    if s.worker.Busy? && s.worker.nn == nn then
      Shape(site, nn, s.worker.phase) && (!Pending(s, nn) ==> Undisrupted(site, s.cl, nn, s.worker.phase))
    else
      !Pending(s, nn) ==> Settled(site, s.cl, nn)
  }

  // ---------------------------------------------------------------- changes are reported

  /** Whatever concerns nn and changed between the clusters was reported for nn. */
  predicate Reported(a: Cluster, b: Cluster, nn: Key) {
    && (nn in a.events ==> nn in b.events)
    && (nn in b.events || ConfigAt(a, nn) == ConfigAt(b, nn))
    && forall r: Role :: nn in b.events || ChildAt(a.children, ChildKey(nn, r)) == ChildAt(b.children, ChildKey(nn, r))
         || (!ControlledBy(ChildAt(a.children, ChildKey(nn, r)), nn)
             && !ControlledBy(ChildAt(b.children, ChildKey(nn, r)), nn))
  }

  lemma WriteChildReported(cl: Cluster, k: ChildKey, o: Option<Child>, nn: Key)
    ensures Reported(cl, WriteChild(cl, k, o), nn)
  {
  }

  lemma WriteConfigReported(cl: Cluster, n: Key, c: Option<Config>, nn: Key)
    ensures Reported(cl, WriteConfig(cl, n, c), nn)
  {
  }

  lemma ReportedAt(a: Cluster, b: Cluster, nn: Key, r: Role)
    requires Reported(a, b, nn)
    ensures nn in b.events || ChildAt(a.children, ChildKey(nn, r)) == ChildAt(b.children, ChildKey(nn, r))
         || (!ControlledBy(ChildAt(a.children, ChildKey(nn, r)), nn)
             && !ControlledBy(ChildAt(b.children, ChildKey(nn, r)), nn))
  {
  }

  /** A reported change keeps what a sleeping DeviceConfig, or a pass that is not moving, relies on. */
  lemma ReportedKeeps(site: Site, s: State, t: State, nn: Key)
    requires WakeInv(site, s, nn) && Reported(s.cl, t.cl, nn)
    requires s.queue <= t.queue
    requires t.worker == s.worker ||
             (!(s.worker.Busy? && s.worker.nn == nn) && !(t.worker.Busy? && t.worker.nn == nn))
    ensures WakeInv(site, t, nn)
  {
    ReportedAt(s.cl, t.cl, nn, Module);
    ReportedAt(s.cl, t.cl, nn, Scheduler);
    ReportedAt(s.cl, t.cl, nn, Extension);
    ReportedAt(s.cl, t.cl, nn, Metrics);
  }

  lemma UpdateConfigReported(cl: Cluster, n: Key, fs: seq<string>, spec: ConfigSpec, nn: Key)
    ensures Reported(cl, Or(UpdateConfig(cl, n, fs, spec), cl), nn)
  {
    WriteConfigReported(cl, n, None, nn);
    if n in cl.configs {
      WriteConfigReported(cl, n, Some(cl.configs[n].(finalizers := fs, spec := spec)), nn);
    }
  }

  lemma EraseConfigReported(cl: Cluster, n: Key, nn: Key)
    ensures Reported(cl, EraseConfig(cl, n), nn)
  {
    WriteConfigReported(cl, n, None, nn);
    if n in cl.configs {
      WriteConfigReported(cl, n, Some(cl.configs[n].(terminating := true)), nn);
    }
  }

  lemma DeleteChildReported(cl: Cluster, k: ChildKey, nn: Key)
    ensures Reported(cl, Or(DeleteChild(cl, k), cl), nn)
  {
    if k in cl.children {
      WriteChildReported(cl, k, Delete(cl.children[k]), nn);
    }
  }

  lemma EditChildReported(site: Site, cl: Cluster, k: ChildKey, obj: Child, nn: Key)
    ensures Reported(cl, EditChild(site, cl, k, obj), nn)
  {
    WriteChildReported(cl, k, None, nn);
    if k in cl.children {
      var o := obj.(terminating := cl.children[k].terminating, spec := site.defaults(k.role, obj.spec));
      WriteChildReported(cl, k, Some(o), nn);
    }
  }

  lemma PruneChildReported(cl: Cluster, k: ChildKey, dead: set<OwnerRef>, nn: Key)
    ensures Reported(cl, PruneChild(cl, k, dead), nn)
  {
    if k in cl.children {
      var solid := Solid(cl, k.owner.ns, cl.children[k].owners, dead);
      WriteChildReported(cl, k, Some(cl.children[k].(owners := solid)), nn);
    }
  }

  /** Whatever someone else does is reported. */
  lemma OthersStepReported(site: Site, s: State, nn: Key, a: Action)
    requires !a.Call? && !a.Deliver? && !a.Dequeue? && !a.Crash?
    ensures Reported(s.cl, Apply(site, s, a).cl, nn)
    ensures Apply(site, s, a).worker == s.worker && Apply(site, s, a).queue == s.queue
  {
    match a {
      case CreateConfig(n, fs, spec) => WriteConfigReported(s.cl, n, Some(Config(s.nextUid, fs, false, spec)), nn);
      case EditConfig(n, fs, spec) => UpdateConfigReported(s.cl, n, fs, spec, nn);
      case DeleteConfig(n) => EraseConfigReported(s.cl, n, nn);
      case OtherCreate(k, obj) =>
        WriteChildReported(s.cl, k, Some(obj.(spec := site.defaults(k.role, obj.spec), terminating := false)), nn);
      case OtherEdit(k, obj) => EditChildReported(site, s.cl, k, obj, nn);
      case OtherDelete(k) => DeleteChildReported(s.cl, k, nn);
      case Collect(k, dead) => DeleteChildReported(s.cl, k, nn);
      case Prune(k, dead) => PruneChildReported(s.cl, k, dead, nn);
      case Nudge(_) =>
    }
  }

  lemma OthersStepWakes(site: Site, s: State, nn: Key, a: Action)
    requires WakeInv(site, s, nn) && !a.Call?
    ensures WakeInv(site, Apply(site, s, a), nn)
  {
    var t := Apply(site, s, a);
    if a.Deliver? || a.Dequeue? || a.Crash? {
      QueueWakes(site, s, t, nn);
    } else {
      OthersStepReported(site, s, nn, a);
      ReportedKeeps(site, s, t, nn);
    }
  }

  /** Notifications move to the queue, and the worker may start over: nothing is forgotten. */
  lemma QueueWakes(site: Site, s: State, t: State, nn: Key)
    requires WakeInv(site, s, nn)
    requires t.cl.configs == s.cl.configs && t.cl.children == s.cl.children
    requires Pending(s, nn) ==>
               Pending(t, nn) || t.worker == Busy(nn, Fetch) || (nn !in t.cl.configs && t.worker.Idle?)
    requires t.worker == s.worker || t.worker.Idle? || t.worker.phase.Fetch?
    requires t.worker == s.worker || s.worker.Idle? || Pending(t, nn) || nn !in t.cl.configs
    ensures WakeInv(site, t, nn)
  {
  }

  // ---------------------------------------------------------------- the operator's steps

  lemma LookWakes(site: Site, s: State, nn: Key)
    requires WakeInv(site, s, nn) && Defaulted(site, s.cl)
    requires s.worker.Busy? && s.worker.nn == nn && !Writes(s.worker.phase)
    ensures WakeInv(site, CallApi(site, s, Fine), nn)
  {
    match s.worker.phase {
      case Fetch =>
      case Read(cfg, r) =>
        ReadOutcomes(site, s.cl, nn, cfg, r);
        AfterRead(site, s, nn, cfg, r, WorkRead(site, s.cl, nn, cfg, r));
      case ReadMetrics(cfg) =>
      case ReadModule(cfg) =>
    }
  }

  /** A child that the setter leaves as it is has converged: it is already defaulted. */
  lemma AfterRead(site: Site, s: State, nn: Key, cfg: Config, r: Role, p: Pass)
    requires WakeInv(site, s, nn) && Defaulted(site, s.cl) && s.worker == Busy(nn, Read(cfg, r))
    requires ReadOutcome(site, s.cl, nn, cfg, r, p)
    ensures WakeInv(site, s.(cl := p.cl, worker := p.worker), nn)
  {
  }

  /** The finalizer patch changes a DeviceConfig that nobody touched, so it wakes it. */
  lemma MarkWakes(s: State, nn: Key, cfg: Config)
    requires !Finalizers.Marked(cfg.finalizers)
    requires Pending(s, nn) || (nn in s.cl.configs && s.cl.configs[nn] == cfg)
    ensures var reply := PatchFinalizers(s.cl, nn, cfg, Finalizers.Add(cfg.finalizers));
            reply.Some? ==> Pending(s.(cl := reply.value), nn)
  {
  }

  lemma MakeWakes(site: Site, s: State, nn: Key, phase: Phase)
    requires phase.Make? && Controls(phase.obj.owners, nn.name)
    ensures var reply := Attempt(site, s.cl, nn, phase); reply.Some? ==> nn in reply.value.events
  {
  }

  /** The patch of a child that is or becomes this DeviceConfig's either wakes it or changes nothing;
      in the latter case the child has converged. */
  lemma AmendWakes(site: Site, s: State, nn: Key, phase: Phase)
    requires phase.Amend? && Shape(site, nn, phase) && StoresDesired(site)
    requires Pending(s, nn) || Steady(s.cl, nn, phase.r, phase.base)
    ensures var reply := Attempt(site, s.cl, nn, phase);
            reply.Some? ==>
              Pending(s.(cl := reply.value), nn)
              || (reply.value == s.cl && Converged(site, s.cl, nn, phase.cfg, phase.r))
  {
    var k := ChildKey(nn, phase.r);
    if k in s.cl.children && !Pending(s, nn) {
      var server, base, obj := s.cl.children[k], phase.base, phase.obj;
      var o := Patched(site, phase.r, server, base, obj);
      assert Controls(o.owners, nn.name);
      if o == server {
        assert MergePatch(Obj(base.spec), Obj(Diff(Obj(base.spec), Obj(obj.spec)))) == Obj(obj.spec);
      } else if Valid(o.owners) {
        assert nn in WriteChild(s.cl, k, Some(o)).events;
      }
    }
  }

  lemma WriteWakes(site: Site, s: State, nn: Key, fault: Fault)
    requires WakeInv(site, s, nn) && StoresDesired(site)
    requires s.worker.Busy? && s.worker.nn == nn && Writes(s.worker.phase)
    ensures WakeInv(site, CallApi(site, s, fault), nn)
  {
    var phase := s.worker.phase;
    var reply := Attempt(site, s.cl, nn, phase);
    WriteOutcomes(site, s, fault);
    if Through(reply, fault) {
      match phase {
        case Mark(cfg) => MarkWakes(s, nn, cfg);
        case Make(_, _, _) => MakeWakes(site, s, nn, phase);
        case Amend(_, _, _, _) => AmendWakes(site, s, nn, phase);
        case _ => EndWakes(site, s, nn, phase);
      }
      assert reply.value.events <= Follow(reply.value, nn, phase).cl.events;
    }
  }

  lemma EndWakes(site: Site, s: State, nn: Key, phase: Phase)
    requires phase.DropMetrics? || phase.DropModule? || phase.Unmark?
    requires Pending(s, nn) || Undisrupted(site, s.cl, nn, phase)
    ensures var reply := Attempt(site, s.cl, nn, phase);
            reply.Some? ==>
              Pending(s.(cl := reply.value), nn)
              || (nn in reply.value.configs && reply.value.configs[nn].terminating)
  {
  }

  lemma StepWakes(site: Site, s: State, nn: Key, a: Action)
    requires WakeInv(site, s, nn) && Defaulted(site, s.cl) && StoresDesired(site)
    ensures WakeInv(site, Apply(site, s, a), nn)
  {
    if !a.Call? {
      OthersStepWakes(site, s, nn, a);
    } else if s.worker.Idle? {
    } else if s.worker.nn != nn {
      var t := CallApi(site, s, a.fault);
      WorkStaysHome(site, s.cl, s.worker.nn, s.worker.phase, a.fault, nn);
      assert Reported(s.cl, t.cl, nn);
      ReportedKeeps(site, s, t, nn);
    } else if Writes(s.worker.phase) {
      WriteWakes(site, s, nn, a.fault);
    } else if a.fault.Fine? {
      LookWakes(site, s, nn);
    } else {
      assert nn in CallApi(site, s, a.fault).cl.events;
    }
  }

  // ---------------------------------------------------------------- stored specs are defaulted

  lemma WriteDefaulted(site: Site, cl: Cluster, k: ChildKey, o: Option<Child>)
    requires Defaulted(site, cl) && (o.Some? ==> o.value.spec == site.defaults(k.role, o.value.spec))
    ensures Defaulted(site, WriteChild(cl, k, o))
  {
  }

  lemma AttemptDefaulted(site: Site, cl: Cluster, nn: Key, phase: Phase)
    requires Defaulted(site, cl) && Idempotent(site.defaults)
    ensures var reply := Attempt(site, cl, nn, phase); reply.Some? ==> Defaulted(site, reply.value)
  {
    match phase {
      case Make(cfg, r, obj) =>
        WriteDefaulted(site, cl, ChildKey(nn, r), Some(obj.(spec := site.defaults(r, obj.spec), terminating := false)));
      case Amend(cfg, r, base, obj) =>
        if ChildKey(nn, r) in cl.children {
          WriteDefaulted(site, cl, ChildKey(nn, r),
                         Some(Patched(site, r, cl.children[ChildKey(nn, r)], base, obj)));
        }
      case _ =>
    }
  }

  lemma OthersDefaulted(site: Site, cl: Cluster, k: ChildKey, obj: Child, dead: set<OwnerRef>)
    requires Defaulted(site, cl) && Idempotent(site.defaults)
    ensures Defaulted(site, Or(Create(site, cl, k, obj), cl))
    ensures Defaulted(site, EditChild(site, cl, k, obj))
    ensures Defaulted(site, Or(DeleteChild(cl, k), cl))
    ensures Defaulted(site, PruneChild(cl, k, dead))
  {
    var spec := site.defaults(k.role, obj.spec);
    WriteDefaulted(site, cl, k, Some(obj.(spec := spec, terminating := false)));
    WriteDefaulted(site, cl, k, None);
    if k in cl.children {
      var o := cl.children[k];
      WriteDefaulted(site, cl, k, Some(obj.(spec := spec, terminating := o.terminating)));
      WriteDefaulted(site, cl, k, Delete(o));
      WriteDefaulted(site, cl, k, Some(o.(owners := Solid(cl, k.owner.ns, o.owners, dead))));
    }
  }

  /** A call makes no other change of the children than the write it attempts. */
  lemma CallChildren(site: Site, s: State, fault: Fault)
    requires s.worker.Busy?
    ensures var t := CallApi(site, s, fault);
            var reply := Attempt(site, s.cl, s.worker.nn, s.worker.phase);
            t.cl.children == s.cl.children || (reply.Some? && t.cl.children == reply.value.children)
  {
    if Writes(s.worker.phase) {
      WriteOutcomes(site, s, fault);
    } else if s.worker.phase.Read? {
      ReadOutcomes(site, s.cl, s.worker.nn, s.worker.phase.cfg, s.worker.phase.r);
    }
  }

  lemma StepDefaulted(site: Site, s: State, a: Action)
    requires Defaulted(site, s.cl) && Idempotent(site.defaults)
    ensures Defaulted(site, Apply(site, s, a).cl)
  {
    match a {
      case OtherCreate(k, obj) => OthersDefaulted(site, s.cl, k, obj, {});
      case OtherEdit(k, obj) => OthersDefaulted(site, s.cl, k, obj, {});
      case OtherDelete(k) => OthersDefaulted(site, s.cl, k, BLANK, {});
      case Collect(k, dead) => OthersDefaulted(site, s.cl, k, BLANK, dead);
      case Prune(k, dead) => OthersDefaulted(site, s.cl, k, BLANK, dead);
      case Call(fault) =>
        if s.worker.Busy? {
          CallChildren(site, s, fault);
          AttemptDefaulted(site, s.cl, s.worker.nn, s.worker.phase);
        }
      case _ => assert Apply(site, s, a).cl.children == s.cl.children;
    }
  }

  lemma {:induction false} RunWakes(site: Site, s: State, nn: Key, run: seq<Action>)
    requires WakeInv(site, s, nn) && Defaulted(site, s.cl)
    requires Idempotent(site.defaults) && StoresDesired(site)
    ensures WakeInv(site, Exec(site, s, run), nn)
    decreases |run|
  {
    if run != [] {
      StepWakes(site, s, nn, run[0]);
      StepDefaulted(site, s, run[0]);
      RunWakes(site, Apply(site, s, run[0]), nn, run[1..]);
    }
  }

  /** The DeviceConfig has the finalizer, and its four children exist, are controlled by it and have the spec
      desired for its present spec. */
  ghost predicate Done(site: Site, cl: Cluster, nn: Key) {
    && nn in cl.configs && Finalizers.Marked(cl.configs[nn].finalizers)
    && forall r: Role :: Converged(site, cl, nn, cl.configs[nn], r)
  }

  lemma StillDone(site: Site, s: State, nn: Key)
    requires WakeInv(site, s, nn) && Still(s, nn) && nn in s.cl.configs && !s.cl.configs[nn].terminating
    ensures Done(site, s.cl, nn)
  {
    forall r: Role ensures Converged(site, s.cl, nn, s.cl.configs[nn], r) {
      ConvergedAt(site, s.cl, nn, s.cl.configs[nn], r);
    }
  }

  /** In every reachable state, a DeviceConfig that is not being deleted, of which nothing is queued or
      undelivered and on which no pass is in flight, has converged. Nothing is assumed about the others: they
      may create, edit and delete at will; nor about other DeviceConfigs, which may be busy. */
  lemma StillConverged(site: Site, run: seq<Action>, nn: Key)
    requires Idempotent(site.defaults) && StoresDesired(site)
    ensures var s := Exec(site, INIT, run);
            Still(s, nn) && nn in s.cl.configs && !s.cl.configs[nn].terminating ==> Done(site, s.cl, nn)
  {
    RunWakes(site, INIT, nn, run);
    var s := Exec(site, INIT, run);
    if Still(s, nn) && nn in s.cl.configs && !s.cl.configs[nn].terminating {
      StillDone(site, s, nn);
    }
  }

  /** So when the whole system is quiescent, every live DeviceConfig has converged. */
  lemma QuiescentConverged(site: Site, run: seq<Action>)
    requires Idempotent(site.defaults) && StoresDesired(site)
    ensures var s := Exec(site, INIT, run);
            Quiescent(s) ==> forall nn :: nn in s.cl.configs && !s.cl.configs[nn].terminating ==> Done(site, s.cl, nn)
  {
    var s := Exec(site, INIT, run);
    forall nn | Quiescent(s) && nn in s.cl.configs && !s.cl.configs[nn].terminating ensures Done(site, s.cl, nn) {
      StillConverged(site, run, nn);
    }
  }
}
