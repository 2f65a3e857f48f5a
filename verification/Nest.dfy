/** When nobody else deletes a child: the metrics DaemonSet never outlives the Module, and until the
    first teardown the children present are a prefix of the order of creation. */
module Nest {
  import opened Api
  import opened Owners
  import opened Cluster
  import opened System
  import opened Guard
  import Finalizers

  /** No finalize pass has ever started for any incarnation of nn. */
  ghost predicate Fresh(s: State, nn: Key) {
    forall u :: (nn, u) !in s.begun
  }

  predicate HasBefore(s: State, nn: Key, r: Role) {
    match r
    case Module => true
    case Scheduler => Has(s.cl, nn, Module)
    case Extension => Has(s.cl, nn, Module) && Has(s.cl, nn, Scheduler)
    case Metrics => Has(s.cl, nn, Module) && Has(s.cl, nn, Scheduler) && Has(s.cl, nn, Extension)
  }

  /** Present, tied to a marked DeviceConfig, not going away, and so are all the ones before it. */
  predicate InPlace(s: State, nn: Key, r: Role) {
    Has(s.cl, nn, r) ==> Guarded(s, nn, r) && !Dying(s, nn, r) && HasBefore(s, nn, r)
  }

  ghost predicate NestObj(s: State, nn: Key) {
    && (Has(s.cl, nn, Metrics) ==> Has(s.cl, nn, Module) && !Dying(s, nn, Module))
    && (Dying(s, nn, Module) ==> nn in s.cl.configs && (nn, s.cl.configs[nn].uid) in s.begun)
    && (Fresh(s, nn) ==> InPlace(s, nn, Module) && InPlace(s, nn, Scheduler) && InPlace(s, nn, Extension)
                         && InPlace(s, nn, Metrics))
  }

  ghost predicate NestPhase(s: State, nn: Key, phase: Phase) {
    && (Setup(phase) && phase.r != Module ==> Has(s.cl, nn, Module))
    && (Fresh(s, nn) && Setup(phase) ==> HasBefore(s, nn, phase.r))
    && (Fresh(s, nn) && phase.Mark? ==>
          !Has(s.cl, nn, Module) && !Has(s.cl, nn, Scheduler) && !Has(s.cl, nn, Extension) && !Has(s.cl, nn, Metrics))
  }

  ghost predicate NestInv(s: State, nn: Key) {
    && Inv(s, nn) && NestObj(s, nn)
    && (s.worker.Busy? && s.worker.nn == nn ==> NestPhase(s, nn, s.worker.phase))
  }

  // ---------------------------------------------------------------- everyone else's steps

  lemma NestNewConfig(s: State, nn: Key, n: Key, fs: seq<string>, spec: ConfigSpec)
    requires NestInv(s, nn)
    ensures NestInv(NewConfig(s, n, fs, spec), nn)
  {
    NewConfigKeeps(s, nn, n, fs, spec);
  }

  lemma NestEditConfig(s: State, nn: Key, n: Key, fs: seq<string>, spec: ConfigSpec)
    requires NestInv(s, nn)
    requires n in s.cl.configs && Finalizers.Marked(s.cl.configs[n].finalizers) ==> Finalizers.Marked(fs)
    ensures NestInv(s.(cl := Or(UpdateConfig(s.cl, n, fs, spec), s.cl)), nn)
  {
    EditConfigKeeps(s, nn, n, fs, spec);
  }

  lemma NestEraseConfig(s: State, nn: Key, n: Key)
    requires NestInv(s, nn)
    ensures NestInv(s.(cl := EraseConfig(s.cl, n)), nn)
  {
    EraseConfigKeeps(s, nn, n);
  }

  lemma NestEditChild(site: Site, s: State, nn: Key, k: ChildKey, obj: Child)
    requires NestInv(s, nn)
    requires k in s.cl.children ==> forall ref :: ref in s.cl.children[k].owners ==> ref in obj.owners
    ensures NestInv(s.(cl := EditChild(site, s.cl, k, obj)), nn)
  {
    EditChildKeeps(site, s, nn, k, obj);
    var cl := EditChild(site, s.cl, k, obj);
    if k.owner != nn || cl == s.cl {
      NestElsewhere(s, s.(cl := cl), nn, k);
    } else if k in cl.children {
      NestReplace(s, s.(cl := cl), nn, k.role, cl.children[k]);
    } else {
      NestErase(s, s.(cl := cl), nn, k.role);
    }
  }

  /** Another DeviceConfig's child has changed, or none. */
  lemma NestElsewhere(s: State, t: State, nn: Key, k: ChildKey)
    requires NestInv(s, nn) && Inv(t, nn) && (k.owner != nn || t.cl == s.cl)
    requires t.cl.configs == s.cl.configs && t.begun == s.begun && t.worker == s.worker
    requires t.cl.children - {k} == s.cl.children - {k}
    ensures NestInv(t, nn)
  {
    forall r: Role ensures Has(t.cl, nn, r) <==> Has(s.cl, nn, r)
                   ensures Has(t.cl, nn, r) ==> t.cl.children[ChildKey(nn, r)] == s.cl.children[ChildKey(nn, r)]
    {
      var j := ChildKey(nn, r);
      assert j != k ==> (j in t.cl.children - {k} <==> j in t.cl.children);
      assert j != k ==> (j in s.cl.children - {k} <==> j in s.cl.children);
    }
  }

  /** A terminating child has gone away. */
  lemma NestErase(s: State, t: State, nn: Key, r: Role)
    requires NestInv(s, nn) && Inv(t, nn) && Dying(s, nn, r)
    requires t.cl.configs == s.cl.configs && t.begun == s.begun && t.worker == s.worker
    requires t.cl.children == s.cl.children - {ChildKey(nn, r)}
    ensures NestInv(t, nn)
  {
  }

  /** A present child is replaced by one that is as terminating as before and no less owned. */
  lemma NestReplace(s: State, t: State, nn: Key, r: Role, o: Child)
    requires NestInv(s, nn) && Inv(t, nn) && Has(s.cl, nn, r)
    requires t.cl.configs == s.cl.configs && t.begun == s.begun && t.worker == s.worker
    requires t.cl.children == s.cl.children[ChildKey(nn, r) := o]
    requires Dying(t, nn, r) == Dying(s, nn, r) && (Owned(s, nn, r) ==> Owned(t, nn, r))
    ensures NestInv(t, nn)
  {
  }

  lemma NestCollect(s: State, nn: Key, k: ChildKey, dead: set<OwnerRef>)
    requires NestInv(s, nn)
    ensures NestInv(s.(cl := CollectChild(s.cl, k, dead)), nn)
  {
    DeleteChildKeeps(s, nn, k);
    if k.owner == nn && Owned(s, nn, k.role) {
      assert !Dangling(s.cl, nn.ns, Ref(nn.name, s.cl.configs[nn].uid), dead);
    }
  }

  lemma NestPrune(s: State, nn: Key, k: ChildKey, dead: set<OwnerRef>)
    requires NestInv(s, nn)
    ensures NestInv(s.(cl := PruneChild(s.cl, k, dead)), nn)
  {
    PruneChildKeeps(s, nn, k, dead);
    var cl := PruneChild(s.cl, k, dead);
    if k.owner == nn && cl != s.cl {
      if Owned(s, nn, k.role) {
        assert !Dangling(s.cl, nn.ns, Ref(nn.name, s.cl.configs[nn].uid), dead);
      }
      NestReplace(s, s.(cl := cl), nn, k.role, cl.children[k]);
    }
  }

  lemma NestQueue(s: State, t: State, nn: Key)
    requires NestInv(s, nn)
    requires t.cl.configs == s.cl.configs && t.cl.children == s.cl.children
    requires t.nextUid == s.nextUid && t.begun == s.begun
    requires t.worker == s.worker || t.worker.Idle? || t.worker.phase.Fetch?
    ensures NestInv(t, nn)
  {
    QueueKeeps(s, t, nn);
  }

  // ---------------------------------------------------------------- the operator's steps

  lemma NestOthersPass(s: State, t: State, nn: Key)
    requires NestInv(s, nn) && s.worker.Busy? && s.worker.nn != nn
    requires SameSlot(s.cl, t.cl, nn)
    requires t.nextUid == s.nextUid && (forall u :: (nn, u) in t.begun <==> (nn, u) in s.begun)
    requires t.worker.Busy? ==> t.worker.nn == s.worker.nn
    ensures NestInv(t, nn)
  {
    OthersPassKeeps(s, t, nn);
    SlotRead(s.cl, t.cl, nn, Module);
    SlotRead(s.cl, t.cl, nn, Scheduler);
    SlotRead(s.cl, t.cl, nn, Extension);
    SlotRead(s.cl, t.cl, nn, Metrics);
  }

  lemma NestLook(site: Site, s: State, nn: Key)
    requires NestInv(s, nn) && s.worker.Busy? && s.worker.nn == nn && !Writes(s.worker.phase)
    ensures NestInv(CallApi(site, s, Fine), nn)
  {
    LookKeeps(site, s, nn);
    match s.worker.phase {
      case Read(cfg, r) => NestRead(site, s, nn, cfg, r);
      case _ =>
    }
  }

  lemma NestRead(site: Site, s: State, nn: Key, cfg: Config, r: Role)
    requires NestInv(s, nn) && s.worker == Busy(nn, Read(cfg, r))
    ensures var p := WorkRead(site, s.cl, nn, cfg, r);
            var t := s.(cl := p.cl, worker := p.worker);
            NestObj(t, nn) && (p.worker.Busy? ==> NestPhase(t, nn, p.worker.phase))
  {
    ReadOutcomes(site, s.cl, nn, cfg, r);
    NestAfterRead(site, s, nn, cfg, r, WorkRead(site, s.cl, nn, cfg, r));
  }

  lemma NestAfterRead(site: Site, s: State, nn: Key, cfg: Config, r: Role, p: Pass)
    requires NestObj(s, nn) && NestPhase(s, nn, Read(cfg, r)) && ReadOutcome(site, s.cl, nn, cfg, r, p)
    ensures var t := s.(cl := p.cl, worker := p.worker);
            NestObj(t, nn) && (p.worker.Busy? ==> NestPhase(t, nn, p.worker.phase))
  {
  }

  /** A child is created, or patched without touching its deletion timestamp. */
  lemma NestPut(s: State, nn: Key, r: Role, o: Child)
    requires Inv(s, nn) && NestObj(s, nn)
    requires o.terminating == Dying(s, nn, r)
    requires r != Module ==> Has(s.cl, nn, Module)
    requires r == Metrics ==> !Dying(s, nn, Module)
    requires Fresh(s, nn) ==> HasBefore(s, nn, r) && Anchored(s, nn) && Ref(nn.name, s.cl.configs[nn].uid) in o.owners
    ensures var t := s.(cl := WriteChild(s.cl, ChildKey(nn, r), Some(o)));
            && NestObj(t, nn) && Has(t.cl, nn, r) && Has(t.cl, nn, Module)
            && (Fresh(t, nn) ==> HasBefore(t, nn, r))
  {
  }

  lemma NestAttempt(site: Site, s: State, nn: Key, phase: Phase)
    requires NestInv(s, nn) && s.worker == Busy(nn, phase) && Writes(phase)
    ensures var reply := Attempt(site, s.cl, nn, phase);
            reply.Some? ==>
              (var t := s.(cl := reply.value);
               && NestObj(t, nn)
               && (phase.Make? || phase.Amend? ==> Has(t.cl, nn, phase.r) && Has(t.cl, nn, Module))
               && (Fresh(s, nn) && (phase.Make? || phase.Amend?) ==> HasBefore(t, nn, phase.r)))
  {
    match phase {
      case Make(cfg, r, obj) =>
        if !Has(s.cl, nn, r) {
          NestPut(s, nn, r, obj.(spec := site.defaults(r, obj.spec), terminating := false));
        }
      case Amend(cfg, r, base, obj) =>
        if Has(s.cl, nn, r) {
          NestPut(s, nn, r, Patched(site, r, s.cl.children[ChildKey(nn, r)], base, obj));
        }
      case DropMetrics(_) => NestDrop(s, nn, Metrics);
      case DropModule(_) => NestDrop(s, nn, Module);
      case _ =>
    }
  }

  lemma NestDrop(s: State, nn: Key, r: Role)
    requires Inv(s, nn) && NestObj(s, nn) && !Fresh(s, nn)
    requires r == Metrics || (r == Module && !Has(s.cl, nn, Metrics))
    requires r == Module && Has(s.cl, nn, Module) ==> (nn, s.cl.configs[nn].uid) in s.begun
    ensures var reply := DeleteChild(s.cl, ChildKey(nn, r)); reply.Some? ==> NestObj(s.(cl := reply.value), nn)
  {
  }

  lemma NestFollow(s: State, nn: Key, phase: Phase, p: Pass, t: State)
    requires NestObj(s, nn) && Writes(phase) && p == Follow(s.cl, nn, phase)
    requires phase.Make? || phase.Amend? ==> Has(s.cl, nn, phase.r) && Has(s.cl, nn, Module)
    requires Fresh(s, nn) && (phase.Make? || phase.Amend?) ==> HasBefore(s, nn, phase.r)
    requires t == s.(cl := p.cl, worker := p.worker)
    ensures NestObj(t, nn) && (t.worker.Busy? ==> NestPhase(t, nn, t.worker.phase))
  {
  }

  lemma NestWrite(site: Site, s: State, nn: Key, fault: Fault)
    requires NestInv(s, nn) && s.worker.Busy? && s.worker.nn == nn && Writes(s.worker.phase)
    ensures NestInv(CallApi(site, s, fault), nn)
  {
    var phase := s.worker.phase;
    var reply := Attempt(site, s.cl, nn, phase);
    WriteKeeps(site, s, nn, fault);
    NestAttempt(site, s, nn, phase);
    WriteOutcomes(site, s, fault);
    if Through(reply, fault) {
      NestFollow(s.(cl := reply.value), nn, phase, Follow(reply.value, nn, phase), CallApi(site, s, fault));
    }
  }

  lemma NestCall(site: Site, s: State, nn: Key, fault: Fault)
    requires NestInv(s, nn)
    ensures NestInv(CallApi(site, s, fault), nn)
  {
    if s.worker.Idle? {
    } else if s.worker.nn != nn {
      WorkStaysHome(site, s.cl, s.worker.nn, s.worker.phase, fault, nn);
      NestOthersPass(s, CallApi(site, s, fault), nn);
    } else if Writes(s.worker.phase) {
      NestWrite(site, s, nn, fault);
    } else if fault.Fine? {
      NestLook(site, s, nn);
    } else {
      NestQueue(s, CallApi(site, s, fault), nn);
    }
  }

  lemma NestStep(site: Site, s: State, nn: Key, a: Action)
    requires NestInv(s, nn) && Undisturbed(s, a)
    ensures NestInv(Apply(site, s, a), nn)
  {
    match a {
      case CreateConfig(n, fs, spec) => NestNewConfig(s, nn, n, fs, spec);
      case EditConfig(n, fs, spec) => NestEditConfig(s, nn, n, fs, spec);
      case DeleteConfig(n) => NestEraseConfig(s, nn, n);
      case OtherCreate(k, obj) =>
      case OtherEdit(k, obj) => NestEditChild(site, s, nn, k, obj);
      case OtherDelete(k) =>
      case Collect(k, dead) => NestCollect(s, nn, k, dead);
      case Prune(k, dead) => NestPrune(s, nn, k, dead);
      case Call(fault) => NestCall(site, s, nn, fault);
      case _ => NestQueue(s, Apply(site, s, a), nn);
    }
  }

  lemma {:induction false} NestRun(site: Site, s: State, nn: Key, run: seq<Action>)
    requires NestInv(s, nn) && UndisturbedRun(site, s, run)
    ensures NestInv(Exec(site, s, run), nn)
    decreases |run|
  {
    if run != [] {
      NestStep(site, s, nn, run[0]);
      NestRun(site, Apply(site, s, run[0]), nn, run[1..]);
    }
  }

  /** Setup and teardown are nested: across creation, interrupted passes, deletion and re-creation
      under the same name, a metrics DaemonSet implies a Module, and one that is not going away. */
  lemma MetricsImplyModule(site: Site, run: seq<Action>, nn: Key)
    requires UndisturbedRun(site, INIT, run)
    ensures var s := Exec(site, INIT, run);
            Has(s.cl, nn, Metrics) ==> Has(s.cl, nn, Module) && !s.cl.children[ChildKey(nn, Module)].terminating
  {
    NestRun(site, INIT, nn, run);
  }

  /** Until the first finalize pass the children present are a prefix of Module, scheduler, extension,
      metrics, whatever calls fail and wherever the operator crashes. */
  lemma ChildrenFormPrefix(site: Site, run: seq<Action>, nn: Key)
    requires UndisturbedRun(site, INIT, run)
    ensures var s := Exec(site, INIT, run);
            (forall u :: (nn, u) !in s.begun) ==>
              forall q, r :: Has(s.cl, nn, r) && Order(q) < Order(r) ==> Has(s.cl, nn, q)
  {
    NestRun(site, INIT, nn, run);
    var s := Exec(site, INIT, run);
    if Fresh(s, nn) {
      forall q, r | Has(s.cl, nn, r) && Order(q) < Order(r) ensures Has(s.cl, nn, q) {
        assert InPlace(s, nn, r);
      }
    }
  }
}
