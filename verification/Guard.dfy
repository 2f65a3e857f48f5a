/** The finalizer guards the Module and the metrics DaemonSet, at every API call of every polite run,
    and teardown takes them down in order before it takes the finalizer off. */
module Guard {
  import opened Api
  import opened Owners
  import opened Cluster
  import opened System
  import Finalizers

  /** The DeviceConfig exists and carries the operator's finalizer. */
  predicate Anchored(s: State, nn: Key) {
    nn in s.cl.configs && Finalizers.Marked(s.cl.configs[nn].finalizers)
  }

  /** The child carries a controller reference to the present incarnation of its DeviceConfig. */
  predicate Owned(s: State, nn: Key, r: Role) {
    Has(s.cl, nn, r) && nn in s.cl.configs &&
    Ref(nn.name, s.cl.configs[nn].uid) in s.cl.children[ChildKey(nn, r)].owners
  }

  predicate Guarded(s: State, nn: Key, r: Role) {
    Has(s.cl, nn, r) ==> Anchored(s, nn) && Owned(s, nn, r)
  }

  ghost predicate History(s: State, nn: Key) {
    && (nn in s.cl.configs ==> s.cl.configs[nn].uid < s.nextUid)
    && (nn in s.cl.configs && s.cl.configs[nn].terminating ==> s.cl.configs[nn].finalizers != [])
    && (forall u :: (nn, u) in s.begun ==> u < s.nextUid)
    && (nn in s.cl.configs ==>
          var c := s.cl.configs[nn];
          forall u :: (nn, u) in s.begun ==> u < c.uid || (u == c.uid && c.terminating))
  }

  /** The pass works on the present incarnation, which cannot go away under it. */
  predicate Holds(s: State, nn: Key, cfg: Config) {
    Anchored(s, nn) && s.cl.configs[nn].uid == cfg.uid
  }

  ghost predicate PhaseInv(s: State, nn: Key, phase: Phase) {
    && (phase.Mark? ==>
          && !Has(s.cl, nn, Module) && !Has(s.cl, nn, Metrics)
          && !Finalizers.Marked(phase.cfg.finalizers)
          && phase.cfg.uid < s.nextUid
          && (nn in s.cl.configs ==> phase.cfg.uid <= s.cl.configs[nn].uid)
          && (forall u :: (nn, u) in s.begun ==> u < phase.cfg.uid))
    && (Setup(phase) ==> Holds(s, nn, phase.cfg) && (nn, phase.cfg.uid) !in s.begun)
    && (phase.Make? || phase.Amend? ==> Ref(nn.name, phase.cfg.uid) in phase.obj.owners)
    && (Teardown(phase) ==>
          && (nn, phase.cfg.uid) in s.begun
          && (if Finalizers.Marked(phase.cfg.finalizers) then Holds(s, nn, phase.cfg)
              else !Has(s.cl, nn, Module) && !Has(s.cl, nn, Metrics)))
    && (phase.ReadModule? || phase.DropModule? || phase.Unmark? ==> !Has(s.cl, nn, Metrics))
    && (phase.Unmark? ==> !Has(s.cl, nn, Module))
  }

  predicate Dying(s: State, nn: Key, r: Role) {
    Has(s.cl, nn, r) && s.cl.children[ChildKey(nn, r)].terminating
  }

  /** A terminating child waits for finalizers of its own. */
  predicate Lingers(s: State, nn: Key, r: Role) {
    Dying(s, nn, r) ==> s.cl.children[ChildKey(nn, r)].finalizers != []
  }

  ghost predicate ObjInv(s: State, nn: Key) {
    && History(s, nn)
    && Guarded(s, nn, Module) && Guarded(s, nn, Metrics)
    && Lingers(s, nn, Module) && Lingers(s, nn, Metrics)
  }

  ghost predicate Inv(s: State, nn: Key) {
    && ObjInv(s, nn)
    && (s.worker.Busy? && s.worker.nn == nn ==> PhaseInv(s, nn, s.worker.phase))
  }

  // ---------------------------------------------------------------- everyone else's steps

  lemma NewConfigKeeps(s: State, nn: Key, n: Key, fs: seq<string>, spec: ConfigSpec)
    requires Inv(s, nn)
    ensures Inv(NewConfig(s, n, fs, spec), nn)
  {
  }

  lemma EditConfigKeeps(s: State, nn: Key, n: Key, fs: seq<string>, spec: ConfigSpec)
    requires Inv(s, nn)
    requires n in s.cl.configs && Finalizers.Marked(s.cl.configs[n].finalizers) ==> Finalizers.Marked(fs)
    ensures Inv(s.(cl := Or(UpdateConfig(s.cl, n, fs, spec), s.cl)), nn)
  {
  }

  lemma EraseConfigKeeps(s: State, nn: Key, n: Key)
    requires Inv(s, nn)
    ensures Inv(s.(cl := EraseConfig(s.cl, n)), nn)
  {
  }

  lemma EditChildKeeps(site: Site, s: State, nn: Key, k: ChildKey, obj: Child)
    requires Inv(s, nn)
    requires k in s.cl.children ==> forall ref :: ref in s.cl.children[k].owners ==> ref in obj.owners
    ensures Inv(s.(cl := EditChild(site, s.cl, k, obj)), nn)
  {
  }

  lemma DeleteChildKeeps(s: State, nn: Key, k: ChildKey)
    requires Inv(s, nn)
    ensures Inv(s.(cl := Or(DeleteChild(s.cl, k), s.cl)), nn)
  {
  }

  lemma PruneChildKeeps(s: State, nn: Key, k: ChildKey, dead: set<OwnerRef>)
    requires Inv(s, nn)
    ensures Inv(s.(cl := PruneChild(s.cl, k, dead)), nn)
  {
    if k.owner == nn && Owned(s, nn, k.role) {
      assert !Dangling(s.cl, nn.ns, Ref(nn.name, s.cl.configs[nn].uid), dead);
    }
  }

  /** Only the objects matter, not the queue; a worker that is idle or starts afresh is fine. */
  lemma QueueKeeps(s: State, t: State, nn: Key)
    requires Inv(s, nn)
    requires t.cl.configs == s.cl.configs && t.cl.children == s.cl.children
    requires t.nextUid == s.nextUid && t.begun == s.begun
    requires t.worker == s.worker || t.worker.Idle? || t.worker.phase.Fetch?
    ensures Inv(t, nn)
  {
  }

  // ---------------------------------------------------------------- the operator's steps

  /** A pass on another DeviceConfig does not concern this one. */
  lemma OthersPassKeeps(s: State, t: State, nn: Key)
    requires Inv(s, nn) && s.worker.Busy? && s.worker.nn != nn
    requires SameSlot(s.cl, t.cl, nn)
    requires t.nextUid == s.nextUid && (forall u :: (nn, u) in t.begun <==> (nn, u) in s.begun)
    requires t.worker.Busy? ==> t.worker.nn == s.worker.nn
    ensures Inv(t, nn)
  {
    assert forall r :: Has(t.cl, nn, r) <==> Has(s.cl, nn, r);
  }

  lemma LookKeeps(site: Site, s: State, nn: Key)
    requires Inv(s, nn) && s.worker.Busy? && s.worker.nn == nn && !Writes(s.worker.phase)
    ensures Inv(CallApi(site, s, Fine), nn)
  {
    var phase := s.worker.phase;
    var p := WorkLook(site, s.cl, nn, phase);
    match phase {
      case Fetch =>
      case Read(cfg, r) => ReadOutcomes(site, s.cl, nn, cfg, r);
      case ReadMetrics(cfg) =>
      case ReadModule(cfg) =>
    }
  }

  lemma MarkKeeps(s: State, nn: Key, cfg: Config)
    requires ObjInv(s, nn) && PhaseInv(s, nn, Mark(cfg))
    ensures var reply := PatchFinalizers(s.cl, nn, cfg, Finalizers.Add(cfg.finalizers));
            reply.Some? ==>
              (var t := s.(cl := reply.value);
               ObjInv(t, nn) && Anchored(t, nn) && PhaseInv(t, nn, Read(t.cl.configs[nn], Module)))
  {
  }

  lemma MakeKeeps(site: Site, s: State, nn: Key, phase: Phase)
    requires ObjInv(s, nn) && PhaseInv(s, nn, phase) && phase.Make?
    ensures var reply := Attempt(site, s.cl, nn, phase);
            reply.Some? ==>
              (var t := s.(cl := reply.value); ObjInv(t, nn) && PhaseInv(t, nn, Read(phase.cfg, phase.r)))
  {
  }

  lemma AmendKeeps(site: Site, s: State, nn: Key, phase: Phase)
    requires ObjInv(s, nn) && PhaseInv(s, nn, phase) && phase.Amend?
    ensures var reply := Attempt(site, s.cl, nn, phase);
            reply.Some? ==>
              (var t := s.(cl := reply.value); ObjInv(t, nn) && PhaseInv(t, nn, Read(phase.cfg, phase.r)))
  {
  }

  lemma DropKeeps(site: Site, s: State, nn: Key, phase: Phase)
    requires ObjInv(s, nn) && PhaseInv(s, nn, phase)
    requires phase.DropMetrics? || phase.DropModule? || phase.Unmark?
    ensures var reply := Attempt(site, s.cl, nn, phase);
            reply.Some? ==> ObjInv(s.(cl := reply.value), nn)
  {
  }

  lemma AttemptKeeps(site: Site, s: State, nn: Key, phase: Phase)
    requires ObjInv(s, nn) && PhaseInv(s, nn, phase) && Writes(phase)
    ensures var reply := Attempt(site, s.cl, nn, phase);
            reply.Some? ==>
              (var t := s.(cl := reply.value);
               && ObjInv(t, nn)
               && (phase.Mark? ==> Anchored(t, nn) && PhaseInv(t, nn, Read(t.cl.configs[nn], Module)))
               && (phase.Make? || phase.Amend? ==> PhaseInv(t, nn, Read(phase.cfg, phase.r))))
  {
    match phase {
      case Mark(cfg) => MarkKeeps(s, nn, cfg);
      case Make(_, _, _) => MakeKeeps(site, s, nn, phase);
      case Amend(_, _, _, _) => AmendKeeps(site, s, nn, phase);
      case _ => DropKeeps(site, s, nn, phase);
    }
  }

  lemma FollowKeeps(s: State, nn: Key, phase: Phase, p: Pass, t: State)
    requires ObjInv(s, nn) && Writes(phase) && p == Follow(s.cl, nn, phase)
    requires phase.Mark? ==> Anchored(s, nn) && PhaseInv(s, nn, Read(s.cl.configs[nn], Module))
    requires phase.Make? || phase.Amend? ==> PhaseInv(s, nn, Read(phase.cfg, phase.r))
    requires t == s.(cl := p.cl, worker := p.worker)
    ensures Inv(t, nn)
  {
  }

  lemma WriteKeeps(site: Site, s: State, nn: Key, fault: Fault)
    requires Inv(s, nn) && s.worker.Busy? && s.worker.nn == nn && Writes(s.worker.phase)
    ensures Inv(CallApi(site, s, fault), nn)
  {
    var phase := s.worker.phase;
    var reply := Attempt(site, s.cl, nn, phase);
    WriteOutcomes(site, s, fault);
    AttemptKeeps(site, s, nn, phase);
    if Through(reply, fault) {
      FollowKeeps(s.(cl := reply.value), nn, phase, Follow(reply.value, nn, phase), CallApi(site, s, fault));
    } else {
      var r := s.(cl := if reply.Some? && fault == Lost(true) then reply.value else s.cl, worker := Idle(true));
      QueueKeeps(r, CallApi(site, s, fault), nn);
    }
  }

  /** The operator's next API call, whatever its fate. */
  lemma CallKeeps(site: Site, s: State, nn: Key, fault: Fault)
    requires Inv(s, nn)
    ensures Inv(CallApi(site, s, fault), nn)
  {
    if s.worker.Idle? {
    } else if s.worker.nn != nn {
      WorkStaysHome(site, s.cl, s.worker.nn, s.worker.phase, fault, nn);
      OthersPassKeeps(s, CallApi(site, s, fault), nn);
    } else if Writes(s.worker.phase) {
      WriteKeeps(site, s, nn, fault);
    } else if fault.Fine? {
      LookKeeps(site, s, nn);
    } else {
      QueueKeeps(s, CallApi(site, s, fault), nn);
    }
  }

  lemma StepKeeps(site: Site, s: State, nn: Key, a: Action)
    requires Inv(s, nn) && Polite(s, a)
    ensures Inv(Apply(site, s, a), nn)
  {
    match a {
      case CreateConfig(n, fs, spec) => NewConfigKeeps(s, nn, n, fs, spec);
      case EditConfig(n, fs, spec) => EditConfigKeeps(s, nn, n, fs, spec);
      case DeleteConfig(n) => EraseConfigKeeps(s, nn, n);
      case OtherCreate(k, obj) =>
      case OtherEdit(k, obj) => EditChildKeeps(site, s, nn, k, obj);
      case OtherDelete(k) => DeleteChildKeeps(s, nn, k);
      case Collect(k, dead) => DeleteChildKeeps(s, nn, k);
      case Prune(k, dead) => PruneChildKeeps(s, nn, k, dead);
      case Call(fault) => CallKeeps(site, s, nn, fault);
      case _ => QueueKeeps(s, Apply(site, s, a), nn);
    }
  }

  lemma {:induction false} RunKeeps(site: Site, s: State, nn: Key, run: seq<Action>)
    requires Inv(s, nn) && PoliteRun(site, s, run)
    ensures Inv(Exec(site, s, run), nn)
    decreases |run|
  {
    if run != [] {
      StepKeeps(site, s, nn, run[0]);
      RunKeeps(site, Apply(site, s, run[0]), nn, run[1..]);
    }
  }

  /** At every API call of every polite run, with lost replies, crashes and deletions in mid-pass: a
      Module or a metrics DaemonSet implies that its DeviceConfig exists with the finalizer, and that the
      child has a controller reference to this very incarnation. */
  lemma FinalizerGuards(site: Site, run: seq<Action>, nn: Key)
    requires PoliteRun(site, INIT, run)
    ensures var s := Exec(site, INIT, run);
            Has(s.cl, nn, Module) || Has(s.cl, nn, Metrics) ==>
              && nn in s.cl.configs && Finalizers.Marked(s.cl.configs[nn].finalizers)
              && (forall r | r == Module || r == Metrics :: Has(s.cl, nn, r) ==>
                    Ref(nn.name, s.cl.configs[nn].uid) in s.cl.children[ChildKey(nn, r)].owners)
  {
    RunKeeps(site, INIT, nn, run);
  }

  /** Nobody but the operator takes the finalizer off or brings a child into being. */
  lemma OthersOrderly(site: Site, s: State, a: Action, nn: Key, r: Role)
    requires Polite(s, a) && !a.Call?
    ensures Anchored(s, nn) ==> Anchored(Apply(site, s, a), nn)
    ensures Has(Apply(site, s, a).cl, nn, r) ==> Has(s.cl, nn, r)
  {
  }

  lemma AttemptOrderly(site: Site, s: State, nn: Key, phase: Phase, r: Role)
    requires Writes(phase)
    ensures var reply := Attempt(site, s.cl, nn, phase);
            reply.Some? ==>
              (var t := s.(cl := reply.value);
               && (Anchored(s, nn) && !Anchored(t, nn) ==> phase.Unmark? || phase.Mark?)
               && (phase.Mark? ==> Anchored(t, nn) || Finalizers.Marked(phase.cfg.finalizers))
               && (!Has(s.cl, nn, r) && Has(t.cl, nn, r) ==> phase.Make? && phase.r == r))
  {
  }

  lemma CallOrderly(site: Site, s: State, fault: Fault, nn: Key, r: Role)
    requires Inv(s, nn) && s.worker.Busy? && s.worker.nn == nn
    ensures var t := CallApi(site, s, fault);
            && (Anchored(s, nn) && !Anchored(t, nn) ==> s.worker.phase.Unmark?)
            && (!Has(s.cl, nn, r) && Has(t.cl, nn, r) ==> s.worker.phase.Make? && s.worker.phase.r == r)
  {
    if Writes(s.worker.phase) {
      AttemptOrderly(site, s, nn, s.worker.phase, r);
    }
  }

  /** Teardown order over every polite run: when the operator deletes the Module the metrics DaemonSet
      is gone altogether; when the finalizer comes off, it is the operator that takes it off, and
      Module and DaemonSet are both gone; and whoever brings a child into being is a reconcile pass on
      an incarnation that no finalize pass has started on. */
  lemma TeardownOrder(site: Site, run: seq<Action>, a: Action, nn: Key, r: Role)
    requires PoliteRun(site, INIT, run) && Polite(Exec(site, INIT, run), a)
    ensures var s := Exec(site, INIT, run);
            var t := Apply(site, s, a);
            var at := if s.worker.Busy? && s.worker.nn == nn && a.Call? then Some(s.worker.phase) else None;
            && (at.Some? && at.value.DropModule? ==> !Has(s.cl, nn, Metrics))
            && (Anchored(s, nn) && !Anchored(t, nn) ==>
                  at.Some? && at.value.Unmark? && !Has(s.cl, nn, Module) && !Has(s.cl, nn, Metrics))
            && (!Has(s.cl, nn, r) && Has(t.cl, nn, r) ==>
                  at.Some? && at.value.Make? && at.value.r == r && (nn, at.value.cfg.uid) !in s.begun)
  {
    var s := Exec(site, INIT, run);
    RunKeeps(site, INIT, nn, run);
    if !a.Call? {
      OthersOrderly(site, s, a, nn, r);
    } else if s.worker.Busy? && s.worker.nn == nn {
      CallOrderly(site, s, a.fault, nn, r);
    } else if s.worker.Busy? {
      var t := Apply(site, s, a);
      WorkStaysHome(site, s.cl, s.worker.nn, s.worker.phase, a.fault, nn);
      assert ConfigAt(s.cl, nn) == ConfigAt(t.cl, nn);
      assert ChildAt(s.cl.children, ChildKey(nn, r)) == ChildAt(t.cl.children, ChildKey(nn, r));
    }
  }
}
