/** Rest is reached: once the others are still, two turns of the worker on each live DeviceConfig are enough. */
module Liveness {
  import opened Api
  import opened Owners
  import opened Cluster
  import opened System
  import opened Wakeup
  import opened Passes
  import opened Draining
  import opened Separate

  // ---------------------------------------------------------------- passes as runs of the system

  function Calls(faults: seq<Fault>): seq<Action> {
    if faults == [] then [] else [Call(faults[0])] + Calls(faults[1..])
  }

  /** Such a pass is what the system does from Dequeue on when nobody else acts in between. */
  lemma {:induction false} PassIsSystemRun(site: Site, s: State, faults: seq<Fault>)
    ensures var t := Exec(site, s, Calls(faults)); Pass(t.cl, t.worker) == Run(site, Pass(s.cl, s.worker), faults)
    decreases |faults|
  {
    if faults != [] {
      var t := Apply(site, s, Call(faults[0]));
      assert Calls(faults)[0] == Call(faults[0]) && Calls(faults)[1..] == Calls(faults[1..]);
      PassIsSystemRun(site, t, faults[1..]);
      if s.worker.Idle? {
        IdleRunStops(site, Pass(s.cl, s.worker), faults);
      }
    }
  }

  lemma IdleRunStops(site: Site, p: Pass, faults: seq<Fault>)
    requires p.worker.Idle?
    ensures Run(site, p, faults) == p && (faults != [] ==> Run(site, p, faults[1..]) == p)
  {
  }

  /** One turn: the key is delivered and taken from the queue if it is pending, and its pass is carried out. */
  function Turn(site: Site, s: State, nn: Key, clean: seq<Fault>): State {
    Exec(site, Apply(site, Apply(site, s, Deliver(nn)), Dequeue(nn)), Calls(clean))
  }

  /** The notification of nn is taken away. */
  function Heard(cl: Cluster, nn: Key): Cluster {
    cl.(events := cl.events - {nn})
  }

  /** The turn does nothing to a key that is not pending. */
  lemma TurnIsPass(site: Site, s: State, nn: Key, clean: seq<Fault>)
    requires s.worker.Idle?
    ensures var t := Turn(site, s, nn, clean);
            if Pending(s, nn) then
              Pass(t.cl, t.worker) == PassOn(site, Heard(s.cl, nn), nn, clean) && t.queue == s.queue - {nn}
            else Pass(t.cl, t.worker) == Pass(s.cl, s.worker) && t.queue == s.queue
  {
    var s1 := Apply(site, Apply(site, s, Deliver(nn)), Dequeue(nn));
    PassIsSystemRun(site, s1, clean);
    CallsKeepQueue(site, s1, clean);
    if Pending(s, nn) {
      assert nn !in s.cl.events ==> Heard(s.cl, nn).events == s.cl.events;
      assert s1.cl == Heard(s.cl, nn) && s1.worker == Busy(nn, Fetch) && s1.queue == s.queue - {nn};
    } else {
      assert s1 == s;
    }
  }

  lemma {:induction false} CallsKeepQueue(site: Site, s: State, faults: seq<Fault>)
    ensures Exec(site, s, Calls(faults)).queue == s.queue
    decreases |faults|
  {
    if faults != [] {
      assert Calls(faults)[0] == Call(faults[0]) && Calls(faults)[1..] == Calls(faults[1..]);
      CallsKeepQueue(site, Apply(site, s, Call(faults[0])), faults[1..]);
    }
  }

  // ---------------------------------------------------------------- two turns

  /** What the store always satisfies, whatever the others do. */
  ghost predicate StoreSound(site: Site, cl: Cluster) {
    Defaulted(site, cl) && OwnersValid(cl)
  }

  lemma {:induction false} RunStored(site: Site, s: State, run: seq<Action>)
    requires StoreSound(site, s.cl) && Idempotent(site.defaults)
    ensures StoreSound(site, Exec(site, s, run).cl)
    decreases |run|
  {
    if run != [] {
      StepDefaulted(site, s, run[0]);
      StepValid(site, s, run[0]);
      RunStored(site, Apply(site, s, run[0]), run[1..]);
    }
  }

  /** Nothing stands in the way of the DeviceConfig: it is live, no child is blocked, every spec settles. */
  ghost predicate Free(site: Site, cl: Cluster, nn: Key) {
    && nn in cl.configs && !cl.configs[nn].terminating
    && FirstBlocked(cl, nn, None) && AllSettle(site, nn, cl.configs[nn].spec, cl.children)
  }

  lemma FreeConverges(site: Site, cl: Cluster, nn: Key, clean: seq<Fault>)
    requires StoresDesired(site) && StoreSound(site, cl) && Free(site, cl, nn) && Clean(clean)
    ensures var p := PassOn(site, cl, nn, clean);
            p.worker == Idle(false) && forall r: Role :: Converged(site, p.cl, nn, cl.configs[nn], r)
  {
    PassStopsAtBlocked(site, cl, nn, clean, None);
    forall r: Role ensures Settles(site, nn, cl.configs[nn].spec, r, SpecOf(Slot(cl.children, nn, r))) {
      assert Before(r, None);
    }
  }

  /** The first clean pass does all there is to do; another one, after its own notification, changes nothing. */
  lemma PassThenQuiet(site: Site, cl: Cluster, nn: Key, clean: seq<Fault>)
    requires StoresDesired(site) && Idempotent(site.defaults) && StoreSound(site, cl)
    requires Free(site, cl, nn) && Clean(clean)
    ensures var p := PassOn(site, cl, nn, clean);
            && p.worker == Idle(false) && Done(site, p.cl, nn)
            && PassOn(site, Heard(p.cl, nn), nn, clean) == Pass(Heard(p.cl, nn), Idle(false))
  {
    var cfg := cl.configs[nn];
    FreeConverges(site, cl, nn, clean);
    CleanPass(site, nn, cfg, cl, clean);
    SweepSettles(site, nn, cfg, cl.children);
    var p := PassOn(site, cl, nn, clean);
    var q := Heard(p.cl, nn);
    CleanPass(site, nn, cfg, q, clean);
    RunAtRest(site, nn, cfg, Pass(q, Busy(nn, Fetch)), clean);
    MarkedConverged(site, cl, p.cl, nn, cfg);
  }

  /** The finalizer makes no difference to convergence. */
  lemma MarkedConverged(site: Site, cl: Cluster, after: Cluster, nn: Key, cfg: Config)
    requires after.configs == cl.configs[nn := WithFinalizer(cfg)]
    requires forall r: Role :: Converged(site, after, nn, cfg, r)
    ensures Done(site, after, nn)
  {
    forall r: Role ensures Converged(site, after, nn, after.configs[nn], r) {
      assert Converged(site, after, nn, cfg, r);
    }
  }

  lemma HeardDone(site: Site, cl: Cluster, nn: Key)
    requires Done(site, cl, nn)
    ensures Done(site, Heard(cl, nn), nn)
  {
    forall r: Role ensures Converged(site, Heard(cl, nn), nn, cl.configs[nn], r) {
      assert Converged(site, cl, nn, cl.configs[nn], r);
    }
  }

  lemma HeardFree(site: Site, cl: Cluster, nn: Key)
    requires Free(site, cl, nn) && StoreSound(site, cl)
    ensures Free(site, Heard(cl, nn), nn) && StoreSound(site, Heard(cl, nn))
  {
    forall q: Role ensures !Blocked(Heard(cl, nn), nn, q) {
      assert !Blocked(cl, nn, q);
    }
  }

  /** What every reachable state satisfies. */
  ghost predicate Sound(site: Site, s: State, nn: Key) {
    WakeInv(site, s, nn) && StoreSound(site, s.cl)
  }

  lemma TurnSound(site: Site, s: State, nn: Key, clean: seq<Fault>, mm: Key)
    requires Sound(site, s, mm) && Idempotent(site.defaults) && StoresDesired(site)
    ensures Sound(site, Turn(site, s, nn, clean), mm)
  {
    var s1 := Apply(site, s, Deliver(nn));
    var s2 := Apply(site, s1, Dequeue(nn));
    StepWakes(site, s, mm, Deliver(nn));
    StepWakes(site, s1, mm, Dequeue(nn));
    assert StoreSound(site, s2.cl);
    RunWakes(site, s2, mm, Calls(clean));
    RunStored(site, s2, Calls(clean));
  }

  lemma TwoTurns(site: Site, s: State, nn: Key, clean: seq<Fault>)
    requires StoresDesired(site) && Idempotent(site.defaults) && Clean(clean)
    requires s.worker.Idle? && Sound(site, s, nn) && Free(site, s.cl, nn)
    ensures var t := Turn(site, Turn(site, s, nn, clean), nn, clean);
            t.worker.Idle? && !Pending(t, nn) && Done(site, t.cl, nn)
  {
    var s1 := Turn(site, s, nn, clean);
    TurnIsPass(site, s, nn, clean);
    if Pending(s, nn) {
      HeardFree(site, s.cl, nn);
      PassThenQuiet(site, Heard(s.cl, nn), nn, clean);
      HeardDone(site, s1.cl, nn);
    } else {
      StillDone(site, s, nn);
    }
    TurnIsPass(site, s1, nn, clean);
  }

  /** Whatever happened before, once nothing stands in the way and the others are still, two turns of the worker
      leave the DeviceConfig with nothing pending, its finalizer set and its children converged. */
  lemma TwoTurnsSuffice(site: Site, run: seq<Action>, nn: Key, clean: seq<Fault>)
    requires StoresDesired(site) && Idempotent(site.defaults) && Clean(clean)
    requires var s := Exec(site, INIT, run); s.worker.Idle? && Free(site, s.cl, nn)
    ensures var t := Turn(site, Turn(site, Exec(site, INIT, run), nn, clean), nn, clean);
            t.worker.Idle? && !Pending(t, nn) && Done(site, t.cl, nn)
  {
    RunWakes(site, INIT, nn, run);
    RunStored(site, INIT, run);
    TwoTurns(site, Exec(site, INIT, run), nn, clean);
  }

  // ---------------------------------------------------------------- one key does not wake another

  /** A reconcile pass that nobody disturbs wakes no other DeviceConfig. */
  lemma CallWakesSelf(site: Site, nn: Key, cfg: Config, cl: Cluster, phase: Phase, fault: Fault)
    requires InStep(site, nn, cfg, cl, phase) && (phase.Fetch? ==> cl.configs[nn] == cfg) && !cfg.terminating
    ensures var p := Work(site, cl, nn, phase, fault);
            && p.cl.events <= cl.events + {nn}
            && (p.worker.Busy? ==> p.worker.nn == nn && !p.worker.phase.Fetch?
                                   && InStep(site, nn, cfg, p.cl, p.worker.phase))
  {
    if phase.Fetch? {
      FetchInStep(site, nn, cfg, cl);
    } else if phase.Mark? {
      MarkInStep(site, nn, cfg, cl);
    } else if phase.Read? {
      ReadInStep(site, nn, cfg, cl, phase.cfg, phase.r);
      ReadOutcomes(site, cl, nn, phase.cfg, phase.r);
    } else {
      AttemptInStep(site, nn, cfg, cl, phase);
      WriteWakesSelf(site, nn, cfg, cl, phase);
    }
  }

  lemma WriteWakesSelf(site: Site, nn: Key, cfg: Config, cl: Cluster, phase: Phase)
    requires InStep(site, nn, cfg, cl, phase) && (phase.Make? || phase.Amend?)
    ensures var reply := Attempt(site, cl, nn, phase); reply.Some? ==> reply.value.events <= cl.events + {nn}
  {
    var base := if phase.Make? then BLANK else phase.base;
    UpsertControls(base.owners, nn.name, cfg.uid);
    assert Wakes(ChildKey(nn, phase.r), Some(base)) <= {nn};
    assert Wakes(ChildKey(nn, phase.r), Some(phase.obj)) == {nn};
  }

  lemma {:induction false} RunWakesSelf(site: Site, nn: Key, cfg: Config, p: Pass, faults: seq<Fault>)
    requires !cfg.terminating
    requires p.worker.Busy? ==>
               && p.worker.nn == nn && InStep(site, nn, cfg, p.cl, p.worker.phase)
               && (p.worker.phase.Fetch? ==> p.cl.configs[nn] == cfg)
    ensures Run(site, p, faults).cl.events <= p.cl.events + {nn}
    decreases |faults|
  {
    if faults != [] && p.worker.Busy? {
      CallWakesSelf(site, nn, cfg, p.cl, p.worker.phase, faults[0]);
      RunWakesSelf(site, nn, cfg, Work(site, p.cl, nn, p.worker.phase, faults[0]), faults[1..]);
    }
  }

  /** The DeviceConfig is not being deleted, or is gone. */
  predicate Spared(cl: Cluster, nn: Key) {
    nn in cl.configs ==> !cl.configs[nn].terminating
  }

  /** A turn on one key changes nothing about another: neither its objects, nor whether it is pending. */
  lemma TurnElsewhere(site: Site, s: State, nn: Key, clean: seq<Fault>, mm: Key)
    requires s.worker.Idle? && Clean(clean) && Spared(s.cl, nn) && mm != nn
    ensures var t := Turn(site, s, nn, clean);
            SameSlot(s.cl, t.cl, mm) && (Pending(t, mm) <==> Pending(s, mm))
  {
    TurnIsPass(site, s, nn, clean);
    if Pending(s, nn) {
      var cl := Heard(s.cl, nn);
      RunStaysHome(site, Pass(cl, Busy(nn, Fetch)), nn, clean, mm);
      if nn in cl.configs {
        RunWakesSelf(site, nn, cl.configs[nn], Pass(cl, Busy(nn, Fetch)), clean);
      } else {
        RunCalls(site, cl, nn, Fetch, clean);
      }
      RunKeepsNews(site, Pass(cl, Busy(nn, Fetch)), nn, clean);
      Silent(cl, s.cl, cl, cl, mm);
      SlotTransitive(s.cl, cl, Turn(site, s, nn, clean).cl, mm);
    }
  }

  lemma {:induction false} RunKeepsNews(site: Site, p: Pass, nn: Key, faults: seq<Fault>)
    requires p.worker.Busy? ==> p.worker.nn == nn
    ensures p.cl.events <= Run(site, p, faults).cl.events
    decreases |faults|
  {
    if faults != [] && p.worker.Busy? {
      CallIsLocal(site, p.cl, p.cl, nn, p.worker.phase, faults[0]);
      WorkNames(site, p.cl, nn, p.worker.phase, faults[0]);
      RunKeepsNews(site, Work(site, p.cl, nn, p.worker.phase, faults[0]), nn, faults[1..]);
    }
  }

  /** A turn ends with the worker idle and, on a key whose DeviceConfig is gone, with nothing pending. */
  lemma TurnEnds(site: Site, s: State, nn: Key, clean: seq<Fault>)
    requires s.worker.Idle? && Clean(clean) && Spared(s.cl, nn)
    ensures var t := Turn(site, s, nn, clean);
            && t.worker.Idle? && t.cl.configs.Keys == s.cl.configs.Keys && Spared(t.cl, nn)
            && (nn !in s.cl.configs ==> !Pending(t, nn))
  {
    TurnIsPass(site, s, nn, clean);
    var cl := Heard(s.cl, nn);
    if nn in s.cl.configs {
      CleanPass(site, nn, s.cl.configs[nn], cl, clean);
    } else {
      RunCalls(site, cl, nn, Fetch, clean);
    }
  }

  // ---------------------------------------------------------------- the whole system

  /** Two turns for each key, one key after the other. */
  function AllTurns(site: Site, s: State, keys: seq<Key>, clean: seq<Fault>): State
    decreases |keys|
  {
    if keys == [] then s
    else AllTurns(site, Turn(site, Turn(site, s, keys[0], clean), keys[0], clean), keys[1..], clean)
  }

  predicate Distinct(keys: seq<Key>) {
    forall i, j :: 0 <= i < j < |keys| ==> keys[i] != keys[j]
  }

  /** Keys yet to have their turns are free or gone; all others have converged and have nothing pending. */
  ghost predicate Progress(site: Site, s: State, keys: seq<Key>) {
    && s.worker.Idle?
    && (forall nn :: Sound(site, s, nn))
    && (forall nn :: nn in keys && nn in s.cl.configs ==> Free(site, s.cl, nn))
    && (forall nn :: nn !in keys ==> !Pending(s, nn) && (nn in s.cl.configs ==> Done(site, s.cl, nn)))
  }

  lemma FreeSlot(site: Site, a: Cluster, b: Cluster, nn: Key)
    requires SameSlot(a, b, nn) && Free(site, a, nn)
    ensures Free(site, b, nn)
  {
    assert ConfigAt(a, nn) == ConfigAt(b, nn);
    forall r: Role ensures Slot(a.children, nn, r) == Slot(b.children, nn, r) {
      SlotRead(a, b, nn, r);
    }
    forall r: Role ensures !Blocked(b, nn, r) {
      assert !Blocked(a, nn, r);
    }
  }

  lemma DoneSlot(site: Site, a: Cluster, b: Cluster, nn: Key)
    requires SameSlot(a, b, nn) && Done(site, a, nn)
    ensures Done(site, b, nn)
  {
    assert ConfigAt(a, nn) == ConfigAt(b, nn);
    forall r: Role ensures Converged(site, b, nn, b.configs[nn], r) {
      assert Converged(site, a, nn, a.configs[nn], r);
      SlotRead(a, b, nn, r);
    }
  }

  /** Both turns on one key, seen from another. */
  lemma TwoTurnsElsewhere(site: Site, s: State, nn: Key, clean: seq<Fault>, mm: Key)
    requires s.worker.Idle? && Clean(clean) && Spared(s.cl, nn) && mm != nn
    ensures var t := Turn(site, Turn(site, s, nn, clean), nn, clean);
            && (Pending(t, mm) <==> Pending(s, mm)) && (mm in t.cl.configs <==> mm in s.cl.configs)
            && (Free(site, s.cl, mm) ==> Free(site, t.cl, mm)) && (Done(site, s.cl, mm) ==> Done(site, t.cl, mm))
  {
    var s1 := Turn(site, s, nn, clean);
    var t := Turn(site, s1, nn, clean);
    TurnEnds(site, s, nn, clean);
    TurnElsewhere(site, s, nn, clean, mm);
    TurnElsewhere(site, s1, nn, clean, mm);
    SlotTransitive(s.cl, s1.cl, t.cl, mm);
    assert ConfigAt(s.cl, mm) == ConfigAt(t.cl, mm);
    if Free(site, s.cl, mm) { FreeSlot(site, s.cl, t.cl, mm); }
    if Done(site, s.cl, mm) { DoneSlot(site, s.cl, t.cl, mm); }
  }

  /** Both turns on the key at hand. */
  lemma TwoTurnsHere(site: Site, s: State, nn: Key, clean: seq<Fault>)
    requires StoresDesired(site) && Idempotent(site.defaults) && Clean(clean)
    requires s.worker.Idle? && Sound(site, s, nn) && (nn in s.cl.configs ==> Free(site, s.cl, nn))
    ensures var t := Turn(site, Turn(site, s, nn, clean), nn, clean);
            && t.worker.Idle? && !Pending(t, nn) && t.cl.configs.Keys == s.cl.configs.Keys
            && (nn in t.cl.configs ==> Done(site, t.cl, nn))
  {
    TurnEnds(site, s, nn, clean);
    TurnEnds(site, Turn(site, s, nn, clean), nn, clean);
    if nn in s.cl.configs {
      TwoTurns(site, s, nn, clean);
    }
  }

  lemma KeySettles(site: Site, s: State, keys: seq<Key>, clean: seq<Fault>)
    requires StoresDesired(site) && Idempotent(site.defaults) && Clean(clean)
    requires keys != [] && Distinct(keys) && Progress(site, s, keys)
    ensures var t := Turn(site, Turn(site, s, keys[0], clean), keys[0], clean);
            Progress(site, t, keys[1..]) && t.cl.configs.Keys == s.cl.configs.Keys
  {
    var nn := keys[0];
    var s1 := Turn(site, s, nn, clean);
    var t := Turn(site, s1, nn, clean);
    TwoTurnsHere(site, s, nn, clean);
    forall mm ensures Sound(site, t, mm) {
      TurnSound(site, s, nn, clean, mm);
      TurnSound(site, s1, nn, clean, mm);
    }
    forall mm | mm != nn
      ensures mm in keys[1..] && mm in t.cl.configs ==> Free(site, t.cl, mm)
      ensures mm !in keys[1..] ==> !Pending(t, mm) && (mm in t.cl.configs ==> Done(site, t.cl, mm))
    {
      assert mm in keys <==> mm in keys[1..];
      TwoTurnsElsewhere(site, s, nn, clean, mm);
    }
    assert nn !in keys[1..];
  }

  lemma {:induction false} KeysSettle(site: Site, s: State, keys: seq<Key>, clean: seq<Fault>)
    requires StoresDesired(site) && Idempotent(site.defaults) && Clean(clean)
    requires Distinct(keys) && Progress(site, s, keys)
    ensures var t := AllTurns(site, s, keys, clean);
            Progress(site, t, []) && t.cl.configs.Keys == s.cl.configs.Keys
    decreases |keys|
  {
    if keys != [] {
      KeySettles(site, s, keys, clean);
      KeysSettle(site, Turn(site, Turn(site, s, keys[0], clean), keys[0], clean), keys[1..], clean);
    }
  }

  /** The whole system comes to rest: after any run, once every DeviceConfig is free and the others are still,
      two turns for each key, in any order, leave nothing queued or undelivered, and all DeviceConfigs are
      still there and have converged. */
  lemma EverythingComesToRest(site: Site, run: seq<Action>, keys: seq<Key>, clean: seq<Fault>)
    requires StoresDesired(site) && Idempotent(site.defaults) && Clean(clean) && Distinct(keys)
    requires var s := Exec(site, INIT, run);
             && s.worker.Idle?
             && (forall nn :: nn in s.cl.configs ==> Free(site, s.cl, nn))
             && (forall nn :: nn in s.cl.configs || Pending(s, nn) ==> nn in keys)
    ensures var s := Exec(site, INIT, run);
            var t := AllTurns(site, s, keys, clean);
            && Quiescent(t) && t.cl.configs.Keys == s.cl.configs.Keys
            && forall nn :: nn in t.cl.configs ==> Done(site, t.cl, nn)
  {
    var s := Exec(site, INIT, run);
    forall nn ensures Sound(site, s, nn) {
      RunWakes(site, INIT, nn, run);
      RunStored(site, INIT, run);
    }
    KeysSettle(site, s, keys, clean);
    var t := AllTurns(site, s, keys, clean);
    forall nn ensures nn !in t.cl.events && nn !in t.queue {
      assert nn !in [] && !Pending(t, nn);
    }
  }
}
