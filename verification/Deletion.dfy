/** When a deletion finishes. Children are deleted by name, but only the controller of a child hears of it: so
    the owner references decide whether the finalizer ever comes off, and in polite runs it always does. */
module Deletion {
  import opened Api
  import opened Cluster
  import opened System
  import opened Wakeup
  import opened Guard
  import opened Draining
  import opened Passes
  import opened Liveness
  import opened TeardownBound

  // ---------------------------------------------------------------- rounds

  /** KMM, or whoever holds a finalizer on a terminating child, lets go of it. */
  function LetGo(site: Site, s: State, nn: Key, r: Role): State {
    var k := ChildKey(nn, r);
    if Dying(s, nn, r) then Apply(site, s, OtherEdit(k, s.cl.children[k].(finalizers := []))) else s
  }

  function LetBothGo(site: Site, s: State, nn: Key): State {
    LetGo(site, LetGo(site, s, nn, Metrics), nn, Module)
  }

  /** What is terminating goes away, then the worker has its turn. */
  function TeardownRound(site: Site, s: State, nn: Key, clean: seq<Fault>): State {
    Turn(site, LetBothGo(site, s, nn), nn, clean)
  }

  function TeardownRounds(site: Site, s: State, nn: Key, clean: seq<Fault>, n: nat): State
    decreases n
  {
    if n == 0 then s else TeardownRounds(site, TeardownRound(site, s, nn, clean), nn, clean, n - 1)
  }

  // ---------------------------------------------------------------- the condition

  /** The child's events wake the DeviceConfig. */
  predicate Mine(s: State, nn: Key, r: Role) {
    ControlledBy(ChildAt(s.cl.children, ChildKey(nn, r)), nn)
  }

  /** The child has yet to be deleted. */
  predicate Standing(s: State, nn: Key, r: Role) {
    Has(s.cl, nn, r) && !Dying(s, nn, r)
  }

  /** The next finalize pass will come: one is pending, or a draining child will report its end. */
  predicate Roused(s: State, nn: Key) {
    || Pending(s, nn)
    || (Dying(s, nn, Metrics) && Mine(s, nn, Metrics))
    || (Dying(s, nn, Module) && Mine(s, nn, Module))
  }

  /** The next finalize pass will come, and whichever of Module and DaemonSet has yet to be deleted is
      controlled by the DeviceConfig. */
  predicate WillFinish(s: State, nn: Key) {
    && Roused(s, nn)
    && (Standing(s, nn, Metrics) ==> Mine(s, nn, Metrics))
    && (Standing(s, nn, Module) ==> Mine(s, nn, Module))
  }

  // ---------------------------------------------------------------- one round

  lemma LetGoDrains(site: Site, s: State, nn: Key, r: Role)
    requires OwnersValid(s.cl)
    ensures var t := LetGo(site, s, nn, r);
            && t.cl == DrainChild(s.cl, nn, r) && t.worker == s.worker && t.queue == s.queue && OwnersValid(t.cl)
            && (Pending(t, nn) <==> Pending(s, nn) || (Dying(s, nn, r) && Mine(s, nn, r)))
            && (Has(t.cl, nn, r) <==> Standing(s, nn, r))
            && forall q: Role :: q != r || !Dying(s, nn, r) ==>
                 ChildAt(t.cl.children, ChildKey(nn, q)) == ChildAt(s.cl.children, ChildKey(nn, q))
  {
  }

  lemma BothDrain(site: Site, s: State, nn: Key)
    requires OwnersValid(s.cl)
    ensures var t := LetBothGo(site, s, nn);
            && t.cl == Drain(s.cl, nn) && t.worker == s.worker && OwnersValid(t.cl)
            && (Pending(t, nn) <==> Roused(s, nn))
            && (Has(t.cl, nn, Metrics) <==> Standing(s, nn, Metrics))
            && (Has(t.cl, nn, Module) <==> Standing(s, nn, Module))
            && (Has(t.cl, nn, Metrics) ==> (Mine(t, nn, Metrics) <==> Mine(s, nn, Metrics)))
            && (Has(t.cl, nn, Module) ==> (Mine(t, nn, Module) <==> Mine(s, nn, Module)))
  {
    var s1 := LetGo(site, s, nn, Metrics);
    LetGoDrains(site, s, nn, Metrics);
    LetGoDrains(site, s1, nn, Module);
    assert Dying(s1, nn, Module) <==> Dying(s, nn, Module);
    assert Mine(s1, nn, Module) <==> Mine(s, nn, Module);
  }

  /** The turn of a DeviceConfig that is held, when nothing is draining: nothing, or the one write that is due. */
  lemma CalmTurn(site: Site, s: State, nn: Key, clean: seq<Fault>)
    requires s.worker.Idle? && Clean(clean) && Held(s.cl, nn) && Calm(s.cl, nn)
    ensures var t := Turn(site, s, nn, clean);
            var reply := Attempt(site, Heard(s.cl, nn), nn, FinalPhase(s.cl, nn));
            && t.worker.Idle?
            && (!Pending(s, nn) ==> t.cl == s.cl && t.queue == s.queue)
            && (Pending(s, nn) ==> reply == Some(t.cl) && t.queue == s.queue - {nn})
            && (Pending(s, nn) ==> (Held(t.cl, nn) || Released(t.cl, nn))
                                   && Left(Drain(t.cl, nn), nn) + 1 == Left(s.cl, nn))
  {
    var cl := Heard(s.cl, nn);
    TurnIsPass(site, s, nn, clean);
    LeftObjects(s.cl, cl, nn);
    FinalWrite(site, cl, nn);
    StageEnds(site, cl, nn, Fetch, clean);
  }

  /** After its deletion a child is gone or draining, and its DeviceConfig is roused again exactly when it
      controls the child. */
  lemma DropRouses(s: State, t: State, nn: Key, r: Role)
    requires r == Metrics || r == Module
    requires Standing(s, nn, r) && Some(t.cl) == DeleteChild(Heard(s.cl, nn), ChildKey(nn, r))
    requires t.queue == s.queue - {nn}
    ensures !Standing(t, nn, r) && (Pending(t, nn) <==> Mine(s, nn, r))
    ensures Dying(t, nn, r) && Mine(t, nn, r) ==> Mine(s, nn, r)
    ensures forall q: Role :: q != r ==>
              ChildAt(t.cl.children, ChildKey(nn, q)) == ChildAt(s.cl.children, ChildKey(nn, q))
  {
    DeleteWakesIff(s.(cl := Heard(s.cl, nn), queue := s.queue - {nn}), nn, r);
  }

  /** When nothing is draining. */
  predicate CalmFinish(s: State, nn: Key) {
    && Pending(s, nn)
    && (Has(s.cl, nn, Metrics) ==> Mine(s, nn, Metrics))
    && (Has(s.cl, nn, Module) ==> Mine(s, nn, Module))
  }

  /** The child deleted first decides on the next pass; the other one is as it was. */
  lemma DropOutcome(s: State, t: State, nn: Key, r: Role)
    requires Calm(s.cl, nn) && Pending(s, nn)
    requires r == Metrics || (r == Module && !Has(s.cl, nn, Metrics))
    requires Has(s.cl, nn, r) && Some(t.cl) == DeleteChild(Heard(s.cl, nn), ChildKey(nn, r))
    requires t.queue == s.queue - {nn}
    ensures WillFinish(t, nn) <==> CalmFinish(s, nn)
  {
    DropRouses(s, t, nn, r);
  }

  lemma QuietOutcome(s: State, t: State, nn: Key)
    requires Calm(s.cl, nn) && !Pending(s, nn) && t.cl == s.cl && t.queue == s.queue
    ensures !WillFinish(t, nn)
  {
  }

  lemma CalmOutcome(site: Site, s: State, nn: Key, clean: seq<Fault>)
    requires s.worker.Idle? && Clean(clean) && OwnersValid(s.cl) && Held(s.cl, nn) && Calm(s.cl, nn)
    ensures var t := Turn(site, s, nn, clean);
            && OwnersValid(t.cl)
            && (CalmFinish(s, nn) ==> Released(t.cl, nn) || WillFinish(t, nn))
            && (!CalmFinish(s, nn) ==> Held(t.cl, nn) && !WillFinish(t, nn))
  {
    var t := Turn(site, s, nn, clean);
    CalmTurn(site, s, nn, clean);
    if !Pending(s, nn) {
      QuietOutcome(s, t, nn);
    } else {
      AttemptValid(site, Heard(s.cl, nn), nn, FinalPhase(s.cl, nn));
      if Has(s.cl, nn, Metrics) {
        DropOutcome(s, t, nn, Metrics);
      } else if Has(s.cl, nn, Module) {
        DropOutcome(s, t, nn, Module);
      }
    }
  }

  /** The round of a deletion that will finish takes one thing down; it will finish after it just as before. */
  lemma RoundOutcome(site: Site, s: State, nn: Key, clean: seq<Fault>)
    requires s.worker.Idle? && Clean(clean) && OwnersValid(s.cl) && Held(s.cl, nn)
    ensures var t := TeardownRound(site, s, nn, clean);
            && t.worker.Idle? && OwnersValid(t.cl)
            && (WillFinish(s, nn) ==> Left(Drain(t.cl, nn), nn) + 1 == Left(Drain(s.cl, nn), nn))
            && (WillFinish(s, nn) ==> Released(t.cl, nn) || (Held(t.cl, nn) && WillFinish(t, nn)))
            && (!WillFinish(s, nn) ==> Held(t.cl, nn) && !WillFinish(t, nn))
  {
    var d := LetBothGo(site, s, nn);
    BothDrain(site, s, nn);
    DrainCalms(s.cl, nn);
    assert CalmFinish(d, nn) <==> WillFinish(s, nn);
    CalmTurn(site, d, nn, clean);
    CalmOutcome(site, d, nn, clean);
  }

  // ---------------------------------------------------------------- all rounds

  lemma {:induction false} RoundsDecide(site: Site, s: State, nn: Key, clean: seq<Fault>, n: nat)
    requires s.worker.Idle? && Clean(clean) && OwnersValid(s.cl) && Held(s.cl, nn)
    ensures var t := TeardownRounds(site, s, nn, clean, n);
            var enough := Left(Drain(s.cl, nn), nn);
            && (WillFinish(s, nn) && n == enough ==> Released(t.cl, nn))
            && (!WillFinish(s, nn) || n < enough ==> Held(t.cl, nn))
    decreases n
  {
    DrainCalms(s.cl, nn);
    if n > 0 {
      var t := TeardownRound(site, s, nn, clean);
      RoundOutcome(site, s, nn, clean);
      DrainCalms(t.cl, nn);
      if Held(t.cl, nn) {
        RoundsDecide(site, t, nn, clean, n - 1);
      }
    }
  }

  /** From any state in which the worker is idle and a DeviceConfig is held, rounds of draining and turns take
      its finalizer off if and only if the next finalize pass will come and the Module and the DaemonSet, as
      far as they still stand, are controlled by it. It then takes as many rounds as things stand, three
      at most, and not one fewer. */
  lemma DeletionFinishesIff(site: Site, s: State, nn: Key, clean: seq<Fault>)
    requires s.worker.Idle? && Clean(clean) && OwnersValid(s.cl) && Held(s.cl, nn)
    ensures (exists n: nat :: Released(TeardownRounds(site, s, nn, clean, n).cl, nn)) <==> WillFinish(s, nn)
    ensures var enough := Left(Drain(s.cl, nn), nn);
            && enough <= 3
            && (WillFinish(s, nn) ==> Released(TeardownRounds(site, s, nn, clean, enough).cl, nn))
            && forall n: nat :: n < enough ==> Held(TeardownRounds(site, s, nn, clean, n).cl, nn)
  {
    var enough := Left(Drain(s.cl, nn), nn);
    RoundsDecide(site, s, nn, clean, enough);
    forall n: nat | n < enough || !WillFinish(s, nn) ensures Held(TeardownRounds(site, s, nn, clean, n).cl, nn) {
      RoundsDecide(site, s, nn, clean, n);
    }
  }

  /** The run of DeletionCanHang ends in such a state: no number of rounds releases the DeviceConfig. */
  lemma HangsForever(site: Site, nn: Key, spec: ConfigSpec, clean: seq<Fault>) returns (run: seq<Action>)
    requires Clean(clean)
    ensures forall n: nat :: Held(TeardownRounds(site, Exec(site, INIT, run), nn, clean, n).cl, nn)
  {
    run := DeletionCanHang(site, nn, spec);
    forall n: nat ensures Held(TeardownRounds(site, Exec(site, INIT, run), nn, clean, n).cl, nn) {
      RoundsDecide(site, Exec(site, INIT, run), nn, clean, n);
    }
  }

  /** In a polite run a deletion always will finish. */
  lemma PoliteWillFinish(site: Site, run: seq<Action>, nn: Key)
    requires Idempotent(site.defaults) && StoresDesired(site) && PoliteRun(site, INIT, run)
    requires var s := Exec(site, INIT, run); s.worker.Idle? && Held(s.cl, nn)
    ensures var s := Exec(site, INIT, run); OwnersValid(s.cl) && WillFinish(s, nn)
  {
    var s := Exec(site, INIT, run);
    RunDrains(site, INIT, nn, run);
    if Has(s.cl, nn, Metrics) { GuardedIsControlled(s, nn, Metrics); }
    if Has(s.cl, nn, Module) { GuardedIsControlled(s, nn, Module); }
  }

  /** So after any polite run, whenever the worker is idle, three rounds at most release a DeviceConfig that is
      being deleted. */
  lemma ThreeRoundsSuffice(site: Site, run: seq<Action>, nn: Key, clean: seq<Fault>) returns (n: nat)
    requires Idempotent(site.defaults) && StoresDesired(site) && PoliteRun(site, INIT, run) && Clean(clean)
    requires var s := Exec(site, INIT, run); s.worker.Idle? && Held(s.cl, nn)
    ensures var s := Exec(site, INIT, run);
            && n == Left(Drain(s.cl, nn), nn) <= 3
            && Released(TeardownRounds(site, s, nn, clean, n).cl, nn)
            && forall m: nat :: m < n ==> Held(TeardownRounds(site, s, nn, clean, m).cl, nn)
  {
    var s := Exec(site, INIT, run);
    n := Left(Drain(s.cl, nn), nn);
    PoliteWillFinish(site, run, nn);
    DeletionFinishesIff(site, s, nn, clean);
  }
}
