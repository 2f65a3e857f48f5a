/** How long a teardown takes: at most three writes in any run, and a number of successful passes that
    is known beforehand when the deleted children drain between the passes. */
module TeardownBound {
  import opened Api
  import opened Cluster
  import opened System
  import opened Guard
  import opened Passes
  import Finalizers

  // ---------------------------------------------------------------- any polite run

  function Live(s: State, nn: Key, r: Role): nat {
    if Has(s.cl, nn, r) && !s.cl.children[ChildKey(nn, r)].terminating then 1 else 0
  }

  /** What the finalize passes on the incarnation u have yet to take down: each summand can be taken
      down once. */
  function Outstanding(s: State, nn: Key, u: nat): (n: nat)
    ensures n <= 3
  {
    if nn in s.cl.configs && s.cl.configs[nn].uid == u then
      Live(s, nn, Metrics) + Live(s, nn, Module) + (if Anchored(s, nn) then 1 else 0)
    else 0
  }

  /** The step is a call of a finalize pass on the incarnation u, and it changes an object. */
  predicate FinalizeWrite(site: Site, s: State, a: Action, nn: Key, u: nat) {
    && a.Call? && s.worker.Busy? && s.worker.nn == nn && Teardown(s.worker.phase) && s.worker.phase.cfg.uid == u
    && var t := CallApi(site, s, a.fault);
       t.cl.configs != s.cl.configs || t.cl.children != s.cl.children
  }

  function FinalizeWrites(site: Site, s: State, run: seq<Action>, nn: Key, u: nat): nat
    decreases |run|
  {
    if run == [] then 0
    else (if FinalizeWrite(site, s, run[0], nn, u) then 1 else 0)
         + FinalizeWrites(site, Apply(site, s, run[0]), run[1..], nn, u)
  }

  lemma OthersNotOutstanding(site: Site, s: State, a: Action, nn: Key, u: nat)
    requires Inv(s, nn) && Polite(s, a) && !a.Call? && (nn, u) in s.begun
    ensures Outstanding(Apply(site, s, a), nn, u) <= Outstanding(s, nn, u)
  {
  }

  lemma SetupNotOutstanding(site: Site, s: State, nn: Key, phase: Phase, u: nat)
    requires Inv(s, nn) && s.worker == Busy(nn, phase) && (nn, u) in s.begun
    requires phase.Mark? || phase.Make? || phase.Amend?
    ensures var reply := Attempt(site, s.cl, nn, phase);
            reply.Some? ==> Outstanding(s.(cl := reply.value), nn, u) <= Outstanding(s, nn, u)
  {
  }

  lemma DropOutstanding(site: Site, s: State, nn: Key, phase: Phase, u: nat)
    requires Inv(s, nn) && s.worker == Busy(nn, phase) && (nn, u) in s.begun
    requires phase.DropMetrics? || phase.DropModule?
    ensures var reply := Attempt(site, s.cl, nn, phase);
            reply.Some? ==>
              (var t := s.(cl := reply.value);
               && Outstanding(t, nn, u) <= Outstanding(s, nn, u)
               && (phase.cfg.uid == u ==> t.cl == s.cl || Outstanding(t, nn, u) < Outstanding(s, nn, u)))
  {
  }

  lemma UnmarkOutstanding(site: Site, s: State, nn: Key, phase: Phase, u: nat)
    requires Inv(s, nn) && s.worker == Busy(nn, phase) && (nn, u) in s.begun && phase.Unmark?
    ensures var reply := Attempt(site, s.cl, nn, phase);
            reply.Some? ==>
              (var t := s.(cl := reply.value);
               && Outstanding(t, nn, u) <= Outstanding(s, nn, u)
               && (phase.cfg.uid == u ==> t.cl == s.cl || Outstanding(t, nn, u) < Outstanding(s, nn, u)))
  {
    if !Finalizers.Marked(phase.cfg.finalizers) {
      Finalizers.WithoutAbsent(phase.cfg.finalizers, Finalizers.FINALIZER);
    }
  }

  lemma AttemptNotOutstanding(site: Site, s: State, nn: Key, phase: Phase, u: nat)
    requires Inv(s, nn) && s.worker == Busy(nn, phase) && Writes(phase) && (nn, u) in s.begun
    ensures var reply := Attempt(site, s.cl, nn, phase);
            reply.Some? ==>
              (var t := s.(cl := reply.value);
               && Outstanding(t, nn, u) <= Outstanding(s, nn, u)
               && (Teardown(phase) && phase.cfg.uid == u ==>
                     t.cl == s.cl || Outstanding(t, nn, u) < Outstanding(s, nn, u)))
  {
    if phase.Unmark? {
      UnmarkOutstanding(site, s, nn, phase, u);
    } else if phase.DropMetrics? || phase.DropModule? {
      DropOutstanding(site, s, nn, phase, u);
    } else {
      SetupNotOutstanding(site, s, nn, phase, u);
    }
  }

  lemma CallNotOutstanding(site: Site, s: State, fault: Fault, nn: Key, u: nat)
    requires Inv(s, nn) && (nn, u) in s.begun
    ensures var t := CallApi(site, s, fault);
            && Outstanding(t, nn, u) <= Outstanding(s, nn, u)
            && (FinalizeWrite(site, s, Call(fault), nn, u) ==> Outstanding(t, nn, u) < Outstanding(s, nn, u))
  {
    if s.worker.Busy? {
      var phase := s.worker.phase;
      if s.worker.nn != nn {
        WorkStaysHome(site, s.cl, s.worker.nn, phase, fault, nn);
        SameOutstanding(s, CallApi(site, s, fault), nn, u);
      } else if Writes(phase) {
        WriteNotOutstanding(site, s, fault, nn, u);
      } else {
        LookIsSilent(site, s.cl, nn, phase, fault);
        SameOutstanding(s, CallApi(site, s, fault), nn, u);
      }
    }
  }

  lemma SameOutstanding(s: State, t: State, nn: Key, u: nat)
    requires SameSlot(s.cl, t.cl, nn)
    ensures Outstanding(t, nn, u) == Outstanding(s, nn, u)
  {
    SlotRead(s.cl, t.cl, nn, Metrics);
    SlotRead(s.cl, t.cl, nn, Module);
    assert ConfigAt(s.cl, nn) == ConfigAt(t.cl, nn);
  }

  lemma LookIsSilent(site: Site, cl: Cluster, nn: Key, phase: Phase, fault: Fault)
    requires !Writes(phase)
    ensures var p := Work(site, cl, nn, phase, fault); p.cl.configs == cl.configs && p.cl.children == cl.children
  {
    if phase.Read? {
      ReadOutcomes(site, cl, nn, phase.cfg, phase.r);
    }
  }

  lemma WriteNotOutstanding(site: Site, s: State, fault: Fault, nn: Key, u: nat)
    requires Inv(s, nn) && (nn, u) in s.begun && s.worker.Busy? && s.worker.nn == nn && Writes(s.worker.phase)
    ensures var t := CallApi(site, s, fault);
            && Outstanding(t, nn, u) <= Outstanding(s, nn, u)
            && (FinalizeWrite(site, s, Call(fault), nn, u) ==> Outstanding(t, nn, u) < Outstanding(s, nn, u))
  {
    var t := CallApi(site, s, fault);
    var reply := Attempt(site, s.cl, nn, s.worker.phase);
    WriteOutcomes(site, s, fault);
    AttemptNotOutstanding(site, s, nn, s.worker.phase, u);
    var cl := if reply.Some? && fault != Lost(false) then reply.value else s.cl;
    OutstandingObjects(t, s.(cl := cl), nn, u);
  }

  lemma OutstandingObjects(s: State, t: State, nn: Key, u: nat)
    requires s.cl.configs == t.cl.configs && s.cl.children == t.cl.children
    ensures Outstanding(s, nn, u) == Outstanding(t, nn, u)
  {
  }

  lemma {:induction false} WritesAreOutstanding(site: Site, s: State, run: seq<Action>, nn: Key, u: nat)
    requires Inv(s, nn) && PoliteRun(site, s, run) && (nn, u) in s.begun
    ensures FinalizeWrites(site, s, run, nn, u) <= Outstanding(s, nn, u)
    decreases |run|
  {
    if run != [] {
      var a := run[0];
      StepKeeps(site, s, nn, a);
      if a.Call? {
        CallNotOutstanding(site, s, a.fault, nn, u);
      } else {
        OthersNotOutstanding(site, s, a, nn, u);
      }
      assert (nn, u) in Apply(site, s, a).begun;
      WritesAreOutstanding(site, Apply(site, s, a), run[1..], nn, u);
    }
  }

  /** In any polite run, once a finalize pass has started on an incarnation, the finalize passes on it
      together change the store at most as often as there is something to take down: the metrics
      DaemonSet, the Module and the finalizer, so three times at most. */
  lemma AtMostThreeWrites(site: Site, before: seq<Action>, run: seq<Action>, nn: Key, u: nat)
    requires PoliteRun(site, INIT, before) && PoliteRun(site, Exec(site, INIT, before), run)
    requires (nn, u) in Exec(site, INIT, before).begun
    ensures var s := Exec(site, INIT, before);
            FinalizeWrites(site, s, run, nn, u) <= Outstanding(s, nn, u) <= 3
  {
    RunKeeps(site, INIT, nn, before);
    WritesAreOutstanding(site, Exec(site, INIT, before), run, nn, u);
  }

  // ---------------------------------------------------------------- passes and drains in turn

  /** A terminating child goes away. */
  function DrainChild(cl: Cluster, nn: Key, r: Role): Cluster {
    var o := ChildAt(cl.children, ChildKey(nn, r));
    if o.Some? && o.value.terminating then WriteChild(cl, ChildKey(nn, r), None) else cl
  }

  function Drain(cl: Cluster, nn: Key): Cluster {
    DrainChild(DrainChild(cl, nn, Metrics), nn, Module)
  }

  /** One pass with these faults, then everything terminating drains. */
  function Round(site: Site, cl: Cluster, nn: Key, faults: seq<Fault>): Cluster {
    Drain(PassOn(site, cl, nn, faults).cl, nn)
  }

  function Rounds(site: Site, cl: Cluster, nn: Key, scripts: seq<seq<Fault>>): Cluster
    decreases |scripts|
  {
    if scripts == [] then cl else Rounds(site, Round(site, cl, nn, scripts[0]), nn, scripts[1..])
  }

  function CleanRounds(scripts: seq<seq<Fault>>): nat {
    if scripts == [] then 0 else (if Clean(scripts[0]) then 1 else 0) + CleanRounds(scripts[1..])
  }

  /** The operator's finalizer holds the DeviceConfig, which is being deleted. */
  predicate Held(cl: Cluster, nn: Key) {
    nn in cl.configs && cl.configs[nn].terminating && Finalizers.Marked(cl.configs[nn].finalizers)
  }

  /** Nothing is left to do: the finalizer is off. */
  predicate Released(cl: Cluster, nn: Key) {
    nn in cl.configs ==> cl.configs[nn].terminating && !Finalizers.Marked(cl.configs[nn].finalizers)
  }

  /** Passes still needed: one for each child that is there, and one for the finalizer. */
  function Left(cl: Cluster, nn: Key): nat {
    if !Held(cl, nn) then 0
    else 1 + (if Has(cl, nn, Metrics) then 1 else 0) + (if Has(cl, nn, Module) then 1 else 0)
  }

  // ---------------------------------------------------------------- one finalize pass

  /** The one write of a finalize pass. */
  function FinalPhase(cl: Cluster, nn: Key): Phase
    requires nn in cl.configs
  {
    var cfg := cl.configs[nn];
    if Has(cl, nn, Metrics) then DropMetrics(cfg)
    else if Has(cl, nn, Module) then DropModule(cfg)
    else Unmark(cfg)
  }

  predicate Stage(cl: Cluster, nn: Key, phase: Phase) {
    && nn in cl.configs && cl.configs[nn].terminating
    && (!phase.Fetch? ==> phase.cfg == cl.configs[nn])
    && match phase
       case Fetch => true
       case ReadMetrics(_) => true
       case ReadModule(_) => !Has(cl, nn, Metrics)
       case _ => phase == FinalPhase(cl, nn)
  }

  function CallsLeft(phase: Phase): nat {
    if phase.Fetch? then 4 else if phase.ReadMetrics? then 3 else if phase.ReadModule? then 2 else 1
  }

  lemma StageCall(site: Site, cl: Cluster, nn: Key, phase: Phase)
    requires Stage(cl, nn, phase) && !Writes(phase)
    ensures var p := WorkLook(site, cl, nn, phase);
            && p.cl == cl && p.worker.Busy? && p.worker.nn == nn
            && Stage(cl, nn, p.worker.phase) && CallsLeft(p.worker.phase) < CallsLeft(phase)
  {
  }

  /** Nothing of the DeviceConfig is waiting for a drain. */
  predicate Calm(cl: Cluster, nn: Key) {
    forall r | r == Metrics || r == Module :: Has(cl, nn, r) ==> !cl.children[ChildKey(nn, r)].terminating
  }

  lemma DrainCalms(cl: Cluster, nn: Key)
    ensures Calm(Drain(cl, nn), nn) && Drain(cl, nn).configs == cl.configs
    ensures Calm(cl, nn) ==> Drain(cl, nn) == cl
  {
  }

  /** Left only depends on the objects. */
  lemma LeftObjects(a: Cluster, b: Cluster, nn: Key)
    requires a.configs == b.configs && a.children == b.children
    ensures Left(a, nn) == Left(b, nn) && Left(Drain(a, nn), nn) == Left(Drain(b, nn), nn)
    ensures Released(a, nn) == Released(b, nn)
  {
    DrainObjects(a, b, nn, Metrics);
    DrainObjects(DrainChild(a, nn, Metrics), DrainChild(b, nn, Metrics), nn, Module);
  }

  lemma DrainObjects(a: Cluster, b: Cluster, nn: Key, r: Role)
    requires a.configs == b.configs && a.children == b.children
    ensures var x, y := DrainChild(a, nn, r), DrainChild(b, nn, r); x.configs == y.configs && x.children == y.children
  {
  }

  /** The write is always accepted, and one more thing is down when it is done and drained. */
  lemma FinalWrite(site: Site, cl: Cluster, nn: Key)
    requires Held(cl, nn) && Calm(cl, nn)
    ensures var reply := Attempt(site, cl, nn, FinalPhase(cl, nn));
            && reply.Some?
            && Left(Drain(reply.value, nn), nn) + 1 == Left(cl, nn)
            && (Held(reply.value, nn) || Released(reply.value, nn))
  {
    if Has(cl, nn, Metrics) {
      DropDrained(cl, nn, Metrics);
    } else if Has(cl, nn, Module) {
      DropDrained(cl, nn, Module);
    }
  }

  /** A deleted child is gone after the drain, and the other one is still there. */
  lemma DropDrained(cl: Cluster, nn: Key, r: Role)
    requires Held(cl, nn) && Calm(cl, nn) && Has(cl, nn, r) && (r == Metrics || r == Module)
    ensures var after := DeleteChild(cl, ChildKey(nn, r)).value;
            && after.configs == cl.configs && !Has(Drain(after, nn), nn, r)
            && (forall q | q == Metrics || q == Module :: q != r ==>
                  (Has(Drain(after, nn), nn, q) <==> Has(cl, nn, q)))
            && Drain(after, nn).configs == cl.configs
  {
  }

  /** What one round can do: nothing, or take exactly one thing down. */
  predicate OneDown(cl: Cluster, nn: Key, after: Cluster, sure: bool) {
    && (Held(after, nn) || Released(after, nn))
    && Left(Drain(after, nn), nn) <= Left(cl, nn) <= Left(Drain(after, nn), nn) + 1
    && (sure ==> Left(Drain(after, nn), nn) + 1 == Left(cl, nn))
  }

  lemma WriteOneDown(site: Site, cl: Cluster, nn: Key, fault: Fault)
    requires Held(cl, nn) && Calm(cl, nn)
    ensures var p := WorkWrite(site, cl, nn, FinalPhase(cl, nn), fault);
            p.worker.Idle? && OneDown(cl, nn, p.cl, fault.Fine?)
  {
    var reply := Attempt(site, cl, nn, FinalPhase(cl, nn)).value;
    DrainCalms(cl, nn);
    FinalWrite(site, cl, nn);
    LeftObjects(cl, End(cl, nn, true).cl, nn);
    LeftObjects(reply, End(reply, nn, true).cl, nn);
  }

  /** From any stage of a finalize pass: whatever fails, one thing at most goes down; if nothing fails and
      the pass is not cut off, exactly one does. */
  lemma {:induction false} StageRun(site: Site, cl: Cluster, nn: Key, phase: Phase, faults: seq<Fault>)
    requires Held(cl, nn) && Calm(cl, nn) && Stage(cl, nn, phase)
    ensures OneDown(cl, nn, Run(site, Pass(cl, Busy(nn, phase)), faults).cl,
                    AllFine(faults) && |faults| >= CallsLeft(phase))
    decreases |faults|
  {
    DrainCalms(cl, nn);
    if faults != [] {
      var p := Work(site, cl, nn, phase, faults[0]);
      assert Run(site, Pass(cl, Busy(nn, phase)), faults) == Run(site, p, faults[1..]);
      if Writes(phase) {
        WriteOneDown(site, cl, nn, faults[0]);
      } else if faults[0].Fine? {
        StageCall(site, cl, nn, phase);
        StageRun(site, cl, nn, p.worker.phase, faults[1..]);
      } else {
        LeftObjects(cl, p.cl, nn);
      }
    }
  }

  /** If nothing fails and the pass is not cut off, it ends with its one write. */
  lemma {:induction false} StageEnds(site: Site, cl: Cluster, nn: Key, phase: Phase, faults: seq<Fault>)
    requires Stage(cl, nn, phase) && AllFine(faults) && |faults| >= CallsLeft(phase)
    ensures Run(site, Pass(cl, Busy(nn, phase)), faults) == WorkWrite(site, cl, nn, FinalPhase(cl, nn), Fine)
    decreases |faults|
  {
    if Writes(phase) {
      assert WorkWrite(site, cl, nn, phase, Fine).worker.Idle?;
    } else {
      StageCall(site, cl, nn, phase);
      StageEnds(site, cl, nn, WorkLook(site, cl, nn, phase).worker.phase, faults[1..]);
    }
  }

  // ---------------------------------------------------------------- after the finalizer is off

  lemma CallReleased(site: Site, cl: Cluster, nn: Key, phase: Phase, fault: Fault)
    requires Released(cl, nn) && (phase.Fetch? || Teardown(phase))
    ensures var p := Work(site, cl, nn, phase, fault);
            Released(p.cl, nn) && (p.worker.Busy? ==> p.worker.nn == nn && Teardown(p.worker.phase))
  {
  }

  lemma {:induction false} RunReleased(site: Site, cl: Cluster, nn: Key, phase: Phase, faults: seq<Fault>)
    requires Released(cl, nn) && (phase.Fetch? || Teardown(phase))
    ensures Released(Run(site, Pass(cl, Busy(nn, phase)), faults).cl, nn)
    decreases |faults|
  {
    if faults != [] {
      CallReleased(site, cl, nn, phase, faults[0]);
      var p := Work(site, cl, nn, phase, faults[0]);
      if p.worker.Busy? {
        RunReleased(site, p.cl, nn, p.worker.phase, faults[1..]);
      }
    }
  }

  lemma {:induction false} RoundsReleased(site: Site, cl: Cluster, nn: Key, scripts: seq<seq<Fault>>)
    requires Released(cl, nn)
    ensures Released(Rounds(site, cl, nn, scripts), nn)
    decreases |scripts|
  {
    if scripts != [] {
      RunReleased(site, cl, nn, Fetch, scripts[0]);
      DrainCalms(PassOn(site, cl, nn, scripts[0]).cl, nn);
      RoundsReleased(site, Round(site, cl, nn, scripts[0]), nn, scripts[1..]);
    }
  }

  /** Passes and drains in turn, on a DeviceConfig that is being deleted: with as many uninterrupted passes
      as there are children up plus one, among any number of failing ones, the finalizer is off; with fewer
      passes in all than that it still holds. */
  lemma {:induction false} RoundsNeeded(site: Site, cl: Cluster, nn: Key, scripts: seq<seq<Fault>>)
    requires Held(cl, nn) && Calm(cl, nn)
    ensures CleanRounds(scripts) >= Left(cl, nn) ==> Released(Rounds(site, cl, nn, scripts), nn)
    ensures |scripts| < Left(cl, nn) ==> Held(Rounds(site, cl, nn, scripts), nn)
    decreases |scripts|
  {
    if scripts != [] {
      var after := PassOn(site, cl, nn, scripts[0]).cl;
      StageRun(site, cl, nn, Fetch, scripts[0]);
      DrainCalms(after, nn);
      var next := Round(site, cl, nn, scripts[0]);
      if Held(next, nn) {
        RoundsNeeded(site, next, nn, scripts[1..]);
      } else {
        RoundsReleased(site, next, nn, scripts[1..]);
      }
    }
  }

  /** The finalizer leaves no trace: setting it, deleting the DeviceConfig and taking it off again ends as
      deleting the unmarked DeviceConfig at once would have, all other finalizers in their places. */
  lemma FinalizerLeavesNoTrace(site: Site, cl: Cluster, nn: Key)
    requires nn in cl.configs && !cl.configs[nn].terminating && !Finalizers.Marked(cl.configs[nn].finalizers)
    ensures var marked := Attempt(site, cl, nn, Mark(cl.configs[nn]));
            && marked.Some? && nn in marked.value.configs
            && var deleted := EraseConfig(marked.value, nn);
               && nn in deleted.configs
               && var released := Attempt(site, deleted, nn, Unmark(deleted.configs[nn]));
                  released.Some? && released.value.configs == EraseConfig(cl, nn).configs
  {
    var fs := cl.configs[nn].finalizers;
    Finalizers.RemoveUndoesAdd(fs);
    assert Finalizers.Add(fs) != [] && Finalizers.Add(fs) != fs;
  }
}
