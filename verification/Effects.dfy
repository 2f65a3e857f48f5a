/** What the operator's calls can do to the stored objects, and what they cannot: they change nothing of a
    DeviceConfig but its finalizers, they never make an object disappear that somebody still holds, and what
    they create is bare. And what the others can do: whatever the server admits. */
module Effects {
  import opened Api
  import opened Owners
  import opened Cluster
  import opened System
  import opened Guard
  import opened Passes
  import opened TeardownBound

  // ---------------------------------------------------------------- one call

  /** DeviceConfigs keep uid, spec and deletion mark; only one that is being deleted can go. */
  ghost predicate SpecsKept(a: Cluster, b: Cluster) {
    && (forall nn :: nn in b.configs ==>
          && nn in a.configs && b.configs[nn].uid == a.configs[nn].uid && b.configs[nn].spec == a.configs[nn].spec
          && b.configs[nn].terminating == a.configs[nn].terminating)
    && (forall nn :: nn in a.configs && nn !in b.configs ==> a.configs[nn].terminating)
  }

  /** A child goes only if nobody holds a finalizer on it; one that stays keeps its finalizers, and its deletion
      mark once it has one. */
  ghost predicate Gentle(a: Cluster, b: Cluster) {
    && (forall k :: k in a.children && k !in b.children ==> a.children[k].finalizers == [])
    && (forall k :: k in a.children && k in b.children ==>
          && b.children[k].finalizers == a.children[k].finalizers
          && (a.children[k].terminating ==> b.children[k].terminating))
  }

  /** A call leaves the objects alone, or as its write has them. */
  lemma CallStores(site: Site, cl: Cluster, nn: Key, phase: Phase, fault: Fault)
    ensures var p := Work(site, cl, nn, phase, fault);
            var reply := Attempt(site, cl, nn, phase);
            || (p.cl.configs == cl.configs && p.cl.children == cl.children)
            || (reply.Some? && p.cl.configs == reply.value.configs && p.cl.children == reply.value.children)
  {
    if phase.Read? {
      ReadOutcomes(site, cl, nn, phase.cfg, phase.r);
    }
  }

  lemma AttemptKeepsSpecs(site: Site, cl: Cluster, nn: Key, phase: Phase)
    ensures var reply := Attempt(site, cl, nn, phase); reply.Some? ==> SpecsKept(cl, reply.value)
  {
  }

  lemma AttemptIsGentle(site: Site, cl: Cluster, nn: Key, phase: Phase)
    ensures var reply := Attempt(site, cl, nn, phase); reply.Some? ==> Gentle(cl, reply.value)
  {
  }

  /** No call of the operator, whatever becomes of it, changes a DeviceConfig's spec or takes an object away
      from somebody who holds a finalizer on it. */
  lemma CallEffects(site: Site, cl: Cluster, nn: Key, phase: Phase, fault: Fault)
    ensures var p := Work(site, cl, nn, phase, fault); SpecsKept(cl, p.cl) && Gentle(cl, p.cl)
  {
    CallStores(site, cl, nn, phase, fault);
    AttemptKeepsSpecs(site, cl, nn, phase);
    AttemptIsGentle(site, cl, nn, phase);
  }

  /** The deletes of a finalize pass: a child that somebody holds stays, with its finalizers, owners and spec,
      and is terminating from then on; one that nobody holds goes. Nothing else changes. */
  lemma DropEffect(site: Site, cl: Cluster, nn: Key, phase: Phase)
    requires phase.DropMetrics? || phase.DropModule?
    ensures var r := if phase.DropMetrics? then Metrics else Module;
            var reply := Attempt(site, cl, nn, phase);
            && (reply.Some? <==> Has(cl, nn, r))
            && (reply.Some? ==>
                  var o := cl.children[ChildKey(nn, r)];
                  && reply.value.configs == cl.configs
                  && reply.value.children ==
                       if o.finalizers == [] then cl.children - {ChildKey(nn, r)}
                       else cl.children[ChildKey(nn, r) := Child(o.finalizers, true, o.owners, o.spec)])
  {
  }

  /** Creating a child never touches one that is there; patching one never changes its finalizers. */
  lemma WriteEffect(site: Site, cl: Cluster, nn: Key, phase: Phase)
    requires phase.Make? || phase.Amend?
    ensures var k := ChildKey(nn, phase.r);
            var reply := Attempt(site, cl, nn, phase);
            reply.Some? ==>
              && (phase.Make? <==> k !in cl.children) && k in reply.value.children
              && reply.value.configs == cl.configs && reply.value.children - {k} == cl.children - {k}
  {
  }

  // ---------------------------------------------------------------- what is created is bare

  /** The object that CreateOrPatch creates: no finalizers, not terminating, this DeviceConfig as its only owner,
      and the spec that the setter makes of an empty one. */
  function Bare(site: Site, nn: Key, cfg: Config, r: Role): Child {
    Child([], false, [Ref(nn.name, cfg.uid)], site.desire(nn, cfg.spec, r, map[]))
  }

  predicate MakesBare(site: Site, s: State) {
    s.worker.Busy? && s.worker.phase.Make? ==>
      s.worker.phase.obj == Bare(site, s.worker.nn, s.worker.phase.cfg, s.worker.phase.r)
  }

  lemma ReadMakesBare(site: Site, cl: Cluster, nn: Key, cfg: Config, r: Role)
    ensures var p := WorkRead(site, cl, nn, cfg, r);
            p.worker.Busy? && p.worker.phase.Make? ==>
              p.worker.nn == nn && p.worker.phase.obj == Bare(site, nn, p.worker.phase.cfg, p.worker.phase.r)
  {
    ReadOutcomes(site, cl, nn, cfg, r);
    assert Upsert([], Ref(nn.name, cfg.uid)) == [Ref(nn.name, cfg.uid)];
  }

  lemma StepMakesBare(site: Site, s: State, a: Action)
    requires MakesBare(site, s)
    ensures MakesBare(site, Apply(site, s, a))
  {
    if a.Call? && s.worker.Busy? {
      var phase := s.worker.phase;
      if Writes(phase) {
        WriteOutcomes(site, s, a.fault);
      } else if phase.Read? && a.fault.Fine? {
        ReadMakesBare(site, s.cl, s.worker.nn, phase.cfg, phase.r);
      }
    }
  }

  lemma {:induction false} RunMakesBare(site: Site, s: State, run: seq<Action>)
    requires MakesBare(site, s)
    ensures MakesBare(site, Exec(site, s, run))
    decreases |run|
  {
    if run != [] {
      StepMakesBare(site, s, run[0]);
      RunMakesBare(site, Apply(site, s, run[0]), run[1..]);
    }
  }

  /** In every run, whatever the others do: a child that the operator creates is stored with no finalizers, not
      terminating, with its DeviceConfig as only owner and the desired spec, defaulted. */
  lemma CreatedChildrenBare(site: Site, run: seq<Action>, nn: Key, phase: Phase)
    requires Exec(site, INIT, run).worker == Busy(nn, phase) && phase.Make?
    ensures var cl := Exec(site, INIT, run).cl;
            var reply := Attempt(site, cl, nn, phase);
            && (reply.Some? <==> !Has(cl, nn, phase.r))
            && (reply.Some? ==>
                  ChildAt(reply.value.children, ChildKey(nn, phase.r)) ==
                  Some(Child([], false, [Ref(nn.name, phase.cfg.uid)],
                             site.defaults(phase.r, site.desire(nn, phase.cfg.spec, phase.r, map[])))))
  {
    RunMakesBare(site, INIT, run);
  }

  lemma HandleMissing(site: Site, nn: Key, cfg: Config, r: Role)
    ensures Handle(site, nn, cfg, r, None).0 ==
            Some(Child([], false, [Ref(nn.name, cfg.uid)], site.defaults(r, site.desire(nn, cfg.spec, r, map[]))))
  {
    assert Upsert([], Ref(nn.name, cfg.uid)) == [Ref(nn.name, cfg.uid)];
  }

  /** A clean pass on a DeviceConfig without children creates all four of them bare. */
  lemma CleanPassCreates(site: Site, cl: Cluster, nn: Key, clean: seq<Fault>, r: Role)
    requires Clean(clean) && nn in cl.configs && !cl.configs[nn].terminating
    requires forall q: Role :: !Has(cl, nn, q)
    requires forall k :: k in cl.children ==> Valid(cl.children[k].owners)
    ensures var p := PassOn(site, cl, nn, clean);
            && p.worker == Idle(false)
            && ChildAt(p.cl.children, ChildKey(nn, r)) ==
               Some(Child([], false, [Ref(nn.name, cl.configs[nn].uid)],
                          site.defaults(r, site.desire(nn, cl.configs[nn].spec, r, map[]))))
  {
    forall q ensures !Blocked(cl, nn, q) {
      assert !Has(cl, nn, q);
    }
    PassLeaves(site, cl, nn, clean, None);
    assert Leaves(site, cl, nn, None, PassOn(site, cl, nn, clean).cl, r);
    assert !Has(cl, nn, r);
    HandleMissing(site, nn, cl.configs[nn], r);
  }

  // ---------------------------------------------------------------- over runs

  predicate Touches(a: Action, nn: Key) {
    (a.EditConfig? || a.CreateConfig?) && a.nn == nn
  }

  /** Over any run in which nobody edits or re-creates a DeviceConfig, its spec survives, whatever passes were
      under way with older copies of it. */
  lemma {:induction false} SpecSurvives(site: Site, s: State, run: seq<Action>, nn: Key)
    requires forall i :: 0 <= i < |run| ==> !Touches(run[i], nn)
    ensures var t := Exec(site, s, run);
            nn in t.cl.configs ==>
              && nn in s.cl.configs && t.cl.configs[nn].uid == s.cl.configs[nn].uid
              && t.cl.configs[nn].spec == s.cl.configs[nn].spec
    decreases |run|
  {
    if run != [] {
      StepKeepsSpec(site, s, run[0], nn);
      SpecSurvives(site, Apply(site, s, run[0]), run[1..], nn);
    }
  }

  lemma StepKeepsSpec(site: Site, s: State, a: Action, nn: Key)
    requires !Touches(a, nn)
    ensures var t := Apply(site, s, a);
            nn in t.cl.configs ==>
              && nn in s.cl.configs && t.cl.configs[nn].uid == s.cl.configs[nn].uid
              && t.cl.configs[nn].spec == s.cl.configs[nn].spec
  {
    if a.Call? && s.worker.Busy? {
      CallEffects(site, s.cl, s.worker.nn, s.worker.phase, a.fault);
    }
  }

  /** Over any run in which nobody else edits it, a child with finalizers stays, with these finalizers, and
      terminating once it is. */
  lemma {:induction false} HeldChildStays(site: Site, s: State, run: seq<Action>, k: ChildKey)
    requires k in s.cl.children && s.cl.children[k].finalizers != []
    requires forall i :: 0 <= i < |run| ==> !(run[i].OtherEdit? && run[i].k == k)
    ensures var t := Exec(site, s, run);
            && k in t.cl.children && t.cl.children[k].finalizers == s.cl.children[k].finalizers
            && (s.cl.children[k].terminating ==> t.cl.children[k].terminating)
    decreases |run|
  {
    if run != [] {
      StepKeepsHeld(site, s, run[0], k);
      HeldChildStays(site, Apply(site, s, run[0]), run[1..], k);
    }
  }

  lemma StepKeepsHeld(site: Site, s: State, a: Action, k: ChildKey)
    requires k in s.cl.children && s.cl.children[k].finalizers != [] && !(a.OtherEdit? && a.k == k)
    ensures var t := Apply(site, s, a);
            && k in t.cl.children && t.cl.children[k].finalizers == s.cl.children[k].finalizers
            && (s.cl.children[k].terminating ==> t.cl.children[k].terminating)
  {
    if a.Call? && s.worker.Busy? {
      CallEffects(site, s.cl, s.worker.nn, s.worker.phase, a.fault);
    }
  }

  /** So in polite runs the operator's finalizer stays on as long as somebody holds the Module or the DaemonSet. */
  lemma HeldWhileDraining(site: Site, before: seq<Action>, run: seq<Action>, nn: Key, r: Role)
    requires PoliteRun(site, INIT, before) && PoliteRun(site, Exec(site, INIT, before), run)
    requires r == Module || r == Metrics
    requires var s := Exec(site, INIT, before);
             Has(s.cl, nn, r) && s.cl.children[ChildKey(nn, r)].finalizers != []
    requires forall i :: 0 <= i < |run| ==> !(run[i].OtherEdit? && run[i].k == ChildKey(nn, r))
    ensures var t := Exec(site, Exec(site, INIT, before), run); Has(t.cl, nn, r) && Anchored(t, nn)
  {
    var s := Exec(site, INIT, before);
    RunKeeps(site, INIT, nn, before);
    RunKeeps(site, s, nn, run);
    HeldChildStays(site, s, run, ChildKey(nn, r));
  }

  /** Somebody holds a finalizer on the child. */
  predicate HeldBack(cl: Cluster, nn: Key, r: Role) {
    Has(cl, nn, r) && cl.children[ChildKey(nn, r)].finalizers != []
  }

  lemma {:induction false} RunHeldBack(site: Site, cl: Cluster, nn: Key, r: Role, phase: Phase, faults: seq<Fault>)
    requires Held(cl, nn) && HeldBack(cl, nn, r) && (r == Module || r == Metrics) && Stage(cl, nn, phase)
    ensures var p := Run(site, Pass(cl, Busy(nn, phase)), faults);
            && Held(p.cl, nn) && HeldBack(p.cl, nn, r)
            && p.cl.children[ChildKey(nn, r)].finalizers == cl.children[ChildKey(nn, r)].finalizers
    decreases |faults|
  {
    if faults != [] {
      var p := Work(site, cl, nn, phase, faults[0]);
      CallEffects(site, cl, nn, phase, faults[0]);
      if Writes(phase) {
        FinalKeepsConfigs(site, cl, nn, r, phase, faults[0]);
      } else if faults[0].Fine? {
        StageCall(site, cl, nn, phase);
        RunHeldBack(site, cl, nn, r, p.worker.phase, faults[1..]);
      }
    }
  }

  lemma FinalKeepsConfigs(site: Site, cl: Cluster, nn: Key, r: Role, phase: Phase, fault: Fault)
    requires Held(cl, nn) && HeldBack(cl, nn, r) && (r == Module || r == Metrics)
    requires Stage(cl, nn, phase) && Writes(phase)
    ensures var p := Work(site, cl, nn, phase, fault); p.worker.Idle? && p.cl.configs == cl.configs
  {
    DropEffect(site, cl, nn, phase);
    CallStores(site, cl, nn, phase, fault);
  }

  /** Any number of finalize passes, with any faults, while nobody lets go of the child: it is still there, its
      finalizers unchanged, and the DeviceConfig is still held. */
  lemma {:induction false} PassesHeldBack(site: Site, cl: Cluster, nn: Key, r: Role, scripts: seq<seq<Fault>>)
    requires Held(cl, nn) && HeldBack(cl, nn, r) && (r == Module || r == Metrics)
    ensures var after := PassesOn(site, cl, nn, scripts);
            && Held(after, nn) && HeldBack(after, nn, r)
            && after.children[ChildKey(nn, r)].finalizers == cl.children[ChildKey(nn, r)].finalizers
    decreases |scripts|
  {
    if scripts != [] {
      RunHeldBack(site, cl, nn, r, Fetch, scripts[0]);
      PassesHeldBack(site, PassOn(site, cl, nn, scripts[0]).cl, nn, r, scripts[1..]);
    }
  }

  // ---------------------------------------------------------------- what the others can do

  /** The others are not held back: one action brings a child into any form that the server admits. */
  lemma OthersCanStore(site: Site, s: State, k: ChildKey, target: Child) returns (a: Action)
    requires Valid(target.owners) && target.spec == site.defaults(k.role, target.spec)
    requires k !in s.cl.children ==> !target.terminating
    requires k in s.cl.children ==>
               var o := s.cl.children[k];
               && target.terminating == o.terminating
               && (o.terminating ==>
                     target.finalizers != [] && forall f :: f in target.finalizers ==> f in o.finalizers)
    ensures !a.Call? && ChildAt(Apply(site, s, a).cl.children, k) == Some(target)
  {
    a := if k in s.cl.children then OtherEdit(k, target) else OtherCreate(k, target);
  }

  /** Two actions take a child away, whoever holds it. */
  lemma OthersCanRemove(site: Site, s: State, k: ChildKey) returns (a: Action, b: Action)
    requires k in s.cl.children && Valid(s.cl.children[k].owners)
    ensures !a.Call? && !b.Call? && k !in Apply(site, Apply(site, s, a), b).cl.children
  {
    a := OtherDelete(k);
    b := OtherEdit(k, s.cl.children[k].(finalizers := []));
  }

  /** The user can store any spec in a live DeviceConfig at any time, and mark it for deletion. */
  lemma UsersCanStore(site: Site, s: State, nn: Key, fs: seq<string>, spec: ConfigSpec) returns (a: Action, b: Action)
    requires nn in s.cl.configs && !s.cl.configs[nn].terminating
    ensures var c := s.cl.configs[nn];
            && !a.Call? && ConfigAt(Apply(site, s, a).cl, nn) == Some(Config(c.uid, fs, false, spec))
            && !b.Call? && ConfigAt(Apply(site, s, b).cl, nn) ==
                 if c.finalizers == [] then None else Some(Config(c.uid, c.finalizers, true, c.spec))
  {
    a := EditConfig(nn, fs, spec);
    b := DeleteConfig(nn);
  }

  /** The garbage collector deletes a child owned by one DeviceConfig exactly when that very incarnation is gone. */
  lemma OrphansCollected(site: Site, s: State, k: ChildKey, uid: nat, name: string)
    requires k in s.cl.children && s.cl.children[k].owners == [Ref(name, uid)]
    requires !s.cl.children[k].terminating
    ensures var t := Apply(site, s, Collect(k, {}));
            var owner := ConfigAt(s.cl, Key(k.owner.ns, name));
            ChildAt(t.cl.children, k) ==
              if owner.Some? && owner.value.uid == uid then Some(s.cl.children[k])
              else if s.cl.children[k].finalizers == [] then None
              else Some(s.cl.children[k].(terminating := true))
  {
    assert s.cl.children[k].owners[0] == Ref(name, uid);
  }

  /** From a child that keeps a live owner it takes the references to missing owners, and nothing else. */
  lemma DeadOwnersPruned(site: Site, s: State, k: ChildKey, dead: set<OwnerRef>)
    requires k in s.cl.children
    requires exists ref :: ref in s.cl.children[k].owners && !Dangling(s.cl, k.owner.ns, ref, dead)
    ensures var before := s.cl.children[k];
            var after := ChildAt(Apply(site, s, Prune(k, dead)).cl.children, k);
            && after.Some? && after.value == before.(owners := after.value.owners)
            && forall ref :: ref in after.value.owners <==>
                 ref in before.owners && !Dangling(s.cl, k.owner.ns, ref, dead)
  {
    var ref :| ref in s.cl.children[k].owners && !Dangling(s.cl, k.owner.ns, ref, dead);
    assert ref in Solid(s.cl, k.owner.ns, s.cl.children[k].owners, dead);
  }

  /** A user can add a DeviceConfig at any time, each with a uid of its own; and anybody can cause a pass. */
  lemma UsersCanAdd(site: Site, s: State, nn: Key, fs: seq<string>, spec: ConfigSpec)
    requires nn !in s.cl.configs
    ensures var t := Apply(site, s, CreateConfig(nn, fs, spec));
            ConfigAt(t.cl, nn) == Some(Config(s.nextUid, fs, false, spec)) && t.nextUid == s.nextUid + 1
    ensures Pending(Apply(site, s, Nudge(nn)), nn)
  {
  }
}
