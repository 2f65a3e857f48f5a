/** Whole reconcile passes without interference: what an uninterrupted pass does to the store, why an
    interrupted one does not matter, and what a foreign child does. */
module Passes {
  import opened Json
  import opened Api
  import opened Owners
  import opened Cluster
  import Finalizers
  import Wakeup

  /** The calls of a pass, one fault each; the pass is cut off when the faults are used up. */
  function Run(site: Site, p: Pass, faults: seq<Fault>): Pass
    decreases |faults|
  {
    if faults == [] || p.worker.Idle? then p
    else Run(site, Work(site, p.cl, p.worker.nn, p.worker.phase, faults[0]), faults[1..])
  }

  function PassOn(site: Site, cl: Cluster, nn: Key, faults: seq<Fault>): Pass {
    Run(site, Pass(cl, Busy(nn, Fetch)), faults)
  }

  /** Several passes one after the other, each with its own faults. */
  function PassesOn(site: Site, cl: Cluster, nn: Key, scripts: seq<seq<Fault>>): Cluster
    decreases |scripts|
  {
    if scripts == [] then cl else PassesOn(site, PassOn(site, cl, nn, scripts[0]).cl, nn, scripts[1..])
  }

  predicate AllFine(faults: seq<Fault>) {
    forall i :: 0 <= i < |faults| ==> faults[i].Fine?
  }

  /** No pass makes more than ten calls: fetch, finalizer patch, and two for each child. */
  predicate Clean(faults: seq<Fault>) {
    AllFine(faults) && |faults| >= 10
  }

  /** Setting and defaulting the spec f once reaches a fixed point of setting and defaulting. */
  predicate Settles(site: Site, nn: Key, spec: ConfigSpec, r: Role, f: Fields) {
    var once := site.defaults(r, site.desire(nn, spec, r, f));
    site.defaults(r, site.desire(nn, spec, r, once)) == once
  }

  /** The role comes before the one at which something stops, if anything does. */
  predicate Before(r: Role, stop: Option<Role>) {
    stop.None? || Order(r) < Order(stop.value)
  }

  /** Of the roles before stop, the specs of the children that are there, and the empty spec for one that is
      missing, settle. */
  ghost predicate SettleBefore(site: Site, nn: Key, spec: ConfigSpec, ch: Children, stop: Option<Role>) {
    forall r: Role :: Before(r, stop) ==> Settles(site, nn, spec, r, SpecOf(Slot(ch, nn, r)))
  }

  ghost predicate AllSettle(site: Site, nn: Key, spec: ConfigSpec, ch: Children) {
    SettleBefore(site, nn, spec, ch, None)
  }

  function SpecOf(o: Option<Child>): Fields {
    if o.Some? then o.value.spec else map[]
  }

  // ---------------------------------------------------------------- one child

  /** CreateOrPatch on one child when nobody interferes: what is stored afterwards, and success. */
  function Handle(site: Site, nn: Key, cfg: Config, r: Role, o: Option<Child>): (Option<Child>, bool) {
    var base := if o.Some? then o.value else BLANK;
    var (obj, ok) := Mutate(site, nn, cfg, r, base);
    var stored := if o.Some? then Patched(site, r, base, base, obj)
                  else obj.(spec := site.defaults(r, obj.spec), terminating := false);
    if !ok then (o, false)
    else if o == Some(obj) then (o, true)
    else if Valid(stored.owners) then (Some(stored), true)
    else (o, false)
  }

  /** Success leaves the child controlled by the DeviceConfig, everything but owners and spec as it was. */
  lemma HandleOwns(site: Site, nn: Key, cfg: Config, r: Role, o: Option<Child>)
    requires Handle(site, nn, cfg, r, o).1
    ensures var o' := Handle(site, nn, cfg, r, o).0;
            var base := if o.Some? then o.value else BLANK;
            && o'.Some?
            && ControllerOf(o'.value.owners) == Some(Ref(nn.name, cfg.uid))
            && Some(o'.value.owners) == SetController(base.owners, nn.name, cfg.uid)
            && o'.value.finalizers == base.finalizers && o'.value.terminating == base.terminating
            && (o' != o ==> Valid(o'.value.owners))
  {
    var base := if o.Some? then o.value else BLANK;
    UpsertControls(base.owners, nn.name, cfg.uid);
  }

  /** Success stores the setter's spec, defaulted, unless the setter found nothing to change. */
  lemma HandleSpec(site: Site, nn: Key, cfg: Config, r: Role, o: Option<Child>)
    requires StoresDesired(site) && Handle(site, nn, cfg, r, o).1
    ensures var o' := Handle(site, nn, cfg, r, o).0;
            var base := if o.Some? then o.value else BLANK;
            var want := site.desire(nn, cfg.spec, r, base.spec);
            o'.value.spec == site.defaults(r, want) || (o' == o && o'.value.spec == want)
  {
    HandleOwns(site, nn, cfg, r, o);
    var base := if o.Some? then o.value else BLANK;
    var want := site.desire(nn, cfg.spec, r, base.spec);
    assert MergePatch(Obj(base.spec), Obj(Diff(Obj(base.spec), Obj(want)))) == Obj(want);
  }

  /** On admitted owners, handling fails exactly when the child has another controller, or has a plain
      reference to the DeviceConfig before the controller one; it then leaves the child alone. */
  lemma HandleFailsIff(site: Site, nn: Key, cfg: Config, r: Role, o: Option<Child>)
    requires o.Some? ==> Valid(o.value.owners)
    ensures !Handle(site, nn, cfg, r, o).1 <==>
              o.Some? && (Foreign(o.value.owners, nn.name) || Shadowed(o.value.owners, nn.name))
    ensures !Handle(site, nn, cfg, r, o).1 ==> Handle(site, nn, cfg, r, o).0 == o
  {
    var base := if o.Some? then o.value else BLANK;
    SetControllerSound(base.owners, nn.name, cfg.uid);
  }

  /** Handling a child a second time changes nothing. */
  lemma HandleTwice(site: Site, nn: Key, cfg: Config, r: Role, o: Option<Child>)
    requires StoresDesired(site) && Handle(site, nn, cfg, r, o).1
    requires Settles(site, nn, cfg.spec, r, SpecOf(o))
    ensures Handle(site, nn, cfg, r, Handle(site, nn, cfg, r, o).0) == Handle(site, nn, cfg, r, o)
  {
    var o' := Handle(site, nn, cfg, r, o).0;
    HandleSpec(site, nn, cfg, r, o);
    HandleStoresOwned(site, nn, cfg, r, o);
    if o' != o {
      HandleOwned(site, nn, cfg, r, o'.value);
    }
  }

  /** A child that the DeviceConfig controls already can only get another spec. */
  lemma HandleOwned(site: Site, nn: Key, cfg: Config, r: Role, o: Child)
    requires StoresDesired(site) && Valid(o.owners)
    requires SetController(o.owners, nn.name, cfg.uid) == Some(o.owners)
    ensures var want := site.desire(nn, cfg.spec, r, o.spec);
            Handle(site, nn, cfg, r, Some(o)) ==
              (Some(if want == o.spec then o else o.(spec := site.defaults(r, want))), true)
  {
    var want := site.desire(nn, cfg.spec, r, o.spec);
    assert MergePatch(Obj(o.spec), Obj(Diff(Obj(o.spec), Obj(want)))) == Obj(want);
  }

  /** What a successful handling stores, if it stores anything, has admitted owners and is controlled. */
  lemma HandleStoresOwned(site: Site, nn: Key, cfg: Config, r: Role, o: Option<Child>)
    requires Handle(site, nn, cfg, r, o).1
    ensures var o' := Handle(site, nn, cfg, r, o).0;
            o' != o ==> o'.Some? && Valid(o'.value.owners)
                        && SetController(o'.value.owners, nn.name, cfg.uid) == Some(o'.value.owners)
  {
    HandleOwns(site, nn, cfg, r, o);
    SetControllerAgain(if o.Some? then o.value.owners else [], nn.name, cfg.uid);
  }

  // ---------------------------------------------------------------- all children

  /** What becomes of the child of a role, and success. */
  type Handler = (Role, Option<Child>) -> (Option<Child>, bool)

  function HandlerOf(site: Site, nn: Key, cfg: Config): Handler {
    (r: Role, o: Option<Child>) => Handle(site, nn, cfg, r, o)
  }

  /** Handling the child of role r a second time changes nothing. */
  predicate Repeats(h: Handler, nn: Key, ch: Children, r: Role) {
    var (o, ok) := h(r, Slot(ch, nn, r));
    ok ==> o.Some? && h(r, o) == (o, true)
  }

  /** The first role whose child cannot be handled, if there is one. */
  function FirstFailure(h: Handler, nn: Key, ch: Children): Option<Role> {
    if !h(Module, Slot(ch, nn, Module)).1 then Some(Module)
    else if !h(Scheduler, Slot(ch, nn, Scheduler)).1 then Some(Scheduler)
    else if !h(Extension, Slot(ch, nn, Extension)).1 then Some(Extension)
    else if !h(Metrics, Slot(ch, nn, Metrics)).1 then Some(Metrics)
    else None
  }

  /** Of the children that a sweep gets to handle. */
  ghost predicate AllRepeat(h: Handler, nn: Key, ch: Children) {
    forall r: Role :: Before(r, FirstFailure(h, nn, ch)) ==> Repeats(h, nn, ch, r)
  }

  lemma SettledRepeats(site: Site, nn: Key, cfg: Config, ch: Children)
    requires StoresDesired(site)
    requires SettleBefore(site, nn, cfg.spec, ch, FirstFailure(HandlerOf(site, nn, cfg), nn, ch))
    ensures AllRepeat(HandlerOf(site, nn, cfg), nn, ch)
  {
    var h := HandlerOf(site, nn, cfg);
    forall r: Role | Before(r, FirstFailure(h, nn, ch)) ensures Repeats(h, nn, ch, r) {
      var o := Slot(ch, nn, r);
      if h(r, o).1 {
        assert Settles(site, nn, cfg.spec, r, SpecOf(o));
        HandleTwice(site, nn, cfg, r, o);
        HandleOwns(site, nn, cfg, r, o);
      }
    }
  }

  function Put(ch: Children, nn: Key, r: Role, o: Option<Child>): Children {
    if o.Some? then ch[ChildKey(nn, r) := o.value] else ch
  }

  /** Handle the children from r on, in order, up to the first failure. */
  function Sweep(h: Handler, nn: Key, ch: Children, r: Role): (Children, bool)
    decreases 4 - Order(r)
  {
    var (o, ok) := h(r, Slot(ch, nn, r));
    if !ok then (ch, false)
    else if r == Metrics then (Put(ch, nn, r, o), true)
    else Sweep(h, nn, Put(ch, nn, r, o), Next(r))
  }

  predicate Fixed(h: Handler, nn: Key, ch: Children, r: Role) {
    h(r, Slot(ch, nn, r)) == (Slot(ch, nn, r), true)
  }

  predicate FixedBefore(h: Handler, nn: Key, ch: Children, r: Role) {
    match r
    case Module => true
    case Scheduler => Fixed(h, nn, ch, Module)
    case Extension => Fixed(h, nn, ch, Module) && Fixed(h, nn, ch, Scheduler)
    case Metrics => Fixed(h, nn, ch, Module) && Fixed(h, nn, ch, Scheduler) && Fixed(h, nn, ch, Extension)
  }

  lemma SweepSkips(h: Handler, nn: Key, ch: Children, r: Role)
    requires FixedBefore(h, nn, ch, r)
    ensures Sweep(h, nn, ch, Module) == Sweep(h, nn, ch, r)
  {
    if r != Module { SweepSkipsOne(h, nn, ch, Module); }
    if r == Extension || r == Metrics { SweepSkipsOne(h, nn, ch, Scheduler); }
    if r == Metrics { SweepSkipsOne(h, nn, ch, Extension); }
  }

  lemma SweepSkipsOne(h: Handler, nn: Key, ch: Children, r: Role)
    requires r != Metrics && Fixed(h, nn, ch, r)
    ensures Sweep(h, nn, ch, r) == Sweep(h, nn, ch, Next(r))
  {
    assert Put(ch, nn, r, Slot(ch, nn, r)) == ch;
  }

  lemma RepeatsKept(h: Handler, nn: Key, ch: Children, ch': Children, r: Role)
    requires AllRepeat(h, nn, ch) && h(r, Slot(ch, nn, r)).1 && Slot(ch', nn, r).Some? && Fixed(h, nn, ch', r)
    requires forall q: Role :: q != r ==> Slot(ch', nn, q) == Slot(ch, nn, q)
    ensures AllRepeat(h, nn, ch')
  {
    assert FirstFailure(h, nn, ch') == FirstFailure(h, nn, ch);
    forall q: Role | q != r && Before(q, FirstFailure(h, nn, ch')) ensures Repeats(h, nn, ch', q) {
      assert Repeats(h, nn, ch, q);
    }
  }

  /** The write that a pass makes at r lies on the way of every sweep. */
  lemma SweepAbsorbs(h: Handler, nn: Key, ch: Children, r: Role)
    requires AllRepeat(h, nn, ch) && FixedBefore(h, nn, ch, r) && h(r, Slot(ch, nn, r)).1
    ensures var ch' := Put(ch, nn, r, h(r, Slot(ch, nn, r)).0);
            && AllRepeat(h, nn, ch') && FixedBefore(h, nn, ch', r) && Fixed(h, nn, ch', r)
            && Sweep(h, nn, ch', Module) == Sweep(h, nn, ch, Module)
  {
    var o := h(r, Slot(ch, nn, r)).0;
    var ch' := Put(ch, nn, r, o);
    assert Before(r, FirstFailure(h, nn, ch));
    assert Repeats(h, nn, ch, r);
    assert Slot(ch', nn, r) == o;
    assert forall q: Role :: q != r ==> Slot(ch', nn, q) == Slot(ch, nn, q);
    SweepSkips(h, nn, ch, r);
    SweepSkips(h, nn, ch', r);
    assert Put(ch', nn, r, o) == ch';
    RepeatsKept(h, nn, ch, ch', r);
  }

  // ---------------------------------------------------------------- a pass, call by call

  function WithFinalizer(cfg: Config): Config {
    cfg.(finalizers := Finalizers.Add(cfg.finalizers))
  }

  /** The store in a reconcile pass that began in the store cl0: the DeviceConfig is as it was,
      perhaps marked, and the sweep still ends where it would have ended. */
  ghost predicate OnTheWay(h: Handler, cl0: Cluster, nn: Key, cfg: Config, cl: Cluster) {
    && nn in cl.configs && (cl.configs[nn] == cfg || cl.configs[nn] == WithFinalizer(cfg))
    && cl.configs[nn := cfg] == cl0.configs
    && AllRepeat(h, nn, cl.children)
    && Sweep(h, nn, cl.children, Module) == Sweep(h, nn, cl0.children, Module)
  }

  /** The local data of the pass fit the store. */
  predicate InStep(site: Site, nn: Key, cfg: Config, cl: Cluster, phase: Phase) {
    nn in cl.configs &&
    match phase
    case Fetch => true
    case Mark(c) => c == cfg && cl.configs[nn] == cfg && !Finalizers.Marked(cfg.finalizers)
    case Read(c, r) => Along(nn, cfg, cl, c)
    case Make(c, r, obj) =>
      && Along(nn, cfg, cl, c) && ChildKey(nn, r) !in cl.children
      && Mutate(site, nn, cfg, r, BLANK) == (obj, true)
    case Amend(c, r, base, obj) =>
      && Along(nn, cfg, cl, c) && Slot(cl.children, nn, r) == Some(base)
      && obj != base && Mutate(site, nn, cfg, r, base) == (obj, true)
    case _ => false
  }

  predicate Along(nn: Key, cfg: Config, cl: Cluster, c: Config) {
    c.uid == cfg.uid && c.spec == cfg.spec && nn in cl.configs && cl.configs[nn] == WithFinalizer(cfg)
  }

  /** The children before the one at hand need no more handling. */
  predicate DoneBefore(h: Handler, nn: Key, cl: Cluster, phase: Phase) {
    Setup(phase) ==> FixedBefore(h, nn, cl.children, phase.r)
  }

  lemma FetchInStep(site: Site, nn: Key, cfg: Config, cl: Cluster)
    requires nn in cl.configs && (cl.configs[nn] == cfg || cl.configs[nn] == WithFinalizer(cfg)) && !cfg.terminating
    ensures var p := WorkFetch(cl, nn);
            p.cl == cl && p.worker.Busy? && p.worker.nn == nn && InStep(site, nn, cfg, cl, p.worker.phase)
            && (p.worker.phase.Mark? || p.worker.phase == Read(cl.configs[nn], Module))
  {
  }

  /** Reading a child leads on with the child untouched, to a write, or to an error on a foreign child. */
  lemma ReadInStep(site: Site, nn: Key, cfg: Config, cl: Cluster, c: Config, r: Role)
    requires InStep(site, nn, cfg, cl, Read(c, r))
    ensures var h := HandlerOf(site, nn, cfg);
            var p := WorkRead(site, cl, nn, c, r);
            var (o, ok) := h(r, Slot(cl.children, nn, r));
            && p.cl.configs == cl.configs && p.cl.children == cl.children && (p.worker.Busy? ==> p.cl == cl)
            && (p.worker.Idle? ==> p == (if ok then Advance(cl, nn, c, r) else End(cl, nn, true)))
            && (p.worker.Busy? ==> p.worker.nn == nn && InStep(site, nn, cfg, cl, p.worker.phase))
            && (p.worker.Busy? && p.worker.phase.Read? ==> ok && p == Advance(cl, nn, c, r))
            && (p.worker.Busy? && DoneBefore(h, nn, cl, Read(c, r)) ==> DoneBefore(h, nn, cl, p.worker.phase))
  {
    var h := HandlerOf(site, nn, cfg);
    var p := WorkRead(site, cl, nn, c, r);
    if p == Advance(cl, nn, c, r) {
      assert Fixed(h, nn, cl.children, r);
    }
  }

  /** Creating or patching stores what Handle says, or is rejected when Handle fails. */
  lemma AttemptInStep(site: Site, nn: Key, cfg: Config, cl: Cluster, phase: Phase)
    requires InStep(site, nn, cfg, cl, phase) && (phase.Make? || phase.Amend?)
    ensures var (o, ok) := HandlerOf(site, nn, cfg)(phase.r, Slot(cl.children, nn, phase.r));
            var reply := Attempt(site, cl, nn, phase);
            && (reply.Some? <==> ok)
            && (reply.Some? ==> reply.value.configs == cl.configs
                                && reply.value.children == Put(cl.children, nn, phase.r, o))
  {
    if phase.Make? {
      MakeInStep(site, nn, cfg, cl, phase.r, phase.obj);
    } else {
      AmendInStep(site, nn, cfg, cl, phase.r, phase.base, phase.obj);
    }
  }

  lemma MakeInStep(site: Site, nn: Key, cfg: Config, cl: Cluster, r: Role, obj: Child)
    requires ChildKey(nn, r) !in cl.children && Mutate(site, nn, cfg, r, BLANK) == (obj, true)
    ensures var (o, ok) := Handle(site, nn, cfg, r, None);
            var reply := Create(site, cl, ChildKey(nn, r), obj);
            && (reply.Some? <==> ok)
            && (reply.Some? ==> reply.value.configs == cl.configs
                                && reply.value.children == Put(cl.children, nn, r, o))
  {
    WriteIsPut(cl, nn, r, obj.(spec := site.defaults(r, obj.spec), terminating := false));
  }

  lemma AmendInStep(site: Site, nn: Key, cfg: Config, cl: Cluster, r: Role, base: Child, obj: Child)
    requires Slot(cl.children, nn, r) == Some(base) && obj != base && Mutate(site, nn, cfg, r, base) == (obj, true)
    ensures var (o, ok) := Handle(site, nn, cfg, r, Some(base));
            var reply := PatchChild(site, cl, ChildKey(nn, r), base, obj);
            && (reply.Some? <==> ok)
            && (reply.Some? ==> reply.value.configs == cl.configs
                                && reply.value.children == Put(cl.children, nn, r, o))
  {
    WriteIsPut(cl, nn, r, Patched(site, r, base, base, obj));
  }

  lemma WriteIsPut(cl: Cluster, nn: Key, r: Role, o: Child)
    ensures var after := WriteChild(cl, ChildKey(nn, r), Some(o));
            after.configs == cl.configs && after.children == Put(cl.children, nn, r, Some(o))
  {
    if Slot(cl.children, nn, r) == Some(o) {
      assert cl.children[ChildKey(nn, r) := o] == cl.children;
    }
  }

  lemma MarkInStep(site: Site, nn: Key, cfg: Config, cl: Cluster)
    requires nn in cl.configs && cl.configs[nn] == cfg && !cfg.terminating
    ensures var reply := Attempt(site, cl, nn, Mark(cfg));
            reply.Some? && reply.value.configs == cl.configs[nn := WithFinalizer(cfg)]
            && reply.value.children == cl.children
  {
  }

  lemma WriteOnTheWay(site: Site, cl0: Cluster, nn: Key, cfg: Config, cl: Cluster, phase: Phase)
    requires var h := HandlerOf(site, nn, cfg); OnTheWay(h, cl0, nn, cfg, cl)
    requires InStep(site, nn, cfg, cl, phase) && Writes(phase) && !cfg.terminating
    requires DoneBefore(HandlerOf(site, nn, cfg), nn, cl, phase)
    ensures var h := HandlerOf(site, nn, cfg);
            var reply := Attempt(site, cl, nn, phase);
            reply.Some? ==>
              && OnTheWay(h, cl0, nn, cfg, reply.value)
              && (phase.Mark? ==> Along(nn, cfg, reply.value, reply.value.configs[nn]))
              && (!phase.Mark? ==> Along(nn, cfg, reply.value, phase.cfg) && DoneBefore(h, nn, reply.value, phase)
                                   && Fixed(h, nn, reply.value.children, phase.r))
  {
    var h := HandlerOf(site, nn, cfg);
    if phase.Mark? {
      MarkInStep(site, nn, cfg, cl);
    } else {
      AttemptInStep(site, nn, cfg, cl, phase);
      if Attempt(site, cl, nn, phase).Some? {
        SweepAbsorbs(h, nn, cl.children, phase.r);
      }
    }
  }

  /** Whatever becomes of the next call, the pass stays on its way, and so does the store if it ends. */
  lemma CallOnTheWay(site: Site, cl0: Cluster, nn: Key, cfg: Config, cl: Cluster, phase: Phase, fault: Fault)
    requires var h := HandlerOf(site, nn, cfg); OnTheWay(h, cl0, nn, cfg, cl)
    requires InStep(site, nn, cfg, cl, phase) && !cfg.terminating
    requires DoneBefore(HandlerOf(site, nn, cfg), nn, cl, phase)
    ensures var h := HandlerOf(site, nn, cfg);
            var p := Work(site, cl, nn, phase, fault);
            && OnTheWay(h, cl0, nn, cfg, p.cl)
            && (p.worker.Busy? ==> p.worker.nn == nn && InStep(site, nn, cfg, p.cl, p.worker.phase)
                                   && DoneBefore(h, nn, p.cl, p.worker.phase))
  {
    if Writes(phase) {
      WriteOnTheWay(site, cl0, nn, cfg, cl, phase);
    } else if phase.Read? {
      ReadInStep(site, nn, cfg, cl, phase.cfg, phase.r);
    } else {
      FetchInStep(site, nn, cfg, cl);
    }
  }

  lemma {:induction false} RunOnTheWay(site: Site, cl0: Cluster, nn: Key, cfg: Config, p: Pass, faults: seq<Fault>)
    requires var h := HandlerOf(site, nn, cfg); OnTheWay(h, cl0, nn, cfg, p.cl)
    requires p.worker.Busy? ==> p.worker.nn == nn && InStep(site, nn, cfg, p.cl, p.worker.phase)
                                && DoneBefore(HandlerOf(site, nn, cfg), nn, p.cl, p.worker.phase)
    requires !cfg.terminating
    ensures OnTheWay(HandlerOf(site, nn, cfg), cl0, nn, cfg, Run(site, p, faults).cl)
    decreases |faults|
  {
    if faults != [] && p.worker.Busy? {
      CallOnTheWay(site, cl0, nn, cfg, p.cl, p.worker.phase, faults[0]);
      RunOnTheWay(site, cl0, nn, cfg, Work(site, p.cl, nn, p.worker.phase, faults[0]), faults[1..]);
    }
  }

  // ---------------------------------------------------------------- an uninterrupted pass

  lemma RunCalls(site: Site, cl: Cluster, nn: Key, phase: Phase, faults: seq<Fault>)
    requires faults != [] && faults[0].Fine?
    ensures Run(site, Pass(cl, Busy(nn, phase)), faults) == Run(site, Work(site, cl, nn, phase, Fine), faults[1..])
  {
  }

  /** The pass went on from the child of role r, which is now as Handle says. */
  predicate Handled(h: Handler, nn: Key, cl: Cluster, c: Config, r: Role, next: Pass) {
    var (o, ok) := h(r, Slot(cl.children, nn, r));
    && next.cl.configs == cl.configs
    && next.cl.children == (if ok then Put(cl.children, nn, r, o) else cl.children)
    && (if ok then next == Advance(next.cl, nn, c, r) else next.worker == Idle(true))
  }

  lemma CleanWrite(site: Site, nn: Key, cfg: Config, cl: Cluster, phase: Phase)
    requires InStep(site, nn, cfg, cl, phase) && (phase.Make? || phase.Amend?)
    ensures Handled(HandlerOf(site, nn, cfg), nn, cl, phase.cfg, phase.r, WorkWrite(site, cl, nn, phase, Fine))
  {
    AttemptInStep(site, nn, cfg, cl, phase);
  }

  lemma CleanRead(site: Site, nn: Key, cfg: Config, cl: Cluster, c: Config, r: Role)
    requires InStep(site, nn, cfg, cl, Read(c, r))
    ensures var h := HandlerOf(site, nn, cfg);
            var p := WorkRead(site, cl, nn, c, r);
            Handled(h, nn, cl, c, r, p)
            || (p.worker.Busy? && p == Pass(cl, Busy(nn, p.worker.phase))
                && (p.worker.phase.Make? || p.worker.phase.Amend?) && p.worker.phase.cfg == c && p.worker.phase.r == r
                && InStep(site, nn, cfg, cl, p.worker.phase))
  {
    ReadInStep(site, nn, cfg, cl, c, r);
    ReadOutcomes(site, cl, nn, c, r);
    assert Put(cl.children, nn, r, Slot(cl.children, nn, r)) == cl.children;
    var h := HandlerOf(site, nn, cfg);
    var p := WorkRead(site, cl, nn, c, r);
    if p == Advance(p.cl, nn, c, r) && h(r, Slot(cl.children, nn, r)).1 {
      assert Fixed(h, nn, cl.children, r);
    }
  }

  /** An uninterrupted pass takes one or two calls to handle a child. */
  lemma CleanChild(site: Site, nn: Key, cfg: Config, cl: Cluster, c: Config, r: Role, faults: seq<Fault>)
    returns (used: nat, next: Pass)
    requires InStep(site, nn, cfg, cl, Read(c, r))
    requires AllFine(faults) && |faults| >= 2
    ensures used <= 2
    ensures Run(site, Pass(cl, Busy(nn, Read(c, r))), faults) == Run(site, next, faults[used..])
    ensures Handled(HandlerOf(site, nn, cfg), nn, cl, c, r, next)
  {
    next := WorkRead(site, cl, nn, c, r);
    used := 1;
    CleanRead(site, nn, cfg, cl, c, r);
    RunCalls(site, cl, nn, Read(c, r), faults);
    if !Handled(HandlerOf(site, nn, cfg), nn, cl, c, r, next) {
      var phase := next.worker.phase;
      CleanWrite(site, nn, cfg, cl, phase);
      RunCalls(site, cl, nn, phase, faults[1..]);
      used, next := 2, WorkWrite(site, cl, nn, phase, Fine);
      assert faults[1..][1..] == faults[2..];
    }
  }

  /** From the read of role r an uninterrupted pass carries out the sweep. */
  lemma {:induction false} CleanFromRead(site: Site, nn: Key, cfg: Config, cl: Cluster, c: Config, r: Role,
                                         faults: seq<Fault>)
    requires InStep(site, nn, cfg, cl, Read(c, r))
    requires AllFine(faults) && |faults| >= 2 * (4 - Order(r))
    ensures var p := Run(site, Pass(cl, Busy(nn, Read(c, r))), faults);
            var (ch, ok) := Sweep(HandlerOf(site, nn, cfg), nn, cl.children, r);
            p.cl.configs == cl.configs && p.cl.children == ch && p.worker == Idle(!ok)
    decreases 4 - Order(r)
  {
    var h := HandlerOf(site, nn, cfg);
    var used, next := CleanChild(site, nn, cfg, cl, c, r, faults);
    if h(r, Slot(cl.children, nn, r)).1 && r != Metrics {
      CleanFromRead(site, nn, cfg, next.cl, c, Next(r), faults[used..]);
    }
  }

  /** An uninterrupted pass marks the DeviceConfig and sweeps its children. */
  lemma CleanPass(site: Site, nn: Key, cfg: Config, cl: Cluster, faults: seq<Fault>)
    requires Clean(faults)
    requires nn in cl.configs && (cl.configs[nn] == cfg || cl.configs[nn] == WithFinalizer(cfg)) && !cfg.terminating
    ensures var p := PassOn(site, cl, nn, faults);
            var (ch, ok) := Sweep(HandlerOf(site, nn, cfg), nn, cl.children, Module);
            p.cl.configs == cl.configs[nn := WithFinalizer(cfg)] && p.cl.children == ch && p.worker == Idle(!ok)
  {
    var h := HandlerOf(site, nn, cfg);
    var p := WorkFetch(cl, nn);
    FetchInStep(site, nn, cfg, cl);
    RunCalls(site, cl, nn, Fetch, faults);
    if p.worker.phase.Mark? {
      MarkInStep(site, nn, cfg, cl);
      RunCalls(site, cl, nn, Mark(cfg), faults[1..]);
      var after := Attempt(site, cl, nn, Mark(cfg)).value;
      CleanFromRead(site, nn, cfg, after, after.configs[nn], Module, faults[1..][1..]);
    } else {
      assert cl.configs[nn := WithFinalizer(cfg)] == cl.configs;
      CleanFromRead(site, nn, cfg, cl, cl.configs[nn], Module, faults[1..]);
    }
  }

  lemma {:induction false} PassesOnTheWay(site: Site, cl0: Cluster, nn: Key, cfg: Config, cl: Cluster,
                                          scripts: seq<seq<Fault>>)
    requires var h := HandlerOf(site, nn, cfg); OnTheWay(h, cl0, nn, cfg, cl)
    requires !cfg.terminating
    ensures OnTheWay(HandlerOf(site, nn, cfg), cl0, nn, cfg, PassesOn(site, cl, nn, scripts))
    decreases |scripts|
  {
    if scripts != [] {
      RunOnTheWay(site, cl0, nn, cfg, Pass(cl, Busy(nn, Fetch)), scripts[0]);
      PassesOnTheWay(site, cl0, nn, cfg, PassOn(site, cl, nn, scripts[0]).cl, scripts[1..]);
    }
  }

  /** After these interrupted passes, an uninterrupted one ends with the same objects and the same outcome
      as if it had been the first. */
  predicate Absorbed(site: Site, cl: Cluster, nn: Key, scripts: seq<seq<Fault>>, clean: seq<Fault>) {
    var late := PassOn(site, PassesOn(site, cl, nn, scripts), nn, clean);
    var first := PassOn(site, cl, nn, clean);
    && late.cl.configs == first.cl.configs && late.cl.children == first.cl.children
    && late.worker == first.worker
  }

  /** The first child of a live DeviceConfig that a pass cannot handle. */
  function StopsAt(site: Site, cl: Cluster, nn: Key): Option<Role>
    requires nn in cl.configs
  {
    FirstFailure(HandlerOf(site, nn, cl.configs[nn]), nn, cl.children)
  }

  lemma SettledAbsorbs(site: Site, cl: Cluster, nn: Key, scripts: seq<seq<Fault>>, clean: seq<Fault>)
    requires StoresDesired(site) && Clean(clean)
    requires nn in cl.configs && !cl.configs[nn].terminating
    requires SettleBefore(site, nn, cl.configs[nn].spec, cl.children, StopsAt(site, cl, nn))
    ensures Absorbed(site, cl, nn, scripts, clean)
  {
    var cfg := cl.configs[nn];
    assert cl.configs[nn := cfg] == cl.configs;
    SettledRepeats(site, nn, cfg, cl.children);
    PassesOnTheWay(site, cl, nn, cfg, cl, scripts);
    SweepsAgree(site, cl, nn, PassesOn(site, cl, nn, scripts), clean);
  }

  lemma SweepsAgree(site: Site, cl: Cluster, nn: Key, mid: Cluster, clean: seq<Fault>)
    requires Clean(clean) && nn in cl.configs && !cl.configs[nn].terminating
    requires OnTheWay(HandlerOf(site, nn, cl.configs[nn]), cl, nn, cl.configs[nn], mid)
    ensures var late, first := PassOn(site, mid, nn, clean), PassOn(site, cl, nn, clean);
            && late.cl.configs == first.cl.configs && late.cl.children == first.cl.children
            && late.worker == first.worker
  {
    var cfg := cl.configs[nn];
    CleanPass(site, nn, cfg, cl, clean);
    CleanPass(site, nn, cfg, mid, clean);
    assert mid.configs[nn := WithFinalizer(cfg)] == cl.configs[nn := WithFinalizer(cfg)];
  }

  /** A second sweep that changes nothing shows that what the first one handled settles. */
  lemma SecondSweepSettles(site: Site, nn: Key, cfg: Config, ch: Children)
    requires Idempotent(site.defaults) && StoresDesired(site)
    requires forall r: Role :: ChildKey(nn, r) in ch ==>
               ch[ChildKey(nn, r)].spec == site.defaults(r, ch[ChildKey(nn, r)].spec)
    requires var h := HandlerOf(site, nn, cfg);
             Sweep(h, nn, Sweep(h, nn, ch, Module).0, Module).0 == Sweep(h, nn, ch, Module).0
    ensures SettleBefore(site, nn, cfg.spec, ch, FirstFailure(HandlerOf(site, nn, cfg), nn, ch))
  {
    var h := HandlerOf(site, nn, cfg);
    var stop := FirstFailure(h, nn, ch);
    var ch' := Sweep(h, nn, ch, Module).0;
    HandlerStores(site, nn, cfg);
    SweepStopsAt(h, nn, ch, ch');
    forall q: Role | Before(q, stop)
      ensures h(q, Slot(ch', nn, q)).1 && h(q, Slot(ch', nn, q)).0.Some?
      ensures Fixed(h, nn, ch', q) <==> Settles(site, nn, cfg.spec, q, SpecOf(Slot(ch, nn, q)))
    {
      ChildSettles(site, nn, cfg, ch, ch', q);
    }
    IdleSweepFixed(h, nn, ch', stop);
  }

  lemma SweepStopsAt(h: Handler, nn: Key, ch: Children, ch': Children)
    requires (forall q, o :: h(q, o).1 ==> h(q, o).0.Some?) && ch' == Sweep(h, nn, ch, Module).0
    ensures var stop := FirstFailure(h, nn, ch);
            && (forall q: Role :: Before(q, stop) ==> h(q, Slot(ch, nn, q)) == (Slot(ch', nn, q), true))
            && (stop.Some? ==> !h(stop.value, Slot(ch', nn, stop.value)).1)
  {
    SweepStops(h, nn, ch, Module, FirstFailure(h, nn, ch));
  }

  /** A sweep that changes nothing finds every child fixed up to where it stops. */
  lemma IdleSweepFixed(h: Handler, nn: Key, ch: Children, stop: Option<Role>)
    requires forall q: Role :: Before(q, stop) ==> h(q, Slot(ch, nn, q)).1 && h(q, Slot(ch, nn, q)).0.Some?
    requires stop.Some? ==> !h(stop.value, Slot(ch, nn, stop.value)).1
    requires Sweep(h, nn, ch, Module).0 == ch
    ensures forall q: Role :: Before(q, stop) ==> Fixed(h, nn, ch, q)
  {
    SweepStops(h, nn, ch, Module, stop);
  }

  lemma AbsorbedSettles(site: Site, cl: Cluster, nn: Key, clean: seq<Fault>)
    requires Idempotent(site.defaults) && StoresDesired(site) && Wakeup.Defaulted(site, cl) && Clean(clean)
    requires nn in cl.configs && !cl.configs[nn].terminating && Absorbed(site, cl, nn, [clean], clean)
    ensures SettleBefore(site, nn, cl.configs[nn].spec, cl.children, StopsAt(site, cl, nn))
  {
    var cfg := cl.configs[nn];
    var p := PassOn(site, cl, nn, clean);
    assert PassesOn(site, cl, nn, [clean]) == p.cl;
    CleanPass(site, nn, cfg, cl, clean);
    CleanPass(site, nn, cfg, p.cl, clean);
    SecondSweepSettles(site, nn, cfg, cl.children);
  }

  /** Interrupted passes are absorbed, whatever they are, wherever they are cut off and whatever replies they
      lose, even when a foreign child stops every pass: if the children before the first one that cannot be
      handled settle, and, where defaulting is idempotent and done, only if they do. */
  lemma InterruptionsAbsorbed(site: Site, cl: Cluster, nn: Key, clean: seq<Fault>)
    requires StoresDesired(site) && Clean(clean)
    requires nn in cl.configs && !cl.configs[nn].terminating
    ensures var settle := SettleBefore(site, nn, cl.configs[nn].spec, cl.children, StopsAt(site, cl, nn));
            && (settle ==> forall scripts :: Absorbed(site, cl, nn, scripts, clean))
            && (Idempotent(site.defaults) && Wakeup.Defaulted(site, cl) ==>
                  (settle <==> forall scripts :: Absorbed(site, cl, nn, scripts, clean)))
  {
    if SettleBefore(site, nn, cl.configs[nn].spec, cl.children, StopsAt(site, cl, nn)) {
      forall scripts ensures Absorbed(site, cl, nn, scripts, clean) {
        SettledAbsorbs(site, cl, nn, scripts, clean);
      }
    } else if Idempotent(site.defaults) && Wakeup.Defaulted(site, cl) {
      if Absorbed(site, cl, nn, [clean], clean) {
        AbsorbedSettles(site, cl, nn, clean);
      }
    }
  }

  // ---------------------------------------------------------------- the fixed point

  predicate AllFixed(h: Handler, nn: Key, ch: Children) {
    FixedBefore(h, nn, ch, Metrics) && Fixed(h, nn, ch, Metrics)
  }

  /** A sweep that succeeds has handled every child from r on. */
  lemma {:induction false} SweepSucceeds(h: Handler, nn: Key, ch: Children, r: Role)
    requires Sweep(h, nn, ch, r).1 && forall q, o :: h(q, o).1 ==> h(q, o).0.Some?
    ensures var ch' := Sweep(h, nn, ch, r).0;
            forall q: Role :: if Order(r) <= Order(q) then h(q, Slot(ch, nn, q)) == (Slot(ch', nn, q), true)
                              else Slot(ch', nn, q) == Slot(ch, nn, q)
    decreases 4 - Order(r)
  {
    var ch1 := Put(ch, nn, r, h(r, Slot(ch, nn, r)).0);
    assert Slot(ch1, nn, r) == h(r, Slot(ch, nn, r)).0;
    assert forall q: Role :: q != r ==> Slot(ch1, nn, q) == Slot(ch, nn, q);
    if r != Metrics {
      SweepSucceeds(h, nn, ch1, Next(r));
    }
  }

  /** A sweep that succeeds changes nothing exactly when handling changes no child. */
  lemma SweepFixed(h: Handler, nn: Key, ch: Children)
    requires Sweep(h, nn, ch, Module).1 && forall q, o :: h(q, o).1 ==> h(q, o).0.Some?
    ensures Sweep(h, nn, ch, Module).0 == ch <==> AllFixed(h, nn, ch)
  {
    SweepSucceeds(h, nn, ch, Module);
    if AllFixed(h, nn, ch) {
      SweepSkips(h, nn, ch, Metrics);
      assert Put(ch, nn, Metrics, Slot(ch, nn, Metrics)) == ch;
    }
  }

  /** A handled child is handled again without an error, and without a change exactly when it settles. */
  lemma HandleAgain(site: Site, nn: Key, cfg: Config, r: Role, o: Option<Child>)
    requires Idempotent(site.defaults) && StoresDesired(site) && Handle(site, nn, cfg, r, o).1
    requires o.Some? ==> o.value.spec == site.defaults(r, o.value.spec)
    ensures var o' := Handle(site, nn, cfg, r, o).0;
            && Handle(site, nn, cfg, r, o').1
            && (Handle(site, nn, cfg, r, o').0 == o'
                <==> Settles(site, nn, cfg.spec, r, SpecOf(o)))
  {
    var o' := Handle(site, nn, cfg, r, o).0;
    HandleOwns(site, nn, cfg, r, o);
    HandleSpec(site, nn, cfg, r, o);
    HandleStoresOwned(site, nn, cfg, r, o);
    if o' != o {
      HandleOwned(site, nn, cfg, r, o'.value);
    }
  }

  /** A clean pass that succeeds leaves every child fixed exactly when every child settles. */
  lemma SweepSettles(site: Site, nn: Key, cfg: Config, ch: Children)
    requires Idempotent(site.defaults) && StoresDesired(site)
    requires forall r: Role :: ChildKey(nn, r) in ch ==>
               ch[ChildKey(nn, r)].spec == site.defaults(r, ch[ChildKey(nn, r)].spec)
    requires Sweep(HandlerOf(site, nn, cfg), nn, ch, Module).1
    ensures var h := HandlerOf(site, nn, cfg);
            var ch' := Sweep(h, nn, ch, Module).0;
            && Sweep(h, nn, ch', Module).1
            && (Sweep(h, nn, ch', Module).0 == ch' <==> AllSettle(site, nn, cfg.spec, ch))
            && (AllSettle(site, nn, cfg.spec, ch) <==> AllFixed(h, nn, ch'))
  {
    var h := HandlerOf(site, nn, cfg);
    var ch' := Sweep(h, nn, ch, Module).0;
    HandlerStores(site, nn, cfg);
    SweepSucceeds(h, nn, ch, Module);
    forall r: Role
      ensures h(r, Slot(ch', nn, r)).1 && h(r, Slot(ch', nn, r)).0.Some?
      ensures Fixed(h, nn, ch', r) <==> Settles(site, nn, cfg.spec, r, SpecOf(Slot(ch, nn, r)))
    {
      assert h(r, Slot(ch, nn, r)) == (Slot(ch', nn, r), true);
      ChildSettles(site, nn, cfg, ch, ch', r);
    }
    FixedIffSettles(site, nn, cfg, ch, ch');
    SweepStops(h, nn, ch', Module, None);
    SweepFixed(h, nn, ch');
  }

  lemma ChildSettles(site: Site, nn: Key, cfg: Config, ch: Children, ch': Children, r: Role)
    requires Idempotent(site.defaults) && StoresDesired(site)
    requires ChildKey(nn, r) in ch ==> ch[ChildKey(nn, r)].spec == site.defaults(r, ch[ChildKey(nn, r)].spec)
    requires HandlerOf(site, nn, cfg)(r, Slot(ch, nn, r)) == (Slot(ch', nn, r), true)
    ensures var h := HandlerOf(site, nn, cfg);
            && h(r, Slot(ch', nn, r)).1 && h(r, Slot(ch', nn, r)).0.Some?
            && (Fixed(h, nn, ch', r) <==> Settles(site, nn, cfg.spec, r, SpecOf(Slot(ch, nn, r))))
  {
    HandleAgain(site, nn, cfg, r, Slot(ch, nn, r));
    HandleOwns(site, nn, cfg, r, Slot(ch', nn, r));
  }

  lemma FixedIffSettles(site: Site, nn: Key, cfg: Config, ch: Children, ch': Children)
    requires forall r: Role ::
               Fixed(HandlerOf(site, nn, cfg), nn, ch', r) <==> Settles(site, nn, cfg.spec, r, SpecOf(Slot(ch, nn, r)))
    ensures AllSettle(site, nn, cfg.spec, ch) <==> AllFixed(HandlerOf(site, nn, cfg), nn, ch')
  {
    var h := HandlerOf(site, nn, cfg);
    if AllFixed(h, nn, ch') {
      forall r: Role ensures Settles(site, nn, cfg.spec, r, SpecOf(Slot(ch, nn, r))) {
        FixedAt(h, nn, ch', r);
      }
    }
  }

  lemma HandlerStores(site: Site, nn: Key, cfg: Config)
    ensures var h := HandlerOf(site, nn, cfg); forall q, o :: h(q, o).1 ==> h(q, o).0.Some?
  {
    forall q, o | Handle(site, nn, cfg, q, o).1 ensures Handle(site, nn, cfg, q, o).0.Some? {
      HandleOwns(site, nn, cfg, q, o);
    }
  }

  /** The number of writes a pass attempts. */
  function WritesIn(site: Site, p: Pass, faults: seq<Fault>): nat
    decreases |faults|
  {
    if faults == [] || p.worker.Idle? then 0
    else (if Writes(p.worker.phase) then 1 else 0)
         + WritesIn(site, Work(site, p.cl, p.worker.nn, p.worker.phase, faults[0]), faults[1..])
  }

  ghost predicate NoDefaulting(site: Site) {
    forall r, f :: site.defaults(r, f) == f
  }

  predicate AtRest(site: Site, nn: Key, cfg: Config, cl: Cluster) {
    && nn in cl.configs && cl.configs[nn] == WithFinalizer(cfg) && !cfg.terminating
    && AllFixed(HandlerOf(site, nn, cfg), nn, cl.children)
  }

  lemma FixedAt(h: Handler, nn: Key, ch: Children, r: Role)
    requires AllFixed(h, nn, ch)
    ensures Fixed(h, nn, ch, r)
  {
  }

  /** The pass found nothing to do so far and goes on, or has ended well. */
  predicate Idles(site: Site, nn: Key, cfg: Config, cl: Cluster, p: Pass) {
    && p.cl == cl && p.worker != Idle(true)
    && (p.worker.Busy? ==>
          && p.worker.nn == nn && !p.worker.phase.Mark? && !p.worker.phase.Make?
          && InStep(site, nn, cfg, cl, p.worker.phase))
  }

  /** A child that handling leaves alone is there, and without defaulting its setter has nothing to do. */
  lemma FixedChild(site: Site, nn: Key, cfg: Config, r: Role, o: Option<Child>)
    requires Handle(site, nn, cfg, r, o) == (o, true)
    ensures o.Some? && Mutate(site, nn, cfg, r, o.value).1
    ensures NoDefaulting(site) && StoresDesired(site) ==> Mutate(site, nn, cfg, r, o.value).0 == o.value
  {
    HandleOwns(site, nn, cfg, r, o);
    if NoDefaulting(site) && StoresDesired(site) {
      HandleSpec(site, nn, cfg, r, o);
      var want := site.desire(nn, cfg.spec, r, o.value.spec);
      assert site.defaults(r, want) == want;
    }
  }

  lemma ReadAtRest(site: Site, nn: Key, cfg: Config, cl: Cluster, c: Config, r: Role)
    requires StoresDesired(site) && AtRest(site, nn, cfg, cl)
    requires InStep(site, nn, cfg, cl, Read(c, r))
    ensures var p := WorkRead(site, cl, nn, c, r);
            Idles(site, nn, cfg, cl, p) && (NoDefaulting(site) && p.worker.Busy? ==> !Writes(p.worker.phase))
  {
    var h := HandlerOf(site, nn, cfg);
    FixedAt(h, nn, cl.children, r);
    FixedChild(site, nn, cfg, r, Slot(cl.children, nn, r));
    ReadInStep(site, nn, cfg, cl, c, r);
  }

  lemma AmendAtRest(site: Site, nn: Key, cfg: Config, cl: Cluster, phase: Phase)
    requires AtRest(site, nn, cfg, cl) && phase.Amend?
    requires InStep(site, nn, cfg, cl, phase)
    ensures Idles(site, nn, cfg, cl, WorkWrite(site, cl, nn, phase, Fine))
  {
    FixedAt(HandlerOf(site, nn, cfg), nn, cl.children, phase.r);
  }

  lemma {:induction false} RunAtRest(site: Site, nn: Key, cfg: Config, p: Pass, faults: seq<Fault>)
    requires StoresDesired(site) && AtRest(site, nn, cfg, p.cl)
    requires Idles(site, nn, cfg, p.cl, p) && AllFine(faults)
    ensures Run(site, p, faults).cl == p.cl && Run(site, p, faults).worker != Idle(true)
    ensures NoDefaulting(site) && (p.worker.Busy? ==> !Writes(p.worker.phase)) ==> WritesIn(site, p, faults) == 0
    decreases |faults|
  {
    if faults != [] && p.worker.Busy? {
      var phase := p.worker.phase;
      match phase {
        case Fetch => FetchInStep(site, nn, cfg, p.cl);
        case Read(c, r) => ReadAtRest(site, nn, cfg, p.cl, c, r);
        case _ => AmendAtRest(site, nn, cfg, p.cl, phase);
      }
      RunAtRest(site, nn, cfg, Work(site, p.cl, nn, phase, faults[0]), faults[1..]);
    }
  }

  /** After an uninterrupted pass that ended well, a second one ends well too, and changes no stored object
      exactly when setting and defaulting every child's spec once reaches a fixed point. It then wakes nobody,
      and does not even attempt a write if the server defaults nothing. */
  lemma CleanPassFixes(site: Site, cl: Cluster, nn: Key, clean: seq<Fault>)
    requires Idempotent(site.defaults) && StoresDesired(site) && Wakeup.Defaulted(site, cl) && Clean(clean)
    requires nn in cl.configs && !cl.configs[nn].terminating
    requires PassOn(site, cl, nn, clean).worker == Idle(false)
    ensures var p := PassOn(site, cl, nn, clean);
            var again := PassOn(site, p.cl, nn, clean);
            && again.worker == Idle(false) && again.cl.configs == p.cl.configs
            && (again.cl.children == p.cl.children <==> AllSettle(site, nn, cl.configs[nn].spec, cl.children))
            && (AllSettle(site, nn, cl.configs[nn].spec, cl.children) ==>
                  again == p && (NoDefaulting(site) ==> WritesIn(site, Pass(p.cl, Busy(nn, Fetch)), clean) == 0))
  {
    var cfg := cl.configs[nn];
    CleanPass(site, nn, cfg, cl, clean);
    SweepSettles(site, nn, cfg, cl.children);
    var p := PassOn(site, cl, nn, clean);
    CleanPass(site, nn, cfg, p.cl, clean);
    if AllSettle(site, nn, cfg.spec, cl.children) {
      RunAtRest(site, nn, cfg, Pass(p.cl, Busy(nn, Fetch)), clean);
    }
  }

  // ---------------------------------------------------------------- where a pass stops

  /** The child cannot become this DeviceConfig's: someone else controls it, or a plain reference to the
      DeviceConfig precedes the controller one. */
  ghost predicate Blocked(cl: Cluster, nn: Key, r: Role) {
    var o := Slot(cl.children, nn, r);
    o.Some? && (Foreign(o.value.owners, nn.name) || Shadowed(o.value.owners, nn.name))
  }

  /** The sweep stops at the first role that fails, or not at all. */
  lemma {:induction false} SweepStops(h: Handler, nn: Key, ch: Children, r: Role, stop: Option<Role>)
    requires forall q :: Order(r) <= Order(q) && Before(q, stop) ==>
               h(q, Slot(ch, nn, q)).1 && h(q, Slot(ch, nn, q)).0.Some?
    requires stop.Some? ==> Order(r) <= Order(stop.value) && !h(stop.value, Slot(ch, nn, stop.value)).1
    ensures Sweep(h, nn, ch, r).1 == stop.None?
    ensures var ch' := Sweep(h, nn, ch, r).0;
            forall q :: Slot(ch', nn, q) ==
              if Order(r) <= Order(q) && Before(q, stop) then h(q, Slot(ch, nn, q)).0
              else Slot(ch, nn, q)
    decreases 4 - Order(r)
  {
    if stop != Some(r) {
      assert Order(r) <= Order(r) && h(r, Slot(ch, nn, r)).1;
      var ch1 := Put(ch, nn, r, h(r, Slot(ch, nn, r)).0);
      assert Slot(ch1, nn, r) == h(r, Slot(ch, nn, r)).0;
      assert forall q: Role :: q != r ==> Slot(ch1, nn, q) == Slot(ch, nn, q);
      if r != Metrics {
        assert stop.Some? ==> Order(Next(r)) <= Order(stop.value);
        SweepStops(h, nn, ch1, Next(r), stop);
      }
    }
  }

  /** stop is the first role whose child is blocked, if there is one. */
  ghost predicate FirstBlocked(cl: Cluster, nn: Key, stop: Option<Role>) {
    && (stop.Some? ==> Blocked(cl, nn, stop.value))
    && forall q :: Before(q, stop) ==> !Blocked(cl, nn, q)
  }

  lemma HandledConverges(site: Site, nn: Key, cfg: Config, cl: Cluster, r: Role, after: Cluster)
    requires StoresDesired(site) && Wakeup.Defaulted(site, cl)
    requires Settles(site, nn, cfg.spec, r, SpecOf(Slot(cl.children, nn, r)))
    requires var (o, ok) := Handle(site, nn, cfg, r, Slot(cl.children, nn, r)); ok && Slot(after.children, nn, r) == o
    ensures Wakeup.Converged(site, after, nn, cfg, r)
  {
    HandleOwns(site, nn, cfg, r, Slot(cl.children, nn, r));
    HandleSpec(site, nn, cfg, r, Slot(cl.children, nn, r));
  }

  /** What an uninterrupted pass leaves in the store: handled children before the first blocked one. */
  lemma PassLeaves(site: Site, cl: Cluster, nn: Key, clean: seq<Fault>, stop: Option<Role>)
    requires Clean(clean) && nn in cl.configs && !cl.configs[nn].terminating
    requires forall k :: k in cl.children ==> Valid(cl.children[k].owners)
    requires FirstBlocked(cl, nn, stop)
    ensures var p := PassOn(site, cl, nn, clean);
            && p.worker == Idle(stop.Some?)
            && forall q: Role :: Leaves(site, cl, nn, stop, p.cl, q)
  {
    var cfg := cl.configs[nn];
    var h := HandlerOf(site, nn, cfg);
    HandlerStores(site, nn, cfg);
    forall q: Role ensures h(q, Slot(cl.children, nn, q)).1 <==> !Blocked(cl, nn, q) {
      HandleFailsIff(site, nn, cfg, q, Slot(cl.children, nn, q));
    }
    SweepStops(h, nn, cl.children, Module, stop);
    CleanPass(site, nn, cfg, cl, clean);
  }

  predicate Leaves(site: Site, cl: Cluster, nn: Key, stop: Option<Role>, after: Cluster, q: Role)
    requires nn in cl.configs
  {
    var o := Slot(cl.children, nn, q);
    if Before(q, stop) then
      var (o', ok) := Handle(site, nn, cl.configs[nn], q, o);
      ok && Slot(after.children, nn, q) == o'
    else Slot(after.children, nn, q) == o
  }

  /** An uninterrupted pass fails exactly when a child is blocked. It stops at the first such child and leaves
      that one and the later ones alone; each earlier one, or each of the four, has converged if it settles. */
  lemma PassStopsAtBlocked(site: Site, cl: Cluster, nn: Key, clean: seq<Fault>, stop: Option<Role>)
    requires Clean(clean) && nn in cl.configs && !cl.configs[nn].terminating
    requires forall k :: k in cl.children ==> Valid(cl.children[k].owners)
    requires FirstBlocked(cl, nn, stop)
    ensures var p := PassOn(site, cl, nn, clean);
            && p.worker == Idle(stop.Some?)
            && (forall q: Role :: !Before(q, stop) ==> Slot(p.cl.children, nn, q) == Slot(cl.children, nn, q))
            && (StoresDesired(site) && Wakeup.Defaulted(site, cl) ==>
                  forall q: Role ::
                    Before(q, stop) && Settles(site, nn, cl.configs[nn].spec, q, SpecOf(Slot(cl.children, nn, q))) ==>
                      Wakeup.Converged(site, p.cl, nn, cl.configs[nn], q))
  {
    var p := PassOn(site, cl, nn, clean);
    PassLeaves(site, cl, nn, clean, stop);
    forall q: Role | !Before(q, stop) ensures Slot(p.cl.children, nn, q) == Slot(cl.children, nn, q) {
      assert Leaves(site, cl, nn, stop, p.cl, q);
    }
    if StoresDesired(site) && Wakeup.Defaulted(site, cl) {
      forall q: Role |
        Before(q, stop) && Settles(site, nn, cl.configs[nn].spec, q, SpecOf(Slot(cl.children, nn, q)))
        ensures Wakeup.Converged(site, p.cl, nn, cl.configs[nn], q)
      {
        assert Leaves(site, cl, nn, stop, p.cl, q);
        HandledConverges(site, nn, cl.configs[nn], cl, q, p.cl);
      }
    }
  }
}
