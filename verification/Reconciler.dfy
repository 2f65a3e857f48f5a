/** The reconciler as it is written: methods that call the API server, edit the DeviceConfig in memory and
    return early. Each is proved to make exactly the calls of the machine in module Cluster. */
module Reconciler {
  import opened Json
  import opened Api
  import opened Owners
  import opened Desired
  import opened Cluster
  import opened Objects
  import opened Setters
  import opened Operator
  import opened Passes
  import opened Names
  import opened Effects
  import F = Finalizers

  // ---------------------------------------------------------------- the client

  /** The machine made call number i. */
  ghost predicate Linked(site: Site, log: seq<Pass>, fates: seq<Fault>, i: nat)
    requires |log| == |fates| + 1 && i < |fates|
  {
    log[i].worker.Busy? && log[i + 1] == Work(site, log[i].cl, log[i].worker.nn, log[i].worker.phase, fates[i])
  }

  ghost predicate Traced(site: Site, log: seq<Pass>, fates: seq<Fault>)
    requires |log| == |fates| + 1
  {
    forall i :: 0 <= i < |fates| ==> Linked(site, log, fates, i)
  }

  lemma TraceOn(site: Site, log: seq<Pass>, fates: seq<Fault>, fault: Fault)
    requires |log| == |fates| + 1 && Traced(site, log, fates) && log[|fates|].worker.Busy?
    ensures var p := log[|fates|];
            Traced(site, log + [Work(site, p.cl, p.worker.nn, p.worker.phase, fault)], fates + [fault])
  {
    var p := log[|fates|];
    var log' := log + [Work(site, p.cl, p.worker.nn, p.worker.phase, fault)];
    forall i | 0 <= i < |fates| + 1 ensures Linked(site, log', fates + [fault], i) {
      assert i < |fates| ==> Linked(site, log, fates, i);
    }
  }

  function FateAt(given: seq<Fault>, i: nat): Fault {
    if i < |given| then given[i] else Fine
  }

  /** The calls met the faults that were given, in order; script is what remains of them. */
  ghost predicate Obeys(given: seq<Fault>, fates: seq<Fault>, script: seq<Fault>) {
    && (forall i :: 0 <= i < |fates| ==> fates[i] == FateAt(given, i))
    && script == if |fates| <= |given| then given[|fates|..] else []
  }

  lemma ObeyOn(given: seq<Fault>, fates: seq<Fault>, script: seq<Fault>)
    requires Obeys(given, fates, script)
    ensures Obeys(given, fates + [if script == [] then Fine else script[0]], if script == [] then [] else script[1..])
  {
  }

  /** The client of the API server. The script says what goes wrong with the next calls; when it is used up
      nothing does any more. The log holds the states of the machine that the calls have gone through. */
  class Client {
    const site: Site
    ghost const given: seq<Fault>
    var cl: Cluster
    var script: seq<Fault>
    ghost var log: seq<Pass>
    ghost var fates: seq<Fault>

    constructor (site: Site, cl: Cluster, script: seq<Fault>, nn: Key)
      ensures this.site == site && this.cl == cl && this.given == script
      ensures Valid() && log == [Pass(cl, Busy(nn, Fetch))] && fates == []
    {
      this.site, this.cl, this.script, this.given := site, cl, script, script;
      log, fates := [Pass(cl, Busy(nn, Fetch))], [];
    }

    ghost predicate Valid()
      reads this`log, this`fates, this`script
    {
      |log| == |fates| + 1 && Traced(site, log, fates) && Obeys(given, fates, script)
    }

    /** Where the machine stands. */
    ghost function At(): Pass
      requires Valid()
      reads this`log, this`fates, this`script
    {
      log[|fates|]
    }

    /** The fate of the next call. */
    method Reach(ghost nn: Key, ghost phase: Phase) returns (fault: Fault)
      requires Valid() && At() == Pass(cl, Busy(nn, phase))
      modifies this`script, this`log, this`fates
      ensures Valid() && old(log) <= log && At() == Work(site, cl, nn, phase, fault)
    {
      ObeyOn(given, fates, script);
      fault := Fine;
      if script != [] {
        fault, script := script[0], script[1..];
      }
      TraceOn(site, log, fates, fault);
      log, fates := log + [Work(site, cl, nn, phase, fault)], fates + [fault];
    }

    /** A read; the caller looks at the store afterwards if it came through. */
    method Look(ghost nn: Key, ghost phase: Phase) returns (ok: bool)
      requires Valid() && At() == Pass(cl, Busy(nn, phase)) && !Writes(phase)
      modifies this`script, this`log, this`fates
      ensures Valid() && old(log) <= log
      ensures At() == if ok then WorkLook(site, cl, nn, phase) else End(cl, nn, true)
    {
      var fault := Reach(nn, phase);
      ok := fault.Fine?;
    }

    /** A write takes effect if the server accepts it and the call is not lost before it gets there. */
    method Commit(reply: Option<Cluster>, ghost nn: Key, ghost phase: Phase) returns (ok: bool)
      requires Valid() && At() == Pass(cl, Busy(nn, phase)) && Writes(phase)
      requires reply == Attempt(site, cl, nn, phase)
      modifies this
      ensures Valid() && old(log) <= log
      ensures At() == if ok then Follow(cl, nn, phase) else End(cl, nn, true)
      ensures ok ==> reply == Some(cl)
      ensures reply != Some(cl) ==> cl == old(cl)
    {
      var fault := Reach(nn, phase);
      ok := Through(reply, fault);
      if reply.Some? && fault != Lost(false) {
        cl := reply.value;
      }
    }
  }

  // ---------------------------------------------------------------- objects by name

  /** The object that goes by a kind, namespace and name. */
  function ByName(ch: Children, kk: KubeKey): Option<Child> {
    match Find(kk)
    case None => None
    case Some(k) => ChildAt(ch, k)
  }

  method Get(c: Client, kk: KubeKey, ghost nn: Key, ghost phase: Phase) returns (ok: bool, found: Option<Child>)
    requires c.Valid() && c.At() == Pass(c.cl, Busy(nn, phase)) && !Writes(phase)
    modifies c`script, c`log, c`fates
    ensures c.Valid() && old(c.log) <= c.log
    ensures c.At() == if ok then WorkLook(c.site, c.cl, nn, phase) else End(c.cl, nn, true)
    ensures found == ByName(c.cl.children, kk)
  {
    ok := c.Look(nn, phase);
    found := ByName(c.cl.children, kk);
  }

  method Delete(c: Client, kk: KubeKey, ghost nn: Key, ghost phase: Phase) returns (ok: bool)
    requires c.Valid() && c.At() == Pass(c.cl, Busy(nn, phase)) && (phase.DropMetrics? || phase.DropModule?)
    requires Find(kk) == Some(ChildKey(nn, if phase.DropMetrics? then Metrics else Module))
    modifies c
    ensures c.Valid() && old(c.log) <= c.log && c.At() == End(c.cl, nn, !ok)
    ensures SpecsKept(old(c.cl), c.cl) && Gentle(old(c.cl), c.cl)
  {
    AttemptKeepsSpecs(c.site, c.cl, nn, phase);
    AttemptIsGentle(c.site, c.cl, nn, phase);
    ok := c.Commit(DeleteChild(c.cl, Find(kk).value), nn, phase);
  }

  /** The patch of a DeviceConfig from base to base with the finalizers fs. */
  method Patch(c: Client, nn: Key, base: Config, fs: seq<string>, ghost phase: Phase) returns (ok: bool)
    requires c.Valid() && c.At() == Pass(c.cl, Busy(nn, phase)) && (phase.Mark? || phase.Unmark?)
    requires Attempt(c.site, c.cl, nn, phase) == PatchFinalizers(c.cl, nn, base, fs)
    modifies c
    ensures c.Valid() && old(c.log) <= c.log
    ensures c.At() == if ok then Follow(c.cl, nn, phase) else End(c.cl, nn, true)
    ensures SpecsKept(old(c.cl), c.cl) && c.cl.children == old(c.cl.children)
  {
    AttemptKeepsSpecs(c.site, c.cl, nn, phase);
    ok := c.Commit(PatchFinalizers(c.cl, nn, base, fs), nn, phase);
  }

  // ---------------------------------------------------------------- the reconciler

  /** setFinalizer: one patch, or none if the finalizer is there; the reply replaces the DeviceConfig. */
  method SetFinalizer(c: Client, d: DeviceConfig) returns (ok: bool)
    requires c.Valid() && d.Valid()
    requires c.At() == Pass(c.cl, Busy(Key(d.ns, d.name), if F.Marked(d.List()) then Read(d.Stored(), Module)
                                                         else Mark(d.Stored())))
    modifies c, d, d.finalizers, d.spec
    ensures c.Valid() && d.Valid() && Key(d.ns, d.name) == old(Key(d.ns, d.name)) && old(c.log) <= c.log
    ensures var nn := old(Key(d.ns, d.name));
            c.At() == if ok then Pass(c.cl, Busy(nn, Read(d.Stored(), Module))) else End(c.cl, nn, true)
    ensures SpecsKept(old(c.cl), c.cl) && c.cl.children == old(c.cl.children)
  {
    var found := d.ContainsFinalizer();
    if found { return true; }
    var nn := Key(d.ns, d.name);
    var base := MarkLocally(d);
    ok := Patch(c, nn, base.Stored(), d.List(), Mark(base.Stored()));
    if ok {
      var reply := ConfigAt(c.cl, nn);
      if reply.None? { return false; }
      d.Load(nn, reply.value);
    }
  }

  /** finalizeDeviceConfig: one child deleted, by name, or the finalizer taken off once both are gone. No spec is
      touched, and no child that somebody holds is taken away. */
  method FinalizeDeviceConfig(c: Client, d: DeviceConfig) returns (ok: bool)
    requires c.Valid() && d.Valid()
    requires c.At() == Pass(c.cl, Busy(Key(d.ns, d.name), ReadMetrics(d.Stored())))
    modifies c, d, d.finalizers
    ensures c.Valid() && old(c.log) <= c.log && c.At() == End(c.cl, old(Key(d.ns, d.name)), !ok)
    ensures SpecsKept(old(c.cl), c.cl) && Gentle(old(c.cl), c.cl)
  {
    ghost var nn, cfg := Key(d.ns, d.name), d.Stored();
    ChildNames(nn);
    var metrics := KubeKey(DaemonSetKind, d.ns, d.name + "-node-metrics");
    var mod := KubeKey(ModuleKind, d.ns, d.name);
    var found: Option<Child>;
    ok, found := Get(c, metrics, nn, ReadMetrics(cfg));
    if !ok { return; }
    if found.Some? {
      ok := Delete(c, metrics, nn, DropMetrics(cfg));
      return;
    }
    ok, found := Get(c, mod, nn, ReadModule(cfg));
    if !ok { return; }
    if found.Some? {
      ok := Delete(c, mod, nn, DropModule(cfg));
      return;
    }
    ok := TakeFinalizerOff(c, d);
  }

  method TakeFinalizerOff(c: Client, d: DeviceConfig) returns (ok: bool)
    requires c.Valid() && d.Valid()
    requires c.At() == Pass(c.cl, Busy(Key(d.ns, d.name), Unmark(d.Stored())))
    modifies c, d, d.finalizers
    ensures c.Valid() && old(c.log) <= c.log && c.At() == End(c.cl, old(Key(d.ns, d.name)), !ok)
    ensures SpecsKept(old(c.cl), c.cl) && Gentle(old(c.cl), c.cl)
  {
    var nn := Key(d.ns, d.name);
    var base := UnmarkLocally(d);
    ok := Patch(c, nn, base.Stored(), d.List(), Unmark(base.Stored()));
  }

  /** The end of CreateOrPatch: create what is missing, patch what the setter changed, or do nothing. What is
      created is bare: no finalizers, one owner, and the spec the setter makes of an empty one. */
  method CreateOrPatch(c: Client, kk: KubeKey, before: Option<Child>, obj: Child, ghost nn: Key, ghost r: Role,
                       ghost cfg: Config)
    returns (ok: bool)
    requires c.Valid() && Find(kk) == Some(ChildKey(nn, r)) && before == ByName(c.cl.children, kk)
    requires Mutate(c.site, nn, cfg, r, if before.Some? then before.value else BLANK) == (obj, true)
    requires c.At() == WorkRead(c.site, c.cl, nn, cfg, r)
    modifies c
    ensures c.Valid() && old(c.log) <= c.log
    ensures c.At() == if ok then Advance(c.cl, nn, cfg, r) else End(c.cl, nn, true)
    ensures before.None? && ok ==>
              ByName(c.cl.children, kk) == Some(Child([], false, [Ref(nn.name, cfg.uid)],
                                                      c.site.defaults(r, c.site.desire(nn, cfg.spec, r, map[]))))
  {
    var k := Find(kk).value;
    if before.None? {
      HandleMissing(c.site, nn, cfg, r);
      ok := c.Commit(Create(c.site, c.cl, k, obj), nn, Make(cfg, r, obj));
    } else if obj == before.value {
      ok := true;
    } else {
      ok := c.Commit(PatchChild(c.site, c.cl, k, before.value, obj), nn, Amend(cfg, r, before.value, obj));
    }
  }

  /** The setters' functions are what the site's passes aim at. */
  ghost predicate OwnSetters(site: Site, ready: Key -> Member) {
    site == SiteOf(site.defaults, ready)
  }

  /** The setter of a role has done to the copy what the site asks for. */
  lemma MutateIs(site: Site, nn: Key, cfg: Config, r: Role, base: Child, obj: Child, ok: bool, ready: Key -> Member)
    requires OwnSetters(site, ready)
    requires obj.finalizers == base.finalizers && obj.terminating == base.terminating
    requires obj.spec == Desire(ready, nn, cfg.spec, r, base.spec)
    requires ok <==> !Foreign(base.owners, nn.name)
    requires obj.owners == if ok then Upsert(base.owners, Ref(nn.name, cfg.uid)) else base.owners
    ensures Mutate(site, nn, cfg, r, base) == (obj, ok)
  {
  }

  /** The mutation that handleKMMModule hands to CreateOrPatch, on a copy of the object as it was read. */
  method MutateModule(site: Site, d: DeviceConfig, base: Child, ghost ready: Key -> Member)
    returns (ok: bool, obj: Child)
    requires d.Valid() && OwnSetters(site, ready)
    ensures Mutate(site, Key(d.ns, d.name), d.Stored(), Module, base) == (obj, ok)
  {
    var mod := new KmmModule(base);
    assert mod.Spec() == base.spec;
    ghost var cfg := d.Stored();
    ok := SetKMMModuleAsDesired(mod, d);
    obj := mod.Object();
    assert obj.spec == SetPlugin(cfg.spec, SetLoader(cfg.spec, base.spec));
    MutateIs(site, Key(d.ns, d.name), cfg, Module, base, obj, ok, ready);
  }

  method HandleKMMModule(c: Client, d: DeviceConfig, ghost ready: Key -> Member) returns (ok: bool)
    requires c.Valid() && d.Valid() && OwnSetters(c.site, ready)
    requires c.At() == Pass(c.cl, Busy(Key(d.ns, d.name), Read(d.Stored(), Module)))
    modifies c
    ensures c.Valid() && old(c.log) <= c.log
    ensures c.At() == if ok then Advance(c.cl, Key(d.ns, d.name), d.Stored(), Module)
                      else End(c.cl, Key(d.ns, d.name), true)
  {
    ghost var nn, cfg := Key(d.ns, d.name), d.Stored();
    ChildNames(nn);
    var kk := KubeKey(ModuleKind, d.ns, d.name);
    var before: Option<Child>;
    ok, before := Get(c, kk, nn, Read(cfg, Module));
    if !ok { return; }
    var done, obj := MutateModule(c.site, d, if before.Some? then before.value else BLANK, ready);
    if !done { return false; }
    ok := CreateOrPatch(c, kk, before, obj, nn, Module, cfg);
  }

  /** The mutations of handleCustomScheduler: the setter, then the controller reference. */
  method MutateScheduler(site: Site, d: DeviceConfig, base: Child, ghost ready: Key -> Member)
    returns (ok: bool, obj: Child)
    requires d.Valid() && OwnSetters(site, ready)
    ensures Mutate(site, Key(d.ns, d.name), d.Stored(), Scheduler, base) == (obj, ok)
  {
    var dp := new WorkloadObject(base);
    SetCustomSchedulerAsDesired(dp, d, ready);
    ok, dp.owners := ControllerReference(d, dp.owners);
    obj := dp.Object();
    MutateIs(site, Key(d.ns, d.name), d.Stored(), Scheduler, base, obj, ok, ready);
  }

  method MutateExtension(site: Site, d: DeviceConfig, base: Child, ghost ready: Key -> Member)
    returns (ok: bool, obj: Child)
    requires d.Valid() && OwnSetters(site, ready)
    ensures Mutate(site, Key(d.ns, d.name), d.Stored(), Extension, base) == (obj, ok)
  {
    var dp := new WorkloadObject(base);
    SetCustomSchedulerExtensionAsDesired(dp, d, ready);
    ok, dp.owners := ControllerReference(d, dp.owners);
    obj := dp.Object();
    MutateIs(site, Key(d.ns, d.name), d.Stored(), Extension, base, obj, ok, ready);
  }

  /** handleCustomScheduler: two Deployments, the second only if the first went well. */
  method HandleCustomScheduler(c: Client, d: DeviceConfig, ghost ready: Key -> Member) returns (ok: bool)
    requires c.Valid() && d.Valid() && OwnSetters(c.site, ready)
    requires c.At() == Pass(c.cl, Busy(Key(d.ns, d.name), Read(d.Stored(), Scheduler)))
    modifies c
    ensures c.Valid() && old(c.log) <= c.log
    ensures c.At() == if ok then Advance(c.cl, Key(d.ns, d.name), d.Stored(), Extension)
                      else End(c.cl, Key(d.ns, d.name), true)
  {
    ok := HandleScheduler(c, d, ready);
    if !ok { return; }
    ok := HandleExtension(c, d, ready);
  }

  method HandleScheduler(c: Client, d: DeviceConfig, ghost ready: Key -> Member) returns (ok: bool)
    requires c.Valid() && d.Valid() && OwnSetters(c.site, ready)
    requires c.At() == Pass(c.cl, Busy(Key(d.ns, d.name), Read(d.Stored(), Scheduler)))
    modifies c
    ensures c.Valid() && old(c.log) <= c.log
    ensures c.At() == if ok then Advance(c.cl, Key(d.ns, d.name), d.Stored(), Scheduler)
                      else End(c.cl, Key(d.ns, d.name), true)
  {
    ghost var nn, cfg := Key(d.ns, d.name), d.Stored();
    ChildNames(nn);
    var kk := KubeKey(DeploymentKind, d.ns, d.name + "-custom-scheduler");
    var before: Option<Child>;
    ok, before := Get(c, kk, nn, Read(cfg, Scheduler));
    if !ok { return; }
    var done, obj := MutateScheduler(c.site, d, if before.Some? then before.value else BLANK, ready);
    if !done { return false; }
    ok := CreateOrPatch(c, kk, before, obj, nn, Scheduler, cfg);
  }

  method HandleExtension(c: Client, d: DeviceConfig, ghost ready: Key -> Member) returns (ok: bool)
    requires c.Valid() && d.Valid() && OwnSetters(c.site, ready)
    requires c.At() == Pass(c.cl, Busy(Key(d.ns, d.name), Read(d.Stored(), Extension)))
    modifies c
    ensures c.Valid() && old(c.log) <= c.log
    ensures c.At() == if ok then Advance(c.cl, Key(d.ns, d.name), d.Stored(), Extension)
                      else End(c.cl, Key(d.ns, d.name), true)
  {
    ghost var nn, cfg := Key(d.ns, d.name), d.Stored();
    ChildNames(nn);
    var kk := KubeKey(DeploymentKind, d.ns, d.name + "-custom-scheduler-extension");
    var before: Option<Child>;
    ok, before := Get(c, kk, nn, Read(cfg, Extension));
    if !ok { return; }
    var done, obj := MutateExtension(c.site, d, if before.Some? then before.value else BLANK, ready);
    if !done { return false; }
    ok := CreateOrPatch(c, kk, before, obj, nn, Extension, cfg);
  }

  method MutateMetrics(site: Site, d: DeviceConfig, base: Child, ready: Key -> Member) returns (ok: bool, obj: Child)
    requires d.Valid() && OwnSetters(site, ready)
    ensures Mutate(site, Key(d.ns, d.name), d.Stored(), Metrics, base) == (obj, ok)
  {
    var ds := new WorkloadObject(base);
    ok := SetNodeMetricsAsDesired(ds, d, ready);
    obj := ds.Object();
    MutateIs(site, Key(d.ns, d.name), d.Stored(), Metrics, base, obj, ok, ready);
  }

  method HandleNodeMetrics(c: Client, d: DeviceConfig, ready: Key -> Member) returns (ok: bool)
    requires c.Valid() && d.Valid() && OwnSetters(c.site, ready)
    requires c.At() == Pass(c.cl, Busy(Key(d.ns, d.name), Read(d.Stored(), Metrics)))
    modifies c
    ensures c.Valid() && old(c.log) <= c.log
    ensures c.At() == End(c.cl, Key(d.ns, d.name), !ok)
  {
    ghost var nn, cfg := Key(d.ns, d.name), d.Stored();
    ChildNames(nn);
    var kk := KubeKey(DaemonSetKind, d.ns, d.name + "-node-metrics");
    var before: Option<Child>;
    ok, before := Get(c, kk, nn, Read(cfg, Metrics));
    if !ok { return; }
    var done, obj := MutateMetrics(c.site, d, if before.Some? then before.value else BLANK, ready);
    if !done { return false; }
    ok := CreateOrPatch(c, kk, before, obj, nn, Metrics, cfg);
  }

  /** Reconcile. */
  method Reconcile(c: Client, d: DeviceConfig, ready: Key -> Member) returns (ok: bool)
    requires c.Valid() && d.Valid() && OwnSetters(c.site, ready)
    requires ConfigAt(c.cl, Key(d.ns, d.name)) == Some(d.Stored())
    requires c.At() == WorkFetch(c.cl, Key(d.ns, d.name))
    modifies c, d, d.finalizers, d.spec
    ensures c.Valid() && old(c.log) <= c.log
    ensures c.At() == End(c.cl, old(Key(d.ns, d.name)), !ok)
  {
    if d.terminating {
      ok := FinalizeDeviceConfig(c, d);
      return;
    }
    ok := SetFinalizer(c, d);
    if !ok { return; }
    ok := HandleKMMModule(c, d, ready);
    if !ok { return; }
    ok := HandleCustomScheduler(c, d, ready);
    if !ok { return; }
    ok := HandleNodeMetrics(c, d, ready);
  }

  /** What the work queue does with a key: AsReconciler fetches the DeviceConfig, a missing one is nothing to
      do, and an error puts the key back. */
  method Process(c: Client, nn: Key, ready: Key -> Member) returns (ok: bool)
    requires c.Valid() && OwnSetters(c.site, ready) && c.At() == Pass(c.cl, Busy(nn, Fetch))
    modifies c
    ensures c.Valid() && old(c.log) <= c.log && c.At() == Pass(c.cl, Idle(!ok))
  {
    ok := c.Look(nn, Fetch);
    if ok && nn in c.cl.configs {
      var d := new DeviceConfig();
      d.Load(nn, c.cl.configs[nn]);
      ok := Reconcile(c, d, ready);
    }
    if !ok {
      c.cl := c.cl.(events := c.cl.events + {nn});
    }
  }

  // ---------------------------------------------------------------- the calls made are a run of the machine

  /** A pass makes at most ten calls. */
  function Budget(w: Worker): nat {
    if w.Idle? then 0
    else
      match w.phase
      case Fetch => 10
      case Mark(_) => 9
      case Read(_, r) => 2 * (4 - Order(r))
      case Make(_, r, _) => 2 * (4 - Order(r)) - 1
      case Amend(_, r, _, _) => 2 * (4 - Order(r)) - 1
      case ReadMetrics(_) => 3
      case ReadModule(_) => 2
      case _ => 1
  }

  lemma CallSpendsBudget(site: Site, cl: Cluster, nn: Key, phase: Phase, fault: Fault)
    ensures Budget(Work(site, cl, nn, phase, fault).worker) < Budget(Busy(nn, phase))
  {
    if phase.Read? {
      ReadOutcomes(site, cl, nn, phase.cfg, phase.r);
    }
  }

  /** From any state in the log the machine runs on to the last one, within its budget. */
  lemma {:induction false} LogIsRun(site: Site, log: seq<Pass>, fates: seq<Fault>, i: nat, more: seq<Fault>)
    requires |log| == |fates| + 1 && Traced(site, log, fates) && i <= |fates|
    requires log[|fates|].worker.Idle?
    ensures Run(site, log[i], fates[i..] + more) == log[|fates|]
    ensures |fates| - i <= Budget(log[i].worker)
    decreases |fates| - i
  {
    if i < |fates| {
      assert Linked(site, log, fates, i);
      CallSpendsBudget(site, log[i].cl, log[i].worker.nn, log[i].worker.phase, fates[i]);
      LogIsRun(site, log, fates, i + 1, more);
      assert (fates[i..] + more)[0] == fates[i];
      assert (fates[i..] + more)[1..] == fates[i + 1..] + more;
    }
  }

  /** A pass of the reconciler on the key nn, with the given faults, is the machine's pass with these faults. */
  method ReconcileKey(site: Site, cl: Cluster, nn: Key, given: seq<Fault>, ready: Key -> Member)
    returns (after: Cluster, ok: bool, ghost fates: seq<Fault>)
    requires OwnSetters(site, ready)
    ensures |fates| <= 10 && forall i :: 0 <= i < |fates| ==> fates[i] == FateAt(given, i)
    ensures forall more :: PassOn(site, cl, nn, fates + more) == Pass(after, Idle(!ok))
    ensures given == [] ==> forall clean :: Clean(clean) ==> PassOn(site, cl, nn, clean) == Pass(after, Idle(!ok))
  {
    var c := new Client(site, cl, given, nn);
    ok := Process(c, nn, ready);
    after, fates := c.cl, c.fates;
    assert c.log[0] == Pass(cl, Busy(nn, Fetch));
    forall more ensures PassOn(site, cl, nn, fates + more) == Pass(after, Idle(!ok)) {
      LogIsRun(site, c.log, fates, 0, more);
      assert fates[0..] == fates;
    }
    LogIsRun(site, c.log, fates, 0, []);
    if given == [] {
      forall clean | Clean(clean) ensures PassOn(site, cl, nn, clean) == Pass(after, Idle(!ok)) {
        assert clean == fates + clean[|fates|..];
      }
    }
  }
}
