/** The API server as the operator sees it, and the operator as a machine that makes one API
    call per step. Users, other controllers, the garbage collector, lost replies and crashes
    may act between any two steps. */
module Cluster {
  import opened Json
  import opened Api
  import opened Owners
  import Finalizers

  /** The stored objects, and the DeviceConfigs with an undelivered notification or retry. */
  datatype Cluster = Cluster(configs: map<Key, Config>, children: Children, events: set<Key>)

  // ---------------------------------------------------------------- notifications

  function ConfigAt(cl: Cluster, nn: Key): Option<Config> {
    if nn in cl.configs then Some(cl.configs[nn]) else None
  }

  type Children = map<ChildKey, Child>

  function ChildAt(ch: Children, k: ChildKey): Option<Child> {
    if k in ch then Some(ch[k]) else None
  }

  function Slot(ch: Children, nn: Key, r: Role): Option<Child> {
    ChildAt(ch, ChildKey(nn, r))
  }

  predicate Has(cl: Cluster, nn: Key, r: Role) {
    ChildKey(nn, r) in cl.children
  }

  /** A change of a child is reported for the DeviceConfig that its controller reference names,
      in the child's namespace (Owns in SetupWithManager). */
  function Wakes(k: ChildKey, o: Option<Child>): set<Key> {
    match o
    case None => {}
    case Some(child) =>
      var c := ControllerOf(child.owners);
      if c.Some? && c.value.kind.DeviceConfigKind? then {Key(k.owner.ns, c.value.name)} else {}
  }

  /** Store, replace or remove a child. Only an actual change is reported, for the controller
      before and the controller after it. */
  function WriteChild(cl: Cluster, k: ChildKey, o: Option<Child>): Cluster {
    if ChildAt(cl.children, k) == o then cl
    else cl.(children := if o.Some? then cl.children[k := o.value] else cl.children - {k},
             events := cl.events + Wakes(k, ChildAt(cl.children, k)) + Wakes(k, o))
  }

  function WriteConfig(cl: Cluster, nn: Key, c: Option<Config>): Cluster {
    if ConfigAt(cl, nn) == c then cl
    else cl.(configs := if c.Some? then cl.configs[nn := c.value] else cl.configs - {nn},
             events := cl.events + {nn})
  }

  // ---------------------------------------------------------------- API server verbs

  /** A deleted object stays, terminating, until its finalizers are gone. */
  function Delete(o: Child): Option<Child> {
    if o.finalizers == [] then None else Some(o.(terminating := true))
  }

  /** No finalizer may be added to a terminating object, and one without finalizers is removed. */
  predicate NewFinalizer(before: seq<string>, fs: seq<string>) {
    exists f :: f in fs && f !in before
  }

  /** Create with server-side defaulting; None when the key is taken or the owners are not admitted. */
  function Create(site: Site, cl: Cluster, k: ChildKey, o: Child): Option<Cluster> {
    if k in cl.children || !Valid(o.owners) then None
    else Some(WriteChild(cl, k, Some(o.(spec := site.defaults(k.role, o.spec), terminating := false))))
  }

  /** The stored child after the merge patch from base to desired: the spec is merged member by
      member, the owner list is replaced as a whole when the client changed it. */
  function Patched(site: Site, r: Role, server: Child, base: Child, desired: Child): Child {
    server.(owners := if base.owners == desired.owners then server.owners else desired.owners,
            spec := site.defaults(r, MergePatch(Obj(server.spec), Obj(Diff(Obj(base.spec), Obj(desired.spec)))).fields))
  }

  function PatchChild(site: Site, cl: Cluster, k: ChildKey, base: Child, desired: Child): Option<Cluster> {
    if k !in cl.children then None
    else
      var o := Patched(site, k.role, cl.children[k], base, desired);
      if Valid(o.owners) then Some(WriteChild(cl, k, Some(o))) else None
  }

  /** Delete by name; the owners are not looked at. */
  function DeleteChild(cl: Cluster, k: ChildKey): Option<Cluster> {
    if k in cl.children then Some(WriteChild(cl, k, Delete(cl.children[k]))) else None
  }

  /** Replace finalizers and spec of a DeviceConfig: None when it is gone or when a finalizer would
      be added to a terminating one; a terminating one without finalizers is removed. */
  function UpdateConfig(cl: Cluster, nn: Key, fs: seq<string>, spec: ConfigSpec): Option<Cluster> {
    if nn !in cl.configs || (cl.configs[nn].terminating && NewFinalizer(cl.configs[nn].finalizers, fs)) then None
    else if cl.configs[nn].terminating && fs == [] then Some(WriteConfig(cl, nn, None))
    else Some(WriteConfig(cl, nn, Some(cl.configs[nn].(finalizers := fs, spec := spec))))
  }

  /** The merge patch from base to base with the finalizers fs: the list is replaced as a whole when
      the client changed it, everything else keeps the server's value. */
  function PatchFinalizers(cl: Cluster, nn: Key, base: Config, fs: seq<string>): Option<Cluster> {
    if nn !in cl.configs then None
    else UpdateConfig(cl, nn, if base.finalizers == fs then cl.configs[nn].finalizers else fs, cl.configs[nn].spec)
  }

  // ---------------------------------------------------------------- the operator, one API call per step

  /** What becomes of an API call: the reply arrives, or it is lost before or after taking effect. */
  datatype Fault = Fine | Lost(applied: bool)

  /** The next API call of a pass, with the pass's local data. */
  datatype Phase =
    | Fetch
    | Mark(cfg: Config)
    | Read(cfg: Config, r: Role)
    | Make(cfg: Config, r: Role, obj: Child)
    | Amend(cfg: Config, r: Role, base: Child, obj: Child)
    | ReadMetrics(cfg: Config)
    | DropMetrics(cfg: Config)
    | ReadModule(cfg: Config)
    | DropModule(cfg: Config)
    | Unmark(cfg: Config)

  /** The one worker; Idle records whether the last pass returned an error. */
  datatype Worker = Idle(failed: bool) | Busy(nn: Key, phase: Phase)

  datatype Pass = Pass(cl: Cluster, worker: Worker)

  /** An error puts the key back; success leaves it to the notifications. */
  function End(cl: Cluster, nn: Key, failed: bool): Pass {
    Pass(if failed then cl.(events := cl.events + {nn}) else cl, Idle(failed))
  }

  const BLANK := Child([], false, [], map[])

  /** The setter of role r on the local copy: the spec is rewritten first, then the controller
      reference is set, which fails, flag false, when the object has another controller. */
  function Mutate(site: Site, nn: Key, cfg: Config, r: Role, o: Child): (Child, bool) {
    var o' := o.(spec := site.desire(nn, cfg.spec, r, o.spec));
    match SetController(o.owners, nn.name, cfg.uid)
    case None => (o', false)
    case Some(owners) => (o'.(owners := owners), true)
  }

  function Advance(cl: Cluster, nn: Key, cfg: Config, r: Role): Pass {
    if r == Metrics then End(cl, nn, false) else Pass(cl, Busy(nn, Read(cfg, Next(r))))
  }

  /** The write took effect and the controller knows. */
  predicate Through(reply: Option<Cluster>, fault: Fault) {
    reply.Some? && fault.Fine?
  }

  /** The write was rejected or its reply was lost, possibly after it took effect. */
  function Broken(cl: Cluster, nn: Key, reply: Option<Cluster>, fault: Fault): Pass {
    End(if reply.Some? && fault == Lost(true) then reply.value else cl, nn, true)
  }

  /** AsReconciler and the branch on the deletion timestamp in Reconcile. */
  function WorkFetch(cl: Cluster, nn: Key): Pass {
    if nn !in cl.configs then End(cl, nn, false)
    else
      var cfg := cl.configs[nn];
      if cfg.terminating then Pass(cl, Busy(nn, ReadMetrics(cfg)))
      else if Finalizers.Marked(cfg.finalizers) then Pass(cl, Busy(nn, Read(cfg, Module)))
      else Pass(cl, Busy(nn, Mark(cfg)))
  }

  /** The read of CreateOrPatch and the local mutation that follows it. */
  function WorkRead(site: Site, cl: Cluster, nn: Key, cfg: Config, r: Role): Pass {
    var k := ChildKey(nn, r);
    var (obj, ok) := Mutate(site, nn, cfg, r, if k in cl.children then cl.children[k] else BLANK);
    if !ok then End(cl, nn, true)
    else if k !in cl.children then Pass(cl, Busy(nn, Make(cfg, r, obj)))
    else if obj == cl.children[k] then Advance(cl, nn, cfg, r)
    else Pass(cl, Busy(nn, Amend(cfg, r, cl.children[k], obj)))
  }

  /** The write of a phase that makes one, before faults: None when the server rejects it. */
  function Attempt(site: Site, cl: Cluster, nn: Key, phase: Phase): Option<Cluster> {
    match phase
    case Mark(cfg) => PatchFinalizers(cl, nn, cfg, Finalizers.Add(cfg.finalizers))
    case Make(cfg, r, obj) => Create(site, cl, ChildKey(nn, r), obj)
    case Amend(cfg, r, base, obj) => PatchChild(site, cl, ChildKey(nn, r), base, obj)
    case DropMetrics(cfg) => DeleteChild(cl, ChildKey(nn, Metrics))
    case DropModule(cfg) => DeleteChild(cl, ChildKey(nn, Module))
    case Unmark(cfg) => PatchFinalizers(cl, nn, cfg, Finalizers.Remove(cfg.finalizers))
    case _ => None
  }

  predicate Writes(phase: Phase) {
    phase.Mark? || phase.Make? || phase.Amend? || phase.DropMetrics? || phase.DropModule? || phase.Unmark?
  }

  /** The phases of a pass that creates and patches children. */
  predicate Setup(phase: Phase) {
    phase.Read? || phase.Make? || phase.Amend?
  }

  /** The phases of a finalize pass. */
  predicate Teardown(phase: Phase) {
    phase.ReadMetrics? || phase.DropMetrics? || phase.ReadModule? || phase.DropModule? || phase.Unmark?
  }

  /** What a pass does once its write is through; the reply of the finalizer patch replaces the
      local DeviceConfig. */
  function Follow(cl: Cluster, nn: Key, phase: Phase): Pass
    requires Writes(phase)
  {
    match phase
    case Mark(cfg) =>
      if nn in cl.configs then Pass(cl, Busy(nn, Read(cl.configs[nn], Module))) else End(cl, nn, true)
    case Make(cfg, r, obj) => Advance(cl, nn, cfg, r)
    case Amend(cfg, r, base, obj) => Advance(cl, nn, cfg, r)
    case _ => End(cl, nn, false)
  }

  function WorkWrite(site: Site, cl: Cluster, nn: Key, phase: Phase, fault: Fault): Pass
    requires Writes(phase)
  {
    var reply := Attempt(site, cl, nn, phase);
    if Through(reply, fault) then Follow(reply.value, nn, phase) else Broken(cl, nn, reply, fault)
  }

  /** A read that arrives: it changes nothing on the server. */
  function WorkLook(site: Site, cl: Cluster, nn: Key, phase: Phase): Pass
    requires !Writes(phase)
  {
    match phase
    case Fetch => WorkFetch(cl, nn)
    case Read(cfg, r) => WorkRead(site, cl, nn, cfg, r)
    case ReadMetrics(cfg) =>
      Pass(cl, Busy(nn, if ChildKey(nn, Metrics) in cl.children then DropMetrics(cfg) else ReadModule(cfg)))
    case ReadModule(cfg) =>
      Pass(cl, Busy(nn, if ChildKey(nn, Module) in cl.children then DropModule(cfg) else Unmark(cfg)))
  }

  /** One API call of the pass on nn. */
  function Work(site: Site, cl: Cluster, nn: Key, phase: Phase, fault: Fault): Pass {
    if Writes(phase) then WorkWrite(site, cl, nn, phase, fault)
    else if fault.Fine? then WorkLook(site, cl, nn, phase)
    else End(cl, nn, true)
  }

  /** The two clusters hold the same objects of the DeviceConfig nn. */
  predicate SameSlot(a: Cluster, b: Cluster, nn: Key) {
    && ConfigAt(a, nn) == ConfigAt(b, nn)
    && forall r: Role :: ChildAt(a.children, ChildKey(nn, r)) == ChildAt(b.children, ChildKey(nn, r))
  }

  lemma SlotRead(a: Cluster, b: Cluster, nn: Key, r: Role)
    requires SameSlot(a, b, nn)
    ensures ChildKey(nn, r) in a.children <==> ChildKey(nn, r) in b.children
    ensures ChildKey(nn, r) in a.children ==> a.children[ChildKey(nn, r)] == b.children[ChildKey(nn, r)]
  {
    assert ChildAt(a.children, ChildKey(nn, r)) == ChildAt(b.children, ChildKey(nn, r));
  }

  lemma AttemptStaysHome(site: Site, cl: Cluster, nn: Key, phase: Phase, other: Key)
    requires other != nn
    ensures var reply := Attempt(site, cl, nn, phase);
            reply.Some? ==> SameSlot(cl, reply.value, other) && cl.events <= reply.value.events
  {
  }

  lemma WorkNames(site: Site, cl: Cluster, nn: Key, phase: Phase, fault: Fault)
    ensures var p := Work(site, cl, nn, phase, fault); p.worker.Busy? ==> p.worker.nn == nn
  {
  }

  /** A call of the pass on nn touches no object of any other DeviceConfig. */
  lemma WorkStaysHome(site: Site, cl: Cluster, nn: Key, phase: Phase, fault: Fault, other: Key)
    requires other != nn
    ensures var p := Work(site, cl, nn, phase, fault);
            SameSlot(cl, p.cl, other) && cl.events <= p.cl.events && (p.worker.Busy? ==> p.worker.nn == nn)
  {
    AttemptStaysHome(site, cl, nn, phase, other);
  }

  /** The patch computed for a child stores what the setter left, when nobody else wrote in between. */
  ghost predicate StoresDesired(site: Site) {
    forall nn, spec, r, f :: var want := site.desire(nn, spec, r, f);
      MergePatch(Obj(f), Obj(Diff(Obj(f), Obj(want)))) == Obj(want)
  }

  /** What can come of reading a child: the pass fails, because the child is foreign; or it goes on,
      because the child is as the setter wants it; or it is about to write the setter's local copy. */
  predicate ReadOutcome(site: Site, cl: Cluster, nn: Key, cfg: Config, r: Role, p: Pass) {
    var k := ChildKey(nn, r);
    var ref := Ref(nn.name, cfg.uid);
    if p.worker == Idle(true) then
      p.cl == cl.(events := cl.events + {nn}) && k in cl.children && Foreign(cl.children[k].owners, nn.name)
    else
      p.cl == cl &&
      match p.worker
      case Idle(_) => r == Metrics && Content(site, cl, nn, cfg, r)
      case Busy(n, Read(c, q)) => n == nn && c == cfg && r != Metrics && q == Next(r) && Content(site, cl, nn, cfg, r)
      case Busy(n, Make(c, q, obj)) =>
        n == nn && c == cfg && q == r && k !in cl.children && ControllerOf(obj.owners) == Some(ref)
      case Busy(n, Amend(c, q, base, obj)) =>
        && n == nn && c == cfg && q == r && k in cl.children && base == cl.children[k]
        && ControllerOf(obj.owners) == Some(ref) && obj.spec == site.desire(nn, cfg.spec, r, base.spec)
      case _ => false
  }

  /** The child is controlled by this DeviceConfig and its setter would change nothing. */
  predicate Content(site: Site, cl: Cluster, nn: Key, cfg: Config, r: Role) {
    var k := ChildKey(nn, r);
    && k in cl.children
    && ControllerOf(cl.children[k].owners) == Some(Ref(nn.name, cfg.uid))
    && cl.children[k].spec == site.desire(nn, cfg.spec, r, cl.children[k].spec)
  }

  lemma ReadOutcomes(site: Site, cl: Cluster, nn: Key, cfg: Config, r: Role)
    ensures ReadOutcome(site, cl, nn, cfg, r, WorkRead(site, cl, nn, cfg, r))
  {
    var k := ChildKey(nn, r);
    var o := if k in cl.children then cl.children[k] else BLANK;
    if !Foreign(o.owners, nn.name) {
      UpsertControls(o.owners, nn.name, cfg.uid);
    }
  }
}
