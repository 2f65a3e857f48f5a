/** Whole runs: the operator's worker, its work queue, and everyone else who acts on the cluster. */
module System {
  import opened Api
  import opened Owners
  import opened Cluster
  import Finalizers

  /** events holds notifications not yet delivered, queue the keys waiting for the worker; a key
      that is woken while it is being worked on simply waits in the queue. begun is history: the
      DeviceConfig incarnations for which a finalize pass has started. */
  datatype State = State(cl: Cluster, worker: Worker, queue: set<Key>, nextUid: nat, begun: set<(Key, nat)>)

  const INIT := State(Cluster(map[], map[], {}), Idle(false), {}, 0, {})

  datatype Action =
    | CreateConfig(nn: Key, finalizers: seq<string>, spec: ConfigSpec)
    | EditConfig(nn: Key, finalizers: seq<string>, spec: ConfigSpec)
    | DeleteConfig(nn: Key)
    | OtherCreate(k: ChildKey, obj: Child)
    | OtherEdit(k: ChildKey, obj: Child)
    | OtherDelete(k: ChildKey)
    | Collect(k: ChildKey, dead: set<OwnerRef>)
    | Prune(k: ChildKey, dead: set<OwnerRef>)
    | Nudge(nn: Key)
    | Deliver(nn: Key)
    | Dequeue(nn: Key)
    | Call(fault: Fault)
    | Crash

  function Or(reply: Option<Cluster>, cl: Cluster): Cluster {
    if reply.Some? then reply.value else cl
  }

  function NewConfig(s: State, nn: Key, fs: seq<string>, spec: ConfigSpec): State {
    if nn in s.cl.configs then s
    else s.(cl := WriteConfig(s.cl, nn, Some(Config(s.nextUid, fs, false, spec))), nextUid := s.nextUid + 1)
  }

  function EraseConfig(cl: Cluster, nn: Key): Cluster {
    if nn !in cl.configs then cl
    else if cl.configs[nn].finalizers == [] then WriteConfig(cl, nn, None)
    else WriteConfig(cl, nn, Some(cl.configs[nn].(terminating := true)))
  }

  /** Someone else's update of a child: spec, owners and finalizers, under the server's rules. */
  function EditChild(site: Site, cl: Cluster, k: ChildKey, obj: Child): Cluster {
    if k !in cl.children || !Valid(obj.owners) then cl
    else
      var before := cl.children[k];
      if before.terminating && NewFinalizer(before.finalizers, obj.finalizers) then cl
      else if before.terminating && obj.finalizers == [] then WriteChild(cl, k, None)
      else WriteChild(cl, k, Some(obj.(terminating := before.terminating, spec := site.defaults(k.role, obj.spec))))
  }

  /** The garbage collector cannot find the owner: the uid is compared. The DeviceConfigs are looked up,
      any other owner is missing if it is listed in dead. */
  predicate Dangling(cl: Cluster, ns: string, ref: OwnerRef, dead: set<OwnerRef>) {
    if ref.kind.DeviceConfigKind? then
      var nn := Key(ns, ref.name);
      !(nn in cl.configs && cl.configs[nn].uid == ref.uid)
    else ref in dead
  }

  /** Background collection: a child all of whose owners are missing is deleted. */
  function CollectChild(cl: Cluster, k: ChildKey, dead: set<OwnerRef>): Cluster {
    if k in cl.children && cl.children[k].owners != [] &&
       (forall ref :: ref in cl.children[k].owners ==> Dangling(cl, k.owner.ns, ref, dead))
    then Or(DeleteChild(cl, k), cl)
    else cl
  }

  function Solid(cl: Cluster, ns: string, owners: seq<OwnerRef>, dead: set<OwnerRef>): (r: seq<OwnerRef>)
    ensures forall ref :: ref in r <==> ref in owners && !Dangling(cl, ns, ref, dead)
  {
    if owners == [] then []
    else (if Dangling(cl, ns, owners[0], dead) then [] else [owners[0]]) + Solid(cl, ns, owners[1..], dead)
  }

  /** A child that still has a live owner loses the references to missing ones. */
  function PruneChild(cl: Cluster, k: ChildKey, dead: set<OwnerRef>): Cluster {
    if k !in cl.children then cl
    else
      var solid := Solid(cl, k.owner.ns, cl.children[k].owners, dead);
      if solid == [] then cl else WriteChild(cl, k, Some(cl.children[k].(owners := solid)))
  }

  function Controllers(cl: Cluster): set<Key> {
    set k, nn | k in cl.children && nn in Wakes(k, Some(cl.children[k])) :: nn
  }

  function CallApi(site: Site, s: State, fault: Fault): State {
    if s.worker.Idle? then s
    else
      var nn := s.worker.nn;
      var p := Work(site, s.cl, nn, s.worker.phase, fault);
      s.(cl := p.cl, worker := p.worker,
         begun := if s.worker.phase.Fetch? && p.worker.Busy? && p.worker.phase.ReadMetrics?
                  then s.begun + {(nn, p.worker.phase.cfg.uid)} else s.begun)
  }

  /** The two ways a write ends: it is through and the pass goes on, or the pass fails, with or
      without the write having taken effect. */
  lemma WriteOutcomes(site: Site, s: State, fault: Fault)
    requires s.worker.Busy? && Writes(s.worker.phase)
    ensures var t := CallApi(site, s, fault);
            var reply := Attempt(site, s.cl, s.worker.nn, s.worker.phase);
            && t.begun == s.begun && t.nextUid == s.nextUid && t.queue == s.queue
            && (Through(reply, fault) ==>
                  var p := Follow(reply.value, s.worker.nn, s.worker.phase); t.cl == p.cl && t.worker == p.worker)
            && (!Through(reply, fault) ==>
                  t.worker == Idle(true) &&
                  var cl := if reply.Some? && fault == Lost(true) then reply.value else s.cl;
                  t.cl == cl.(events := cl.events + {s.worker.nn}))
  {
  }

  function Apply(site: Site, s: State, a: Action): State {
    match a
    case CreateConfig(nn, fs, spec) => NewConfig(s, nn, fs, spec)
    case EditConfig(nn, fs, spec) => s.(cl := Or(UpdateConfig(s.cl, nn, fs, spec), s.cl))
    case DeleteConfig(nn) => s.(cl := EraseConfig(s.cl, nn))
    case OtherCreate(k, obj) => s.(cl := Or(Create(site, s.cl, k, obj), s.cl))
    case OtherEdit(k, obj) => s.(cl := EditChild(site, s.cl, k, obj))
    case OtherDelete(k) => s.(cl := Or(DeleteChild(s.cl, k), s.cl))
    case Collect(k, dead) => s.(cl := CollectChild(s.cl, k, dead))
    case Prune(k, dead) => s.(cl := PruneChild(s.cl, k, dead))
    case Nudge(nn) => s.(cl := s.cl.(events := s.cl.events + {nn}))
    case Deliver(nn) =>
      if nn in s.cl.events then s.(cl := s.cl.(events := s.cl.events - {nn}), queue := s.queue + {nn}) else s
    case Dequeue(nn) =>
      if s.worker.Idle? && nn in s.queue then s.(worker := Busy(nn, Fetch), queue := s.queue - {nn}) else s
    case Call(fault) => CallApi(site, s, fault)
    case Crash =>
      // local state and the queue are gone; the informers list everything again
      s.(worker := Idle(false), queue := {}, cl := s.cl.(events := s.cl.configs.Keys + Controllers(s.cl)))
  }

  function Exec(site: Site, s: State, run: seq<Action>): State
    decreases |run|
  {
    if run == [] then s else Exec(site, Apply(site, s, run[0]), run[1..])
  }

  /** nn has a notification, a retry or a place in the queue. */
  predicate Pending(s: State, nn: Key) {
    nn in s.cl.events || nn in s.queue
  }

  /** Nothing of nn is pending, and no pass on it is in flight. */
  predicate Still(s: State, nn: Key) {
    !Pending(s, nn) && !(s.worker.Busy? && s.worker.nn == nn)
  }

  predicate Quiescent(s: State) {
    s.cl.events == {} && s.queue == {} && s.worker.Idle?
  }

  // ---------------------------------------------------------------- assumptions on the others

  /** Nobody else takes the operator's finalizer off, creates objects under the children's names,
      or strips a child's owner references. */
  predicate Polite(s: State, a: Action) {
    match a
    case EditConfig(nn, fs, _) =>
      nn in s.cl.configs && Finalizers.Marked(s.cl.configs[nn].finalizers) ==> Finalizers.Marked(fs)
    case OtherCreate(_, _) => false
    case OtherEdit(k, obj) =>
      k in s.cl.children ==> forall ref :: ref in s.cl.children[k].owners ==> ref in obj.owners
    case _ => true
  }

  /** ... and nobody else deletes a child. */
  predicate Undisturbed(s: State, a: Action) {
    Polite(s, a) && !a.OtherDelete?
  }

  predicate PoliteRun(site: Site, s: State, run: seq<Action>)
    decreases |run|
  {
    run == [] || (Polite(s, run[0]) && PoliteRun(site, Apply(site, s, run[0]), run[1..]))
  }

  predicate UndisturbedRun(site: Site, s: State, run: seq<Action>)
    decreases |run|
  {
    run == [] || (Undisturbed(s, run[0]) && UndisturbedRun(site, Apply(site, s, run[0]), run[1..]))
  }
}
