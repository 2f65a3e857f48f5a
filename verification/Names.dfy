/** The names of the children in Kubernetes. The reconciler looks children up by kind, namespace and name; the
    rest of this model speaks of a child by its DeviceConfig and role. The two ways of naming determine each
    other. */
module Names {
  import opened Api

  datatype Kind = ModuleKind | DeploymentKind | DaemonSetKind

  datatype KubeKey = KubeKey(kind: Kind, ns: string, name: string)

  function Suffix(r: Role): string {
    match r
    case Module => ""
    case Scheduler => "-custom-scheduler"
    case Extension => "-custom-scheduler-extension"
    case Metrics => "-node-metrics"
  }

  function KindOf(r: Role): Kind {
    match r
    case Module => ModuleKind
    case Scheduler => DeploymentKind
    case Extension => DeploymentKind
    case Metrics => DaemonSetKind
  }

  /** The kind, namespace and name of a child. */
  function KubeName(k: ChildKey): KubeKey {
    KubeKey(KindOf(k.role), k.owner.ns, k.owner.name + Suffix(k.role))
  }

  function Strip(name: string, suffix: string): Option<string> {
    if |suffix| <= |name| && name[|name| - |suffix|..] == suffix then Some(name[..|name| - |suffix|]) else None
  }

  /** The child that goes by a name, if it is the name of one. */
  function Find(kk: KubeKey): Option<ChildKey> {
    match kk.kind
    case ModuleKind => Some(ChildKey(Key(kk.ns, kk.name), Module))
    case DaemonSetKind => ChildOf(kk.ns, Strip(kk.name, Suffix(Metrics)), Metrics)
    case DeploymentKind =>
      var extension := Strip(kk.name, Suffix(Extension));
      if extension.Some? then ChildOf(kk.ns, extension, Extension)
      else ChildOf(kk.ns, Strip(kk.name, Suffix(Scheduler)), Scheduler)
  }

  function ChildOf(ns: string, name: Option<string>, r: Role): Option<ChildKey> {
    match name
    case None => None
    case Some(n) => Some(ChildKey(Key(ns, n), r))
  }

  lemma StripJoin(name: string, suffix: string)
    ensures Strip(name + suffix, suffix) == Some(name)
  {
    assert (name + suffix)[|name|..] == suffix && (name + suffix)[..|name|] == name;
  }

  lemma JoinStrip(name: string, suffix: string)
    ensures Strip(name, suffix).Some? ==> name == Strip(name, suffix).value + suffix
  {
  }

  /** The two Deployment names never coincide: their last letters differ. */
  lemma DeploymentsDiffer(a: string, b: string)
    ensures a + "-custom-scheduler" != b + "-custom-scheduler-extension"
  {
    var x := a + "-custom-scheduler";
    var y := b + "-custom-scheduler-extension";
    assert x[|x| - 1] == 'r' && y[|y| - 1] == 'n';
  }

  /** The names, letter by letter, and that each leads to the intended child. */
  lemma ChildNames(nn: Key)
    ensures KubeName(ChildKey(nn, Module)) == KubeKey(ModuleKind, nn.ns, nn.name)
    ensures KubeName(ChildKey(nn, Scheduler)) == KubeKey(DeploymentKind, nn.ns, nn.name + "-custom-scheduler")
    ensures KubeName(ChildKey(nn, Extension)) == KubeKey(DeploymentKind, nn.ns, nn.name + "-custom-scheduler-extension")
    ensures KubeName(ChildKey(nn, Metrics)) == KubeKey(DaemonSetKind, nn.ns, nn.name + "-node-metrics")
    ensures Find(KubeKey(ModuleKind, nn.ns, nn.name)) == Some(ChildKey(nn, Module))
    ensures Find(KubeKey(DeploymentKind, nn.ns, nn.name + "-custom-scheduler")) == Some(ChildKey(nn, Scheduler))
    ensures Find(KubeKey(DeploymentKind, nn.ns, nn.name + "-custom-scheduler-extension")) ==
            Some(ChildKey(nn, Extension))
    ensures Find(KubeKey(DaemonSetKind, nn.ns, nn.name + "-node-metrics")) == Some(ChildKey(nn, Metrics))
  {
    assert nn.name + "" == nn.name;
    FindName(ChildKey(nn, Module));
    FindName(ChildKey(nn, Scheduler));
    FindName(ChildKey(nn, Extension));
    FindName(ChildKey(nn, Metrics));
  }

  /** For all names, a child's name leads back to the child, and a name that leads to a child is its name. */
  lemma FindName(k: ChildKey)
    ensures Find(KubeName(k)) == Some(k)
  {
    StripJoin(k.owner.name, Suffix(k.role));
    if k.role == Module {
      assert k.owner.name + "" == k.owner.name;
    } else if k.role == Scheduler {
      var name := k.owner.name + Suffix(Scheduler);
      JoinStrip(name, Suffix(Extension));
      if Strip(name, Suffix(Extension)).Some? {
        DeploymentsDiffer(k.owner.name, Strip(name, Suffix(Extension)).value);
      }
    }
  }

  lemma NameFound(kk: KubeKey)
    ensures Find(kk).Some? ==> KubeName(Find(kk).value) == kk
  {
    JoinStrip(kk.name, Suffix(Metrics));
    JoinStrip(kk.name, Suffix(Extension));
    JoinStrip(kk.name, Suffix(Scheduler));
    assert kk.name + "" == kk.name;
  }

  /** So two children have the same kind, namespace and name only if they are the same child. */
  lemma ChildNamesInjective(j: ChildKey, k: ChildKey)
    ensures KubeName(j) == KubeName(k) <==> j == k
  {
    FindName(j);
    FindName(k);
  }
}
