/** The setters, which rewrite the local copy of a child in place, proved against the functions of module
    Desired. The Module's copy shares the pull secret and the selector map with the DeviceConfig. */
module Setters {
  import opened Json
  import opened Api
  import opened Owners
  import opened Desired
  import opened Objects

  function Overlay(plain: Fields, secret: Option<string>, selector: Option<LabelMap>): Fields {
    Join(plain, SecretPart(secret), if selector.Some? then Some(Obj(Strings(selector.value))) else None)
  }

  function Join(plain: Fields, secret: Fields, selector: Option<Json>): Fields {
    if selector.Some? then (plain + secret)[Selector := selector.value] else plain + secret
  }

  lemma JoinLoader(plain: Fields, secret: Fields, selector: Option<Json>,
                   loader: Json, secret': Fields, selector': Json)
    requires secret.Keys <= {ImageRepoSecret} && secret'.Keys <= {ImageRepoSecret}
    ensures Join((plain - {ImageRepoSecret, Selector})[ModuleLoader := loader], secret', Some(selector')) ==
            Overwrite(Join(plain, secret, selector), LOADER_FIELDS,
                      secret'[ModuleLoader := loader][Selector := selector'])
  {
  }

  lemma JoinPlugin(plain: Fields, secret: Fields, selector: Option<Json>, plugin: Json)
    requires secret.Keys <= {ImageRepoSecret}
    ensures Join(plain[DevicePlugin := plugin], secret, selector) ==
            Overwrite(Join(plain, secret, selector), PLUGIN_FIELDS, map[][DevicePlugin := plugin])
  {
  }

  lemma LoaderOverlay(plain: Fields, secret: Option<string>, selector: Option<LabelMap>, spec: ConfigSpec)
    ensures Overlay((plain - {ImageRepoSecret, Selector})[ModuleLoader := LoaderDoc(spec.driversImage)],
                    spec.imageRepoSecret, Some(SelectorOf(spec)))
            == SetLoader(spec, Overlay(plain, secret, selector))
  {
    JoinLoader(plain, SecretPart(secret), if selector.Some? then Some(Obj(Strings(selector.value))) else None,
               LoaderDoc(spec.driversImage), SecretPart(spec.imageRepoSecret), Obj(Strings(SelectorOf(spec))));
  }

  lemma PluginOverlay(plain: Fields, secret: Option<string>, selector: Option<LabelMap>, spec: ConfigSpec)
    ensures Overlay(plain[DevicePlugin := PluginDoc(spec.devicePluginImage)], secret, selector)
            == SetPlugin(spec, Overlay(plain, secret, selector))
  {
    JoinPlugin(plain, SecretPart(secret), if selector.Some? then Some(Obj(Strings(selector.value))) else None,
               PluginDoc(spec.devicePluginImage));
  }

  /** The local copy of a KMM Module. What was decoded from the server is held as JSON; the pull secret and
      the selector are pointers once a setter has put them there. */
  class KmmModule {
    const finalizers: seq<string>
    const terminating: bool
    var owners: seq<OwnerRef>
    var plain: Fields
    var imageRepoSecret: SecretRef?
    var selector: StringMap?

    constructor (o: Child)
      ensures Object() == o
    {
      finalizers, terminating, owners, plain := o.finalizers, o.terminating, o.owners, o.spec;
      imageRepoSecret, selector := null, null;
      new;
      assert Spec() == o.spec;
    }

    /** The spec as it is sent to the server. */
    function Spec(): Fields
      reads this`plain, this`imageRepoSecret, this`selector, imageRepoSecret, selector
    {
      Overlay(plain, SecretName(), SelectorMap())
    }

    function SecretName(): Option<string>
      reads this`imageRepoSecret, imageRepoSecret
    {
      if imageRepoSecret == null then None else Some(imageRepoSecret.name)
    }

    function SelectorMap(): Option<LabelMap>
      reads this`selector, selector
    {
      if selector == null then None else Some(selector.m)
    }

    function Object(): Child
      reads this, imageRepoSecret, selector
    {
      Child(finalizers, terminating, owners, Spec())
    }
  }

  /** A Deployment or a DaemonSet: its spec is replaced as a whole. */
  class WorkloadObject {
    const finalizers: seq<string>
    const terminating: bool
    var owners: seq<OwnerRef>
    var spec: Fields

    constructor (o: Child)
      ensures Object() == o
    {
      finalizers, terminating, owners, spec := o.finalizers, o.terminating, o.owners, o.spec;
    }

    function Object(): Child
      reads this
    {
      Child(finalizers, terminating, owners, spec)
    }
  }

  method GetNodeSelector(d: DeviceConfig) returns (selector: StringMap)
    ensures selector.m == SelectorOf(d.spec.Value())
    ensures if d.spec.selector == null then fresh(selector) else selector == d.spec.selector
  {
    if d.spec.selector != null {
      return d.spec.selector;
    }
    selector := new StringMap(map[PCI_PRESENT := "true"]);
  }

  /** setKMMModuleLoader: three managed fields, two of them shared with the DeviceConfig. */
  method SetKMMModuleLoader(mod: KmmModule, d: DeviceConfig)
    modifies mod
    ensures mod.Spec() == SetLoader(d.spec.Value(), old(mod.Spec()))
    ensures mod.imageRepoSecret == d.spec.imageRepoSecret
    ensures mod.selector != null && (d.spec.selector != null ==> mod.selector == d.spec.selector)
    ensures mod.owners == old(mod.owners) && d.spec.Value() == old(d.spec.Value())
  {
    LoaderOverlay(mod.plain, mod.SecretName(), mod.SelectorMap(), d.spec.Value());
    mod.plain := (mod.plain - {ImageRepoSecret, Selector})[ModuleLoader := LoaderDoc(d.spec.driversImage)];
    mod.imageRepoSecret := d.spec.imageRepoSecret;
    mod.selector := GetNodeSelector(d);
  }

  /** setKMMDevicePlugin: one managed field. */
  method SetKMMDevicePlugin(mod: KmmModule, d: DeviceConfig)
    modifies mod`plain
    ensures mod.Spec() == SetPlugin(d.spec.Value(), old(mod.Spec()))
    ensures d.spec.Value() == old(d.spec.Value())
  {
    PluginOverlay(mod.plain, mod.SecretName(), mod.SelectorMap(), d.spec.Value());
    mod.plain := mod.plain[DevicePlugin := PluginDoc(d.spec.devicePluginImage)];
  }

  /** SetControllerReference on an owner list. */
  method ControllerReference(d: DeviceConfig, owners: seq<OwnerRef>) returns (ok: bool, after: seq<OwnerRef>)
    ensures Adopted(owners, after, d, ok)
  {
    var r := SetController(owners, d.name, d.uid);
    return r.Some?, if r.Some? then r.value else owners;
  }

  method ModuleReference(mod: KmmModule, d: DeviceConfig) returns (ok: bool)
    modifies mod`owners
    ensures Adopted(old(mod.owners), mod.owners, d, ok)
    ensures mod.Spec() == old(mod.Spec()) && d.spec.Value() == old(d.spec.Value())
  {
    ok, mod.owners := ControllerReference(d, mod.owners);
  }

  /** The owners become the DeviceConfig's unless the object has another controller; then they stay. */
  predicate Adopted(before: seq<OwnerRef>, after: seq<OwnerRef>, d: DeviceConfig, ok: bool)
    reads d
  {
    && (ok <==> !Foreign(before, d.name))
    && after == if ok then Upsert(before, Ref(d.name, d.uid)) else before
  }

  /** SetKMMModuleAsDesired: the spec is rewritten before the owner check can fail. The DeviceConfig keeps
      its value, although its selector and its pull secret are now part of the Module as well. */
  method SetKMMModuleAsDesired(mod: KmmModule, d: DeviceConfig) returns (ok: bool)
    modifies mod
    ensures mod.Spec() == SetPlugin(d.spec.Value(), SetLoader(d.spec.Value(), old(mod.Spec())))
    ensures Adopted(old(mod.owners), mod.owners, d, ok)
    ensures d.spec.Value() == old(d.spec.Value())
    ensures mod.imageRepoSecret == d.spec.imageRepoSecret
    ensures d.spec.selector != null ==> mod.selector == d.spec.selector
  {
    SetKMMModuleLoader(mod, d);
    SetKMMDevicePlugin(mod, d);
    ok := ModuleReference(mod, d);
  }

  /** A workload put together: its labels twice, its account and its container. */
  method NewWorkload(labels: Literal, account: Literal, container: Literal, image: string) returns (spec: Fields)
    ensures spec == Workload(labels, account, container, image)
  {
    spec := map[];
    spec := spec[Containers := Arr([Fixed(container), Str(image)])];
    spec := spec[ServiceAccountName := Fixed(account)];
    spec := spec[Labels := Fixed(labels)];
    spec := spec[Selector := Fixed(labels)];
    assert spec == Workload(labels, account, container, image);
  }

  /** SetNodeMetricsAsDesired: here too the spec is rewritten first, whatever the DaemonSet was. */
  method SetNodeMetricsAsDesired(ds: WorkloadObject?, d: DeviceConfig, ready: Key -> Member) returns (ok: bool)
    modifies ds
    ensures ds == null ==> !ok
    ensures ds != null ==>
              ds.spec == Desire(ready, Key(d.ns, d.name), d.spec.Value(), Metrics, old(ds.spec))
              && Runs(ds.spec, MetricsLabels, MetricsAccount, MetricsContainer, "",
                      map[NodeSelector := Obj(Strings(map[ready(Key(d.ns, d.name)) := ""]))])
              && Adopted(old(ds.owners), ds.owners, d, ok)
  {
    if ds == null { return false; }
    MetricsSettings(ready, Key(d.ns, d.name));
    var spec := NewWorkload(MetricsLabels, MetricsAccount, MetricsContainer, "");
    spec := spec[NodeSelector := Obj(Strings(map[ready(Key(d.ns, d.name)) := ""]))];
    ds.spec := spec;
    ok, ds.owners := ControllerReference(d, ds.owners);
  }

  /** SetCustomSchedulerAsDesired: the spec is put together anew, so nothing of the old one remains; everything
      else, the owners in particular, stays, and so does the DeviceConfig. The reconciler sets the owner. */
  method SetCustomSchedulerAsDesired(dp: WorkloadObject, d: DeviceConfig, ghost ready: Key -> Member)
    modifies dp`spec
    ensures dp.Object() ==
            old(dp.Object()).(spec := Desire(ready, Key(d.ns, d.name), d.spec.Value(), Scheduler, old(dp.spec)))
    ensures Runs(dp.spec, SchedulerLabels, SchedulerAccount, SchedulerContainer, d.spec.customSchedulerImage,
                 map[Replicas := Num(1)])
    ensures d.spec.Value() == old(d.spec.Value())
  {
    SchedulerSettings(d.spec.Value());
    var spec := NewWorkload(SchedulerLabels, SchedulerAccount, SchedulerContainer, d.spec.customSchedulerImage);
    spec := spec[Replicas := Num(1)];
    dp.spec := spec;
  }

  /** SetCustomSchedulerExtensionAsDesired, with its own labels, container and update strategy. */
  method SetCustomSchedulerExtensionAsDesired(dp: WorkloadObject, d: DeviceConfig, ghost ready: Key -> Member)
    modifies dp`spec
    ensures dp.Object() ==
            old(dp.Object()).(spec := Desire(ready, Key(d.ns, d.name), d.spec.Value(), Extension, old(dp.spec)))
    ensures Runs(dp.spec, ExtensionLabels, SchedulerAccount, ExtensionContainer, d.spec.schedulerExtensionImage,
                 map[Replicas := Num(1), Strategy := Fixed(Recreate)])
    ensures d.spec.Value() == old(d.spec.Value())
  {
    ExtensionSettings(d.spec.Value());
    var spec := NewWorkload(ExtensionLabels, SchedulerAccount, ExtensionContainer, d.spec.schedulerExtensionImage);
    spec := spec[Replicas := Num(1)];
    spec := spec[Strategy := Fixed(Recreate)];
    dp.spec := spec;
  }
}
