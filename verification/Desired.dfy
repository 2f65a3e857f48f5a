/** What the setters make of a child's spec, as functions from the DeviceConfig and the old spec to
    the new one. The Module setter overwrites the fields it manages and keeps the others; the other
    three overwrite the whole spec. */
module Desired {
  import opened Json
  import opened Api

  const KERNEL_SUFFIX := "-$KERNEL_VERSION"
  const PCI_PRESENT := Named("feature.node.kubernetes.io/pci-1d0f.present")

  /** The Module fields that setKMMModuleLoader and setKMMDevicePlugin write. */
  const LOADER_FIELDS: set<Member> := {ModuleLoader, ImageRepoSecret, Selector}
  const PLUGIN_FIELDS: set<Member> := {DevicePlugin}
  const MANAGED: set<Member> := {ModuleLoader, ImageRepoSecret, Selector, DevicePlugin}

  function KernelMapping(driversImage: string): Json {
    Obj(map[Regexp := Fixed(AnyKernel), ContainerImage := Str(driversImage + KERNEL_SUFFIX),
            InTreeModulesToRemove := Arr([Fixed(NeuronModule)])])
  }

  function LoaderDoc(driversImage: string): Json {
    Obj(map[Modprobe := Fixed(NeuronModule), KernelMappings := Arr([KernelMapping(driversImage)]),
            ServiceAccountName := Fixed(LoaderAccount)])
  }

  function PluginDoc(devicePluginImage: string): Json {
    Obj(map[ServiceAccountName := Fixed(PluginAccount), Image := Str(devicePluginImage),
            Containers := Fixed(PluginContainer)])
  }

  /** getNodeSelector: a selector that is set, even an empty one, wins over the PCI label. */
  function SelectorOf(spec: ConfigSpec): LabelMap {
    match spec.selector
    case Some(sel) => sel
    case None => map[PCI_PRESENT := "true"]
  }

  /** What setKMMModuleLoader writes: an unset pull secret leaves its field out. */
  function LoaderPart(spec: ConfigSpec): (part: Fields)
    ensures part.Keys <= LOADER_FIELDS
  {
    SecretPart(spec.imageRepoSecret)[ModuleLoader := LoaderDoc(spec.driversImage)]
      [Selector := Obj(Strings(SelectorOf(spec)))]
  }

  function SecretPart(secret: Option<string>): (part: Fields)
    ensures part.Keys <= {ImageRepoSecret}
  {
    match secret
    case None => map[]
    case Some(name) => map[][ImageRepoSecret := Obj(Strings(map[Name := name]))]
  }

  /** What setKMMDevicePlugin writes. */
  function PluginPart(spec: ConfigSpec): (part: Fields)
    ensures part.Keys <= PLUGIN_FIELDS
  {
    map[][DevicePlugin := PluginDoc(spec.devicePluginImage)]
  }

  /** Drop the fields ks and put part in their place. */
  function Overwrite(f: Fields, ks: set<Member>, part: Fields): Fields {
    (f - ks) + part
  }

  function SetLoader(spec: ConfigSpec, f: Fields): Fields {
    Overwrite(f, LOADER_FIELDS, LoaderPart(spec))
  }

  function SetPlugin(spec: ConfigSpec, f: Fields): Fields {
    Overwrite(f, PLUGIN_FIELDS, PluginPart(spec))
  }

  /** The match labels of the three workloads (under app.kubernetes.io, and the tier). */
  function LabelsOf(labels: Literal): LabelMap {
    match labels
    case SchedulerLabels =>
      map[AppName := "aws-neuron", AppComponent := "aws-neuron", AppPartOf := "aws-neuron",
          AppInstance := "neuron-release", Tier := "control-plane"]
    case ExtensionLabels =>
      map[AppName := "aws-neuron", AppInstance := "neuron-scheduler-extension", AppComponent := "aws-neuron",
          AppPartOf := "aws-neuron"]
    case MetricsLabels =>
      map[AppComponent := "awslabs-gpu", AppName := "awslabs-gpu", AppPartOf := "awslabs-gpu",
          AppRole := "awslabs-gpu-metrics"]
    case _ => map[]
  }

  /** The same labels select the pods and are put on them. */
  function Workload(labels: Literal, account: Literal, container: Literal, image: string): Fields {
    map[][Selector := Fixed(labels)][Labels := Fixed(labels)][ServiceAccountName := Fixed(account)]
      [Containers := Arr([Fixed(container), Str(image)])]
  }

  function SchedulerSpec(spec: ConfigSpec): Fields {
    Workload(SchedulerLabels, SchedulerAccount, SchedulerContainer, spec.customSchedulerImage)[Replicas := Num(1)]
  }

  function ExtensionSpec(spec: ConfigSpec): Fields {
    Workload(ExtensionLabels, SchedulerAccount, ExtensionContainer, spec.schedulerExtensionImage)
      [Replicas := Num(1)][Strategy := Fixed(Recreate)]
  }

  /** The metrics DaemonSet runs on the nodes that KMM marked ready for this DeviceConfig. */
  function MetricsSpec(ready: Key -> Member, nn: Key): Fields {
    Workload(MetricsLabels, MetricsAccount, MetricsContainer, "")
      [NodeSelector := Obj(Strings(map[ready(nn) := ""]))]
  }

  /** The spec a setter leaves behind when it is handed the spec f. */
  function Desire(ready: Key -> Member, nn: Key, spec: ConfigSpec, r: Role, f: Fields): Fields {
    match r
    case Module => SetPlugin(spec, SetLoader(spec, f))
    case Scheduler => SchedulerSpec(spec)
    case Extension => ExtensionSpec(spec)
    case Metrics => MetricsSpec(ready, nn)
  }

  predicate Agree(f: Fields, g: Fields, ks: set<Member>) {
    forall k :: k in ks ==> (k in f <==> k in g) && (k in f ==> f[k] == g[k])
  }

  predicate AgreeOutside(f: Fields, g: Fields, ks: set<Member>) {
    forall k :: k in f.Keys + g.Keys - ks ==> k in f && k in g && f[k] == g[k]
  }

  lemma OverwriteLaws(f: Fields, g: Fields, ks: set<Member>, part: Fields)
    requires part.Keys <= ks
    ensures Overwrite(Overwrite(f, ks, part), ks, part) == Overwrite(f, ks, part)
    ensures AgreeOutside(f, Overwrite(f, ks, part), ks)
    ensures Agree(Overwrite(f, ks, part), Overwrite(g, ks, part), ks)
  {
  }

  lemma OverwritesJoin(f: Fields, ks: set<Member>, part: Fields, ls: set<Member>, other: Fields)
    requires part.Keys <= ks && other.Keys <= ls && ks !! ls
    ensures Overwrite(Overwrite(f, ks, part), ls, other) == Overwrite(f, ks + ls, part + other)
  {
  }

  lemma OverwritesCommute(f: Fields, ks: set<Member>, part: Fields, ls: set<Member>, other: Fields)
    requires part.Keys <= ks && other.Keys <= ls && ks !! ls
    ensures Overwrite(Overwrite(f, ks, part), ls, other) == Overwrite(Overwrite(f, ls, other), ks, part)
  {
    OverwritesJoin(f, ks, part, ls, other);
    OverwritesJoin(f, ls, other, ks, part);
    assert ks + ls == ls + ks;
    assert part + other == other + part;
  }

  lemma ManagedFields()
    ensures LOADER_FIELDS !! PLUGIN_FIELDS && LOADER_FIELDS + PLUGIN_FIELDS == MANAGED
  {
  }

  /** The two Module setters commute: they write disjoint fields. */
  lemma ModuleSettersCommute(spec: ConfigSpec, f: Fields)
    ensures SetPlugin(spec, SetLoader(spec, f)) == SetLoader(spec, SetPlugin(spec, f))
    ensures SetPlugin(spec, SetLoader(spec, f)) == Overwrite(f, MANAGED, LoaderPart(spec) + PluginPart(spec))
  {
    ManagedFields();
    OverwritesJoin(f, LOADER_FIELDS, LoaderPart(spec), PLUGIN_FIELDS, PluginPart(spec));
    OverwritesCommute(f, LOADER_FIELDS, LoaderPart(spec), PLUGIN_FIELDS, PluginPart(spec));
  }

  /** Each Module setter is idempotent, leaves the fields it does not manage alone, and what it
      writes depends on the DeviceConfig only. */
  lemma ModuleSettersLocal(spec: ConfigSpec, f: Fields, g: Fields)
    ensures SetLoader(spec, SetLoader(spec, f)) == SetLoader(spec, f)
    ensures SetPlugin(spec, SetPlugin(spec, f)) == SetPlugin(spec, f)
    ensures AgreeOutside(f, SetLoader(spec, f), LOADER_FIELDS)
    ensures AgreeOutside(f, SetPlugin(spec, f), PLUGIN_FIELDS)
    ensures Agree(SetLoader(spec, f), SetLoader(spec, g), LOADER_FIELDS)
    ensures Agree(SetPlugin(spec, f), SetPlugin(spec, g), PLUGIN_FIELDS)
  {
    OverwriteLaws(f, g, LOADER_FIELDS, LoaderPart(spec));
    OverwriteLaws(f, g, PLUGIN_FIELDS, PluginPart(spec));
  }

  lemma OverwriteIsSafe(f: Fields, ks: set<Member>, part: Fields)
    requires NullFree(Obj(part))
    ensures PatchSafe(Obj(f), Obj(Overwrite(f, ks, part)))
  {
    var g := Overwrite(f, ks, part);
    forall k | k in g && k in f && f[k].Obj? && g[k].Obj? ensures PatchSafe(f[k], g[k]) {
      if k in part { assert NullFree(part[k]); NullFreeIsSafe(f[k], g[k]); } else { SameIsSafe(f[k]); }
    }
    assert forall k :: k in part ==> NullFree(part[k]);
  }

  lemma AddNullFree(f: Fields, k: Member, j: Json)
    requires NullFree(Obj(f)) && NullFree(j)
    ensures NullFree(Obj(f[k := j]))
  {
  }

  lemma SecretNullFree(secret: Option<string>)
    ensures NullFree(Obj(SecretPart(secret)))
  {
    var empty: Fields := map[];
    assert NullFree(Obj(empty));
    if secret.Some? {
      AddNullFree(empty, ImageRepoSecret, Obj(Strings(map[Name := secret.value])));
    }
  }

  lemma PartsNullFree(spec: ConfigSpec)
    ensures NullFree(Obj(LoaderPart(spec)))
    ensures NullFree(Obj(PluginPart(spec)))
  {
    var empty: Fields := map[];
    assert NullFree(Obj(empty));
    var secret := SecretPart(spec.imageRepoSecret);
    SecretNullFree(spec.imageRepoSecret);
    AddNullFree(secret, ModuleLoader, LoaderDoc(spec.driversImage));
    AddNullFree(secret[ModuleLoader := LoaderDoc(spec.driversImage)], Selector, Obj(Strings(SelectorOf(spec))));
    AddNullFree(empty, DevicePlugin, PluginDoc(spec.devicePluginImage));
  }

  lemma WorkloadNullFree(labels: Literal, account: Literal, container: Literal, image: string)
    ensures NullFree(Obj(Workload(labels, account, container, image)))
  {
    var empty: Fields := map[];
    assert NullFree(Obj(empty));
    AddNullFree(empty, Selector, Fixed(labels));
    AddNullFree(empty[Selector := Fixed(labels)], Labels, Fixed(labels));
    AddNullFree(empty[Selector := Fixed(labels)][Labels := Fixed(labels)], ServiceAccountName, Fixed(account));
  }

  lemma WorkloadsNullFree(ready: Key -> Member, nn: Key, spec: ConfigSpec)
    ensures NullFree(Obj(SchedulerSpec(spec))) && NullFree(Obj(ExtensionSpec(spec)))
    ensures NullFree(Obj(MetricsSpec(ready, nn)))
  {
    var scheduler := Workload(SchedulerLabels, SchedulerAccount, SchedulerContainer, spec.customSchedulerImage);
    var extension := Workload(ExtensionLabels, SchedulerAccount, ExtensionContainer, spec.schedulerExtensionImage);
    var metrics := Workload(MetricsLabels, MetricsAccount, MetricsContainer, "");
    WorkloadNullFree(SchedulerLabels, SchedulerAccount, SchedulerContainer, spec.customSchedulerImage);
    WorkloadNullFree(ExtensionLabels, SchedulerAccount, ExtensionContainer, spec.schedulerExtensionImage);
    WorkloadNullFree(MetricsLabels, MetricsAccount, MetricsContainer, "");
    AddNullFree(scheduler, Replicas, Num(1));
    AddNullFree(extension, Replicas, Num(1));
    AddNullFree(extension[Replicas := Num(1)], Strategy, Fixed(Recreate));
    AddNullFree(metrics, NodeSelector, Obj(Strings(map[ready(nn) := ""])));
  }

  lemma JoinNullFree(f: Fields, g: Fields)
    requires NullFree(Obj(f)) && NullFree(Obj(g))
    ensures NullFree(Obj(f + g))
  {
  }

  /** The patch computed for a child, applied to the copy it was computed from, stores what the
      setter left: no setter introduces a null. */
  lemma PatchStoresDesired(ready: Key -> Member, nn: Key, spec: ConfigSpec, r: Role, f: Fields)
    ensures var want := Desire(ready, nn, spec, r, f);
            MergePatch(Obj(f), Obj(Diff(Obj(f), Obj(want)))) == Obj(want)
  {
    var want := Desire(ready, nn, spec, r, f);
    if r == Module {
      ModuleSettersCommute(spec, f);
      PartsNullFree(spec);
      JoinNullFree(LoaderPart(spec), PluginPart(spec));
      OverwriteIsSafe(f, MANAGED, LoaderPart(spec) + PluginPart(spec));
    } else {
      WorkloadsNullFree(ready, nn, spec);
      NullFreeIsSafe(Obj(f), Obj(want));
    }
    PatchRoundTrip(Obj(f), Obj(want));
  }

  // ---------------------------------------------------------------- where the settings end up

  /** The member of an object, if there is one. */
  function At(j: Json, k: Member): Option<Json> {
    if j.Obj? && k in j.fields then Some(j.fields[k]) else None
  }

  /** Where each setting of a DeviceConfig is found in the Module spec g: the driver image in the one kernel
      mapping, the plugin image in the device plugin, the pull secret exactly if there is one, and the
      selector, label by label; with the loader's and the plugin's own accounts. */
  predicate Carries(g: Fields, spec: ConfigSpec) {
    && {ModuleLoader, DevicePlugin, Selector} <= g.Keys
    && At(g[DevicePlugin], Image) == Some(Str(spec.devicePluginImage))
    && At(g[DevicePlugin], ServiceAccountName) == Some(Fixed(PluginAccount))
    && At(g[DevicePlugin], Containers) == Some(Fixed(PluginContainer))
    && At(g[ModuleLoader], ServiceAccountName) == Some(Fixed(LoaderAccount))
    && CarriesDriver(g[ModuleLoader], spec.driversImage + "-$KERNEL_VERSION")
    && (ImageRepoSecret in g <==> spec.imageRepoSecret.Some?)
    && (spec.imageRepoSecret.Some? ==> At(g[ImageRepoSecret], Name) == Some(Str(spec.imageRepoSecret.value)))
    && CarriesSelector(g[Selector], spec.selector)
  }

  /** One mapping for any kernel; the in-tree module to remove is the module that is loaded instead. */
  predicate CarriesDriver(loader: Json, image: string) {
    && loader.Obj? && KernelMappings in loader.fields && At(loader, Modprobe) == Some(Fixed(NeuronModule))
    && var mappings := loader.fields[KernelMappings];
       && mappings.Arr? && |mappings.elems| == 1
       && At(mappings.elems[0], Regexp) == Some(Fixed(AnyKernel))
       && At(mappings.elems[0], ContainerImage) == Some(Str(image))
       && At(mappings.elems[0], InTreeModulesToRemove) == Some(Arr([loader.fields[Modprobe]]))
  }

  predicate CarriesSelector(selector: Json, want: Option<LabelMap>) {
    selector.Obj? &&
    match want
    case Some(labels) =>
      selector.fields.Keys == labels.Keys && forall k :: k in labels ==> selector.fields[k] == Str(labels[k])
    case None => selector.fields == map[Named("feature.node.kubernetes.io/pci-1d0f.present") := Str("true")]
  }

  /** Every setting ends up in the Module. */
  lemma ModuleSettings(spec: ConfigSpec, f: Fields)
    ensures Carries(SetPlugin(spec, SetLoader(spec, f)), spec)
  {
    ModuleSettersCommute(spec, f);
    ModulePart(spec, LoaderPart(spec), PluginPart(spec), f);
    DocsCarry(spec, Overwrite(f, MANAGED, LoaderPart(spec) + PluginPart(spec)));
  }

  lemma DocsCarry(spec: ConfigSpec, g: Fields)
    requires {ModuleLoader, DevicePlugin, Selector} <= g.Keys
    requires g[DevicePlugin] == PluginDoc(spec.devicePluginImage)
    requires g[ModuleLoader] == LoaderDoc(spec.driversImage)
    requires g[Selector] == Obj(Strings(SelectorOf(spec)))
    requires ImageRepoSecret in g <==> spec.imageRepoSecret.Some?
    requires spec.imageRepoSecret.Some? ==>
               g[ImageRepoSecret] == Obj(Strings(map[Name := spec.imageRepoSecret.value]))
    ensures Carries(g, spec)
  {
    if spec.selector.None? {
      assert Strings(SelectorOf(spec)) == map[PCI_PRESENT := Str("true")];
    }
  }

  lemma ModulePart(spec: ConfigSpec, loader: Fields, plugin: Fields, f: Fields)
    requires loader == LoaderPart(spec) && plugin == PluginPart(spec)
    ensures var g := Overwrite(f, MANAGED, loader + plugin);
            && {ModuleLoader, DevicePlugin, Selector} <= g.Keys
            && g[DevicePlugin] == PluginDoc(spec.devicePluginImage)
            && g[ModuleLoader] == LoaderDoc(spec.driversImage)
            && g[Selector] == Obj(Strings(SelectorOf(spec)))
            && (ImageRepoSecret in g <==> spec.imageRepoSecret.Some?)
            && (spec.imageRepoSecret.Some? ==>
                  g[ImageRepoSecret] == Obj(Strings(map[Name := spec.imageRepoSecret.value])))
  {
  }

  /** The whole spec of a workload: labels that select its pods and are on them, account, container with its
      image, and nothing else but the extra members. */
  predicate Runs(f: Fields, labels: Literal, account: Literal, container: Literal, image: string, extra: Fields) {
    && extra.Keys !! {Selector, Labels, ServiceAccountName, Containers}
    && f.Keys == {Selector, Labels, ServiceAccountName, Containers} + extra.Keys
    && f[Selector] == f[Labels] == Fixed(labels)
    && f[ServiceAccountName] == Fixed(account)
    && f[Containers] == Arr([Fixed(container), Str(image)])
    && forall k :: k in extra ==> f[k] == extra[k]
  }

  /** Each workload has its own labels, container and image; only the extension is recreated on updates; the
      metrics DaemonSet is tied to the nodes that KMM has marked ready for this very DeviceConfig. */
  lemma SchedulerSettings(spec: ConfigSpec)
    ensures Runs(SchedulerSpec(spec), SchedulerLabels, SchedulerAccount, SchedulerContainer,
                 spec.customSchedulerImage, map[Replicas := Num(1)])
  {
    WorkloadRuns(SchedulerLabels, SchedulerAccount, SchedulerContainer, spec.customSchedulerImage, Replicas, Num(1));
  }

  lemma ExtensionSettings(spec: ConfigSpec)
    ensures Runs(ExtensionSpec(spec), ExtensionLabels, SchedulerAccount, ExtensionContainer,
                 spec.schedulerExtensionImage, map[Replicas := Num(1), Strategy := Fixed(Recreate)])
  {
    var extension := Workload(ExtensionLabels, SchedulerAccount, ExtensionContainer, spec.schedulerExtensionImage);
    WorkloadRuns(ExtensionLabels, SchedulerAccount, ExtensionContainer, spec.schedulerExtensionImage, Replicas, Num(1));
    RunsMore(extension[Replicas := Num(1)], ExtensionLabels, SchedulerAccount, ExtensionContainer,
             spec.schedulerExtensionImage, map[Replicas := Num(1)], Strategy, Fixed(Recreate));
  }

  lemma MetricsSettings(ready: Key -> Member, nn: Key)
    ensures Runs(MetricsSpec(ready, nn), MetricsLabels, MetricsAccount, MetricsContainer, "",
                 map[NodeSelector := Obj(Strings(map[ready(nn) := ""]))])
  {
    WorkloadRuns(MetricsLabels, MetricsAccount, MetricsContainer, "", NodeSelector,
                 Obj(Strings(map[ready(nn) := ""])));
  }

  lemma WorkloadRuns(labels: Literal, account: Literal, container: Literal, image: string, k: Member, j: Json)
    requires k !in {Selector, Labels, ServiceAccountName, Containers}
    ensures Runs(Workload(labels, account, container, image)[k := j], labels, account, container, image, map[k := j])
  {
  }

  lemma RunsMore(f: Fields, labels: Literal, account: Literal, container: Literal, image: string, extra: Fields,
                 k: Member, j: Json)
    requires Runs(f, labels, account, container, image, extra)
    requires k !in {Selector, Labels, ServiceAccountName, Containers}
    ensures Runs(f[k := j], labels, account, container, image, extra[k := j])
  {
  }

  predicate Selects(selector: LabelMap, labels: LabelMap) {
    forall k :: k in selector ==> k in labels && labels[k] == selector[k]
  }

  /** The label selector of a workload selects the pods of another one. */
  predicate SelectsPods(f: Fields, g: Fields) {
    && Selector in f && Labels in g && f[Selector].Fixed? && g[Labels].Fixed?
    && Selects(LabelsOf(f[Selector].part), LabelsOf(g[Labels].part))
  }

  lemma LabelSetsDiffer(v: Literal, w: Literal)
    requires {v, w} <= {SchedulerLabels, ExtensionLabels, MetricsLabels}
    ensures Selects(LabelsOf(v), LabelsOf(w)) <==> v == w
    ensures AppInstance in LabelsOf(SchedulerLabels) && LabelsOf(SchedulerLabels)[AppInstance] == "neuron-release"
    ensures AppInstance in LabelsOf(ExtensionLabels)
            && LabelsOf(ExtensionLabels)[AppInstance] == "neuron-scheduler-extension"
  {
    if v != w {
      if v == SchedulerLabels { assert Tier in LabelsOf(v) && Tier !in LabelsOf(w); }
      if v == MetricsLabels { assert AppRole in LabelsOf(v) && AppRole !in LabelsOf(w); }
      if v == ExtensionLabels && w == SchedulerLabels {
        assert LabelsOf(v)[AppInstance] == "neuron-scheduler-extension" && LabelsOf(w)[AppInstance] == "neuron-release";
        assert |"neuron-scheduler-extension"| != |"neuron-release"|;
      }
      if v == ExtensionLabels && w == MetricsLabels {
        assert AppInstance in LabelsOf(v) && AppInstance !in LabelsOf(w);
      }
    }
  }

  /** A workload selects the pods of workloads of its own role and of no other, whatever the settings: the
      three never take each other's pods. (The labels do not name the DeviceConfig.) */
  lemma PodsStayApart(ready: Key -> Member, nn: Key, a: ConfigSpec, mm: Key, b: ConfigSpec, q: Role, r: Role,
                      f: Fields, g: Fields)
    requires q != Module && r != Module
    ensures SelectsPods(Desire(ready, nn, a, q, f), Desire(ready, mm, b, r, g)) <==> q == r
  {
    var v := LabelsUsed(ready, nn, a, q, f);
    var w := LabelsUsed(ready, mm, b, r, g);
    SelectsByLabels(Desire(ready, nn, a, q, f), v, Desire(ready, mm, b, r, g), w);
  }

  lemma LabelsUsed(ready: Key -> Member, nn: Key, spec: ConfigSpec, r: Role, f: Fields) returns (labels: Literal)
    requires r != Module
    ensures var g := Desire(ready, nn, spec, r, f);
            Selector in g && Labels in g && g[Selector] == g[Labels] == Fixed(labels)
    ensures labels == match r
                      case Scheduler => SchedulerLabels
                      case Extension => ExtensionLabels
                      case Metrics => MetricsLabels
  {
    SchedulerSettings(spec);
    ExtensionSettings(spec);
    MetricsSettings(ready, nn);
    labels := match r case Scheduler => SchedulerLabels case Extension => ExtensionLabels case Metrics => MetricsLabels;
  }

  lemma SelectsByLabels(f: Fields, v: Literal, g: Fields, w: Literal)
    requires Selector in f && f[Selector] == Fixed(v) && Labels in g && g[Labels] == Fixed(w)
    requires {v, w} <= {SchedulerLabels, ExtensionLabels, MetricsLabels}
    ensures SelectsPods(f, g) <==> v == w
  {
    LabelSetsDiffer(v, w);
  }

  /** Two DeviceConfigs want the same children exactly when they agree on every setting but the unused
      in-tree switch; leaving the selector unset means the PCI label. */
  lemma SettingsMatter(a: ConfigSpec, b: ConfigSpec)
    ensures LoaderPart(a) == LoaderPart(b) && PluginPart(a) == PluginPart(b)
            && SchedulerSpec(a) == SchedulerSpec(b) && ExtensionSpec(a) == ExtensionSpec(b)
            <==>
            a.driversImage == b.driversImage && a.devicePluginImage == b.devicePluginImage
            && a.customSchedulerImage == b.customSchedulerImage
            && a.schedulerExtensionImage == b.schedulerExtensionImage
            && a.imageRepoSecret == b.imageRepoSecret && SelectorOf(a) == SelectorOf(b)
  {
    if LoaderPart(a) == LoaderPart(b) && PluginPart(a) == PluginPart(b)
       && SchedulerSpec(a) == SchedulerSpec(b) && ExtensionSpec(a) == ExtensionSpec(b)
    {
      LoaderMatters(a, b);
      SchedulerSettings(a);
      SchedulerSettings(b);
      ExtensionSettings(a);
      ExtensionSettings(b);
      assert PluginPart(a)[DevicePlugin] == PluginDoc(a.devicePluginImage);
      assert PluginDoc(a.devicePluginImage).fields[Image] == PluginDoc(b.devicePluginImage).fields[Image];
    }
  }

  lemma LoaderMatters(a: ConfigSpec, b: ConfigSpec)
    requires LoaderPart(a) == LoaderPart(b)
    ensures a.driversImage == b.driversImage && a.imageRepoSecret == b.imageRepoSecret
    ensures SelectorOf(a) == SelectorOf(b)
  {
    var f: Fields := map[];
    ModulePart(a, LoaderPart(a), PluginPart(a), f);
    ModulePart(b, LoaderPart(b), PluginPart(b), f);
    assert LoaderPart(a)[ModuleLoader] == LoaderDoc(a.driversImage);
    assert LoaderPart(b)[ModuleLoader] == LoaderDoc(b.driversImage);
    assert LoaderPart(a)[Selector] == Obj(Strings(SelectorOf(a)));
    assert LoaderPart(b)[Selector] == Obj(Strings(SelectorOf(b)));
    StringsInjective(SelectorOf(a), SelectorOf(b));
    LoaderDocInjective(a.driversImage, b.driversImage);
    SecretPartInjective(a, b);
  }

  lemma StringsInjective(m: LabelMap, n: LabelMap)
    requires Strings(m) == Strings(n)
    ensures m == n
  {
    assert m.Keys == Strings(m).Keys && n.Keys == Strings(n).Keys;
    forall k | k in m ensures m[k] == n[k] {
      assert Strings(m)[k] == Str(m[k]);
    }
  }

  lemma LoaderDocInjective(a: string, b: string)
    requires LoaderDoc(a) == LoaderDoc(b)
    ensures a == b
  {
    assert LoaderDoc(a).fields[KernelMappings].elems[0].fields[ContainerImage] == Str(a + KERNEL_SUFFIX);
    assert LoaderDoc(b).fields[KernelMappings].elems[0].fields[ContainerImage] == Str(b + KERNEL_SUFFIX);
    SameSuffix(a, b, KERNEL_SUFFIX);
  }

  lemma SecretPartInjective(a: ConfigSpec, b: ConfigSpec)
    requires LoaderPart(a) == LoaderPart(b)
    ensures a.imageRepoSecret == b.imageRepoSecret
  {
    assert ImageRepoSecret in LoaderPart(a) <==> a.imageRepoSecret.Some?;
    assert ImageRepoSecret in LoaderPart(b) <==> b.imageRepoSecret.Some?;
    if a.imageRepoSecret.Some? {
      assert LoaderPart(a)[ImageRepoSecret] == Obj(Strings(map[Name := a.imageRepoSecret.value]));
      assert LoaderPart(b)[ImageRepoSecret] == Obj(Strings(map[Name := b.imageRepoSecret.value]));
      StringsInjective(map[Name := a.imageRepoSecret.value], map[Name := b.imageRepoSecret.value]);
      assert map[Name := a.imageRepoSecret.value][Name] == map[Name := b.imageRepoSecret.value][Name];
    }
  }

  lemma SameSuffix(a: string, b: string, suffix: string)
    requires a + suffix == b + suffix
    ensures a == b
  {
    assert |a| == |b|;
    assert a == (a + suffix)[..|a|];
    assert b == (b + suffix)[..|b|];
  }
}
