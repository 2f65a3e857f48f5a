/** The DeviceConfig as it lies in memory: structs with shared maps, secrets and slices, their generated
    deep copies, and the finalizer edits, which work in place on the slice's backing array. */
module Objects {
  import opened Json
  import opened Api
  import F = Finalizers

  /** A Go map of labels: a reference. */
  class StringMap {
    var m: LabelMap

    constructor (m: LabelMap)
      ensures this.m == m
    {
      this.m := m;
    }

    /** A new map with the same entries, filled entry by entry in any order. */
    method Copy() returns (out: StringMap)
      ensures fresh(out) && out.m == m
    {
      out := new StringMap(map[]);
      var todo := m.Keys;
      while todo != {}
        invariant fresh(out) && todo <= m.Keys
        invariant out.m == map k | k in m && k !in todo :: m[k]
        modifies out
        decreases todo
      {
        var key :| key in todo;
        out.m := out.m[key := m[key]];
        todo := todo - {key};
      }
    }
  }

  /** A LocalObjectReference behind a pointer. */
  class SecretRef {
    var name: string

    constructor (name: string)
      ensures this.name == name
    {
      this.name := name;
    }
  }

  class DeviceConfigSpec {
    var useInTreeDrivers: bool
    var driversImage: string
    var devicePluginImage: string
    var customSchedulerImage: string
    var schedulerExtensionImage: string
    var imageRepoSecret: SecretRef?
    var selector: StringMap?

    constructor ()
      ensures Value() == ConfigSpec(false, "", "", "", "", None, None)
      ensures imageRepoSecret == null && selector == null
    {
      useInTreeDrivers := false;
      driversImage, devicePluginImage, customSchedulerImage, schedulerExtensionImage := "", "", "", "";
      imageRepoSecret, selector := null, null;
    }

    ghost function Repr(): set<object>
      reads this
    {
      {this} + (if imageRepoSecret == null then {} else {imageRepoSecret})
      + (if selector == null then {} else {selector})
    }

    /** The value, with an unset pointer or map kept apart from an empty one. */
    function Value(): ConfigSpec
      reads this, imageRepoSecret, selector
    {
      ConfigSpec(useInTreeDrivers, driversImage, devicePluginImage, customSchedulerImage, schedulerExtensionImage,
                 if imageRepoSecret == null then None else Some(imageRepoSecret.name),
                 if selector == null then None else Some(selector.m))
    }

    method Load(c: ConfigSpec)
      modifies this
      ensures Value() == c
      ensures imageRepoSecret == null || fresh(imageRepoSecret)
      ensures selector == null || fresh(selector)
    {
      useInTreeDrivers, driversImage, devicePluginImage := c.useInTreeDrivers, c.driversImage, c.devicePluginImage;
      customSchedulerImage, schedulerExtensionImage := c.customSchedulerImage, c.schedulerExtensionImage;
      imageRepoSecret, selector := null, null;
      if c.imageRepoSecret.Some? {
        imageRepoSecret := new SecretRef(c.imageRepoSecret.value);
      }
      if c.selector.Some? {
        selector := new StringMap(c.selector.value);
      }
    }

    ghost predicate SameAs(o: DeviceConfigSpec)
      reads this, imageRepoSecret, selector, o, o.imageRepoSecret, o.selector
    {
      && useInTreeDrivers == o.useInTreeDrivers && driversImage == o.driversImage
      && devicePluginImage == o.devicePluginImage && customSchedulerImage == o.customSchedulerImage
      && schedulerExtensionImage == o.schedulerExtensionImage
      && (imageRepoSecret == null <==> o.imageRepoSecret == null)
      && (imageRepoSecret != null && o.imageRepoSecret != null ==> imageRepoSecret.name == o.imageRepoSecret.name)
      && (selector == null <==> o.selector == null)
      && (selector != null && o.selector != null ==> selector.m == o.selector.m)
    }

    /** Write a copy into out: out is overwritten field by field, its secret and map are new. */
    method DeepCopyInto(out: DeviceConfigSpec)
      requires out != this
      modifies out
      ensures out.Value() == old(Value()) == Value() && out.SameAs(this)
      ensures out.imageRepoSecret == null || fresh(out.imageRepoSecret)
      ensures out.selector == null || fresh(out.selector)
    {
      out.useInTreeDrivers := useInTreeDrivers;
      out.driversImage := driversImage;
      out.devicePluginImage := devicePluginImage;
      out.customSchedulerImage := customSchedulerImage;
      out.schedulerExtensionImage := schedulerExtensionImage;
      out.imageRepoSecret := imageRepoSecret;
      out.selector := selector;
      if imageRepoSecret != null {
        out.imageRepoSecret := new SecretRef(imageRepoSecret.name);
      }
      if selector != null {
        out.selector := selector.Copy();
      }
    }

    method DeepCopy() returns (out: DeviceConfigSpec)
      ensures fresh(out.Repr()) && out.Value() == Value()
    {
      out := new DeviceConfigSpec();
      DeepCopyInto(out);
    }
  }

  /** Labels, annotations and owner references; nil is kept apart from empty. */
  datatype Tags = Tags(labels: Option<LabelMap>, annotations: Option<LabelMap>, owners: Option<seq<OwnerRef>>)

  /** The part of the metadata that the operator carries along without looking at it. */
  class TagsObject {
    var labels: StringMap?
    var annotations: StringMap?
    var owners: array?<OwnerRef>

    constructor ()
      ensures labels == null && annotations == null && owners == null
    {
      labels, annotations, owners := null, null, null;
    }

    ghost function Repr(): set<object>
      reads this
    {
      {this} + (if labels == null then {} else {labels}) + (if annotations == null then {} else {annotations})
      + (if owners == null then {} else {owners})
    }

    ghost function Value(): Tags
      reads this, labels, annotations, owners
    {
      Tags(if labels == null then None else Some(labels.m),
           if annotations == null then None else Some(annotations.m),
           if owners == null then None else Some(owners[..]))
    }

    /** Field by field the same, in other memory or not: present in both or in neither, with the same contents. */
    ghost predicate SameAs(o: TagsObject)
      reads this, labels, annotations, owners, o, o.labels, o.annotations, o.owners
    {
      && (labels == null <==> o.labels == null) && (labels != null && o.labels != null ==> labels.m == o.labels.m)
      && (annotations == null <==> o.annotations == null)
      && (annotations != null && o.annotations != null ==> annotations.m == o.annotations.m)
      && (owners == null <==> o.owners == null) && (owners != null && o.owners != null ==> owners[..] == o.owners[..])
    }

    method DeepCopyInto(out: TagsObject)
      requires out != this
      modifies out
      ensures out.Value() == old(Value()) == Value() && out.SameAs(this)
      ensures out.labels == null || fresh(out.labels)
      ensures out.annotations == null || fresh(out.annotations)
      ensures out.owners == null || fresh(out.owners)
    {
      out.labels, out.annotations, out.owners := labels, annotations, owners;
      if labels != null {
        out.labels := labels.Copy();
      }
      if annotations != null {
        out.annotations := annotations.Copy();
      }
      if owners != null {
        out.owners := CopyOwners(owners);
      }
    }
  }

  method CopyOwners(a: array<OwnerRef>) returns (copy: array<OwnerRef>)
    ensures fresh(copy) && copy[..] == a[..]
  {
    copy := new OwnerRef[a.Length](_ => OwnerRef(DeviceConfigKind, "", 0, false));
    for i := 0 to a.Length
      invariant copy[..i] == a[..i]
      modifies copy
    {
      copy[i] := a[i];
    }
    assert copy[..] == copy[..a.Length] && a[..] == a[..a.Length];
  }

  /** Everything a DeviceConfig says; a nil finalizer slice is kept apart from an empty one. */
  datatype Snapshot = Snapshot(key: Key, uid: nat, finalizers: Option<seq<string>>, terminating: bool,
                               tags: Tags, spec: ConfigSpec, available: int)

  method NewArray(entries: seq<string>) returns (a: array<string>)
    ensures fresh(a) && a[..] == entries
  {
    a := new string[|entries|](i requires 0 <= i < |entries| => entries[i]);
  }

  class DeviceConfig {
    var ns: string
    var name: string
    var uid: nat
    var terminating: bool
    var finalizers: array?<string>
    var count: nat
    const tags: TagsObject
    const spec: DeviceConfigSpec
    var available: int

    /** The zero struct. */
    constructor ()
      ensures Valid() && fresh(Repr())
      ensures finalizers == null
    {
      ns, name, uid, terminating, available := "", "", 0, false, 0;
      finalizers, count := null, 0;
      var t := new TagsObject();
      var s := new DeviceConfigSpec();
      tags, spec := t, s;
    }

    ghost predicate Valid()
      reads this, finalizers
    {
      count <= if finalizers == null then 0 else finalizers.Length
    }

    ghost function Repr(): set<object>
      reads this, tags, spec
    {
      {this} + tags.Repr() + spec.Repr() + (if finalizers == null then {} else {finalizers})
    }

    function List(): seq<string>
      requires Valid()
      reads this, finalizers
    {
      if finalizers == null then [] else finalizers[..count]
    }

    /** The part that the API server stores and this model follows. */
    function Stored(): Config
      requires Valid()
      reads this, finalizers, spec, spec.imageRepoSecret, spec.selector
    {
      Config(uid, List(), terminating, spec.Value())
    }

    /** Decode a reply into the struct: every part is new. */
    method Load(nn: Key, cfg: Config)
      modifies this, spec
      ensures Valid() && Stored() == cfg && Key(ns, name) == nn
      ensures fresh(Repr() - {this, spec} - tags.Repr())
    {
      LoadMeta(nn, cfg);
      spec.Load(cfg.spec);
    }

    method LoadMeta(nn: Key, cfg: Config)
      modifies this
      ensures Valid() && List() == cfg.finalizers
      ensures SameMeta(nn.ns, nn.name, cfg.uid, cfg.terminating, old(available))
      ensures finalizers != null && fresh(finalizers)
    {
      var fs := NewArray(cfg.finalizers);
      ns, name, uid, terminating := nn.ns, nn.name, cfg.uid, cfg.terminating;
      finalizers, count := fs, |cfg.finalizers|;
      assert finalizers[..count] == finalizers[..];
    }

    ghost function Value(): Snapshot
      requires Valid()
      reads this, finalizers, tags, tags.labels, tags.annotations, tags.owners
      reads spec, spec.imageRepoSecret, spec.selector
    {
      Snapshot(Key(ns, name), uid, if finalizers == null then None else Some(List()), terminating,
               tags.Value(), spec.Value(), available)
    }

    /** The metadata, with a new backing array for the finalizer slice. */
    method CopyMetaInto(out: DeviceConfig)
      requires Valid() && out != this
      modifies out
      ensures out.Valid() && out.List() == List()
      ensures Valid() && Key(out.ns, out.name) == Key(ns, name) && out.uid == uid
      ensures out.terminating == terminating && out.available == available
      ensures out.finalizers == null <==> finalizers == null
      ensures out.finalizers == null || fresh(out.finalizers)
    {
      out.ns, out.name, out.uid := ns, name, uid;
      out.terminating, out.available := terminating, available;
      out.finalizers, out.count := finalizers, count;
      if finalizers != null {
        var copy := new string[count];
        for i := 0 to count
          invariant copy[..i] == finalizers[..i]
          modifies copy
        {
          copy[i] := finalizers[i];
        }
        out.finalizers := copy;
      }
    }

    method CopyPartsInto(out: DeviceConfig)
      requires out.tags != tags && out.spec != spec
      modifies out.tags, out.spec
      ensures out.tags.Value() == old(tags.Value()) == tags.Value()
      ensures out.spec.Value() == old(spec.Value()) == spec.Value()
      ensures forall o :: o in out.tags.Repr() ==> o == out.tags || fresh(o)
      ensures forall o :: o in out.spec.Repr() ==> o == out.spec || fresh(o)
      ensures out.tags.SameAs(tags) && out.spec.SameAs(spec)
    {
      tags.DeepCopyInto(out.tags);
      spec.DeepCopyInto(out.spec);
    }

    /** A copy of everything: its finalizer array, maps, owner references and secret are new. */
    method DeepCopyInto(out: DeviceConfig)
      requires Valid() && out != this && out.tags != tags && out.spec != spec
      modifies out, out.tags, out.spec
      ensures Valid() && out.Valid() && out.Value() == old(Value()) == Value()
      ensures out.tags.SameAs(tags) && out.spec.SameAs(spec)
      ensures forall o :: o in out.Repr() ==> o == out || o == out.tags || o == out.spec || fresh(o)
    {
      CopyMetaInto(out);
      CopyPartsInto(out);
    }

    method DeepCopy() returns (out: DeviceConfig)
      requires Valid()
      ensures Valid() && out.Valid() && fresh(out.Repr()) && out.Value() == Value()
      ensures out.tags.SameAs(tags) && out.spec.SameAs(spec)
    {
      out := new DeviceConfig();
      DeepCopyInto(out);
    }

    /** ContainsFinalizer. */
    method ContainsFinalizer() returns (found: bool)
      requires Valid()
      ensures found == F.Marked(List())
    {
      found := false;
      if finalizers != null {
        for i := 0 to count
          invariant found == F.Marked(finalizers[..i])
        {
          if finalizers[i] == F.FINALIZER { found := true; }
        }
      }
    }

    /** AddFinalizer: append writes behind the slice when the backing array has room, and moves it to a
        larger array otherwise. */
    method AddFinalizer()
      requires Valid()
      modifies this, finalizers
      ensures Valid() && List() == F.Add(old(List()))
      ensures finalizers == old(finalizers) || fresh(finalizers)
      ensures SameMeta(old(ns), old(name), old(uid), old(terminating), old(available))
    {
      var found := ContainsFinalizer();
      if found { return; }
      if finalizers == null || count == finalizers.Length {
        var larger := new string[2 * count + 1];
        if finalizers != null {
          for i := 0 to count
            invariant larger[..i] == finalizers[..i]
            modifies larger
          {
            larger[i] := finalizers[i];
          }
        }
        larger[count] := F.FINALIZER;
        assert larger[..count + 1] == old(List()) + [F.FINALIZER];
        finalizers := larger;
      } else {
        finalizers[count] := F.FINALIZER;
        assert finalizers[..count + 1] == old(List()) + [F.FINALIZER];
      }
      count := count + 1;
    }

    /** RemoveFinalizer: the entries that stay are moved down in the same backing array. */
    method RemoveFinalizer()
      requires Valid()
      modifies this, finalizers
      ensures Valid() && List() == F.Remove(old(List()))
      ensures finalizers == old(finalizers)
      ensures SameMeta(old(ns), old(name), old(uid), old(terminating), old(available))
    {
      if finalizers == null { return; }
      ghost var before := finalizers[..];
      var index := 0;
      for i := 0 to count
        invariant index <= i && finalizers.Length == |before|
        invariant finalizers[..index] == F.Without(before[..i], F.FINALIZER)
        invariant forall k :: i <= k < |before| ==> finalizers[k] == before[k]
        modifies finalizers
      {
        assert before[..i + 1] == before[..i] + [before[i]];
        F.WithoutAppend(before[..i], [before[i]], F.FINALIZER);
        if finalizers[i] != F.FINALIZER {
          finalizers[index] := finalizers[i];
          index := index + 1;
        }
      }
      count := index;
    }

    predicate SameMeta(ns: string, name: string, uid: nat, terminating: bool, available: int)
      reads this
    {
      this.ns == ns && this.name == name && this.uid == uid && this.terminating == terminating
      && this.available == available
    }
  }

  /** A list of structs; entries may share maps and secrets. A nil slice is kept apart from an empty one. */
  class DeviceConfigList {
    var resourceVersion: string
    var items: Option<seq<DeviceConfig>>

    constructor ()
      ensures items == None
    {
      resourceVersion, items := "", None;
    }

    /** A copy of every entry; nothing mutable is shared with the original or between two copies. */
    method DeepCopyInto(out: DeviceConfigList)
      requires out != this && (items.Some? ==> Entries(items.value))
      modifies out
      ensures out.resourceVersion == resourceVersion && out.items.Some? == items.Some?
      ensures items.Some? ==> Entries(items.value) && Entries(out.items.value) && Disjoint(out.items.value)
      ensures items.Some? ==> |out.items.value| == |items.value|
      ensures items.Some? ==> forall i :: 0 <= i < |items.value| ==>
                out.items.value[i].Value() == items.value[i].Value() && fresh(out.items.value[i].Repr())
    {
      if items.Some? {
        var copies := CopyItems(items.value);
        out.items := Some(copies);
      } else {
        out.items := None;
      }
      out.resourceVersion := resourceVersion;
    }

    method DeepCopy() returns (out: DeviceConfigList)
      requires items.Some? ==> Entries(items.value)
      ensures fresh(out) && out.resourceVersion == resourceVersion && out.items.Some? == items.Some?
      ensures items.Some? ==> Entries(items.value) && Entries(out.items.value) && Disjoint(out.items.value)
      ensures items.Some? ==> |out.items.value| == |items.value|
      ensures items.Some? ==> forall i :: 0 <= i < |items.value| ==>
                out.items.value[i].Value() == items.value[i].Value() && fresh(out.items.value[i].Repr())
    {
      out := new DeviceConfigList();
      DeepCopyInto(out);
    }
  }

  ghost predicate Entries(ds: seq<DeviceConfig>)
    reads ds, set d | d in ds :: d.finalizers
  {
    forall d :: d in ds ==> d.Valid()
  }

  /** No two entries have a mutable part in common. */
  ghost predicate Disjoint(ds: seq<DeviceConfig>)
    reads ds, set d | d in ds :: d.tags, set d | d in ds :: d.spec
  {
    forall i, j :: 0 <= i < j < |ds| ==> ds[i].Repr() !! ds[j].Repr()
  }

  /** The entry at place i is copied, value for value, into memory of the pool. */
  ghost predicate CopyAt(items: seq<DeviceConfig>, copies: seq<DeviceConfig>, i: nat, pool: set<object>)
    requires i < |items| && i < |copies|
    reads items, copies, set d | d in items + copies :: d.finalizers, set d | d in items + copies :: d.spec,
          set d | d in items + copies :: d.spec.imageRepoSecret, set d | d in items + copies :: d.spec.selector,
          set d | d in items + copies :: d.tags, set d | d in items + copies :: d.tags.labels,
          set d | d in items + copies :: d.tags.annotations, set d | d in items + copies :: d.tags.owners
  {
    && items[i].Valid() && copies[i].Valid() && copies[i].Value() == items[i].Value()
    && copies[i].Repr() <= pool
  }

  /** The first entries are copied into memory of the pool, no two copies having a part in common. */
  ghost predicate Copied(items: seq<DeviceConfig>, copies: seq<DeviceConfig>, pool: set<object>)
    reads items, copies, set d | d in items + copies :: d.finalizers, set d | d in items + copies :: d.spec,
          set d | d in items + copies :: d.spec.imageRepoSecret, set d | d in items + copies :: d.spec.selector,
          set d | d in items + copies :: d.tags, set d | d in items + copies :: d.tags.labels,
          set d | d in items + copies :: d.tags.annotations, set d | d in items + copies :: d.tags.owners
  {
    && |copies| <= |items| && Entries(items) && Disjoint(copies)
    && forall i :: 0 <= i < |copies| ==> CopyAt(items, copies, i, pool)
  }

  method CopyEntry(items: seq<DeviceConfig>, copies: seq<DeviceConfig>, ghost pool: set<object>)
    returns (copy: DeviceConfig)
    requires Copied(items, copies, pool) && |copies| < |items|
    ensures Copied(items, copies + [copy], pool + copy.Repr()) && fresh(copy.Repr())
  {
    copy := items[|copies|].DeepCopy();
    assert Copied(items, copies, pool);
    Extend(items, copies, copy, pool);
  }

  lemma Extend(items: seq<DeviceConfig>, copies: seq<DeviceConfig>, copy: DeviceConfig, pool: set<object>)
    requires Copied(items, copies, pool) && |copies| < |items|
    requires copy.Valid() && copy.Value() == items[|copies|].Value() && copy.Repr() !! pool
    ensures Copied(items, copies + [copy], pool + copy.Repr())
  {
    var longer := copies + [copy];
    forall i | 0 <= i < |longer| ensures CopyAt(items, longer, i, pool + copy.Repr()) {
      if i < |copies| {
        assert CopyAt(items, copies, i, pool);
      }
    }
    forall i, j | 0 <= i < j < |longer| ensures longer[i].Repr() !! longer[j].Repr() {
      assert CopyAt(items, copies, i, pool);
    }
  }

  method CopyItems(items: seq<DeviceConfig>) returns (copies: seq<DeviceConfig>)
    requires Entries(items)
    ensures Entries(items) && Entries(copies) && Disjoint(copies) && |copies| == |items|
    ensures forall i :: 0 <= i < |items| ==> copies[i].Value() == items[i].Value() && fresh(copies[i].Repr())
  {
    copies := [];
    ghost var pool: set<object> := {};
    while |copies| < |items|
      invariant fresh(pool) && Copied(items, copies, pool)
    {
      var copy := CopyEntry(items, copies, pool);
      copies, pool := copies + [copy], pool + copy.Repr();
    }
    AllCopied(items, copies, pool);
  }

  lemma AllCopied(items: seq<DeviceConfig>, copies: seq<DeviceConfig>, pool: set<object>)
    requires Copied(items, copies, pool) && |copies| == |items|
    ensures Entries(items) && Entries(copies) && Disjoint(copies)
    ensures forall i :: 0 <= i < |items| ==> copies[i].Value() == items[i].Value() && copies[i].Repr() <= pool
  {
    forall i | 0 <= i < |items|
      ensures copies[i].Valid() && copies[i].Value() == items[i].Value() && copies[i].Repr() <= pool
    {
      assert CopyAt(items, copies, i, pool);
    }
  }

  // ---------------------------------------------------------------- a value says everything

  /** Two objects have the same value exactly when they agree field by field, unset fields included. */
  lemma TagsSayAll(a: TagsObject, b: TagsObject)
    ensures a.Value() == b.Value() <==> a.SameAs(b)
  {
  }

  lemma SpecSaysAll(a: DeviceConfigSpec, b: DeviceConfigSpec)
    ensures a.Value() == b.Value() <==> a.SameAs(b)
  {
  }

  lemma ValueSaysAll(a: DeviceConfig, b: DeviceConfig)
    requires a.Valid() && b.Valid()
    ensures a.Value() == b.Value() <==>
            && a.SameMeta(b.ns, b.name, b.uid, b.terminating, b.available)
            && (a.finalizers == null <==> b.finalizers == null) && a.List() == b.List()
            && a.tags.SameAs(b.tags) && a.spec.SameAs(b.spec)
  {
    TagsSayAll(a.tags, b.tags);
    SpecSaysAll(a.spec, b.spec);
  }

  // ---------------------------------------------------------------- what the patch base relies on

  /** The local part of setFinalizer: the base of the patch is the DeviceConfig before the finalizer was
      added, although adding may write into the shared backing array. */
  method MarkLocally(d: DeviceConfig) returns (base: DeviceConfig)
    requires d.Valid()
    modifies d, d.finalizers
    ensures d.Valid() && base.Valid() && fresh(base.Repr())
    ensures base.Value() == old(d.Value()) && base.Stored() == old(d.Stored())
    ensures d.Stored() == base.Stored().(finalizers := F.Add(base.List()))
    ensures Key(d.ns, d.name) == old(Key(d.ns, d.name))
  {
    base := d.DeepCopy();
    d.AddFinalizer();
  }

  /** The same for the removal in finalizeDeviceConfig, which overwrites the array in place. */
  method UnmarkLocally(d: DeviceConfig) returns (base: DeviceConfig)
    requires d.Valid()
    modifies d, d.finalizers
    ensures d.Valid() && base.Valid() && fresh(base.Repr())
    ensures base.Value() == old(d.Value()) && base.Stored() == old(d.Stored())
    ensures d.Stored() == base.Stored().(finalizers := F.Remove(base.List()))
    ensures Key(d.ns, d.name) == old(Key(d.ns, d.name))
  {
    base := d.DeepCopy();
    d.RemoveFinalizer();
  }
}
