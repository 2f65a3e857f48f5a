/** The patches the operator sends are JSON merge patches. Here the objects are written out as JSON
    documents, and the server verbs of module Cluster, which work field by field, are shown to do what
    RFC 7396 says: a finalizer patch changes nothing but the finalizers, whatever the server holds. */
module Patching {
  import opened Json
  import opened Api
  import opened Cluster
  import Desired

  // ---------------------------------------------------------------- documents

  function StrDocs(ss: seq<string>): Json {
    Arr(seq(|ss|, i requires 0 <= i < |ss| => Str(ss[i])))
  }

  function OwnerDoc(o: OwnerRef): Json {
    Obj(map[Kind := if o.kind.DeviceConfigKind? then Fixed(DeviceConfigGroupKind) else Str(o.kind.gk),
            Name := Str(o.name), Uid := Num(o.uid), Controller := Bool(o.controller)])
  }

  function OwnerDocs(os: seq<OwnerRef>): Json {
    Arr(seq(|os|, i requires 0 <= i < |os| => OwnerDoc(os[i])))
  }

  /** A member that is left out when the list is empty. */
  function Listed(k: Member, doc: Json): Fields {
    if doc == Arr([]) then map[] else map[k := doc]
  }

  function Timestamp(terminating: bool): Fields {
    if terminating then map[DeletionTimestamp := Bool(true)] else map[]
  }

  function SpecDoc(spec: ConfigSpec): Fields {
    map[UseInTreeDrivers := Bool(spec.useInTreeDrivers), DriversImage := Str(spec.driversImage),
        DevicePluginImage := Str(spec.devicePluginImage), CustomSchedulerImage := Str(spec.customSchedulerImage),
        SchedulerExtensionImage := Str(spec.schedulerExtensionImage)]
    + (if spec.imageRepoSecret.Some? then map[ImageRepoSecret := Obj(map[Name := Str(spec.imageRepoSecret.value)])]
       else map[])
    + (if spec.selector.Some? then map[Selector := Obj(Strings(spec.selector.value))] else map[])
  }

  function Parts(metadata: Fields, spec: Fields): Json {
    Obj(map[Metadata := Obj(metadata), Spec := Obj(spec)])
  }

  function BareMeta(nn: Key, uid: nat, terminating: bool): (f: Fields)
    ensures Finalizers !in f
  {
    map[Namespace := Str(nn.ns), Name := Str(nn.name), Uid := Num(uid)] + Timestamp(terminating)
  }

  function ConfigMeta(nn: Key, c: Config): Fields {
    BareMeta(nn, c.uid, c.terminating) + Listed(Finalizers, StrDocs(c.finalizers))
  }

  function ConfigDoc(nn: Key, c: Config): Json {
    Parts(ConfigMeta(nn, c), SpecDoc(c.spec))
  }

  function BareChildMeta(o: Child): (f: Fields)
    ensures OwnerReferences !in f
  {
    Timestamp(o.terminating) + Listed(Finalizers, StrDocs(o.finalizers))
  }

  function ChildMeta(o: Child): Fields {
    BareChildMeta(o) + Listed(OwnerReferences, OwnerDocs(o.owners))
  }

  function ChildDoc(o: Child): Json {
    Parts(ChildMeta(o), o.spec)
  }

  // ---------------------------------------------------------------- one member

  /** f with the member k as in g: set, or absent. */
  function Take(f: Fields, k: Member, g: Fields): Fields {
    if k in g then f[k := g[k]] else f - {k}
  }

  lemma TouchedMember(server: Fields, a: Fields, b: Fields, k: Member)
    requires k in b ==> !b[k].Obj? && !b[k].Null? && (k in a ==> a[k] != b[k])
    requires k in a || k in b
    ensures var r := MergePatch(Obj(server), Obj(Diff(Obj(a), Obj(b)))).fields;
            (k in r <==> k in b) && (k in b ==> r[k] == b[k])
  {
    assert Touched(Obj(a), Obj(b), k);
    var d := Diff(Obj(a), Obj(b));
    assert k in d && d[k] == if k in b then b[k] else Null;
  }

  /** Documents that differ in the one member k, which is not an object: the patch carries that member
      over to whatever the server holds, and nothing else. */
  lemma PatchOneMember(server: Fields, a: Fields, b: Fields, k: Member)
    requires a - {k} == b - {k}
    requires k in b ==> !b[k].Obj? && !b[k].Null?
    ensures MergePatch(Obj(server), Obj(Diff(Obj(a), Obj(b)))) ==
            if a == b then Obj(server) else Obj(Take(server, k, b))
  {
    var r := MergePatch(Obj(server), Obj(Diff(Obj(a), Obj(b)))).fields;
    if a == b {
      EmptyDiffIffEqual(Obj(a), Obj(b));
      EmptyPatch(Obj(server));
    } else {
      DifferAt(a, b, k);
      TouchedMember(server, a, b, k);
      forall j | j != k ensures (j in r <==> j in server) && (j in r ==> r[j] == server[j]) {
        SameElsewhere(a, b, k, j);
        PatchKeepsUntouched(Obj(server), Obj(a), Obj(b), j);
      }
      TakenFrom(server, k, b, r);
    }
  }

  lemma TakenFrom(server: Fields, k: Member, g: Fields, r: Fields)
    requires forall j :: j != k ==> (j in r <==> j in server) && (j in r ==> r[j] == server[j])
    requires (k in r <==> k in g) && (k in g ==> r[k] == g[k])
    ensures r == Take(server, k, g)
  {
  }

  lemma SameElsewhere(a: Fields, b: Fields, k: Member, j: Member)
    requires a - {k} == b - {k} && (j != k || a == b)
    ensures (j in a <==> j in b) && (j in a ==> a[j] == b[j])
  {
    if j != k {
      assert j in a <==> j in a - {k};
      assert j in b <==> j in b - {k};
      if j in a { assert (a - {k})[j] == (b - {k})[j]; }
    }
  }

  lemma DifferAt(a: Fields, b: Fields, k: Member)
    requires a - {k} == b - {k} && a != b
    ensures k in a || k in b
    ensures k in a && k in b ==> a[k] != b[k]
  {
    if (k in a <==> k in b) && (k in a ==> a[k] == b[k]) {
      forall j ensures (j in a <==> j in b) && (j in a ==> a[j] == b[j]) {
        if j != k { SameElsewhere(a, b, k, j); }
      }
      assert false;
    }
  }

  /** An object member is patched by itself. */
  lemma PatchMember(server: Fields, a: Fields, b: Fields, k: Member)
    requires k in server && k in a && k in b && server[k].Obj? && a[k].Obj? && b[k].Obj?
    ensures var r := MergePatch(Obj(server), Obj(Diff(Obj(a), Obj(b)))).fields;
            k in r && r[k] == MergePatch(server[k], Obj(Diff(a[k], b[k])))
  {
    var d := Diff(Obj(a), Obj(b));
    if Diff(a[k], b[k]) == map[] {
      EmptyPatch(server[k]);
      assert !Touched(Obj(a), Obj(b), k);
    } else {
      assert Touched(Obj(a), Obj(b), k);
      assert d[k] == Obj(Diff(a[k], b[k]));
    }
  }

  lemma PartsEta(f: Fields)
    requires f.Keys == {Metadata, Spec} && f[Metadata].Obj? && f[Spec].Obj?
    ensures Obj(f) == Parts(f[Metadata].fields, f[Spec].fields)
  {
    assert f == Parts(f[Metadata].fields, f[Spec].fields).fields;
  }

  lemma PatchKeepsKeys(server: Fields, a: Fields, b: Fields)
    requires server.Keys == a.Keys == b.Keys
    requires forall k :: k in a.Keys ==> server[k].Obj? && a[k].Obj? && b[k].Obj?
    ensures MergePatch(Obj(server), Obj(Diff(Obj(a), Obj(b)))).fields.Keys == server.Keys
  {
    var r := MergePatch(Obj(server), Obj(Diff(Obj(a), Obj(b)))).fields;
    forall k ensures k in r <==> k in server {
      if k in a {
        PatchMember(server, a, b, k);
      } else {
        PatchKeepsUntouched(Obj(server), Obj(a), Obj(b), k);
      }
    }
  }

  lemma PatchTwoParts(s: Fields, a: Fields, b: Fields)
    requires s.Keys == a.Keys == b.Keys == {Metadata, Spec}
    requires forall k :: k in a.Keys ==> s[k].Obj? && a[k].Obj? && b[k].Obj?
    ensures MergePatch(Obj(s), Obj(Diff(Obj(a), Obj(b)))) ==
            Parts(MergePatch(s[Metadata], Obj(Diff(a[Metadata], b[Metadata]))).fields,
                  MergePatch(s[Spec], Obj(Diff(a[Spec], b[Spec]))).fields)
  {
    PatchMember(s, a, b, Metadata);
    PatchMember(s, a, b, Spec);
    PatchKeepsKeys(s, a, b);
    PartsEta(MergePatch(Obj(s), Obj(Diff(Obj(a), Obj(b)))).fields);
  }

  /** Documents with metadata and spec are patched part by part. */
  lemma PatchByPart(s: Json, sm: Fields, ss: Fields, a: Json, am: Fields, aspec: Fields,
                    b: Json, bm: Fields, bspec: Fields)
    requires s == Parts(sm, ss) && a == Parts(am, aspec) && b == Parts(bm, bspec)
    ensures MergePatch(s, Obj(Diff(a, b))) ==
            Parts(MergePatch(Obj(sm), Obj(Diff(Obj(am), Obj(bm)))).fields,
                  MergePatch(Obj(ss), Obj(Diff(Obj(aspec), Obj(bspec)))).fields)
  {
    PatchTwoParts(s.fields, a.fields, b.fields);
  }

  /** A list member is carried over when the client changed it. */
  lemma PatchListed(f: Fields, g: Fields, k: Member, z: Json, x: Json, y: Json)
    requires k !in f && k !in g && x.Arr? && y.Arr? && z.Arr?
    ensures MergePatch(Obj(f + Listed(k, z)), Obj(Diff(Obj(g + Listed(k, x)), Obj(g + Listed(k, y))))) ==
            Obj(f + Listed(k, if x == y then z else y))
  {
    ListedDiffers(g, k, x, y);
    ListedTaken(f, g, k, z, y);
    PatchOneMember(f + Listed(k, z), g + Listed(k, x), g + Listed(k, y), k);
  }

  lemma ListedDiffers(g: Fields, k: Member, x: Json, y: Json)
    requires k !in g && x.Arr? && y.Arr?
    ensures (g + Listed(k, x)) - {k} == (g + Listed(k, y)) - {k}
    ensures g + Listed(k, x) == g + Listed(k, y) <==> x == y
    ensures k in g + Listed(k, y) ==> (g + Listed(k, y))[k] == y
  {
    assert (g + Listed(k, x)) - {k} == g && (g + Listed(k, y)) - {k} == g;
    if x != y {
      assert (k in g + Listed(k, x) ==> (g + Listed(k, x))[k] == x) && (k in g + Listed(k, x) <==> x != Arr([]));
      assert (k in g + Listed(k, y) ==> (g + Listed(k, y))[k] == y) && (k in g + Listed(k, y) <==> y != Arr([]));
    }
  }

  lemma ListedTaken(f: Fields, g: Fields, k: Member, z: Json, y: Json)
    requires k !in f && k !in g && z.Arr? && y.Arr?
    ensures Take(f + Listed(k, z), k, g + Listed(k, y)) == f + Listed(k, y)
  {
    assert (f + Listed(k, z)) - {k} == f;
  }

  // ---------------------------------------------------------------- the operator's patches

  lemma StrDocsInjective(a: seq<string>, b: seq<string>)
    ensures StrDocs(a) == StrDocs(b) <==> a == b
  {
    if StrDocs(a) == StrDocs(b) {
      assert |a| == |StrDocs(a).elems| == |StrDocs(b).elems| == |b|;
      forall i | 0 <= i < |a| ensures a[i] == b[i] {
        assert StrDocs(a).elems[i] == Str(a[i]) && StrDocs(b).elems[i] == Str(b[i]);
      }
    }
  }

  lemma OwnerDocInjective(o: OwnerRef, p: OwnerRef)
    requires OwnerDoc(o) == OwnerDoc(p)
    ensures o == p
  {
    var f, g := OwnerDoc(o).fields, OwnerDoc(p).fields;
    assert f[Kind] == g[Kind] && f[Name] == g[Name] && f[Uid] == g[Uid] && f[Controller] == g[Controller];
  }

  lemma OwnerDocsInjective(a: seq<OwnerRef>, b: seq<OwnerRef>)
    ensures OwnerDocs(a) == OwnerDocs(b) <==> a == b
  {
    if OwnerDocs(a) == OwnerDocs(b) {
      assert |a| == |OwnerDocs(a).elems| == |OwnerDocs(b).elems| == |b|;
      forall i | 0 <= i < |a| ensures a[i] == b[i] {
        assert OwnerDocs(a).elems[i] == OwnerDoc(a[i]) && OwnerDocs(b).elems[i] == OwnerDoc(b[i]);
        OwnerDocInjective(a[i], b[i]);
      }
    }
  }

  /** Both finalizer patches, on the wire: applied to any version of the DeviceConfig that the server
      may hold by then, with another spec, uid or deletion timestamp, the patch replaces the finalizer
      list if the client changed it and touches nothing else. So a concurrent edit of the spec survives. */
  lemma FinalizerPatchIsMergePatch(nn: Key, server: Config, base: Config, fs: seq<string>)
    ensures MergePatch(ConfigDoc(nn, server), Obj(Diff(ConfigDoc(nn, base), ConfigDoc(nn, base.(finalizers := fs))))) ==
            ConfigDoc(nn, if base.finalizers == fs then server else server.(finalizers := fs))
  {
    var changed := base.(finalizers := fs);
    PatchByPart(ConfigDoc(nn, server), ConfigMeta(nn, server), SpecDoc(server.spec),
                ConfigDoc(nn, base), ConfigMeta(nn, base), SpecDoc(base.spec),
                ConfigDoc(nn, changed), ConfigMeta(nn, changed), SpecDoc(base.spec));
    EmptyDiffIffEqual(Obj(SpecDoc(base.spec)), Obj(SpecDoc(base.spec)));
    EmptyPatch(Obj(SpecDoc(server.spec)));
    StrDocsInjective(base.finalizers, fs);
    PatchListed(BareMeta(nn, server.uid, server.terminating), BareMeta(nn, base.uid, base.terminating), Finalizers,
                StrDocs(server.finalizers), StrDocs(base.finalizers), StrDocs(fs));
  }

  /** The patch of a child, on the wire: the metadata come out as PatchChild says, and so does the spec once
      the server has defaulted it. */
  lemma ChildPatchIsMergePatch(site: Site, r: Role, server: Child, base: Child, obj: Child)
    requires obj.finalizers == base.finalizers && obj.terminating == base.terminating
    ensures var merged := MergePatch(ChildDoc(server), Obj(Diff(ChildDoc(base), ChildDoc(obj))));
            var after := Patched(site, r, server, base, obj);
            exists spec :: merged == Parts(ChildMeta(after), spec) && after.spec == site.defaults(r, spec)
  {
    var after := Patched(site, r, server, base, obj);
    PatchByPart(ChildDoc(server), ChildMeta(server), server.spec, ChildDoc(base), ChildMeta(base), base.spec,
                ChildDoc(obj), ChildMeta(obj), obj.spec);
    OwnerDocsInjective(base.owners, obj.owners);
    PatchListed(BareChildMeta(server), BareChildMeta(base), OwnerReferences, OwnerDocs(server.owners),
                OwnerDocs(base.owners), OwnerDocs(obj.owners));
    assert BareChildMeta(obj) == BareChildMeta(base) && BareChildMeta(after) == BareChildMeta(server);
    var merged := MergePatch(Obj(server.spec), Obj(Diff(Obj(base.spec), Obj(obj.spec)))).fields;
    assert after.spec == site.defaults(r, merged);
  }

  /** The finalizer patch as the machine and the methods make it, for every version the server may hold and every
      copy it was computed from. A missing DeviceConfig is an error, and so is a new finalizer on one that is
      being deleted; one that is being deleted goes when the patch leaves no finalizer. Else the stored
      DeviceConfig is, as a document, the merge patch of the old one. Nothing else changes. */
  lemma FinalizerVerbIsMergePatch(cl: Cluster, nn: Key, base: Config, fs: seq<string>)
    ensures var reply := PatchFinalizers(cl, nn, base, fs);
            && (nn !in cl.configs ==> reply.None?)
            && (nn in cl.configs ==>
                  var server := cl.configs[nn];
                  var left := if base.finalizers == fs then server.finalizers else fs;
                  var patch := Obj(Diff(ConfigDoc(nn, base), ConfigDoc(nn, base.(finalizers := fs))));
                  && (reply.None? <==> server.terminating && exists f :: f in left && f !in server.finalizers)
                  && (reply.Some? ==>
                        && reply.value.children == cl.children
                        && reply.value.configs - {nn} == cl.configs - {nn}
                        && (nn !in reply.value.configs <==> server.terminating && left == [])
                        && (nn in reply.value.configs ==>
                              ConfigDoc(nn, reply.value.configs[nn]) == MergePatch(ConfigDoc(nn, server), patch))))
  {
    PatchFinalizersStores(cl, nn, base, fs);
    if nn in cl.configs {
      FinalizerPatchIsMergePatch(nn, cl.configs[nn], base, fs);
    }
  }

  lemma PatchFinalizersStores(cl: Cluster, nn: Key, base: Config, fs: seq<string>)
    ensures var reply := PatchFinalizers(cl, nn, base, fs);
            && (nn !in cl.configs ==> reply.None?)
            && (nn in cl.configs ==>
                  var server := cl.configs[nn];
                  var left := if base.finalizers == fs then server.finalizers else fs;
                  && (reply.None? <==> server.terminating && exists f :: f in left && f !in server.finalizers)
                  && (reply.Some? ==>
                        && reply.value.children == cl.children
                        && reply.value.configs - {nn} == cl.configs - {nn}
                        && (nn !in reply.value.configs <==> server.terminating && left == [])
                        && (nn in reply.value.configs ==>
                              reply.value.configs[nn] ==
                                if base.finalizers == fs then server else server.(finalizers := fs))))
  {
  }

  // ---------------------------------------------------------------- documents say everything

  /** Two DeviceConfigs with the same document are the same: nothing is lost on the wire. */
  lemma ConfigDocInjective(nn: Key, a: Config, b: Config)
    ensures ConfigDoc(nn, a) == ConfigDoc(nn, b) <==> a == b
  {
    if ConfigDoc(nn, a) == ConfigDoc(nn, b) {
      PartsInjective(ConfigMeta(nn, a), SpecDoc(a.spec), ConfigMeta(nn, b), SpecDoc(b.spec));
      MetaInjective(nn, a, b);
      SpecDocInjective(a.spec, b.spec);
    }
  }

  lemma PartsInjective(m: Fields, s: Fields, m': Fields, s': Fields)
    requires Parts(m, s) == Parts(m', s')
    ensures m == m' && s == s'
  {
    assert Parts(m, s).fields[Metadata] == Obj(m) && Parts(m', s').fields[Metadata] == Obj(m');
    assert Parts(m, s).fields[Spec] == Obj(s) && Parts(m', s').fields[Spec] == Obj(s');
  }

  lemma MetaInjective(nn: Key, a: Config, b: Config)
    requires ConfigMeta(nn, a) == ConfigMeta(nn, b)
    ensures a.uid == b.uid && a.terminating == b.terminating && a.finalizers == b.finalizers
  {
    var f, g := ConfigMeta(nn, a), ConfigMeta(nn, b);
    assert f[Uid] == Num(a.uid) && g[Uid] == Num(b.uid);
    assert DeletionTimestamp in f <==> a.terminating;
    assert DeletionTimestamp in g <==> b.terminating;
    ListedInjective(Finalizers, StrDocs(a.finalizers), f);
    ListedInjective(Finalizers, StrDocs(b.finalizers), g);
    StrDocsInjective(a.finalizers, b.finalizers);
  }

  /** A listed member can be read back. */
  lemma ListedInjective(k: Member, doc: Json, f: Fields)
    requires doc.Arr? && (k in f <==> k in Listed(k, doc)) && (k in f ==> f[k] == Listed(k, doc)[k])
    ensures doc == if k in f then f[k] else Arr([])
  {
  }

  lemma SpecDocInjective(a: ConfigSpec, b: ConfigSpec)
    requires SpecDoc(a) == SpecDoc(b)
    ensures a == b
  {
    var f, g := SpecDoc(a), SpecDoc(b);
    SpecDocMembers(a);
    SpecDocMembers(b);
    if a.selector.Some? && b.selector.Some? {
      Desired.StringsInjective(a.selector.value, b.selector.value);
    }
    if a.imageRepoSecret.Some? && b.imageRepoSecret.Some? {
      assert f[ImageRepoSecret].fields[Name] == g[ImageRepoSecret].fields[Name];
    }
  }

  lemma SpecDocMembers(a: ConfigSpec)
    ensures var f := SpecDoc(a);
            && {UseInTreeDrivers, DriversImage, DevicePluginImage, CustomSchedulerImage} <= f.Keys
            && SchedulerExtensionImage in f
            && f[UseInTreeDrivers] == Bool(a.useInTreeDrivers) && f[DriversImage] == Str(a.driversImage)
            && f[DevicePluginImage] == Str(a.devicePluginImage)
            && f[CustomSchedulerImage] == Str(a.customSchedulerImage)
            && f[SchedulerExtensionImage] == Str(a.schedulerExtensionImage)
            && (ImageRepoSecret in f <==> a.imageRepoSecret.Some?)
            && (a.imageRepoSecret.Some? ==> f[ImageRepoSecret] == Obj(map[Name := Str(a.imageRepoSecret.value)]))
            && (Selector in f <==> a.selector.Some?)
            && (a.selector.Some? ==> f[Selector] == Obj(Strings(a.selector.value)))
  {
  }

  lemma ChildDocInjective(a: Child, b: Child)
    ensures ChildDoc(a) == ChildDoc(b) <==> a == b
  {
    if ChildDoc(a) == ChildDoc(b) {
      PartsInjective(ChildMeta(a), a.spec, ChildMeta(b), b.spec);
      var f, g := ChildMeta(a), ChildMeta(b);
      assert DeletionTimestamp in f <==> a.terminating;
      assert DeletionTimestamp in g <==> b.terminating;
      ListedInjective(Finalizers, StrDocs(a.finalizers), f);
      ListedInjective(Finalizers, StrDocs(b.finalizers), g);
      ListedInjective(OwnerReferences, OwnerDocs(a.owners), f);
      ListedInjective(OwnerReferences, OwnerDocs(b.owners), g);
      StrDocsInjective(a.finalizers, b.finalizers);
      OwnerDocsInjective(a.owners, b.owners);
    }
  }
}
