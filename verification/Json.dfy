/** JSON documents and the merge patches of RFC 7396, the way the controller's client
    builds them (a patch is the difference of two documents) and the way the API server
    applies them (section 2 of RFC 7396). */
module Json {

  datatype Json =
    | Null
    | Bool(b: bool)
    | Num(n: int)
    | Str(s: string)
    | Fixed(part: Literal)
    | Arr(elems: seq<Json>)
    | Obj(fields: Fields)

  type Fields = map<Member, Json>

  /** Labels and selectors: the keys are member names of the object that holds them. */
  type LabelMap = map<Member, string>

  /** Member names: the API fields this model speaks of, and any other name. */
  datatype Member =
    | Metadata | Name | Namespace | Uid | Finalizers | DeletionTimestamp | OwnerReferences | Kind | Controller
    | Spec | ModuleLoader | DevicePlugin | ImageRepoSecret | Selector | Replicas | Strategy
    | Labels | Containers | NodeSelector | Image | Modprobe | KernelMappings | ContainerImage | ServiceAccountName
    | Regexp | InTreeModulesToRemove | UseInTreeDrivers | DriversImage | DevicePluginImage
    | CustomSchedulerImage | SchedulerExtensionImage
    | AppName | AppComponent | AppPartOf | AppInstance | AppRole | Tier
    | Named(name: string)

  /** Fragments that are the same for every DeviceConfig (probes, ports, mounts, arguments, labels,
      service accounts): constants that no merge patch looks into. */
  datatype Literal =
    | NeuronModule | AnyKernel | LoaderAccount | PluginAccount | PluginContainer
    | SchedulerLabels | SchedulerContainer | ExtensionLabels | ExtensionContainer | Recreate
    | MetricsLabels | MetricsContainer | MetricsAccount | SchedulerAccount | DeviceConfigGroupKind

  /** A label map as the fields of an object. */
  function Strings(m: LabelMap): Fields {
    map k | k in m :: Str(m[k])
  }

  /** The MergePatch procedure of section 2 of RFC 7396; an absent target member counts as Null. */
  function MergePatch(target: Json, patch: Json): Json
    decreases patch
  {
    if !patch.Obj? then patch
    else
      var t: Fields := if target.Obj? then target.fields else map[];
      Obj(map k | k in t.Keys + patch.fields.Keys && !(k in patch.fields && patch.fields[k].Null?) ::
            if k in patch.fields then MergePatch(if k in t then t[k] else Null, patch.fields[k]) else t[k])
  }

  /** The patch that the client computes from an old and a new document: changed and added
      members, nested where both sides are objects, and null for every removed member. */
  function Diff(a: Json, b: Json): (p: Fields)
    requires a.Obj? && b.Obj?
    decreases b
  {
    map k | k in a.fields.Keys + b.fields.Keys && Touched(a, b, k) ::
      if k !in b.fields then Null
      else if k in a.fields && a.fields[k].Obj? && b.fields[k].Obj? then Obj(Diff(a.fields[k], b.fields[k]))
      else b.fields[k]
  }

  /** The member named k goes into the patch. */
  predicate Touched(a: Json, b: Json, k: Member)
    requires a.Obj? && b.Obj?
    decreases b, 0
  {
    if k in a.fields && k in b.fields then
      if a.fields[k].Obj? && b.fields[k].Obj? then Diff(a.fields[k], b.fields[k]) != map[]
      else a.fields[k] != b.fields[k]
    else k in a.fields || k in b.fields
  }

  /** No object inside the document has a null member (arrays are opaque to a merge patch). */
  predicate NullFree(j: Json) {
    match j
    case Null => false
    case Obj(fields) => forall k | k in fields :: NullFree(fields[k])
    case _ => true
  }

  /** Every null in b is already there, at the same place, in a. */
  predicate PatchSafe(a: Json, b: Json)
    requires a.Obj? && b.Obj?
    decreases b
  {
    forall k | k in b.fields ::
      if k in a.fields && a.fields[k].Obj? && b.fields[k].Obj? then PatchSafe(a.fields[k], b.fields[k])
      else (k in a.fields && a.fields[k] == b.fields[k]) || NullFree(b.fields[k])
  }

  lemma {:induction false} EmptyDiffIffEqual(a: Json, b: Json)
    requires a.Obj? && b.Obj?
    ensures Diff(a, b) == map[] <==> a == b
    decreases b
  {
    forall k | k in a.fields && k in b.fields && a.fields[k].Obj? && b.fields[k].Obj?
      ensures Diff(a.fields[k], b.fields[k]) == map[] <==> a.fields[k] == b.fields[k]
    {
      EmptyDiffIffEqual(a.fields[k], b.fields[k]);
    }
    if Diff(a, b) == map[] {
      forall k | k in a.fields.Keys + b.fields.Keys
        ensures k in a.fields && k in b.fields && a.fields[k] == b.fields[k]
      {
        assert k !in Diff(a, b);
        assert !Touched(a, b, k);
      }
      assert a.fields == b.fields;
    }
  }

  /** A value put where there was no object comes out unchanged exactly when it has no null member. */
  lemma {:induction false} InsertIffNullFree(target: Json, j: Json)
    requires !target.Obj?
    ensures j.Null? || (MergePatch(target, j) == j <==> NullFree(j))
    decreases j
  {
    if j.Obj? {
      forall k | k in j.fields && !j.fields[k].Null?
        ensures MergePatch(Null, j.fields[k]) == j.fields[k] <==> NullFree(j.fields[k])
      {
        InsertIffNullFree(Null, j.fields[k]);
      }
      var r := MergePatch(target, j);
      if NullFree(j) {
        forall k | k in j.fields ensures k in r.fields && r.fields[k] == j.fields[k] {
          assert NullFree(j.fields[k]);
        }
        assert r.fields == j.fields;
      } else {
        var k :| k in j.fields && !NullFree(j.fields[k]);
        assert k !in r.fields || r.fields[k] != j.fields[k];
      }
    }
  }

  /** Patching the old document with the difference gives the new document exactly when
      the new document has no null that the old one lacks. */
  lemma {:induction false} PatchRoundTrip(a: Json, b: Json)
    requires a.Obj? && b.Obj?
    ensures MergePatch(a, Obj(Diff(a, b))) == b <==> PatchSafe(a, b)
    decreases b
  {
    var p := Diff(a, b);
    var r := MergePatch(a, Obj(p));
    forall k | k in b.fields
      ensures (k in r.fields && r.fields[k] == b.fields[k]) <==>
              (if k in a.fields && a.fields[k].Obj? && b.fields[k].Obj? then PatchSafe(a.fields[k], b.fields[k])
               else (k in a.fields && a.fields[k] == b.fields[k]) || NullFree(b.fields[k]))
    {
      if k in a.fields && a.fields[k].Obj? && b.fields[k].Obj? {
        PatchRoundTrip(a.fields[k], b.fields[k]);
        EmptyDiffIffEqual(a.fields[k], b.fields[k]);
        EmptyPatch(a.fields[k]);
        if Touched(a, b, k) {
          assert r.fields[k] == MergePatch(a.fields[k], Obj(Diff(a.fields[k], b.fields[k])));
        } else {
          assert k !in p && r.fields[k] == a.fields[k];
        }
      } else if k in a.fields && a.fields[k] == b.fields[k] {
        assert !Touched(a, b, k);
      } else {
        assert Touched(a, b, k) && p[k] == b.fields[k];
        if b.fields[k].Null? {
          assert k !in r.fields;
        } else if k in a.fields && a.fields[k].Obj? {
          assert !b.fields[k].Obj? && r.fields[k] == MergePatch(a.fields[k], p[k]);
        } else {
          InsertIffNullFree(if k in a.fields then a.fields[k] else Null, b.fields[k]);
        }
      }
    }
    forall k | k in r.fields ensures k in b.fields {
      if k in a.fields && k !in b.fields { assert Touched(a, b, k); }
    }
    assert r.fields == b.fields <==> forall k | k in b.fields :: k in r.fields && r.fields[k] == b.fields[k];
  }

  lemma EmptyPatch(a: Json)
    requires a.Obj?
    ensures MergePatch(a, Obj(map[])) == a
  {
    assert MergePatch(a, Obj(map[])).fields == a.fields;
  }

  /** Whatever the server holds, a member that the client did not change keeps the server's value. */
  lemma PatchKeepsUntouched(server: Json, a: Json, b: Json, k: Member)
    requires server.Obj? && a.Obj? && b.Obj?
    requires k in a.fields <==> k in b.fields
    requires k in a.fields ==> a.fields[k] == b.fields[k]
    ensures var r := MergePatch(server, Obj(Diff(a, b)));
            (k in r.fields <==> k in server.fields) && (k in server.fields ==> r.fields[k] == server.fields[k])
  {
    if k in a.fields && a.fields[k].Obj? {
      EmptyDiffIffEqual(a.fields[k], b.fields[k]);
    }
    assert k !in Diff(a, b);
  }

  lemma {:induction false} NullFreeIsSafe(a: Json, b: Json)
    requires a.Obj? && b.Obj? && NullFree(b)
    ensures PatchSafe(a, b)
    decreases b
  {
    forall k | k in b.fields && k in a.fields && a.fields[k].Obj? && b.fields[k].Obj?
      ensures PatchSafe(a.fields[k], b.fields[k])
    {
      assert NullFree(b.fields[k]);
      NullFreeIsSafe(a.fields[k], b.fields[k]);
    }
    assert forall k :: k in b.fields ==> NullFree(b.fields[k]);
  }

  lemma SameIsSafe(a: Json)
    requires a.Obj?
    ensures PatchSafe(a, a)
  {
    EmptyDiffIffEqual(a, a);
    EmptyPatch(a);
    PatchRoundTrip(a, a);
  }
}
