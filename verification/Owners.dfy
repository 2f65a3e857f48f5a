/** Owner references: the controller of an object, and SetControllerReference from
    controller-runtime as the four setters call it. */
module Owners {
  import opened Api

  function Ref(name: string, uid: nat): OwnerRef {
    OwnerRef(DeviceConfigKind, name, uid, true)
  }

  /** The first reference marked as controller. */
  function ControllerOf(owners: seq<OwnerRef>): (c: Option<OwnerRef>)
    ensures c.Some? ==> c.value in owners && c.value.controller
    ensures c.None? <==> forall o :: o in owners ==> !o.controller
  {
    if owners == [] then None
    else if owners[0].controller then Some(owners[0])
    else ControllerOf(owners[1..])
  }

  /** Same group, kind and name: the uid is not compared. */
  predicate SameObject(a: OwnerRef, b: OwnerRef) {
    a.kind == b.kind && a.name == b.name
  }

  /** The object is controlled by something other than the DeviceConfig called name. */
  predicate Foreign(owners: seq<OwnerRef>, name: string) {
    var c := ControllerOf(owners);
    c.Some? && !SameObject(c.value, Ref(name, 0))
  }

  /** The object's controller is the DeviceConfig called name: its events wake that DeviceConfig. */
  predicate Controls(owners: seq<OwnerRef>, name: string) {
    var c := ControllerOf(owners);
    c.Some? && SameObject(c.value, Ref(name, 0))
  }

  /** Replace the first reference to the same object, or append. */
  function Upsert(owners: seq<OwnerRef>, ref: OwnerRef): (r: seq<OwnerRef>)
    ensures ref in r
  {
    if owners == [] then [ref]
    else if SameObject(owners[0], ref) then [ref] + owners[1..]
    else [owners[0]] + Upsert(owners[1..], ref)
  }

  /** SetControllerReference: None when the object already has another controller. */
  function SetController(owners: seq<OwnerRef>, name: string, uid: nat): Option<seq<OwnerRef>> {
    if Foreign(owners, name) then None else Some(Upsert(owners, Ref(name, uid)))
  }

  /** The API server admits at most one controller reference per object. */
  predicate Valid(owners: seq<OwnerRef>) {
    forall i, j :: 0 <= i < j < |owners| ==> !(owners[i].controller && owners[j].controller)
  }

  lemma {:induction false} UpsertKeepsOthers(owners: seq<OwnerRef>, ref: OwnerRef)
    ensures forall o :: o in owners && !SameObject(o, ref) ==> o in Upsert(owners, ref)
    ensures forall o :: o in Upsert(owners, ref) ==> o == ref || o in owners
    ensures |owners| <= |Upsert(owners, ref)| <= |owners| + 1
    ensures forall i :: 0 <= i < |owners| && !SameObject(owners[i], ref) ==> Upsert(owners, ref)[i] == owners[i]
  {
    if owners != [] && !SameObject(owners[0], ref) {
      UpsertKeepsOthers(owners[1..], ref);
      var r := Upsert(owners, ref);
      forall i | 0 <= i < |owners| && !SameObject(owners[i], ref) ensures r[i] == owners[i] {
        if i > 0 { assert owners[i] == owners[1..][i - 1]; }
      }
      forall o | o in r ensures o == ref || o in owners {
        assert o == owners[0] || o in r[1..];
      }
    }
  }

  lemma {:induction false} UpsertIdempotent(owners: seq<OwnerRef>, ref: OwnerRef)
    ensures Upsert(Upsert(owners, ref), ref) == Upsert(owners, ref)
  {
    if owners != [] && !SameObject(owners[0], ref) {
      UpsertIdempotent(owners[1..], ref);
      assert Upsert(owners, ref)[1..] == Upsert(owners[1..], ref);
    }
  }

  /** Exactly one controller reference in the list, and it is ref. */
  ghost predicate SoleController(owners: seq<OwnerRef>, ref: OwnerRef) {
    exists i :: 0 <= i < |owners| && owners[i] == ref && ref.controller &&
                forall j :: 0 <= j < |owners| && j != i ==> !owners[j].controller
  }

  lemma {:induction false} SoleControllerIsController(owners: seq<OwnerRef>, ref: OwnerRef)
    requires SoleController(owners, ref)
    ensures Valid(owners) && ControllerOf(owners) == Some(ref)
  {
    var i :| 0 <= i < |owners| && owners[i] == ref && ref.controller &&
             forall j :: 0 <= j < |owners| && j != i ==> !owners[j].controller;
    if i > 0 {
      var t := owners[1..];
      assert t[i - 1] == ref;
      assert forall j :: 0 <= j < |t| && j != i - 1 ==> t[j] == owners[j + 1];
      SoleControllerIsController(t, ref);
    }
  }

  /** The first reference to the DeviceConfig is a plain one and a later one is the controller. */
  ghost predicate Shadowed(owners: seq<OwnerRef>, name: string) {
    exists i, j :: 0 <= i < j < |owners| && SameObject(owners[i], Ref(name, 0)) && !owners[i].controller
                   && owners[j].controller
  }

  /** It happens: the server admits a plain reference left by an earlier incarnation before a controlling one,
      SetControllerReference succeeds on the list, and the server rejects what it makes of it. */
  lemma ShadowedExample(name: string, uid: nat, earlier: nat)
    ensures var owners := [OwnerRef(DeviceConfigKind, name, earlier, false), Ref(name, uid)];
            && Valid(owners) && Shadowed(owners, name)
            && SetController(owners, name, uid).Some? && !Valid(SetController(owners, name, uid).value)
  {
    var owners := [OwnerRef(DeviceConfigKind, name, earlier, false), Ref(name, uid)];
    assert SameObject(owners[0], Ref(name, 0)) && !owners[0].controller && owners[1].controller;
    var after := Upsert(owners, Ref(name, uid));
    assert after[0].controller && after[1].controller;
  }

  /** On a list the API server admits, setting the controller reports an error exactly when someone
      else controls the object. Otherwise every other owner is kept and doing it again changes
      nothing; the DeviceConfig becomes the only controller, and the API server admits the new
      list, exactly when the list does not hold a plain reference to it before the controller one. */
  lemma SetControllerSound(owners: seq<OwnerRef>, name: string, uid: nat)
    requires Valid(owners)
    ensures SetController(owners, name, uid).None? <==> Foreign(owners, name)
    ensures !Foreign(owners, name) ==>
              (var r := SetController(owners, name, uid).value;
               && (forall o :: o in owners && !SameObject(o, Ref(name, uid)) ==> o in r)
               && SetController(r, name, uid) == Some(r)
               && ControllerOf(r) == Some(Ref(name, uid))
               && (Valid(r) <==> !Shadowed(owners, name))
               && (Valid(r) ==> SoleController(r, Ref(name, uid))))
  {
    if !Foreign(owners, name) {
      var ref := Ref(name, uid);
      UpsertKeepsOthers(owners, ref);
      UpsertControls(owners, name, uid);
      SetControllerAgain(owners, name, uid);
      if Shadowed(owners, name) {
        UpsertShadowed(owners, ref);
      } else {
        UpsertSole(owners, ref);
        SoleControllerIsController(Upsert(owners, ref), ref);
      }
    }
  }

  lemma {:induction false} UpsertControls(owners: seq<OwnerRef>, name: string, uid: nat)
    requires !Foreign(owners, name)
    ensures ControllerOf(Upsert(owners, Ref(name, uid))) == Some(Ref(name, uid))
  {
    var ref := Ref(name, uid);
    var r := Upsert(owners, ref);
    if owners != [] && !SameObject(owners[0], ref) {
      assert !owners[0].controller;
      UpsertControls(owners[1..], name, uid);
      assert r[1..] == Upsert(owners[1..], ref);
    }
  }

  /** Setting the controller a second time changes nothing. */
  lemma SetControllerAgain(owners: seq<OwnerRef>, name: string, uid: nat)
    requires !Foreign(owners, name)
    ensures var r := SetController(owners, name, uid).value; SetController(r, name, uid) == Some(r)
  {
    UpsertControls(owners, name, uid);
    UpsertIdempotent(owners, Ref(name, uid));
  }

  lemma {:induction false} UpsertSole(owners: seq<OwnerRef>, ref: OwnerRef)
    requires Valid(owners) && ref == Ref(ref.name, ref.uid)
    requires !Foreign(owners, ref.name) && !Shadowed(owners, ref.name)
    ensures SoleController(Upsert(owners, ref), ref)
  {
    var r := Upsert(owners, ref);
    if owners == [] {
      assert r[0] == ref;
    } else if SameObject(owners[0], ref) {
      assert r[0] == ref;
      assert forall j :: 0 < j < |r| ==> r[j] == owners[j];
    } else {
      var t := owners[1..];
      assert forall i :: 0 <= i < |t| ==> t[i] == owners[i + 1];
      assert !owners[0].controller;
      UpsertSole(t, ref);
      var i :| 0 <= i < |Upsert(t, ref)| && Upsert(t, ref)[i] == ref &&
               forall j :: 0 <= j < |Upsert(t, ref)| && j != i ==> !Upsert(t, ref)[j].controller;
      assert r[i + 1] == ref;
      assert forall j :: 0 < j < |r| ==> r[j] == Upsert(t, ref)[j - 1];
    }
  }

  lemma {:induction false} UpsertShadowed(owners: seq<OwnerRef>, ref: OwnerRef)
    requires Valid(owners) && ref == Ref(ref.name, ref.uid) && Shadowed(owners, ref.name)
    ensures !Valid(Upsert(owners, ref))
  {
    var i, j :| 0 <= i < j < |owners| && SameObject(owners[i], Ref(ref.name, 0)) && !owners[i].controller
                && owners[j].controller;
    var r := Upsert(owners, ref);
    var p := UpsertPlace(owners, ref, i);
    assert r[p].controller && r[j].controller;
  }

  lemma {:induction false} UpsertPlace(owners: seq<OwnerRef>, ref: OwnerRef, i: nat) returns (p: nat)
    requires i < |owners| && SameObject(owners[i], ref)
    ensures p <= i && Upsert(owners, ref) == owners[p := ref]
  {
    if SameObject(owners[0], ref) {
      p := 0;
    } else {
      var q := UpsertPlace(owners[1..], ref, i - 1);
      p := q + 1;
    }
  }
}
