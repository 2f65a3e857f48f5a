/** The operator's finalizer in a DeviceConfig's finalizer list: ContainsFinalizer, AddFinalizer
    and RemoveFinalizer as pure functions on lists, and their laws. */
module Finalizers {

  const FINALIZER := "awslabs.node.kubernetes.io/deviceconfig-finalizer"

  predicate Marked(fs: seq<string>) {
    FINALIZER in fs
  }

  function Add(fs: seq<string>): (r: seq<string>)
    ensures Marked(r)
  {
    if Marked(fs) then fs else fs + [FINALIZER]
  }

  function Remove(fs: seq<string>): seq<string> {
    Without(fs, FINALIZER)
  }

  function Without(fs: seq<string>, x: string): (r: seq<string>)
    ensures x !in r
    ensures forall y :: y in r <==> y in fs && y != x
  {
    if fs == [] then []
    else if fs[0] == x then Without(fs[1..], x)
    else [fs[0]] + Without(fs[1..], x)
  }

  /** Removal works entry by entry and keeps the order of everything else. */
  lemma {:induction false} WithoutAppend(a: seq<string>, b: seq<string>, x: string)
    ensures Without(a + b, x) == Without(a, x) + Without(b, x)
  {
    if a == [] {
      assert a + b == b;
    } else {
      assert (a + b)[1..] == a[1..] + b;
      WithoutAppend(a[1..], b, x);
    }
  }

  lemma {:induction false} WithoutAbsent(fs: seq<string>, x: string)
    ensures Without(fs, x) == fs <==> x !in fs
  {
    if fs != [] && fs[0] != x {
      WithoutAbsent(fs[1..], x);
      assert fs == [fs[0]] + fs[1..];
    }
  }

  /** Setting the finalizer keeps every entry in its place, and a second time changes nothing. */
  lemma AddKeepsPlaces(fs: seq<string>)
    ensures fs <= Add(fs) && |Add(fs)| <= |fs| + 1
    ensures forall f :: f in Add(fs) <==> f in fs || f == "awslabs.node.kubernetes.io/deviceconfig-finalizer"
    ensures Add(Add(fs)) == Add(fs)
  {
  }

  /** Removing the finalizer after setting it restores exactly the lists that did not have it. */
  lemma RemoveUndoesAdd(fs: seq<string>)
    ensures Remove(Add(fs)) == fs <==> !Marked(fs)
  {
    WithoutAbsent(fs, FINALIZER);
    WithoutAppend(fs, [FINALIZER], FINALIZER);
    assert Without([FINALIZER], FINALIZER) == [];
  }
}
