/** Distinct DeviceConfigs do not interfere: their children have different names (module Names), and a pass on
    one reads and writes nothing of another, so passes commute. */
module Separate {
  import opened Api
  import opened Cluster
  import opened Passes
  import Finalizers

  // ---------------------------------------------------------------- locality

  /** The same notifications were added on both sides. */
  predicate SameNews(a: Cluster, a': Cluster, b: Cluster, b': Cluster) {
    && a.events <= a'.events && b.events <= b'.events
    && a'.events + b.events == b'.events + a.events
  }

  lemma NewsAddUp(a: Cluster, a': Cluster, a'': Cluster, b: Cluster, b': Cluster, b'': Cluster)
    requires SameNews(a, a', b, b') && SameNews(a', a'', b', b'')
    ensures SameNews(a, a'', b, b'')
  {
    forall e ensures e in a''.events + b.events <==> e in b''.events + a.events {
      assert e in a'.events + b.events <==> e in b'.events + a.events;
      assert e in a''.events + b'.events <==> e in b''.events + a'.events;
    }
  }

  lemma WriteChildLocal(a: Cluster, b: Cluster, nn: Key, r: Role, o: Option<Child>)
    requires SameSlot(a, b, nn)
    ensures SameSlot(WriteChild(a, ChildKey(nn, r), o), WriteChild(b, ChildKey(nn, r), o), nn)
    ensures SameNews(a, WriteChild(a, ChildKey(nn, r), o), b, WriteChild(b, ChildKey(nn, r), o))
  {
    var a', b' := WriteChild(a, ChildKey(nn, r), o), WriteChild(b, ChildKey(nn, r), o);
    forall q: Role ensures ChildAt(a'.children, ChildKey(nn, q)) == ChildAt(b'.children, ChildKey(nn, q)) {
      SlotRead(a, b, nn, q);
    }
  }

  lemma UpdateConfigLocal(a: Cluster, b: Cluster, nn: Key, base: Config, fs: seq<string>)
    requires SameSlot(a, b, nn)
    ensures var p, q := PatchFinalizers(a, nn, base, fs), PatchFinalizers(b, nn, base, fs);
            && (p.Some? <==> q.Some?)
            && (p.Some? ==> SameSlot(p.value, q.value, nn) && SameNews(a, p.value, b, q.value))
  {
    var p, q := PatchFinalizers(a, nn, base, fs), PatchFinalizers(b, nn, base, fs);
    assert ConfigAt(a, nn) == ConfigAt(b, nn);
    if p.Some? && q.Some? {
      forall r: Role ensures ChildAt(p.value.children, ChildKey(nn, r)) == ChildAt(q.value.children, ChildKey(nn, r)) {
        SlotRead(a, b, nn, r);
      }
    }
  }

  lemma AttemptIsLocal(site: Site, a: Cluster, b: Cluster, nn: Key, phase: Phase)
    requires SameSlot(a, b, nn)
    ensures var p, q := Attempt(site, a, nn, phase), Attempt(site, b, nn, phase);
            && (p.Some? <==> q.Some?)
            && (p.Some? ==> SameSlot(p.value, q.value, nn) && SameNews(a, p.value, b, q.value))
  {
    match phase {
      case Mark(cfg) => UpdateConfigLocal(a, b, nn, cfg, Finalizers.Add(cfg.finalizers));
      case Unmark(cfg) => UpdateConfigLocal(a, b, nn, cfg, Finalizers.Remove(cfg.finalizers));
      case Make(_, r, obj) =>
        SlotRead(a, b, nn, r);
        WriteChildLocal(a, b, nn, r, Some(obj.(spec := site.defaults(r, obj.spec), terminating := false)));
      case Amend(_, r, base, obj) =>
        SlotRead(a, b, nn, r);
        if ChildKey(nn, r) in a.children {
          WriteChildLocal(a, b, nn, r, Some(Patched(site, r, a.children[ChildKey(nn, r)], base, obj)));
        }
      case DropMetrics(_) =>
        SlotRead(a, b, nn, Metrics);
        if ChildKey(nn, Metrics) in a.children {
          WriteChildLocal(a, b, nn, Metrics, Delete(a.children[ChildKey(nn, Metrics)]));
        }
      case DropModule(_) =>
        SlotRead(a, b, nn, Module);
        if ChildKey(nn, Module) in a.children {
          WriteChildLocal(a, b, nn, Module, Delete(a.children[ChildKey(nn, Module)]));
        }
      case _ =>
    }
  }

  lemma ReadIsLocal(site: Site, a: Cluster, b: Cluster, nn: Key, cfg: Config, r: Role)
    requires ChildKey(nn, r) in a.children <==> ChildKey(nn, r) in b.children
    requires ChildKey(nn, r) in a.children ==> a.children[ChildKey(nn, r)] == b.children[ChildKey(nn, r)]
    ensures WorkRead(site, a, nn, cfg, r).worker == WorkRead(site, b, nn, cfg, r).worker
  {
  }

  lemma LookIsLocal(site: Site, a: Cluster, b: Cluster, nn: Key, phase: Phase)
    requires SameSlot(a, b, nn) && !Writes(phase)
    ensures var p, q := WorkLook(site, a, nn, phase), WorkLook(site, b, nn, phase);
            p.worker == q.worker && SameSlot(p.cl, q.cl, nn) && SameNews(a, p.cl, b, q.cl)
  {
    match phase {
      case Fetch => assert ConfigAt(a, nn) == ConfigAt(b, nn);
      case Read(cfg, r) =>
        SlotRead(a, b, nn, r);
        ReadIsLocal(site, a, b, nn, cfg, r);
        ReadOutcomes(site, a, nn, cfg, r);
        ReadOutcomes(site, b, nn, cfg, r);
        Silent(a, WorkRead(site, a, nn, cfg, r).cl, b, WorkRead(site, b, nn, cfg, r).cl, nn);
      case ReadMetrics(_) => SlotRead(a, b, nn, Metrics);
      case ReadModule(_) => SlotRead(a, b, nn, Module);
    }
  }

  /** Notifications are not part of the objects. */
  lemma Silent(a: Cluster, a': Cluster, b: Cluster, b': Cluster, nn: Key)
    requires SameSlot(a, b, nn)
    requires a'.configs == a.configs && a'.children == a.children
    requires b'.configs == b.configs && b'.children == b.children
    ensures SameSlot(a', b', nn)
  {
    forall r: Role ensures ChildAt(a'.children, ChildKey(nn, r)) == ChildAt(b'.children, ChildKey(nn, r)) {
      SlotRead(a, b, nn, r);
    }
    assert ConfigAt(a, nn) == ConfigAt(b, nn);
  }

  /** An error notifies the key itself. */
  lemma EndIsLocal(a: Cluster, b: Cluster, nn: Key, failed: bool)
    requires SameSlot(a, b, nn)
    ensures var p, q := End(a, nn, failed), End(b, nn, failed);
            p.worker == q.worker && SameSlot(p.cl, q.cl, nn) && SameNews(a, p.cl, b, q.cl)
  {
    Silent(a, End(a, nn, failed).cl, b, End(b, nn, failed).cl, nn);
  }

  lemma FollowIsLocal(a: Cluster, b: Cluster, nn: Key, phase: Phase)
    requires SameSlot(a, b, nn) && Writes(phase)
    ensures var p, q := Follow(a, nn, phase), Follow(b, nn, phase);
            p.worker == q.worker && SameSlot(p.cl, q.cl, nn) && SameNews(a, p.cl, b, q.cl)
  {
    assert ConfigAt(a, nn) == ConfigAt(b, nn);
    EndIsLocal(a, b, nn, true);
    EndIsLocal(a, b, nn, false);
  }

  lemma WriteIsLocal(site: Site, a: Cluster, b: Cluster, nn: Key, phase: Phase, fault: Fault)
    requires SameSlot(a, b, nn) && Writes(phase)
    ensures var p, q := WorkWrite(site, a, nn, phase, fault), WorkWrite(site, b, nn, phase, fault);
            p.worker == q.worker && SameSlot(p.cl, q.cl, nn) && SameNews(a, p.cl, b, q.cl)
  {
    AttemptIsLocal(site, a, b, nn, phase);
    EndIsLocal(a, b, nn, true);
    var p, q := Attempt(site, a, nn, phase), Attempt(site, b, nn, phase);
    if p.Some? && q.Some? {
      FollowIsLocal(p.value, q.value, nn, phase);
      EndIsLocal(p.value, q.value, nn, true);
      NewsAddUp(a, p.value, Follow(p.value, nn, phase).cl, b, q.value, Follow(q.value, nn, phase).cl);
      NewsAddUp(a, p.value, End(p.value, nn, true).cl, b, q.value, End(q.value, nn, true).cl);
    }
  }

  /** A call depends on the objects of its own DeviceConfig only. */
  lemma CallIsLocal(site: Site, a: Cluster, b: Cluster, nn: Key, phase: Phase, fault: Fault)
    requires SameSlot(a, b, nn)
    ensures var p, q := Work(site, a, nn, phase, fault), Work(site, b, nn, phase, fault);
            p.worker == q.worker && SameSlot(p.cl, q.cl, nn) && SameNews(a, p.cl, b, q.cl)
  {
    if Writes(phase) {
      WriteIsLocal(site, a, b, nn, phase, fault);
    } else if fault.Fine? {
      LookIsLocal(site, a, b, nn, phase);
    } else {
      EndIsLocal(a, b, nn, true);
    }
  }

  lemma {:induction false} RunIsLocal(site: Site, a: Pass, b: Pass, nn: Key, faults: seq<Fault>)
    requires SameSlot(a.cl, b.cl, nn) && a.worker == b.worker && (a.worker.Busy? ==> a.worker.nn == nn)
    ensures var p, q := Run(site, a, faults), Run(site, b, faults);
            p.worker == q.worker && SameSlot(p.cl, q.cl, nn) && SameNews(a.cl, p.cl, b.cl, q.cl)
    decreases |faults|
  {
    if faults != [] && a.worker.Busy? {
      CallIsLocal(site, a.cl, b.cl, nn, a.worker.phase, faults[0]);
      WorkNames(site, a.cl, nn, a.worker.phase, faults[0]);
      var a', b' := Work(site, a.cl, nn, a.worker.phase, faults[0]), Work(site, b.cl, nn, b.worker.phase, faults[0]);
      RunIsLocal(site, a', b', nn, faults[1..]);
      NewsAddUp(a.cl, a'.cl, Run(site, a', faults[1..]).cl, b.cl, b'.cl, Run(site, b', faults[1..]).cl);
    }
  }

  lemma {:induction false} RunStaysHome(site: Site, p: Pass, nn: Key, faults: seq<Fault>, other: Key)
    requires (p.worker.Busy? ==> p.worker.nn == nn) && other != nn
    ensures SameSlot(p.cl, Run(site, p, faults).cl, other)
    decreases |faults|
  {
    if faults != [] && p.worker.Busy? {
      var p' := Work(site, p.cl, nn, p.worker.phase, faults[0]);
      WorkStaysHome(site, p.cl, nn, p.worker.phase, faults[0], other);
      RunStaysHome(site, p', nn, faults[1..], other);
      SlotTransitive(p.cl, p'.cl, Run(site, p', faults[1..]).cl, other);
    }
  }

  lemma SlotTransitive(a: Cluster, b: Cluster, c: Cluster, nn: Key)
    requires SameSlot(a, b, nn) && SameSlot(b, c, nn)
    ensures SameSlot(a, c, nn)
  {
    forall r: Role ensures ChildAt(a.children, ChildKey(nn, r)) == ChildAt(c.children, ChildKey(nn, r)) {
      SlotRead(a, b, nn, r);
      SlotRead(b, c, nn, r);
    }
  }

  /** Two clusters that agree on every DeviceConfig hold the same objects. */
  lemma SlotsMakeCluster(a: Cluster, b: Cluster)
    requires forall nn :: SameSlot(a, b, nn)
    ensures a.configs == b.configs && a.children == b.children
  {
    forall nn ensures nn in a.configs <==> nn in b.configs
              ensures nn in a.configs ==> a.configs[nn] == b.configs[nn]
    {
      assert SameSlot(a, b, nn);
    }
    forall k: ChildKey ensures k in a.children <==> k in b.children
                       ensures k in a.children ==> a.children[k] == b.children[k]
    {
      assert SameSlot(a, b, k.owner);
      SlotRead(a, b, k.owner, k.role);
    }
  }

  /** Passes of any kind on two DeviceConfigs, whatever calls fail in them and wherever they are cut off,
      can be exchanged: objects, pending notifications and both outcomes are the same in either order. */
  lemma PassesCommute(site: Site, cl: Cluster, nn: Key, mm: Key, f: seq<Fault>, g: seq<Fault>)
    requires nn != mm
    ensures var n1 := PassOn(site, cl, nn, f);
            var m1 := PassOn(site, n1.cl, mm, g);
            var m2 := PassOn(site, cl, mm, g);
            var n2 := PassOn(site, m2.cl, nn, f);
            n1.worker == n2.worker && m1.worker == m2.worker && m1.cl == n2.cl
  {
    var n1 := PassOn(site, cl, nn, f);
    var m1 := PassOn(site, n1.cl, mm, g);
    var m2 := PassOn(site, cl, mm, g);
    var n2 := PassOn(site, m2.cl, nn, f);
    RunStaysHome(site, Pass(cl, Busy(nn, Fetch)), nn, f, mm);
    RunStaysHome(site, Pass(cl, Busy(mm, Fetch)), mm, g, nn);
    RunIsLocal(site, Pass(cl, Busy(mm, Fetch)), Pass(n1.cl, Busy(mm, Fetch)), mm, g);
    RunIsLocal(site, Pass(cl, Busy(nn, Fetch)), Pass(m2.cl, Busy(nn, Fetch)), nn, f);
    forall k ensures SameSlot(m1.cl, n2.cl, k) {
      if k == nn {
        RunStaysHome(site, Pass(n1.cl, Busy(mm, Fetch)), mm, g, nn);
        Flip(n1.cl, m1.cl, nn);
        SlotTransitive(m1.cl, n1.cl, n2.cl, nn);
      } else if k == mm {
        RunStaysHome(site, Pass(m2.cl, Busy(nn, Fetch)), nn, f, mm);
        Flip(m2.cl, m1.cl, mm);
        SlotTransitive(m1.cl, m2.cl, n2.cl, mm);
      } else {
        RunStaysHome(site, Pass(cl, Busy(nn, Fetch)), nn, f, k);
        RunStaysHome(site, Pass(n1.cl, Busy(mm, Fetch)), mm, g, k);
        RunStaysHome(site, Pass(cl, Busy(mm, Fetch)), mm, g, k);
        RunStaysHome(site, Pass(m2.cl, Busy(nn, Fetch)), nn, f, k);
        SlotTransitive(cl, n1.cl, m1.cl, k);
        SlotTransitive(cl, m2.cl, n2.cl, k);
        Flip(cl, m1.cl, k);
        SlotTransitive(m1.cl, cl, n2.cl, k);
      }
    }
    SlotsMakeCluster(m1.cl, n2.cl);
    assert m1.cl.events == n1.cl.events + m2.cl.events == n2.cl.events;
  }

  lemma Flip(a: Cluster, b: Cluster, nn: Key)
    requires SameSlot(a, b, nn)
    ensures SameSlot(b, a, nn)
  {
    forall r: Role ensures ChildAt(b.children, ChildKey(nn, r)) == ChildAt(a.children, ChildKey(nn, r)) {
      SlotRead(a, b, nn, r);
    }
  }
}
