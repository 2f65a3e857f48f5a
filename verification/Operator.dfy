/** The operator with its own setters, on a server with any defaulting: when setting and defaulting come
    to rest, when they do not, and what a child that has come to rest looks like. */
module Operator {
  import opened Json
  import opened Api
  import opened Owners
  import opened Cluster
  import opened Desired
  import opened Passes
  import opened System
  import Finalizers
  import Wakeup

  function SiteOf(defaults: Defaulting, ready: Key -> Member): Site {
    Site(defaults, (nn: Key, spec: ConfigSpec, r: Role, f: Fields) => Desire(ready, nn, spec, r, f))
  }

  /** No setter introduces a null, so every patch stores what the setter left. */
  lemma PatchesStoreDesired(defaults: Defaulting, ready: Key -> Member)
    ensures StoresDesired(SiteOf(defaults, ready))
  {
    var site := SiteOf(defaults, ready);
    forall nn, spec, r, f
      ensures var want := site.desire(nn, spec, r, f); MergePatch(Obj(f), Obj(Diff(Obj(f), Obj(want)))) == Obj(want)
    {
      PatchStoresDesired(ready, nn, spec, r, f);
    }
  }

  /** Defaulting of a Module does not carry anything between the fields that the setters manage and the
      fields that they do not. */
  ghost predicate Separable(d: Defaulting) {
    && (forall f, g :: Agree(f, g, MANAGED) ==> Agree(d(Module, f), d(Module, g), MANAGED))
    && (forall f, g :: AgreeOutside(f, g, MANAGED) ==> AgreeOutside(d(Module, f), d(Module, g), MANAGED))
  }

  /** The setter of this role writes the managed fields, always the same way, and keeps the others. */
  ghost predicate Overwrites(site: Site, nn: Key, spec: ConfigSpec, part: Fields) {
    part.Keys <= MANAGED && forall f :: site.desire(nn, spec, Module, f) == Overwrite(f, MANAGED, part)
  }

  lemma ModuleSetterOverwrites(defaults: Defaulting, ready: Key -> Member, nn: Key, spec: ConfigSpec)
    returns (part: Fields)
    ensures Overwrites(SiteOf(defaults, ready), nn, spec, part)
    ensures DevicePlugin in part && part[DevicePlugin].Obj?
  {
    part := JoinParts(LoaderPart(spec), PluginPart(spec));
    OverwriteEverywhere(spec, part);
    DesireOverwrites(defaults, ready, nn, spec, part);
  }

  lemma OverwriteEverywhere(spec: ConfigSpec, part: Fields)
    requires part == LoaderPart(spec) + PluginPart(spec)
    ensures forall f :: SetPlugin(spec, SetLoader(spec, f)) == Overwrite(f, MANAGED, part)
  {
    forall f ensures SetPlugin(spec, SetLoader(spec, f)) == Overwrite(f, MANAGED, part) {
      ModuleSettersCommute(spec, f);
    }
  }

  lemma DesireOverwrites(defaults: Defaulting, ready: Key -> Member, nn: Key, spec: ConfigSpec, part: Fields)
    requires part.Keys <= MANAGED
    requires forall f :: SetPlugin(spec, SetLoader(spec, f)) == Overwrite(f, MANAGED, part)
    ensures Overwrites(SiteOf(defaults, ready), nn, spec, part)
  {
  }

  lemma JoinParts(loader: Fields, plugin: Fields) returns (part: Fields)
    requires loader.Keys <= LOADER_FIELDS && plugin.Keys <= PLUGIN_FIELDS
    requires DevicePlugin in plugin && plugin[DevicePlugin].Obj?
    ensures part == loader + plugin && part.Keys <= MANAGED
    ensures DevicePlugin in part && part[DevicePlugin].Obj?
  {
    part := loader + plugin;
  }

  /** The three workload setters overwrite the whole spec, so they settle under any idempotent defaulting;
      the Module setter does if defaulting is separable. */
  lemma SettersSettle(defaults: Defaulting, ready: Key -> Member, nn: Key, spec: ConfigSpec, r: Role, f: Fields)
    requires Idempotent(defaults) && (r == Module ==> Separable(defaults))
    ensures Settles(SiteOf(defaults, ready), nn, spec, r, f)
  {
    if r == Module {
      var part := ModuleSetterOverwrites(defaults, ready, nn, spec);
      OverwriteSettles(SiteOf(defaults, ready), nn, spec, f, part);
    }
  }

  lemma OverwriteSettles(site: Site, nn: Key, spec: ConfigSpec, f: Fields, part: Fields)
    requires Idempotent(site.defaults) && Separable(site.defaults) && Overwrites(site, nn, spec, part)
    ensures Settles(site, nn, spec, Module, f)
  {
    var first := Overwrite(f, MANAGED, part);
    var once := site.defaults(Module, first);
    var second := Overwrite(once, MANAGED, part);
    OverwriteLaws(once, f, MANAGED, part);
    assert Agree(second, first, MANAGED) && AgreeOutside(once, second, MANAGED);
    assert Agree(site.defaults(Module, second), once, MANAGED);
    assert AgreeOutside(site.defaults(Module, once), site.defaults(Module, second), MANAGED);
    AgreeEverywhere(site.defaults(Module, second), once);
  }

  lemma AgreeEverywhere(f: Fields, g: Fields)
    requires Agree(f, g, MANAGED) && AgreeOutside(g, f, MANAGED)
    ensures f == g
  {
    forall k | k in f || k in g ensures k in f && k in g && f[k] == g[k] {
      if k !in MANAGED {
        assert k in g.Keys + f.Keys - MANAGED;
      }
    }
  }

  // ---------------------------------------------------------------- defaulting that does not come to rest

  const GENERATION := Named("generation")

  /** Stamps a device plugin that is not stamped yet, and counts the stamps in a field of its own. */
  function Restless(r: Role, f: Fields): Fields {
    if r != Module || DevicePlugin !in f || f[DevicePlugin].Arr? then f
    else f[DevicePlugin := Arr([f[DevicePlugin]])][GENERATION := Num(Count(f) + 1)]
  }

  function Count(f: Fields): int {
    if GENERATION in f && f[GENERATION].Num? then f[GENERATION].n else 0
  }

  /** Idempotent defaulting is not enough: under Restless, no Module spec ever settles, so that every pass
      that succeeds changes the Module, whose change starts the next pass. */
  lemma IdempotentIsNotEnough(ready: Key -> Member, nn: Key, spec: ConfigSpec, f: Fields)
    ensures Idempotent(Restless)
    ensures !Settles(SiteOf(Restless, ready), nn, spec, Module, f)
  {
    RestlessIsIdempotent();
    var part := ModuleSetterOverwrites(Restless, ready, nn, spec);
    StampedAgain(SiteOf(Restless, ready), nn, spec, f, part);
  }

  lemma RestlessIsIdempotent()
    ensures Idempotent(Restless)
  {
    forall r, f ensures Restless(r, Restless(r, f)) == Restless(r, f) {
    }
  }

  lemma StampedAgain(site: Site, nn: Key, spec: ConfigSpec, f: Fields, part: Fields)
    requires site.defaults == Restless && Overwrites(site, nn, spec, part)
    requires DevicePlugin in part && part[DevicePlugin].Obj?
    ensures !Settles(site, nn, spec, Module, f)
  {
    var once := Restless(Module, Overwrite(f, MANAGED, part));
    OverwriteKeepsCount(f, part);
    OverwriteKeepsCount(once, part);
    assert Count(Restless(Module, Overwrite(once, MANAGED, part))) == Count(once) + 1;
  }

  lemma OverwriteKeepsCount(f: Fields, part: Fields)
    requires part.Keys <= MANAGED
    ensures Count(Overwrite(f, MANAGED, part)) == Count(f)
  {
    assert GENERATION !in MANAGED;
  }

  /** Under Restless a live DeviceConfig never comes to rest, whatever happens: something of it is always
      pending or in flight. */
  lemma RestlessNeverRests(ready: Key -> Member, run: seq<Action>, nn: Key)
    ensures var s := Exec(SiteOf(Restless, ready), INIT, run);
            nn in s.cl.configs && !s.cl.configs[nn].terminating ==> !Still(s, nn)
  {
    var site := SiteOf(Restless, ready);
    var s := Exec(site, INIT, run);
    RestlessIsIdempotent();
    PatchesStoreDesired(Restless, ready);
    Wakeup.StillConverged(site, run, nn);
    if Still(s, nn) && nn in s.cl.configs && !s.cl.configs[nn].terminating {
      assert Wakeup.Converged(site, s.cl, nn, s.cl.configs[nn], Module);
      IdempotentIsNotEnough(ready, nn, s.cl.configs[nn].spec, s.cl.children[ChildKey(nn, Module)].spec);
    }
  }

  // ---------------------------------------------------------------- what convergence means

  /** The child carries the DeviceConfig's settings: a workload is exactly the defaulted desired spec; a
      Module has, in the managed fields, exactly what defaulting makes of the setters' part. */
  predicate AsDesired(defaults: Defaulting, ready: Key -> Member, nn: Key, spec: ConfigSpec, r: Role, have: Fields) {
    match r
    case Module => Agree(have, defaults(Module, LoaderPart(spec) + PluginPart(spec)), MANAGED)
    case Scheduler => have == defaults(r, SchedulerSpec(spec))
    case Extension => have == defaults(r, ExtensionSpec(spec))
    case Metrics => have == defaults(r, MetricsSpec(ready, nn))
  }

  /** The DeviceConfig controls the child, which carries its present settings. */
  predicate HasDesired(defaults: Defaulting, ready: Key -> Member, cl: Cluster, nn: Key, r: Role) {
    var k := ChildKey(nn, r);
    && nn in cl.configs && k in cl.children
    && ControllerOf(cl.children[k].owners) == Some(Ref(nn.name, cl.configs[nn].uid))
    && AsDesired(defaults, ready, nn, cl.configs[nn].spec, r, cl.children[k].spec)
  }

  lemma ConvergedIsDesired(defaults: Defaulting, ready: Key -> Member, cl: Cluster, nn: Key, cfg: Config, r: Role)
    requires Wakeup.Converged(SiteOf(defaults, ready), cl, nn, cfg, r)
    requires r == Module ==> Separable(defaults)
    ensures AsDesired(defaults, ready, nn, cfg.spec, r, cl.children[ChildKey(nn, r)].spec)
  {
    if r == Module {
      var have := cl.children[ChildKey(nn, r)].spec;
      var part := LoaderPart(cfg.spec) + PluginPart(cfg.spec);
      ModuleSettersCommute(cfg.spec, have);
      assert Agree(Overwrite(have, MANAGED, part), part, MANAGED);
    }
  }

  /** In every reachable state, a live DeviceConfig of which nothing is pending or in flight carries the finalizer, and
      its four children exist, name it as their controller, and carry its present settings. */
  lemma RestIsDesired(defaults: Defaulting, ready: Key -> Member, run: seq<Action>, nn: Key)
    requires Idempotent(defaults) && Separable(defaults)
    ensures var s := Exec(SiteOf(defaults, ready), INIT, run);
            Still(s, nn) && nn in s.cl.configs && !s.cl.configs[nn].terminating ==>
              var cfg := s.cl.configs[nn];
              && Finalizers.Marked(cfg.finalizers)
              && forall r: Role :: HasDesired(defaults, ready, s.cl, nn, r)
  {
    var site := SiteOf(defaults, ready);
    var s := Exec(site, INIT, run);
    PatchesStoreDesired(defaults, ready);
    Wakeup.StillConverged(site, run, nn);
    if Still(s, nn) && nn in s.cl.configs && !s.cl.configs[nn].terminating {
      forall r: Role ensures HasDesired(defaults, ready, s.cl, nn, r) {
        assert Wakeup.Converged(site, s.cl, nn, s.cl.configs[nn], r);
        ConvergedIsDesired(defaults, ready, s.cl, nn, s.cl.configs[nn], r);
      }
    }
  }
}
