/**
 * The registration pipeline of the definitions library: `AddDefinitions`
 * registers its own services, builds the layered configuration, creates the
 * load context, then walks the configured paths that exist, loads each
 * assembly and registers the definition modules it declares.
 *
 * `RegisterModules` configures each module into the shared service list,
 * applies the conflict rule against a process-wide tracking table that is
 * only ever added to, and invokes the module-loaded callback.
 *
 * Reflection is replaced by inputs: an assembly's module types are looked up
 * in a catalog, a directory's `*.dll` listing is a sequence, and what a
 * module's configure call does is part of the module's description.
 */
module Registration {
  import opened Wrappers
  import opened Text
  import opened Loader
  import opened Options
  import opened MemoryConfig

  datatype Lifetime = Singleton | Scoped | Transient

  /**
   * A service registration. `id` stands for the descriptor object's
   * identity: `List.Remove` compares references, and two descriptors
   * with equal fields but different ids are different objects.
   */
  datatype ServiceDescriptor = ServiceDescriptor(
    id: nat, serviceType: string, lifetime: Lifetime,
    implementationType: Option<string>, hasFactory: bool)

  /** What a module's `ConfigureServices` does: append descriptors, or throw after appending some. */
  datatype ConfigureOutcome = Appends(added: seq<ServiceDescriptor>) | Throws(addedBeforeThrow: seq<ServiceDescriptor>)

  /** An `IDefinitionModule` implementation, with the effect of its configure call. */
  datatype DefinitionModule = DefinitionModule(typeName: string, moduleName: string, contractVersion: string, configure: ConfigureOutcome)

  /** A concrete module type of an assembly: instantiable, or its parameterless construction throws. */
  datatype ModuleType = Instantiable(definition: DefinitionModule) | NotInstantiable(typeName: string)

  /** `Assembly.GetTypes` filtered to module types, or the type-load exception it raises. */
  datatype TypeCatalog = ModuleTypes(types: seq<ModuleType>) | TypeLoadFailure(loaderExceptions: nat)

  /** A callback invocation observed from outside: which callback, and for which module type. */
  datatype Event = PreLoad(action: Callback) | ModuleLoaded(action: Callback, moduleType: string)

  /** The state registration touches: the caller's service list, the static tracking table, the callbacks run. */
  datatype Registry = Registry(services: seq<ServiceDescriptor>, tracked: map<string, ServiceDescriptor>, events: seq<Event>)

  /** The module name is listed as critical, ignoring case. */
  predicate IsCritical(critical: seq<string>, moduleName: string) {
    exists i :: 0 <= i < |critical| && EqualsIgnoreCase(critical[i], moduleName)
  }

  /** The conflict rule: same tracked service type and lifetime, another implementation type, no factory on either side. */
  predicate InConflict(sd: ServiceDescriptor, tracked: map<string, ServiceDescriptor>) {
    sd.serviceType in tracked &&
    var t := tracked[sd.serviceType];
    sd.lifetime == t.lifetime && sd.implementationType != t.implementationType && !sd.hasFactory && !t.hasFactory
  }

  /** The descriptors in conflict, in list order (the snapshot taken before any removal). */
  function Conflicts(services: seq<ServiceDescriptor>, tracked: map<string, ServiceDescriptor>): (r: seq<ServiceDescriptor>)
    ensures forall d :: d in r ==> d.serviceType in tracked
    decreases |services|
  {
    if services == [] then []
    else (if InConflict(services[0], tracked) then [services[0]] else []) + Conflicts(services[1..], tracked)
  }

  /** `List.Remove`: drops the first occurrence of `x`, if any. */
  function Remove(s: seq<ServiceDescriptor>, x: ServiceDescriptor): (r: seq<ServiceDescriptor>)
    decreases |s|
  {
    if s == [] then []
    else if s[0] == x then s[1..]
    else [s[0]] + Remove(s[1..], x)
  }

  /** For each conflicting descriptor, the tracked descriptor of its type is removed. */
  function RemoveTracked(s: seq<ServiceDescriptor>, conflicts: seq<ServiceDescriptor>, tracked: map<string, ServiceDescriptor>): seq<ServiceDescriptor>
    requires forall d :: d in conflicts ==> d.serviceType in tracked
    decreases |conflicts|
  {
    if conflicts == [] then s
    else RemoveTracked(Remove(s, tracked[conflicts[0].serviceType]), conflicts[1..], tracked)
  }

  /** Add-if-absent tracking over the list, in list order. */
  function Track(tracked: map<string, ServiceDescriptor>, s: seq<ServiceDescriptor>): map<string, ServiceDescriptor>
    decreases |s|
  {
    if s == [] then tracked
    else Track(if s[0].serviceType in tracked then tracked else tracked[s[0].serviceType := s[0]], s[1..])
  }

  /** The module-loaded callback's invocation, if a callback is set. */
  function HookEvents(hook: Option<Callback>, moduleTypes: seq<string>): (r: seq<Event>)
    ensures hook.None? ==> r == []
    ensures hook.Some? ==> |r| == |moduleTypes| && forall i :: 0 <= i < |r| ==> r[i] == ModuleLoaded(hook.value, moduleTypes[i])
    decreases |moduleTypes|
  {
    if hook.None? || moduleTypes == [] then []
    else [ModuleLoaded(hook.value, moduleTypes[0])] + HookEvents(hook, moduleTypes[1..])
  }

  /** The registry after one module, and whether the rest of the assembly is skipped. */
  datatype Step = Step(registry: Registry, stop: bool)

  /** One module: configure, then (on success) conflict removal, tracking and the callback. */
  function ConfigureModule(r: Registry, m: DefinitionModule, critical: seq<string>, hook: Option<Callback>): Step {
    match m.configure
    case Throws(added) => Step(r.(services := r.services + added), IsCritical(critical, m.moduleName))
    case Appends(added) =>
      var s1 := r.services + added;
      var s2 := RemoveTracked(s1, Conflicts(s1, r.tracked), r.tracked);
      Step(Registry(s2, Track(r.tracked, s2), r.events + HookEvents(hook, [m.typeName])), false)
  }

  /**
   * The module loop of one assembly. A module type that cannot be constructed
   * and a critical configure failure both end the loop (the exception is
   * caught by the catch-all around it); a non-critical failure goes on.
   */
  function RegisterTypes(r: Registry, types: seq<ModuleType>, critical: seq<string>, hook: Option<Callback>): Registry
    decreases |types|
  {
    if types == [] then r
    else match types[0]
      case NotInstantiable(_) => r
      case Instantiable(m) =>
        var st := ConfigureModule(r, m, critical, hook);
        if st.stop then st.registry else RegisterTypes(st.registry, types[1..], critical, hook)
  }

  /** `RegisterModules`: a type-load failure registers nothing. */
  function RegisterModulesSpec(r: Registry, catalog: TypeCatalog, critical: seq<string>, hook: Option<Callback>): Registry {
    match catalog
    case TypeLoadFailure(_) => r
    case ModuleTypes(types) => RegisterTypes(r, types, critical, hook)
  }

  /** Reference definition: the module types whose configuration succeeded before the loop ended. */
  function LoadedModuleTypes(types: seq<ModuleType>, critical: seq<string>): seq<string>
    decreases |types|
  {
    if types == [] then []
    else match types[0]
      case NotInstantiable(_) => []
      case Instantiable(m) =>
        if m.configure.Appends? then [m.typeName] + LoadedModuleTypes(types[1..], critical)
        else if IsCritical(critical, m.moduleName) then []
        else LoadedModuleTypes(types[1..], critical)
  }

  lemma HookEventsAppend(hook: Option<Callback>, a: seq<string>, b: seq<string>)
    ensures HookEvents(hook, a + b) == HookEvents(hook, a) + HookEvents(hook, b)
  {
  }

  /**
   * The module-loaded callback runs exactly once per module whose configure
   * call succeeded, in module order, with that module's type; nothing else
   * is added to the events.
   */
  lemma {:induction false} CallbackOncePerLoadedModule(r: Registry, types: seq<ModuleType>, critical: seq<string>, hook: Option<Callback>)
    ensures RegisterTypes(r, types, critical, hook).events == r.events + HookEvents(hook, LoadedModuleTypes(types, critical))
    decreases |types|
  {
    if types != [] && types[0].Instantiable? {
      var m := types[0].definition;
      var st := ConfigureModule(r, m, critical, hook);
      if !st.stop {
        CallbackOncePerLoadedModule(st.registry, types[1..], critical, hook);
        if m.configure.Appends? {
          HookEventsAppend(hook, [m.typeName], LoadedModuleTypes(types[1..], critical));
        }
      }
    }
  }

  /** A non-critical configure failure keeps what was appended before the throw and goes on with the next module. */
  lemma NonCriticalFailureContinues(r: Registry, m: DefinitionModule, rest: seq<ModuleType>, critical: seq<string>, hook: Option<Callback>)
    requires m.configure.Throws? && !IsCritical(critical, m.moduleName)
    ensures RegisterTypes(r, [Instantiable(m)] + rest, critical, hook) ==
            RegisterTypes(r.(services := r.services + m.configure.addedBeforeThrow), rest, critical, hook)
  {
    assert ([Instantiable(m)] + rest)[1..] == rest;
  }

  /**
   * A critical configure failure ends the assembly's loop: the later modules
   * are neither configured nor reported, and no exception leaves the loop.
   */
  lemma CriticalFailureSkipsRest(r: Registry, m: DefinitionModule, rest: seq<ModuleType>, critical: seq<string>, hook: Option<Callback>)
    requires m.configure.Throws? && IsCritical(critical, m.moduleName)
    ensures RegisterTypes(r, [Instantiable(m)] + rest, critical, hook) ==
            r.(services := r.services + m.configure.addedBeforeThrow)
  {
  }

  /** `Remove` drops one occurrence of `x` when there is one, and nothing otherwise. */
  lemma {:induction false} RemoveCounts(s: seq<ServiceDescriptor>, x: ServiceDescriptor)
    ensures multiset(Remove(s, x)) == multiset(s) - multiset{x}
    decreases |s|
  {
    if s != [] {
      assert s == [s[0]] + s[1..];
      if s[0] != x {
        RemoveCounts(s[1..], x);
      }
    }
  }

  /** The tracked descriptor of each conflict's type, in conflict order. */
  function TrackedOf(conflicts: seq<ServiceDescriptor>, tracked: map<string, ServiceDescriptor>): (r: seq<ServiceDescriptor>)
    requires forall d :: d in conflicts ==> d.serviceType in tracked
    ensures |r| == |conflicts|
    ensures forall i :: 0 <= i < |conflicts| ==> r[i] == tracked[conflicts[i].serviceType]
    decreases |conflicts|
  {
    if conflicts == [] then [] else [tracked[conflicts[0].serviceType]] + TrackedOf(conflicts[1..], tracked)
  }

  /**
   * Conflict removal drops exactly one occurrence of the tracked descriptor
   * of each conflict's type, as far as the list still holds one: it removes
   * only tracked descriptors, and every other descriptor keeps its occurrences.
   */
  lemma {:induction false} RemovesOnlyTracked(s: seq<ServiceDescriptor>, conflicts: seq<ServiceDescriptor>, tracked: map<string, ServiceDescriptor>)
    requires forall d :: d in conflicts ==> d.serviceType in tracked
    ensures multiset(RemoveTracked(s, conflicts, tracked)) == multiset(s) - multiset(TrackedOf(conflicts, tracked))
    ensures multiset(RemoveTracked(s, conflicts, tracked)) <= multiset(s)
    ensures forall d :: d !in tracked.Values ==> multiset(RemoveTracked(s, conflicts, tracked))[d] == multiset(s)[d]
    decreases |conflicts|
  {
    if conflicts != [] {
      var x := tracked[conflicts[0].serviceType];
      RemoveCounts(s, x);
      RemovesOnlyTracked(Remove(s, x), conflicts[1..], tracked);
      assert multiset(TrackedOf(conflicts, tracked)) == multiset{x} + multiset(TrackedOf(conflicts[1..], tracked));
    }
  }

  /** When no tracked descriptor of a conflicting type is still listed, conflict removal changes nothing. */
  lemma {:induction false} RemovingAbsentTrackedIsNoOp(s: seq<ServiceDescriptor>, conflicts: seq<ServiceDescriptor>, tracked: map<string, ServiceDescriptor>)
    requires forall d :: d in conflicts ==> d.serviceType in tracked && tracked[d.serviceType] !in s
    ensures RemoveTracked(s, conflicts, tracked) == s
    decreases |conflicts|
  {
    if conflicts != [] {
      RemoveCounts(s, tracked[conflicts[0].serviceType]);
      RemoveAbsent(s, tracked[conflicts[0].serviceType]);
      RemovingAbsentTrackedIsNoOp(s, conflicts[1..], tracked);
    }
  }

  lemma {:induction false} RemoveAbsent(s: seq<ServiceDescriptor>, x: ServiceDescriptor)
    requires x !in s
    ensures Remove(s, x) == s
    decreases |s|
  {
    if s != [] {
      RemoveAbsent(s[1..], x);
    }
  }

  /** The first descriptor of a service type in list order. */
  function FirstOfType(s: seq<ServiceDescriptor>, serviceType: string): Option<ServiceDescriptor>
    decreases |s|
  {
    if s == [] then None
    else if s[0].serviceType == serviceType then Some(s[0])
    else FirstOfType(s[1..], serviceType)
  }

  /**
   * Tracking is add-if-absent: an entry once made is never replaced, and a
   * newly tracked type maps to the first descriptor of that type in the list.
   */
  lemma {:induction false} TrackingIsAddIfAbsent(tracked: map<string, ServiceDescriptor>, s: seq<ServiceDescriptor>, k: string)
    ensures var t := Track(tracked, s);
      (k in t <==> k in tracked || FirstOfType(s, k).Some?) &&
      (k in tracked ==> t[k] == tracked[k]) &&
      (k !in tracked && FirstOfType(s, k).Some? ==> t[k] == FirstOfType(s, k).value)
    decreases |s|
  {
    if s != [] {
      var next := if s[0].serviceType in tracked then tracked else tracked[s[0].serviceType := s[0]];
      TrackingIsAddIfAbsent(next, s[1..], k);
    }
  }

  /** A descriptor conflicts exactly when it is listed and meets the conflict rule. */
  lemma {:induction false} ConflictsAreTheConflicting(services: seq<ServiceDescriptor>, tracked: map<string, ServiceDescriptor>, d: ServiceDescriptor)
    ensures d in Conflicts(services, tracked) <==> d in services && InConflict(d, tracked)
    decreases |services|
  {
    if services != [] {
      ConflictsAreTheConflicting(services[1..], tracked, d);
      assert services == [services[0]] + services[1..];
    }
  }

  const ServiceT := "IGreeter"
  const AlphaDescriptor := ServiceDescriptor(1, ServiceT, Singleton, Some("AlphaGreeter"), false)
  const BetaDescriptor := ServiceDescriptor(2, ServiceT, Singleton, Some("BetaGreeter"), false)
  const GammaDescriptor := ServiceDescriptor(3, ServiceT, Singleton, Some("GammaGreeter"), false)

  const AlphaModule := DefinitionModule("AlphaModule", "Alpha", "1.0", Appends([AlphaDescriptor]))
  const BetaModule := DefinitionModule("BetaModule", "Beta", "1.0", Appends([BetaDescriptor]))
  const GammaModule := DefinitionModule("GammaModule", "Gamma", "1.0", Appends([GammaDescriptor]))

  /** The first registration of a service type is kept and tracked. */
  lemma FirstRegistrationTracked()
    ensures ConfigureModule(Registry([], map[], []), AlphaModule, [], None).registry ==
            Registry([AlphaDescriptor], map[ServiceT := AlphaDescriptor], [])
  {
    assert [] + [AlphaDescriptor] == [AlphaDescriptor];
    assert Conflicts([AlphaDescriptor], map[]) == [];
    assert Track(map[], [AlphaDescriptor]) == map[ServiceT := AlphaDescriptor];
  }

  /** The second registration removes the tracked first one; the table is unchanged. */
  lemma SecondRegistrationReplacesFirst()
    ensures ConfigureModule(Registry([AlphaDescriptor], map[ServiceT := AlphaDescriptor], []), BetaModule, [], None).registry ==
            Registry([BetaDescriptor], map[ServiceT := AlphaDescriptor], [])
  {
    var t := map[ServiceT := AlphaDescriptor];
    assert !InConflict(AlphaDescriptor, t) && InConflict(BetaDescriptor, t);
    assert [AlphaDescriptor] + [BetaDescriptor] == [AlphaDescriptor, BetaDescriptor];
    assert [AlphaDescriptor, BetaDescriptor][1..] == [BetaDescriptor];
    assert Conflicts([BetaDescriptor], t) == [BetaDescriptor];
    assert Conflicts([AlphaDescriptor, BetaDescriptor], t) == [BetaDescriptor];
    assert Remove([AlphaDescriptor, BetaDescriptor], AlphaDescriptor) == [BetaDescriptor];
    assert RemoveTracked([AlphaDescriptor, BetaDescriptor], [BetaDescriptor], t) == [BetaDescriptor];
    assert Track(t, [BetaDescriptor]) == t;
  }

  /** The third registration finds the tracked descriptor gone and removes nothing. */
  lemma ThirdRegistrationKeepsBoth()
    ensures ConfigureModule(Registry([BetaDescriptor], map[ServiceT := AlphaDescriptor], []), GammaModule, [], None).registry ==
            Registry([BetaDescriptor, GammaDescriptor], map[ServiceT := AlphaDescriptor], [])
  {
    var t := map[ServiceT := AlphaDescriptor];
    assert InConflict(BetaDescriptor, t) && InConflict(GammaDescriptor, t);
    assert [BetaDescriptor] + [GammaDescriptor] == [BetaDescriptor, GammaDescriptor];
    assert [BetaDescriptor, GammaDescriptor][1..] == [GammaDescriptor];
    assert Conflicts([GammaDescriptor], t) == [GammaDescriptor];
    assert Conflicts([BetaDescriptor, GammaDescriptor], t) == [BetaDescriptor, GammaDescriptor];
    RemovingAbsentTrackedIsNoOp([BetaDescriptor, GammaDescriptor], [BetaDescriptor, GammaDescriptor], t);
    assert Track(t, [GammaDescriptor]) == t;
    assert Track(t, [BetaDescriptor, GammaDescriptor]) == t;
  }

  /**
   * Last-wins holds for two registrations of one service type but not for
   * three: the second removes the tracked first one, the third finds the
   * tracked descriptor already gone, removes nothing, and both later
   * descriptors stay registered while the table still tracks the first.
   */
  lemma ThirdRegistrationRemovesNothing()
    ensures var r1 := ConfigureModule(Registry([], map[], []), AlphaModule, [], None).registry;
      var r2 := ConfigureModule(r1, BetaModule, [], None).registry;
      var r3 := ConfigureModule(r2, GammaModule, [], None).registry;
      r1.services == [AlphaDescriptor] && r1.tracked == map[ServiceT := AlphaDescriptor] &&
      r2.services == [BetaDescriptor] && r2.tracked == map[ServiceT := AlphaDescriptor] &&
      r3.services == [BetaDescriptor, GammaDescriptor] && r3.tracked == map[ServiceT := AlphaDescriptor]
  {
    FirstRegistrationTracked();
    SecondRegistrationReplacesFirst();
    ThirdRegistrationKeepsBoth();
  }

  /** The paths that exist as a file or a directory, in configured order. */
  function ExistingPaths(fs: FileSystem, paths: seq<string>): (r: seq<string>)
    ensures forall p :: p in r <==> p in paths && (p in fs.files || p in fs.dirs)
    decreases |paths|
  {
    if paths == [] then []
    else (if paths[0] in fs.files || paths[0] in fs.dirs then [paths[0]] else []) + ExistingPaths(fs, paths[1..])
  }

  /** Filtering distributes over concatenation, so the configured order and any repeats are kept. */
  lemma {:induction false} ExistingPathsAppend(fs: FileSystem, a: seq<string>, b: seq<string>)
    ensures ExistingPaths(fs, a + b) == ExistingPaths(fs, a) + ExistingPaths(fs, b)
    decreases |a|
  {
    if a != [] {
      assert (a + b)[0] == a[0] && (a + b)[1..] == a[1..] + b;
      ExistingPathsAppend(fs, a[1..], b);
    } else {
      assert a + b == b;
    }
  }

  /** A single configured path is kept exactly when it exists as a file or a directory. */
  lemma ExistingPathsSingle(fs: FileSystem, p: string)
    ensures ExistingPaths(fs, [p]) == if p in fs.files || p in fs.dirs then [p] else []
  {
    assert [p][1..] == [];
  }

  /** An assembly's module catalog; an assembly the catalog does not list declares no module. */
  function CatalogOf(catalogs: map<Assembly, TypeCatalog>, a: Assembly): TypeCatalog {
    if a in catalogs then catalogs[a] else ModuleTypes([])
  }

  /** The `*.dll` files a directory enumerates, in enumeration order. */
  function ListingOf(listings: map<string, seq<string>>, dir: string): seq<string> {
    if dir in listings then listings[dir] else []
  }

  /** Everything `AddDefinitions` has done so far: the registry and the load context's cache. */
  datatype Session = Session(registry: Registry, cache: map<string, Assembly>)

  /** The fixed inputs of one `AddDefinitions` pass. */
  datatype Environment = Environment(
    fs: FileSystem, listings: map<string, seq<string>>, catalogs: map<Assembly, TypeCatalog>,
    critical: seq<string>, hook: Option<Callback>)

  /** Load one file through the context; a load that throws is logged and registers nothing. */
  function LoadAndRegister(env: Environment, s: Session, file: string): Session {
    var l := LoadFromPath(env.fs, s.cache, file);
    match l.outcome
    case Failure(_) => Session(s.registry, l.cache)
    case Success(a) => Session(RegisterModulesSpec(s.registry, CatalogOf(env.catalogs, a), env.critical, env.hook), l.cache)
  }

  /** Each file of a directory listing, in order, each under its own catch. */
  function LoadAll(env: Environment, s: Session, files: seq<string>): Session
    decreases |files|
  {
    if files == [] then s else LoadAll(env, LoadAndRegister(env, s, files[0]), files[1..])
  }

  /** One existing path: a file is loaded and registered, a directory has each of its `*.dll` files loaded and registered. */
  function ProcessPath(env: Environment, s: Session, path: string): Session {
    if path in env.fs.files then LoadAndRegister(env, s, path)
    else if path in env.fs.dirs then LoadAll(env, s, ListingOf(env.listings, path))
    else s
  }

  function ProcessPaths(env: Environment, s: Session, paths: seq<string>): Session
    decreases |paths|
  {
    if paths == [] then s else ProcessPaths(env, ProcessPath(env, s, paths[0]), paths[1..])
  }

  /** A path that does not exist is skipped without effect. */
  lemma MissingPathHasNoEffect(env: Environment, s: Session, path: string)
    requires path !in env.fs.files && path !in env.fs.dirs
    ensures ProcessPath(env, s, path) == s
  {
  }

  /** The three services `AddDefinitions` registers for itself, with fresh identities from `id`. */
  function FrameworkDescriptors(id: nat): (r: seq<ServiceDescriptor>)
    ensures |r| == 3 && forall i :: 0 <= i < 3 ==> r[i].id == id + i && r[i].lifetime == Singleton
  {
    [ServiceDescriptor(id, "DefinitionsOptions", Singleton, None, false),
     ServiceDescriptor(id + 1, "DefinitionsLoadContext", Singleton, None, true),
     ServiceDescriptor(id + 2, "IConfiguration", Singleton, None, true)]
  }

  /** The registry once `AddDefinitions` has registered its own services and created the load context. */
  function Started(r: Registry, id: nat, preLoad: Option<Callback>): Registry {
    Registry(r.services + FrameworkDescriptors(id), r.tracked,
             r.events + (if preLoad.Some? then [PreLoad(preLoad.value)] else []))
  }

  /** How `AddDefinitions` ends: it returns, or throws before walking the paths. */
  datatype Completion = Returned | MissingLoggingServices | NullAssemblyPaths

  /**
   * The process-wide state of the registration extension: the caller's
   * service list, the static tracking table, the callbacks invoked so far,
   * and a counter that hands out descriptor identities.
   */
  class Registrar {
    var services: seq<ServiceDescriptor>
    var tracked: map<string, ServiceDescriptor>
    var events: seq<Event>
    var nextId: nat

    constructor (initial: seq<ServiceDescriptor>, firstId: nat)
      ensures services == initial && tracked == map[] && events == [] && nextId == firstId
    {
      services := initial;
      tracked := map[];
      events := [];
      nextId := firstId;
    }

    function State(): Registry
      reads this
    {
      Registry(services, tracked, events)
    }

    /** Conflict removal over the snapshot of conflicting descriptors, then add-if-absent tracking. */
    method ResolveConflicts()
      modifies this
      ensures services == RemoveTracked(old(services), Conflicts(old(services), old(tracked)), old(tracked))
      ensures tracked == Track(old(tracked), services)
      ensures events == old(events) && nextId == old(nextId)
    {
      var conflicts := Conflicts(services, tracked);
      ghost var s0 := services;
      var i := 0;
      while i < |conflicts|
        invariant 0 <= i <= |conflicts|
        invariant tracked == old(tracked) && events == old(events) && nextId == old(nextId)
        invariant RemoveTracked(s0, conflicts, tracked) == RemoveTracked(services, conflicts[i..], tracked)
      {
        assert conflicts[i..][1..] == conflicts[i + 1..];
        services := Remove(services, tracked[conflicts[i].serviceType]);
        i := i + 1;
      }
      ghost var t0 := tracked;
      ghost var s1 := services;
      var j := 0;
      while j < |services|
        invariant 0 <= j <= |services|
        invariant services == s1
        invariant events == old(events) && nextId == old(nextId)
        invariant Track(t0, services) == Track(tracked, services[j..])
      {
        assert services[j..][1..] == services[j + 1..];
        if services[j].serviceType !in tracked {
          tracked := tracked[services[j].serviceType := services[j]];
        }
        j := j + 1;
      }
    }

    /** `RegisterModules` for one loaded assembly. */
    method RegisterModules(catalog: TypeCatalog, critical: seq<string>, hook: Option<Callback>)
      modifies this
      ensures State() == RegisterModulesSpec(old(State()), catalog, critical, hook)
      ensures nextId == old(nextId)
    {
      if catalog.TypeLoadFailure? {
        return;
      }
      var types := catalog.types;
      var i := 0;
      while i < |types|
        invariant 0 <= i <= |types|
        invariant nextId == old(nextId)
        invariant RegisterTypes(old(State()), types, critical, hook) == RegisterTypes(State(), types[i..], critical, hook)
      {
        assert types[i..][0] == types[i] && types[i..][1..] == types[i + 1..];
        if types[i].NotInstantiable? {
          return;
        }
        var m := types[i].definition;
        ghost var before := State();
        match m.configure {
          case Throws(added) =>
            services := services + added;
            if IsCritical(critical, m.moduleName) {
              return;
            }
          case Appends(added) =>
            services := services + added;
            ResolveConflicts();
            if hook.Some? {
              events := events + [ModuleLoaded(hook.value, m.typeName)];
            }
            assert events == before.events + HookEvents(hook, [m.typeName]);
        }
        assert State() == ConfigureModule(before, m, critical, hook).registry;
        i := i + 1;
      }
    }

    /** Loads one file through the context and registers its modules when the load succeeds. */
    method LoadAndRegisterFile(ctx: DefinitionsLoadContext, env: Environment, file: string)
      modifies this, ctx
      ensures Session(State(), ctx.cache) == LoadAndRegister(env, Session(old(State()), old(ctx.cache)), file)
      ensures nextId == old(nextId)
    {
      var a := ctx.LoadFromAssemblyPath(env.fs, file);
      if a.Success? {
        RegisterModules(CatalogOf(env.catalogs, a.value), env.critical, env.hook);
      }
    }

    /** The `*.dll` files of one directory, each loaded and registered under its own catch. */
    method LoadAndRegisterFiles(ctx: DefinitionsLoadContext, env: Environment, files: seq<string>)
      modifies this, ctx
      ensures Session(State(), ctx.cache) == LoadAll(env, Session(old(State()), old(ctx.cache)), files)
      ensures nextId == old(nextId)
    {
      ghost var s0 := Session(State(), ctx.cache);
      var j := 0;
      while j < |files|
        invariant 0 <= j <= |files|
        invariant nextId == old(nextId)
        invariant LoadAll(env, s0, files) == LoadAll(env, Session(State(), ctx.cache), files[j..])
      {
        assert files[j..][1..] == files[j + 1..];
        LoadAndRegisterFile(ctx, env, files[j]);
        j := j + 1;
      }
    }

    /** The walk over the existing configured paths, in order: a file is loaded, a directory has its listing loaded. */
    method ProcessExistingPaths(ctx: DefinitionsLoadContext, env: Environment, paths: seq<string>)
      modifies this, ctx
      ensures Session(State(), ctx.cache) == ProcessPaths(env, Session(old(State()), old(ctx.cache)), paths)
      ensures nextId == old(nextId)
    {
      ghost var s0 := Session(State(), ctx.cache);
      var i := 0;
      while i < |paths|
        invariant 0 <= i <= |paths|
        invariant nextId == old(nextId)
        invariant ProcessPaths(env, s0, paths) == ProcessPaths(env, Session(State(), ctx.cache), paths[i..])
      {
        assert paths[i..][0] == paths[i] && paths[i..][1..] == paths[i + 1..];
        var path := paths[i];
        if path in env.fs.files {
          LoadAndRegisterFile(ctx, env, path);
        } else if path in env.fs.dirs {
          LoadAndRegisterFiles(ctx, env, ListingOf(env.listings, path));
        }
        i := i + 1;
      }
    }

    /**
     * `AddDefinitions` after the builder callback has filled `options`: the
     * library's own services are appended, the load context is created
     * (running the pre-load callback), the configuration is layered, and the
     * existing paths are walked in order.
     */
    method AddDefinitions(options: DefinitionsOptions, initialConfiguration: map<string, string>, overrideOrder: seq<OverrideKey>,
                          hasLogging: bool, env: Environment)
      returns (done: Completion, ctx: DefinitionsLoadContext, configuration: Configuration)
      requires EnumeratesKeys(options.configurationOverrides, overrideOrder)
      requires env.critical == options.criticalModules.GetOr([]) && env.hook == options.onModuleLoaded
      modifies this
      ensures fresh(ctx)
      ensures ctx.assemblyPaths == options.assemblyPaths.GetOr([])
      ensures nextId == old(nextId) + 3
      ensures configuration == [initialConfiguration, Flatten(options.configurationOverrides, overrideOrder)]
      ensures !hasLogging ==>
        (done == MissingLoggingServices && ctx.cache == map[] &&
         State() == Registry(old(services) + FrameworkDescriptors(old(nextId)), old(tracked), old(events)))
      ensures hasLogging && options.assemblyPaths.None? ==>
        (done == NullAssemblyPaths && ctx.cache == map[] &&
         State() == Started(old(State()), old(nextId), options.preLoadAction))
      ensures hasLogging && options.assemblyPaths.Some? ==>
        (done == Returned &&
         Session(State(), ctx.cache) ==
           ProcessPaths(env, Session(Started(old(State()), old(nextId), options.preLoadAction), map[]),
                        ExistingPaths(env.fs, options.assemblyPaths.value)))
    {
      services := services + FrameworkDescriptors(nextId);
      nextId := nextId + 3;
      var source := new MemoryConfigurationSource(options.configurationOverrides, overrideOrder);
      var provider := source.Build();
      configuration := [initialConfiguration, provider.data];
      ctx := new DefinitionsLoadContext("DefinitionsLoadContext", options.assemblyPaths);
      if !hasLogging {
        return MissingLoggingServices, ctx, configuration;
      }
      if options.preLoadAction.Some? {
        events := events + [PreLoad(options.preLoadAction.value)];
      }
      if options.assemblyPaths.None? {
        return NullAssemblyPaths, ctx, configuration;
      }
      var paths := ExistingPaths(env.fs, options.assemblyPaths.value);
      assert Session(State(), ctx.cache) == Session(Started(old(State()), old(nextId), options.preLoadAction), map[]);
      ProcessExistingPaths(ctx, env, paths);
      return Returned, ctx, configuration;
    }
  }
}
