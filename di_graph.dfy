/**
 * The data-pipeline module's part of the shared dependency-injection graph
 * (Sources/DataPipeline/autogenerated/AutoDependencyInjection.generated.swift).
 *
 * Each accessor resolves a dependency in a fixed order: a test override if one
 * is registered for the type; else, for the singleton
 * `AutoTrackingScreenViewStore`, the instance cached in `singletons` under the
 * type's name, created and stored on first access; else, for the other two
 * types, a newly constructed instance on every call.
 *
 * Objects are modelled by the protocol they conform to and an identity; the
 * graph hands out fresh identities from a counter, standing in for the
 * constructors `DataPipelinesLoggerImpl`, `InMemoryAutoTrackingScreenViewStore`
 * and `SdkDeviceAttributesProvider`. `Graph` is the graph's state as a value
 * and `Resolve` specifies the accessors; the class `DIGraphShared` holds the
 * same state in fields and implements the accessors as the generated code does.
 * Resolution is sequential: the per-type dispatch queue is not modelled.
 */
module DIGraph {
  import opened Wrappers

  /** The three types this module registers. */
  datatype Dependency =
    | DataPipelinesLoggerType
    | AutoTrackingScreenViewStoreType
    | DeviceAttributesProviderType

  /** `String(describing: T.self)`: the key a type is stored under. */
  function TypeName(d: Dependency): string {
    match d
    case DataPipelinesLoggerType => "DataPipelinesLogger"
    case AutoTrackingScreenViewStoreType => "AutoTrackingScreenViewStore"
    case DeviceAttributesProviderType => "DeviceAttributesProvider"
  }

  /** The singleton's key in `singletons`. */
  const StoreKey: string := "AutoTrackingScreenViewStore"

  /** The dependencies `testDependenciesAbleToResolve` resolves, in its order. */
  const Registered: seq<Dependency> :=
    [DataPipelinesLoggerType, AutoTrackingScreenViewStoreType, DeviceAttributesProviderType]

  /** An object: the type (protocol) it conforms to, and its identity. */
  datatype Instance = Instance(conformsTo: string, id: nat)

  /**
   * The graph's mutable state: test overrides and cached singletons, both keyed
   * by type name and shared with other modules' registrations, and the next
   * identity a constructor hands out.
   */
  datatype Graph = Graph(overrides: map<string, Instance>, singletons: map<string, Instance>, nextId: nat)

  /**
   * Every object the graph holds, cached singleton or test override, already
   * exists, so its identity lies below `nextId`.
   */
  predicate Valid(g: Graph) {
    && (forall k :: k in g.singletons ==> g.singletons[k].id < g.nextId)
    && (forall k :: k in g.overrides ==> g.overrides[k].id < g.nextId)
  }

  /**
   * `getOverriddenInstance()` for type `d`: the instance registered for its
   * name, if that instance is of type `d`.
   */
  function OverriddenInstance(g: Graph, d: Dependency): (r: Option<Instance>)
    ensures r.Some? <==> TypeName(d) in g.overrides && g.overrides[TypeName(d)].conformsTo == TypeName(d)
    ensures r.Some? ==> r.value == g.overrides[TypeName(d)]
  {
    var key := TypeName(d);
    if key in g.overrides && g.overrides[key].conformsTo == key then Some(g.overrides[key]) else None
  }

  /**
   * `singletons[StoreKey] as? AutoTrackingScreenViewStore`: the cached
   * instance, if there is one of the right type.
   */
  function CachedStore(g: Graph): (r: Option<Instance>)
    ensures r.Some? <==> StoreKey in g.singletons && g.singletons[StoreKey].conformsTo == StoreKey
    ensures r.Some? ==> r.value == g.singletons[StoreKey]
  {
    if StoreKey in g.singletons && g.singletons[StoreKey].conformsTo == StoreKey then Some(g.singletons[StoreKey]) else None
  }

  /** Constructing an object of type `d`: a fresh identity, and the counter moves on. */
  function Construct(g: Graph, d: Dependency): (r: (Instance, Graph))
    ensures r.0.conformsTo == TypeName(d) && r.0.id == g.nextId
    ensures r.1 == g.(nextId := g.nextId + 1)
    ensures Valid(g) ==> Valid(r.1) && r.0 !in g.singletons.Values && r.0 !in g.overrides.Values
  {
    (Instance(TypeName(d), g.nextId), g.(nextId := g.nextId + 1))
  }

  /**
   * `sharedAutoTrackingScreenViewStore`: an override wins and touches nothing;
   * otherwise the cached instance is returned, or one is constructed, and
   * either way it is stored under `StoreKey`, the only entry written.
   */
  function SharedStore(g: Graph): (r: (Instance, Graph))
    ensures r.0.conformsTo == StoreKey
    ensures r.1.overrides == g.overrides
    ensures r.1.singletons - {StoreKey} == g.singletons - {StoreKey}
    ensures OverriddenInstance(g, AutoTrackingScreenViewStoreType).Some? ==>
      r == (OverriddenInstance(g, AutoTrackingScreenViewStoreType).value, g)
    ensures OverriddenInstance(g, AutoTrackingScreenViewStoreType).None? ==> CachedStore(r.1) == Some(r.0)
    ensures OverriddenInstance(g, AutoTrackingScreenViewStoreType).None? && CachedStore(g).Some? ==>
      r == (CachedStore(g).value, g)
    ensures OverriddenInstance(g, AutoTrackingScreenViewStoreType).None? && CachedStore(g).None? ==>
      r.0.id == g.nextId && r.1.nextId == g.nextId + 1
    ensures Valid(g) ==> Valid(r.1)
  {
    match OverriddenInstance(g, AutoTrackingScreenViewStoreType)
    case Some(overridden) => (overridden, g)
    case None =>
      match CachedStore(g)
      case Some(existing) =>
        // storing the cached instance again leaves the map as it was
        assert g.singletons[StoreKey := existing] == g.singletons;
        (existing, g.(singletons := g.singletons[StoreKey := existing]))
      case None =>
        var (instance, g') := Construct(g, AutoTrackingScreenViewStoreType);
        (instance, g'.(singletons := g'.singletons[StoreKey := instance]))
  }

  /**
   * The accessor for `d` (`dataPipelinesLogger`, `autoTrackingScreenViewStore`,
   * `deviceAttributesProvider`): always an instance of `d`; an override wins
   * and changes nothing; a non-singleton is constructed afresh and leaves both
   * maps alone; at most one object is constructed, and at most the
   * singleton's entry is written.
   */
  function Resolve(g: Graph, d: Dependency): (r: (Instance, Graph))
    ensures r.0.conformsTo == TypeName(d)
    ensures r.1.overrides == g.overrides
    ensures r.1.singletons - {StoreKey} == g.singletons - {StoreKey}
    ensures r.1.nextId == g.nextId || (r.1.nextId == g.nextId + 1 && r.0.id == g.nextId)
    ensures OverriddenInstance(g, d).Some? ==> r == (OverriddenInstance(g, d).value, g)
    ensures OverriddenInstance(g, d).None? && d != AutoTrackingScreenViewStoreType ==>
      r.0.id == g.nextId && r.1 == g.(nextId := g.nextId + 1)
    ensures OverriddenInstance(g, d).None? && d == AutoTrackingScreenViewStoreType ==>
      CachedStore(r.1) == Some(r.0) && (CachedStore(g).Some? ==> r == (CachedStore(g).value, g))
    ensures Valid(g) ==> Valid(r.1)
  {
    match OverriddenInstance(g, d)
    case Some(overridden) => (overridden, g)
    case None =>
      if d == AutoTrackingScreenViewStoreType then SharedStore(g) else Construct(g, d)
  }

  /** Resolving a sequence of dependencies one after another. */
  function ResolveAll(g: Graph, ds: seq<Dependency>): (r: (seq<Instance>, Graph))
    ensures |r.0| == |ds|
    ensures forall i :: 0 <= i < |ds| ==> r.0[i].conformsTo == TypeName(ds[i])
    ensures r.1.overrides == g.overrides
    ensures r.1.nextId >= g.nextId
    ensures Valid(g) ==> Valid(r.1)
    decreases ds
  {
    if ds == [] then ([], g)
    else
      var (x, g1) := Resolve(g, ds[0]);
      var (xs, g2) := ResolveAll(g1, ds[1..]);
      ([x] + xs, g2)
  }

  /** `override(instance, forType:)`: later lookups for that type find `instance`. */
  function OverrideGraph(g: Graph, instance: Instance, d: Dependency): (g': Graph)
    requires instance.conformsTo == TypeName(d) && instance.id < g.nextId
    ensures OverriddenInstance(g', d) == Some(instance)
    ensures g'.overrides - {TypeName(d)} == g.overrides - {TypeName(d)}
    ensures forall e :: e != d ==> OverriddenInstance(g', e) == OverriddenInstance(g, e)
    ensures g'.singletons == g.singletons && g'.nextId == g.nextId
    ensures Valid(g) ==> Valid(g')
  {
    g.(overrides := g.overrides[TypeName(d) := instance])
  }

  /**
   * `reset()`: no override and no cached singleton remains, of any module,
   * and identities already handed out stay used.
   */
  function ResetGraph(g: Graph): (g': Graph)
    ensures g'.overrides == map[] && g'.singletons == map[]
    ensures forall d :: OverriddenInstance(g', d).None?
    ensures CachedStore(g').None?
    ensures g'.nextId == g.nextId && Valid(g')
  {
    g.(overrides := map[], singletons := map[])
  }

  /**
   * Once `d` is overridden, every later access to `d`, in any sequence of
   * accesses, returns the override, whatever was cached before.
   */
  lemma {:induction false} OverrideHoldsForRun(g: Graph, x: Instance, d: Dependency, ds: seq<Dependency>)
    requires x.conformsTo == TypeName(d) && x.id < g.nextId
    ensures var r := ResolveAll(OverrideGraph(g, x, d), ds);
      forall i :: 0 <= i < |ds| && ds[i] == d ==> r.0[i] == x
    decreases ds
  {
    if ds != [] {
      var g0 := OverrideGraph(g, x, d);
      var (_, g1) := Resolve(g0, ds[0]);
      assert g1 == OverrideGraph(g1, x, d) by {
        assert g1.overrides == g0.overrides;
        assert g0.overrides[TypeName(d)] == x;
        assert g1.overrides[TypeName(d) := x] == g1.overrides;
      }
      OverrideHoldsForRun(g1, x, d, ds[1..]);
    }
  }

  /**
   * Without an override, every access to the singleton in a sequence of
   * accesses returns the same instance: the one cached beforehand if there was
   * one, and in any case the one cached afterwards. So it is constructed at
   * most once.
   */
  lemma {:induction false} StoreIsShared(g: Graph, ds: seq<Dependency>)
    requires OverriddenInstance(g, AutoTrackingScreenViewStoreType).None?
    ensures var r := ResolveAll(g, ds);
      forall i :: 0 <= i < |ds| && ds[i] == AutoTrackingScreenViewStoreType ==>
        CachedStore(r.1) == Some(r.0[i]) && (CachedStore(g).Some? ==> r.0[i] == CachedStore(g).value)
    ensures CachedStore(g).Some? ==> CachedStore(ResolveAll(g, ds).1) == CachedStore(g)
    decreases ds
  {
    if ds != [] {
      var (x, g1) := Resolve(g, ds[0]);
      assert OverriddenInstance(g1, AutoTrackingScreenViewStoreType).None?;
      StoreIsShared(g1, ds[1..]);
      var (xs, g2) := ResolveAll(g1, ds[1..]);
      assert ResolveAll(g, ds) == ([x] + xs, g2);
      if CachedStore(g).Some? {
        assert CachedStore(g1) == CachedStore(g) by {
          assert StoreKey in g1.singletons;
        }
      }
      if ds[0] == AutoTrackingScreenViewStoreType {
        assert CachedStore(g1) == Some(x);
      }
    }
  }

  /** Two consecutive accesses to the singleton return the identical instance. */
  lemma StoreTwiceIsIdentical(g: Graph)
    ensures var (a, g1) := Resolve(g, AutoTrackingScreenViewStoreType);
      var (b, g2) := Resolve(g1, AutoTrackingScreenViewStoreType);
      a == b && g2 == g1
  {
  }

  /**
   * Two consecutive accesses to a non-singleton without an override return two
   * distinct instances, neither of them a cached singleton.
   */
  lemma NonSingletonIsFresh(g: Graph, d: Dependency)
    requires Valid(g)
    requires d != AutoTrackingScreenViewStoreType && OverriddenInstance(g, d).None?
    ensures var (a, g1) := Resolve(g, d);
      var (b, g2) := Resolve(g1, d);
      a != b && g2.singletons == g.singletons &&
      forall k :: k in g.singletons ==> a != g.singletons[k] && b != g.singletons[k]
  {
  }

  /**
   * After `reset()`, an access constructs a new instance: it is none of the
   * singletons cached and none of the overrides registered before the reset.
   */
  lemma ResetGivesNewInstance(g: Graph, d: Dependency)
    requires Valid(g)
    ensures var (a, _) := Resolve(ResetGraph(g), d);
      a !in g.singletons.Values && a !in g.overrides.Values
  {
  }

  /** The registered dependencies all resolve, each to an instance of its type. */
  lemma RegisteredResolve(g: Graph)
    ensures var r := ResolveAll(g, Registered);
      |r.0| == 3 &&
      r.0[0].conformsTo == "DataPipelinesLogger" &&
      r.0[1].conformsTo == "AutoTrackingScreenViewStore" &&
      r.0[2].conformsTo == "DeviceAttributesProvider"
  {
  }

  /** The graph (`DIGraphShared`), with the generated accessors of this module. */
  class DIGraphShared {
    var overrides: map<string, Instance>
    var singletons: map<string, Instance>
    var nextId: nat

    function State(): Graph
      reads this
    {
      Graph(overrides, singletons, nextId)
    }

    constructor ()
      ensures State() == Graph(map[], map[], 0)
    {
      overrides := map[];
      singletons := map[];
      nextId := 0;
    }

    /** A constructor call: a fresh identity. */
    method New(d: Dependency) returns (instance: Instance)
      modifies this`nextId
      ensures (instance, State()) == Construct(old(State()), d)
    {
      instance := Instance(TypeName(d), nextId);
      nextId := nextId + 1;
    }

    /** `testDependenciesAbleToResolve`: resolves each registered dependency once. */
    method TestDependenciesAbleToResolve() returns (countDependenciesResolved: int)
      modifies this
      ensures countDependenciesResolved == 3
      ensures State() == ResolveAll(old(State()), Registered).1
    {
      ghost var g0 := State();
      countDependenciesResolved := 0;

      var _ := DataPipelinesLogger();
      countDependenciesResolved := countDependenciesResolved + 1;
      ghost var g1 := State();

      var _ := AutoTrackingScreenViewStore();
      countDependenciesResolved := countDependenciesResolved + 1;
      ghost var g2 := State();

      var _ := DeviceAttributesProvider();
      countDependenciesResolved := countDependenciesResolved + 1;

      assert Registered[1..][1..][1..] == [];
      assert ResolveAll(g2, Registered[1..][1..]).1 == State();
      assert ResolveAll(g1, Registered[1..]).1 == State();
    }

    /** `dataPipelinesLogger`. */
    method DataPipelinesLogger() returns (r: Instance)
      modifies this
      ensures (r, State()) == Resolve(old(State()), DataPipelinesLoggerType)
    {
      var overridden := OverriddenInstance(State(), DataPipelinesLoggerType);
      if overridden.Some? {
        r := overridden.value;
      } else {
        r := New(DataPipelinesLoggerType);
      }
    }

    /** `autoTrackingScreenViewStore`. */
    method AutoTrackingScreenViewStore() returns (r: Instance)
      modifies this
      ensures (r, State()) == Resolve(old(State()), AutoTrackingScreenViewStoreType)
    {
      var overridden := OverriddenInstance(State(), AutoTrackingScreenViewStoreType);
      if overridden.Some? {
        r := overridden.value;
      } else {
        r := SharedAutoTrackingScreenViewStore();
      }
    }

    /** `sharedAutoTrackingScreenViewStore`. */
    method SharedAutoTrackingScreenViewStore() returns (r: Instance)
      modifies this
      ensures (r, State()) == SharedStore(old(State()))
    {
      var overridden := OverriddenInstance(State(), AutoTrackingScreenViewStoreType);
      if overridden.Some? {
        return overridden.value;
      }
      var existingSingletonInstance := CachedStore(State());
      var instance;
      if existingSingletonInstance.Some? {
        instance := existingSingletonInstance.value;
      } else {
        instance := New(AutoTrackingScreenViewStoreType);
      }
      singletons := singletons[StoreKey := instance];
      r := instance;
    }

    /** `deviceAttributesProvider`. */
    method DeviceAttributesProvider() returns (r: Instance)
      modifies this
      ensures (r, State()) == Resolve(old(State()), DeviceAttributesProviderType)
    {
      var overridden := OverriddenInstance(State(), DeviceAttributesProviderType);
      if overridden.Some? {
        r := overridden.value;
      } else {
        r := New(DeviceAttributesProviderType);
      }
    }

    /** `override(instance, forType:)`. */
    method Override(instance: Instance, d: Dependency)
      requires instance.conformsTo == TypeName(d) && instance.id < nextId
      modifies this
      ensures State() == OverrideGraph(old(State()), instance, d)
    {
      overrides := overrides[TypeName(d) := instance];
    }

    /** `reset()`. */
    method Reset()
      modifies this
      ensures State() == ResetGraph(old(State()))
    {
      overrides := map[];
      singletons := map[];
    }
  }
}
