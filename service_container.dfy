/**
 * ServiceContainer's registry: a map from type key to singleton instance and
 * a map from type key to component factory, updated in place. Type keys
 * (`K`), instances (`S`) and factory delegates (`F`) are opaque; a null
 * argument is `None`.
 */
module Services {
  import opened Wrappers

  /** The exceptions the registry throws. */
  datatype ContainerError = ArgumentNull | NotRegistered

  class ServiceContainer<K(==), S, F> {
    var services: map<K, S>
    var factories: map<K, F>
    /** Every factory CreateComponent has invoked, in order. */
    ghost var factoryCalls: seq<F>

    /** An empty registry (the bootstrap registrations are not part of this model). */
    constructor ()
      ensures services == map[] && factories == map[] && factoryCalls == []
    {
      services := map[];
      factories := map[];
      factoryCalls := [];
    }

    /** `GetService<T>()`: the stored instance, or InvalidOperationException when `key` has none. */
    function GetService(key: K): (r: Result<S, ContainerError>)
      reads this`services
      ensures r.Success? <==> IsServiceRegistered(key)
      ensures r.Success? ==> r.value == services[key]
      ensures r.Failure? ==> r.error == NotRegistered
    {
      if key in services then Success(services[key]) else Failure(NotRegistered)
    }

    /** `GetService<T>(Type)`: like GetService, but null instead of an exception. */
    function GetServiceByType(key: K): (r: Option<S>)
      reads this`services
      ensures r.Some? <==> GetService(key).Success?
      ensures r.Some? ==> r.value == GetService(key).value
    {
      if key in services then Some(services[key]) else None
    }

    /** `IsServiceRegistered<T>()`: consults the services map only, so a registered factory does not count. */
    predicate IsServiceRegistered(key: K): (b: bool)
      reads this`services
      ensures b <==> key in services.Keys
    {
      key in services
    }

    /** `IsFactoryRegistered<T>()`: consults the factories map only, so a registered service does not count. */
    predicate IsFactoryRegistered(key: K): (b: bool)
      reads this`factories
      ensures b <==> key in factories.Keys
    {
      key in factories
    }

    /** `RegisterSingleton<T>`: null is refused with nothing changed; otherwise `key` maps to the instance, replacing any earlier one. */
    method RegisterSingleton(key: K, implementation: Option<S>) returns (err: Option<ContainerError>)
      modifies this
      ensures implementation.None? ==> err == Some(ArgumentNull) && unchanged(this)
      ensures implementation.Some? ==> err.None? && services == old(services)[key := implementation.value]
      ensures implementation.Some? ==> GetService(key) == Success(implementation.value)
      ensures factories == old(factories) && factoryCalls == old(factoryCalls)
    {
      if implementation.None? {
        return Some(ArgumentNull);
      }
      services := services[key := implementation.value];
      err := None;
    }

    /** `RegisterFactory<T>`: null is refused with nothing changed; otherwise `key` maps to the factory. It never registers a service. */
    method RegisterFactory(key: K, factory: Option<F>) returns (err: Option<ContainerError>)
      modifies this
      ensures factory.None? ==> err == Some(ArgumentNull) && unchanged(this)
      ensures factory.Some? ==> err.None? && factories == old(factories)[key := factory.value]
      ensures factory.Some? ==> IsFactoryRegistered(key) && IsServiceRegistered(key) == old(IsServiceRegistered(key))
      ensures services == old(services) && factoryCalls == old(factoryCalls)
    {
      if factory.None? {
        return Some(ArgumentNull);
      }
      factories := factories[key := factory.value];
      err := None;
    }

    /**
     * `CreateComponent<T>()`: invokes the stored factory on every call and
     * returns what it produced (`produced`, supplied by the caller because the
     * factory is code outside the model); InvalidOperationException without one.
     */
    method CreateComponent(key: K, produced: S) returns (r: Result<S, ContainerError>)
      modifies this`factoryCalls
      ensures key in factories ==> r == Success(produced) && factoryCalls == old(factoryCalls) + [factories[key]]
      ensures key !in factories ==> r == Failure(NotRegistered) && factoryCalls == old(factoryCalls)
    {
      if key in factories {
        factoryCalls := factoryCalls + [factories[key]];
        return Success(produced);
      }
      return Failure(NotRegistered);
    }

    /** `UnregisterService<T>()`: removes only `key`, only from the services map; absent keys are fine. */
    method UnregisterService(key: K)
      modifies this
      ensures services == old(services) - {key}
      ensures !IsServiceRegistered(key) && GetServiceByType(key).None?
      ensures forall k :: k != key ==> (k in services <==> k in old(services))
      ensures factories == old(factories) && factoryCalls == old(factoryCalls)
    {
      services := services - {key};
    }

    /** `Clear()`: both maps emptied. */
    method Clear()
      modifies this
      ensures services == map[] && factories == map[]
      ensures forall k :: !IsServiceRegistered(k) && !IsFactoryRegistered(k)
      ensures factoryCalls == old(factoryCalls)
    {
      services := map[];
      factories := map[];
    }
  }
}
