/**
 * What `get` and `getRoute` of src/Di/Container.php promise, proved about the resolution
 * functions: the error cases, scope dispatch, singleton caching, freshness of transient and
 * route instances, and the order in which `createInstance` calls into user code.
 */
module ResolutionFacts {
  import opened Binds
  import opened Keys
  import opened Errors
  import opened Registry
  import opened Resolution

  /** The name is bound, and its bind has that scope. */
  predicate BoundAs(st: State, name: string, scope: Scope) {
    KeyBuilder(name) in st.stack && st.stack[KeyBuilder(name)].scope == scope
  }

  /** Every cached key belongs to a Singleton bind. */
  predicate CacheScoped(st: State) {
    forall k :: k in st.singletons ==> k in st.stack && st.stack[k].scope == Singleton
  }

  /** `get` and `getRoute` of a name nobody bound fail with DI_BIND_NOT_EXIST and change nothing. */
  lemma UnboundNameFails(env: Env, st: State, name: string, rank: map<Key, nat>)
    requires WellRanked(env.plans, st.stack, rank)
    requires KeyBuilder(name) !in st.stack
    ensures Get(env, st, name, rank) == (Err(BindNotExist(name)), st)
    ensures GetRoute(env, st, name, rank) == (Err(BindNotExist(name)), st)
  {
  }

  /** `get` refuses a Route bind with DI_GET_ROUTE_FROM_FROM_WRONG_GETTER and changes nothing. */
  lemma GetRefusesRoute(env: Env, st: State, name: string, rank: map<Key, nat>)
    requires WellRanked(env.plans, st.stack, rank)
    requires BoundAs(st, name, Route)
    ensures Get(env, st, name, rank) == (Err(RouteFromWrongGetter(name)), st)
  {
  }

  /** `getRoute` refuses a bind of any other scope with DI_BIND_IS_NOT_ROUTE and changes nothing. */
  lemma GetRouteRefusesOthers(env: Env, st: State, name: string, rank: map<Key, nat>)
    requires WellRanked(env.plans, st.stack, rank)
    requires KeyBuilder(name) in st.stack && st.stack[KeyBuilder(name)].scope != Route
    ensures GetRoute(env, st, name, rank) == (Err(BindIsNotRoute(name)), st)
  {
  }

  /**
   * `getRoute` of a Route bind always constructs: the result is a new object, and the
   * route's own key is neither read from nor written to the singleton cache.
   */
  lemma GetRouteAlwaysFresh(env: Env, st: State, name: string, rank: map<Key, nat>)
    requires WellFormed(st.world) && WellRanked(env.plans, st.stack, rank)
    requires BoundAs(st, name, Route)
    ensures var r := GetRoute(env, st, name, rank);
      && r == CreateInstance(env, st, st.stack[KeyBuilder(name)].value, rank, rank[KeyBuilder(name)])
      && (r.0.Ok? ==> r.0.value.Ref? && st.world.next <= r.0.value.id < r.1.world.next)
      && (KeyBuilder(name) in r.1.singletons <==> KeyBuilder(name) in st.singletons)
  {
    CreateInstanceEvolves(env, st, st.stack[KeyBuilder(name)].value, rank, rank[KeyBuilder(name)]);
  }

  /** Mock and Provides binds never touch the cache: a callable is called once, anything else is handed back. */
  lemma MockAndProvidesDirect(env: Env, st: State, name: string, rank: map<Key, nat>)
    requires WellRanked(env.plans, st.stack, rank)
    requires BoundAs(st, name, Mock) || BoundAs(st, name, Provides)
    ensures var v := st.stack[KeyBuilder(name)].value;
      var r := Get(env, st, name, rank);
      && r.1.singletons == st.singletons
      && (!v.Callable? ==> r == (Ok(v), st))
      && (v.Callable? ==> r == Invoke(env, st, v.f))
  {
  }

  /** `get` of a Mock or Provides bind whose value is not callable returns that value and does nothing else, in any state. */
  lemma PlainValueGet(env: Env, st: State, name: string, rank: map<Key, nat>)
    requires WellRanked(env.plans, st.stack, rank)
    requires BoundAs(st, name, Mock) || BoundAs(st, name, Provides)
    requires !st.stack[KeyBuilder(name)].value.Callable?
    ensures Get(env, st, name, rank) == (Ok(st.stack[KeyBuilder(name)].value), st)
  {
  }

  /** A Transient bind with a callable value calls it on every `get` and never touches the cache. */
  lemma TransientFactory(env: Env, st: State, name: string, rank: map<Key, nat>)
    requires WellRanked(env.plans, st.stack, rank)
    requires BoundAs(st, name, Transient) && st.stack[KeyBuilder(name)].value.Callable?
    ensures var f := st.stack[KeyBuilder(name)].value.f;
      var r := Get(env, st, name, rank);
      && r == Invoke(env, st, f)
      && r.1.singletons == st.singletons
  {
  }

  /** A Transient bind with any other value constructs a new object on every `get` and never caches its own key. */
  lemma TransientConstructs(env: Env, st: State, name: string, rank: map<Key, nat>)
    requires WellFormed(st.world) && WellRanked(env.plans, st.stack, rank)
    requires BoundAs(st, name, Transient) && !st.stack[KeyBuilder(name)].value.Callable?
    ensures var r := Get(env, st, name, rank);
      && r == CreateInstance(env, st, st.stack[KeyBuilder(name)].value, rank, rank[KeyBuilder(name)])
      && (r.0.Ok? ==> r.0.value.Ref? && st.world.next <= r.0.value.id < r.1.world.next)
      && (KeyBuilder(name) in r.1.singletons <==> KeyBuilder(name) in st.singletons)
  {
    CreateInstanceEvolves(env, st, st.stack[KeyBuilder(name)].value, rank, rank[KeyBuilder(name)]);
  }

  /** Two `get`s of a Transient class bind give two different objects. */
  lemma TransientTwiceDistinct(env: Env, st: State, name: string, rank: map<Key, nat>)
    requires WellFormed(st.world) && WellRanked(env.plans, st.stack, rank)
    requires BoundAs(st, name, Transient) && !st.stack[KeyBuilder(name)].value.Callable?
    requires Get(env, st, name, rank).0.Ok?
    requires Get(env, Get(env, st, name, rank).1, name, rank).0.Ok?
    ensures Get(env, st, name, rank).0.value != Get(env, Get(env, st, name, rank).1, name, rank).0.value
  {
    GetEvolves(env, st, name, rank);
    var r1 := Get(env, st, name, rank);
    TransientConstructs(env, st, name, rank);
    TransientConstructs(env, r1.1, name, rank);
  }

  /** A cached Singleton is served from the cache: same value, nothing else happens. */
  lemma SingletonHit(env: Env, st: State, name: string, rank: map<Key, nat>)
    requires WellRanked(env.plans, st.stack, rank)
    requires BoundAs(st, name, Singleton) && KeyBuilder(name) in st.singletons
    ensures Get(env, st, name, rank) == (Ok(st.singletons[KeyBuilder(name)]), st)
  {
  }

  /**
   * On a cache miss of a Singleton with a callable value the factory is called exactly once;
   * a value it returns is cached, a throw caches nothing.
   */
  lemma SingletonMissFactory(env: Env, st: State, name: string, rank: map<Key, nat>)
    requires WellRanked(env.plans, st.stack, rank)
    requires BoundAs(st, name, Singleton) && KeyBuilder(name) !in st.singletons
    requires st.stack[KeyBuilder(name)].value.Callable?
    ensures var f := st.stack[KeyBuilder(name)].value.f;
      var out := env.invoke(f, |st.world.log|);
      var r := Get(env, st, name, rank);
      && r.1.world == st.world.(log := st.world.log + [Invoked(f)])
      && (out.Some? ==> r.0 == Ok(out.value) && r.1.singletons == st.singletons[KeyBuilder(name) := out.value])
      && (out.None? ==> r.0 == Err(FactoryThrew(f)) && r.1.singletons == st.singletons)
  {
  }

  /**
   * On a cache miss of a Singleton with a class value `createInstance` runs exactly once;
   * the object it returns is cached, a failure leaves the key uncached.
   */
  lemma SingletonMissClass(env: Env, st: State, name: string, rank: map<Key, nat>)
    requires WellFormed(st.world) && WellRanked(env.plans, st.stack, rank)
    requires BoundAs(st, name, Singleton) && KeyBuilder(name) !in st.singletons
    requires !st.stack[KeyBuilder(name)].value.Callable?
    ensures var key := KeyBuilder(name);
      var c := CreateInstance(env, st, st.stack[key].value, rank, rank[key]);
      var r := Get(env, st, name, rank);
      && r.0 == c.0 && r.1.world == c.1.world
      && (c.0.Ok? ==> r.1.singletons == c.1.singletons[key := c.0.value])
      && (c.0.Err? ==> r.1 == c.1 && key !in r.1.singletons)
  {
    CreateInstanceEvolves(env, st, st.stack[KeyBuilder(name)].value, rank, rank[KeyBuilder(name)]);
  }

  /** A failed `get` of an uncached Singleton leaves it uncached. */
  lemma SingletonFailureNotCached(env: Env, st: State, name: string, rank: map<Key, nat>)
    requires WellFormed(st.world) && WellRanked(env.plans, st.stack, rank)
    requires BoundAs(st, name, Singleton) && KeyBuilder(name) !in st.singletons
    requires Get(env, st, name, rank).0.Err?
    ensures KeyBuilder(name) !in Get(env, st, name, rank).1.singletons
  {
    if st.stack[KeyBuilder(name)].value.Callable? {
      SingletonMissFactory(env, st, name, rank);
    } else {
      SingletonMissClass(env, st, name, rank);
    }
  }

  /** After a successful `get` of a Singleton, the next `get` returns the identical value and does nothing else. */
  lemma SingletonStable(env: Env, st: State, name: string, rank: map<Key, nat>)
    requires WellFormed(st.world) && WellRanked(env.plans, st.stack, rank)
    requires BoundAs(st, name, Singleton) && Get(env, st, name, rank).0.Ok?
    ensures var r := Get(env, st, name, rank);
      && KeyBuilder(name) in r.1.singletons && r.1.singletons[KeyBuilder(name)] == r.0.value
      && Get(env, r.1, name, rank) == r
  {
    var r := Get(env, st, name, rank);
    if KeyBuilder(name) !in st.singletons {
      if st.stack[KeyBuilder(name)].value.Callable? {
        SingletonMissFactory(env, st, name, rank);
      } else {
        SingletonMissClass(env, st, name, rank);
      }
    }
    SingletonHit(env, r.1, name, rank);
  }

  /** A cached Singleton keeps being served, unchanged, after any other `get`. */
  lemma CachedSurvivesGet(env: Env, st: State, a: string, b: string, rank: map<Key, nat>)
    requires WellFormed(st.world) && WellRanked(env.plans, st.stack, rank)
    requires BoundAs(st, a, Singleton) && KeyBuilder(a) in st.singletons
    ensures var s := Get(env, st, b, rank).1;
      Get(env, s, a, rank) == (Ok(st.singletons[KeyBuilder(a)]), s)
  {
    GetEvolves(env, st, b, rank);
    SingletonHit(env, Get(env, st, b, rank).1, a, rank);
  }

  /** A cached Singleton keeps being served, unchanged, after any `getRoute`. */
  lemma CachedSurvivesGetRoute(env: Env, st: State, a: string, b: string, rank: map<Key, nat>)
    requires WellFormed(st.world) && WellRanked(env.plans, st.stack, rank)
    requires BoundAs(st, a, Singleton) && KeyBuilder(a) in st.singletons
    ensures var s := GetRoute(env, st, b, rank).1;
      Get(env, s, a, rank) == (Ok(st.singletons[KeyBuilder(a)]), s)
  {
    GetRouteEvolves(env, st, b, rank);
    SingletonHit(env, GetRoute(env, st, b, rank).1, a, rank);
  }

  /** Only Singleton binds are ever cached: `get` and `getRoute` keep that invariant. */
  lemma CacheStaysScoped(env: Env, st: State, name: string, rank: map<Key, nat>)
    requires WellFormed(st.world) && WellRanked(env.plans, st.stack, rank)
    requires CacheScoped(st)
    ensures CacheScoped(Get(env, st, name, rank).1)
    ensures CacheScoped(GetRoute(env, st, name, rank).1)
  {
    GetEvolves(env, st, name, rank);
    GetRouteEvolves(env, st, name, rank);
  }
}
