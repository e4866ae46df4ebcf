/**
 * The process-wide part of src/Di/Container.php: the static `selfInstance`, replaced by
 * `build`, dropped by `reset`, and created on demand by the static `get` and `getRoute`.
 * A container is seen here through its two fields; the runtime it creates objects in
 * outlives it.
 */
module Lifecycle {
  import opened Binds
  import opened Keys
  import opened Errors
  import opened Registry
  import opened Resolution

  /**
   * What a new container is built from: the test-mode flag and the binds the files at
   * `$bindsFilePath` and `$routesFilePath` return (empty when a path is null or its file
   * cannot be read).
   */
  datatype Config = Config(testMode: bool, bindsFile: seq<Bind>, routesFile: seq<Bind>)

  /** A container, by its `bindStack` and `singletons`. */
  datatype Instance = Instance(stack: BindStack, singletons: map<Key, Value>)

  /** `new self()`: the bind stack the constructor fills, or the exception that stopped it. */
  function Fresh(cfg: Config): (Result<()>, BindStack) {
    LoadFiles(cfg.testMode, cfg.bindsFile, cfg.routesFile)
  }

  /**
   * `build`: a new container replaces the current one when there is none or binds are
   * supplied, and then the binds are registered in order.  A constructor that throws
   * leaves `selfInstance` as it was; a bind refused part-way leaves the new container
   * in place with what was registered before it.
   */
  function Build(cfg: Config, cur: Option<Instance>, binds: seq<Bind>): (r: (Result<()>, Option<Instance>))
    ensures r.0.Ok? ==> r.1.Some?
  {
    if cur.Some? && |binds| == 0 then (Ok(()), cur)
    else
      var made := Fresh(cfg);
      if made.0.Err? then (made.0, cur)
      else
        var put := PutAll(cfg.testMode, made.1, binds);
        (put.0, Some(Instance(put.1, map[])))
  }

  /** The lazy start of the static `get` and `getRoute`: `build([])` when there is no container. */
  function Ready(cfg: Config, cur: Option<Instance>): (r: (Result<()>, Option<Instance>))
    ensures r.0.Ok? ==> r.1.Some?
  {
    if cur.None? then Build(cfg, cur, []) else (Ok(()), cur)
  }

  /** The rank every bind stack a lookup can meet is well ranked by: the current one, or the one `build([])` would load. */
  predicate RankedFor(plans: map<string, Plan>, cfg: Config, cur: Option<Instance>, rank: map<Key, nat>) {
    && (cur.Some? ==> WellRanked(plans, cur.value.stack, rank))
    && (cur.None? ==> WellRanked(plans, Fresh(cfg).1, rank))
  }

  lemma ReadyRanked(plans: map<string, Plan>, cfg: Config, cur: Option<Instance>, rank: map<Key, nat>)
    requires RankedFor(plans, cfg, cur, rank)
    ensures Ready(cfg, cur).0.Ok? ==> WellRanked(plans, Ready(cfg, cur).1.value.stack, rank)
  {
    if cur.None? {
      assert PutAll(cfg.testMode, Fresh(cfg).1, []) == (Ok(()), Fresh(cfg).1);
    }
  }

  /** The static `get`: make sure there is a container, then resolve the name in it. */
  function StaticGet(env: Env, cfg: Config, cur: Option<Instance>, w: World, name: string, rank: map<Key, nat>)
    : (r: (Result<Value>, Option<Instance>, World))
    requires RankedFor(env.plans, cfg, cur, rank)
  {
    var ready := Ready(cfg, cur);
    if ready.0.Err? then (Err(ready.0.error), ready.1, w)
    else
      ReadyRanked(env.plans, cfg, cur, rank);
      var inst := ready.1.value;
      var g := Get(env, State(inst.stack, inst.singletons, w), name, rank);
      (g.0, Some(Instance(g.1.stack, g.1.singletons)), g.1.world)
  }

  /** The static `getRoute`: make sure there is a container, then build the route in it. */
  function StaticGetRoute(env: Env, cfg: Config, cur: Option<Instance>, w: World, name: string, rank: map<Key, nat>)
    : (r: (Result<Value>, Option<Instance>, World))
    requires RankedFor(env.plans, cfg, cur, rank)
  {
    var ready := Ready(cfg, cur);
    if ready.0.Err? then (Err(ready.0.error), ready.1, w)
    else
      ReadyRanked(env.plans, cfg, cur, rank);
      var inst := ready.1.value;
      var g := GetRoute(env, State(inst.stack, inst.singletons, w), name, rank);
      (g.0, Some(Instance(g.1.stack, g.1.singletons)), g.1.world)
  }

  /** `build([])` with a container in place changes nothing. */
  lemma BuildEmptyKeeps(cfg: Config, inst: Instance)
    ensures Build(cfg, Some(inst), []) == (Ok(()), Some(inst))
  {
  }

  /** When the constructor throws (a file bind is refused) `build` fails with that error and keeps the container it had. */
  lemma BuildConstructorFails(cfg: Config, cur: Option<Instance>, binds: seq<Bind>)
    requires cur.None? || |binds| > 0
    requires Fresh(cfg).0.Err?
    ensures Build(cfg, cur, binds) == (Err(Fresh(cfg).0.error), cur)
  {
  }

  /**
   * A `build` that replaces the container starts from an empty singleton cache and the
   * file binds, whatever the old container cached; when it succeeds the supplied binds
   * have been stored over the file binds one after another, and every supplied name is bound.
   */
  lemma BuildReplaces(cfg: Config, cur: Option<Instance>, binds: seq<Bind>)
    requires cur.None? || |binds| > 0
    requires Fresh(cfg).0.Ok?
    ensures var r := Build(cfg, cur, binds);
      && r.1.Some? && r.1.value.singletons == map[]
      && Fresh(cfg).1.Keys <= r.1.value.stack.Keys
      && (r.0.Ok? ==> r.1.value.stack == Registered(Fresh(cfg).1, binds))
      && (r.0.Ok? ==> forall i :: 0 <= i < |binds| ==> KeyBuilder(binds[i].binds) in r.1.value.stack)
  {
    RegisteredKeys(Fresh(cfg).1, binds);
  }

  /**
   * After a successful replacing `build`, the name of a supplied bind finds that bind unless
   * a later supplied bind has the same key: a later mock overrides an earlier bind.
   */
  lemma BuildLastBindWins(cfg: Config, cur: Option<Instance>, binds: seq<Bind>, i: nat)
    requires cur.None? || |binds| > 0
    requires Fresh(cfg).0.Ok? && Build(cfg, cur, binds).0.Ok?
    requires i < |binds| && forall j :: i < j < |binds| ==> KeyBuilder(binds[j].binds) != KeyBuilder(binds[i].binds)
    ensures GetBindFromStack(Build(cfg, cur, binds).1.value.stack, binds[i].binds) == Ok(binds[i])
  {
    RegisteredStores(Fresh(cfg).1, binds, i);
  }

  /**
   * In test mode, `build` with one mock bind succeeds whenever the files load, and the mock
   * is the bind then found under its name, whatever the files bound there.
   */
  lemma BuildMockVisible(cfg: Config, cur: Option<Instance>, m: Bind)
    requires cfg.testMode && m.scope == Mock && Fresh(cfg).0.Ok?
    ensures Build(cfg, cur, [m]).0.Ok?
    ensures GetBindFromStack(Build(cfg, cur, [m]).1.value.stack, m.binds) == Ok(m)
  {
    assert [m][..0] == [];
    PutMock(cfg.testMode, Fresh(cfg).1, m);
    assert PutAll(cfg.testMode, Fresh(cfg).1, [m]).0.Ok?;
    BuildLastBindWins(cfg, cur, [m], 0);
  }

  /**
   * A supplied bind refused part-way through `build` leaves the new container in place,
   * with an empty cache, holding exactly the file binds and the supplied binds before the
   * refused one; the error is the one that bind raised.
   */
  lemma BuildFailsPartWay(cfg: Config, cur: Option<Instance>, binds: seq<Bind>) returns (i: nat)
    requires cur.None? || |binds| > 0
    requires Fresh(cfg).0.Ok? && Build(cfg, cur, binds).0.Err?
    ensures var r := Build(cfg, cur, binds);
      && i < |binds| && r.1.Some? && r.1.value.singletons == map[]
      && PutAll(cfg.testMode, Fresh(cfg).1, binds[..i]) == (Ok(()), r.1.value.stack)
      && PutBindInStack(cfg.testMode, r.1.value.stack, binds[i]) == Err(r.0.error)
  {
    i := PutAllStopsAtFailure(cfg.testMode, Fresh(cfg).1, binds);
  }

  /**
   * Supplied binds without mocks whose names are new and pairwise different all register:
   * each is found under its own name, and the file binds are kept.
   */
  lemma BuildRegistersAll(cfg: Config, cur: Option<Instance>, binds: seq<Bind>)
    requires cur.None? || |binds| > 0
    requires Fresh(cfg).0.Ok? && NoMocks(binds) && FreshDistinct(Fresh(cfg).1, binds)
    ensures var r := Build(cfg, cur, binds);
      && r.0.Ok? && r.1.Some?
      && (forall i :: 0 <= i < |binds| ==> GetBindFromStack(r.1.value.stack, binds[i].binds) == Ok(binds[i]))
      && (forall k :: k in Fresh(cfg).1 ==> k in r.1.value.stack && r.1.value.stack[k] == Fresh(cfg).1[k])
  {
    PutAllNonMockContents(cfg.testMode, Fresh(cfg).1, binds);
  }

  /**
   * With no container, the static `get` first builds one with no supplied binds and then
   * resolves the name in it; if that constructor throws, `get` fails with its error and
   * nothing changes.
   */
  lemma LazyGet(env: Env, cfg: Config, w: World, name: string, rank: map<Key, nat>)
    requires RankedFor(env.plans, cfg, None, rank)
    ensures Fresh(cfg).0.Err? ==> StaticGet(env, cfg, None, w, name, rank) == (Err(Fresh(cfg).0.error), None, w)
    ensures Fresh(cfg).0.Ok? ==>
      && Build(cfg, None, []) == (Ok(()), Some(Instance(Fresh(cfg).1, map[])))
      && StaticGet(env, cfg, None, w, name, rank) ==
         StaticGet(env, cfg, Some(Instance(Fresh(cfg).1, map[])), w, name, rank)
  {
    assert PutAll(cfg.testMode, Fresh(cfg).1, []) == (Ok(()), Fresh(cfg).1);
  }

  /** The same for the static `getRoute`. */
  lemma LazyGetRoute(env: Env, cfg: Config, w: World, name: string, rank: map<Key, nat>)
    requires RankedFor(env.plans, cfg, None, rank)
    ensures Fresh(cfg).0.Err? ==> StaticGetRoute(env, cfg, None, w, name, rank) == (Err(Fresh(cfg).0.error), None, w)
    ensures Fresh(cfg).0.Ok? ==>
      StaticGetRoute(env, cfg, None, w, name, rank) ==
      StaticGetRoute(env, cfg, Some(Instance(Fresh(cfg).1, map[])), w, name, rank)
  {
    assert PutAll(cfg.testMode, Fresh(cfg).1, []) == (Ok(()), Fresh(cfg).1);
  }

  /**
   * With a container in place, the static `get` is `get` on that container: the same
   * value, the same new cache and runtime, and the bind stack is untouched.
   */
  lemma GetOnExisting(env: Env, cfg: Config, inst: Instance, w: World, name: string, rank: map<Key, nat>)
    requires WellRanked(env.plans, inst.stack, rank)
    ensures var g := Get(env, State(inst.stack, inst.singletons, w), name, rank);
      var r := StaticGet(env, cfg, Some(inst), w, name, rank);
      && r.0 == g.0 && r.2 == g.1.world
      && r.1 == Some(Instance(inst.stack, g.1.singletons))
  {
  }

  /**
   * After `reset`, the static `get` of a name the files bind as a class Singleton constructs
   * it again, in the container `build([])` loads: the object returned has an id at or above
   * the runtime's next id, so it is none of the objects the runtime held before the call.
   */
  lemma GetAfterResetConstructs(env: Env, cfg: Config, w: World, name: string, rank: map<Key, nat>)
    requires WellFormed(w) && RankedFor(env.plans, cfg, None, rank) && Fresh(cfg).0.Ok?
    requires var s := Fresh(cfg).1;
      KeyBuilder(name) in s && s[KeyBuilder(name)].scope == Singleton && !s[KeyBuilder(name)].value.Callable?
    ensures var s := Fresh(cfg).1;
      var c := CreateInstance(env, State(s, map[], w), s[KeyBuilder(name)].value, rank, rank[KeyBuilder(name)]);
      var r := StaticGet(env, cfg, None, w, name, rank);
      && r.0 == c.0 && r.2 == c.1.world
      && (r.0.Ok? ==> r.0.value.Ref? && w.next <= r.0.value.id && r.0.value.id !in w.heap)
  {
    var s := Fresh(cfg).1;
    LazyGet(env, cfg, w, name, rank);
    CreateInstanceEvolves(env, State(s, map[], w), s[KeyBuilder(name)].value, rank, rank[KeyBuilder(name)]);
  }
}
