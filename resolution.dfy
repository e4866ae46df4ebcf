/**
 * The resolution engine of src/Di/Container.php (`get`, `getRoute`, `createInstance`) as
 * functions over an explicit state: the container's bind stack and singleton cache, and the
 * part of the PHP runtime the engine touches (the objects it creates, and a log of the
 * calls it makes into user code).  Reflection is replaced by an injection plan per class.
 */
module Resolution {
  import opened Binds
  import opened Keys
  import opened Errors
  import opened Registry

  datatype Visibility = Public | Protected | Private

  /** A declared property: its name, the type name resolved for it, its visibility and whether it carries `#[Inject]`. */
  datatype Property = Property(name: string, typeName: string, visibility: Visibility, inject: bool)

  /**
   * What reflection tells `createInstance` about a class: the type names of its
   * constructor parameters in declared order, all its properties in declared order,
   * whether it implements IDIEvents, and whether its constructor throws.
   */
  datatype Plan = Plan(ctorParams: seq<string>, properties: seq<Property>, hasEvents: bool, ctorThrows: bool)

  /**
   * The collaborators outside the container: the plan of every known class, and the
   * outcome of calling a factory (`None` when it throws), which may depend on how many
   * calls into user code happened before.
   */
  datatype Env = Env(plans: map<string, Plan>, invoke: (FactoryId, nat) -> Option<Value>)

  /** An object created by `createInstance`: its class, its constructor arguments and its injected fields. */
  datatype Object = Object(cls: string, args: seq<Value>, fields: map<string, Value>)

  /** The calls the engine makes into user code, and the object each concerns. */
  datatype Event =
    | Invoked(f: FactoryId)
    | Constructed(id: ObjId, cls: string)
    | AfterCreated(id: ObjId)
    | Injected(id: ObjId, field: string)
    | BeforeReturn(id: ObjId)

  /** The runtime: objects by id, the next id to hand out, and the log of calls into user code. */
  datatype World = World(heap: map<ObjId, Object>, next: ObjId, log: seq<Event>)

  /** The container fields `bindStack` and `singletons`, with the runtime they act on. */
  datatype State = State(stack: BindStack, singletons: map<Key, Value>, world: World)

  predicate WellFormed(w: World) {
    forall id :: id in w.heap ==> id < w.next
  }

  /** An event is a factory call or concerns an object with an id in [lo, hi). */
  predicate Within(e: Event, lo: nat, hi: nat) {
    e.Invoked? || lo <= e.id < hi
  }

  /** The runtime only grows: no object changes, ids go up, the log is extended by events about new objects. */
  predicate Grows(a: World, b: World) {
    && a.next <= b.next
    && (forall id :: id in a.heap ==> id in b.heap && b.heap[id] == a.heap[id])
    && a.log <= b.log
    && (forall i :: |a.log| <= i < |b.log| ==> Within(b.log[i], a.next, b.next))
  }

  /** What a resolution may do to the state: the bind stack is untouched, cached singletons stay, the runtime grows. */
  predicate Evolves(a: State, b: State) {
    b.stack == a.stack && CacheGrows(a, b) && Grows(a.world, b.world)
  }

  /** Cached singletons are never dropped or replaced. */
  predicate CacheGrows(a: State, b: State) {
    forall k :: k in a.singletons ==> k in b.singletons && b.singletons[k] == a.singletons[k]
  }

  /** Every key newly cached from `a` to `b` ranks below `bound` and is bound as a Singleton. */
  predicate CacheBelow(a: State, b: State, rank: map<Key, nat>, bound: nat) {
    forall k :: k in b.singletons && k !in a.singletons ==>
      k in rank && rank[k] < bound && k in b.stack && b.stack[k].scope == Singleton
  }

  predicate DepsBelow(stack: BindStack, rank: map<Key, nat>, names: seq<string>, bound: nat) {
    forall i :: 0 <= i < |names| && KeyBuilder(names[i]) in stack ==>
      KeyBuilder(names[i]) in rank && rank[KeyBuilder(names[i])] < bound
  }

  predicate PropsBelow(stack: BindStack, rank: map<Key, nat>, props: seq<Property>, bound: nat) {
    forall i :: 0 <= i < |props| && props[i].inject && KeyBuilder(props[i].typeName) in stack ==>
      KeyBuilder(props[i].typeName) in rank && rank[KeyBuilder(props[i].typeName)] < bound
  }

  /** Every dependency of the class `v` names that is bound ranks below `bound`. */
  predicate ClassBelow(plans: map<string, Plan>, stack: BindStack, rank: map<Key, nat>, v: Value, bound: nat) {
    v.Text? && v.s in plans ==>
      DepsBelow(stack, rank, plans[v.s].ctorParams, bound) && PropsBelow(stack, rank, plans[v.s].properties, bound)
  }

  /**
   * The dependency graph is acyclic, witnessed by a rank: a bind that constructs a class
   * outranks every bound dependency of that class.  The source has no cycle detection: on a
   * cycle PHP stops with a fatal memory or stack error.  This is what its callers must ensure.
   */
  predicate WellRanked(plans: map<string, Plan>, stack: BindStack, rank: map<Key, nat>) {
    forall k :: k in stack ==>
      k in rank && (stack[k].scope != Mock && stack[k].scope != Provides ==> ClassBelow(plans, stack, rank, stack[k].value, rank[k]))
  }

  function GetRank(stack: BindStack, rank: map<Key, nat>, name: string): nat {
    var key := KeyBuilder(name);
    if key in stack && key in rank then rank[key] else 0
  }

  function AfterHook(plan: Plan, id: ObjId): seq<Event> {
    if plan.hasEvents then [AfterCreated(id)] else []
  }

  function BeforeHook(plan: Plan, id: ObjId): seq<Event> {
    if plan.hasEvents then [BeforeReturn(id)] else []
  }

  function Emit(st: State, events: seq<Event>): State {
    st.(world := st.world.(log := st.world.log + events))
  }

  /** `call_user_func($value)`: one call into the factory, logged. */
  function Invoke(env: Env, st: State, f: FactoryId): (r: (Result<Value>, State))
    ensures r.1 == Emit(st, [Invoked(f)])
  {
    var st' := Emit(st, [Invoked(f)]);
    match env.invoke(f, |st.world.log|)
    case Some(v) => (Ok(v), st')
    case None => (Err(FactoryThrew(f)), st')
  }

  /** `is_callable($value) ? call_user_func($value) : $value`. */
  function CallOrReturn(env: Env, st: State, v: Value): (r: (Result<Value>, State)) {
    if v.Callable? then Invoke(env, st, v.f) else (Ok(v), st)
  }

  /**
   * What every step of resolution keeps, and its recursion relies on: the bind stack,
   * every object allocated so far, and the log so far (at least in length).
   */
  predicate Keeps(a: State, b: State) {
    b.stack == a.stack && a.world.heap.Keys <= b.world.heap.Keys && |a.world.log| <= |b.world.log|
  }

  /** `Container::get`: resolve a name by the scope of its bind. */
  function Get(env: Env, st: State, name: string, rank: map<Key, nat>): (r: (Result<Value>, State))
    requires WellRanked(env.plans, st.stack, rank)
    ensures Keeps(st, r.1)
    decreases GetRank(st.stack, rank, name), if KeyBuilder(name) in st.stack then 4 else 0, 0
  {
    var found := GetBindFromStack(st.stack, name);
    if found.Err? then (Err(found.error), st)
    else
      var key := KeyBuilder(name);
      var b := found.value;
      if b.GetScope() == Mock || b.GetScope() == Provides then CallOrReturn(env, st, b.GetValue())
      else if b.GetScope() == Route then (Err(RouteFromWrongGetter(name)), st)
      else if b.GetScope() == Singleton then
        if key in st.singletons then (Ok(st.singletons[key]), st)
        else
          var (v, st') :=
            if b.GetValue().Callable? then Invoke(env, st, b.GetValue().f)
            else CreateInstance(env, st, b.GetValue(), rank, rank[key]);
          if v.Err? then (v, st')
          else (v, st'.(singletons := st'.singletons[key := v.value]))
      else if b.GetValue().Callable? then Invoke(env, st, b.GetValue().f)
      else CreateInstance(env, st, b.GetValue(), rank, rank[key])
  }

  /** `Container::getRoute`: only Route binds, always constructed afresh. */
  function GetRoute(env: Env, st: State, name: string, rank: map<Key, nat>): (r: (Result<Value>, State))
    requires WellRanked(env.plans, st.stack, rank)
    ensures Keeps(st, r.1)
  {
    var found := GetBindFromStack(st.stack, name);
    if found.Err? then (Err(found.error), st)
    else if found.value.GetScope() != Route then (Err(BindIsNotRoute(name)), st)
    else CreateInstance(env, st, found.value.GetValue(), rank, rank[KeyBuilder(name)])
  }

  /** The allocation of `newInstanceArgs`, followed by the log of the constructor call and of `afterInstanceCreated`. */
  function Construct(st: State, cls: string, args: seq<Value>, plan: Plan): State {
    var id := st.world.next;
    State(st.stack, st.singletons,
      World(st.world.heap[id := Object(cls, args, map[])], id + 1,
            st.world.log + [Constructed(id, cls)] + AfterHook(plan, id)))
  }

  /**
   * `createInstance`: resolve the constructor parameters in order, construct, run
   * `afterInstanceCreated`, inject the `#[Inject]` properties in order, run
   * `beforeReturnInstance`.  A failure anywhere is passed on as it is.
   */
  function CreateInstance(env: Env, st: State, v: Value, rank: map<Key, nat>, bound: nat): (r: (Result<Value>, State))
    requires WellRanked(env.plans, st.stack, rank)
    requires ClassBelow(env.plans, st.stack, rank, v, bound)
    ensures Keeps(st, r.1)
    decreases bound, 3, 0
  {
    if !v.Text? || v.s !in env.plans then (Err(ClassNotFound(v)), st)
    else
      var plan := env.plans[v.s];
      var ra := ResolveArgs(env, st, plan.ctorParams, rank, bound);
      if ra.0.Err? then (Err(ra.0.error), ra.1)
      else if plan.ctorThrows then (Err(ConstructorThrew(v.s)), ra.1)
      else Instantiate(env, ra.1, v.s, ra.0.value, plan, rank, bound)
  }

  /** The part of `createInstance` after the arguments are resolved: construct, hook, inject, hook. */
  function Instantiate(env: Env, st: State, cls: string, args: seq<Value>, plan: Plan, rank: map<Key, nat>, bound: nat): (r: (Result<Value>, State))
    requires WellRanked(env.plans, st.stack, rank)
    requires PropsBelow(st.stack, rank, plan.properties, bound)
    ensures Keeps(st, r.1)
    decreases bound, 2, 0
  {
    var id := st.world.next;
    var ri := InjectProps(env, Construct(st, cls, args, plan), id, plan.properties, rank, bound);
    if ri.0.Err? then (Err(ri.0.error), ri.1)
    else (Ok(Ref(id)), Emit(ri.1, BeforeHook(plan, id)))
  }

  /** Resolve `names` through `get`, in order, collecting the results. */
  function ResolveArgs(env: Env, st: State, names: seq<string>, rank: map<Key, nat>, bound: nat): (r: (Result<seq<Value>>, State))
    requires WellRanked(env.plans, st.stack, rank)
    requires DepsBelow(st.stack, rank, names, bound)
    ensures Keeps(st, r.1)
    ensures r.0.Ok? ==> |r.0.value| == |names|
    decreases bound, 1, |names|
  {
    if names == [] then (Ok([]), st)
    else
      var (init, s1) := ResolveArgs(env, st, names[..|names| - 1], rank, bound);
      if init.Err? then (Err(init.error), s1)
      else
        var (v, s2) := Get(env, s1, names[|names| - 1], rank);
        if v.Err? then (Err(v.error), s2) else (Ok(init.value + [v.value]), s2)
  }

  /** `setAccessible(true); setValue($instance, ...)`: assign a field of `id` whatever its visibility, logged. */
  function SetField(st: State, id: ObjId, field: string, v: Value): State
    requires id in st.world.heap
  {
    var obj := st.world.heap[id];
    State(st.stack, st.singletons,
      World(st.world.heap[id := obj.(fields := obj.fields[field := v])], st.world.next, st.world.log + [Injected(id, field)]))
  }

  /** The property loop of `createInstance`: each `#[Inject]` property, whatever its visibility, gets `get` of its type. */
  function InjectProps(env: Env, st: State, id: ObjId, props: seq<Property>, rank: map<Key, nat>, bound: nat): (r: (Result<()>, State))
    requires WellRanked(env.plans, st.stack, rank)
    requires PropsBelow(st.stack, rank, props, bound) && id in st.world.heap
    ensures Keeps(st, r.1)
    decreases bound, 1, |props|
  {
    if props == [] then (Ok(()), st)
    else
      var r1 := InjectProps(env, st, id, props[..|props| - 1], rank, bound);
      if r1.0.Err? then r1
      else InjectOne(env, r1.1, id, props[|props| - 1], rank, bound)
  }

  /** One step of the property loop: a property without `#[Inject]` is skipped, one with it gets `get` of its type. */
  function InjectOne(env: Env, st: State, id: ObjId, p: Property, rank: map<Key, nat>, bound: nat): (r: (Result<()>, State))
    requires WellRanked(env.plans, st.stack, rank) && id in st.world.heap
    requires p.inject && KeyBuilder(p.typeName) in st.stack ==> KeyBuilder(p.typeName) in rank && rank[KeyBuilder(p.typeName)] < bound
    ensures Keeps(st, r.1)
    decreases bound, 1, 0
  {
    if !p.inject then (Ok(()), st)
    else
      var rg := Get(env, st, p.typeName, rank);
      if rg.0.Err? then (Err(rg.0.error), rg.1)
      else (Ok(()), SetField(rg.1, id, p.name, rg.0.value))
  }

  lemma CacheTrans(a: State, b: State, c: State, rank: map<Key, nat>, bound: nat)
    requires CacheGrows(a, b) && CacheGrows(b, c) && b.stack == c.stack
    requires CacheBelow(a, b, rank, bound) && CacheBelow(b, c, rank, bound)
    ensures CacheGrows(a, c) && CacheBelow(a, c, rank, bound)
  {
  }
  /** Like `Grows`, except that object `id` may gain fields and events about `id` may be logged. */
  predicate GrowsAround(a: World, b: World, id: ObjId) {
    && a.next <= b.next
    && (forall o :: o in a.heap && o != id ==> o in b.heap && b.heap[o] == a.heap[o])
    && a.log <= b.log
    && (forall i :: |a.log| <= i < |b.log| ==> Within(b.log[i], a.next, b.next) || (!b.log[i].Invoked? && b.log[i].id == id))
  }
  lemma GrowsTrans(a: World, b: World, c: World)
    requires Grows(a, b) && Grows(b, c)
    ensures Grows(a, c)
  {
    forall i | |a.log| <= i < |c.log| ensures Within(c.log[i], a.next, c.next) {
      if i < |b.log| { assert c.log[i] == b.log[i]; }
    }
  }
  lemma AroundTrans(a: World, b: World, c: World, id: ObjId)
    requires GrowsAround(a, b, id) && GrowsAround(b, c, id)
    ensures GrowsAround(a, c, id)
  {
    forall i | |a.log| <= i < |c.log|
      ensures Within(c.log[i], a.next, c.next) || (!c.log[i].Invoked? && c.log[i].id == id)
    {
      if i < |b.log| { assert c.log[i] == b.log[i]; }
    }
  }
  /** Allocation, injection and the last hook together grow the runtime. */
  lemma CreateGrows(w1: World, w2: World, w3: World, id: ObjId, evs: seq<Event>)
    requires WellFormed(w1) && id == w1.next
    requires Grows(w1, w2) && w2.next == id + 1
    requires GrowsAround(w2, w3, id)
    requires forall j :: 0 <= j < |evs| ==> !evs[j].Invoked? && evs[j].id == id
    ensures Grows(w1, World(w3.heap, w3.next, w3.log + evs))
  {
    var w4 := World(w3.heap, w3.next, w3.log + evs);
    forall o | o in w1.heap ensures o in w4.heap && w4.heap[o] == w1.heap[o] {
      assert o < id;
    }
    forall i | |w1.log| <= i < |w4.log| ensures Within(w4.log[i], w1.next, w4.next) {
      if i < |w2.log| {
        assert w4.log[i] == w2.log[i];
      } else if i < |w3.log| {
        assert w4.log[i] == w3.log[i];
      } else {
        assert w4.log[i] == evs[i - |w3.log|];
      }
    }
  }
  /** The names of the properties that carry `#[Inject]`. */
  function InjectedNames(props: seq<Property>): set<string> {
    set i | 0 <= i < |props| && props[i].inject :: props[i].name
  }
  /** What the property loop may do: the same as `Evolves`, except on the object being injected. */
  predicate InjectEvolves(a: State, b: State, id: ObjId) {
    && b.stack == a.stack && CacheGrows(a, b) && GrowsAround(a.world, b.world, id)
    && id in a.world.heap && id in b.world.heap
    && b.world.heap[id].cls == a.world.heap[id].cls && b.world.heap[id].args == a.world.heap[id].args
  }
  lemma InjectedNamesSnoc(props: seq<Property>)
    requires props != []
    ensures var p := props[|props| - 1];
      InjectedNames(props) == InjectedNames(props[..|props| - 1]) + (if p.inject then {p.name} else {})
  {
    var init := props[..|props| - 1];
    assert forall i :: 0 <= i < |init| ==> init[i] == props[i];
  }
  /** Allocation keeps every object, adds one under a new id and logs only about that one. */
  lemma ConstructGrows(st: State, cls: string, args: seq<Value>, plan: Plan)
    requires WellFormed(st.world)
    ensures var r := Construct(st, cls, args, plan);
      && WellFormed(r.world) && Evolves(st, r) && r.singletons == st.singletons
      && r.world.next == st.world.next + 1 && st.world.next in r.world.heap
  {
  }

  /** Assigning a field changes only that object and logs only about it. */
  lemma SetFieldGrows(st: State, id: ObjId, field: string, v: Value)
    requires WellFormed(st.world) && id in st.world.heap
    ensures var r := SetField(st, id, field, v);
      && WellFormed(r.world) && r.stack == st.stack && r.singletons == st.singletons
      && GrowsAround(st.world, r.world, id)
      && id in r.world.heap && r.world.heap[id] == st.world.heap[id].(fields := st.world.heap[id].fields[field := v])
  {
  }

  /**
   * What `get` may do to the state: the bind stack is untouched, cached singletons stay,
   * the runtime only grows, and every key it newly caches is a Singleton bind ranked no
   * higher than the name's own.
   */
  lemma {:induction false} GetEvolves(env: Env, st: State, name: string, rank: map<Key, nat>)
    requires WellFormed(st.world) && WellRanked(env.plans, st.stack, rank)
    ensures var r := Get(env, st, name, rank);
      WellFormed(r.1.world) && Evolves(st, r.1) && CacheBelow(st, r.1, rank, GetRank(st.stack, rank, name) + 1)
    decreases GetRank(st.stack, rank, name), if KeyBuilder(name) in st.stack then 4 else 0, 0
  {
    var key := KeyBuilder(name);
    if key in st.stack {
      var b := st.stack[key];
      if (b.scope == Transient || (b.scope == Singleton && key !in st.singletons)) && !b.value.Callable? {
        CreateInstanceEvolves(env, st, b.value, rank, rank[key]);
      }
    }
  }

  /** What `getRoute` may do to the state: as `get`, with newly cached keys ranked below the route's. */
  lemma GetRouteEvolves(env: Env, st: State, name: string, rank: map<Key, nat>)
    requires WellFormed(st.world) && WellRanked(env.plans, st.stack, rank)
    ensures var r := GetRoute(env, st, name, rank);
      WellFormed(r.1.world) && Evolves(st, r.1) && CacheBelow(st, r.1, rank, GetRank(st.stack, rank, name))
  {
    var key := KeyBuilder(name);
    if key in st.stack && st.stack[key].scope == Route {
      CreateInstanceEvolves(env, st, st.stack[key].value, rank, rank[key]);
    }
  }

  /** What `createInstance` may do to the state; an object it returns is one it allocated. */
  lemma {:induction false} CreateInstanceEvolves(env: Env, st: State, v: Value, rank: map<Key, nat>, bound: nat)
    requires WellFormed(st.world) && WellRanked(env.plans, st.stack, rank)
    requires ClassBelow(env.plans, st.stack, rank, v, bound)
    ensures var r := CreateInstance(env, st, v, rank, bound);
      && WellFormed(r.1.world) && Evolves(st, r.1) && CacheBelow(st, r.1, rank, bound)
      && (r.0.Ok? ==> r.0.value.Ref? && st.world.next <= r.0.value.id < r.1.world.next)
    decreases bound, 3, 0
  {
    if v.Text? && v.s in env.plans {
      var plan := env.plans[v.s];
      var ra := ResolveArgs(env, st, plan.ctorParams, rank, bound);
      ResolveArgsEvolves(env, st, plan.ctorParams, rank, bound);
      if ra.0.Ok? && !plan.ctorThrows {
        var rb := Instantiate(env, ra.1, v.s, ra.0.value, plan, rank, bound);
        InstantiateEvolves(env, ra.1, v.s, ra.0.value, plan, rank, bound);
        GrowsTrans(st.world, ra.1.world, rb.1.world);
        CacheTrans(st, ra.1, rb.1, rank, bound);
      }
    }
  }

  /** What the second half of `createInstance` may do; on success it returns the object it allocated first. */
  lemma {:induction false} InstantiateEvolves(env: Env, st: State, cls: string, args: seq<Value>, plan: Plan, rank: map<Key, nat>, bound: nat)
    requires WellFormed(st.world) && WellRanked(env.plans, st.stack, rank)
    requires PropsBelow(st.stack, rank, plan.properties, bound)
    ensures var r := Instantiate(env, st, cls, args, plan, rank, bound);
      && WellFormed(r.1.world) && Evolves(st, r.1) && CacheBelow(st, r.1, rank, bound)
      && (r.0.Ok? ==> r.0.value == Ref(st.world.next) && st.world.next < r.1.world.next)
    decreases bound, 2, 0
  {
    var id := st.world.next;
    var st2 := Construct(st, cls, args, plan);
    ConstructGrows(st, cls, args, plan);
    var ri := InjectProps(env, st2, id, plan.properties, rank, bound);
    InjectPropsEvolves(env, st2, id, plan.properties, rank, bound);
    var evs := if ri.0.Err? then [] else BeforeHook(plan, id);
    CreateGrows(st.world, st2.world, ri.1.world, id, evs);
    assert ri.1.world.log + [] == ri.1.world.log;
  }

  /** What the constructor-parameter loop may do to the state. */
  lemma {:induction false} ResolveArgsEvolves(env: Env, st: State, names: seq<string>, rank: map<Key, nat>, bound: nat)
    requires WellFormed(st.world) && WellRanked(env.plans, st.stack, rank)
    requires DepsBelow(st.stack, rank, names, bound)
    ensures var r := ResolveArgs(env, st, names, rank, bound);
      WellFormed(r.1.world) && Evolves(st, r.1) && CacheBelow(st, r.1, rank, bound)
    decreases bound, 1, |names|
  {
    if names != [] {
      var init, last := names[..|names| - 1], names[|names| - 1];
      var r1 := ResolveArgs(env, st, init, rank, bound);
      ResolveArgsEvolves(env, st, init, rank, bound);
      if r1.0.Ok? {
        var r2 := Get(env, r1.1, last, rank);
        GetEvolves(env, r1.1, last, rank);
        GrowsTrans(st.world, r1.1.world, r2.1.world);
        CacheTrans(st, r1.1, r2.1, rank, bound);
      }
    }
  }

  /** What the property loop may do to the state: the object being injected may change, and only in its fields. */
  lemma {:induction false} InjectPropsEvolves(env: Env, st: State, id: ObjId, props: seq<Property>, rank: map<Key, nat>, bound: nat)
    requires WellFormed(st.world) && WellRanked(env.plans, st.stack, rank)
    requires PropsBelow(st.stack, rank, props, bound) && id in st.world.heap
    ensures var r := InjectProps(env, st, id, props, rank, bound);
      WellFormed(r.1.world) && CacheBelow(st, r.1, rank, bound) && InjectEvolves(st, r.1, id)
    decreases bound, 1, |props|
  {
    if props != [] {
      var init, p := props[..|props| - 1], props[|props| - 1];
      var r1 := InjectProps(env, st, id, init, rank, bound);
      InjectPropsEvolves(env, st, id, init, rank, bound);
      if r1.0.Ok? {
        var r2 := InjectOne(env, r1.1, id, p, rank, bound);
        InjectOneEvolves(env, r1.1, id, p, rank, bound);
        CacheTrans(st, r1.1, r2.1, rank, bound);
        AroundTrans(st.world, r1.1.world, r2.1.world, id);
      }
    }
  }

  /** What one round of the property loop may do to the state. */
  lemma {:induction false} InjectOneEvolves(env: Env, st: State, id: ObjId, p: Property, rank: map<Key, nat>, bound: nat)
    requires WellFormed(st.world) && WellRanked(env.plans, st.stack, rank) && id in st.world.heap
    requires p.inject && KeyBuilder(p.typeName) in st.stack ==> KeyBuilder(p.typeName) in rank && rank[KeyBuilder(p.typeName)] < bound
    ensures var r := InjectOne(env, st, id, p, rank, bound);
      WellFormed(r.1.world) && CacheBelow(st, r.1, rank, bound) && InjectEvolves(st, r.1, id)
    decreases bound, 1, 0
  {
    if p.inject {
      var rg := Get(env, st, p.typeName, rank);
      GetEvolves(env, st, p.typeName, rank);
      if rg.0.Ok? {
        var s3 := SetField(rg.1, id, p.name, rg.0.value);
        SetFieldGrows(rg.1, id, p.name, rg.0.value);
        AroundTrans(st.world, rg.1.world, s3.world, id);
      }
    }
  }

  /** Once a prefix of the constructor parameters fails, the remaining ones are never resolved. */
  lemma {:induction false} ResolveArgsSticky(env: Env, st: State, names: seq<string>, rank: map<Key, nat>, bound: nat, n: nat)
    requires WellRanked(env.plans, st.stack, rank)
    requires DepsBelow(st.stack, rank, names, bound) && n <= |names|
    requires DepsBelow(st.stack, rank, names[..n], bound)
    requires ResolveArgs(env, st, names[..n], rank, bound).0.Err?
    ensures ResolveArgs(env, st, names, rank, bound) == ResolveArgs(env, st, names[..n], rank, bound)
    decreases |names| - n
  {
    if n < |names| {
      assert names[..n + 1][..n] == names[..n];
      assert DepsBelow(st.stack, rank, names[..n + 1], bound) by {
        assert forall i :: 0 <= i < n + 1 ==> names[..n + 1][i] == names[i];
      }
      ResolveArgsSticky(env, st, names, rank, bound, n + 1);
    } else {
      assert names[..n] == names;
    }
  }

  /** Once a prefix of the properties fails, the remaining ones are never injected. */
  lemma {:induction false} InjectPropsSticky(env: Env, st: State, id: ObjId, props: seq<Property>, rank: map<Key, nat>, bound: nat, n: nat)
    requires WellRanked(env.plans, st.stack, rank) && id in st.world.heap
    requires PropsBelow(st.stack, rank, props, bound) && n <= |props|
    requires PropsBelow(st.stack, rank, props[..n], bound)
    requires InjectProps(env, st, id, props[..n], rank, bound).0.Err?
    ensures InjectProps(env, st, id, props, rank, bound) == InjectProps(env, st, id, props[..n], rank, bound)
    decreases |props| - n
  {
    if n < |props| {
      assert props[..n + 1][..n] == props[..n];
      assert PropsBelow(st.stack, rank, props[..n + 1], bound) by {
        assert forall i :: 0 <= i < n + 1 ==> props[..n + 1][i] == props[i];
      }
      InjectPropsSticky(env, st, id, props, rank, bound, n + 1);
    } else {
      assert props[..n] == props;
    }
  }

  /** One more round of the constructor-parameter loop: a `get` of the next name after the rounds so far. */
  lemma ResolveArgsStep(env: Env, st: State, names: seq<string>, rank: map<Key, nat>, bound: nat, i: nat)
    requires WellRanked(env.plans, st.stack, rank)
    requires DepsBelow(st.stack, rank, names, bound) && i < |names|
    ensures DepsBelow(st.stack, rank, names[..i], bound) && DepsBelow(st.stack, rank, names[..i + 1], bound)
    ensures var r1 := ResolveArgs(env, st, names[..i], rank, bound);
      var rg := Get(env, r1.1, names[i], rank);
      r1.0.Ok? ==>
        ResolveArgs(env, st, names[..i + 1], rank, bound) ==
          (if rg.0.Err? then (Err(rg.0.error), rg.1) else (Ok(r1.0.value + [rg.0.value]), rg.1))
  {
    assert names[..i + 1][..i] == names[..i];
    assert forall k :: 0 <= k < i + 1 ==> names[..i + 1][k] == names[k];
  }

  /**
   * One more round of the property loop: after rounds that succeeded, `InjectOne` of the
   * next property may run, and what it does is what the loop with one more round does.
   */
  lemma InjectPropsStep(env: Env, st: State, id: ObjId, props: seq<Property>, rank: map<Key, nat>, bound: nat, j: nat)
    requires WellRanked(env.plans, st.stack, rank) && id in st.world.heap
    requires PropsBelow(st.stack, rank, props, bound) && j < |props|
    requires PropsBelow(st.stack, rank, props[..j], bound) && InjectProps(env, st, id, props[..j], rank, bound).0.Ok?
    ensures PropsBelow(st.stack, rank, props[..j + 1], bound)
    ensures var s := InjectProps(env, st, id, props[..j], rank, bound).1;
      && s.stack == st.stack && id in s.world.heap
      && (props[j].inject && KeyBuilder(props[j].typeName) in s.stack ==>
            KeyBuilder(props[j].typeName) in rank && rank[KeyBuilder(props[j].typeName)] < bound)
      && InjectProps(env, st, id, props[..j + 1], rank, bound) == InjectOne(env, s, id, props[j], rank, bound)
  {
    assert props[..j + 1][..j] == props[..j];
    assert forall k :: 0 <= k < j + 1 ==> props[..j + 1][k] == props[k];
  }


  /** After rounds of the property loop that succeeded, the next round may run. */
  lemma InjectPropsReady(env: Env, st: State, id: ObjId, props: seq<Property>, rank: map<Key, nat>, bound: nat, j: nat)
    requires WellRanked(env.plans, st.stack, rank) && id in st.world.heap
    requires PropsBelow(st.stack, rank, props, bound) && j < |props|
    requires PropsBelow(st.stack, rank, props[..j], bound)
    ensures var s := InjectProps(env, st, id, props[..j], rank, bound).1;
      && s.stack == st.stack && id in s.world.heap
      && (props[j].inject && KeyBuilder(props[j].typeName) in s.stack ==>
            KeyBuilder(props[j].typeName) in rank && rank[KeyBuilder(props[j].typeName)] < bound)
  {
  }

  /**
   * Closing a round of the constructor-parameter loop: the `get` of the next name is the
   * loop with one more round, and if it failed, what the whole loop does.
   */
  lemma ResolveArgsAdvance(env: Env, st: State, names: seq<string>, rank: map<Key, nat>, bound: nat, i: nat,
                           args: seq<Value>, before: State, a: Result<Value>, after: State)
    requires WellRanked(env.plans, st.stack, rank)
    requires DepsBelow(st.stack, rank, names, bound) && i < |names|
    requires DepsBelow(st.stack, rank, names[..i], bound)
    requires ResolveArgs(env, st, names[..i], rank, bound) == (Ok(args), before)
    requires (a, after) == Get(env, before, names[i], rank)
    ensures DepsBelow(st.stack, rank, names[..i + 1], bound)
    ensures a.Ok? ==> ResolveArgs(env, st, names[..i + 1], rank, bound) == (Ok(args + [a.value]), after)
    ensures a.Err? ==> ResolveArgs(env, st, names, rank, bound) == (Err(a.error), after)
  {
    ResolveArgsStep(env, st, names, rank, bound, i);
    if a.Err? {
      ResolveArgsSticky(env, st, names, rank, bound, i + 1);
    }
  }
}
