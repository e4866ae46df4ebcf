/**
 * What `createInstance` of src/Di/Container.php promises: constructor parameters resolved
 * through `get` in declared order and passed in that order, `afterInstanceCreated` right
 * after construction and before any injection, exactly the `#[Inject]` properties assigned
 * in declared order, `beforeReturnInstance` last, and failures passed on unchanged.
 */
module ConstructionFacts {
  import opened Binds
  import opened Keys
  import opened Errors
  import opened Registry
  import opened Resolution
  import opened ResolutionFacts

  /** The event concerns object `id` (every event but a factory call concerns one object). */
  predicate About(e: Event, id: ObjId) {
    !e.Invoked? && e.id == id
  }

  /** The events of `log` about object `id`, in order. */
  function EventsAbout(log: seq<Event>, id: ObjId): seq<Event> {
    if log == [] then []
    else EventsAbout(log[..|log| - 1], id) + (if About(log[|log| - 1], id) then [log[|log| - 1]] else [])
  }

  /** The injection events `createInstance` logs for the properties `props` of object `id`, in declared order. */
  function InjectedEvents(id: ObjId, props: seq<Property>): seq<Event> {
    if props == [] then []
    else
      var p := props[|props| - 1];
      InjectedEvents(id, props[..|props| - 1]) + (if p.inject then [Injected(id, p.name)] else [])
  }

  lemma {:induction false} EventsAboutConcat(a: seq<Event>, b: seq<Event>, id: ObjId)
    ensures EventsAbout(a + b, id) == EventsAbout(a, id) + EventsAbout(b, id)
  {
    if b != [] {
      assert (a + b)[..|a + b| - 1] == a + b[..|b| - 1];
      assert (a + b)[|a + b| - 1] == b[|b| - 1];
      EventsAboutConcat(a, b[..|b| - 1], id);
    } else {
      assert a + b == a;
    }
  }

  lemma {:induction false} EventsAboutNone(log: seq<Event>, id: ObjId)
    requires forall i :: 0 <= i < |log| ==> !About(log[i], id)
    ensures EventsAbout(log, id) == []
  {
    if log != [] {
      EventsAboutNone(log[..|log| - 1], id);
    }
  }

  lemma {:induction false} EventsAboutAll(log: seq<Event>, id: ObjId)
    requires forall i :: 0 <= i < |log| ==> About(log[i], id)
    ensures EventsAbout(log, id) == log
  {
    if log != [] {
      EventsAboutAll(log[..|log| - 1], id);
    }
  }

  /** Events about `id` that a runtime step logs, when `id` lies outside the ids that step allocates: none. */
  lemma GrowsNothingAbout(a: World, b: World, id: ObjId)
    requires Grows(a, b) && (id < a.next || b.next <= id)
    ensures |a.log| <= |b.log| && EventsAbout(b.log[|a.log|..], id) == []
  {
    var seg := b.log[|a.log|..];
    forall i | 0 <= i < |seg| ensures !About(seg[i], id) {
      assert seg[i] == b.log[|a.log| + i];
    }
    EventsAboutNone(seg, id);
  }

  /** A log slice from `a` on splits where the log passed through `b`. */
  lemma SegmentSplit(a: seq<Event>, b: seq<Event>, c: seq<Event>)
    requires a <= b <= c
    ensures c[|a|..] == b[|a|..] + c[|b|..]
  {
  }

  lemma UnionStep<T>(a: set<T>, b: set<T>, c: set<T>, x: set<T>, y: set<T>)
    requires b == a + x && c == b + y
    ensures c == a + (x + y)
  {
  }

  /** The property loop assigns exactly the `#[Inject]` properties, whatever their visibility. */
  lemma {:induction false} InjectPropsFields(env: Env, st: State, id: ObjId, props: seq<Property>, rank: map<Key, nat>, bound: nat)
    requires WellFormed(st.world) && WellRanked(env.plans, st.stack, rank)
    requires PropsBelow(st.stack, rank, props, bound) && id in st.world.heap
    ensures var r := InjectProps(env, st, id, props, rank, bound);
      r.0.Ok? ==> r.1.world.heap[id].fields.Keys == st.world.heap[id].fields.Keys + InjectedNames(props)
  {
    var r := InjectProps(env, st, id, props, rank, bound);
    if props == [] {
      assert InjectedNames(props) == {};
    } else if r.0.Ok? {
      var init, p := props[..|props| - 1], props[|props| - 1];
      assert forall i :: 0 <= i < |init| ==> init[i] == props[i];
      var r1 := InjectProps(env, st, id, init, rank, bound);
      InjectPropsEvolves(env, st, id, init, rank, bound);
      InjectPropsFields(env, st, id, init, rank, bound);
      InjectedNamesSnoc(props);
      var r2 := InjectOne(env, r1.1, id, p, rank, bound);
      assert r == r2;
      InjectOneFields(env, r1.1, id, p, rank, bound);
      UnionStep(st.world.heap[id].fields.Keys, r1.1.world.heap[id].fields.Keys, r2.1.world.heap[id].fields.Keys,
                InjectedNames(props[..|props| - 1]), if p.inject then {p.name} else {});
    }
  }

  /** One step of the property loop assigns the property if it carries `#[Inject]`, and no other. */
  lemma InjectOneFields(env: Env, st: State, id: ObjId, p: Property, rank: map<Key, nat>, bound: nat)
    requires WellFormed(st.world) && WellRanked(env.plans, st.stack, rank) && id in st.world.heap
    requires p.inject && KeyBuilder(p.typeName) in st.stack ==> KeyBuilder(p.typeName) in rank && rank[KeyBuilder(p.typeName)] < bound
    ensures var r := InjectOne(env, st, id, p, rank, bound);
      r.0.Ok? ==> r.1.world.heap[id].fields.Keys == st.world.heap[id].fields.Keys + (if p.inject then {p.name} else {})
  {
    if p.inject {
      GetEvolves(env, st, p.typeName, rank);
    }
  }

  /** The property loop logs, about the object being injected, one event per `#[Inject]` property, in declared order. */
  lemma {:induction false} InjectPropsEvents(env: Env, st: State, id: ObjId, props: seq<Property>, rank: map<Key, nat>, bound: nat)
    requires WellFormed(st.world) && WellRanked(env.plans, st.stack, rank)
    requires PropsBelow(st.stack, rank, props, bound) && id in st.world.heap
    ensures var r := InjectProps(env, st, id, props, rank, bound);
      r.0.Ok? ==> EventsAbout(r.1.world.log[|st.world.log|..], id) == InjectedEvents(id, props)
  {
    var r := InjectProps(env, st, id, props, rank, bound);
    if props == [] {
      assert r.1.world.log[|st.world.log|..] == [];
    } else if r.0.Ok? {
      var init, p := props[..|props| - 1], props[|props| - 1];
      assert forall i :: 0 <= i < |init| ==> init[i] == props[i];
      var r1 := InjectProps(env, st, id, init, rank, bound);
      InjectPropsEvolves(env, st, id, init, rank, bound);
      InjectPropsEvents(env, st, id, init, rank, bound);
      assert r == InjectOne(env, r1.1, id, p, rank, bound);
      InjectOneEvents(env, r1.1, id, p, rank, bound);
      InjectOneEvolves(env, r1.1, id, p, rank, bound);
      SegmentSplit(st.world.log, r1.1.world.log, r.1.world.log);
      EventsAboutConcat(r1.1.world.log[|st.world.log|..], r.1.world.log[|r1.1.world.log|..], id);
    }
  }

  /** One step of the property loop logs, about the object, its injection event if the property is `#[Inject]`, and nothing else. */
  lemma InjectOneEvents(env: Env, st: State, id: ObjId, p: Property, rank: map<Key, nat>, bound: nat)
    requires WellFormed(st.world) && WellRanked(env.plans, st.stack, rank) && id in st.world.heap
    requires p.inject && KeyBuilder(p.typeName) in st.stack ==> KeyBuilder(p.typeName) in rank && rank[KeyBuilder(p.typeName)] < bound
    ensures var r := InjectOne(env, st, id, p, rank, bound);
      r.0.Ok? ==> EventsAbout(r.1.world.log[|st.world.log|..], id) == if p.inject then [Injected(id, p.name)] else []
  {
    var r := InjectOne(env, st, id, p, rank, bound);
    if r.0.Ok? {
      if p.inject {
        var rg := Get(env, st, p.typeName, rank);
        GetEvolves(env, st, p.typeName, rank);
        GrowsNothingAbout(st.world, rg.1.world, id);
        SegmentSplit(st.world.log, rg.1.world.log, r.1.world.log);
        assert r.1.world.log[|rg.1.world.log|..] == [Injected(id, p.name)];
        EventsAboutConcat(rg.1.world.log[|st.world.log|..], [Injected(id, p.name)], id);
        EventsAboutAll([Injected(id, p.name)], id);
      } else {
        assert r.1.world.log[|st.world.log|..] == [];
      }
    }
  }

  /** The object `Instantiate` returns: its class and arguments as given, and exactly the injected fields. */
  lemma InstantiateObject(env: Env, st: State, cls: string, args: seq<Value>, plan: Plan, rank: map<Key, nat>, bound: nat)
    requires WellFormed(st.world) && WellRanked(env.plans, st.stack, rank)
    requires PropsBelow(st.stack, rank, plan.properties, bound)
    ensures var r := Instantiate(env, st, cls, args, plan, rank, bound);
      var id := st.world.next;
      r.0.Ok? ==>
        && id in r.1.world.heap
        && r.1.world.heap[id].cls == cls && r.1.world.heap[id].args == args
        && r.1.world.heap[id].fields.Keys == InjectedNames(plan.properties)
  {
    var r := Instantiate(env, st, cls, args, plan, rank, bound);
    var id := st.world.next;
    if r.0.Ok? {
      var st2 := Construct(st, cls, args, plan);
      var ri := InjectProps(env, st2, id, plan.properties, rank, bound);
      ConstructGrows(st, cls, args, plan);
      InjectPropsEvolves(env, st2, id, plan.properties, rank, bound);
      InjectPropsFields(env, st2, id, plan.properties, rank, bound);
      assert st2.world.heap[id] == Object(cls, args, map[]);
      assert r.1.world.heap == ri.1.world.heap;
    }
  }

  /** The log `Instantiate` appends: construction and `afterInstanceCreated`, the property loop's events, `beforeReturnInstance`. */
  lemma InstantiateLog(env: Env, st: State, cls: string, args: seq<Value>, plan: Plan, rank: map<Key, nat>, bound: nat)
    requires WellFormed(st.world) && WellRanked(env.plans, st.stack, rank)
    requires PropsBelow(st.stack, rank, plan.properties, bound)
    ensures var r := Instantiate(env, st, cls, args, plan, rank, bound);
      var id := st.world.next;
      var st2 := Construct(st, cls, args, plan);
      var ri := InjectProps(env, st2, id, plan.properties, rank, bound);
      r.0.Ok? ==>
        && |st2.world.log| <= |ri.1.world.log|
        && r.1.world.log[|st.world.log|..]
             == [Constructed(id, cls)] + AfterHook(plan, id) + ri.1.world.log[|st2.world.log|..] + BeforeHook(plan, id)
  {
    var r := Instantiate(env, st, cls, args, plan, rank, bound);
    var id := st.world.next;
    var st2 := Construct(st, cls, args, plan);
    var ri := InjectProps(env, st2, id, plan.properties, rank, bound);
    if r.0.Ok? {
      ConstructGrows(st, cls, args, plan);
      InjectPropsEvolves(env, st2, id, plan.properties, rank, bound);
      var created := [Constructed(id, cls)] + AfterHook(plan, id);
      var injected := ri.1.world.log[|st2.world.log|..];
      assert st2.world.log == st.world.log + created;
      assert ri.1.world.log == st2.world.log + injected;
      assert r.1.world.log == ri.1.world.log + BeforeHook(plan, id);
      assert st.world.log + created + injected + BeforeHook(plan, id) == st.world.log + (created + injected + BeforeHook(plan, id));
    }
  }

  lemma EventsOfParts(created: seq<Event>, injected: seq<Event>, before: seq<Event>, id: ObjId)
    requires forall i :: 0 <= i < |created| ==> About(created[i], id)
    requires forall i :: 0 <= i < |before| ==> About(before[i], id)
    ensures EventsAbout(created + injected + before, id) == created + EventsAbout(injected, id) + before
  {
    EventsAboutAll(created, id);
    EventsAboutAll(before, id);
    EventsAboutConcat(created, injected, id);
    EventsAboutConcat(created + injected, before, id);
  }

  /** The events `Instantiate` logs about its object: construction, `afterInstanceCreated`, the injections, `beforeReturnInstance`. */
  lemma InstantiateEvents(env: Env, st: State, cls: string, args: seq<Value>, plan: Plan, rank: map<Key, nat>, bound: nat)
    requires WellFormed(st.world) && WellRanked(env.plans, st.stack, rank)
    requires PropsBelow(st.stack, rank, plan.properties, bound)
    ensures var r := Instantiate(env, st, cls, args, plan, rank, bound);
      var id := st.world.next;
      r.0.Ok? ==>
        EventsAbout(r.1.world.log[|st.world.log|..], id)
          == [Constructed(id, cls)] + AfterHook(plan, id) + InjectedEvents(id, plan.properties) + BeforeHook(plan, id)
  {
    var r := Instantiate(env, st, cls, args, plan, rank, bound);
    var id := st.world.next;
    if r.0.Ok? {
      var st2 := Construct(st, cls, args, plan);
      var ri := InjectProps(env, st2, id, plan.properties, rank, bound);
      ConstructGrows(st, cls, args, plan);
      InjectPropsEvents(env, st2, id, plan.properties, rank, bound);
      var created := [Constructed(id, cls)] + AfterHook(plan, id);
      var injected := ri.1.world.log[|st2.world.log|..];
      var before := BeforeHook(plan, id);
      InstantiateLog(env, st, cls, args, plan, rank, bound);
      EventsOfParts(created, injected, before, id);
    }
  }

  /**
   * `createInstance` of a known class, when it succeeds: a new object of that class whose
   * constructor got the resolved arguments, whose events are construction, `afterInstanceCreated`,
   * one injection per `#[Inject]` property in order, then `beforeReturnInstance`, and whose
   * assigned fields are exactly the `#[Inject]` ones.
   */
  lemma CreateInstanceFacts(env: Env, st: State, cls: string, rank: map<Key, nat>, bound: nat)
    requires WellFormed(st.world) && WellRanked(env.plans, st.stack, rank)
    requires ClassBelow(env.plans, st.stack, rank, Text(cls), bound) && cls in env.plans
    ensures var r := CreateInstance(env, st, Text(cls), rank, bound);
      var plan := env.plans[cls];
      var ra := ResolveArgs(env, st, plan.ctorParams, rank, bound);
      r.0.Ok? ==>
        && ra.0.Ok? && !plan.ctorThrows && r.0.value == Ref(ra.1.world.next)
        && var id := r.0.value.id;
        && id in r.1.world.heap
        && r.1.world.heap[id].cls == cls && r.1.world.heap[id].args == ra.0.value
        && r.1.world.heap[id].fields.Keys == InjectedNames(plan.properties)
        && EventsAbout(r.1.world.log[|st.world.log|..], id)
             == [Constructed(id, cls)] + AfterHook(plan, id) + InjectedEvents(id, plan.properties) + BeforeHook(plan, id)
  {
    var r := CreateInstance(env, st, Text(cls), rank, bound);
    var plan := env.plans[cls];
    var ra := ResolveArgs(env, st, plan.ctorParams, rank, bound);
    if r.0.Ok? {
      var id := ra.1.world.next;
      var rb := Instantiate(env, ra.1, cls, ra.0.value, plan, rank, bound);
      assert r == rb;
      ResolveArgsEvolves(env, st, plan.ctorParams, rank, bound);
      InstantiateEvolves(env, ra.1, cls, ra.0.value, plan, rank, bound);
      InstantiateObject(env, ra.1, cls, ra.0.value, plan, rank, bound);
      InstantiateEvents(env, ra.1, cls, ra.0.value, plan, rank, bound);
      GrowsNothingAbout(st.world, ra.1.world, id);
      SegmentSplit(st.world.log, ra.1.world.log, r.1.world.log);
      EventsAboutConcat(ra.1.world.log[|st.world.log|..], r.1.world.log[|ra.1.world.log|..], id);
    }
  }

  /**
   * The property loop on `props` failed at `props[j]`: it is an `#[Inject]` property, the
   * properties before it were injected, and `get` of its type then failed with `e`,
   * leaving `after`.
   */
  predicate InjectionFailsAt(env: Env, st: State, id: ObjId, props: seq<Property>, rank: map<Key, nat>, bound: nat,
                             j: nat, e: Error, after: State) {
    && WellRanked(env.plans, st.stack, rank) && id in st.world.heap
    && j < |props| && props[j].inject
    && PropsBelow(st.stack, rank, props[..j], bound)
    && var before := InjectProps(env, st, id, props[..j], rank, bound);
    && before.0.Ok? && before.1.stack == st.stack
    && Get(env, before.1, props[j].typeName, rank) == (Err(e), after)
  }

  /** A failing property loop passes on, unchanged, the error of the first `get` of an `#[Inject]` property that failed. */
  lemma {:induction false} InjectPropsFailure(env: Env, st: State, id: ObjId, props: seq<Property>, rank: map<Key, nat>, bound: nat)
    returns (j: nat)
    requires WellRanked(env.plans, st.stack, rank)
    requires PropsBelow(st.stack, rank, props, bound) && id in st.world.heap
    ensures var r := InjectProps(env, st, id, props, rank, bound);
      r.0.Err? ==> InjectionFailsAt(env, st, id, props, rank, bound, j, r.0.error, r.1)
  {
    j := 0;
    var r := InjectProps(env, st, id, props, rank, bound);
    if r.0.Err? {
      var init, p := props[..|props| - 1], props[|props| - 1];
      assert forall k :: 0 <= k < |init| ==> init[k] == props[k];
      var r1 := InjectProps(env, st, id, init, rank, bound);
      if r1.0.Err? {
        j := InjectPropsFailure(env, st, id, init, rank, bound);
        assert props[..j] == init[..j];
      } else {
        j := |props| - 1;
        assert props[..j] == init;
      }
    }
  }

  /** A failing `Instantiate` passes on the error of the property injection that failed. */
  lemma InstantiateFailure(env: Env, st: State, cls: string, args: seq<Value>, plan: Plan, rank: map<Key, nat>, bound: nat)
    requires WellRanked(env.plans, st.stack, rank)
    requires PropsBelow(st.stack, rank, plan.properties, bound)
    ensures var r := Instantiate(env, st, cls, args, plan, rank, bound);
      r.0.Err? ==> exists j :: InjectionFailsAt(env, Construct(st, cls, args, plan), st.world.next, plan.properties, rank, bound,
                                                j, r.0.error, r.1)
  {
    var st2 := Construct(st, cls, args, plan);
    assert st.world.next in st2.world.heap;
    var j := InjectPropsFailure(env, st2, st.world.next, plan.properties, rank, bound);
  }

  /**
   * The failures of `createInstance`, each passed on unchanged: a value that names no
   * class, the first failing constructor parameter, a throwing constructor (then nothing
   * is allocated beyond what the parameters created), and the first failing `get` of an
   * `#[Inject]` property of the constructed object.
   */
  lemma CreateInstanceFailures(env: Env, st: State, v: Value, rank: map<Key, nat>, bound: nat)
    requires WellFormed(st.world) && WellRanked(env.plans, st.stack, rank)
    requires ClassBelow(env.plans, st.stack, rank, v, bound)
    ensures var r := CreateInstance(env, st, v, rank, bound);
      && (!v.Text? || v.s !in env.plans ==> r == (Err(ClassNotFound(v)), st))
      && (v.Text? && v.s in env.plans ==>
            var plan := env.plans[v.s];
            var ra := ResolveArgs(env, st, plan.ctorParams, rank, bound);
            && (ra.0.Err? ==> r == (Err(ra.0.error), ra.1))
            && (ra.0.Ok? && plan.ctorThrows ==> r == (Err(ConstructorThrew(v.s)), ra.1))
            && (ra.0.Ok? && !plan.ctorThrows && r.0.Err? ==>
                  exists j :: InjectionFailsAt(env, Construct(ra.1, v.s, ra.0.value, plan), ra.1.world.next, plan.properties,
                                               rank, bound, j, r.0.error, r.1)))
  {
    if v.Text? && v.s in env.plans {
      var plan := env.plans[v.s];
      var ra := ResolveArgs(env, st, plan.ctorParams, rank, bound);
      if ra.0.Ok? && !plan.ctorThrows {
        InstantiateFailure(env, ra.1, v.s, ra.0.value, plan, rank, bound);
      }
    }
  }

  /**
   * `states` and `vals` record `get`s of the first `|vals|` names, one after another: the
   * `get` of `names[i]` in `states[i]` succeeds with `vals[i]` and leads to `states[i + 1]`.
   */
  predicate GetChain(env: Env, rank: map<Key, nat>, names: seq<string>, states: seq<State>, vals: seq<Value>) {
    && |states| == |vals| + 1 && |vals| <= |names|
    && WellRanked(env.plans, states[0].stack, rank)
    && (forall i :: 0 <= i < |states| ==> states[i].stack == states[0].stack)
    && (forall i :: 0 <= i < |vals| ==> Get(env, states[i], names[i], rank) == (Ok(vals[i]), states[i + 1]))
  }

  lemma ChainExtend(env: Env, rank: map<Key, nat>, init: seq<string>, names: seq<string>,
                    states: seq<State>, vals: seq<Value>, s: State, v: Value)
    requires GetChain(env, rank, init, states, vals) && |vals| == |init| < |names| && init == names[..|init|]
    requires s.stack == states[0].stack
    requires Get(env, states[|vals|], names[|vals|], rank) == (Ok(v), s)
    ensures GetChain(env, rank, names, states + [s], vals + [v])
  {
    var states', vals' := states + [s], vals + [v];
    forall i | 0 <= i < |vals'| ensures Get(env, states'[i], names[i], rank) == (Ok(vals'[i]), states'[i + 1]) {
      if i < |vals| {
        assert states'[i] == states[i] && states'[i + 1] == states[i + 1] && vals'[i] == vals[i] && names[i] == init[i];
      }
    }
  }

  lemma ChainWiden(env: Env, rank: map<Key, nat>, init: seq<string>, names: seq<string>, states: seq<State>, vals: seq<Value>)
    requires GetChain(env, rank, init, states, vals) && |init| <= |names| && init == names[..|init|]
    ensures GetChain(env, rank, names, states, vals)
  {
    forall i | 0 <= i < |vals| ensures Get(env, states[i], names[i], rank) == (Ok(vals[i]), states[i + 1]) {
      assert names[i] == init[i];
    }
  }

  /**
   * The constructor-parameter loop is a sequence of `get`s in declared order: each succeeds
   * with the next argument, the arguments are collected in that order, and on failure the
   * error is that of the first failing `get`, passed on unchanged.
   */
  lemma {:induction false} ResolveArgsSteps(env: Env, st: State, names: seq<string>, rank: map<Key, nat>, bound: nat)
      returns (states: seq<State>, vals: seq<Value>)
    requires WellRanked(env.plans, st.stack, rank)
    requires DepsBelow(st.stack, rank, names, bound)
    ensures GetChain(env, rank, names, states, vals) && states[0] == st
    ensures var r := ResolveArgs(env, st, names, rank, bound);
      && (r.0.Ok? <==> |vals| == |names|)
      && (r.0.Ok? ==> r == (Ok(vals), states[|vals|]))
      && (r.0.Err? ==> Get(env, states[|vals|], names[|vals|], rank) == (Err(r.0.error), r.1))
  {
    if names == [] {
      states, vals := [st], [];
    } else {
      var init, last := names[..|names| - 1], names[|names| - 1];
      assert forall i :: 0 <= i < |init| ==> init[i] == names[i];
      var r1 := ResolveArgs(env, st, init, rank, bound);
      var ss, vs := ResolveArgsSteps(env, st, init, rank, bound);
      ChainWiden(env, rank, init, names, ss, vs);
      if r1.0.Err? {
        states, vals := ss, vs;
      } else {
        var rg := Get(env, r1.1, last, rank);
        if rg.0.Ok? {
          ChainExtend(env, rank, init, names, ss, vs, rg.1, rg.0.value);
          states, vals := ss + [rg.1], vs + [rg.0.value];
        } else {
          states, vals := ss, vs;
        }
      }
    }
  }

  /** A constructor parameter bound as a plain Mock or Provides value receives exactly that value (a mock replaces the real dependency). */
  lemma MockSeenByConstructor(env: Env, st: State, cls: string, rank: map<Key, nat>, bound: nat, i: nat)
    requires WellFormed(st.world) && WellRanked(env.plans, st.stack, rank)
    requires ClassBelow(env.plans, st.stack, rank, Text(cls), bound) && cls in env.plans
    requires i < |env.plans[cls].ctorParams|
    requires var name := env.plans[cls].ctorParams[i];
      (BoundAs(st, name, Mock) || BoundAs(st, name, Provides)) && !st.stack[KeyBuilder(name)].value.Callable?
    ensures var r := CreateInstance(env, st, Text(cls), rank, bound);
      r.0.Ok? ==>
        && r.0.value.Ref? && r.0.value.id in r.1.world.heap && i < |r.1.world.heap[r.0.value.id].args|
        && r.1.world.heap[r.0.value.id].args[i] == st.stack[KeyBuilder(env.plans[cls].ctorParams[i])].value
  {
    var r := CreateInstance(env, st, Text(cls), rank, bound);
    var plan := env.plans[cls];
    if r.0.Ok? {
      var ra := ResolveArgs(env, st, plan.ctorParams, rank, bound);
      CreateInstanceFacts(env, st, cls, rank, bound);
      var states, vals := ResolveArgsSteps(env, st, plan.ctorParams, rank, bound);
      assert ra.0.value == vals;
      var name := plan.ctorParams[i];
      var s := states[i];
      assert s.stack == st.stack;
      assert Get(env, s, name, rank) == (Ok(vals[i]), states[i + 1]);
      PlainValueGet(env, s, name, rank);
      assert vals[i] == st.stack[KeyBuilder(name)].value;
    }
  }

  /** One step of the property loop leaves every other field of the object as it was. */
  lemma InjectOneKeepsOtherFields(env: Env, st: State, id: ObjId, p: Property, rank: map<Key, nat>, bound: nat, f: string)
    requires WellFormed(st.world) && WellRanked(env.plans, st.stack, rank) && id in st.world.heap
    requires p.inject && KeyBuilder(p.typeName) in st.stack ==> KeyBuilder(p.typeName) in rank && rank[KeyBuilder(p.typeName)] < bound
    requires f != p.name && f in st.world.heap[id].fields
    ensures var r := InjectOne(env, st, id, p, rank, bound);
      r.0.Ok? ==> f in r.1.world.heap[id].fields && r.1.world.heap[id].fields[f] == st.world.heap[id].fields[f]
  {
    if p.inject {
      var rg := Get(env, st, p.typeName, rank);
      GetEvolves(env, st, p.typeName, rank);
      assert rg.1.world.heap[id] == st.world.heap[id];
    }
  }

  /** One step of the property loop on a property bound to a plain Mock or Provides value assigns exactly that value. */
  lemma InjectOnePlainValue(env: Env, st: State, id: ObjId, p: Property, rank: map<Key, nat>, bound: nat)
    requires WellRanked(env.plans, st.stack, rank) && id in st.world.heap
    requires p.inject && (BoundAs(st, p.typeName, Mock) || BoundAs(st, p.typeName, Provides))
    requires !st.stack[KeyBuilder(p.typeName)].value.Callable?
    requires KeyBuilder(p.typeName) in rank && rank[KeyBuilder(p.typeName)] < bound
    ensures var r := InjectOne(env, st, id, p, rank, bound);
      r.0.Ok? ==> p.name in r.1.world.heap[id].fields && r.1.world.heap[id].fields[p.name] == st.stack[KeyBuilder(p.typeName)].value
  {
    PlainValueGet(env, st, p.typeName, rank);
  }

  /**
   * An `#[Inject]` property bound as a plain Mock or Provides value receives exactly that
   * value, given that property names are unique within the class, as PHP requires.
   */
  lemma {:induction false} MockSeenByInjection(env: Env, st: State, id: ObjId, props: seq<Property>, rank: map<Key, nat>, bound: nat, i: nat)
    requires WellFormed(st.world) && WellRanked(env.plans, st.stack, rank)
    requires PropsBelow(st.stack, rank, props, bound) && id in st.world.heap
    requires i < |props| && props[i].inject
    requires forall j :: 0 <= j < |props| && j != i ==> props[j].name != props[i].name
    requires (BoundAs(st, props[i].typeName, Mock) || BoundAs(st, props[i].typeName, Provides))
    requires !st.stack[KeyBuilder(props[i].typeName)].value.Callable?
    ensures var r := InjectProps(env, st, id, props, rank, bound);
      r.0.Ok? ==>
        && props[i].name in r.1.world.heap[id].fields
        && r.1.world.heap[id].fields[props[i].name] == st.stack[KeyBuilder(props[i].typeName)].value
  {
    var r := InjectProps(env, st, id, props, rank, bound);
    if r.0.Ok? {
      var init, p := props[..|props| - 1], props[|props| - 1];
      assert forall j :: 0 <= j < |init| ==> init[j] == props[j];
      var r1 := InjectProps(env, st, id, init, rank, bound);
      assert r == InjectOne(env, r1.1, id, p, rank, bound);
      assert r1.1.stack == st.stack;
      if i == |props| - 1 {
        InjectOnePlainValue(env, r1.1, id, p, rank, bound);
      } else {
        MockSeenByInjection(env, st, id, init, rank, bound, i);
        InjectPropsEvolves(env, st, id, init, rank, bound);
        InjectOneKeepsOtherFields(env, r1.1, id, p, rank, bound, props[i].name);
      }
    }
  }

  /** One step of the property loop on an `#[Inject]` property succeeds only when `get` of its type does, and assigns that result. */
  lemma InjectOneValue(env: Env, st: State, id: ObjId, p: Property, rank: map<Key, nat>, bound: nat)
    requires WellRanked(env.plans, st.stack, rank) && id in st.world.heap
    requires p.inject && KeyBuilder(p.typeName) in st.stack ==> KeyBuilder(p.typeName) in rank && rank[KeyBuilder(p.typeName)] < bound
    ensures var r := InjectOne(env, st, id, p, rank, bound);
      var g := Get(env, st, p.typeName, rank);
      r.0.Ok? && p.inject ==>
        && g.0.Ok?
        && p.name in r.1.world.heap[id].fields && r.1.world.heap[id].fields[p.name] == g.0.value
  {
  }

  /**
   * The property loop gives each `#[Inject]` property the value `get` of its type returned
   * when the loop reached it, that is, in the state the properties before it left; property
   * names are unique within the class, as PHP requires.
   */
  lemma {:induction false} InjectPropsValue(env: Env, st: State, id: ObjId, props: seq<Property>, rank: map<Key, nat>, bound: nat, i: nat)
    requires WellFormed(st.world) && WellRanked(env.plans, st.stack, rank)
    requires PropsBelow(st.stack, rank, props, bound) && id in st.world.heap
    requires i < |props| && props[i].inject
    requires forall j :: 0 <= j < |props| && j != i ==> props[j].name != props[i].name
    ensures var r := InjectProps(env, st, id, props, rank, bound);
      var before := InjectProps(env, st, id, props[..i], rank, bound);
      var g := Get(env, before.1, props[i].typeName, rank);
      r.0.Ok? ==>
        && before.0.Ok? && g.0.Ok?
        && props[i].name in r.1.world.heap[id].fields
        && r.1.world.heap[id].fields[props[i].name] == g.0.value
  {
    var r := InjectProps(env, st, id, props, rank, bound);
    if r.0.Ok? {
      var init, p := props[..|props| - 1], props[|props| - 1];
      assert forall j :: 0 <= j < |init| ==> init[j] == props[j];
      var r1 := InjectProps(env, st, id, init, rank, bound);
      assert r == InjectOne(env, r1.1, id, p, rank, bound);
      if i == |props| - 1 {
        InjectOneValue(env, r1.1, id, p, rank, bound);
      } else {
        assert init[..i] == props[..i];
        InjectPropsValue(env, st, id, init, rank, bound, i);
        InjectPropsEvolves(env, st, id, init, rank, bound);
        InjectOneKeepsOtherFields(env, r1.1, id, p, rank, bound, props[i].name);
      }
    }
  }

  /**
   * The object `Instantiate` returns holds, in each `#[Inject]` property, the value `get` of
   * the property's type returned once the object was constructed and the properties declared
   * before it were injected.
   */
  lemma InstantiateFieldValue(env: Env, st: State, cls: string, args: seq<Value>, plan: Plan, rank: map<Key, nat>, bound: nat, i: nat)
    requires WellFormed(st.world) && WellRanked(env.plans, st.stack, rank)
    requires PropsBelow(st.stack, rank, plan.properties, bound)
    requires i < |plan.properties| && plan.properties[i].inject
    requires forall j :: 0 <= j < |plan.properties| && j != i ==> plan.properties[j].name != plan.properties[i].name
    ensures var r := Instantiate(env, st, cls, args, plan, rank, bound);
      var id := st.world.next;
      var before := InjectProps(env, Construct(st, cls, args, plan), id, plan.properties[..i], rank, bound);
      var g := Get(env, before.1, plan.properties[i].typeName, rank);
      r.0.Ok? ==>
        && before.0.Ok? && g.0.Ok?
        && id in r.1.world.heap && plan.properties[i].name in r.1.world.heap[id].fields
        && r.1.world.heap[id].fields[plan.properties[i].name] == g.0.value
  {
    var st2 := Construct(st, cls, args, plan);
    ConstructGrows(st, cls, args, plan);
    InjectPropsValue(env, st2, st.world.next, plan.properties, rank, bound, i);
  }
}
