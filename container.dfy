/**
 * The container object of src/Di/Container.php, with its fields `bindStack` and
 * `singletons` updated in place, and the runtime it creates objects in.  Every method is
 * proved to change the state exactly as the matching function of `Registry` or
 * `Resolution` describes, so what is proved about those functions holds of the methods.
 */
module Containers {
  import opened Binds
  import opened Keys
  import opened Errors
  import opened Registry
  import opened Resolution
  import opened Lifecycle

  /**
   * The PHP runtime: the classes and factories of the program, the objects created so
   * far, the next id to hand out, and the calls made into user code.
   */
  class Runtime {
    const env: Env
    var heap: map<ObjId, Object>
    var next: ObjId
    var log: seq<Event>

    constructor (env: Env)
      ensures this.env == env && heap == map[] && next == 0 && log == []
    {
      this.env := env;
      heap, next, log := map[], 0, [];
    }

    function Snapshot(): World
      reads this
    {
      World(heap, next, log)
    }
  }

  class Container {
    /** `bindStack`: normalised key to bind. */
    var bindStack: BindStack
    /** `singletons`: normalised key to the cached value. */
    var singletons: map<Key, Value>
    /** The program and its objects; shared by every container of the process. */
    const rt: Runtime
    /** `defined("PHP_DI_TEST")`. */
    const testMode: bool

    /** The fields a new container starts with, before `initBinds` and `initRoutes`. */
    constructor (rt: Runtime, testMode: bool)
      ensures this.rt == rt && this.testMode == testMode
      ensures bindStack == map[] && singletons == map[]
    {
      this.rt, this.testMode := rt, testMode;
      bindStack, singletons := map[], map[];
    }

    /** The state the resolution functions act on. */
    function Abs(): State
      reads this, rt
    {
      State(bindStack, singletons, rt.Snapshot())
    }

    /** `putBindInStack`: store the bind under its key, or refuse it and store nothing. */
    method PutBindInStack(b: Bind) returns (o: Result<()>)
      modifies this`bindStack
      ensures var p := Registry.PutBindInStack(testMode, old(bindStack), b);
        && (p.Ok? ==> o == Ok(()) && bindStack == p.value)
        && (p.Err? ==> o == Err(p.error) && bindStack == old(bindStack))
    {
      var key := KeyBuilder(b.GetBinds());
      if b.GetScope() == Mock {
        if !testMode {
          return Err(MockBindInNonTest(b.GetBinds()));
        }
        bindStack := bindStack[key := b];
        return Ok(());
      }
      if key in bindStack {
        return Err(BindAlreadyExists(b.GetBinds()));
      }
      bindStack := bindStack[key := b];
      o := Ok(());
    }

    /**
     * The loop `foreach (...) $this->putBindInStack(...)` of `initBinds`, `initRoutes` and
     * `build`: register in order; the first refusal ends the loop.
     */
    method PutAll(bs: seq<Bind>) returns (o: Result<()>)
      modifies this`bindStack
      ensures (o, bindStack) == Registry.PutAll(testMode, old(bindStack), bs)
    {
      var i := 0;
      while i < |bs|
        invariant 0 <= i <= |bs|
        invariant Registry.PutAll(testMode, old(bindStack), bs[..i]) == (Ok(()), bindStack)
      {
        assert bs[..i + 1][..i] == bs[..i];
        var p := PutBindInStack(bs[i]);
        if p.Err? {
          PutAllErrSticky(testMode, old(bindStack), bs, i + 1);
          return p;
        }
        i := i + 1;
      }
      assert bs[..i] == bs;
      o := Ok(());
    }

    /** `call_user_func($value)`. */
    method Invoke(f: FactoryId) returns (r: Result<Value>)
      modifies rt
      ensures (r, Abs()) == Resolution.Invoke(rt.env, old(Abs()), f)
    {
      var out := rt.env.invoke(f, |rt.log|);
      rt.log := rt.log + [Invoked(f)];
      r := if out.Some? then Ok(out.value) else Err(FactoryThrew(f));
    }

    /** The instance part of `Container::get`. */
    method Get(name: string, ghost rank: map<Key, nat>) returns (r: Result<Value>)
      requires WellRanked(rt.env.plans, bindStack, rank)
      modifies this`singletons, rt
      ensures (r, Abs()) == Resolution.Get(rt.env, old(Abs()), name, rank)
      decreases GetRank(bindStack, rank, name), if KeyBuilder(name) in bindStack then 4 else 0, 0
    {
      var key := KeyBuilder(name);
      var found := GetBindFromStack(bindStack, name);
      if found.Err? {
        return Err(found.error);
      }
      var b := found.value;
      if b.GetScope() == Mock || b.GetScope() == Provides {
        if b.GetValue().Callable? {
          r := Invoke(b.GetValue().f);
        } else {
          r := Ok(b.GetValue());
        }
        return;
      }
      if b.GetScope() == Route {
        return Err(RouteFromWrongGetter(name));
      }
      if b.GetScope() == Singleton {
        if key !in singletons {
          var v;
          if b.GetValue().Callable? {
            v := Invoke(b.GetValue().f);
          } else {
            v := CreateInstance(b.GetValue(), rank, rank[key]);
          }
          if v.Err? {
            return v;
          }
          singletons := singletons[key := v.value];
        }
        return Ok(singletons[key]);
      }
      if b.GetValue().Callable? {
        r := Invoke(b.GetValue().f);
      } else {
        r := CreateInstance(b.GetValue(), rank, rank[key]);
      }
    }

    /** The instance part of `Container::getRoute`. */
    method GetRoute(name: string, ghost rank: map<Key, nat>) returns (r: Result<Value>)
      requires WellRanked(rt.env.plans, bindStack, rank)
      modifies this`singletons, rt
      ensures (r, Abs()) == Resolution.GetRoute(rt.env, old(Abs()), name, rank)
    {
      var found := GetBindFromStack(bindStack, name);
      if found.Err? {
        return Err(found.error);
      }
      if found.value.GetScope() != Route {
        return Err(BindIsNotRoute(name));
      }
      r := CreateInstance(found.value.GetValue(), rank, rank[KeyBuilder(name)]);
    }

    /** `createInstance`. */
    method CreateInstance(v: Value, ghost rank: map<Key, nat>, ghost bound: nat) returns (r: Result<Value>)
      requires WellRanked(rt.env.plans, bindStack, rank)
      requires ClassBelow(rt.env.plans, bindStack, rank, v, bound)
      modifies this`singletons, rt
      ensures (r, Abs()) == Resolution.CreateInstance(rt.env, old(Abs()), v, rank, bound)
      decreases bound, 3, 0
    {
      if !v.Text? || v.s !in rt.env.plans {
        return Err(ClassNotFound(v));
      }
      var plan := rt.env.plans[v.s];
      var args := ResolveArgs(plan.ctorParams, rank, bound);
      if args.Err? {
        return Err(args.error);
      }
      if plan.ctorThrows {
        return Err(ConstructorThrew(v.s));
      }
      r := Instantiate(v.s, args.value, plan, rank, bound);
    }

    /** The constructor-parameter loop of `createInstance`, appending to `$constructorArgs`. */
    method ResolveArgs(names: seq<string>, ghost rank: map<Key, nat>, ghost bound: nat) returns (r: Result<seq<Value>>)
      requires WellRanked(rt.env.plans, bindStack, rank)
      requires DepsBelow(bindStack, rank, names, bound)
      modifies this`singletons, rt
      ensures (r, Abs()) == Resolution.ResolveArgs(rt.env, old(Abs()), names, rank, bound)
      decreases bound, 1, |names|
    {
      ghost var st0 := Abs();
      var args: seq<Value> := [];
      var i := 0;
      while i < |names|
        invariant 0 <= i <= |names|
        invariant DepsBelow(st0.stack, rank, names[..i], bound)
        invariant Resolution.ResolveArgs(rt.env, st0, names[..i], rank, bound) == (Ok(args), Abs())
      {
        ghost var before := Abs();
        var a := Get(names[i], rank);
        ResolveArgsAdvance(rt.env, st0, names, rank, bound, i, args, before, a, Abs());
        if a.Err? {
          return Err(a.error);
        }
        args := args + [a.value];
        i := i + 1;
      }
      assert names[..i] == names;
      r := Ok(args);
    }

    /** `createInstance` once the arguments are resolved: construct, hooks and property injection. */
    method Instantiate(cls: string, args: seq<Value>, plan: Plan, ghost rank: map<Key, nat>, ghost bound: nat) returns (r: Result<Value>)
      requires WellRanked(rt.env.plans, bindStack, rank)
      requires PropsBelow(bindStack, rank, plan.properties, bound)
      modifies this`singletons, rt
      ensures (r, Abs()) == Resolution.Instantiate(rt.env, old(Abs()), cls, args, plan, rank, bound)
      decreases bound, 2, 0
    {
      var id := rt.next;
      rt.heap := rt.heap[id := Object(cls, args, map[])];
      rt.next := id + 1;
      rt.log := rt.log + [Constructed(id, cls)] + AfterHook(plan, id);
      assert Abs() == Construct(old(Abs()), cls, args, plan);
      var o := InjectProps(id, plan.properties, rank, bound);
      if o.Err? {
        return Err(o.error);
      }
      rt.log := rt.log + BeforeHook(plan, id);
      r := Ok(Ref(id));
    }

    /** The property loop of `createInstance`: every `#[Inject]` property gets `get` of its type. */
    method InjectProps(id: ObjId, props: seq<Property>, ghost rank: map<Key, nat>, ghost bound: nat) returns (r: Result<()>)
      requires WellRanked(rt.env.plans, bindStack, rank)
      requires PropsBelow(bindStack, rank, props, bound) && id in rt.heap
      modifies this`singletons, rt
      ensures (r, Abs()) == Resolution.InjectProps(rt.env, old(Abs()), id, props, rank, bound)
      decreases bound, 1, |props|
    {
      ghost var st0 := Abs();
      var j := 0;
      while j < |props|
        invariant 0 <= j <= |props|
        invariant PropsBelow(st0.stack, rank, props[..j], bound)
        invariant Resolution.InjectProps(rt.env, st0, id, props[..j], rank, bound) == (Ok(()), Abs())
      {
        InjectPropsReady(rt.env, st0, id, props, rank, bound, j);
        ghost var before := Abs();
        var o := InjectOne(id, props[j], rank, bound);
        InjectPropsStep(rt.env, st0, id, props, rank, bound, j);
        if o.Err? {
          InjectPropsSticky(rt.env, st0, id, props, rank, bound, j + 1);
          return o;
        }
        j := j + 1;
      }
      assert props[..j] == props;
      r := Ok(());
    }

    /** One round of the property loop: skip a property without `#[Inject]`, else `setValue` it to `get` of its type. */
    method InjectOne(id: ObjId, p: Property, ghost rank: map<Key, nat>, ghost bound: nat) returns (r: Result<()>)
      requires WellRanked(rt.env.plans, bindStack, rank) && id in rt.heap
      requires p.inject && KeyBuilder(p.typeName) in bindStack ==> KeyBuilder(p.typeName) in rank && rank[KeyBuilder(p.typeName)] < bound
      modifies this`singletons, rt
      ensures (r, Abs()) == Resolution.InjectOne(rt.env, old(Abs()), id, p, rank, bound)
      decreases bound, 1, 0
    {
      if !p.inject {
        return Ok(());
      }
      var x := Get(p.typeName, rank);
      if x.Err? {
        return Err(x.error);
      }
      ghost var got := Abs();
      var obj := rt.heap[id];
      rt.heap := rt.heap[id := obj.(fields := obj.fields[p.name := x.value])];
      rt.log := rt.log + [Injected(id, p.name)];
      assert Abs() == SetField(got, id, p.name, x.value);
      r := Ok(());
    }
  }

  /** The static part of `Container`: `selfInstance`, `build`, `reset`, and the static `get` and `getRoute`. */
  class Process {
    /** `selfInstance`. */
    var selfInstance: Container?
    /** The runtime every container of the process creates its objects in. */
    const rt: Runtime
    /** The test-mode flag and what the binds and routes files hold. */
    const cfg: Config

    /** The current container shares the process's runtime and mode. */
    predicate Valid()
      reads this, selfInstance
    {
      selfInstance != null ==> selfInstance.rt == rt && selfInstance.testMode == cfg.testMode
    }

    /** The current container, by its fields. */
    function Current(): Option<Instance>
      reads this, selfInstance
    {
      if selfInstance == null then None else Some(Instance(selfInstance.bindStack, selfInstance.singletons))
    }

    /** A process before any `build`. */
    constructor (rt: Runtime, cfg: Config)
      ensures this.rt == rt && this.cfg == cfg && selfInstance == null
    {
      this.rt, this.cfg := rt, cfg;
      selfInstance := null;
    }

    /** `new self()`: an empty container, then `initBinds`, then `initRoutes`; the first refusal ends it. */
    method NewContainer() returns (o: Result<()>, c: Container)
      ensures fresh(c) && c.rt == rt && c.testMode == cfg.testMode
      ensures (o, c.bindStack) == Fresh(cfg) && c.singletons == map[]
    {
      c := new Container(rt, cfg.testMode);
      o := c.PutAll(cfg.bindsFile);
      if o.Ok? {
        o := c.PutAll(cfg.routesFile);
      }
    }

    /** `build`. */
    method Build(binds: seq<Bind>) returns (o: Result<()>)
      requires Valid()
      modifies this`selfInstance
      ensures Valid()
      ensures (o, Current()) == Lifecycle.Build(cfg, old(Current()), binds)
      ensures selfInstance != old(selfInstance) ==> fresh(selfInstance)
    {
      if selfInstance == null || |binds| > 0 {
        var made, c := NewContainer();
        if made.Err? {
          return made;
        }
        selfInstance := c;
      }
      if |binds| > 0 {
        o := selfInstance.PutAll(binds);
      } else {
        assert PutAll(cfg.testMode, selfInstance.bindStack, []) == (Ok(()), selfInstance.bindStack);
        o := Ok(());
      }
    }

    /** `reset`: drop the current container, if any. */
    method Reset()
      modifies this`selfInstance
      ensures selfInstance == null
    {
      if selfInstance == null {
        return;
      }
      selfInstance := null;
    }

    /** The static `get`: `build([])` when there is no container, then `get` on it. */
    method Get(name: string, ghost rank: map<Key, nat>) returns (r: Result<Value>)
      requires Valid() && RankedFor(rt.env.plans, cfg, Current(), rank)
      modifies this`selfInstance, selfInstance, rt
      ensures Valid()
      ensures (r, Current(), rt.Snapshot()) == StaticGet(rt.env, cfg, old(Current()), old(rt.Snapshot()), name, rank)
    {
      ReadyRanked(rt.env.plans, cfg, Current(), rank);
      if selfInstance == null {
        var o := Build([]);
        if o.Err? {
          return Err(o.error);
        }
      }
      r := selfInstance.Get(name, rank);
    }

    /** The static `getRoute`: `build([])` when there is no container, then `getRoute` on it. */
    method GetRoute(name: string, ghost rank: map<Key, nat>) returns (r: Result<Value>)
      requires Valid() && RankedFor(rt.env.plans, cfg, Current(), rank)
      modifies this`selfInstance, selfInstance, rt
      ensures Valid()
      ensures (r, Current(), rt.Snapshot()) == StaticGetRoute(rt.env, cfg, old(Current()), old(rt.Snapshot()), name, rank)
    {
      ReadyRanked(rt.env.plans, cfg, Current(), rank);
      if selfInstance == null {
        var o := Build([]);
        if o.Err? {
          return Err(o.error);
        }
      }
      r := selfInstance.GetRoute(name, rank);
    }
  }
}
