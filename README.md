# A verified model of the pchouse/php-di container

This project models the dependency-injection container of `pchouse/php-di` in Dafny, and proves properties of the model. It covers `src/Di/Container.php` and the bind record of `src/Di/Bind.php`.

## What the container does

- **Binds.** A bind records a scope, a name and a value. The scopes are Transient, Singleton, Provides, Route and Mock.
- **Keys.** Binds are stored under a key built from the name. The name is trimmed of spaces, `\t\n\r\0\x0B` and backslashes, then hashed.
- **Registration.**
  - A Mock bind overwrites whatever is stored under its key, but only in test mode.
  - Any other bind is refused when its key is taken, whether a mock holds it or not.
- **`get` dispatches on the scope.**
  - Mock and Provides binds call their value if it is callable, otherwise return it as it is.
  - Route binds are refused.
  - Singleton binds are built once and then served from a cache.
  - Transient binds call or construct afresh on every call.
- **`getRoute`** accepts only Route binds, and constructs them afresh every time.
- **`createInstance`:**
  1. resolves the constructor parameters through `get`, in declared order;
  2. constructs the object;
  3. runs `afterInstanceCreated`;
  4. assigns every `#[Inject]` property through `get`, whatever its visibility;
  5. runs `beforeReturnInstance`.
- **The static part.**
  - `build` replaces the process-wide container when there is none or when binds are supplied. A new container loads the binds file, then the routes file.
  - `reset` drops the container.
  - The static `get` and `getRoute` call `build([])` first when there is no container.

## The modules

- **`Binds`** (bind.dfy): the bind record and the values a bind carries.
- **`Keys`** (keys.dfy): the key normalisation of `keyBuilder`.
- **`Errors`** (errors.dfy): the container's failures.
- **`Registry`** (registry.dfy): the bind stack as functions.
  - `getBindFromStack` and `putBindInStack`.
  - The registration loops of `initBinds`, `initRoutes` and `build`.
- **`Resolution`** (resolution.dfy): `get`, `getRoute` and `createInstance` as mutually recursive functions.
  - They act on a state made of the bind stack, the singleton cache and a runtime.
  - The runtime holds the objects created, the next object id, and a log of the calls into user code: factory calls (also those that throw), completed constructions, hooks and property assignments. A constructor that throws leaves no entry.
  - Reflection is replaced by a plan per class: its constructor parameter types, its properties, whether it implements the hooks, and whether its constructor throws.
  - The `…Evolves` lemmas say what each step may do to the state.
- **`ResolutionFacts`** and **`ConstructionFacts`**: the properties of scope dispatch, caching and construction.
- **`Lifecycle`**: `build`, `reset` and the lazy start, on the values of the static state.
- **`Containers`** (container.dfy): the imperative form of the container.
  - `Container` updates `bindStack` and `singletons` in place.
  - `Runtime` holds the objects.
  - `Process` holds the static `selfInstance`.
  - `Container.ResolveArgs` and `Container.InjectProps` are the two loops of `createInstance`.
  - Every method is proved to change the state exactly as the matching function describes, so the lemmas about the functions hold of the methods.

The source has no cycle detection: on a cyclic graph it recurses until PHP stops with a fatal error, out of memory or out of stack. The model instead requires a rank on keys (`Resolution.WellRanked`), in which a bind that constructs a class outranks every bound dependency of that class. The rank must cover every bind in the stack, not only those a lookup reaches. It is ghost, and only serves termination.

## Model

| member | source | states |
|---|---|---|
| Binds.GettersReturnConstructorArguments | src/Di/Bind.php:35-70 | `getScope`, `getBinds` and `getValue` return exactly the scope, the un-normalised name and the value given to the constructor |
| Binds.BindDeterminedByGetters | src/Di/Bind.php:35-40 | a bind is nothing but its three fields: two binds are equal exactly when their getters agree |
| Keys.KeyIgnoresPadding | src/Di/Container.php:318-321 | names that differ only by trim characters at either end get the same key |
| Keys.TrimIsUnpaddedCore | src/Di/Container.php:318-321 | the key is an infix of the name, with only trim characters cut on either side and none left at its ends |
| Keys.KeyIdempotent | src/Di/Container.php:318-321 | normalising a key again changes nothing |
| Keys.UnpaddedNamesKeepDistinctKeys | src/Di/Container.php:318-321 | different names without padding keep different keys, so case and interior characters matter |
| Keys.KeyExamples | src/Di/Container.php:318-321 | a leading namespace backslash and trailing blanks are ignored; letter case is not |
| Registry.LookupNotFound | src/Di/Container.php:365-375 | a lookup fails exactly when nothing is stored under the key, and then with DI_BIND_NOT_EXIST |
| Registry.LookupIgnoresPadding | src/Di/Container.php:365-370 | padded and unpadded names find the same bind, or both fail |
| Registry.PutNonMock | src/Di/Container.php:345-354 | a non-mock bind is refused exactly when its key is taken, even by a mock; otherwise exactly one entry is added and the others are kept |
| Registry.PutMock | src/Di/Container.php:332-343 | a mock is refused outside test mode; in test mode it replaces any entry for its key, and the others are kept |
| Registry.LookupAfterPut | src/Di/Container.php:328-375 | after a registration a lookup of that key finds the new bind, and every other lookup is unchanged |
| Registry.DuplicateKeepsFirst | src/Di/Container.php:345-352 | a second non-mock bind for a key is refused, and the first one stays the one found |
| Registry.PutAll | src/Di/Container.php:98-100 | registering a list keeps every existing key; on success the stack is the one reached by storing the binds one after another (`Registered`), so a later mock for a key overrides what was stored there, and every bind's key is bound |
| Registry.PutAllErrSticky | src/Di/Container.php:98-100 | once a bind is refused, the later binds change neither the error nor the stack |
| Registry.PutAllStopsAtFailure | src/Di/Container.php:98-100 | a failed registration stopped at one bind: the binds before it are registered, and the error is the one that bind raised |
| Registry.PutAllFresh | src/Di/Container.php:98-100 | mock-free binds with fresh, pairwise different keys all register, each in order |
| Registry.PutAllNonMockSucceeds | src/Di/Container.php:98-100 | without mocks, a list registers exactly when its keys are fresh and pairwise different |
| Registry.PutAllNonMockContents | src/Di/Container.php:98-100 | such a list keeps the old entries, stores each bind under its key, and adds no other key |
| Registry.RegisteredKeys | src/Di/Container.php:341-354 | storing a list of binds in order adds exactly their keys |
| Registry.RegisteredStores | src/Di/Container.php:341-354 | a bind of the list is the one stored under its key whenever no later bind of the list has the same key |
| Registry.RegisteredKeeps | src/Di/Container.php:341-354 | keys no bind of the list normalises to keep their entries |
| Resolution.GetEvolves | src/Di/Container.php:203-250 | `get` leaves the bind stack untouched, keeps every cached singleton, only adds objects and appends to the log, and caches only Singleton keys ranked no higher than the name |
| Resolution.GetRouteEvolves | src/Di/Container.php:170-190 | the same for `getRoute`, whose newly cached keys are all ranked below the route |
| Resolution.CreateInstanceEvolves | src/Di/Container.php:260-309 | the same for `createInstance`; an object it returns is one it allocated |
| Resolution.InstantiateEvolves | src/Di/Container.php:275-304 | on success the second half of `createInstance` returns the object it allocated first |
| Resolution.ResolveArgsEvolves | src/Di/Container.php:268-272 | the constructor-parameter loop only lets the state evolve |
| Resolution.InjectPropsEvolves | src/Di/Container.php:281-298 | the property loop changes existing objects only in the fields of the object being injected |
| Resolution.InjectOneEvolves | src/Di/Container.php:283-297 | the same for one round of that loop |
| Resolution.ConstructGrows | src/Di/Container.php:275-279 | construction keeps every object and adds one under a new id |
| Resolution.SetFieldGrows | src/Di/Container.php:291-297 | `setValue` changes one field of one object and logs only about that object |
| Resolution.ResolveArgsSticky | src/Di/Container.php:269-272 | a failing constructor parameter ends the loop: the later parameters change nothing |
| Resolution.InjectPropsSticky | src/Di/Container.php:283-298 | a failing property injection ends the loop: the later properties change nothing |
| ResolutionFacts.UnboundNameFails | src/Di/Container.php:365-375 | `get` and `getRoute` of an unbound name fail with DI_BIND_NOT_EXIST and change nothing |
| ResolutionFacts.GetRefusesRoute | src/Di/Container.php:223-228 | `get` of a Route bind fails with DI_GET_ROUTE_FROM_FROM_WRONG_GETTER and changes nothing |
| ResolutionFacts.GetRouteRefusesOthers | src/Di/Container.php:183-187 | `getRoute` of any other scope fails with DI_BIND_IS_NOT_ROUTE and changes nothing |
| ResolutionFacts.GetRouteAlwaysFresh | src/Di/Container.php:189 | `getRoute` of a Route bind is `createInstance`: a new object, with the route's key neither read from nor written to the cache |
| ResolutionFacts.MockAndProvidesDirect | src/Di/Container.php:218-221 | Mock and Provides binds never touch the cache: a callable is called, and any other value is returned as it is |
| ResolutionFacts.PlainValueGet | src/Di/Container.php:218-221 | a non-callable Mock or Provides value is returned, and nothing changes |
| ResolutionFacts.TransientFactory | src/Di/Container.php:245-247 | a Transient callable is called on every `get`, and the cache is untouched |
| ResolutionFacts.TransientConstructs | src/Di/Container.php:249 | a Transient class bind constructs a new object on every `get`, and never caches its key |
| ResolutionFacts.TransientTwiceDistinct | src/Di/Container.php:243-249 | two `get`s of a Transient class bind return different objects |
| ResolutionFacts.SingletonHit | src/Di/Container.php:230-240 | a cached singleton is returned from the cache, and nothing else happens |
| ResolutionFacts.SingletonMissFactory | src/Di/Container.php:231-233 | on a miss the factory is called exactly once; what it returns is cached, and a throw caches nothing |
| ResolutionFacts.SingletonMissClass | src/Di/Container.php:231-236 | on a miss `createInstance` runs exactly once; its object is cached, and a failure leaves the key uncached |
| ResolutionFacts.SingletonFailureNotCached | src/Di/Container.php:231-237 | a failed `get` of an uncached singleton leaves it uncached |
| ResolutionFacts.SingletonStable | src/Di/Container.php:230-241 | after a successful `get` of a singleton, the next `get` returns the identical value and does nothing else |
| ResolutionFacts.CachedSurvivesGet | src/Di/Container.php:230-241 | a cached singleton is still served unchanged after any other `get`, also one deep in a graph |
| ResolutionFacts.CachedSurvivesGetRoute | src/Di/Container.php:170-190 | a cached singleton is still served unchanged after any `getRoute` |
| ResolutionFacts.CacheStaysScoped | src/Di/Container.php:230-241 | only Singleton binds are ever cached: `get` and `getRoute` keep this invariant |
| ConstructionFacts.CreateInstanceFacts | src/Di/Container.php:260-304 | a successful `createInstance` returns a new object of the class with the resolved arguments. Its events are construction, `afterInstanceCreated`, one injection per `#[Inject]` property in order, then `beforeReturnInstance`. Its assigned fields are exactly the `#[Inject]` ones |
| ConstructionFacts.CreateInstanceFailures | src/Di/Container.php:262-308 | the failures are passed on unchanged: an unknown class, the first failing parameter, a throwing constructor, and the first failing `get` of an `#[Inject]` property |
| ConstructionFacts.InjectPropsFailure | src/Di/Container.php:283-308 | a failing property loop fails at an `#[Inject]` property, after the earlier ones succeeded, with exactly the error and the state that property's `get` gave |
| ConstructionFacts.InstantiateFailure | src/Di/Container.php:275-308 | a failing `Instantiate` passes on the error of the failing property injection of the object it constructed |
| ConstructionFacts.ResolveArgsSteps | src/Di/Container.php:268-272 | the parameter loop is a chain of `get`s in declared order, collecting their values in that order; on failure the error is that of the first failing `get` |
| ConstructionFacts.InstantiateObject | src/Di/Container.php:275-298 | the constructed object has the class and arguments given and exactly the injected fields |
| ConstructionFacts.InstantiateLog | src/Di/Container.php:275-302 | the log is construction, `afterInstanceCreated`, the property loop's events, then `beforeReturnInstance` |
| ConstructionFacts.InstantiateEvents | src/Di/Container.php:275-302 | the events about the new object come in hook order, with `beforeReturnInstance` last |
| ConstructionFacts.InjectPropsFields | src/Di/Container.php:281-298 | the property loop assigns exactly the `#[Inject]` properties, whatever their visibility |
| ConstructionFacts.InjectOneFields | src/Di/Container.php:284-297 | one round assigns its property if it carries `#[Inject]`, and no other |
| ConstructionFacts.InjectPropsEvents | src/Di/Container.php:281-298 | the loop logs one injection event per `#[Inject]` property about the object, in declared order |
| ConstructionFacts.InjectOneEvents | src/Di/Container.php:284-297 | one round logs about the object only its own injection |
| ConstructionFacts.InjectOneKeepsOtherFields | src/Di/Container.php:291-297 | one round leaves every other field as it was |
| ConstructionFacts.InjectOneValue | src/Di/Container.php:293-297 | one round on an `#[Inject]` property succeeds only when `get` of the property's type does, and assigns exactly the value that `get` returned |
| ConstructionFacts.InjectPropsValue | src/Di/Container.php:281-298 | after the loop, every `#[Inject]` property holds the value `get` of its type returned when the loop reached it, in the state the earlier properties left |
| ConstructionFacts.InstantiateFieldValue | src/Di/Container.php:275-298 | the object `Instantiate` returns holds, in each `#[Inject]` property, the value `get` of its type returned after construction and the earlier injections |
| ConstructionFacts.InjectOnePlainValue | src/Di/Container.php:293-297 | a property bound to a plain Mock or Provides value receives exactly that value |
| ConstructionFacts.MockSeenByConstructor | src/Di/Container.php:269-275 | a constructor parameter bound to a plain Mock or Provides value receives exactly that value |
| ConstructionFacts.MockSeenByInjection | src/Di/Container.php:283-298 | an `#[Inject]` property bound to a plain Mock or Provides value holds exactly that value at the end |
| Lifecycle.Build | src/Di/Container.php:132-141 | a `build` that succeeds leaves a container in place |
| Lifecycle.ReadyRanked | src/Di/Container.php:172-174 | the container `build([])` leaves in place is one the rank covers |
| Lifecycle.BuildEmptyKeeps | src/Di/Container.php:134-140 | `build([])` with a container in place changes nothing |
| Lifecycle.BuildConstructorFails | src/Di/Container.php:134-136 | when the new container's constructor throws, `build` fails with that error and keeps the old container |
| Lifecycle.BuildReplaces | src/Di/Container.php:132-141 | a replacing `build` starts from the file binds and an empty cache; on success the stack is the file binds with the supplied binds stored over them in order, and every supplied name is bound |
| Lifecycle.BuildLastBindWins | src/Di/Container.php:132-141 | after a successful replacing `build`, a supplied name finds its bind unless a later supplied bind has the same key |
| Lifecycle.BuildMockVisible | test/Di/ContainerTest.php:220-238 | in test mode `build` with one mock succeeds whenever the files load, and the mock is then the bind found under its name, overriding the files |
| Lifecycle.BuildFailsPartWay | src/Di/Container.php:135-140 | a supplied bind refused part-way leaves the new container, with an empty cache and the binds before the refused one |
| Lifecycle.BuildRegistersAll | src/Di/Container.php:132-141 | fresh, distinct, mock-free supplied binds are all found under their names, and the file binds are kept |
| Lifecycle.LazyGet | src/Di/Container.php:206-208 | with no container the static `get` first runs `build([])`; if that throws, `get` fails with its error and nothing changes |
| Lifecycle.LazyGetRoute | src/Di/Container.php:172-174 | the same for the static `getRoute` |
| Lifecycle.GetOnExisting | src/Di/Container.php:210-250 | with a container in place, the static `get` is `get` on it |
| Lifecycle.GetAfterResetConstructs | src/Di/Container.php:149-156 | after `reset`, `get` of a class Singleton constructs it again, giving an object at or above the runtime's next id, so outside its heap before the call |
| Containers.Container.constructor | src/Di/Container.php:62-69 | a container starts with an empty bind stack and an empty cache |
| Containers.Container.PutBindInStack | src/Di/Container.php:328-355 | updates `bindStack` in place exactly as `Registry.PutBindInStack` says, and leaves it unchanged on failure |
| Containers.Container.PutAll | src/Di/Container.php:98-100 | the registration loop ends in the state `Registry.PutAll` describes |
| Containers.Container.Invoke | src/Di/Container.php:220 | `call_user_func`: one logged call into the factory |
| Containers.Container.Get | src/Di/Container.php:215-249 | updates the cache and the runtime exactly as `Resolution.Get` says |
| Containers.Container.GetRoute | src/Di/Container.php:181-189 | exactly as `Resolution.GetRoute` |
| Containers.Container.CreateInstance | src/Di/Container.php:260-309 | exactly as `Resolution.CreateInstance` |
| Containers.Container.ResolveArgs | src/Di/Container.php:266-272 | the loop appending to `$constructorArgs` ends as `Resolution.ResolveArgs` says |
| Containers.Container.Instantiate | src/Di/Container.php:275-304 | construction, hooks and injection, exactly as `Resolution.Instantiate` |
| Containers.Container.InjectProps | src/Di/Container.php:281-298 | the property loop ends as `Resolution.InjectProps` says |
| Containers.Container.InjectOne | src/Di/Container.php:284-297 | one round of it, exactly as `Resolution.InjectOne` |
| Containers.Process.constructor | src/Di/Container.php:55 | a process starts without a container |
| Containers.Process.NewContainer | src/Di/Container.php:74-121 | `new self()` gives a new container holding the bind stack `Lifecycle.Fresh` describes, or the error that stopped it |
| Containers.Process.Build | src/Di/Container.php:132-141 | updates `selfInstance` exactly as `Lifecycle.Build` says; a replacement is a new container |
| Containers.Process.Reset | src/Di/Container.php:149-156 | afterwards there is no container, whether there was one or not |
| Containers.Process.Get | src/Di/Container.php:203-250 | the lazy start, then `get` on the current container, as `Lifecycle.StaticGet` says |
| Containers.Process.GetRoute | src/Di/Container.php:170-190 | the same for `getRoute`, as `Lifecycle.StaticGetRoute` says |

## Left out

- The logger (src/Di/Container.php:48, 76-77, 306 and the `debug` and `info` calls): it is output with no effect on the result.
- File loading in `initBinds` and `initRoutes` (`is_file`, `is_readable`, `require`) is not modelled. The files' contents are inputs (`Lifecycle.Config`): a missing or unreadable file is an empty list. Their paths, public static fields in the source, are fixed for the whole process.
- Reflection is not modelled. `ReflectionClass`, `getConstructor`, `getProperties`, `getAttributes`, `setAccessible` and `newInstanceArgs` are replaced by a `Resolution.Plan` per class name. The plan's parameter types are the type names `get` is called with.
- Untyped constructor parameters and properties are not modelled: in the source `getType()` returns null there and `get` fails with a PHP error.
- md5 in `keyBuilder` is not modelled: the key is the trimmed name itself, which is the injective reading of the hash.
- `is_callable` is not modelled: callability is a tag of the value (`Binds.Value.Callable`).
- What a factory does is an input (`Resolution.Env.invoke`), and so is its outcome. A factory cannot re-enter the container, call `build` or `reset`, or change the objects created so far.
- Resolution.CreateInstance: a class is looked up in the plans by its exact name. PHP's `ReflectionClass` ignores letter case in class names and accepts a leading `\`, so names that differ in those ways would reach the same class there.
- Resolution.Plan: whether a constructor throws is fixed per class (`ctorThrows`). It does not depend on the arguments or on what happened before, as a real constructor's throwing can.
- Resolution.CreateInstance: an object given as a bind's value is treated as an unknown class. PHP's `ReflectionClass` would reflect that object's own class instead.
- A throwing constructor is not logged: `Resolution.CreateInstance` fails with the state its parameters left, so the attempt leaves no event.
- Constructors and hooks only log their call. They cannot call the container or change other objects.
- Objects that factories return are not allocated in the runtime: `Resolution.Env.invoke` may return any `Ref`. Nothing keeps such an object apart from the objects the container constructs, so `Lifecycle.GetAfterResetConstructs` speaks of the runtime's heap, not of every object seen before.
- Throwing `afterInstanceCreated` or `beforeReturnInstance` hooks and throwing property setters are not modelled. Of the exceptions user code can raise, only a throwing constructor or factory is.
- Cycle detection: the source has none, and on a cycle PHP stops with a fatal memory or stack error. The model requires an acyclic rank (`Resolution.WellRanked`) instead.
- The rank covers every bind in the stack. A container holding a cycle that no lookup reaches is therefore outside the model, although the source serves its other names.
- Concurrency: the source is single-threaded PHP.
- The PHPStan extension (test/Resources/InjectPropertiesPhpStan.php) is not modelled: it is static analysis, not runtime behaviour.
- Resolution.Get / GetRoute / CreateInstance / ResolveArgs / InjectProps / InjectOne: the functions' own contracts state only what their recursion needs. The stack is kept, the objects are kept, and the log does not shrink. The full effect on the state is stated by the matching `…Evolves` lemma.
- Containers.Container.Get and the other resolution methods: they are proved equal to the functions, with the rank as a ghost argument. They do not go through the static `get` the way the source's recursion does. That static `get` reaches the same container unless a factory rebuilds it, which the model excludes.
