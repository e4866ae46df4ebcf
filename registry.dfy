/**
 * The bind registry of src/Di/Container.php as functions over the bind stack: registration
 * (`putBindInStack`), lookup (`getBindFromStack`) and the loops that register a list of binds
 * one after another (`initBinds`, `initRoutes`, `build`).
 */
module Registry {
  import opened Binds
  import opened Keys
  import opened Errors

  /** `bindStack`: normalised key to bind. */
  type BindStack = map<Key, Bind>

  /** `getBindFromStack`: the bind stored under the normalised name, or DI_BIND_NOT_EXIST. */
  function GetBindFromStack(stack: BindStack, name: string): Result<Bind> {
    var key := KeyBuilder(name);
    if key in stack then Ok(stack[key]) else Err(BindNotExist(name))
  }

  /**
   * `putBindInStack`: a mock bind overwrites whatever is stored under its key, but only in
   * test mode (`defined("PHP_DI_TEST")`); any other bind is refused when its key is taken,
   * by a mock or not.  On failure nothing is stored.
   */
  function PutBindInStack(testMode: bool, stack: BindStack, b: Bind): Result<BindStack> {
    var key := KeyBuilder(b.GetBinds());
    if b.GetScope() == Mock then
      if !testMode then Err(MockBindInNonTest(b.GetBinds())) else Ok(stack[key := b])
    else if key in stack then Err(BindAlreadyExists(b.GetBinds()))
    else Ok(stack[key := b])
  }

  /** A lookup fails exactly when nothing is stored under the normalised name, and then with DI_BIND_NOT_EXIST. */
  lemma LookupNotFound(stack: BindStack, name: string)
    ensures GetBindFromStack(stack, name).Err? <==> KeyBuilder(name) !in stack
    ensures GetBindFromStack(stack, name).Err? ==> GetBindFromStack(stack, name).error == BindNotExist(name)
  {
  }

  /** Names that differ only by padding find the same bind, and both fail or both succeed. */
  lemma LookupIgnoresPadding(stack: BindStack, pre: string, name: string, post: string)
    requires Padding(pre) && Padding(post)
    ensures GetBindFromStack(stack, pre + name + post).Ok? == GetBindFromStack(stack, name).Ok?
    ensures GetBindFromStack(stack, name).Ok? ==>
              GetBindFromStack(stack, pre + name + post) == GetBindFromStack(stack, name)
  {
    KeyIgnoresPadding(pre, name, post);
  }

  /** A non-mock bind is refused, whatever the mode, exactly when its key is already taken. */
  lemma PutNonMock(testMode: bool, stack: BindStack, b: Bind)
    requires b.scope != Mock
    ensures KeyBuilder(b.binds) in stack ==>
              PutBindInStack(testMode, stack, b) == Err(BindAlreadyExists(b.binds))
    ensures KeyBuilder(b.binds) !in stack ==>
              && PutBindInStack(testMode, stack, b).Ok?
              && PutBindInStack(testMode, stack, b).value.Keys == stack.Keys + {KeyBuilder(b.binds)}
              && PutBindInStack(testMode, stack, b).value[KeyBuilder(b.binds)] == b
              && forall k :: k in stack ==> PutBindInStack(testMode, stack, b).value[k] == stack[k]
  {
  }

  /** A mock bind is refused outside test mode and otherwise replaces any entry for its key. */
  lemma PutMock(testMode: bool, stack: BindStack, b: Bind)
    requires b.scope == Mock
    ensures !testMode ==> PutBindInStack(testMode, stack, b) == Err(MockBindInNonTest(b.binds))
    ensures testMode ==>
              && PutBindInStack(testMode, stack, b).Ok?
              && PutBindInStack(testMode, stack, b).value.Keys == stack.Keys + {KeyBuilder(b.binds)}
              && PutBindInStack(testMode, stack, b).value[KeyBuilder(b.binds)] == b
              && forall k :: k in stack && k != KeyBuilder(b.binds) ==>
                   PutBindInStack(testMode, stack, b).value[k] == stack[k]
  {
  }

  /** After a successful registration every lookup of that key finds the new bind and every other lookup is as before. */
  lemma LookupAfterPut(testMode: bool, stack: BindStack, b: Bind, name: string)
    requires PutBindInStack(testMode, stack, b).Ok?
    ensures GetBindFromStack(PutBindInStack(testMode, stack, b).value, name) ==
              if KeyBuilder(name) == KeyBuilder(b.binds) then Ok(b) else GetBindFromStack(stack, name)
  {
  }

  /** Registering a second non-mock bind for a key fails and the first one stays the one found. */
  lemma DuplicateKeepsFirst(testMode: bool, stack: BindStack, a: Bind, b: Bind)
    requires PutBindInStack(testMode, stack, a).Ok?
    requires b.scope != Mock && KeyBuilder(b.binds) == KeyBuilder(a.binds)
    ensures PutBindInStack(testMode, PutBindInStack(testMode, stack, a).value, b).Err?
    ensures GetBindFromStack(PutBindInStack(testMode, stack, a).value, b.binds) == Ok(a)
  {
  }

  /**
   * Register `bs` in order (the `foreach ... putBindInStack` loops), stopping at the first
   * failure; the stack returned is the one reached, holding everything registered before
   * the failing bind.  On success every bind has been stored under its key in turn, so a
   * later mock for a key overrides what was stored there before.
   */
  function PutAll(testMode: bool, stack: BindStack, bs: seq<Bind>): (r: (Result<()>, BindStack))
    ensures stack.Keys <= r.1.Keys
    ensures r.0.Ok? ==> r.1 == Registered(stack, bs)
    ensures r.0.Ok? ==> forall i :: 0 <= i < |bs| ==> KeyBuilder(bs[i].binds) in r.1
  {
    if bs == [] then (Ok(()), stack)
    else
      var init := bs[..|bs| - 1];
      var (o, s) := PutAll(testMode, stack, init);
      if o.Err? then (o, s)
      else
        var p := PutBindInStack(testMode, s, bs[|bs| - 1]);
        if p.Err? then (Err(p.error), s)
        else
          assert p.value == s[KeyBuilder(bs[|bs| - 1].binds) := bs[|bs| - 1]];
          assert forall i :: 0 <= i < |init| ==> init[i] == bs[i];
          (Ok(()), p.value)
  }

  /** The registry a fresh container starts with: the binds file, then the routes file (constructor, `initBinds`, `initRoutes`). */
  function LoadFiles(testMode: bool, bindsFile: seq<Bind>, routesFile: seq<Bind>): (Result<()>, BindStack) {
    var (o, s) := PutAll(testMode, map[], bindsFile);
    if o.Err? then (o, s) else PutAll(testMode, s, routesFile)
  }

  /** Once a prefix fails, registering more binds changes neither the error nor the stack. */
  lemma {:induction false} PutAllErrSticky(testMode: bool, stack: BindStack, bs: seq<Bind>, n: nat)
    requires n <= |bs| && PutAll(testMode, stack, bs[..n]).0.Err?
    ensures PutAll(testMode, stack, bs) == PutAll(testMode, stack, bs[..n])
    decreases |bs| - n
  {
    if n < |bs| {
      assert bs[..n + 1][..n] == bs[..n];
      PutAllErrSticky(testMode, stack, bs, n + 1);
    } else {
      assert bs[..n] == bs;
    }
  }

  /**
   * A failed `PutAll` stopped at a bind `bs[i]`: everything before it was registered, the
   * stack returned is exactly that, and the error is the one `bs[i]` raised.
   */
  lemma {:induction false} PutAllStopsAtFailure(testMode: bool, stack: BindStack, bs: seq<Bind>) returns (i: nat)
    requires PutAll(testMode, stack, bs).0.Err?
    ensures i < |bs|
    ensures PutAll(testMode, stack, bs[..i]) == (Ok(()), PutAll(testMode, stack, bs).1)
    ensures PutBindInStack(testMode, PutAll(testMode, stack, bs).1, bs[i]) == Err(PutAll(testMode, stack, bs).0.error)
  {
    var init := bs[..|bs| - 1];
    var (o, s) := PutAll(testMode, stack, init);
    if o.Err? {
      i := PutAllStopsAtFailure(testMode, stack, init);
      assert init[..i] == bs[..i];
      assert init[i] == bs[i];
    } else {
      i := |bs| - 1;
      assert bs[..i] == init;
    }
  }

  /** All keys of `bs` are new to `stack` and pairwise different. */
  predicate FreshDistinct(stack: BindStack, bs: seq<Bind>) {
    && (forall i :: 0 <= i < |bs| ==> KeyBuilder(bs[i].binds) !in stack)
    && (forall i, j :: 0 <= i < j < |bs| ==> KeyBuilder(bs[i].binds) != KeyBuilder(bs[j].binds))
  }

  predicate NoMocks(bs: seq<Bind>) {
    forall i :: 0 <= i < |bs| ==> bs[i].scope != Mock
  }

  /** The stack reached by storing every bind of `bs` under its key, in order. */
  function Registered(stack: BindStack, bs: seq<Bind>): BindStack {
    if bs == [] then stack
    else Registered(stack, bs[..|bs| - 1])[KeyBuilder(bs[|bs| - 1].binds) := bs[|bs| - 1]]
  }

  /** The normalised keys of a list of binds. */
  function KeysOf(bs: seq<Bind>): set<Key> {
    set i | 0 <= i < |bs| :: KeyBuilder(bs[i].binds)
  }

  lemma KeysOfSnoc(bs: seq<Bind>)
    requires bs != []
    ensures KeysOf(bs) == KeysOf(bs[..|bs| - 1]) + {KeyBuilder(bs[|bs| - 1].binds)}
  {
    var init := bs[..|bs| - 1];
    assert forall i :: 0 <= i < |init| ==> init[i] == bs[i];
  }

  lemma {:induction false} RegisteredKeys(stack: BindStack, bs: seq<Bind>)
    ensures Registered(stack, bs).Keys == stack.Keys + KeysOf(bs)
  {
    if bs != [] {
      RegisteredKeys(stack, bs[..|bs| - 1]);
      KeysOfSnoc(bs);
    }
  }

  /** Keys no bind of `bs` normalises to keep their entries. */
  lemma {:induction false} RegisteredKeeps(stack: BindStack, bs: seq<Bind>, k: Key)
    requires k in stack && k !in KeysOf(bs)
    ensures k in Registered(stack, bs) && Registered(stack, bs)[k] == stack[k]
  {
    if bs != [] {
      KeysOfSnoc(bs);
      RegisteredKeeps(stack, bs[..|bs| - 1], k);
    }
  }

  /** The last bind of `bs` for a key is the one found under it: no later bind has that key. */
  lemma {:induction false} RegisteredStores(stack: BindStack, bs: seq<Bind>, i: nat)
    requires i < |bs| && forall j :: i < j < |bs| ==> KeyBuilder(bs[j].binds) != KeyBuilder(bs[i].binds)
    ensures KeyBuilder(bs[i].binds) in Registered(stack, bs) && Registered(stack, bs)[KeyBuilder(bs[i].binds)] == bs[i]
  {
    if i < |bs| - 1 {
      var init := bs[..|bs| - 1];
      assert init[i] == bs[i];
      assert forall j :: i < j < |init| ==> init[j] == bs[j];
      RegisteredStores(stack, init, i);
    }
  }

  /** Fresh, distinct, mock-free binds all register: the result is `Registered`. */
  lemma {:induction false} PutAllFresh(testMode: bool, stack: BindStack, bs: seq<Bind>)
    requires NoMocks(bs) && FreshDistinct(stack, bs)
    ensures PutAll(testMode, stack, bs) == (Ok(()), Registered(stack, bs))
  {
    if bs != [] {
      var init, last := bs[..|bs| - 1], bs[|bs| - 1];
      assert forall i :: 0 <= i < |init| ==> init[i] == bs[i];
      assert NoMocks(init) && FreshDistinct(stack, init);
      PutAllFresh(testMode, stack, init);
      RegisteredKeys(stack, init);
      assert KeyBuilder(last.binds) !in KeysOf(init);
      PutNonMock(testMode, Registered(stack, init), last);
    }
  }

  /** Without mocks, registering a list succeeds exactly when its keys are fresh and pairwise distinct. */
  lemma {:induction false} PutAllNonMockSucceeds(testMode: bool, stack: BindStack, bs: seq<Bind>)
    requires NoMocks(bs)
    ensures PutAll(testMode, stack, bs).0.Ok? <==> FreshDistinct(stack, bs)
  {
    if bs != [] && PutAll(testMode, stack, bs).0.Ok? {
      var init, last := bs[..|bs| - 1], bs[|bs| - 1];
      var lk := KeyBuilder(last.binds);
      assert forall i :: 0 <= i < |init| ==> init[i] == bs[i];
      assert NoMocks(init);
      PutAllNonMockSucceeds(testMode, stack, init);
      PutAllFresh(testMode, stack, init);
      RegisteredKeys(stack, init);
      PutNonMock(testMode, Registered(stack, init), last);
      assert lk !in stack && lk !in KeysOf(init);
      forall i, j | 0 <= i < j < |bs| ensures KeyBuilder(bs[i].binds) != KeyBuilder(bs[j].binds) {
        if j == |bs| - 1 {
          assert KeyBuilder(init[i].binds) in KeysOf(init);
        }
      }
    }
    if FreshDistinct(stack, bs) {
      PutAllFresh(testMode, stack, bs);
    }
  }

  /** A successful registration of a mock-free list keeps the old entries and stores every bind under its own key, and nothing else. */
  lemma PutAllNonMockContents(testMode: bool, stack: BindStack, bs: seq<Bind>)
    requires NoMocks(bs) && FreshDistinct(stack, bs)
    ensures PutAll(testMode, stack, bs).0.Ok?
    ensures forall k :: k in stack ==> PutAll(testMode, stack, bs).1[k] == stack[k]
    ensures forall i :: 0 <= i < |bs| ==> PutAll(testMode, stack, bs).1[KeyBuilder(bs[i].binds)] == bs[i]
    ensures PutAll(testMode, stack, bs).1.Keys == stack.Keys + KeysOf(bs)
  {
    PutAllFresh(testMode, stack, bs);
    RegisteredKeys(stack, bs);
    forall k | k in stack ensures Registered(stack, bs)[k] == stack[k] {
      RegisteredKeeps(stack, bs, k);
    }
    forall i | 0 <= i < |bs| ensures Registered(stack, bs)[KeyBuilder(bs[i].binds)] == bs[i] {
      RegisteredStores(stack, bs, i);
    }
  }
}
