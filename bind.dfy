/** The immutable bind record of src/Di/Bind.php and the values a bind can carry. */
module Binds {

  /** The closed set of scopes a bind can have. */
  datatype Scope = Transient | Singleton | Provides | Route | Mock

  /** Identity of an object on the PHP heap. */
  type ObjId = nat

  /** Identity of a zero-argument callable (a closure, an invocable object). */
  type FactoryId = nat

  /**
   * A PHP value as far as the container cares about it.  `Text` is a string; used as the
   * value of a Transient, Singleton or Route bind it is a class name.  `Callable` is the
   * only kind for which `is_callable` holds.
   */
  datatype Value =
    | Null
    | Num(n: int)
    | Text(s: string)
    | Ref(id: ObjId)
    | Callable(f: FactoryId)

  /**
   * A bind: its scope, the name it binds (kept exactly as given; normalisation happens
   * only in the container) and its value.  A datatype value has no setters, so a Bind
   * is immutable after construction, as the PHP class is: its promoted fields are
   * protected and it declares no setter.
   */
  datatype Bind = Bind(scope: Scope, binds: string, value: Value) {

    function GetScope(): Scope { scope }

    function GetBinds(): string { binds }

    function GetValue(): Value { value }
  }

  /** Each getter hands back exactly what the constructor was given. */
  lemma GettersReturnConstructorArguments(scope: Scope, name: string, value: Value)
    ensures Bind(scope, name, value).GetScope() == scope
    ensures Bind(scope, name, value).GetBinds() == name
    ensures Bind(scope, name, value).GetValue() == value
  {
  }

  /** Two binds are equal exactly when their three getters agree. */
  lemma BindDeterminedByGetters(a: Bind, b: Bind)
    ensures a == b <==> (a.GetScope() == b.GetScope() && a.GetBinds() == b.GetBinds() && a.GetValue() == b.GetValue())
  {
  }
}
