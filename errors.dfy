/** The failures the container raises or lets through, and a result type carrying them. */
module Errors {
  import opened Binds

  datatype Error =
    /** DI_BIND_NOT_EXIST: no bind under the normalised name. */
    | BindNotExist(name: string)
    /** A non-mock bind whose normalised name is already taken (no error code in the source). */
    | BindAlreadyExists(name: string)
    /** DI_SET_MOCK_BIND_IN_NON_TEST: a mock bind registered while PHP_DI_TEST is not defined. */
    | MockBindInNonTest(name: string)
    /** DI_GET_ROUTE_FROM_FROM_WRONG_GETTER: `get` on a Route bind. */
    | RouteFromWrongGetter(name: string)
    /** DI_BIND_IS_NOT_ROUTE: `getRoute` on a bind of another scope. */
    | BindIsNotRoute(name: string)
    /** ReflectionException: the value to instantiate does not name a known class. */
    | ClassNotFound(value: Value)
    /** An exception thrown by a class constructor, passed on unchanged. */
    | ConstructorThrew(cls: string)
    /** An exception thrown by a factory, passed on unchanged. */
    | FactoryThrew(f: FactoryId)

  datatype Result<T> = Ok(value: T) | Err(error: Error)

  datatype Option<T> = None | Some(value: T)
}
