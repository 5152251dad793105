/** The error taxonomy of weather/exceptions.py: a flat hierarchy of four
    classes directly under WeatherAPIError. */
module Exceptions {
  import opened Wrappers

  datatype ErrorClass =
    | WeatherApiError
    | WeatherApiTimeoutError
    | WeatherApiConnectionError
    | WeatherApiInvalidRequestError
    | WeatherApiNoLocationsError

  /** The base named in each class statement: WeatherAPIError derives from
      Exception, which is outside the taxonomy, and every other class from
      WeatherAPIError. */
  function Base(cls: ErrorClass): Option<ErrorClass> {
    if cls == WeatherApiError then None else Some(WeatherApiError)
  }

  /** `issubclass(sub, sup)` in the flat hierarchy: the class itself or its
      declared base. */
  predicate IsSubclass(sub: ErrorClass, sup: ErrorClass)
    ensures IsSubclass(sub, sup) <==> sub == sup || Base(sub) == Some(sup)
  {
    sub == sup || sup == WeatherApiError
  }

  /** Every class is a WeatherAPIError, WeatherAPIError is a subclass of no
      other class, and two different subclasses are unrelated. */
  lemma HierarchyIsFlat(a: ErrorClass, b: ErrorClass)
    ensures IsSubclass(a, WeatherApiError)
    ensures IsSubclass(WeatherApiError, b) ==> b == WeatherApiError
    ensures a != b && a != WeatherApiError && b != WeatherApiError ==>
              !IsSubclass(a, b) && !IsSubclass(b, a)
  {
  }

  /** A raised instance of one of the classes, with its message argument. */
  datatype ApiException = ApiException(cls: ErrorClass, message: string)

  predicate IsInstance(e: ApiException, cls: ErrorClass) {
    IsSubclass(e.cls, cls)
  }
}
