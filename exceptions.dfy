/** Python exception classes as far as the core inspects them: each class has
    a name and a list of base classes (Python allows several), and
    `isinstance` follows every base, however far up. */
module Exceptions {
  import opened Wrappers

  datatype ExceptionClass = ExceptionClass(name: string, bases: seq<ExceptionClass>)

  /** A raised exception: an instance of some class. */
  datatype Exception = Exception(cls: ExceptionClass, message: string)

  /** `issubclass(c, target)`: `target` is `c` itself or a superclass of one
      of its bases. */
  predicate IsSubclass(c: ExceptionClass, target: ExceptionClass)
    decreases c, 1, 0
  {
    c == target || SomeBaseFrom(c, 0, target)
  }

  /** Some base of `c` at index `i` or later is a subclass of `target`. */
  predicate SomeBaseFrom(c: ExceptionClass, i: nat, target: ExceptionClass)
    decreases c, 0, |c.bases| - i
  {
    i < |c.bases| && (IsSubclass(c.bases[i], target) || SomeBaseFrom(c, i + 1, target))
  }

  /** `isinstance(e, target)`. */
  predicate IsInstance(e: Exception, target: ExceptionClass)
  {
    IsSubclass(e.cls, target)
  }

  const BaseExceptionClass := ExceptionClass("BaseException", [])
  /** The root of the classes that `except Exception` catches. */
  const ExceptionRootClass := ExceptionClass("Exception", [BaseExceptionClass])
  const ValueErrorClass := ExceptionClass("ValueError", [ExceptionRootClass])
  /** What `json.loads` raises on a malformed payload. */
  const JsonDecodeErrorClass := ExceptionClass("JSONDecodeError", [ValueErrorClass])
  /** What `bytes.decode('utf-8')` raises on bytes that are not UTF-8. */
  const UnicodeErrorClass := ExceptionClass("UnicodeError", [ValueErrorClass])
  const UnicodeDecodeErrorClass := ExceptionClass("UnicodeDecodeError", [UnicodeErrorClass])
  /** What a call raises when a keyword argument names a parameter that is
      already bound. */
  const TypeErrorClass := ExceptionClass("TypeError", [ExceptionRootClass])
  /** `rele.worker.NotConnectionError` derives from BaseException directly. */
  const NotConnectionErrorClass := ExceptionClass("NotConnectionError", [BaseExceptionClass])
  /** `google.api_core.exceptions.AlreadyExists` and its bases. */
  const GoogleApiErrorClass := ExceptionClass("GoogleAPIError", [ExceptionRootClass])
  const GoogleApiCallErrorClass := ExceptionClass("GoogleAPICallError", [GoogleApiErrorClass])
  const ClientErrorClass := ExceptionClass("ClientError", [GoogleApiCallErrorClass])
  const ConflictClass := ExceptionClass("Conflict", [ClientErrorClass])
  const AlreadyExistsClass := ExceptionClass("AlreadyExists", [ConflictClass])
  /** `concurrent.futures.TimeoutError`, raised by `future.result(timeout)`,
      and its base `concurrent.futures.Error`. */
  const FuturesErrorClass := ExceptionClass("Error", [ExceptionRootClass])
  const TimeoutErrorClass := ExceptionClass("TimeoutError", [FuturesErrorClass])
  /** `rele.contrib.unrecoverable_middleware.UnrecoverableException`. */
  const UnrecoverableExceptionClass := ExceptionClass("UnrecoverableException", [ExceptionRootClass])

  /** `issubclass` is transitive: an instance of a subclass of `mid` is an
      instance of every class `mid` derives from. */
  lemma {:induction false} SubclassTransitive(c: ExceptionClass, mid: ExceptionClass, target: ExceptionClass)
    requires IsSubclass(c, mid) && IsSubclass(mid, target)
    ensures IsSubclass(c, target)
    decreases c, 1, 0
  {
    if c != mid {
      SomeBaseTransitive(c, 0, mid, target);
    }
  }

  /** The base-list half of `SubclassTransitive`. */
  lemma {:induction false} SomeBaseTransitive(c: ExceptionClass, i: nat, mid: ExceptionClass, target: ExceptionClass)
    requires SomeBaseFrom(c, i, mid) && IsSubclass(mid, target)
    ensures SomeBaseFrom(c, i, target)
    decreases c, 0, |c.bases| - i
  {
    if IsSubclass(c.bases[i], mid) {
      SubclassTransitive(c.bases[i], mid, target);
    } else {
      SomeBaseTransitive(c, i + 1, mid, target);
    }
  }

  /** A superclass of any one base, not only the first, is a superclass of
      the class. */
  lemma InheritsFromEveryBase(c: ExceptionClass, i: nat, target: ExceptionClass)
    requires i < |c.bases| && IsSubclass(c.bases[i], target)
    ensures IsSubclass(c, target)
  {
    SomeBaseAt(c, 0, i, target);
  }

  lemma {:induction false} SomeBaseAt(c: ExceptionClass, j: nat, i: nat, target: ExceptionClass)
    requires j <= i < |c.bases| && IsSubclass(c.bases[i], target)
    ensures SomeBaseFrom(c, j, target)
    decreases i - j
  {
    if j < i {
      SomeBaseAt(c, j + 1, i, target);
    }
  }

  /** A class without bases is a subclass of itself only. */
  lemma RootOnly(c: ExceptionClass, target: ExceptionClass)
    requires c.bases == []
    ensures IsSubclass(c, target) <==> c == target
  {
  }

  /** A class with one base is a subclass of exactly itself and the
      superclasses of that base. */
  lemma SingleBase(c: ExceptionClass, target: ExceptionClass)
    requires |c.bases| == 1
    ensures IsSubclass(c, target) <==> c == target || IsSubclass(c.bases[0], target)
  {
    assert !SomeBaseFrom(c, 1, target);
  }

  /** A handler raising NotConnectionError escapes an `except Exception`
      clause, while the errors the core raises itself are caught by one. */
  lemma CaughtByExceptClause()
    ensures !IsSubclass(NotConnectionErrorClass, ExceptionRootClass)
    ensures IsSubclass(AlreadyExistsClass, ExceptionRootClass)
    ensures IsSubclass(JsonDecodeErrorClass, ValueErrorClass)
    ensures IsSubclass(JsonDecodeErrorClass, ExceptionRootClass)
    ensures IsSubclass(UnicodeDecodeErrorClass, ExceptionRootClass)
    ensures IsSubclass(TypeErrorClass, ExceptionRootClass)
    ensures IsSubclass(TimeoutErrorClass, ExceptionRootClass)
    ensures IsSubclass(UnrecoverableExceptionClass, ExceptionRootClass)
  {
    RootOnly(BaseExceptionClass, ExceptionRootClass);
    SingleBase(NotConnectionErrorClass, ExceptionRootClass);
    var root := ExceptionRootClass;
    SingleBase(ValueErrorClass, root);
    SingleBase(JsonDecodeErrorClass, root);
    SingleBase(JsonDecodeErrorClass, ValueErrorClass);
    SingleBase(UnicodeErrorClass, root);
    SingleBase(UnicodeDecodeErrorClass, root);
    SingleBase(TypeErrorClass, root);
    SingleBase(FuturesErrorClass, root);
    SingleBase(TimeoutErrorClass, root);
    SingleBase(UnrecoverableExceptionClass, root);
    SingleBase(GoogleApiErrorClass, root);
    SingleBase(GoogleApiCallErrorClass, root);
    SingleBase(ClientErrorClass, root);
    SingleBase(ConflictClass, root);
    SingleBase(AlreadyExistsClass, root);
  }
}
