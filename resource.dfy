/**
 * The three-state outcome of an asynchronous operation (Resource.kt):
 * a sealed class with one subclass per state, three factories and a
 * structural `equals` over status, data and error.
 */
module Resources {
  import opened Optional

  /** Resource.Status */
  datatype Status = SUCCESS | ERROR | LOADING

  /**
   * SuccessResource always carries data, ErrorResource always carries an
   * error (an opaque value of type E), LoadingResource may carry stale data.
   */
  datatype Resource<D, E> =
    | SuccessResource(payload: D)
    | ErrorResource(cause: E)
    | LoadingResource(partial: Option<D>)

  /** The `status` property each subclass passes to the base constructor. */
  function StatusOf<D, E>(r: Resource<D, E>): (s: Status)
    ensures s == SUCCESS <==> r.SuccessResource?
    ensures s == ERROR <==> r.ErrorResource?
    ensures s == LOADING <==> r.LoadingResource?
  {
    match r
    case SuccessResource(_) => SUCCESS
    case ErrorResource(_) => ERROR
    case LoadingResource(_) => LOADING
  }

  /** The nullable `data` property: never present on an error. */
  function DataOf<D, E>(r: Resource<D, E>): (d: Option<D>)
    ensures d.Some? ==> StatusOf(r) != ERROR
    ensures StatusOf(r) == SUCCESS ==> d.Some?
  {
    match r
    case SuccessResource(x) => Some(x)
    case ErrorResource(_) => None
    case LoadingResource(od) => od
  }

  /** The nullable `error` property: present exactly on an error. */
  function ErrorOf<D, E>(r: Resource<D, E>): (e: Option<E>)
    ensures e.Some? <==> StatusOf(r) == ERROR
  {
    match r
    case ErrorResource(x) => Some(x)
    case _ => None
  }

  /** Resource.success(data) */
  function Success<D, E>(data: D): (r: Resource<D, E>)
    ensures StatusOf(r) == SUCCESS && DataOf(r) == Some(data) && ErrorOf(r) == None
  {
    SuccessResource(data)
  }

  /** Resource.error(error) */
  function Error<D, E>(error: E): (r: Resource<D, E>)
    ensures StatusOf(r) == ERROR && DataOf(r) == None && ErrorOf(r) == Some(error)
  {
    ErrorResource(error)
  }

  /** Resource.loading(data = null) */
  function Loading<D, E>(data: Option<D>): (r: Resource<D, E>)
    ensures StatusOf(r) == LOADING && DataOf(r) == data && ErrorOf(r) == None
  {
    LoadingResource(data)
  }

  /** The `Any?` argument of `equals`: null, a Resource, or a value of another class. */
  datatype AnyValue<D, E> = Null | AResource(resource: Resource<D, E>) | NotAResource

  /** Both resources are instances of the same subclass (`this::class == other::class`). */
  predicate SameClass<D, E>(a: Resource<D, E>, b: Resource<D, E>)
  {
    (a.SuccessResource? && b.SuccessResource?) ||
    (a.ErrorResource? && b.ErrorResource?) ||
    (a.LoadingResource? && b.LoadingResource?)
  }

  /**
   * Resource.equals: false for null and for another class, otherwise status,
   * data and error are compared. The identity shortcut (`this === other`)
   * gives the same answer as the comparison, so it is not modelled separately.
   */
  predicate Equals<D(==), E(==)>(self: Resource<D, E>, other: AnyValue<D, E>)
    ensures Equals(self, other) ==> other.AResource? && StatusOf(self) == StatusOf(other.resource)
    ensures other == AResource(self) ==> Equals(self, other)
  {
    match other
    case Null => false
    case NotAResource => false
    case AResource(r) =>
      SameClass(self, r) &&
      StatusOf(self) == StatusOf(r) && DataOf(self) == DataOf(r) && ErrorOf(self) == ErrorOf(r)
  }

  /** `equals` between two resources coincides with structural equality of the model. */
  lemma EqualsIsStructural<D, E>(a: Resource<D, E>, b: Resource<D, E>)
    ensures Equals(a, AResource(b)) <==> a == b
  {
    if Equals(a, AResource(b)) {
      match a
      case SuccessResource(x) => assert DataOf(b) == Some(x);
      case ErrorResource(x) => assert ErrorOf(b) == Some(x);
      case LoadingResource(od) => assert DataOf(b) == od;
    }
  }

  /** A resource never equals null nor a value that is not a Resource. */
  lemma NeverEqualsNullOrForeign<D, E>(a: Resource<D, E>)
    ensures !Equals(a, Null) && !Equals(a, NotAResource)
  {
  }

  /** Resources with different statuses are never equal. */
  lemma DifferentStatusNeverEqual<D, E>(a: Resource<D, E>, b: Resource<D, E>)
    requires StatusOf(a) != StatusOf(b)
    ensures !Equals(a, AResource(b))
  {
  }

  /** `equals` is reflexive and symmetric. */
  lemma EqualsReflexiveSymmetric<D, E>(a: Resource<D, E>, b: Resource<D, E>)
    ensures Equals(a, AResource(a))
    ensures Equals(a, AResource(b)) <==> Equals(b, AResource(a))
  {
    EqualsIsStructural(a, b);
    EqualsIsStructural(b, a);
  }

  /** Two factory results are equal exactly when their arguments are. */
  lemma FactoriesEqualIffArgumentsEqual<D, E>(x: D, y: D, e: E, f: E, od: Option<D>, oe: Option<D>)
    ensures Equals(Success<D, E>(x), AResource(Success(y))) <==> x == y
    ensures Equals(Error<D, E>(e), AResource(Error(f))) <==> e == f
    ensures Equals(Loading<D, E>(od), AResource(Loading(oe))) <==> od == oe
    ensures !Equals(Success<D, E>(x), AResource(Error(e)))
    ensures !Equals(Success<D, E>(x), AResource(Loading(od)))
    ensures !Equals(Error<D, E>(e), AResource(Loading(od)))
  {
  }
}
