/** Values, errors and small wrappers shared by every part of the model. */
module Common {

  datatype Option<+T> = None | Some(value: T)

  /** The outcome of an operation that may raise one of the exceptions of `Error`. */
  datatype Result<+T> = Success(value: T) | Failure(error: Error)

  /** An operation that returns nothing but may raise. */
  datatype Outcome = Pass | Fail(error: Error)

  type ModelId = nat

  /** The exceptions raised by the modelled code. */
  datatype Error =
    | NotRegistered(model: ModelId)            // translator.NotRegistered
    | AlreadyRegistered(model: ModelId)        // translator.AlreadyRegistered
    | FallbacksWithIsnull                      // NotImplementedError from rewrite_with_fallbacks
    | ImproperlyConfigured(className: string)  // unsupported field class
    | FieldNameClash(name: string)             // ValueError from add_localized_fields
    | OptionValueError(optStr: string)         // optparse.OptionValueError from check_mode
    | FieldDoesNotExist(name: string)          // Django's FieldDoesNotExist from get_field

  /** Evaluates the results left to right and stops at the first exception, as `map`
      over a list does; otherwise the list of values. */
  function Collect<T>(rs: seq<Result<T>>): (r: Result<seq<T>>)
    ensures r.Success? <==> forall i :: 0 <= i < |rs| ==> rs[i].Success?
    ensures r.Success? ==> |r.value| == |rs| && forall i :: 0 <= i < |rs| ==> rs[i] == Success(r.value[i])
    ensures r.Failure? ==>
      exists i :: 0 <= i < |rs| && rs[i] == Failure(r.error) && forall j :: 0 <= j < i ==> rs[j].Success?
  {
    if rs == [] then Success([])
    else match rs[0]
      case Failure(e) => Failure(e)
      case Success(x) =>
        match Collect(rs[1..])
        case Failure(e) =>
          assert forall j :: 1 <= j < |rs| ==> rs[j] == rs[1..][j - 1];
          Failure(e)
        case Success(xs) => Success([x] + xs)
  }

  /** A dictionary given as its items in iteration order: its keys are distinct. */
  ghost predicate DistinctKeys<V>(items: seq<(string, V)>) {
    forall i, j :: 0 <= i < j < |items| ==> items[i].0 != items[j].0
  }

  /** The dictionary with the given items. */
  function MapOf<V>(items: seq<(string, V)>): (m: map<string, V>)
    ensures forall k :: k in m <==> exists i :: 0 <= i < |items| && items[i].0 == k
    decreases |items|
  {
    if items == [] then map[] else MapOf(items[..|items| - 1])[items[|items| - 1].0 := items[|items| - 1].1]
  }

  /** The scalar Python values the model stores in instance attributes and compares. */
  datatype Py = PyNone | PyBool(b: bool) | PyInt(i: int) | PyStr(s: string)

  /** Python's `==` on these values: `True == 1` and `False == 0`, every other pair of
      different kinds is unequal. */
  predicate PyEq(a: Py, b: Py) {
    match (a, b)
    case (PyBool(x), PyInt(n)) => n == (if x then 1 else 0)
    case (PyInt(n), PyBool(x)) => n == (if x then 1 else 0)
    case _ => a == b
  }

  /** Python truthiness. */
  predicate Truthy(v: Py) {
    match v
    case PyNone => false
    case PyBool(b) => b
    case PyInt(i) => i != 0
    case PyStr(s) => s != ""
  }
}
