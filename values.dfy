/**
 * Shared value types: the Python values that the bakery's decision logic
 * inspects, and the usual Option/Result wrappers for "missing" and "raised".
 */
module Values {

  datatype Option<+T> = None | Some(value: T)

  /** `Err` stands for an exception raised by the source. */
  datatype Result<+T, +E> = Ok(value: T) | Err(error: E)

  /**
   * A Python value as far as the model needs to tell values apart.
   * `Obj` is any other object (a model instance, a callable, ...) named by
   * an identity; `Temporal` is a date, time or datetime value and
   * `Timedelta` a duration in microseconds.
   */
  datatype Val =
    | NoneVal
    | Bool(b: bool)
    | Int(i: int)
    | Str(s: string)
    | List(items: seq<Val>)
    | Temporal(kind: TemporalKind)
    | Timedelta(micros: int)
    | Obj(id: nat)

  datatype TemporalKind = DateTimeKind | DateKind | TimeKind

  /** Python truthiness of a value. */
  predicate Truthy(v: Val)
  {
    match v
    case NoneVal => false
    case Bool(b) => b
    case Int(i) => i != 0
    case Str(s) => s != ""
    case List(items) => items != []
    case Temporal(_) => true
    case Timedelta(us) => us != 0
    case Obj(_) => true
  }
}
