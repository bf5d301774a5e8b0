/** JavaScript value shapes shared by the backend and the client:
    nullable values, request-body fields and error results. */
module Values {

  /** A nullable value: `null` (or a missing column) versus a present one. */
  datatype Option<+T> = None | Some(value: T) {
    /** `x ?? d` on a nullable value. */
    function GetOr(d: T): T {
      match this
      case Some(v) => v
      case None => d
    }
  }

  /** A key of a parsed JSON body or options object: missing (`undefined`),
      explicitly `null`, or carrying a value. The three JavaScript tests on
      such a key are kept apart below. */
  datatype Field<+T> = Absent | Null | Given(value: T)

  /** `x == null`: true for `undefined` and for `null`. */
  predicate Nullish<T>(f: Field<T>) {
    !f.Given?
  }

  /** `if (x)` on a string-valued key: `undefined`, `null` and `''` are falsy. */
  predicate TruthyStr(f: Field<string>) {
    f.Given? && f.value != ""
  }

  /** `if (x)` on a number-valued key: `undefined`, `null` and `0` are falsy. */
  predicate TruthyNum(f: Field<int>) {
    f.Given? && f.value != 0
  }

  /** `if (q)` on an optional query-string parameter (absent or `''` is falsy). */
  predicate Active(q: Option<string>) {
    q.Some? && q.value != ""
  }

  /** `f ?? current`, for a column that is itself nullable. */
  function Merge<T>(f: Field<T>, current: Option<T>): (r: Option<T>)
    ensures Nullish(f) ==> r == current
    ensures f.Given? ==> r == Some(f.value)
  {
    if f.Given? then Some(f.value) else current
  }

  /** `f ?? current`, for a column that is never null. */
  function MergeValue<T>(f: Field<T>, current: T): (r: T)
    ensures Nullish(f) ==> r == current
    ensures f.Given? ==> r == f.value
  {
    if f.Given? then f.value else current
  }

  /** A destructuring default `{ x = d } = payload`: the default replaces only
      `undefined`; an explicit `null` is kept as `null`. */
  function Default<T>(f: Field<T>, d: T): (r: Option<T>)
    ensures f.Absent? ==> r == Some(d)
    ensures f.Null? ==> r == None
    ensures f.Given? ==> r == Some(f.value)
  {
    match f
    case Absent => Some(d)
    case Null => None
    case Given(v) => Some(v)
  }

  /** A destructuring default of `null` (`{ x = null } = payload`). */
  function OrNull<T>(f: Field<T>): (r: Option<T>)
    ensures r.Some? <==> f.Given?
    ensures f.Given? ==> r.value == f.value
  {
    if f.Given? then Some(f.value) else None
  }

  /** `Number(x)` on a number-valued key: `undefined` is `NaN` (None),
      `null` is 0, and a number is itself. */
  function NumberOf(f: Field<int>): (r: Option<int>)
    ensures r.None? <==> f.Absent?
    ensures f.Null? ==> r == Some(0)
    ensures f.Given? ==> r == Some(f.value)
  {
    match f
    case Absent => None
    case Null => Some(0)
    case Given(v) => Some(v)
  }

  /** The outcome of a repository call that may throw. */
  datatype Result<+T> = Ok(value: T) | Err(message: string)

  /** The `{ ok: true }` acknowledgement returned by every `remove`. */
  datatype Ack = Ack(ok: bool)
}
