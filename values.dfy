/**
 * Python values as they travel through keyword arguments, configuration
 * objects and plotting-call arguments, with Python's truthiness rule, and the
 * validated configuration object that every builder receives.
 */
module Values {

  /** A keyword-argument value: the shapes a plotting configuration can hold. */
  datatype Value =
    | None
    | Str(s: string)
    | Bool(b: bool)
    | Int(i: int)
    | Real(r: real)
    | List(items: seq<Value>)
    | Dict(entries: map<string, Value>)

  /** Python's `bool(v)`: None, "", False, 0, 0.0, [] and {} are falsy. */
  predicate Truthy(v: Value) {
    match v
    case None => false
    case Str(s) => s != ""
    case Bool(b) => b
    case Int(i) => i != 0
    case Real(r) => r != 0.0
    case List(items) => items != []
    case Dict(entries) => entries != map[]
  }

  /** Python's `a or b`: the first operand when it is truthy, else the second. */
  function Or(a: Value, b: Value): Value {
    if Truthy(a) then a else b
  }

  /** The stock success/failure wrapper, usable with `:-`. */
  datatype Result<+T, +E> = Ok(value: T) | Err(error: E) {
    predicate IsFailure() { Err? }
    function PropagateFailure<U>(): Result<U, E>
      requires Err?
    {
      Err(error)
    }
    function Extract(): T
      requires Ok?
    {
      value
    }
  }

  /** Keyword arguments, as the `**kwargs` dictionary of a call. */
  type Args = map<string, Value>

  /**
   * A validated configuration model: the declared fields (every one of them,
   * given or defaulted) and the extra keyword arguments the model kept.
   */
  datatype Config = Config(fields: map<string, Value>, extras: map<string, Value>) {
    /** `model_dump()`: declared fields and extras in one dictionary. */
    function Dump(): (d: map<string, Value>)
      requires fields.Keys !! extras.Keys
      ensures d.Keys == fields.Keys + extras.Keys
      ensures forall n :: n in fields ==> d[n] == fields[n]
      ensures forall n :: n in extras ==> d[n] == extras[n]
    {
      fields + extras
    }

    /** The value of a declared field; None for a name the model lacks. */
    function Field(name: string): Value {
      if name in fields then fields[name] else None
    }
  }

  /** Attribute access on a configuration object failed. */
  datatype AttributeError = AttributeError(name: string)

  /**
   * `getattr(config, name)`: declared fields first, then extras kept by the
   * model; any other name raises AttributeError.
   */
  function Attr(c: Config, name: string): (r: Result<Value, AttributeError>)
    ensures r.Ok? <==> name in c.fields || name in c.extras
    ensures name in c.fields ==> r == Ok(c.fields[name])
    ensures name !in c.fields && name in c.extras ==> r == Ok(c.extras[name])
    ensures r.Err? ==> r.error == AttributeError(name)
  {
    if name in c.fields then Ok(c.fields[name])
    else if name in c.extras then Ok(c.extras[name])
    else Err(AttributeError(name))
  }
}
