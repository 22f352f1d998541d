/** Values shared by every loader and generator: the JSON-like documents the
    scripts read and write, Python's truthiness and subscripting on them, and
    the exceptions those operations raise. */
module Values {

  datatype Option<+T> = None | Some(value: T)

  /** The Python exceptions that the modelled code can raise or catch. */
  datatype Error =
    | KeyError(key: string)
    | TypeError
    | AttributeError
    | ValueError
    | IndexError

  /** Either a value or the exception that was raised instead of computing it. */
  datatype Result<+T> = Ok(value: T) | Err(error: Error) {
    predicate IsFailure() { Err? }

    function PropagateFailure<U>(): Result<U>
      requires Err?
    {
      Err(error)
    }

    function Extract(): T
      requires Ok?
    {
      value
    }
  }

  /** A calendar date (Python's `datetime.date`). */
  datatype Date = Date(year: int, month: int, day: int)

  /** A date and a time of day (Python's `datetime.datetime`, without time zone). */
  datatype DateTime = DateTime(year: int, month: int, day: int,
                               hour: int, minute: int, second: int, microsecond: int)

  /** A JSON-like document as the Python code sees it after `json.load`, or as
      the data generator builds it (which may also hold `date` and `datetime`
      objects). Object keys are strings. */
  datatype Value =
    | Null
    | Bool(b: bool)
    | Int(i: int)
    | Real(r: real)
    | Str(s: string)
    | List(items: seq<Value>)
    | Dict(fields: map<string, Value>)
    | DateVal(date: Date)
    | DateTimeVal(dateTime: DateTime)

  /** Python's truth value of an object. */
  predicate Truthy(v: Value) {
    match v
    case Null => false
    case Bool(b) => b
    case Int(i) => i != 0
    case Real(r) => r != 0.0
    case Str(s) => s != ""
    case List(items) => items != []
    case Dict(fields) => fields != map[]
    case DateVal(_) => true
    case DateTimeVal(_) => true
  }

  /** Whether a value can be a dictionary key (lists and dicts cannot). */
  predicate Hashable(v: Value) {
    !v.List? && !v.Dict?
  }

  /** `v[key]` for a string key: a dict lookup, a KeyError when the key is
      missing, a TypeError on anything that is not a dict. */
  function Subscript(v: Value, key: string): (r: Result<Value>)
    ensures r.Ok? <==> v.Dict? && key in v.fields
    ensures r.Ok? ==> r.value == v.fields[key]
    ensures v.Dict? && key !in v.fields ==> r == Err(KeyError(key))
  {
    match v
    case Dict(fields) => if key in fields then Ok(fields[key]) else Err(KeyError(key))
    case _ => Err(TypeError)
  }

  /** `v.get(key, default)`: only dicts have `get`; anything else raises
      AttributeError. */
  function DictGet(v: Value, key: string, default: Value): (r: Result<Value>)
    ensures r.Ok? <==> v.Dict?
    ensures v.Dict? ==> r.value == (if key in v.fields then v.fields[key] else default)
  {
    match v
    case Dict(fields) => Ok(if key in fields then fields[key] else default)
    case _ => Err(AttributeError)
  }

  /** Whether `needle` occurs in `s` starting at position `i`. */
  predicate OccursAt(needle: string, s: string, i: int) {
    0 <= i <= |s| - |needle| && s[i..i + |needle|] == needle
  }

  /** Whether `needle` occurs as a contiguous part of `s`. */
  predicate IsSubstring(needle: string, s: string) {
    exists i | 0 <= i <= |s| :: OccursAt(needle, s, i)
  }

  /** Python's `key in container` for a string `key`: membership among a
      dict's keys, equality with an element of a list, substring of a string;
      any other container raises TypeError. */
  function Contains(container: Value, key: string): (r: Result<bool>)
    ensures r.Ok? <==> container.Dict? || container.List? || container.Str?
    ensures container.Dict? ==> r == Ok(key in container.fields)
    ensures container.List? ==> r == Ok(Str(key) in container.items)
  {
    match container
    case Dict(fields) => Ok(key in fields)
    case List(items) => Ok(Str(key) in items)
    case Str(s) => Ok(IsSubstring(key, s))
    case _ => Err(TypeError)
  }
}
