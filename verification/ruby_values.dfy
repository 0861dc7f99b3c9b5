/** The Ruby values the authorization resource handles: parsed JSON bodies,
    the instants produced by Time.parse, keyword-argument hashes, and the
    exceptions raised by Hash#fetch and friends, collapsed into one failure.
 */
module RubyValues {

  /** A response body as the HTTP layer hands it over after JSON parsing:
      objects are hashes keyed by strings and `null` is nil. */
  datatype Json =
    | Null
    | Bool(b: bool)
    | Num(n: int)
    | Str(s: string)
    | Arr(items: seq<Json>)
    | Obj(fields: map<string, Json>)

  /** An instant returned by Time.parse. How Time represents it is not part of
      this model; an integer stamp keeps instants comparable for equality. */
  datatype Time = Time(stamp: int)

  /** A Ruby value held in an instance variable or passed as a keyword argument. */
  datatype Value = Data(json: Json) | Instant(time: Time)

  /** Ruby's nil. */
  const Nil: Value := Data(Null)

  /** A keyword-argument hash: symbol name to value. */
  type Args = map<string, Value>

  /** A Ruby call either returns a value or raises. The source raises KeyError,
      ArgumentError, TypeError or NoMethodError; none is rescued anywhere in the
      core, so they are one failure here. */
  datatype Outcome<+T> = Returned(value: T) | Raised {

    predicate IsFailure() {
      Raised?
    }

    function PropagateFailure<U>(): Outcome<U>
      requires Raised?
    {
      Raised
    }

    function Extract(): T
      requires Returned?
    {
      value
    }
  }

  /** An instance variable that is either nil or holds a value. */
  datatype Option<+T> = None | Some(value: T)

  /** Hash#fetch(key): raises when the key is absent, and when the receiver is
      not a hash (Array#fetch rejects a string index, nil and scalars have no
      fetch). A key present with a nil value is returned as nil. */
  function Fetch(h: Json, key: string): Outcome<Json>
  {
    if h.Obj? && key in h.fields then Returned(h.fields[key]) else Raised
  }

  /** Hash#fetch(key, default) on a hash: the default replaces only an
      absent key, never a nil value. */
  function FetchOr(fields: map<string, Json>, key: string, default: Json): Json
  {
    if key in fields then fields[key] else default
  }

  /** Hash#[](key) on a hash: nil for an absent key. */
  function Lookup(fields: map<string, Json>, key: string): Json
  {
    if key in fields then fields[key] else Null
  }
}
