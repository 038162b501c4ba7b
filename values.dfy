/** The JavaScript values that travel through the wrapper: question descriptors,
    override records, answer maps and the validator callbacks inside them. */
module Values {

  datatype Option<T> = None | Some(value: T)

  /** What a prompt validator returns: `true`/`false`, or a message to show
      before the question is asked again. */
  datatype Verdict = Flag(ok: bool) | Message(text: string)

  /** A validator callback placed under the `validate` key. `Custom` is one the
      caller wrote; `NumberGuard` is the closure `askForNumber` installs, which
      remembers the caller's earlier validator (if any) and the host's
      `isNaN(Number(input))` test as `isNumber`. */
  datatype Validator =
    | Custom(check: string -> Verdict)
    | NumberGuard(isNumber: string -> bool, inner: Option<Validator>)

  /** A JavaScript value as far as the wrapper can observe it. `Callback` is a
      caller function other than a validator (a `filter`, say): the wrapper
      only copies it. Numbers are reals; NaN is not represented. */
  datatype Value =
    | Undefined
    | Null
    | Bool(b: bool)
    | Num(n: real)
    | Str(s: string)
    | List(items: seq<Value>)
    | Obj(fields: map<string, Value>)
    | Validate(validator: Validator)
    | Callback(tag: string)

  /** A plain object: a descriptor, an override record or an answer map. */
  type Record = map<string, Value>

  /** The text the built-in numeric guard answers with. */
  const NotANumber := "A valid number is expected!"

  /** JavaScript truthiness (`!v` is `!Truthy(v)`): the falsy values are
      exactly `undefined`, `null`, `false`, `0` and `""`. */
  function Truthy(v: Value): (t: bool)
    ensures !t <==> (v == Undefined || v == Null || v == Bool(false) || v == Num(0.0) || v == Str(""))
  {
    match v
    case Undefined => false
    case Null => false
    case Bool(b) => b
    case Num(n) => n != 0.0
    case Str(s) => s != ""
    case _ => true
  }

  /** Property read `r[key]`: a missing key reads as `undefined`. */
  function Get(r: Record, key: string): (v: Value)
    ensures key in r ==> v == r[key]
    ensures key !in r ==> v.Undefined?
  {
    if key in r then r[key] else Undefined
  }

  /** Runs a validator on the typed input. A guard rejects a non-number with
      the fixed message before anything else runs, accepts a number when it
      holds no earlier validator, and otherwise answers what the earlier
      validator answers. */
  function Run(v: Validator, input: string): (r: Verdict)
    ensures v.Custom? ==> r == v.check(input)
    ensures v.NumberGuard? && !v.isNumber(input) ==> r == Message(NotANumber)
    ensures v.NumberGuard? && v.isNumber(input) && v.inner.None? ==> r == Flag(true)
    ensures v.NumberGuard? && v.isNumber(input) && v.inner.Some? ==> r == Run(v.inner.value, input)
  {
    match v
    case Custom(check) => check(input)
    case NumberGuard(isNumber, inner) =>
      if !isNumber(input) then Message(NotANumber)
      else if inner.None? then Flag(true)
      else Run(inner.value, input)
  }

  /** The caller's options object, which two of the helpers write to. */
  class Options {
    var fields: Record

    constructor (fields: Record)
      ensures this.fields == fields
    {
      this.fields := fields;
    }
  }
}
