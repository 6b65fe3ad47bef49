/** Python values, keyword-argument dictionaries, and the parts of Python's
    call semantics that the map helpers rely on: `dict` defaulting, the
    `f(a=..., **kwargs)` call form, truthiness and `str.lower`. */
module Py {

  datatype Option<+T> = None | Some(value: T) {
    /** The value, or `default` when absent (a Python default argument). */
    function GetOr(default: T): T {
      match this
      case Some(v) => v
      case None => default
    }
  }

  /** A Python value, as far as the model needs to tell values apart.
      `Object` stands for any other object (a provider, a dict, a float, ...),
      compared by identity and truthy as objects are by default. */
  datatype Value =
    | NoneValue
    | Bool(b: bool)
    | Int(i: int)
    | Str(s: string)
    | List(items: seq<Value>)
    | Object(id: nat)

  /** Python truthiness, as in `if v:`. */
  predicate Truthy(v: Value) {
    match v
    case NoneValue => false
    case Bool(b) => b
    case Int(i) => i != 0
    case Str(s) => s != ""
    case List(items) => items != []
    case Object(_) => true
  }

  /** A `**kwargs` dictionary: keyword name to value. */
  type Kwargs = map<string, Value>

  /** What a `ValueError` message names: the basemap string as passed, or the
      provider object the name was already rebound to. */
  datatype Culprit = NameText(name: string) | ProviderObject

  /** The exceptions the modelled code can raise. The message of a
      `TypeError` (which argument was duplicated) is not modelled. */
  datatype Error = TypeError | IndexError | ValueError(culprit: Culprit)

  datatype Result<+T> = Ok(value: T) | Err(error: Error)

  /** `if key not in m: m[key] = default`. A value already present, whatever
      it is, is never overwritten. */
  function SetDefault(m: Kwargs, key: string, default: Value): (r: Kwargs)
    ensures r.Keys == m.Keys + {key}
    ensures forall k :: k in m ==> r[k] == m[k]
    ensures key !in m ==> r[key] == default
  {
    if key in m then m else m[key := default]
  }

  /** Defaulting a key twice is defaulting it once: the second default never
      replaces the first. */
  lemma SetDefaultIdempotent(m: Kwargs, key: string, d1: Value, d2: Value)
    ensures SetDefault(SetDefault(m, key, d1), key, d2) == SetDefault(m, key, d1)
  {
  }

  /** The keyword arguments a callee receives from `f(k1=v1, ..., **extra)`,
      where `explicit` holds the arguments written out (a positional argument
      counts under the name of the parameter it binds). Python raises
      `TypeError` ("got multiple values") when a key is given both ways. */
  function KeywordCall(explicit: Kwargs, extra: Kwargs): (r: Result<Kwargs>)
    ensures r.Ok? <==> explicit.Keys !! extra.Keys
    ensures r.Err? ==> r.error == TypeError
    ensures r.Ok? ==> r.value.Keys == explicit.Keys + extra.Keys
    ensures r.Ok? ==> forall k :: k in explicit ==> r.value[k] == explicit[k]
    ensures r.Ok? ==> forall k :: k in extra ==> r.value[k] == extra[k]
  {
    if explicit.Keys !! extra.Keys then Ok(explicit + extra) else Err(TypeError)
  }

  /** `str.lower` on one character, restricted to ASCII letters (see Lower). */
  function LowerChar(c: char): char {
    if 'A' <= c <= 'Z' then (c as int + 32) as char else c
  }

  /** `str.lower`, on ASCII letters only. The model compares the result only
      with the all-ASCII words "roadmap" and "satellite"; no non-ASCII
      character lowers to a letter of either, so the comparison is exact. */
  function Lower(s: string): string {
    seq(|s|, i requires 0 <= i < |s| => LowerChar(s[i]))
  }
}
