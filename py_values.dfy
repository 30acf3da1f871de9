/** Optional values, used where the plugin returns or stores Python's None. */
module Wrappers {
  datatype Option<+T> = None | Some(value: T)
}

/** The dynamically typed values the episode plugin reads out of dictionaries,
    and the helper functions of the host application that it calls but whose
    bodies are not part of this model. */
module PyValues {
  import opened Wrappers

  /** A Python value as the plugin meets it: dictionary entries, provider
      answers, attribute values. Dictionaries here are keyed by strings. */
  datatype PyValue =
    | NoneValue
    | Bool(b: bool)
    | Int(i: int)
    | Str(s: string)
    | List(items: seq<PyValue>)
    | Dict(entries: map<string, PyValue>)

  /** Python truthiness: None, False, 0 and empty containers are false. */
  predicate Truthy(v: PyValue) {
    match v
    case NoneValue => false
    case Bool(b) => b
    case Int(i) => i != 0
    case Str(s) => s != []
    case List(items) => items != []
    case Dict(entries) => entries != map[]
  }

  /** `d.get(key, default)` */
  function Get(d: map<string, PyValue>, key: string, default: PyValue): PyValue {
    if key in d then d[key] else default
  }

  /** The values the plugin iterates, measures with `len` and indexes with
      `[0]`: lists, and strings, which Python walks one character at a time.
      (Iterating a dictionary walks its keys in an order Python 2 leaves
      unspecified; such values are not modelled.) */
  predicate IsSequence(v: PyValue) {
    v.List? || v.Str?
  }

  /** What `for x in v` visits, in order. */
  function Elements(v: PyValue): (r: seq<PyValue>)
    requires IsSequence(v)
    ensures v.List? ==> r == v.items
    ensures v.Str? ==> |r| == |v.s| && forall i :: 0 <= i < |r| ==> r[i] == Str([v.s[i]])
  {
    if v.List? then v.items else seq(|v.s|, i requires 0 <= i < |v.s| => Str([v.s[i]]))
  }

  /** The helpers the plugin imports (`tryInt`, `toUnicode`, `str.lower`,
      `simplifyString`), kept abstract: what the model states about them
      holds for every choice of these functions, except where a lemma names
      an assumption about them in its `requires`. */
  datatype Helpers = Helpers(
    // Python's `int(v)`: the integer, or None when the conversion raises
    intOf: PyValue -> Option<int>,
    // the value `tryInt` returns when called without an explicit default
    tryIntDefault: Option<int>,
    // `toUnicode` on a value that is not already text
    unicodeOf: PyValue -> string,
    // `str.lower`
    lower: string -> string,
    // `simplifyString`
    simplify: string -> string)

  /** `tryInt(v, default)`: the converted integer, or the default when the
      conversion fails. It never raises. */
  function TryInt(h: Helpers, v: PyValue, default: Option<int>): (r: Option<int>)
    ensures r == default || (r.Some? && h.intOf(v) == r)
    ensures h.intOf(v).Some? ==> r == h.intOf(v)
  {
    match h.intOf(v)
    case Some(n) => Some(n)
    case None => default
  }

  /** Python's `int(None)` raises, as it does for every value without a
      number in it. */
  predicate IntOfNoneFails(h: Helpers) {
    h.intOf(NoneValue) == None
  }

  /** `toUnicode(v)`: text is returned as it is. */
  function ToUnicode(h: Helpers, v: PyValue): string {
    if v.Str? then v.s else h.unicodeOf(v)
  }
}
