/**
 * The in-memory value that YAML parsing produces for a blueprint, and the
 * two Python operations the core applies to it before it is typed:
 * membership (`key in obj`) and subscription (`obj[key]`) with a string key.
 */
module Document {
  import opened Wrappers

  /** A parsed YAML value: `None`, a scalar, a list or a mapping with string keys. */
  datatype Node =
    | Null
    | Bool(b: bool)
    | Int(i: int)
    | Str(s: string)
    | List(items: seq<Node>)
    | Dict(entries: map<string, Node>)

  /** The Python exceptions the modelled code can raise. */
  datatype PyError =
    | KeyError(key: string)
    | TypeError
    | IndexError
    | ValueError

  /** `p in s` for two strings: `p` occurs somewhere in `s`. */
  predicate IsSubstring(p: string, s: string)
    decreases |s|
  {
    p <= s || (s != [] && IsSubstring(p, s[1..]))
  }

  /**
   * `key in obj`: a key test on a mapping, a substring test on a string, an
   * element test on a list; `None`, booleans and integers raise TypeError.
   */
  function Contains(obj: Node, key: string): (r: Result<bool, PyError>)
    ensures obj.Dict? ==> r == Success(key in obj.entries)
    ensures obj.Null? || obj.Bool? || obj.Int? ==> r == Failure(TypeError)
  {
    match obj
    case Dict(m) => Success(key in m)
    case Str(s) => Success(IsSubstring(key, s))
    case List(items) => Success(Str(key) in items)
    case _ => Failure(TypeError)
  }

  /** `obj[key]`: only a mapping accepts a string subscript. */
  function Subscript(obj: Node, key: string): (r: Result<Node, PyError>)
    ensures r.Success? <==> obj.Dict? && key in obj.entries
    ensures r.Success? ==> r.value == obj.entries[key]
    ensures obj.Dict? && key !in obj.entries ==> r == Failure(KeyError(key))
  {
    match obj
    case Dict(m) => if key in m then Success(m[key]) else Failure(KeyError(key))
    case _ => Failure(TypeError)
  }
}
