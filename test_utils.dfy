/**
 * The test suite's nested-key lookup: follow a chain of keys from a parsed
 * document and return what is found at its end, or None when a key is missing.
 */
module TestUtils {
  import opened Wrappers
  import opened Document
  import Schema

  /**
   * `get_nested_key(obj, chain)`. The chain is taken from the front of a
   * copy, so the caller's chain is never changed; an empty chain raises
   * IndexError, and a missing key at any level yields None (`Null`).
   */
  function GetNestedKey(obj: Node, chain: seq<string>): (r: Result<Node, PyError>)
    ensures chain == [] ==> r == Failure(IndexError)
    ensures |chain| == 1 && obj.Dict? ==>
      r == Success(if chain[0] in obj.entries then obj.entries[chain[0]] else Null)
    decreases |chain|
  {
    if chain == [] then Failure(IndexError)
    else
      match Contains(obj, chain[0])
      case Failure(e) => Failure(e)
      case Success(found) =>
        if !found then Success(Null)
        else
          match Subscript(obj, chain[0])
          case Failure(e) => Failure(e)
          case Success(v) => if |chain| > 1 then GetNestedKey(v, chain[1..]) else Success(v)
  }

  /**
   * The value reached by descending through mappings along `chain`, defined
   * from the last key backwards; None when a key is missing or a value on
   * the way is not a mapping.
   */
  function ValueAt(obj: Node, chain: seq<string>): Maybe<Node>
    decreases |chain|
  {
    if chain == [] then Some(obj)
    else
      var last := chain[|chain| - 1];
      match ValueAt(obj, chain[..|chain| - 1])
      case Some(Dict(m)) => if last in m then Some(m[last]) else None
      case _ => None
  }

  /** ValueAt read from the front: one step into `obj`, then the rest of the chain. */
  lemma {:induction false} ValueAtCons(obj: Node, head: string, tail: seq<string>)
    ensures ValueAt(obj, [head] + tail) ==
      if obj.Dict? && head in obj.entries then ValueAt(obj.entries[head], tail) else None
    decreases |tail|
  {
    var chain := [head] + tail;
    if tail == [] {
      assert chain[..0] == [];
    } else {
      assert chain[..|chain| - 1] == [head] + tail[..|tail| - 1];
      assert chain[|chain| - 1] == tail[|tail| - 1];
      ValueAtCons(obj, head, tail[..|tail| - 1]);
    }
  }

  /** Along a path of mappings that exists, the lookup returns the value at its end. */
  lemma {:induction false} GetNestedKeyFound(obj: Node, chain: seq<string>, v: Node)
    requires chain != [] && ValueAt(obj, chain) == Some(v)
    ensures GetNestedKey(obj, chain) == Success(v)
    decreases |chain|
  {
    assert chain == [chain[0]] + chain[1..];
    ValueAtCons(obj, chain[0], chain[1..]);
    if |chain| > 1 {
      GetNestedKeyFound(obj.entries[chain[0]], chain[1..], v);
    } else {
      assert chain[1..] == [];
    }
  }

  /** A key missing from a mapping at any level of the path yields None. */
  lemma {:induction false} GetNestedKeyMissing(obj: Node, chain: seq<string>, k: nat, m: map<string, Node>)
    requires k < |chain| && ValueAt(obj, chain[..k]) == Some(Dict(m)) && chain[k] !in m
    ensures GetNestedKey(obj, chain) == Success(Null)
    decreases k
  {
    if k == 0 {
      assert chain[..0] == [];
    } else {
      ValueAtCons(obj, chain[0], chain[1..k]);
      assert chain[..k] == [chain[0]] + chain[1..k];
      assert chain[1..][..k - 1] == chain[1..k];
      GetNestedKeyMissing(obj.entries[chain[0]], chain[1..], k - 1, m);
    }
  }

  /** The `exists` helper of the defaulting pass answers whether this lookup finds a value other than None. */
  lemma {:induction false} ExistsMirrorsGetNestedKey(obj: Node, chain: seq<string>)
    ensures Schema.Exists(obj, chain) ==
      match GetNestedKey(obj, chain)
      case Success(v) => Success(v != Null)
      case Failure(e) => Failure(e)
    decreases |chain|
  {
    if |chain| > 1 && Contains(obj, chain[0]) == Success(true) && Subscript(obj, chain[0]).Success? {
      ExistsMirrorsGetNestedKey(Subscript(obj, chain[0]).value, chain[1..]);
    }
  }
}
