/** The generic tagged tree the preferences file holds: a dictionary, an
    array, a 64-bit integer or a string. The dictionary keeps its pairs in
    insertion order; a lookup answers with the first pair carrying the key.
    The tree's text grammar is not part of this model. */
module Benc {
  import opened Options
  import opened CInts

  datatype Node =
    | BInt(n: int64)
    | BString(s: string)
    | BArray(items: seq<Node>)
    | BDict(pairs: seq<Pair>)

  datatype Pair = Pair(key: string, val: Node)

  type Dict = seq<Pair>

  /** The value stored under `key`, if any. */
  function Lookup(d: Dict, key: string): Option<Node>
  {
    if |d| == 0 then None
    else if d[0].key == key then Some(d[0].val)
    else Lookup(d[1..], key)
  }

  /** The keys of a dictionary, in order. */
  function Keys(d: Dict): (ks: seq<string>)
  {
    seq(|d|, i requires 0 <= i < |d| => d[i].key)
  }

  /** `BencDict::GetInt`: the integer under `key`; None when the key is
      absent or its value is another kind of node. */
  function GetInt(d: Dict, key: string): Option<int64>
  {
    match Lookup(d, key)
    case Some(BInt(n)) => Some(n)
    case _ => None
  }

  /** `BencDict::GetString`. */
  function GetString(d: Dict, key: string): Option<string>
  {
    match Lookup(d, key)
    case Some(BString(s)) => Some(s)
    case _ => None
  }

  /** `BencDict::GetArray`. */
  function GetArray(d: Dict, key: string): Option<seq<Node>>
  {
    match Lookup(d, key)
    case Some(BArray(items)) => Some(items)
    case _ => None
  }

  /** `BencDict::GetDict`. */
  function GetDict(d: Dict, key: string): Option<Dict>
  {
    match Lookup(d, key)
    case Some(BDict(pairs)) => Some(pairs)
    case _ => None
  }

  /** `BencArray::GetInt`: element `i` when it exists and is an integer. */
  function ArrayGetInt(items: seq<Node>, i: nat): Option<int64>
  {
    if i < |items| && items[i].BInt? then Some(items[i].n) else None
  }

  /** `BencArray::GetDict`: element `i` when it exists and is a dictionary. */
  function ArrayGetDict(items: seq<Node>, i: nat): Option<Dict>
  {
    if i < |items| && items[i].BDict? then Some(items[i].pairs) else None
  }

  /** A lookup in `a + b` consults `b` only when `a` lacks the key. */
  lemma {:induction false} LookupConcat(a: Dict, b: Dict, key: string)
    ensures Lookup(a + b, key) == if Lookup(a, key).Some? then Lookup(a, key) else Lookup(b, key)
  {
    if |a| == 0 {
      assert a + b == b;
    } else {
      assert (a + b)[1..] == a[1..] + b;
      LookupConcat(a[1..], b, key);
    }
  }

  /** A key that only one value is stored under, in any of its pairs, is
      looked up to that value. */
  lemma {:induction false} LookupIn(d: Dict, key: string, v: Node)
    requires Pair(key, v) in d
    requires forall p :: p in d && p.key == key ==> p.val == v
    ensures Lookup(d, key) == Some(v)
  {
    if d[0].key != key {
      assert Pair(key, v) in d[1..];
      LookupIn(d[1..], key, v);
    }
  }

  /** A key that no pair carries is looked up to nothing. */
  lemma {:induction false} LookupNotIn(d: Dict, key: string)
    requires forall p :: p in d ==> p.key != key
    ensures Lookup(d, key) == None
  {
    if |d| > 0 {
      assert d[0] in d;
      LookupNotIn(d[1..], key);
    }
  }
}
