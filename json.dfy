/**
 * JSON documents as the status view handles them, and the insertion-ordered
 * dictionary of the host language, on which every record of the report is built.
 */
module Json {

  datatype Option<+T> = None | Some(value: T)

  /** A dictionary with string keys, kept in insertion order. */
  type Dict<V> = seq<(string, V)>

  /** A JSON document. Numbers are kept apart as integers and floats, as the
      host language keeps them; floats are approximated by reals. */
  datatype Value =
    | Null
    | Bool(b: bool)
    | Int(i: int)
    | Float(f: real)
    | Str(s: string)
    | List(items: seq<Value>)
    | Obj(fields: Dict<Value>)

  /** The host language's truth value of a document: null, false, zero and
      empty strings, lists and objects are false, everything else is true. */
  predicate Truthy(v: Value) {
    match v
    case Null => false
    case Bool(b) => b
    case Int(i) => i != 0
    case Float(f) => f != 0.0
    case Str(s) => s != ""
    case List(xs) => xs != []
    case Obj(d) => d != []
  }

  /** The keys of a dictionary, in order. */
  function Keys<V>(d: Dict<V>): seq<string> {
    seq(|d|, i requires 0 <= i < |d| => d[i].0)
  }

  /** Looks a key up. When a key appears more than once, the last pair wins,
      as it does when a dictionary is built from a list of pairs. */
  function Get<V>(d: Dict<V>, k: string): Option<V> {
    if d == [] then None
    else if d[|d| - 1].0 == k then Some(d[|d| - 1].1)
    else Get(d[..|d| - 1], k)
  }

  /** `d.get(k, default)` */
  function GetOr<V>(d: Dict<V>, k: string, default: V): V {
    match Get(d, k)
    case Some(v) => v
    case None => default
  }

  /** Gives every pair with key `k` the value `v`, leaving each where it is. */
  function Replace<V>(d: Dict<V>, k: string, v: V): Dict<V> {
    seq(|d|, i requires 0 <= i < |d| => if d[i].0 == k then (k, v) else d[i])
  }

  /** `d[k] = v`: an existing key keeps its position, a new key goes last. */
  function Set<V>(d: Dict<V>, k: string, v: V): Dict<V> {
    if k in Keys(d) then Replace(d, k, v) else d + [(k, v)]
  }

  /** `d.update(e)`: the pairs of `e` are assigned to `d` in order. */
  function Update<V>(d: Dict<V>, e: Dict<V>): Dict<V> {
    if e == [] then d
    else Set(Update(d, e[..|e| - 1]), e[|e| - 1].0, e[|e| - 1].1)
  }

  /** No key appears twice, as in any dictionary of the host language. */
  predicate UniqueKeys<V>(d: Dict<V>) {
    forall i, j :: 0 <= i < j < |d| ==> d[i].0 != d[j].0
  }

  lemma KeysOfPrefix<V>(d: Dict<V>)
    requires d != []
    ensures Keys(d) == Keys(d[..|d| - 1]) + [d[|d| - 1].0]
  {
  }

  /** A key can be looked up exactly when it is one of the keys. */
  lemma {:induction false} GetDefined<V>(d: Dict<V>, k: string)
    ensures Get(d, k).Some? <==> k in Keys(d)
  {
    if d != [] {
      KeysOfPrefix(d);
      GetDefined(d[..|d| - 1], k);
    }
  }

  lemma {:induction false} GetReplace<V>(d: Dict<V>, k: string, v: V, k': string)
    ensures Get(Replace(d, k, v), k') ==
              if k' != k then Get(d, k')
              else if k in Keys(d) then Some(v) else None
  {
    if d != [] {
      var n := |d|;
      assert Replace(d, k, v)[..n - 1] == Replace(d[..n - 1], k, v);
      KeysOfPrefix(d);
      GetReplace(d[..n - 1], k, v, k');
      if k' == k && d[n - 1].0 != k {
        GetDefined(d[..n - 1], k);
      }
    }
  }

  /** Reading back an assignment: the assigned key has the new value, every
      other key keeps its old one. */
  lemma GetSet<V>(d: Dict<V>, k: string, v: V, k': string)
    ensures Get(Set(d, k, v), k') == if k' == k then Some(v) else Get(d, k')
  {
    if k in Keys(d) {
      GetReplace(d, k, v, k');
    } else {
      assert (d + [(k, v)])[..|d|] == d;
    }
  }

  /** An assignment keeps the key order and appends a new key. */
  lemma KeysSet<V>(d: Dict<V>, k: string, v: V)
    ensures Keys(Set(d, k, v)) == if k in Keys(d) then Keys(d) else Keys(d) + [k]
  {
  }

  /** After `d.update(e)` a key has its value from `e` if `e` has it, and
      its value from `d` otherwise. */
  lemma {:induction false} GetUpdate<V>(d: Dict<V>, e: Dict<V>, k: string)
    ensures Get(Update(d, e), k) == if k in Keys(e) then Get(e, k) else Get(d, k)
  {
    if e != [] {
      var n := |e|;
      KeysOfPrefix(e);
      GetUpdate(d, e[..n - 1], k);
      GetSet(Update(d, e[..n - 1]), e[n - 1].0, e[n - 1].1, k);
      if k != e[n - 1].0 && k in Keys(e[..n - 1]) {
        assert Get(e, k) == Get(e[..n - 1], k);
      }
    }
  }

  /** A key is found after `d.update(e)` exactly when it is a key of `d` or of `e`. */
  lemma KeysUpdate<V>(d: Dict<V>, e: Dict<V>, k: string)
    ensures k in Keys(Update(d, e)) <==> k in Keys(d) || k in Keys(e)
  {
    GetDefined(Update(d, e), k);
    GetDefined(d, k);
    GetDefined(e, k);
    GetUpdate(d, e, k);
  }

  /** In a dictionary without repeated keys, each pair is what its key reads. */
  lemma {:induction false} GetUnique<V>(d: Dict<V>, i: nat)
    requires UniqueKeys(d) && i < |d|
    ensures Get(d, d[i].0) == Some(d[i].1)
  {
    if i < |d| - 1 {
      GetUnique(d[..|d| - 1], i);
    }
  }

  /** An assignment never repeats a key. */
  lemma SetUnique<V>(d: Dict<V>, k: string, v: V)
    requires UniqueKeys(d)
    ensures UniqueKeys(Set(d, k, v))
  {
    if k !in Keys(d) {
      var s := d + [(k, v)];
      forall i, j | 0 <= i < j < |s|
        ensures s[i].0 != s[j].0
      {
        if j == |d| {
          assert Keys(d)[i] == s[i].0;
        }
      }
    }
  }

  /** `dict(pairs)` has no repeated key: a repeated name is kept once, at its
      first position, with its last value. */
  lemma {:induction false} UpdateUnique<V>(d: Dict<V>, e: Dict<V>)
    requires UniqueKeys(d)
    ensures UniqueKeys(Update(d, e))
  {
    if e != [] {
      UpdateUnique(d, e[..|e| - 1]);
      SetUnique(Update(d, e[..|e| - 1]), e[|e| - 1].0, e[|e| - 1].1);
    }
  }

  /** `dict(pairs)` of pairs without a repeated key is those pairs, in order. */
  lemma {:induction false} DictOfUnique<V>(e: Dict<V>)
    requires UniqueKeys(e)
    ensures Update([], e) == e
  {
    if e != [] {
      var n := |e|;
      var pre := e[..n - 1];
      assert UniqueKeys(pre) by {
        forall i, j | 0 <= i < j < |pre| ensures pre[i].0 != pre[j].0 {
          assert pre[i] == e[i] && pre[j] == e[j];
        }
      }
      DictOfUnique(pre);
      assert e[n - 1].0 !in Keys(pre) by {
        forall i | 0 <= i < |pre| ensures Keys(pre)[i] != e[n - 1].0 {
          assert Keys(pre)[i] == e[i].0;
        }
      }
      assert pre + [e[n - 1]] == e;
    }
  }
}
