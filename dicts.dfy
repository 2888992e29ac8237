/** Python dictionaries as insertion-ordered sequences of key/value pairs with string keys. */
module OrderedDicts {
  import opened Wrappers

  type Dict<V> = seq<(string, V)>

  /** The position of `key` in `d`, or -1. */
  function KeyIndex<V>(d: Dict<V>, key: string): (i: int)
    ensures -1 <= i < |d|
    ensures i >= 0 ==> d[i].0 == key && forall j :: 0 <= j < i ==> d[j].0 != key
    ensures i < 0 ==> forall j :: 0 <= j < |d| ==> d[j].0 != key
  {
    if d == [] then -1
    else if d[0].0 == key then 0
    else
      var j := KeyIndex(d[1..], key);
      if j < 0 then -1 else j + 1
  }

  /** `d.get(key)`. */
  function Get<V>(d: Dict<V>, key: string): Option<V> {
    var i := KeyIndex(d, key);
    if i < 0 then None else Some(d[i].1)
  }

  /** No key occurs twice. */
  predicate KeysDistinct<V>(d: Dict<V>) {
    forall i, j :: 0 <= i < j < |d| ==> d[i].0 != d[j].0
  }

  /** `d[key] = value`: an existing key keeps its position, a new key goes last. */
  function Assign<V>(d: Dict<V>, key: string, value: V): (r: Dict<V>)
    ensures KeysDistinct(d) ==> KeysDistinct(r)
    ensures Get(r, key) == Some(value)
    ensures forall k :: k != key ==> Get(r, k) == Get(d, k)
    ensures forall e :: e in r ==> e == (key, value) || e in d
  {
    var i := KeyIndex(d, key);
    if i < 0 then
      assert forall k :: k != key ==> KeyIndex(d + [(key, value)], k) == KeyIndex(d, k) by {
        forall k | k != key ensures KeyIndex(d + [(key, value)], k) == KeyIndex(d, k) {
          KeyIndexAppend(d, (key, value), k);
        }
      }
      assert forall n :: 0 <= n < |d| ==> (d + [(key, value)])[n] == d[n];
      assert (d + [(key, value)])[|d|].0 == key;
      d + [(key, value)]
    else
      assert forall k :: k != key ==> KeyIndex(d[i := (key, value)], k) == KeyIndex(d, k) by {
        forall k | k != key ensures KeyIndex(d[i := (key, value)], k) == KeyIndex(d, k) {
          KeyIndexUpdate(d, i, value, k);
        }
      }
      assert forall n :: 0 <= n < |d| ==> d[i := (key, value)][n].0 == d[n].0;
      d[i := (key, value)]
  }

  lemma KeyIndexAppend<V>(d: Dict<V>, e: (string, V), k: string)
    requires e.0 != k
    ensures KeyIndex(d + [e], k) == KeyIndex(d, k)
  {
    var i := KeyIndex(d + [e], k);
    var j := KeyIndex(d, k);
    assert forall n :: 0 <= n < |d| ==> (d + [e])[n] == d[n];
  }

  lemma KeyIndexUpdate<V>(d: Dict<V>, i: nat, value: V, k: string)
    requires i < |d| && d[i].0 != k
    ensures KeyIndex(d[i := (d[i].0, value)], k) == KeyIndex(d, k)
  {
    var a := KeyIndex(d[i := (d[i].0, value)], k);
    var b := KeyIndex(d, k);
    assert forall n :: 0 <= n < |d| ==> d[i := (d[i].0, value)][n].0 == d[n].0;
  }

  /** The dictionary built by assigning the pairs `ps` in order: `d = {}; for k, v in ps: d[k] = v`. */
  function FromPairs<V>(ps: seq<(string, V)>): Dict<V>
    decreases |ps|
  {
    if ps == [] then [] else Assign(FromPairs(ps[..|ps| - 1]), ps[|ps| - 1].0, ps[|ps| - 1].1)
  }

  /** The position of the last pair with key `key`, or -1. */
  function LastIndex<V>(ps: seq<(string, V)>, key: string): (i: int)
    ensures -1 <= i < |ps|
    ensures i >= 0 ==> ps[i].0 == key && forall j :: i < j < |ps| ==> ps[j].0 != key
    ensures i < 0 ==> forall j :: 0 <= j < |ps| ==> ps[j].0 != key
  {
    if ps == [] then -1
    else if ps[|ps| - 1].0 == key then |ps| - 1
    else LastIndex(ps[..|ps| - 1], key)
  }

  /** The value of the last pair with key `key`, if any. */
  function LastValue<V>(ps: seq<(string, V)>, key: string): Option<V> {
    var i := LastIndex(ps, key);
    if i < 0 then None else Some(ps[i].1)
  }

  /** Every key occurs once and holds the value of the last pair with that key; later pairs overwrite earlier ones. */
  lemma {:induction false} LastPairWins<V>(ps: seq<(string, V)>)
    ensures KeysDistinct(FromPairs(ps))
    ensures forall key :: Get(FromPairs(ps), key) == LastValue(ps, key)
    decreases |ps|
  {
    if ps != [] {
      var init := ps[..|ps| - 1];
      LastPairWins(init);
      forall key
        ensures Get(FromPairs(ps), key) == LastValue(ps, key)
      {
        if key != ps[|ps| - 1].0 {
          var i := LastIndex(init, key);
          if i >= 0 {
            assert init[i] == ps[i];
          }
        }
      }
    }
  }

  /** Every entry of the dictionary is one of the pairs. */
  lemma {:induction false} FromPairsEntries<V>(ps: seq<(string, V)>)
    ensures forall e :: e in FromPairs(ps) ==> e in ps
    decreases |ps|
  {
    if ps != [] {
      FromPairsEntries(ps[..|ps| - 1]);
    }
  }
}
