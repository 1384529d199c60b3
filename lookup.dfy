/** `Array.prototype.find` by an id field, as the two detail screens use it to
    resolve their routed id. `key` reads the id off a record. */
module Lookup {

  import opened Types

  predicate UniqueKeys<T>(xs: seq<T>, key: T -> string)
  {
    forall i, j :: 0 <= i < j < |xs| ==> key(xs[i]) != key(xs[j])
  }

  /** The position of the first record with the id, or `|xs|` if none. */
  function FirstIndexOf<T>(xs: seq<T>, key: T -> string, id: string): (k: nat)
    ensures k <= |xs|
    ensures forall j :: 0 <= j < k ==> key(xs[j]) != id
    ensures k < |xs| ==> key(xs[k]) == id
  {
    if |xs| == 0 then 0
    else if key(xs[0]) == id then 0
    else 1 + FirstIndexOf(xs[1..], key, id)
  }

  /** The first record with the id, or nothing when no record has it. */
  function Find<T>(xs: seq<T>, key: T -> string, id: string): (r: Option<T>)
    ensures r.None? <==> forall i :: 0 <= i < |xs| ==> key(xs[i]) != id
    ensures forall i :: 0 <= i < |xs| && key(xs[i]) == id && (forall j :: 0 <= j < i ==> key(xs[j]) != id)
                        ==> r == Some(xs[i])
    ensures r.Some? ==> key(r.value) == id && r.value in xs
  {
    var k := FirstIndexOf(xs, key, id);
    if k < |xs| then Some(xs[k]) else None
  }

  /** With distinct ids the lookup of a record's own id finds that record. */
  lemma FindOwnKey<T>(xs: seq<T>, key: T -> string, i: nat)
    requires UniqueKeys(xs, key) && i < |xs|
    ensures Find(xs, key, key(xs[i])) == Some(xs[i])
  {
  }
}
