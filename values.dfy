/** The structured values a store item holds, and the two pieces of PHP
    semantics the store relies on: string truthiness and the ordered,
    key-unique PHP array (`$a[$k] = $v`). */
module Values {

  datatype Option<+T> = None | Some(value: T)

  /** A PHP value as it appears inside an item: scalars and nested arrays. */
  datatype Value = Null | Bool(b: bool) | Int(i: int) | Str(s: string) | Arr(entries: PhpArray)

  /** A PHP array with string keys: an ordered list of key/value pairs. */
  type PhpArray = seq<(string, Value)>

  /** PHP's `!$s` for a string: only "" and "0" convert to false. */
  predicate Falsy(s: string) {
    s == "" || s == "0"
  }

  /** The keys of an array, in order. */
  function Keys(a: PhpArray): (ks: seq<string>)
    ensures |ks| == |a|
    ensures forall i :: 0 <= i < |a| ==> ks[i] == a[i].0
  {
    if a == [] then [] else [a[0].0] + Keys(a[1..])
  }

  /** `$a[$k]`, or None when the key is absent. */
  function Get(a: PhpArray, k: string): (r: Option<Value>)
    ensures r.None? <==> k !in Keys(a)
  {
    if a == [] then None else if a[0].0 == k then Some(a[0].1) else Get(a[1..], k)
  }

  /** `$a[$k] = $v`: an existing key keeps its position and takes the new
      value; a new key is appended at the end. */
  function Put(a: PhpArray, k: string, v: Value): PhpArray
  {
    if a == [] then [(k, v)]
    else if a[0].0 == k then [(k, v)] + a[1..]
    else [a[0]] + Put(a[1..], k, v)
  }

  /** After `$a[$k] = $v`, `$a[$k]` is `$v` and every other key reads as
      before. */
  lemma {:induction false} PutGet(a: PhpArray, k: string, v: Value, k': string)
    ensures Get(Put(a, k, v), k') == if k' == k then Some(v) else Get(a, k')
  {
    if a != [] && a[0].0 != k {
      PutGet(a[1..], k, v, k');
    }
  }

  /** Assigning keeps the order of the keys and appends a new key last. */
  lemma {:induction false} PutKeys(a: PhpArray, k: string, v: Value)
    ensures Keys(Put(a, k, v)) == if k in Keys(a) then Keys(a) else Keys(a) + [k]
  {
    if a != [] && a[0].0 != k {
      PutKeys(a[1..], k, v);
    }
  }

  /** No key occurs twice. */
  predicate NoDuplicates(ks: seq<string>) {
    forall i, j :: 0 <= i < j < |ks| ==> ks[i] != ks[j]
  }

  /** The keys an array has after assigning each of `ks`, in order, to an
      array whose keys were `seen`: the first occurrence of each key fixes
      its position. */
  function AppendNew(seen: seq<string>, ks: seq<string>): seq<string>
    decreases |ks|
  {
    if ks == [] then seen
    else AppendNew(if ks[0] in seen then seen else seen + [ks[0]], ks[1..])
  }

  /** Starting from distinct keys, the result has distinct keys and holds
      exactly the keys seen plus the keys assigned. */
  lemma {:induction false} AppendNewDistinct(seen: seq<string>, ks: seq<string>)
    requires NoDuplicates(seen)
    ensures NoDuplicates(AppendNew(seen, ks))
    ensures forall k :: k in AppendNew(seen, ks) <==> k in seen || k in ks
    decreases |ks|
  {
    if ks != [] {
      var next := if ks[0] in seen then seen else seen + [ks[0]];
      AppendNewDistinct(next, ks[1..]);
      assert forall k :: k in ks <==> k == ks[0] || k in ks[1..];
    }
  }
}
