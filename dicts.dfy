/** Python's insertion-ordered `dict`, as a sequence of key-value entries: the
    first entry for a key is the one read, an assignment keeps the key where it
    stands, and a new key goes last. */
module Dicts {
  import opened Wrappers

  type Dict<V> = seq<(string, V)>

  /** `k in d`. */
  predicate Has<V>(d: Dict<V>, k: string) {
    exists i :: 0 <= i < |d| && d[i].0 == k
  }

  /** `list(d)`: the keys in order. */
  function Keys<V>(d: Dict<V>): (ks: seq<string>)
    ensures |ks| == |d|
    ensures forall i :: 0 <= i < |d| ==> ks[i] == d[i].0
  {
    seq(|d|, i requires 0 <= i < |d| => d[i].0)
  }

  /** `d.get(k)`: None when the key is absent. */
  function Get<V>(d: Dict<V>, k: string): (r: Option<V>)
    ensures r.None? <==> !Has(d, k)
    ensures r.Some? ==> (k, r.value) in d
  {
    if |d| == 0 then None
    else if d[0].0 == k then Some(d[0].1)
    else
      assert forall i :: 1 <= i < |d| ==> d[i] == d[1..][i - 1];
      Get(d[1..], k)
  }

  /** `d[k] = v`: the key keeps its place, or is added last. */
  function Put<V>(d: Dict<V>, k: string, v: V): (r: Dict<V>)
    ensures Has(d, k) ==> |r| == |d|
    ensures !Has(d, k) ==> r == d + [(k, v)]
    ensures forall i :: 0 <= i < |d| ==> r[i].0 == d[i].0
    ensures forall k' :: Get(r, k') == if k' == k then Some(v) else Get(d, k')
    ensures Get(d, k) == Some(v) ==> r == d
  {
    if |d| == 0 then [(k, v)]
    else if d[0].0 == k then [(k, v)] + d[1..]
    else
      var rest := Put(d[1..], k, v);
      assert forall i :: 1 <= i < |d| ==> d[i] == d[1..][i - 1];
      assert Has(d, k) <==> Has(d[1..], k);
      [d[0]] + rest
  }

  /** `d.setdefault(k, v)`: the value is stored only when the key is absent. */
  function SetDefault<V>(d: Dict<V>, k: string, v: V): (r: Dict<V>)
    ensures |d| <= |r| && r[..|d|] == d
    ensures forall k' :: Get(r, k') == if k' == k && !Has(d, k) then Some(v) else Get(d, k')
  {
    if Has(d, k) then d
    else
      GetAppend(d, [(k, v)], k);
      forall k' ensures Get(d + [(k, v)], k') == if k' == k then Some(v) else Get(d, k') {
        GetAppend(d, [(k, v)], k');
      }
      d + [(k, v)]
  }

  /** Reading a concatenation: the first part when it holds the key. */
  lemma {:induction false} GetAppend<V>(a: Dict<V>, b: Dict<V>, k: string)
    ensures Get(a + b, k) == if Has(a, k) then Get(a, k) else Get(b, k)
    decreases |a|
  {
    if |a| > 0 {
      assert (a + b)[1..] == a[1..] + b;
      GetAppend(a[1..], b, k);
      assert Has(a, k) <==> a[0].0 == k || Has(a[1..], k);
    } else {
      assert a + b == b;
    }
  }

  /** `for key in defaults: d.setdefault(key, defaults[key])`. */
  function SetDefaults<V>(d: Dict<V>, defaults: Dict<V>): (r: Dict<V>)
    ensures |d| <= |r| && r[..|d|] == d
    ensures forall k :: Get(r, k) == if Has(d, k) then Get(d, k) else Get(defaults, k)
    decreases |defaults|
  {
    if |defaults| == 0 then d
    else
      var n := |defaults| - 1;
      var init := SetDefaults(d, defaults[..n]);
      assert defaults == defaults[..n] + [defaults[n]];
      forall k ensures Get(defaults, k) == if Has(defaults[..n], k) then Get(defaults[..n], k) else Get([defaults[n]], k) {
        GetAppend(defaults[..n], [defaults[n]], k);
      }
      var r := SetDefault(init, defaults[n].0, defaults[n].1);
      assert r[..|d|] == init[..|init|][..|d|];
      r
  }

  /** Once every default key is present, filling the defaults again changes nothing. */
  lemma {:induction false} SetDefaultsFull<V>(d: Dict<V>, defaults: Dict<V>)
    requires forall i :: 0 <= i < |defaults| ==> Has(d, defaults[i].0)
    ensures SetDefaults(d, defaults) == d
    decreases |defaults|
  {
    if |defaults| > 0 {
      SetDefaultsFull(d, defaults[..|defaults| - 1]);
    }
  }

  /** Filling defaults twice is filling them once. */
  lemma SetDefaultsTwice<V>(d: Dict<V>, defaults: Dict<V>)
    ensures SetDefaults(SetDefaults(d, defaults), defaults) == SetDefaults(d, defaults)
  {
    var r := SetDefaults(d, defaults);
    forall i | 0 <= i < |defaults| ensures Has(r, defaults[i].0) {
      assert Has(defaults, defaults[i].0);
      assert Get(r, defaults[i].0).Some?;
    }
    SetDefaultsFull(r, defaults);
  }
}
