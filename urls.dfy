/** Request URLs as `${base}?${new URLSearchParams(...)}` builds them: a base and an ordered
    list of key-value pairs. Percent-encoding is not modelled; a parameter list is kept as
    the pairs themselves. */
module Urls {
  import opened Wrappers

  datatype Url<V> = Url(base: string, params: seq<(string, V)>)

  /** `params.get(key)`: the value of the first pair with the key. */
  function ParamValue<V>(params: seq<(string, V)>, key: string): Option<V>
    decreases |params|
  {
    if params == [] then None
    else if params[0].0 == key then Some(params[0].1)
    else ParamValue(params[1..], key)
  }

  /** `get` finds nothing exactly when no pair has the key, and otherwise the value of the
      first pair that has it. */
  lemma {:induction false} ParamValueSpec<V>(params: seq<(string, V)>, key: string)
    ensures ParamValue(params, key).None? <==> forall i :: 0 <= i < |params| ==> params[i].0 != key
    ensures ParamValue(params, key).Some? ==>
      exists i :: 0 <= i < |params| && params[i] == (key, ParamValue(params, key).value) &&
                  forall j :: 0 <= j < i ==> params[j].0 != key
    decreases |params|
  {
    if params != [] && params[0].0 != key {
      ParamValueSpec(params[1..], key);
      assert forall i :: 1 <= i < |params| ==> params[i] == params[1..][i - 1];
      var r := ParamValue(params, key);
      if r.Some? {
        var i :| 0 <= i < |params[1..]| && params[1..][i] == (key, r.value) &&
                 forall j :: 0 <= j < i ==> params[1..][j].0 != key;
        assert params[i + 1] == (key, r.value);
      }
    }
  }

  /** A pair whose key does not occur earlier is the one `get` finds. */
  lemma {:induction false} ParamAt<V>(params: seq<(string, V)>, k: nat)
    requires k < |params|
    requires forall j :: 0 <= j < k ==> params[j].0 != params[k].0
    ensures ParamValue(params, params[k].0) == Some(params[k].1)
    decreases k
  {
    if k > 0 {
      assert params[1..][k - 1] == params[k];
      ParamAt(params[1..], k - 1);
    }
  }

  /** The keys of a parameter list, in order. */
  function Keys<V>(params: seq<(string, V)>): (r: seq<string>)
    ensures |r| == |params| && forall i :: 0 <= i < |params| ==> r[i] == params[i].0
  {
    seq(|params|, i requires 0 <= i < |params| => params[i].0)
  }

  /** `params.set(key, value)`: the first pair with the key takes the new value and later
      pairs with the key are dropped; a missing key is appended. */
  function SetParam<V>(params: seq<(string, V)>, key: string, value: V): (r: seq<(string, V)>)
    ensures ParamValue(r, key) == Some(value)
    ensures forall k :: k != key ==> ParamValue(r, k) == ParamValue(params, k)
    decreases |params|
  {
    if params == [] then [(key, value)]
    else if params[0].0 == key then [(key, value)] + Without(params[1..], key)
    else [params[0]] + SetParam(params[1..], key, value)
  }

  /** The pairs whose key differs from `key`, in order. */
  function Without<V>(params: seq<(string, V)>, key: string): (r: seq<(string, V)>)
    ensures ParamValue(r, key) == None
    ensures forall k :: k != key ==> ParamValue(r, k) == ParamValue(params, k)
    decreases |params|
  {
    if params == [] then []
    else if params[0].0 == key then Without(params[1..], key)
    else [params[0]] + Without(params[1..], key)
  }
}
