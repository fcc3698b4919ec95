/**
 * The URI templater `prepare`: substitutes the parameters into the URI
 * template, key by key, and collects the parameters that changed nothing into
 * the query-parameter map.
 *
 * A key `k` is "matched" when the first occurrence of the text `":" + k` in
 * the current URI is replaced by the value's string form and that changes the
 * URI. Matching is by substring, so a key that is a prefix of a placeholder's
 * name matches it, and each substitution can change what later keys match.
 */
module Templater {
  import opened Values
  import opened Text

  /**
   * The `params` argument. `Absent` is any value whose `typeof` is not
   * "object" (undefined, a string, a number...); `Keyed` is an object, with its
   * own keys in the order `_.keys` lists them and its properties. A JavaScript
   * null has type "object" and no keys: it is `Keyed([], map[])`.
   */
  datatype Params = Absent | Keyed(keys: seq<string>, values: Fields)

  /** What `prepare` hands to its callback: the URI and `config.params`. */
  datatype Prepared = Prepared(uri: string, query: Fields)

  /** `pkeys`: the keys visited by the loop. */
  function Keys(params: Params): seq<string>
  {
    if params.Keyed? then params.keys else []
  }

  function ValuesOf(params: Params): Fields
  {
    if params.Keyed? then params.values else map[]
  }

  /** The text a key looks for in the URI. */
  function Placeholder(key: string): string
  {
    ":" + key
  }

  /** One iteration of the `forEach` over the keys. */
  function Step(p: Prepared, key: string, values: Fields): Prepared
  {
    var v := Get(values, key);
    var u := ReplaceFirst(p.uri, Placeholder(key), ToText(v));
    if u == p.uri then Prepared(u, p.query[key := v]) else Prepared(u, p.query)
  }

  /** A step adds at most its own key to the query map. */
  lemma StepQuery(p: Prepared, key: string, values: Fields)
    ensures Step(p, key, values).query == p.query
         || Step(p, key, values).query == p.query[key := Get(values, key)]
  {
  }

  /** A key whose placeholder first occurs at `i` (and whose value differs from it) is substituted there. */
  lemma StepSubstitutes(p: Prepared, key: string, values: Fields, i: nat)
    requires IndexOf(p.uri, Placeholder(key)) == Some(i)
    requires ToText(Get(values, key)) != Placeholder(key)
    ensures Step(p, key, values)
         == Prepared(p.uri[..i] + ToText(Get(values, key)) + p.uri[i + |Placeholder(key)|..], p.query)
  {
    var t := ToText(Get(values, key));
    IndexOfFirst(p.uri, Placeholder(key));
    ReplaceFirstUnchanged(p.uri, Placeholder(key), t);
  }

  /** A key whose placeholder does not occur goes to the query map. */
  lemma StepMisses(p: Prepared, key: string, values: Fields)
    requires !Occurs(p.uri, Placeholder(key))
    ensures Step(p, key, values) == Prepared(p.uri, p.query[key := Get(values, key)])
  {
    ReplaceFirstUnchanged(p.uri, Placeholder(key), ToText(Get(values, key)));
  }

  /** The URI and query map after the loop has visited `keys`, in order. */
  function PrepareKeys(uri: string, keys: seq<string>, values: Fields): Prepared
    decreases |keys|
  {
    if keys == [] then Prepared(uri, map[])
    else Step(PrepareKeys(uri, keys[..|keys| - 1], values), keys[|keys| - 1], values)
  }

  /** The specification of `prepare`. */
  function PrepareSpec(uri: string, params: Params): Prepared
  {
    PrepareKeys(uri, Keys(params), ValuesOf(params))
  }

  /** The URI after the first `i` keys have been visited. */
  function UriAfter(uri: string, params: Params, i: nat): string
    requires i <= |Keys(params)|
  {
    PrepareKeys(uri, Keys(params)[..i], ValuesOf(params)).uri
  }

  /** `prepare(uri, params, config, callback)`: returns what it passes to the callback. */
  method Prepare(uri: string, params: Params) returns (newUri: string, queryParams: Fields)
    ensures Prepared(newUri, queryParams) == PrepareSpec(uri, params)
  {
    var pkeys: seq<string> := [];
    queryParams := map[];
    newUri := uri;
    if params.Keyed? {
      pkeys := params.keys;
    }
    var values := ValuesOf(params);
    var i := 0;
    while i < |pkeys|
      invariant 0 <= i <= |pkeys|
      invariant Prepared(newUri, queryParams) == PrepareKeys(uri, pkeys[..i], values)
    {
      var pkey := pkeys[i];
      var prevUri := newUri;
      newUri := ReplaceFirst(newUri, Placeholder(pkey), ToText(Get(values, pkey)));
      if prevUri == newUri {
        queryParams := queryParams[pkey := Get(values, pkey)];
      }
      assert pkeys[..i + 1][..i] == pkeys[..i];
      i := i + 1;
    }
    assert pkeys[..i] == pkeys;
  }

  /** Every query parameter is one of the parameters, with its value. */
  lemma {:induction false} QueryHoldsParams(uri: string, keys: seq<string>, values: Fields)
    ensures forall k :: k in PrepareKeys(uri, keys, values).query ==>
      k in keys && PrepareKeys(uri, keys, values).query[k] == Get(values, k)
    decreases |keys|
  {
    if keys != [] {
      QueryHoldsParams(uri, keys[..|keys| - 1], values);
    }
  }

  /** Without keys (params absent, null or an empty object) the URI is unchanged and no query parameter is sent. */
  lemma PrepareWithoutKeys(uri: string, params: Params)
    requires Keys(params) == []
    ensures PrepareSpec(uri, params) == Prepared(uri, map[])
  {
  }

  /**
   * When no key's placeholder occurs in the template, the URI is unchanged and
   * every parameter goes to the query map with its value.
   */
  lemma {:induction false} NoMatchAllQuery(uri: string, keys: seq<string>, values: Fields)
    requires forall k :: k in keys ==> !Occurs(uri, Placeholder(k))
    ensures PrepareKeys(uri, keys, values).uri == uri
    ensures forall k :: k in PrepareKeys(uri, keys, values).query <==> k in keys
    ensures forall k :: k in PrepareKeys(uri, keys, values).query ==>
      PrepareKeys(uri, keys, values).query[k] == Get(values, k)
    decreases |keys|
  {
    QueryHoldsParams(uri, keys, values);
    if keys != [] {
      var init, last := keys[..|keys| - 1], keys[|keys| - 1];
      assert keys == init + [last];
      NoMatchAllQuery(uri, init, values);
      var p := PrepareKeys(uri, init, values);
      var v := Get(values, last);
      ReplaceFirstUnchanged(uri, Placeholder(last), ToText(v));
      assert ReplaceFirst(p.uri, Placeholder(last), ToText(v)) == p.uri;
      assert PrepareKeys(uri, keys, values) == Prepared(uri, p.query[last := v]);
    }
  }

  /** For an object whose placeholders all miss, the query map is the object itself. */
  lemma NoMatchQueryIsParams(uri: string, params: Params)
    requires params.Keyed?
    requires forall k :: k in params.values <==> k in params.keys
    requires forall k :: k in params.keys ==> !Occurs(uri, Placeholder(k))
    ensures PrepareSpec(uri, params) == Prepared(uri, params.values)
  {
    NoMatchAllQuery(uri, params.keys, params.values);
  }

  /** Distinct keys, as `_.keys` lists them. */
  predicate DistinctKeys(keys: seq<string>)
  {
    forall i, j :: 0 <= i < j < |keys| ==> keys[i] != keys[j]
  }

  /** Once visited, a key's presence in the query map is settled: later (different) keys do not touch it. */
  lemma {:induction false} QueryEntrySettled(uri: string, keys: seq<string>, values: Fields, i: nat, n: nat)
    requires i < n <= |keys|
    requires forall m :: i < m < n ==> keys[m] != keys[i]
    ensures keys[i] in PrepareKeys(uri, keys[..n], values).query
        <==> keys[i] in PrepareKeys(uri, keys[..i + 1], values).query
    decreases n
  {
    if n > i + 1 {
      assert keys[..n][..n - 1] == keys[..n - 1];
      assert keys[..n][n - 1] == keys[n - 1] != keys[i];
      var prev := PrepareKeys(uri, keys[..n - 1], values);
      assert PrepareKeys(uri, keys[..n], values) == Step(prev, keys[n - 1], values);
      StepQuery(prev, keys[n - 1], values);
      QueryEntrySettled(uri, keys, values, i, n - 1);
    }
  }

  /**
   * Each parameter key is routed to exactly one place: it goes to the query map
   * if and only if, when its turn came, its placeholder did not occur in the URI
   * built so far or its value's string form is the placeholder text itself;
   * otherwise the first occurrence was substituted. No parameter is dropped.
   */
  lemma KeyRouting(uri: string, params: Params, i: nat)
    requires DistinctKeys(Keys(params))
    requires i < |Keys(params)|
    ensures var key := Keys(params)[i];
      var before := UriAfter(uri, params, i);
      var text := ToText(Get(ValuesOf(params), key));
      && (key in PrepareSpec(uri, params).query
          <==> !Occurs(before, Placeholder(key)) || text == Placeholder(key))
      && (key in PrepareSpec(uri, params).query ==> UriAfter(uri, params, i + 1) == before)
      && (key !in PrepareSpec(uri, params).query ==>
            UriAfter(uri, params, i + 1) == ReplaceFirst(before, Placeholder(key), text) != before)
  {
    var keys, values := Keys(params), ValuesOf(params);
    var key := keys[i];
    assert keys[..i + 1][..i] == keys[..i];
    assert keys[..|keys|] == keys;
    assert forall m :: i < m < |keys| ==> keys[m] != keys[i];
    QueryEntrySettled(uri, keys, values, i, |keys|);
    QueryHoldsParams(uri, keys[..i], values);
    assert key !in keys[..i] by {
      assert forall j :: 0 <= j < i ==> keys[..i][j] != key;
    }
    ReplaceFirstUnchanged(UriAfter(uri, params, i), Placeholder(key), ToText(Get(values, key)));
  }
}
