/**
 * The layout plugin manager: which diff layouts are offered, in which
 * order, and which one is the default.
 *
 * The `general_settings.layout_plugins` configuration is a PHP keyed array,
 * modelled as a sequence of (plugin id, setting) pairs whose ids are unique.
 * The definition label of each plugin comes from the plugin discovery, which
 * is given here as the function `labelOf`.
 */
module DiffLayoutManager {
  import opened Wrappers

  /** One entry of `layout_plugins`: `['enabled' => ..., 'weight' => ...]`. */
  datatype PluginSetting = PluginSetting(enabled: bool, weight: int)

  type PluginConfig = seq<(string, PluginSetting)>

  /** A PHP array never holds the same key twice. */
  predicate UniqueKeys<V>(s: seq<(string, V)>)
  {
    forall i, j :: 0 <= i < j < |s| ==> s[i].0 != s[j].0
  }

  predicate HasKey<V>(s: seq<(string, V)>, k: string)
  {
    exists i :: 0 <= i < |s| && s[i].0 == k
  }

  /** Configured with a truthy `enabled`. */
  predicate EnabledIn(plugins: PluginConfig, k: string)
  {
    exists i :: 0 <= i < |plugins| && plugins[i].0 == k && plugins[i].1.enabled
  }

  predicate SortedByWeight(s: PluginConfig)
  {
    forall i, j :: 0 <= i < j < |s| ==> s[i].1.weight <= s[j].1.weight
  }

  /** Inserts `e` into a weight-sorted array in front of the first heavier entry. */
  function InsertByWeight(e: (string, PluginSetting), s: PluginConfig): (r: PluginConfig)
    requires SortedByWeight(s)
    ensures SortedByWeight(r)
    ensures |r| == |s| + 1 && (r[0] == e || (s != [] && r[0] == s[0]))
  {
    if s == [] then [e]
    else if e.1.weight <= s[0].1.weight then
      assert SortedByWeight([e] + s) by {
        forall i, j | 0 <= i < j < |s| + 1 ensures ([e] + s)[i].1.weight <= ([e] + s)[j].1.weight {
          if i > 0 { assert ([e] + s)[i] == s[i - 1]; }
        }
      }
      [e] + s
    else
      var rest := InsertByWeight(e, s[1..]);
      assert SortedByWeight([s[0]] + rest) by {
        forall i, j | 0 <= i < j < |rest| + 1 ensures ([s[0]] + rest)[i].1.weight <= ([s[0]] + rest)[j].1.weight {
          assert s[0].1.weight <= rest[0].1.weight;
          if i > 0 { assert ([s[0]] + rest)[i] == rest[i - 1]; }
          assert ([s[0]] + rest)[j] == rest[j - 1];
        }
      }
      [s[0]] + rest
  }

  /** Inserting adds exactly the one entry. */
  lemma {:induction false} InsertIsPermutation(e: (string, PluginSetting), s: PluginConfig)
    requires SortedByWeight(s)
    ensures multiset(InsertByWeight(e, s)) == multiset(s) + multiset{e}
  {
    if s != [] && e.1.weight > s[0].1.weight {
      InsertIsPermutation(e, s[1..]);
      assert s == [s[0]] + s[1..];
      var rest := InsertByWeight(e, s[1..]);
      assert InsertByWeight(e, s) == [s[0]] + rest;
      assert multiset([s[0]] + rest) == multiset{s[0]} + multiset(rest);
    }
  }

  /** Inserting a new key into an array with unique keys keeps them unique. */
  lemma {:induction false} InsertKeepsUniqueKeys(e: (string, PluginSetting), s: PluginConfig)
    requires SortedByWeight(s) && UniqueKeys(s) && !HasKey(s, e.0)
    ensures UniqueKeys(InsertByWeight(e, s))
  {
    if s != [] && e.1.weight > s[0].1.weight {
      var rest := InsertByWeight(e, s[1..]);
      InsertKeepsUniqueKeys(e, s[1..]);
      InsertIsPermutation(e, s[1..]);
      forall k | 0 <= k < |rest| ensures rest[k].0 != s[0].0 {
        assert rest[k] in multiset(rest);
        if rest[k] != e {
          assert rest[k] in multiset(s[1..]);
          var j :| 0 <= j < |s[1..]| && s[1..][j] == rest[k];
          assert s[j + 1] == rest[k];
        }
      }
    }
  }

  /**
   * The reordering `uasort(..., SortArray::sortByWeightElement)` performs:
   * a permutation of the array ordered by non-decreasing weight. How ties
   * are broken is not part of this model.
   */
  function SortByWeight(s: PluginConfig): (r: PluginConfig)
    ensures SortedByWeight(r)
    ensures multiset(r) == multiset(s)
  {
    if s == [] then []
    else
      var rest := SortByWeight(s[1..]);
      assert s == [s[0]] + s[1..];
      InsertIsPermutation(s[0], rest);
      InsertByWeight(s[0], rest)
  }

  /** Sorting an array with unique keys keeps them unique. */
  lemma {:induction false} SortKeepsUniqueKeys(s: PluginConfig)
    requires UniqueKeys(s)
    ensures UniqueKeys(SortByWeight(s))
  {
    if s != [] {
      var rest := SortByWeight(s[1..]);
      SortKeepsUniqueKeys(s[1..]);
      forall i | 0 <= i < |rest| ensures rest[i].0 != s[0].0 {
        assert rest[i] in multiset(s[1..]);
        var j :| 0 <= j < |s[1..]| && s[1..][j] == rest[i];
        assert s[j + 1] == rest[i];
      }
      InsertKeepsUniqueKeys(s[0], rest);
    }
  }

  /** `reset(array_keys($options))`: the first key, or FALSE when there is none. */
  function FirstKey<V>(options: seq<(string, V)>): (r: Option<string>)
    ensures r.None? <==> options == []
    ensures r.Some? ==> HasKey(options, r.value) && r.value == options[0].0
  {
    if options == [] then None else Some(options[0].0)
  }

  /**
   * getPluginOptions: the enabled layout plugins, lightest first, each id
   * mapped to its definition label. A missing or empty configuration gives
   * no options.
   */
  method GetPluginOptions(layoutPlugins: Option<PluginConfig>, labelOf: string -> string)
    returns (options: seq<(string, string)>)
    requires layoutPlugins.Some? ==> UniqueKeys(layoutPlugins.value)
    ensures layoutPlugins.None? || layoutPlugins.value == [] ==> options == []
    ensures forall k :: HasKey(options, k) <==> layoutPlugins.Some? && EnabledIn(layoutPlugins.value, k)
    ensures forall i :: 0 <= i < |options| ==> options[i].1 == labelOf(options[i].0)
    ensures UniqueKeys(options)
    ensures layoutPlugins.Some? ==> WeightOrdered(options, layoutPlugins.value)
  {
    options := [];
    if layoutPlugins.None? || layoutPlugins.value == [] {
      return;
    }
    var plugins := layoutPlugins.value;
    ghost var configured := plugins;
    plugins := SortByWeight(plugins);
    SortKeepsUniqueKeys(configured);
    ghost var from;
    options, from := KeepEnabled(plugins, labelOf);
    SelectedOptions(configured, plugins, options, from);
  }

  /**
   * The `foreach` of getPluginOptions: walks the sorted plugins and appends
   * `id => label` for every enabled one. `from` (ghost) gives the position
   * each option was taken from.
   */
  method KeepEnabled(plugins: PluginConfig, labelOf: string -> string)
    returns (options: seq<(string, string)>, ghost from: seq<nat>)
    ensures |from| == |options|
    ensures forall i :: 0 <= i < |from| ==> from[i] < |plugins|
    ensures forall i, j :: 0 <= i < j < |from| ==> from[i] < from[j]
    ensures forall i :: 0 <= i < |options| ==> options[i].0 == plugins[from[i]].0
    ensures forall i :: 0 <= i < |options| ==> options[i].1 == labelOf(options[i].0)
    ensures forall i :: 0 <= i < |from| ==> plugins[from[i]].1.enabled
    ensures forall m :: 0 <= m < |plugins| && plugins[m].1.enabled ==> m in from
  {
    options, from := [], [];
    for n := 0 to |plugins|
      invariant |from| == |options|
      invariant forall i :: 0 <= i < |from| ==> from[i] < n
      invariant forall i, j :: 0 <= i < j < |from| ==> from[i] < from[j]
      invariant forall i :: 0 <= i < |options| ==> options[i].0 == plugins[from[i]].0
      invariant forall i :: 0 <= i < |options| ==> options[i].1 == labelOf(options[i].0)
      invariant forall i :: 0 <= i < |from| ==> plugins[from[i]].1.enabled
      invariant forall m :: 0 <= m < n && plugins[m].1.enabled ==> m in from
    {
      var key := plugins[n].0;
      if plugins[n].1.enabled {
        options := options + [(key, labelOf(key))];
        from := from + [n];
      }
    }
  }

  /**
   * The options picked, in order, from the weight-sorted permutation of the
   * configuration are exactly its enabled entries, ordered by weight.
   */
  lemma SelectedOptions(
    configured: PluginConfig, sorted: PluginConfig, options: seq<(string, string)>, from: seq<nat>)
    requires UniqueKeys(configured) && UniqueKeys(sorted) && SortedByWeight(sorted)
    requires multiset(sorted) == multiset(configured)
    requires |from| == |options|
    requires forall i :: 0 <= i < |from| ==> from[i] < |sorted|
    requires forall i, j :: 0 <= i < j < |from| ==> from[i] < from[j]
    requires forall i :: 0 <= i < |options| ==> options[i].0 == sorted[from[i]].0
    requires forall i :: 0 <= i < |from| ==> sorted[from[i]].1.enabled
    requires forall m :: 0 <= m < |sorted| && sorted[m].1.enabled ==> m in from
    ensures forall k :: HasKey(options, k) <==> EnabledIn(configured, k)
    ensures UniqueKeys(options)
    ensures WeightOrdered(options, configured)
  {
    InSortedIsConfigured(configured, sorted);
    forall i, j | 0 <= i < j < |options| ensures options[i].0 != options[j].0 {
      assert sorted[from[i]].0 != sorted[from[j]].0;
    }
    forall k | HasKey(options, k) ensures EnabledIn(configured, k) {
      var i :| 0 <= i < |options| && options[i].0 == k;
      assert sorted[from[i]] in configured;
      var a :| 0 <= a < |configured| && configured[a] == sorted[from[i]];
    }
    forall k | EnabledIn(configured, k) ensures HasKey(options, k) {
      var a :| 0 <= a < |configured| && configured[a].0 == k && configured[a].1.enabled;
      assert configured[a] in multiset(sorted);
      var m :| 0 <= m < |sorted| && sorted[m] == configured[a];
      var i :| 0 <= i < |from| && from[i] == m;
      assert options[i].0 == k;
    }
    PickedInWeightOrder(configured, sorted, options, from);
  }

  /** Options picked at increasing positions of the sorted permutation follow the configured weights. */
  lemma PickedInWeightOrder(
    configured: PluginConfig, sorted: PluginConfig, options: seq<(string, string)>, from: seq<nat>)
    requires UniqueKeys(sorted) && SortedByWeight(sorted)
    requires multiset(sorted) == multiset(configured)
    requires |from| == |options|
    requires forall i :: 0 <= i < |from| ==> from[i] < |sorted|
    requires forall i, j :: 0 <= i < j < |from| ==> from[i] < from[j]
    requires forall i :: 0 <= i < |options| ==> options[i].0 == sorted[from[i]].0
    ensures WeightOrdered(options, configured)
  {
    forall i, j, a, b | 0 <= i < j < |options| && 0 <= a < |configured| && 0 <= b < |configured|
        && configured[a].0 == options[i].0 && configured[b].0 == options[j].0
      ensures configured[a].1.weight <= configured[b].1.weight
    {
      SameKeySameEntry(configured, sorted, a, from[i]);
      SameKeySameEntry(configured, sorted, b, from[j]);
    }
  }

  /** The options are listed by non-decreasing configured weight. */
  ghost predicate WeightOrdered(options: seq<(string, string)>, plugins: PluginConfig)
  {
    forall i, j, a, b :: 0 <= i < j < |options| && 0 <= a < |plugins| && 0 <= b < |plugins|
      && plugins[a].0 == options[i].0 && plugins[b].0 == options[j].0
      ==> plugins[a].1.weight <= plugins[b].1.weight
  }

  lemma InSortedIsConfigured(configured: PluginConfig, sorted: PluginConfig)
    requires multiset(sorted) == multiset(configured)
    ensures forall k :: 0 <= k < |sorted| ==> sorted[k] in configured
  {
    forall k | 0 <= k < |sorted| ensures sorted[k] in configured {
      assert sorted[k] in multiset(sorted);
    }
  }

  /** In a permutation with unique keys, a key names the same entry on both sides. */
  lemma SameKeySameEntry(configured: PluginConfig, sorted: PluginConfig, a: nat, x: nat)
    requires multiset(sorted) == multiset(configured) && UniqueKeys(sorted)
    requires a < |configured| && x < |sorted| && configured[a].0 == sorted[x].0
    ensures configured[a] == sorted[x]
  {
    assert configured[a] in multiset(sorted);
    var y :| 0 <= y < |sorted| && sorted[y] == configured[a];
    assert y == x;
  }

  /** No enabled plugin is lighter than the one keyed `k`. */
  ghost predicate LightestEnabled(plugins: PluginConfig, k: string)
  {
    forall a, b :: 0 <= a < |plugins| && 0 <= b < |plugins| && plugins[a].0 == k && plugins[b].1.enabled
      ==> plugins[a].1.weight <= plugins[b].1.weight
  }

  /**
   * getDefaultLayout: the first key of getPluginOptions(), or FALSE (here
   * None) when no layout plugin is enabled. That key is an enabled plugin no
   * heavier than any other enabled plugin.
   */
  method GetDefaultLayout(layoutPlugins: Option<PluginConfig>, labelOf: string -> string)
    returns (layout: Option<string>)
    requires layoutPlugins.Some? ==> UniqueKeys(layoutPlugins.value)
    ensures layout.None? <==> layoutPlugins.None? || forall k :: !EnabledIn(layoutPlugins.value, k)
    ensures layout.Some? ==> layoutPlugins.Some? && EnabledIn(layoutPlugins.value, layout.value)
    ensures layout.Some? ==> LightestEnabled(layoutPlugins.value, layout.value)
  {
    var options := GetPluginOptions(layoutPlugins, labelOf);
    layout := FirstKey(options);
    if layout.Some? {
      FirstOptionIsLightest(options, layoutPlugins.value);
    } else {
      assert forall k :: !HasKey(options, k);
    }
  }

  /** The first option of a weight-ordered list of exactly the enabled plugins is a lightest enabled one. */
  lemma FirstOptionIsLightest(options: seq<(string, string)>, plugins: PluginConfig)
    requires options != []
    requires UniqueKeys(plugins)
    requires forall k :: HasKey(options, k) <==> EnabledIn(plugins, k)
    requires WeightOrdered(options, plugins)
    ensures LightestEnabled(plugins, options[0].0)
  {
    forall a, b | 0 <= a < |plugins| && 0 <= b < |plugins| && plugins[a].0 == options[0].0 && plugins[b].1.enabled
      ensures plugins[a].1.weight <= plugins[b].1.weight
    {
      assert EnabledIn(plugins, plugins[b].0);
      var j :| 0 <= j < |options| && options[j].0 == plugins[b].0;
      if j != 0 {
        assert options[0].0 == plugins[a].0;
      }
    }
  }
}
