/**
 * Plugin list normalisation and resolution (packages/putout/lib/get-plugins.js).
 *
 * The `plugins` option mixes plugin names and objects from names to plugin
 * values. Both are flattened into `[name, fn]` pairs; a pair whose
 * `rules[name]` is the boolean `false` is skipped; every other pair is
 * resolved: the inline `fn` if it is truthy, else the module
 * `@putout/plugin-<name>`, else `putout-plugin-<name>`, else an error is thrown.
 */
module GetPlugins {
  import opened Wrappers
  import opened Js

  /** One element of the `plugins` option: a string, or an object's entries in order. */
  datatype PluginItem = Named(name: string) | Entries(entries: seq<(string, Value)>)

  /** A `[name, fn]` pair; a string plugin has no `fn`, which reads as `undefined`. */
  type NamedPlugin = (string, Value)

  /** `require` of a module name: the exported value, or `None` when it cannot be found
      or loading throws. Node's module lookup is not part of this model. */
  type Loader = string -> Option<Value>

  /** `isDisabled`: `!a && typeof a === 'boolean'`. */
  predicate IsDisabled(a: Value) {
    a.Bool? && !a.b
  }

  /** Only the boolean `false` disables a rule; `'off'`, `0`, `null` and `undefined` do not. */
  lemma DisabledOnlyByFalse(a: Value)
    ensures IsDisabled(a) <==> a == Bool(false)
    ensures !IsDisabled(Str("off")) && !IsDisabled(Num(0)) && !IsDisabled(Null) && !IsDisabled(Undefined)
  {
  }

  /** What one plugin item contributes to the flattened list. */
  function ItemPairs(item: PluginItem): seq<NamedPlugin> {
    match item
    case Named(n) => [(n, Undefined)]
    case Entries(es) => es
  }

  /** The flattened list: every item's pairs, in order. */
  function Flatten(plugins: seq<PluginItem>): seq<NamedPlugin>
    decreases |plugins|
  {
    if plugins == [] then [] else Flatten(plugins[..|plugins| - 1]) + ItemPairs(plugins[|plugins| - 1])
  }

  /** `parsePluginNames`: the loop that pushes `[name]` or every entry. */
  method ParsePluginNames(plugins: seq<PluginItem>) returns (result: seq<NamedPlugin>)
    ensures result == Flatten(plugins)
  {
    result := [];
    for i := 0 to |plugins|
      invariant result == Flatten(plugins[..i])
    {
      assert plugins[..i + 1][..i] == plugins[..i];
      var name := plugins[i];
      if name.Named? {
        result := result + [(name.name, Undefined)];
        continue;
      }
      result := result + name.entries;
    }
    assert plugins[..|plugins|] == plugins;
  }

  /** Flattening distributes over concatenation, so each item's pairs keep their place. */
  lemma {:induction false} FlattenAppend(a: seq<PluginItem>, b: seq<PluginItem>)
    ensures Flatten(a + b) == Flatten(a) + Flatten(b)
    decreases |b|
  {
    if b == [] {
      assert a + b == a;
    } else {
      var n := |b| - 1;
      assert (a + b)[..|a + b| - 1] == a + b[..n];
      FlattenAppend(a, b[..n]);
    }
  }

  /** A string plugin becomes the one pair `[name]`; an object contributes its entries. */
  lemma FlattenOne(item: PluginItem)
    ensures item.Named? ==> Flatten([item]) == [(item.name, Undefined)]
    ensures item.Entries? ==> Flatten([item]) == item.entries
  {
    assert [item][..0] == [];
  }

  function NotFound(name: string): JsError {
    Error("Plugin \"putout-plugin-" + name + " could not be found!")
  }

  /** A loaded module counts only when it is truthy (`if (npmPlugin)`). */
  function LoadedOr(load: Loader, modulePath: string): Value {
    match load(modulePath)
    case Some(v) => v
    case None => Undefined
  }

  /** The three candidates of `requirePlugin`, in the order they are tried. */
  function Candidates(name: string, fn: Value, load: Loader): seq<Value> {
    [fn, LoadedOr(load, "@putout/plugin-" + name), LoadedOr(load, "putout-plugin-" + name)]
  }

  /** `requirePlugin`: the first truthy candidate wins, paired with the name. */
  function RequirePlugin(name: string, fn: Value, load: Loader): (r: Result<NamedPlugin, JsError>)
    ensures r.Success? ==> r.value.0 == name && Truthy(r.value.1)
    ensures r.Failure? ==> r.error == NotFound(name)
  {
    if Truthy(fn) then Success((name, fn))
    else
      var npmPlugin := LoadedOr(load, "@putout/plugin-" + name);
      if Truthy(npmPlugin) then Success((name, npmPlugin))
      else
        var userPlugin := LoadedOr(load, "putout-plugin-" + name);
        if Truthy(userPlugin) then Success((name, userPlugin))
        else Failure(NotFound(name))
  }

  /** An independent reference: the first truthy element of an ordered candidate list. */
  function FirstTruthy(cands: seq<Value>): Option<nat>
    decreases |cands|
  {
    if cands == [] then None
    else if Truthy(cands[0]) then Some(0)
    else match FirstTruthy(cands[1..])
      case None => None
      case Some(k) => Some(k + 1)
  }

  lemma {:induction false} FirstTruthyIsFirst(cands: seq<Value>)
    ensures FirstTruthy(cands).Some? ==>
              && FirstTruthy(cands).value < |cands|
              && Truthy(cands[FirstTruthy(cands).value])
              && forall j :: 0 <= j < FirstTruthy(cands).value ==> !Truthy(cands[j])
    ensures FirstTruthy(cands).None? ==> forall j :: 0 <= j < |cands| ==> !Truthy(cands[j])
    decreases |cands|
  {
    if cands != [] && !Truthy(cands[0]) {
      FirstTruthyIsFirst(cands[1..]);
      assert forall j :: 1 <= j < |cands| ==> cands[j] == cands[1..][j - 1];
    }
  }

  /** Resolution is "first success of the ordered chain": inline function, then
      `@putout/plugin-<name>`, then `putout-plugin-<name>`; it throws only when all fail. */
  lemma ResolutionOrder(name: string, fn: Value, load: Loader)
    ensures var c := Candidates(name, fn, load);
      match FirstTruthy(c)
      case Some(k) => k < 3 && RequirePlugin(name, fn, load) == Success((name, c[k]))
        && forall j :: 0 <= j < k ==> !Truthy(c[j])
      case None => RequirePlugin(name, fn, load) == Failure(NotFound(name))
  {
    var c := Candidates(name, fn, load);
    FirstTruthyIsFirst(c);
    assert c[1..][1..] == [c[2]];
    assert c[1..] == [c[1], c[2]];
  }

  /** The names `GetPlugins` resolves: the flattened pairs not disabled by `rules`. */
  function Enabled(names: seq<NamedPlugin>, rules: map<string, Value>): seq<NamedPlugin>
    decreases |names|
  {
    if names == [] then []
    else
      var pre := Enabled(names[..|names| - 1], rules);
      var last := names[|names| - 1];
      if IsDisabled(Lookup(rules, last.0)) then pre else pre + [last]
  }

  /** The exported function's loop as a function: resolve every enabled pair, in order,
      stopping at the first that throws. */
  function Resolve(names: seq<NamedPlugin>, rules: map<string, Value>, load: Loader): (r: Result<seq<NamedPlugin>, JsError>)
    ensures r.Success? ==> |r.value| <= |names| && forall i :: 0 <= i < |r.value| ==> Truthy(r.value[i].1)
    ensures r.Failure? ==> exists i :: 0 <= i < |names| && r.error == NotFound(names[i].0)
    decreases |names|
  {
    if names == [] then Success([])
    else match Resolve(names[..|names| - 1], rules, load)
      case Failure(e) => Failure(e)
      case Success(pre) =>
        var (name, fn) := names[|names| - 1];
        if IsDisabled(Lookup(rules, name)) then Success(pre)
        else match RequirePlugin(name, fn, load)
          case Failure(e) => Failure(e)
          case Success(p) => Success(pre + [p])
  }

  /** One more pair: skipped when disabled, otherwise resolved or thrown on. */
  lemma ResolveStep(names: seq<NamedPlugin>, i: nat, rules: map<string, Value>, load: Loader, result: seq<NamedPlugin>)
    requires i < |names| && Resolve(names[..i], rules, load) == Success(result)
    ensures var p := RequirePlugin(names[i].0, names[i].1, load);
      Resolve(names[..i + 1], rules, load) ==
        if IsDisabled(Lookup(rules, names[i].0)) then Success(result)
        else if p.Failure? then Failure(p.error)
        else Success(result + [p.value])
  {
    assert names[..i + 1][..i] == names[..i];
  }

  /** The exported function: `parsePluginNames`, then the filtering loop. */
  method GetPlugins(plugins: seq<PluginItem>, rules: map<string, Value>, load: Loader)
    returns (r: Result<seq<NamedPlugin>, JsError>)
    ensures r == Resolve(Flatten(plugins), rules, load)
  {
    var names := ParsePluginNames(plugins);
    var result := [];
    for i := 0 to |names|
      invariant Resolve(names[..i], rules, load) == Success(result)
    {
      ResolveStep(names, i, rules, load, result);
      var (name, fn) := names[i];
      if IsDisabled(Lookup(rules, name)) {
        continue;
      }
      var plugin := RequirePlugin(name, fn, load);
      if plugin.Failure? {
        ResolveFailureSticks(names, i + 1, rules, load);
        return Failure(plugin.error);
      }
      result := result + [plugin.value];
    }
    assert names[..|names|] == names;
    r := Success(result);
  }

  lemma {:induction false} ResolveFailureSticks(names: seq<NamedPlugin>, k: nat, rules: map<string, Value>, load: Loader)
    requires k <= |names|
    requires Resolve(names[..k], rules, load).Failure?
    ensures Resolve(names, rules, load) == Resolve(names[..k], rules, load)
    decreases |names| - k
  {
    if k < |names| {
      assert names[..k + 1][..k] == names[..k];
      ResolveFailureSticks(names, k + 1, rules, load);
    } else {
      assert names[..k] == names;
    }
  }

  /** Names of a pair list, for stating order. */
  function NamesOf(ps: seq<NamedPlugin>): seq<string>
    decreases |ps|
  {
    if ps == [] then [] else NamesOf(ps[..|ps| - 1]) + [ps[|ps| - 1].0]
  }

  /** Skipping disabled pairs never lengthens the list. */
  lemma {:induction false} EnabledShorter(names: seq<NamedPlugin>, rules: map<string, Value>)
    ensures |Enabled(names, rules)| <= |names|
    decreases |names|
  {
    if names != [] {
      EnabledShorter(names[..|names| - 1], rules);
    }
  }

  /** On success the output names are the names of the pairs not disabled, in input order. */
  lemma {:induction false} ResolveKeepsEnabled(names: seq<NamedPlugin>, rules: map<string, Value>, load: Loader)
    requires Resolve(names, rules, load).Success?
    ensures NamesOf(Resolve(names, rules, load).value) == NamesOf(Enabled(names, rules))
    decreases |names|
  {
    if names != [] {
      ResolveKeepsEnabled(names[..|names| - 1], rules, load);
    }
  }

  /** On success the i-th output is what `requirePlugin` makes of the i-th pair not
      disabled: one resolved plugin per enabled pair, in order, so the output is never
      longer than the flattened list. */
  lemma {:induction false} ResolveIsRequire(names: seq<NamedPlugin>, rules: map<string, Value>, load: Loader)
    requires Resolve(names, rules, load).Success?
    ensures var out := Resolve(names, rules, load).value;
      var en := Enabled(names, rules);
      && |out| == |en| <= |names|
      && forall i :: 0 <= i < |out| ==> RequirePlugin(en[i].0, en[i].1, load) == Success(out[i])
    decreases |names|
  {
    if names != [] {
      var n := |names| - 1;
      ResolveIsRequire(names[..n], rules, load);
      EnabledShorter(names, rules);
    }
  }

  /** An enabled pair that cannot be resolved. */
  predicate Unresolvable(names: seq<NamedPlugin>, i: int, rules: map<string, Value>, load: Loader)
    requires 0 <= i < |names|
  {
    !IsDisabled(Lookup(rules, names[i].0)) && RequirePlugin(names[i].0, names[i].1, load).Failure?
  }

  /** Resolution fails exactly when some ENABLED pair cannot be resolved: a
      disabled plugin is never resolved, so it can never cause the throw. */
  lemma {:induction false} ResolveFailsIff(names: seq<NamedPlugin>, rules: map<string, Value>, load: Loader)
    ensures Resolve(names, rules, load).Failure? <==>
      exists i :: 0 <= i < |names| && Unresolvable(names, i, rules, load)
    decreases |names|
  {
    if names != [] {
      var n := |names| - 1;
      var pre := names[..n];
      ResolveFailsIff(pre, rules, load);
      if Resolve(pre, rules, load).Failure? {
        var i :| 0 <= i < |pre| && Unresolvable(pre, i, rules, load);
        assert names[i] == pre[i];
        assert Unresolvable(names, i, rules, load);
      } else if Resolve(names, rules, load).Failure? {
        assert Unresolvable(names, n, rules, load);
      } else {
        forall i | 0 <= i < |names|
          ensures !Unresolvable(names, i, rules, load)
        {
          if i < n {
            assert names[i] == pre[i];
            assert !Unresolvable(pre, i, rules, load);
          }
        }
      }
    }
  }

  /** The loop throws at the FIRST enabled pair that cannot be resolved: the error is
      that pair's "could not be found", and every earlier pair is disabled or resolved. */
  lemma {:induction false} ResolveFirstFailure(names: seq<NamedPlugin>, rules: map<string, Value>, load: Loader)
    requires Resolve(names, rules, load).Failure?
    ensures exists i ::
      && 0 <= i < |names| && Unresolvable(names, i, rules, load)
      && Resolve(names, rules, load).error == NotFound(names[i].0)
      && forall j :: 0 <= j < i ==> !Unresolvable(names, j, rules, load)
    decreases |names|
  {
    var n := |names| - 1;
    var pre := names[..n];
    assert names[..n + 1] == names;
    match Resolve(pre, rules, load)
    case Failure(e) =>
      assert Resolve(names, rules, load) == Failure(e);
      ResolveFirstFailure(pre, rules, load);
      var i :|
        && 0 <= i < |pre| && Unresolvable(pre, i, rules, load)
        && e == NotFound(pre[i].0)
        && forall j :: 0 <= j < i ==> !Unresolvable(pre, j, rules, load);
      EarlierUnresolvable(names, n, i, rules, load);
    case Success(result) =>
      ResolveStep(names, n, rules, load, result);
      ResolveFailsIff(pre, rules, load);
      assert Unresolvable(names, n, rules, load);
      EarlierUnresolvable(names, n, n, rules, load);
  }

  /** Below `k`, a pair is unresolvable in `names` exactly when it is in `names[..k]`. */
  lemma EarlierUnresolvable(names: seq<NamedPlugin>, k: nat, i: nat, rules: map<string, Value>, load: Loader)
    requires i <= k <= |names|
    ensures forall j :: 0 <= j < i ==> (Unresolvable(names, j, rules, load) <==> Unresolvable(names[..k], j, rules, load))
  {
    assert forall j :: 0 <= j < i ==> names[j] == names[..k][j];
  }

  /** A disabled pair adds nothing, whatever the loader says about it. */
  lemma DisabledNeverResolved(names: seq<NamedPlugin>, name: string, fn: Value, rules: map<string, Value>, load: Loader)
    requires IsDisabled(Lookup(rules, name))
    ensures Resolve(names + [(name, fn)], rules, load) == Resolve(names, rules, load)
  {
    assert (names + [(name, fn)])[..|names|] == names;
  }
}
