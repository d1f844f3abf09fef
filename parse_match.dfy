/**
 * The path-scoped rule overlay of a configuration's `match` section
 * (packages/putout/lib/parse-options/parse-match.js).
 *
 * The section is an object from path patterns to either the string `'off'`
 * or a rules object. For one file name the entries are folded in key order:
 * a matching rules object is merged into the accumulator with
 * `Object.assign`, a matching `'off'` sets the accumulator to `null`, and a
 * rules object that matches after that makes `Object.assign(null, ...)` throw.
 */
module ParseMatch {
  import opened Wrappers
  import opened Js

  type Rules = map<string, Value>

  /** The value of one `match` entry. */
  datatype Entry = Off | Assign(rules: Rules)

  /** One `match` entry: a path pattern and its value, in key order. */
  type Item = (string, Entry)

  /** What the fold returns: `{}`, or `{rules}` where `None` is `rules: null`. */
  datatype Overlay = NoRules | WithRules(rules: Option<Rules>)

  /** `RegExp(parseSep(pattern)).test(name)`; pattern compilation is not part of this model. */
  type Test = (string, string) -> bool

  const AssignToNull := TypeError("Cannot convert undefined or null to object")

  /** One loop iteration on accumulator `acc`. */
  function Step(acc: Option<Rules>, item: Item, name: string, test: Test): Result<Option<Rules>, JsError> {
    if !test(item.0, name) then Success(acc)
    else match item.1
      case Off => Success(None)
      case Assign(v) => if acc.None? then Failure(AssignToNull) else Success(Some(acc.value + v))
  }

  /** The accumulator after the first `|items|` iterations (a left fold, written on the last item). */
  function Fold(items: seq<Item>, name: string, test: Test): Result<Option<Rules>, JsError>
    decreases |items|
  {
    if items == [] then Success(Some(map[]))
    else match Fold(items[..|items| - 1], name, test)
      case Failure(e) => Failure(e)
      case Success(acc) => Step(acc, items[|items| - 1], name, test)
  }

  /** The whole exported function, as a function of its inputs. */
  function MatchOverlay(name: string, match_: Option<seq<Item>>, test: Test): Result<Overlay, JsError> {
    if match_.None? || name == "" then Success(NoRules)
    else match Fold(match_.value, name, test)
      case Failure(e) => Failure(e)
      case Success(rules) => Success(WithRules(rules))
  }

  /** The exported `(name, match)` function: the `for...of` loop over the keys. */
  method ParseMatch(name: string, match_: Option<seq<Item>>, test: Test) returns (r: Result<Overlay, JsError>)
    ensures match_.None? || name == "" ==> r == Success(NoRules)
    ensures r == MatchOverlay(name, match_, test)
  {
    if match_.None? || name == "" {
      return Success(NoRules);
    }
    var items := match_.value;
    var rules: Option<Rules> := Some(map[]);
    var i := 0;
    while i < |items|
      invariant 0 <= i <= |items|
      invariant Fold(items[..i], name, test) == Success(rules)
    {
      assert items[..i + 1][..i] == items[..i];
      var (pattern, current) := items[i];
      if test(pattern, name) {
        if current.Off? {
          rules := None;
          i := i + 1;
          continue;
        }
        if rules.None? {
          assert Fold(items[..i + 1], name, test) == Failure(AssignToNull);
          FailureSticks(items, i + 1, name, test);
          return Failure(AssignToNull);
        }
        rules := Some(rules.value + current.rules);
      }
      i := i + 1;
    }
    assert items[..|items|] == items;
    r := Success(WithRules(rules));
  }

  /** Once the fold has thrown, later entries do not matter: the loop has left. */
  lemma {:induction false} FailureSticks(items: seq<Item>, k: nat, name: string, test: Test)
    requires k <= |items|
    requires Fold(items[..k], name, test).Failure?
    ensures Fold(items, name, test) == Fold(items[..k], name, test)
    decreases |items| - k
  {
    if k < |items| {
      assert items[..k + 1][..k] == items[..k];
      FailureSticks(items, k + 1, name, test);
    } else {
      assert items[..k] == items;
    }
  }

  // ---- properties of the fold ----

  predicate Matching(items: seq<Item>, i: int, name: string, test: Test)
    requires 0 <= i < |items|
  {
    test(items[i].0, name)
  }

  /** Some entry that matches is `'off'`. */
  predicate HasOff(items: seq<Item>, name: string, test: Test) {
    exists i :: 0 <= i < |items| && Matching(items, i, name, test) && items[i].1.Off?
  }

  /** A matching rules object comes after a matching `'off'`. */
  predicate AssignAfterOff(items: seq<Item>, name: string, test: Test) {
    exists i, j :: 0 <= i < j < |items| && Matching(items, i, name, test) && items[i].1.Off?
      && Matching(items, j, name, test) && items[j].1.Assign?
  }

  /**
   * The three outcomes of the fold: it throws exactly when a matching rules
   * object follows a matching `'off'`; it yields `rules: null` exactly when
   * some matching entry is `'off'` and none of that kind follows; otherwise
   * it yields a rules object.
   */
  lemma {:induction false} FoldOutcome(items: seq<Item>, name: string, test: Test)
    ensures Fold(items, name, test).Failure? <==> AssignAfterOff(items, name, test)
    ensures Fold(items, name, test) == Success(None) <==> HasOff(items, name, test) && !AssignAfterOff(items, name, test)
    ensures (Fold(items, name, test).Success? && Fold(items, name, test).value.Some?) <==> !HasOff(items, name, test)
  {
    if items != [] {
      var n := |items| - 1;
      var pre := items[..n];
      FoldOutcome(pre, name, test);
      assert forall i :: 0 <= i < n ==> pre[i] == items[i];
      if AssignAfterOff(pre, name, test) {
        var i, j :| 0 <= i < j < |pre| && Matching(pre, i, name, test) && pre[i].1.Off?
          && Matching(pre, j, name, test) && pre[j].1.Assign?;
        assert Matching(items, i, name, test) && Matching(items, j, name, test);
      }
      if HasOff(pre, name, test) {
        var i :| 0 <= i < |pre| && Matching(pre, i, name, test) && pre[i].1.Off?;
        assert Matching(items, i, name, test);
      }
      if AssignAfterOff(items, name, test) && !AssignAfterOff(pre, name, test) {
        var i, j :| 0 <= i < j < |items| && Matching(items, i, name, test) && items[i].1.Off?
          && Matching(items, j, name, test) && items[j].1.Assign?;
        assert j == n;
        assert Matching(pre, i, name, test);
      }
      if HasOff(items, name, test) && !HasOff(pre, name, test) {
        var i :| 0 <= i < |items| && Matching(items, i, name, test) && items[i].1.Off?;
        if i < n { assert Matching(pre, i, name, test); }
      }
    }
  }

  /** The last matching rules object that defines `key`, if no `'off'` reset intervenes. */
  function LastDefining(items: seq<Item>, key: string, name: string, test: Test): Option<Value>
    decreases |items|
  {
    if items == [] then None
    else
      var last := items[|items| - 1];
      if test(last.0, name) && last.1.Assign? && key in last.1.rules then Some(last.1.rules[key])
      else LastDefining(items[..|items| - 1], key, name, test)
  }

  /**
   * When the fold yields a rules object, its keys are exactly the keys of the
   * matching entries, and each key holds the value of the LAST matching entry
   * that sets it: later matching entries override earlier ones, and entries
   * that do not match contribute nothing.
   */
  lemma {:induction false} FoldContents(items: seq<Item>, name: string, test: Test, rules: Rules)
    requires Fold(items, name, test) == Success(Some(rules))
    ensures forall key :: key in rules <==> LastDefining(items, key, name, test).Some?
    ensures forall key :: key in rules ==> rules[key] == LastDefining(items, key, name, test).value
  {
    if items != [] {
      var n := |items| - 1;
      var pre := items[..n];
      match Fold(pre, name, test)
      case Success(acc) =>
        if !test(items[n].0, name) {
          FoldContents(pre, name, test, rules);
        } else {
          assert items[n].1.Assign? && acc.Some?;
          FoldContents(pre, name, test, acc.value);
          assert rules == acc.value + items[n].1.rules;
        }
    }
  }

  /** Entries whose pattern does not match the name have no effect on the fold. */
  function OnlyMatching(items: seq<Item>, name: string, test: Test): seq<Item>
    decreases |items|
  {
    if items == [] then []
    else
      var pre := OnlyMatching(items[..|items| - 1], name, test);
      if test(items[|items| - 1].0, name) then pre + [items[|items| - 1]] else pre
  }

  lemma {:induction false} NonMatchingIgnored(items: seq<Item>, name: string, test: Test)
    ensures Fold(items, name, test) == Fold(OnlyMatching(items, name, test), name, test)
  {
    if items != [] {
      var n := |items| - 1;
      NonMatchingIgnored(items[..n], name, test);
      var pre := OnlyMatching(items[..n], name, test);
      if test(items[n].0, name) {
        assert (pre + [items[n]])[..|pre|] == pre;
      }
    }
  }

  /** With no matching entry the result is `{rules: {}}`. */
  lemma NoMatchGivesEmptyRules(name: string, items: seq<Item>, test: Test)
    requires name != ""
    requires forall i :: 0 <= i < |items| ==> !test(items[i].0, name)
    ensures MatchOverlay(name, Some(items), test) == Success(WithRules(Some(map[])))
  {
    NonMatchingIgnored(items, name, test);
    NoMatchingIsEmpty(items, name, test);
  }

  lemma {:induction false} NoMatchingIsEmpty(items: seq<Item>, name: string, test: Test)
    requires forall i :: 0 <= i < |items| ==> !test(items[i].0, name)
    ensures OnlyMatching(items, name, test) == []
  {
    if items != [] {
      NoMatchingIsEmpty(items[..|items| - 1], name, test);
    }
  }

  /** A matching `'off'` discards everything merged so far: the result after it
      does not depend on what came before, as long as that did not throw. */
  lemma OffResets(pre: seq<Item>, pattern: string, name: string, test: Test)
    requires test(pattern, name)
    requires Fold(pre, name, test).Success?
    ensures Fold(pre + [(pattern, Off)], name, test) == Success(None)
  {
    assert (pre + [(pattern, Off)])[..|pre|] == pre;
  }
}
