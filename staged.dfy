/**
 * Staged-file selection (packages/putout/lib/cli/staged.js).
 *
 * `get` selects, from git's status matrix, the files that are staged and
 * modified in the working tree, remembers their names in a one-slot store
 * and returns them joined onto the repository directory; `set` re-reads
 * the status of every remembered name, stages all of them again and
 * returns those whose status says they were added or modified.
 * git and the directory lookup are parameters: `dir` is what `findGit`
 * returns, `rows` what `statusMatrix` returns, `status` what `git.status`
 * returns for one path, and `join` is `path.join`.
 */
module Staged {
  import opened Wrappers

  /** A status-matrix row `[filepath, head, workdir, stage]`. */
  datatype Row = Row(filepath: string, head: int, workdir: int, stage: int)

  const StagedIndexValue := 2
  const StagedWithChanges := 3
  const ModifiedValue := 2

  /** Column 3 says the file is staged, with or without further changes. */
  predicate IsStaged(row: Row) {
    row.stage == StagedIndexValue || row.stage == StagedWithChanges
  }

  /** Column 2 says the working tree differs from HEAD. */
  predicate IsModified(row: Row) {
    row.workdir == ModifiedValue
  }

  /** `status.filter(isStaged).filter(isModified).map(head)` */
  function StagedNames(rows: seq<Row>): seq<string>
    decreases |rows|
  {
    if rows == [] then []
    else
      var last := rows[|rows| - 1];
      StagedNames(rows[..|rows| - 1]) + (if IsStaged(last) && IsModified(last) then [last.filepath] else [])
  }

  /** `names.map(joinDir(dir))` */
  function Prefixed(dir: string, names: seq<string>, join: (string, string) -> string): (r: seq<string>)
    ensures |r| == |names|
    ensures forall i :: 0 <= i < |names| ==> r[i] == join(dir, names[i])
  {
    seq(|names|, i requires 0 <= i < |names| => join(dir, names[i]))
  }

  /** `/^\*?(added|modified)$/.test(status)`: an optional `*`, then `added` or `modified`, and nothing else. */
  predicate IsStagedStr(status: string) {
    var rest := if |status| > 0 && status[0] == '*' then status[1..] else status;
    rest == "added" || rest == "modified"
  }

  /** `isStagedStr(statuses)(name)`: a name without an entry reads as `undefined`, which does not match. */
  predicate StagedIn(statuses: map<string, string>, name: string) {
    name in statuses && IsStagedStr(statuses[name])
  }

  /** `_fromEntries`: each entry overwrites any earlier one with the same key. */
  function FromEntriesOf(entries: seq<(string, string)>): map<string, string>
    decreases |entries|
  {
    if entries == [] then map[]
    else
      var last := entries[|entries| - 1];
      FromEntriesOf(entries[..|entries| - 1])[last.0 := last.1]
  }

  /** `names.filter(isStagedStr(statuses))` */
  function StagedFilter(names: seq<string>, statuses: map<string, string>): seq<string>
    decreases |names|
  {
    if names == [] then []
    else
      var last := names[|names| - 1];
      StagedFilter(names[..|names| - 1], statuses) + (if StagedIn(statuses, last) then [last] else [])
  }

  /** The `for…of` loop of `_fromEntries`, proved against `FromEntriesOf`. */
  method FromEntries(entries: seq<(string, string)>) returns (result: map<string, string>)
    ensures result == FromEntriesOf(entries)
  {
    result := map[];
    for i := 0 to |entries|
      invariant result == FromEntriesOf(entries[..i])
    {
      assert entries[..i + 1][..i] == entries[..i];
      result := result[entries[i].0 := entries[i].1];
    }
    assert entries[..|entries|] == entries;
  }

  /** The module's `namesStore`, shared by `get` and `set`. */
  class Store {
    var names: seq<string>

    /** `fullstore([])` */
    constructor ()
      ensures names == []
    {
      names := [];
    }

    /** `get`: with no directory nothing is read or stored; otherwise the
        selected names are stored unprefixed and returned prefixed. */
    method Get(dir: string, rows: seq<Row>, join: (string, string) -> string) returns (files: seq<string>)
      modifies this
      ensures dir == "" ==> files == [] && names == old(names)
      ensures dir != "" ==> names == StagedNames(rows) && files == Prefixed(dir, names, join)
    {
      if dir == "" {
        return [];
      }
      names := StagedNames(rows);
      files := Prefixed(dir, names, join);
    }

    /** `set`: with no directory the result is `undefined` and nothing is
        staged; otherwise every stored name is passed to `git.add`, in
        order, and the result is the stored names whose status is staged. */
    method Set(dir: string, status: string -> string) returns (staged: Option<seq<string>>, ghost adds: seq<string>)
      ensures dir == "" ==> staged == None && adds == []
      ensures dir != "" ==> staged == Some(StagedFilter(names, FromEntriesOf(StatusPairs(names, status))))
      ensures dir != "" ==> adds == names
    {
      if dir == "" {
        return None, [];
      }
      var pairs: seq<(string, string)> := [];
      for i := 0 to |names|
        invariant pairs == StatusPairs(names[..i], status)
      {
        assert names[..i + 1][..i] == names[..i];
        pairs := pairs + [(names[i], status(names[i]))];
      }
      assert names[..|names|] == names;
      var statuses := FromEntries(pairs);
      adds := [];
      for i := 0 to |names|
        invariant adds == names[..i]
      {
        adds := adds + [names[i]];
      }
      staged := Some(StagedFilter(names, statuses));
    }
  }

  /** The pairs `[filepath, status]` the `getStatus` calls resolve to. */
  function StatusPairs(names: seq<string>, status: string -> string): (pairs: seq<(string, string)>)
    ensures |pairs| == |names|
    ensures forall i :: 0 <= i < |names| ==> pairs[i] == (names[i], status(names[i]))
    decreases |names|
  {
    if names == [] then []
    else StatusPairs(names[..|names| - 1], status) + [(names[|names| - 1], status(names[|names| - 1]))]
  }

  // ---- properties ----

  /** Exactly the four status strings are staged. */
  lemma StagedStrExactly(status: string)
    ensures IsStagedStr(status) <==>
      status == "added" || status == "modified" || status == "*added" || status == "*modified"
  {
    if |status| > 0 && status[0] == '*' {
      assert status == "*" + status[1..];
    }
  }

  /** A name is selected iff some row for it is both staged and modified. */
  lemma {:induction false} StagedNamesSpec(rows: seq<Row>, name: string)
    ensures name in StagedNames(rows) <==>
      exists i :: 0 <= i < |rows| && rows[i].filepath == name && IsStaged(rows[i]) && IsModified(rows[i])
    decreases |rows|
  {
    if rows != [] {
      var front := rows[..|rows| - 1];
      StagedNamesSpec(front, name);
      if exists i :: 0 <= i < |front| && front[i].filepath == name && IsStaged(front[i]) && IsModified(front[i]) {
        var i :| 0 <= i < |front| && front[i].filepath == name && IsStaged(front[i]) && IsModified(front[i]);
        assert rows[i] == front[i];
      }
    }
  }

  /** Selection keeps row order: it distributes over concatenation. */
  lemma {:induction false} StagedNamesAppend(a: seq<Row>, b: seq<Row>)
    ensures StagedNames(a + b) == StagedNames(a) + StagedNames(b)
    decreases |b|
  {
    if b != [] {
      var front := b[..|b| - 1];
      var last := b[|b| - 1];
      assert (a + b)[..|a + b| - 1] == a + front;
      assert (a + b)[|a + b| - 1] == last;
      StagedNamesAppend(a, front);
      var tail := if IsStaged(last) && IsModified(last) then [last.filepath] else [];
      assert StagedNames(a + b) == StagedNames(a) + StagedNames(front) + tail;
      assert StagedNames(b) == StagedNames(front) + tail;
    } else {
      assert a + b == a;
    }
  }

  /** A name that is never repeated later keeps its own value; every value
      read for a key comes from its last occurrence. */
  lemma {:induction false} FromEntriesLast(entries: seq<(string, string)>, i: nat)
    requires i < |entries|
    requires forall j :: i < j < |entries| ==> entries[j].0 != entries[i].0
    ensures entries[i].0 in FromEntriesOf(entries)
    ensures FromEntriesOf(entries)[entries[i].0] == entries[i].1
    decreases |entries|
  {
    if i < |entries| - 1 {
      FromEntriesLast(entries[..|entries| - 1], i);
    }
  }

  /** The keys of `_fromEntries` are exactly the keys of its entries. */
  lemma {:induction false} FromEntriesKeys(entries: seq<(string, string)>, key: string)
    ensures key in FromEntriesOf(entries) <==> exists i :: 0 <= i < |entries| && entries[i].0 == key
    decreases |entries|
  {
    if entries != [] {
      var front := entries[..|entries| - 1];
      FromEntriesKeys(front, key);
      if exists i :: 0 <= i < |front| && front[i].0 == key {
        var i :| 0 <= i < |front| && front[i].0 == key;
        assert entries[i] == front[i];
      }
    }
  }

  /** The status map `set` builds gives each stored name its own status. */
  lemma {:induction false} StatusOfName(names: seq<string>, status: string -> string, name: string)
    requires name in names
    ensures name in FromEntriesOf(StatusPairs(names, status))
    ensures FromEntriesOf(StatusPairs(names, status))[name] == status(name)
    decreases |names|
  {
    var pairs := StatusPairs(names, status);
    var front := names[..|names| - 1];
    assert StatusPairs(names, status)[..|names| - 1] == StatusPairs(front, status);
    if names[|names| - 1] != name {
      assert name in front;
      StatusOfName(front, status, name);
    }
  }

  /** The filter keeps exactly the names whose status is staged. */
  lemma {:induction false} StagedFilterSpec(names: seq<string>, statuses: map<string, string>, name: string)
    ensures name in StagedFilter(names, statuses) <==> name in names && StagedIn(statuses, name)
    decreases |names|
  {
    if names != [] {
      StagedFilterSpec(names[..|names| - 1], statuses, name);
      assert names == names[..|names| - 1] + [names[|names| - 1]];
    }
  }

  /** What `set` reports: the stored names whose own `git.status` is one of
      the four staged strings. */
  lemma SetReportsStaged(names: seq<string>, status: string -> string, name: string)
    ensures name in StagedFilter(names, FromEntriesOf(StatusPairs(names, status))) <==>
      name in names && IsStagedStr(status(name))
  {
    StagedFilterSpec(names, FromEntriesOf(StatusPairs(names, status)), name);
    if name in names {
      StatusOfName(names, status, name);
    }
  }
}
