/**
 * The dictionaries the resolvers build: an index of instances by primary
 * key, rows grouped by the value of one column, and the set of target ids
 * per content type. Each is specified by a function defined on a growing
 * prefix (so that one loop step is one unfolding) and built by a loop.
 */
module Grouping {
  import opened Records

  // ---------------------------------------------------------------------
  // Filters: what a `filter(column=key)` or `filter(column__in=keys)`
  // query returns, in table order.
  // ---------------------------------------------------------------------

  lemma PrefixCarries(rows: seq<Row>, column: string)
    requires rows != [] && Carries(rows, column)
    ensures Carries(rows[..|rows| - 1], column)
  {
  }

  /** The rows whose `column` holds `key`, in their order. */
  function Matching(rows: seq<Row>, column: string, key: int): (r: seq<Row>)
    requires Carries(rows, column)
    ensures forall x :: x in r ==> x in rows && x.columns[column] == key
  {
    if rows == [] then []
    else
      PrefixCarries(rows, column);
      var last := rows[|rows| - 1];
      Matching(rows[..|rows| - 1], column, key) + (if last.columns[column] == key then [last] else [])
  }

  /** The rows whose `column` holds one of `keys`, in their order. */
  function MatchingAny(rows: seq<Row>, column: string, keys: set<int>): (r: seq<Row>)
    requires Carries(rows, column)
    ensures forall x :: x in r ==> x in rows && x.columns[column] in keys
  {
    if rows == [] then []
    else
      PrefixCarries(rows, column);
      var last := rows[|rows| - 1];
      MatchingAny(rows[..|rows| - 1], column, keys) + (if last.columns[column] in keys then [last] else [])
  }

  /** Selecting one key after a batched selection of several keys that
      include it gives what selecting that key alone gives: the batched
      query loses nothing and adds nothing for any one key. */
  lemma {:induction false} MatchingAfterMatchingAny(rows: seq<Row>, column: string, keys: set<int>, key: int)
    requires Carries(rows, column) && key in keys
    ensures Carries(MatchingAny(rows, column, keys), column)
    ensures Matching(MatchingAny(rows, column, keys), column, key) == Matching(rows, column, key)
  {
    if rows != [] {
      var init, last := rows[..|rows| - 1], rows[|rows| - 1];
      PrefixCarries(rows, column);
      MatchingAfterMatchingAny(init, column, keys, key);
      var tail := if last.columns[column] in keys then [last] else [];
      assert MatchingAny(rows, column, keys) == MatchingAny(init, column, keys) + tail;
      MatchingAppend(MatchingAny(init, column, keys), tail, column, key);
    }
  }

  /** Filtering distributes over concatenation: rows keep their relative
      order. */
  lemma {:induction false} MatchingAppend(a: seq<Row>, b: seq<Row>, column: string, key: int)
    requires Carries(a, column) && Carries(b, column)
    ensures Carries(a + b, column)
    ensures Matching(a + b, column, key) == Matching(a, column, key) + Matching(b, column, key)
  {
    assert forall r :: r in a + b ==> r in a || r in b;
    if b != [] {
      var init, last := b[..|b| - 1], b[|b| - 1];
      PrefixCarries(b, column);
      assert (a + b)[..|a + b| - 1] == a + init;
      assert (a + b)[|a + b| - 1] == last;
      MatchingAppend(a, init, column, key);
      assert Matching(a + b, column, key) == Matching(a + init, column, key) + (if last.columns[column] == key then [last] else []);
    } else {
      assert a + b == a;
    }
  }

  /** Every occurrence of a row is selected by the key its column holds and
      by no other key. */
  lemma {:induction false} MatchingCount(rows: seq<Row>, column: string, key: int, x: Row)
    requires Carries(rows, column)
    ensures multiset(Matching(rows, column, key))[x] ==
      if column in x.columns && x.columns[column] == key then multiset(rows)[x] else 0
  {
    if rows != [] {
      var init, last := rows[..|rows| - 1], rows[|rows| - 1];
      PrefixCarries(rows, column);
      MatchingCount(init, column, key, x);
      assert rows == init + [last];
    }
  }

  /** A key selects something exactly when some row holds it. */
  lemma {:induction false} MatchingNonEmpty(rows: seq<Row>, column: string, key: int)
    requires Carries(rows, column)
    ensures Matching(rows, column, key) != [] <==> exists x :: x in rows && x.columns[column] == key
  {
    if rows != [] {
      var init, last := rows[..|rows| - 1], rows[|rows| - 1];
      PrefixCarries(rows, column);
      MatchingNonEmpty(init, column, key);
      assert rows == init + [last];
    }
  }

  // ---------------------------------------------------------------------
  // Grouping rows by a column: `d.setdefault(getattr(obj, column), []).append(obj)`.
  // ---------------------------------------------------------------------

  function GroupBy(rows: seq<Row>, column: string): map<int, seq<Row>>
    requires Carries(rows, column)
  {
    if rows == [] then map[]
    else
      PrefixCarries(rows, column);
      var groups := GroupBy(rows[..|rows| - 1], column);
      var last := rows[|rows| - 1];
      var key := last.columns[column];
      groups[key := (if key in groups then groups[key] else []) + [last]]
  }

  /** The group of a key is the filter on that key, and a key has a group
      exactly when some row holds it. */
  lemma {:induction false} GroupByIsMatching(rows: seq<Row>, column: string)
    requires Carries(rows, column)
    ensures forall key :: key in GroupBy(rows, column) <==> Matching(rows, column, key) != []
    ensures forall key :: key in GroupBy(rows, column) ==> GroupBy(rows, column)[key] == Matching(rows, column, key)
  {
    if rows != [] {
      PrefixCarries(rows, column);
      GroupByIsMatching(rows[..|rows| - 1], column);
    }
  }

  /** The members of a group all hold the group's key; every row is in the
      group of the key it holds; and each group holds every occurrence of
      each of its rows and nothing else, so the groups split the rows. */
  lemma GroupByPartition(rows: seq<Row>, column: string)
    requires Carries(rows, column)
    ensures forall key, x :: key in GroupBy(rows, column) && x in GroupBy(rows, column)[key] ==> x in rows && x.columns[column] == key
    ensures forall x :: x in rows ==> x.columns[column] in GroupBy(rows, column)
    ensures forall key, x :: key in GroupBy(rows, column) ==>
      multiset(GroupBy(rows, column)[key])[x] == if column in x.columns && x.columns[column] == key then multiset(rows)[x] else 0
  {
    GroupByIsMatching(rows, column);
    forall x | x in rows ensures x.columns[column] in GroupBy(rows, column) {
      MatchingNonEmpty(rows, column, x.columns[column]);
    }
    forall key, x | key in GroupBy(rows, column)
      ensures multiset(GroupBy(rows, column)[key])[x] == if column in x.columns && x.columns[column] == key then multiset(rows)[x] else 0
    {
      MatchingCount(rows, column, key, x);
    }
  }

  /** Grouping the rows of one `column__in=keys` query by `column` gives
      no key outside `keys`, and for each requested key exactly what a
      query for that key alone would return, present when that is not empty. */
  lemma BatchedGroups(rows: seq<Row>, column: string, keys: set<int>)
    requires Carries(rows, column)
    ensures Carries(MatchingAny(rows, column, keys), column)
    ensures forall key :: key in GroupBy(MatchingAny(rows, column, keys), column) ==> key in keys
    ensures forall key :: key in keys ==>
      (key in GroupBy(MatchingAny(rows, column, keys), column) <==> Matching(rows, column, key) != [])
    ensures forall key :: key in GroupBy(MatchingAny(rows, column, keys), column) ==>
      GroupBy(MatchingAny(rows, column, keys), column)[key] == Matching(rows, column, key)
  {
    var batch := MatchingAny(rows, column, keys);
    assert Carries(batch, column);
    var groups := GroupBy(batch, column);
    GroupByIsMatching(batch, column);
    forall key | key in groups
      ensures key in keys && groups[key] == Matching(rows, column, key)
    {
      var matched := Matching(batch, column, key);
      assert matched != [] && matched[0] in matched;
      assert matched[0] in batch && matched[0].columns[column] == key;
      MatchingAfterMatchingAny(rows, column, keys, key);
    }
    forall key | key in keys
      ensures key in groups <==> Matching(rows, column, key) != []
    {
      MatchingAfterMatchingAny(rows, column, keys, key);
    }
  }

  /** The `relation_dict` loop. */
  method BuildRelationDict(rows: seq<Row>, column: string) returns (groups: map<int, seq<Row>>)
    requires Carries(rows, column)
    ensures groups == GroupBy(rows, column)
  {
    groups := map[];
    var i := 0;
    while i < |rows|
      invariant 0 <= i <= |rows|
      invariant Carries(rows[..i], column)
      invariant groups == GroupBy(rows[..i], column)
    {
      var row := rows[i];
      var key := row.columns[column];
      assert rows[..i + 1][..i] == rows[..i];
      groups := groups[key := (if key in groups then groups[key] else []) + [row]];
      i := i + 1;
    }
    assert rows[..i] == rows;
  }

  // ---------------------------------------------------------------------
  // Indexing by a key, later entries overwriting earlier ones:
  // `dict([(key(x), x) for x in s])`.
  // ---------------------------------------------------------------------

  function IndexBy<T>(s: seq<T>, key: T -> int): (index: map<int, T>)
    ensures index.Keys == set x | x in s :: key(x)
    ensures forall k :: k in index ==> index[k] in s && key(index[k]) == k
  {
    if s == [] then map[]
    else
      var init := s[..|s| - 1];
      assert s == init + [s[|s| - 1]];
      IndexBy(init, key)[key(s[|s| - 1]) := s[|s| - 1]]
  }

  /** The entry of a key is the last element that has it. */
  lemma {:induction false} IndexByLast<T>(s: seq<T>, key: T -> int, j: nat)
    requires j < |s|
    requires forall i :: j < i < |s| ==> key(s[i]) != key(s[j])
    ensures IndexBy(s, key)[key(s[j])] == s[j]
  {
    if j < |s| - 1 {
      IndexByLast(s[..|s| - 1], key, j);
    }
  }

  /** The `obj_dict` comprehension. */
  method BuildIndex<T>(s: seq<T>, key: T -> int) returns (index: map<int, T>)
    ensures index == IndexBy(s, key)
  {
    index := map[];
    var i := 0;
    while i < |s|
      invariant 0 <= i <= |s|
      invariant index == IndexBy(s[..i], key)
    {
      assert s[..i + 1][..i] == s[..i];
      index := index[key(s[i]) := s[i]];
      i := i + 1;
    }
    assert s[..i] == s;
  }

  // ---------------------------------------------------------------------
  // Target ids per content type:
  // `generics.setdefault(ct_id, set()).add(fk_id)`.
  // ---------------------------------------------------------------------

  function GenericTargets(rows: seq<Row>, ctColumn: string, fkColumn: string): map<int, set<int>>
    requires Carries(rows, ctColumn) && Carries(rows, fkColumn)
  {
    if rows == [] then map[]
    else
      PrefixCarries(rows, ctColumn);
      PrefixCarries(rows, fkColumn);
      var targets := GenericTargets(rows[..|rows| - 1], ctColumn, fkColumn);
      var last := rows[|rows| - 1];
      var ct := last.columns[ctColumn];
      targets[ct := (if ct in targets then targets[ct] else {}) + {last.columns[fkColumn]}]
  }

  /** A content type has an entry exactly when some row points at it, and
      its entry holds exactly the ids the rows of that type point at, each
      once. */
  lemma {:induction false} GenericTargetsSpec(rows: seq<Row>, ctColumn: string, fkColumn: string)
    requires Carries(rows, ctColumn) && Carries(rows, fkColumn)
    ensures forall ct :: ct in GenericTargets(rows, ctColumn, fkColumn) <==>
      exists x :: x in rows && x.columns[ctColumn] == ct
    ensures forall ct, fk :: ct in GenericTargets(rows, ctColumn, fkColumn) ==>
      (fk in GenericTargets(rows, ctColumn, fkColumn)[ct] <==>
       exists x :: x in rows && x.columns[ctColumn] == ct && x.columns[fkColumn] == fk)
  {
    if rows != [] {
      PrefixCarries(rows, ctColumn);
      PrefixCarries(rows, fkColumn);
      var init := rows[..|rows| - 1];
      GenericTargetsSpec(init, ctColumn, fkColumn);
      assert forall x :: x in rows <==> x in init || x == rows[|rows| - 1];
    }
  }

  /** There are never more content types than rows, and at least one when
      there is a row: the number of per-type queries does not grow with the
      number of rows. */
  lemma {:induction false} GenericTargetsCount(rows: seq<Row>, ctColumn: string, fkColumn: string)
    requires Carries(rows, ctColumn) && Carries(rows, fkColumn)
    ensures |GenericTargets(rows, ctColumn, fkColumn).Keys| <= |rows|
    ensures rows != [] ==> |GenericTargets(rows, ctColumn, fkColumn).Keys| >= 1
  {
    if rows != [] {
      PrefixCarries(rows, ctColumn);
      PrefixCarries(rows, fkColumn);
      var init := rows[..|rows| - 1];
      GenericTargetsCount(init, ctColumn, fkColumn);
      var ct := rows[|rows| - 1].columns[ctColumn];
      var before := GenericTargets(init, ctColumn, fkColumn).Keys;
      assert GenericTargets(rows, ctColumn, fkColumn).Keys == before + {ct};
      assert |before + {ct}| <= |before| + 1;
    }
  }

  /** The `generics` loop. */
  method BuildGenerics(rows: seq<Row>, ctColumn: string, fkColumn: string) returns (targets: map<int, set<int>>)
    requires Carries(rows, ctColumn) && Carries(rows, fkColumn)
    ensures targets == GenericTargets(rows, ctColumn, fkColumn)
  {
    targets := map[];
    var i := 0;
    while i < |rows|
      invariant 0 <= i <= |rows|
      invariant Carries(rows[..i], ctColumn) && Carries(rows[..i], fkColumn)
      invariant targets == GenericTargets(rows[..i], ctColumn, fkColumn)
    {
      var ct, fk := rows[i].columns[ctColumn], rows[i].columns[fkColumn];
      assert rows[..i + 1][..i] == rows[..i];
      targets := targets[ct := (if ct in targets then targets[ct] else {}) + {fk}];
      i := i + 1;
    }
    assert rows[..i] == rows;
  }
}
