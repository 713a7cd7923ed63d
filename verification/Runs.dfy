// Maximal runs: the unique way to cut a list into non-empty stretches of equal keys.

module Runs {

  function Flatten<T>(runs: seq<seq<T>>): seq<T> {
    if runs == [] then [] else Flatten(runs[..|runs| - 1]) + runs[|runs| - 1]
  }

  ghost predicate IsMaximal<T>(runs: seq<seq<T>>, key: T -> string) {
    && (forall i | 0 <= i < |runs| :: runs[i] != [])
    && (forall i, j | 0 <= i < |runs| && 0 <= j < |runs[i]| :: key(runs[i][j]) == key(runs[i][0]))
    && (forall i | 0 <= i < |runs| - 1 :: key(runs[i][0]) != key(runs[i + 1][0]))
  }

  // One more item: joined to the last run when it has the same key.
  function Extended<T>(runs: seq<seq<T>>, item: T, key: T -> string): (r: seq<seq<T>>)
    requires forall i | 0 <= i < |runs| :: runs[i] != []
    ensures forall i | 0 <= i < |r| :: r[i] != []
    ensures r != []
  {
    var n := |runs|;
    if n > 0 && key(runs[n - 1][0]) == key(item) then runs[..n - 1] + [runs[n - 1] + [item]]
    else runs + [[item]]
  }

  // A reference: the runs of all but the last item, extended by the last item.
  function RunsOf<T>(items: seq<T>, key: T -> string): (runs: seq<seq<T>>)
    ensures forall i | 0 <= i < |runs| :: runs[i] != []
    ensures runs == [] <==> items == []
  {
    if items == [] then [] else Extended(RunsOf(items[..|items| - 1], key), items[|items| - 1], key)
  }

  lemma FlattenSnoc<T>(runs: seq<seq<T>>, run: seq<T>)
    ensures Flatten(runs + [run]) == Flatten(runs) + run
  {
    assert (runs + [run])[..|runs|] == runs;
  }

  lemma NewRun<T>(runs: seq<seq<T>>, item: T, key: T -> string)
    requires IsMaximal(runs, key)
    requires runs != [] ==> key(runs[|runs| - 1][0]) != key(item)
    ensures IsMaximal(runs + [[item]], key)
  {
    var longer := runs + [[item]];
    assert forall i | 0 <= i < |runs| :: longer[i] == runs[i];
  }

  lemma LongerRun<T>(runs: seq<seq<T>>, last: seq<T>, item: T, key: T -> string)
    requires IsMaximal(runs + [last], key)
    requires last != [] && key(last[0]) == key(item)
    ensures IsMaximal(runs + [last + [item]], key)
  {
    var shorter, longer := runs + [last], runs + [last + [item]];
    assert shorter[|runs|] == last;
    forall i | 0 <= i < |longer|
      ensures longer[i] != [] && longer[i][0] == shorter[i][0]
    {
      if i < |runs| {
        assert longer[i] == shorter[i];
      } else {
        assert longer[i] == last + [item];
      }
    }
    forall i, j | 0 <= i < |longer| && 0 <= j < |longer[i]|
      ensures key(longer[i][j]) == key(longer[i][0])
    {
      if i < |runs| {
        assert longer[i] == shorter[i];
      } else if j < |last| {
        assert longer[i][j] == shorter[i][j];
      }
    }
  }

  lemma RunsOfStep<T>(items: seq<T>, item: T, key: T -> string)
    ensures RunsOf(items + [item], key) == Extended(RunsOf(items, key), item, key)
  {
    assert (items + [item])[..|items|] == items;
  }

  lemma ExtendedIsMaximal<T>(runs: seq<seq<T>>, item: T, key: T -> string)
    requires IsMaximal(runs, key)
    requires forall i | 0 <= i < |runs| :: runs[i] != []
    ensures IsMaximal(Extended(runs, item, key), key)
    ensures Flatten(Extended(runs, item, key)) == Flatten(runs) + [item]
  {
    hide IsMaximal, Flatten;
    var n := |runs|;
    if n > 0 && key(runs[n - 1][0]) == key(item) {
      var front, last := runs[..n - 1], runs[n - 1];
      assert runs == front + [last];
      LongerRun(front, last, item, key);
      FlattenSnoc(front, last);
      FlattenSnoc(front, last + [item]);
    } else {
      NewRun(runs, item, key);
      FlattenSnoc(runs, [item]);
    }
  }

  lemma {:induction false} RunsOfIsMaximal<T>(items: seq<T>, key: T -> string)
    ensures Flatten(RunsOf(items, key)) == items
    ensures IsMaximal(RunsOf(items, key), key)
  {
    if items != [] {
      var front, item := items[..|items| - 1], items[|items| - 1];
      RunsOfIsMaximal(front, key);
      ExtendedIsMaximal(RunsOf(front, key), item, key);
      assert items == front + [item];
    }
  }

  lemma NoEmptyPartition<T>(runs: seq<seq<T>>, key: T -> string)
    requires IsMaximal(runs, key)
    ensures Flatten(runs) == [] <==> runs == []
  {
    if runs != [] {
      assert runs[|runs| - 1] != [];
    }
  }

  // The last run of any maximal partition is the longest suffix with the key of the last item.
  lemma LastRun<T>(runs: seq<seq<T>>, key: T -> string, k: nat)
    requires IsMaximal(runs, key) && runs != []
    requires k < |Flatten(runs)|
    ensures var items := Flatten(runs);
            var last := runs[|runs| - 1];
            && |last| <= |items|
            && (k >= |items| - |last| ==> key(items[k]) == key(items[|items| - 1]))
            && (k == |items| - |last| - 1 ==> key(items[k]) != key(items[|items| - 1]))
  {
    var items := Flatten(runs);
    var n := |runs|;
    var last := runs[n - 1];
    var before := Flatten(runs[..n - 1]);
    assert items == before + last;
    assert key(items[|items| - 1]) == key(last[0]);
    if k >= |before| {
      assert items[k] == last[k - |before|];
    } else if k == |before| - 1 {
      assert n > 1;
      var previous := runs[n - 2];
      assert runs[..n - 1][n - 2] == previous;
      assert before == Flatten(runs[..n - 1][..n - 2]) + previous;
      assert items[k] == previous[|previous| - 1];
      assert key(runs[n - 2][0]) != key(runs[n - 2 + 1][0]);
    }
  }

  /** There is only one maximal partition, so it may be computed in any way. */
  lemma {:induction false} MaximalIsUnique<T>(a: seq<seq<T>>, b: seq<seq<T>>, key: T -> string)
    requires IsMaximal(a, key) && IsMaximal(b, key)
    requires Flatten(a) == Flatten(b)
    ensures a == b
  {
    var items := Flatten(a);
    NoEmptyPartition(a, key);
    NoEmptyPartition(b, key);
    if a != [] {
      var la, lb := a[|a| - 1], b[|b| - 1];
      if |la| < |lb| {
        LastRun(a, key, |items| - |la| - 1);
        LastRun(b, key, |items| - |la| - 1);
      } else if |lb| < |la| {
        LastRun(a, key, |items| - |lb| - 1);
        LastRun(b, key, |items| - |lb| - 1);
      }
      assert |la| == |lb|;
      assert la == items[|items| - |la|..] == lb;
      assert Flatten(a[..|a| - 1]) == items[..|items| - |la|] == Flatten(b[..|b| - 1]);
      MaximalIsUnique(a[..|a| - 1], b[..|b| - 1], key);
      assert a == a[..|a| - 1] + [la] && b == b[..|b| - 1] + [lb];
    }
  }

  // All runs but the last are settled: later items leave them as they are.
  lemma OneMoreItem<T>(items: seq<T>, key: T -> string)
    requires items != []
    ensures var before := RunsOf(items[..|items| - 1], key);
            && |before| <= |RunsOf(items, key)|
            && (before != [] ==> RunsOf(items, key)[..|before| - 1] == before[..|before| - 1])
  {
  }

  lemma {:induction false} SettledRuns<T>(items: seq<T>, n: nat, key: T -> string)
    requires n <= |items|
    ensures |RunsOf(items[..n], key)| <= |RunsOf(items, key)|
    ensures var m := |RunsOf(items[..n], key)|;
            m > 0 ==> RunsOf(items, key)[..m - 1] == RunsOf(items[..n], key)[..m - 1]
    decreases |items| - n
  {
    hide RunsOf;
    if n == |items| {
      assert items[..n] == items;
    } else {
      SettledRuns(items, n + 1, key);
      var next := items[..n + 1];
      assert next[..|next| - 1] == items[..n];
      OneMoreItem(next, key);
      var all, now, later := RunsOf(items, key), RunsOf(items[..n], key), RunsOf(next, key);
      var m, m' := |now|, |later|;
      if m > 0 {
        assert all[..m - 1] == all[..m' - 1][..m - 1] == later[..m' - 1][..m - 1] == later[..m - 1];
      }
    }
  }
}
