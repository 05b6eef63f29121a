/**
 Which containers a check of a host goes through, and in which order
 (backend/core/check_actions/check_actions_util.py).
 */
module CheckOrder {
  import opened Wrappers
  import opened Database
  import CheckHistory

  /** What keeps a check from its conclusion. */
  datatype Obstacle = NoObstacle | NoImageSpec | InspectFails | NoRepoDigests | FailsLater

  /** Everything a check of one container meets. */
  datatype Attempt = Attempt(name: string, obstacle: Obstacle, check: CheckHistory.Check) {
    predicate Consistent() {
      (obstacle == NoObstacle <==> check.Observed?) && check.Consistent()
    }
  }

  // ---------- Filter ----------

  predicate CheckEnabled(rows: Rows, a: Attempt) {
    a.name in rows && rows[a.name].checkEnabled
  }

  function EnabledOf(attempts: seq<Attempt>, rows: Rows): seq<Attempt> {
    if attempts == [] then []
    else
      var front, last := attempts[..|attempts| - 1], attempts[|attempts| - 1];
      EnabledOf(front, rows) + if CheckEnabled(rows, last) then [last] else []
  }

  method FilterByCheckEnabled(attempts: seq<Attempt>, rows: Rows) returns (kept: seq<Attempt>)
    ensures kept == EnabledOf(attempts, rows)
  {
    kept := [];
    for i := 0 to |attempts|
      invariant kept == EnabledOf(attempts[..i], rows)
    {
      assert attempts[..i + 1][..i] == attempts[..i];
      if attempts[i].name in rows && rows[attempts[i].name].checkEnabled {
        kept := kept + [attempts[i]];
      }
    }
    assert attempts[..|attempts|] == attempts;
  }

  lemma {:induction false} EnabledExactly(attempts: seq<Attempt>, rows: Rows, a: Attempt)
    ensures multiset(EnabledOf(attempts, rows))[a] == if CheckEnabled(rows, a) then multiset(attempts)[a] else 0
  {
    if attempts != [] {
      var front, last := attempts[..|attempts| - 1], attempts[|attempts| - 1];
      assert attempts == front + [last];
      EnabledExactly(front, rows, a);
    }
  }

  lemma EnabledListed(attempts: seq<Attempt>, rows: Rows, a: Attempt)
    requires a in EnabledOf(attempts, rows)
    ensures a in attempts
  {
    EnabledExactly(attempts, rows, a);
    assert a in multiset(EnabledOf(attempts, rows)) && a in multiset(attempts);
  }

  /** What is left stands in the order of the list. */
  lemma {:induction false} EnabledInOrder(attempts: seq<Attempt>, rows: Rows, i: nat, j: nat)
    requires i < j < |EnabledOf(attempts, rows)|
    ensures exists k, l :: 0 <= k < l < |attempts| && attempts[k] == EnabledOf(attempts, rows)[i]
                           && attempts[l] == EnabledOf(attempts, rows)[j]
  {
    var front, last := attempts[..|attempts| - 1], attempts[|attempts| - 1];
    var kept := EnabledOf(front, rows);
    if j < |kept| {
      EnabledInOrder(front, rows, i, j);
      var k, l :| 0 <= k < l < |front| && front[k] == kept[i] && front[l] == kept[j];
      assert attempts[k] == front[k] && attempts[l] == front[l];
    } else {
      EnabledListed(front, rows, kept[i]);
      var k :| 0 <= k < |front| && front[k] == kept[i];
      assert attempts[k] == front[k] && attempts[|front|] == last;
    }
  }

  // ---------- Sort ----------

  /** When the container was last checked; `None` is before every time. */
  function LastCheck(rows: Rows, a: Attempt): Option<int> {
    if a.name in rows then rows[a.name].checkedAt else None
  }

  predicate NotLater(s: Option<int>, t: Option<int>) {
    s.None? || (t.Some? && s.value <= t.value)
  }

  function Insert(a: Attempt, sorted: seq<Attempt>, rows: Rows): seq<Attempt> {
    if sorted == [] || NotLater(LastCheck(rows, a), LastCheck(rows, sorted[0])) then [a] + sorted
    else [sorted[0]] + Insert(a, sorted[1..], rows)
  }

  /** Python's `sorted` by the time of the last check. */
  function SortByCheckedAt(attempts: seq<Attempt>, rows: Rows): seq<Attempt> {
    if attempts == [] then [] else Insert(attempts[0], SortByCheckedAt(attempts[1..], rows), rows)
  }

  predicate OldestFirst(attempts: seq<Attempt>, rows: Rows) {
    forall i, j :: 0 <= i < j < |attempts| ==> NotLater(LastCheck(rows, attempts[i]), LastCheck(rows, attempts[j]))
  }

  /** The attempts whose container was last checked at this time, in order. */
  function CheckedAt(attempts: seq<Attempt>, rows: Rows, t: Option<int>): seq<Attempt> {
    if attempts == [] then []
    else (if LastCheck(rows, attempts[0]) == t then [attempts[0]] else []) + CheckedAt(attempts[1..], rows, t)
  }

  lemma {:induction false} InsertAdds(a: Attempt, sorted: seq<Attempt>, rows: Rows)
    ensures multiset(Insert(a, sorted, rows)) == multiset{a} + multiset(sorted)
  {
    if sorted != [] && !NotLater(LastCheck(rows, a), LastCheck(rows, sorted[0])) {
      InsertAdds(a, sorted[1..], rows);
      assert sorted == [sorted[0]] + sorted[1..];
    }
  }

  lemma {:induction false} InsertSorts(a: Attempt, sorted: seq<Attempt>, rows: Rows)
    requires OldestFirst(sorted, rows)
    ensures OldestFirst(Insert(a, sorted, rows), rows)
  {
    if sorted != [] && !NotLater(LastCheck(rows, a), LastCheck(rows, sorted[0])) {
      var more := Insert(a, sorted[1..], rows);
      InsertSorts(a, sorted[1..], rows);
      InsertAdds(a, sorted[1..], rows);
      forall j | 0 <= j < |more| ensures NotLater(LastCheck(rows, sorted[0]), LastCheck(rows, more[j])) {
        assert more[j] in multiset(more);
        assert more[j] == a || more[j] in sorted[1..];
      }
    }
  }

  lemma CheckedAtFront(a: Attempt, rest: seq<Attempt>, rows: Rows, t: Option<int>)
    ensures CheckedAt([a] + rest, rows, t) == (if LastCheck(rows, a) == t then [a] else []) + CheckedAt(rest, rows, t)
  {
    assert ([a] + rest)[1..] == rest;
  }

  lemma {:induction false} InsertStable(a: Attempt, sorted: seq<Attempt>, rows: Rows, t: Option<int>)
    ensures CheckedAt(Insert(a, sorted, rows), rows, t) == CheckedAt([a] + sorted, rows, t)
  {
    if sorted != [] && !NotLater(LastCheck(rows, a), LastCheck(rows, sorted[0])) {
      var more := Insert(a, sorted[1..], rows);
      InsertStable(a, sorted[1..], rows, t);
      CheckedAtFront(sorted[0], more, rows, t);
      CheckedAtFront(a, sorted[1..], rows, t);
      CheckedAtFront(a, sorted, rows, t);
    }
  }

  /**
   The sort yields the same attempts, longest unchecked first, and keeps the order of those checked
   at the same time.
   */
  lemma {:induction false} StableSort(attempts: seq<Attempt>, rows: Rows, t: Option<int>)
    ensures OldestFirst(SortByCheckedAt(attempts, rows), rows)
    ensures multiset(SortByCheckedAt(attempts, rows)) == multiset(attempts)
    ensures CheckedAt(SortByCheckedAt(attempts, rows), rows, t) == CheckedAt(attempts, rows, t)
  {
    if attempts != [] {
      var rest := SortByCheckedAt(attempts[1..], rows);
      StableSort(attempts[1..], rows, t);
      InsertAdds(attempts[0], rest, rows);
      InsertSorts(attempts[0], rest, rows);
      InsertStable(attempts[0], rest, rows, t);
      CheckedAtFront(attempts[0], rest, rows, t);
      assert attempts == [attempts[0]] + attempts[1..];
    }
  }

  // ---------- Both ----------

  /** What a check of a host goes through: everything if asked for by hand, else what has checks enabled. */
  function Due(attempts: seq<Attempt>, manual: bool, rows: Rows): seq<Attempt> {
    SortByCheckedAt(if manual then attempts else EnabledOf(attempts, rows), rows)
  }

  /** Every attempt that is asked for comes up as often as it is listed, and no other one; longest unchecked first. */
  lemma DueExactly(attempts: seq<Attempt>, manual: bool, rows: Rows, a: Attempt)
    ensures OldestFirst(Due(attempts, manual, rows), rows)
    ensures multiset(Due(attempts, manual, rows))[a] ==
            if manual || CheckEnabled(rows, a) then multiset(attempts)[a] else 0
    ensures a in Due(attempts, manual, rows) <==>
            a in attempts && (manual || (a.name in rows && rows[a.name].checkEnabled))
    ensures forall i, j :: 0 <= i < j < |Due(attempts, manual, rows)| ==>
              var first, second := Due(attempts, manual, rows)[i].name, Due(attempts, manual, rows)[j].name;
              || first !in rows || rows[first].checkedAt == None
              || (second in rows && rows[second].checkedAt.Some?
                  && rows[first].checkedAt.value <= rows[second].checkedAt.value)
  {
    StableSort(if manual then attempts else EnabledOf(attempts, rows), rows, None);
    EnabledExactly(attempts, rows, a);
    assert a in Due(attempts, manual, rows) <==> a in multiset(Due(attempts, manual, rows));
    assert a in attempts <==> a in multiset(attempts);
  }
}
