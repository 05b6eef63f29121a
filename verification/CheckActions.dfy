/**
 The three check actions under the progress lock (backend/core/check_actions/check_one_container.py,
 check_host_containers.py, check_all_containers.py).
 */
module CheckActions {
  import opened Wrappers
  import opened Database
  import opened Progress
  import opened LockProtocol
  import opened Tasks
  import opened CheckHistory
  import opened CheckOrder

  /** The row of the container after the attempt, and what the attempt reports. */
  function RowsAfter(rows: Rows, a: Attempt): Rows {
    if a.check.Aborted? then rows else rows[a.name := AfterCheck(RowOf(rows, a.name), a.check).value]
  }

  function Reported(rows: Rows, a: Attempt): Verdict {
    if a.check.Aborted? then Unknown else VerdictOf(RowOf(rows, a.name), a.check)
  }

  /** How a check of one container leaves its entry. */
  predicate CheckOver(entries: Entries, key: Key, o: Obstacle) {
    match o
    case NoObstacle => Over(entries, key, DONE, true)
    case NoImageSpec => Over(entries, key, DONE, false)
    case NoRepoDigests => Over(entries, key, DONE, false)
    case InspectFails => Over(entries, key, ERROR, true)
    case FailsLater => Over(entries, key, ERROR, true)
  }

  /** The started check, up to the end of its entry. */
  method FinishCheck(task: Task, cache: ProgressCache, table: ContainerTable, a: Attempt) returns (verdict: Verdict)
    requires task.Valid() && cache.shared == task.shared && a.Consistent()
    requires task.stack != [] && task.stack[|task.stack| - 1] == Frame(CheckOne, cache.id)
    modifies task, task.shared, table
    ensures task.Valid() && task.stack == old(task.stack)[..|old(task.stack)| - 1]
    ensures Kept(task.Keys(), old(task.shared.entries), task.shared.entries) && task.asked == old(task.asked)
    ensures CheckOver(task.shared.entries, cache.id, a.obstacle)
    ensures table.rows == RowsAfter(old(table.rows), a) && verdict == Reported(old(table.rows), a)
  {
    verdict := Unknown;
    if a.obstacle.NoImageSpec? {
      task.Close(cache, DONE, false);
      return;
    }
    task.Await();
    if a.obstacle.InspectFails? {
      task.Close(cache, ERROR, true);
      return;
    }
    if a.obstacle.NoRepoDigests? {
      task.Close(cache, DONE, false);
      return;
    }
    task.Await();
    task.Pass(cache, CHECKING);
    task.Await();
    if a.obstacle.FailsLater? {
      task.Close(cache, ERROR, true);
      return;
    }
    verdict := CheckHistory.CheckOne(table, a.name, a.check);
    assert table.rows == RowsAfter(old(table.rows), a) && verdict == Reported(old(table.rows), a);
    task.Close(cache, DONE, true);
  }

  method CheckOneContainer(task: Task, table: ContainerTable, id: nat, host: string, a: Attempt)
    returns (ran: bool, verdict: Verdict)
    requires task.Valid() && a.Consistent()
    requires MayBegin(task.stack, Frame(CheckOne, ContainerKey(id, host, a.name)))
    modifies task, task.shared, table
    ensures task.Valid() && task.stack == old(task.stack)
    ensures Kept(task.Keys(), old(task.shared.entries), task.shared.entries)
    ensures ran == IsAllowedStart(EntryOf(old(task.shared.entries), ContainerKey(id, host, a.name)))
    ensures task.asked == old(task.asked) + [(ContainerKey(id, host, a.name), ran)]
    ensures ran ==> CheckOver(task.shared.entries, ContainerKey(id, host, a.name), a.obstacle)
    ensures ran ==> table.rows == RowsAfter(old(table.rows), a) && verdict == Reported(old(table.rows), a)
    ensures !ran ==>
              task.shared.entries == old(task.shared.entries) && table.rows == old(table.rows) && verdict == Unknown
  {
    var cache := new ProgressCache(task.shared, ContainerKey(id, host, a.name));
    ran := task.TryStart(cache, CheckOne);
    if !ran {
      return false, Unknown;
    }
    verdict := FinishCheck(task, cache, table, a);
    assert task.stack == old(task.stack);
    return true, verdict;
  }

  /** Rows and verdicts of the attempts that ran, in order. */
  ghost predicate Chained(attempts: seq<Attempt>, ran: seq<bool>, verdicts: seq<Verdict>, snapshots: seq<Rows>) {
    && |ran| == |verdicts| == |attempts| && |snapshots| == |attempts| + 1
    && forall i :: 0 <= i < |attempts| ==>
         && snapshots[i + 1] == (if ran[i] then RowsAfter(snapshots[i], attempts[i]) else snapshots[i])
         && verdicts[i] == if ran[i] then Reported(snapshots[i], attempts[i]) else Unknown
  }

  predicate ConsistentListing(listing: Option<seq<Attempt>>) {
    listing.Some? ==> forall i :: 0 <= i < |listing.value| ==> listing.value[i].Consistent()
  }

  lemma ChainNext(attempts: seq<Attempt>, ran: seq<bool>, verdicts: seq<Verdict>, snapshots: seq<Rows>,
                  a: Attempt, one: bool, verdict: Verdict, rows: Rows)
    requires Chained(attempts, ran, verdicts, snapshots)
    requires rows == if one then RowsAfter(snapshots[|attempts|], a) else snapshots[|attempts|]
    requires verdict == if one then Reported(snapshots[|attempts|], a) else Unknown
    ensures Chained(attempts + [a], ran + [one], verdicts + [verdict], snapshots + [rows])
  {
  }

  /** Each attempt asked to start under the key of its container. */
  ghost predicate AskedEach(id: nat, host: string, attempts: seq<Attempt>, before: Asked, after: Asked, ran: seq<bool>)
  {
    && before <= after && |ran| == |attempts|
    && forall i :: 0 <= i < |attempts| ==> AskedFor(before, after, ContainerKey(id, host, attempts[i].name), ran[i])
  }

  lemma AskedEachNext(id: nat, host: string, attempts: seq<Attempt>, before: Asked, mid: Asked, after: Asked,
                      ran: seq<bool>, a: Attempt, one: bool)
    requires AskedEach(id, host, attempts, before, mid, ran) && after == mid + [(ContainerKey(id, host, a.name), one)]
    ensures AskedEach(id, host, attempts + [a], before, after, ran + [one])
  {
    AskedNow(mid, after, ContainerKey(id, host, a.name), one);
    AskedLater(before, mid, after, ContainerKey(id, host, a.name), one);
    forall i | 0 <= i < |attempts| ensures AskedFor(before, after, ContainerKey(id, host, attempts[i].name), ran[i]) {
      AskedLater(before, mid, after, ContainerKey(id, host, attempts[i].name), ran[i]);
    }
  }

  lemma AskedEachWithin(id: nat, host: string, attempts: seq<Attempt>, before: Asked, mid: Asked, after: Asked,
                        ran: seq<bool>)
    requires before <= mid && AskedEach(id, host, attempts, mid, after, ran)
    ensures AskedEach(id, host, attempts, before, after, ran)
  {
    forall i | 0 <= i < |attempts| ensures AskedFor(before, after, ContainerKey(id, host, attempts[i].name), ran[i]) {
      AskedLater(before, mid, after, ContainerKey(id, host, attempts[i].name), ran[i]);
    }
  }

  /** The loop over a host's containers, one after another. */
  method CheckEach(task: Task, table: ContainerTable, id: nat, host: string, attempts: seq<Attempt>)
    returns (ran: seq<bool>, verdicts: seq<Verdict>, ghost snapshots: seq<Rows>)
    requires task.Valid() && ConsistentListing(Some(attempts))
    requires task.stack != [] && task.stack[|task.stack| - 1] == Frame(CheckHost, HostKey(id, host))
    modifies task, task.shared, table
    ensures task.Valid() && task.stack == old(task.stack)
    ensures Kept(task.Keys(), old(task.shared.entries), task.shared.entries)
    ensures Chained(attempts, ran, verdicts, snapshots)
    ensures AskedEach(id, host, attempts, old(task.asked), task.asked, ran)
    ensures snapshots[0] == old(table.rows) && snapshots[|attempts|] == table.rows
  {
    ran, verdicts, snapshots := [], [], [table.rows];
    for i := 0 to |attempts|
      invariant task.Valid() && task.stack == old(task.stack)
      invariant Kept(task.Keys(), old(task.shared.entries), task.shared.entries)
      invariant Chained(attempts[..i], ran, verdicts, snapshots)
      invariant AskedEach(id, host, attempts[..i], old(task.asked), task.asked, ran)
      invariant snapshots[0] == old(table.rows) && snapshots[i] == table.rows
    {
      assert attempts[..i + 1] == attempts[..i] + [attempts[i]];
      ghost var asked := task.asked;
      var one, verdict := CheckOneContainer(task, table, id, host, attempts[i]);
      AskedEachNext(id, host, attempts[..i], old(task.asked), asked, task.asked, ran, attempts[i], one);
      ChainNext(attempts[..i], ran, verdicts, snapshots, attempts[i], one, verdict, table.rows);
      ran, verdicts, snapshots := ran + [one], verdicts + [verdict], snapshots + [table.rows];
    }
    assert attempts[..|attempts|] == attempts;
  }

  /** The containers a check of a host goes through; none when the agent or the database failed. */
  function Planned(listing: Option<seq<Attempt>>, manual: bool, rows: Rows): seq<Attempt> {
    if listing.Some? then Due(listing.value, manual, rows) else []
  }

  /** Filters unless asked for by hand, sorts, and checks what is left. */
  method CheckDue(task: Task, table: ContainerTable, id: nat, host: string, attempts: seq<Attempt>, manual: bool)
    returns (ran: seq<bool>, verdicts: seq<Verdict>, ghost snapshots: seq<Rows>)
    requires task.Valid() && ConsistentListing(Some(attempts))
    requires task.stack != [] && task.stack[|task.stack| - 1] == Frame(CheckHost, HostKey(id, host))
    modifies task, task.shared, table
    ensures task.Valid() && task.stack == old(task.stack)
    ensures Kept(task.Keys(), old(task.shared.entries), task.shared.entries)
    ensures var due := Due(attempts, manual, old(table.rows));
            Chained(due, ran, verdicts, snapshots) && AskedEach(id, host, due, old(task.asked), task.asked, ran)
    ensures snapshots[0] == old(table.rows) && snapshots[|snapshots| - 1] == table.rows
  {
    var due := attempts;
    if !manual {
      due := FilterByCheckEnabled(attempts, table.rows);
    }
    due := SortByCheckedAt(due, table.rows);
    assert due == Due(attempts, manual, table.rows);
    forall i | 0 <= i < |due| ensures due[i].Consistent() {
      DueExactly(attempts, manual, table.rows, due[i]);
    }
    ran, verdicts, snapshots := CheckEach(task, table, id, host, due);
  }

  /** The started check of a host, up to the end of its entry. */
  method FinishHostCheck(task: Task, cache: ProgressCache, table: ContainerTable, id: nat, host: string,
                         listing: Option<seq<Attempt>>, manual: bool)
    returns (verdicts: seq<Verdict>, ran: seq<bool>, ghost snapshots: seq<Rows>)
    requires task.Valid() && cache.shared == task.shared && cache.id == HostKey(id, host) && ConsistentListing(listing)
    requires task.stack != [] && task.stack[|task.stack| - 1] == Frame(CheckHost, HostKey(id, host))
    modifies task, task.shared, table
    ensures task.Valid() && task.stack == old(task.stack)[..|old(task.stack)| - 1]
    ensures Kept(task.Keys(), old(task.shared.entries), task.shared.entries)
    ensures Over(task.shared.entries, cache.id, if listing.Some? then DONE else ERROR, listing.Some?)
    ensures var due := Planned(listing, manual, old(table.rows));
            Chained(due, ran, verdicts, snapshots) && AskedEach(id, host, due, old(task.asked), task.asked, ran)
    ensures snapshots[0] == old(table.rows) && snapshots[|snapshots| - 1] == table.rows
  {
    task.Await();
    if listing.None? {
      task.Close(cache, ERROR, false);
      return [], [], [table.rows];
    }
    task.Pass(cache, CHECKING);
    ran, verdicts, snapshots := CheckDue(task, table, id, host, listing.value, manual);
    task.Close(cache, DONE, true);
  }

  /**
   A check of a host under the lock it shares with the host's update; `listing` is `None` when the
   agent or the database failed.
   */
  method CheckHostContainers(task: Task, table: ContainerTable, id: nat, host: string, listing: Option<seq<Attempt>>,
                             manual: bool)
    returns (items: Option<seq<Verdict>>, ran: seq<bool>, ghost snapshots: seq<Rows>)
    requires task.Valid() && MayBegin(task.stack, Frame(CheckHost, HostKey(id, host))) && ConsistentListing(listing)
    modifies task, task.shared, table
    ensures task.Valid() && task.stack == old(task.stack)
    ensures Kept(task.Keys(), old(task.shared.entries), task.shared.entries)
    ensures items.Some? == IsAllowedStart(EntryOf(old(task.shared.entries), HostKey(id, host)))
    ensures old(task.asked) <= task.asked && AskedFor(old(task.asked), task.asked, HostKey(id, host), items.Some?)
    ensures items.None? ==> task.shared.entries == old(task.shared.entries) && snapshots == [old(table.rows)]
    ensures items.Some? ==>
              && Over(task.shared.entries, HostKey(id, host), if listing.Some? then DONE else ERROR, listing.Some?)
              && Chained(Planned(listing, manual, old(table.rows)), ran, items.value, snapshots)
              && AskedEach(id, host, Planned(listing, manual, old(table.rows)), old(task.asked), task.asked, ran)
    ensures |snapshots| > 0 && snapshots[0] == old(table.rows) && snapshots[|snapshots| - 1] == table.rows
  {
    var cache := new ProgressCache(task.shared, HostKey(id, host));
    var ok := task.TryStart(cache, CheckHost);
    ghost var asked := task.asked;
    if !ok {
      AskedNow(old(task.asked), task.asked, HostKey(id, host), false);
      return None, [], [table.rows];
    }
    var verdicts;
    verdicts, ran, snapshots := FinishHostCheck(task, cache, table, id, host, listing, manual);
    assert task.stack == old(task.stack);
    AskedNow(old(task.asked), task.asked, HostKey(id, host), true);
    AskedEachWithin(id, host, Planned(listing, manual, old(table.rows)), old(task.asked), asked, task.asked, ran);
    return Some(verdicts), ran, snapshots;
  }

  /** One enabled host; its client may be missing. */
  datatype HostJob = HostJob(id: nat, host: string, table: ContainerTable, hasClient: bool,
                             listing: Option<seq<Attempt>>)

  /** Every host has its own rows. */
  predicate OwnTables(jobs: seq<HostJob>) {
    forall i, j :: 0 <= i < j < |jobs| ==> jobs[i].table != jobs[j].table
  }

  predicate ConsistentJobs(jobs: seq<HostJob>) {
    forall i :: 0 <= i < |jobs| ==> ConsistentListing(jobs[i].listing)
  }

  /** The rows of the host were the first of the snapshots and are the last one. */
  twostate predicate Spans(job: HostJob, snapshots: seq<Rows>)
    reads job.table
  {
    |snapshots| > 0 && snapshots[0] == old(job.table.rows) && snapshots[|snapshots| - 1] == job.table.rows
  }

  /** A host had its turn: it was asked for unless it has no client, and checked where the guard let it through. */
  ghost predicate HadTurn(job: HostJob, manual: bool, before: Asked, after: Asked,
                          report: Option<seq<Verdict>>, ran: seq<bool>, snapshots: seq<Rows>) {
    && |snapshots| > 0
    && (job.hasClient ==> AskedFor(before, after, HostKey(job.id, job.host), report.Some?))
    && (report.None? ==> |snapshots| == 1)
    && (report.Some? ==>
          && job.hasClient
          && Chained(Planned(job.listing, manual, snapshots[0]), ran, report.value, snapshots)
          && AskedEach(job.id, job.host, Planned(job.listing, manual, snapshots[0]), before, after, ran))
  }

  lemma TurnWithin(job: HostJob, manual: bool, a0: Asked, a1: Asked, a2: Asked, a3: Asked,
                   report: Option<seq<Verdict>>, ran: seq<bool>, snapshots: seq<Rows>)
    requires a0 <= a1 && a2 <= a3 && HadTurn(job, manual, a1, a2, report, ran, snapshots)
    ensures HadTurn(job, manual, a0, a3, report, ran, snapshots)
  {
    if job.hasClient {
      AskedLater(a0, a1, a2, HostKey(job.id, job.host), report.Some?);
      AskedLater(a0, a2, a3, HostKey(job.id, job.host), report.Some?);
    }
    if report.Some? {
      var attempts := Planned(job.listing, manual, snapshots[0]);
      forall i | 0 <= i < |attempts|
        ensures AskedFor(a0, a3, ContainerKey(job.id, job.host, attempts[i].name), ran[i])
      {
        AskedLater(a0, a1, a2, ContainerKey(job.id, job.host, attempts[i].name), ran[i]);
        AskedLater(a0, a2, a3, ContainerKey(job.id, job.host, attempts[i].name), ran[i]);
      }
    }
  }

  ghost predicate TurnsHad(jobs: seq<HostJob>, manual: bool, before: Asked, after: Asked,
                           reports: seq<Option<seq<Verdict>>>, ran: seq<seq<bool>>, snapshots: seq<seq<Rows>>) {
    && |reports| == |ran| == |snapshots| <= |jobs|
    && forall i :: 0 <= i < |reports| ==> HadTurn(jobs[i], manual, before, after, reports[i], ran[i], snapshots[i])
  }

  lemma TurnsNext(jobs: seq<HostJob>, manual: bool, a0: Asked, a1: Asked, a2: Asked, reports: seq<Option<seq<Verdict>>>,
                  ran: seq<seq<bool>>, snapshots: seq<seq<Rows>>, report: Option<seq<Verdict>>, one: seq<bool>,
                  seen: seq<Rows>)
    requires TurnsHad(jobs, manual, a0, a1, reports, ran, snapshots) && |ran| < |jobs| && a0 <= a1 <= a2
    requires HadTurn(jobs[|ran|], manual, a1, a2, report, one, seen)
    ensures TurnsHad(jobs, manual, a0, a2, reports + [report], ran + [one], snapshots + [seen])
  {
    forall i | 0 <= i < |ran| ensures HadTurn(jobs[i], manual, a0, a2, reports[i], ran[i], snapshots[i]) {
      TurnWithin(jobs[i], manual, a0, a0, a1, a2, reports[i], ran[i], snapshots[i]);
    }
    TurnWithin(jobs[|ran|], manual, a0, a1, a2, a2, report, one, seen);
  }

  lemma TurnsWithin(jobs: seq<HostJob>, manual: bool, a0: Asked, a1: Asked, a2: Asked,
                    reports: seq<Option<seq<Verdict>>>, ran: seq<seq<bool>>, snapshots: seq<seq<Rows>>)
    requires a0 <= a1 && TurnsHad(jobs, manual, a1, a2, reports, ran, snapshots)
    ensures TurnsHad(jobs, manual, a0, a2, reports, ran, snapshots)
  {
    forall i | 0 <= i < |ran| ensures HadTurn(jobs[i], manual, a0, a2, reports[i], ran[i], snapshots[i]) {
      TurnWithin(jobs[i], manual, a0, a1, a2, a2, reports[i], ran[i], snapshots[i]);
    }
  }

  method CheckTarget(task: Task, job: HostJob, manual: bool)
    returns (report: Option<seq<Verdict>>, ran: seq<bool>, ghost snapshots: seq<Rows>)
    requires task.Valid() && MayBegin(task.stack, Frame(CheckHost, HostKey(job.id, job.host)))
    requires ConsistentListing(job.listing)
    modifies task, task.shared, job.table
    ensures task.Valid() && task.stack == old(task.stack)
    ensures Kept(task.Keys(), old(task.shared.entries), task.shared.entries)
    ensures old(task.asked) <= task.asked && HadTurn(job, manual, old(task.asked), task.asked, report, ran, snapshots)
    ensures Spans(job, snapshots)
  {
    report, ran, snapshots := None, [], [job.table.rows];
    if job.hasClient {
      report, ran, snapshots := CheckHostContainers(task, job.table, job.id, job.host, job.listing, manual);
    }
  }

  /** Every host gets its turn, whatever happened to the ones before. */
  method CheckHosts(task: Task, jobs: seq<HostJob>, manual: bool)
    returns (reports: seq<Option<seq<Verdict>>>, ran: seq<seq<bool>>, ghost snapshots: seq<seq<Rows>>)
    requires task.Valid() && task.stack != [] && task.stack[|task.stack| - 1] == Frame(CheckAll, AllKey)
    requires OwnTables(jobs) && ConsistentJobs(jobs)
    modifies task, task.shared, set i | 0 <= i < |jobs| :: jobs[i].table
    ensures task.Valid() && task.stack == old(task.stack)
    ensures Kept(task.Keys(), old(task.shared.entries), task.shared.entries)
    ensures old(task.asked) <= task.asked && |reports| == |jobs|
    ensures TurnsHad(jobs, manual, old(task.asked), task.asked, reports, ran, snapshots)
    ensures forall i :: 0 <= i < |jobs| ==> Spans(jobs[i], snapshots[i])
  {
    reports, ran, snapshots := [], [], [];
    for i := 0 to |jobs|
      invariant task.Valid() && task.stack == old(task.stack)
      invariant Kept(task.Keys(), old(task.shared.entries), task.shared.entries)
      invariant old(task.asked) <= task.asked && |reports| == i
      invariant TurnsHad(jobs, manual, old(task.asked), task.asked, reports, ran, snapshots)
      invariant forall k :: i <= k < |jobs| ==> jobs[k].table.rows == old(jobs[k].table.rows)
      invariant forall k :: 0 <= k < i ==> Spans(jobs[k], snapshots[k])
    {
      ghost var asked := task.asked;
      var report, one, seen := CheckTarget(task, jobs[i], manual);
      TurnsNext(jobs, manual, old(task.asked), asked, task.asked, reports, ran, snapshots, report, one, seen);
      assert Spans(jobs[i], seen);
      reports, ran, snapshots := reports + [report], ran + [one], snapshots + [seen];
    }
  }

  /** The started check of all hosts, up to the end of its entry. */
  method FinishCheckAll(task: Task, cache: ProgressCache, jobs: seq<HostJob>, manual: bool)
    returns (reports: seq<Option<seq<Verdict>>>, ran: seq<seq<bool>>, ghost snapshots: seq<seq<Rows>>)
    requires task.Valid() && cache.shared == task.shared && cache.id == AllKey
    requires task.stack == [Frame(CheckAll, AllKey)]
    requires OwnTables(jobs) && ConsistentJobs(jobs)
    modifies task, task.shared, set i | 0 <= i < |jobs| :: jobs[i].table
    ensures task.Valid() && task.stack == [] && Over(task.shared.entries, AllKey, DONE, true)
    ensures old(task.asked) <= task.asked && |reports| == |jobs|
    ensures TurnsHad(jobs, manual, old(task.asked), task.asked, reports, ran, snapshots)
    ensures forall i :: 0 <= i < |jobs| ==> Spans(jobs[i], snapshots[i])
  {
    task.Pass(cache, CHECKING);
    reports, ran, snapshots := CheckHosts(task, jobs, manual);
    task.Close(cache, DONE, true);
  }

  /**
   `jobs` is `None` when the database failed. A host whose check fails or is refused never stops the
   others: each host with a client asked for its lock and, where it got it, was checked.
   */
  method CheckAllContainers(task: Task, jobs: Option<seq<HostJob>>, manual: bool)
    returns (ok: bool, reports: seq<Option<seq<Verdict>>>, ran: seq<seq<bool>>, ghost snapshots: seq<seq<Rows>>)
    requires task.Valid() && task.stack == []
    requires jobs.Some? ==> OwnTables(jobs.value) && ConsistentJobs(jobs.value)
    modifies task, task.shared, if jobs.Some? then set i | 0 <= i < |jobs.value| :: jobs.value[i].table else {}
    ensures task.Valid() && task.stack == []
    ensures ok == IsAllowedStart(EntryOf(old(task.shared.entries), AllKey))
    ensures !ok ==> task.shared.entries == old(task.shared.entries) && reports == []
    ensures ok ==> Over(task.shared.entries, AllKey, if jobs.Some? then DONE else ERROR, jobs.Some?)
    ensures !ok && jobs.Some? ==>
              forall i :: 0 <= i < |jobs.value| ==> jobs.value[i].table.rows == old(jobs.value[i].table.rows)
    ensures ok && jobs.Some? ==>
              && |reports| == |jobs.value|
              && TurnsHad(jobs.value, manual, old(task.asked), task.asked, reports, ran, snapshots)
              && forall i :: 0 <= i < |reports| ==> Spans(jobs.value[i], snapshots[i])
  {
    reports, ran, snapshots := [], [], [];
    var cache := new ProgressCache(task.shared, AllKey);
    ok := task.TryStart(cache, CheckAll);
    if !ok {
      return;
    }
    task.Await();
    if jobs.None? {
      task.Close(cache, ERROR, false);
      return;
    }
    ghost var asked := task.asked;
    reports, ran, snapshots := FinishCheckAll(task, cache, jobs.value, manual);
    TurnsWithin(jobs.value, manual, old(task.asked), asked, task.asked, reports, ran, snapshots);
  }
}
