/**
 Updating the containers of a host from end to end: plan, execution, stored rows and progress lock
 (backend/core/update_actions/update_host_containers.py, update_all_containers.py).
 */
module HostUpdate {
  import opened Wrappers
  import opened ContainerInfo
  import opened ContainerConfig
  import opened DependencyGraph
  import opened Docker
  import opened HookScript
  import opened Progress
  import opened LockProtocol
  import opened Tasks
  import Database
  import Errors
  import Executor
  import CheckHistory
  import NetKwargs
  import PlanSchema
  import PlanRun
  import RunOutcome
  import UpdatePlanner

  type UpdatePlan = PlanSchema.UpdatePlan
  type Results = seq<(string, PlanSchema.Verdict)>

  /** A plan built from the list the executor gets is one it can run, and in a safe order if nothing is cyclic. */
  lemma PlanReady(containers: seq<Info>, onlyRunning: bool, plan: UpdatePlan, seeds: set<string>, deps: Dependencies)
    requires PlanRun.NamedContainers(containers)
    requires UpdatePlanner.IsPlan(plan, UpdatePlanner.Names(UpdatePlanner.EligibleOf(containers, onlyRunning)), seeds,
                                  deps)
    ensures PlanRun.PlanFits(plan, containers)
    ensures var eligible := UpdatePlanner.Names(UpdatePlanner.EligibleOf(containers, onlyRunning));
            && PlanRun.DependentsIncluded(plan, deps, eligible) && plan.toUpdate + plan.affected <= eligible
            && (Acyclic(deps) ==> PlanRun.Topological(plan.order, deps, eligible))
  {
    var kept := UpdatePlanner.EligibleOf(containers, onlyRunning);
    var eligible := UpdatePlanner.Names(kept);
    UpdatePlanner.PlanClosed(plan, eligible, seeds, deps);
    if Acyclic(deps) {
      UpdatePlanner.PlanTopological(plan, eligible, seeds, deps);
    }
    UpdatePlanner.EligibleMembers(containers, onlyRunning);
    forall n | n in plan.toUpdate + plan.affected ensures PlanRun.Listed(containers, n) {
      var i :| 0 <= i < |kept| && kept[i].name == n;
      assert kept[i] in kept;
      var k :| 0 <= k < |containers| && containers[k] == kept[i];
      assert containers[k].name == n;
    }
  }

  /** The verdicts of the items in the order of the list. */
  function ResultsOf(containers: seq<Info>, verdicts: map<string, PlanSchema.Verdict>): Results {
    if containers == [] then []
    else
      var last := containers[|containers| - 1].name;
      ResultsOf(containers[..|containers| - 1], verdicts) + if last in verdicts then [(last, verdicts[last])] else []
  }

  lemma {:induction false} ResultsHold(containers: seq<Info>, verdicts: map<string, PlanSchema.Verdict>, n: string,
                                       v: PlanSchema.Verdict)
    ensures (n, v) in ResultsOf(containers, verdicts) <==>
            PlanRun.Listed(containers, n) && n in verdicts && verdicts[n] == v
  {
    if containers != [] {
      var front, last := containers[..|containers| - 1], containers[|containers| - 1];
      ResultsHold(front, verdicts, n, v);
      assert containers[..|front|] == front;
      PlanRun.ListedNext(containers, |front|, n);
      assert containers[..|front| + 1] == containers;
    }
  }

  /** The results stand in the order of the list. */
  lemma {:induction false} ResultsInOrder(containers: seq<Info>, verdicts: map<string, PlanSchema.Verdict>, i: nat,
                                          j: nat)
    requires i < j < |ResultsOf(containers, verdicts)|
    ensures exists k, l :: 0 <= k < l < |containers| && containers[k].name == ResultsOf(containers, verdicts)[i].0
                           && containers[l].name == ResultsOf(containers, verdicts)[j].0
  {
    var front, last := containers[..|containers| - 1], containers[|containers| - 1];
    var results := ResultsOf(front, verdicts);
    if j < |results| {
      ResultsInOrder(front, verdicts, i, j);
      var k, l :| 0 <= k < l < |front| && front[k].name == results[i].0 && front[l].name == results[j].0;
      assert containers[k] == front[k] && containers[l] == front[l];
    } else {
      ResultsHold(front, verdicts, results[i].0, results[i].1);
      assert results[i] in results;
      var k :| 0 <= k < |front| && front[k].name == results[i].0;
      assert containers[k] == front[k] && containers[|front|] == last;
    }
  }

  /** What a plan run leaves behind, for the verdicts it gave. */
  ghost predicate Delivered(start: Moment, log: seq<Moment>, last: Moment, verdicts: map<string, PlanSchema.Verdict>,
                            plan: UpdatePlan)
  {
    && verdicts.Keys == plan.toUpdate + plan.affected
    && (forall i, n :: 0 <= i < |log| && n !in verdicts ==> log[i].At(n) == start.At(n))
    && (forall n :: n !in verdicts ==> last.At(n) == start.At(n))
    && forall n :: n in verdicts ==> DeliveredAt(start, last, verdicts[n], n, plan)
  }

  ghost predicate DeliveredAt(start: Moment, last: Moment, v: PlanSchema.Verdict, n: string, plan: UpdatePlan) {
    && (v != PlanSchema.NoResult ==> n in plan.toUpdate)
    && (n !in plan.toUpdate ==> SameButRunning(start.At(n), last.At(n)))
    && (last.At(n) == None ==> v == PlanSchema.Failed)
    && (v == PlanSchema.Updated ==> last.Runs(n) == start.Runs(n))
    && (v == PlanSchema.RolledBack ==> last.Runs(n))
    && (n !in last.errored ==> last.Runs(n) == start.Runs(n) && v != PlanSchema.Failed)
  }

  /**
   What a run did with one listed container by what it was given: its hooks were run as its owner set them,
   an update stands only after a wait of the given length, and the configuration is the one of the list,
   captured for the given version of the API.
   */
  ghost predicate DoneAsSet(c: Info, setting: Setting, start: Moment, last: Moment, v: PlanSchema.Verdict,
                            inUpdate: bool)
  {
    var calls, h := last.CallsOf(c.name), if c.name in setting.hooks then setting.hooks[c.name] else map[];
    && (start.Runs(c.name) ==> BeginsAsSet(calls, h, inUpdate))
    && (v == PlanSchema.Updated && start.Runs(c.name) ==>
          && EndsWith(calls, Errors.PostUpdate, Commands(h, Errors.PostUpdate))
          && exists wait :: Executor.Waited(wait, setting.timeout) && wait.healthy)
    && (v == PlanSchema.RolledBack ==> EndsWith(calls, Errors.PostRollback, Commands(h, Errors.PostRollback)))
    && (v in {PlanSchema.Updated, PlanSchema.RolledBack} ==>
          && last.At(c.name).Some? && c.spec.Some?
          && exists local, remote :: last.At(c.name).value.config == Configured(c, setting, v, local, remote))
  }

  function Configured(c: Info, setting: Setting, v: PlanSchema.Verdict, local: Option<Image>, remote: Image): Config
    requires c.spec.Some?
  {
    var captured := Captured(c, local, NetKwargs.NetArgsOf(c, setting.oldApi));
    if v == PlanSchema.RolledBack then captured else Merged(captured, remote)
  }

  ghost predicate AllDoneAsSet(containers: seq<Info>, setting: Setting, start: Moment, last: Moment,
                               verdicts: map<string, PlanSchema.Verdict>, plan: UpdatePlan)
  {
    forall i :: 0 <= i < |containers| && containers[i].name in verdicts ==>
      DoneAsSet(containers[i], setting, start, last, verdicts[containers[i].name], containers[i].name in plan.toUpdate)
  }

  lemma DoneAsSetByRun(run: PlanRun.Run, containers: seq<Info>, pulled: map<string, string>,
                       prep: map<string, PlanSchema.ItemState>, setting: Setting, i: nat)
    requires RunOutcome.Ended(run, containers, pulled, prep) && i < |containers| && containers[i].name in run.items
    requires run.exec.hooks == setting.hooks && run.exec.timeout == setting.timeout && run.exec.oldApi == setting.oldApi
    ensures var n := containers[i].name;
            DoneAsSet(containers[i], setting, run.start, run.exec.host.Now(), run.items[n].result,
                      n in run.plan.toUpdate)
  {
    var n := containers[i].name;
    var item := run.items[n];
    RunOutcome.ItemFinished(run, containers, pulled, prep, n);
    var k :| 0 <= k < |containers| && containers[k] == item.origin;
    assert k == i;
    RunOutcome.HooksAsSet(run, containers, pulled, prep, n);
    if item.result in {PlanSchema.Updated, PlanSchema.RolledBack} {
      RunOutcome.ConfigurationKept(run, containers, pulled, prep, n);
      assert run.exec.host.Now().At(n).value.config ==
             Configured(containers[i], setting, item.result, item.localImage, item.remoteImage.value);
    }
    if item.result == PlanSchema.Updated && run.start.Runs(n) {
      RunOutcome.HealthDecides(run, containers, pulled, prep, n);
      assert Executor.Waited(item.judged.value, setting.timeout) && item.judged.value.healthy;
    }
  }

  lemma AllDoneAsSetByRun(run: PlanRun.Run, containers: seq<Info>, pulled: map<string, string>,
                          prep: map<string, PlanSchema.ItemState>, setting: Setting)
    requires RunOutcome.Ended(run, containers, pulled, prep)
    requires run.exec.hooks == setting.hooks && run.exec.timeout == setting.timeout && run.exec.oldApi == setting.oldApi
    ensures AllDoneAsSet(containers, setting, run.start, run.exec.host.Now(), VerdictsOf(run), run.plan)
  {
    forall i | 0 <= i < |containers| && containers[i].name in run.items
      ensures DoneAsSet(containers[i], setting, run.start, run.exec.host.Now(), VerdictsOf(run)[containers[i].name],
                        containers[i].name in run.plan.toUpdate)
    {
      DoneAsSetByRun(run, containers, pulled, prep, setting, i);
    }
  }

  /** No unsafe moment, for an acyclic dependency map. */
  ghost predicate AlwaysSafe(start: Moment, log: seq<Moment>, last: Moment, deps: Dependencies, eligible: set<string>) {
    && (forall i :: 0 <= i < |log| ==> PlanRun.Safe(start, log[i], deps, eligible))
    && PlanRun.Safe(start, last, deps, eligible)
  }

  lemma DeliveredByRun(run: PlanRun.Run, containers: seq<Info>, pulled: map<string, string>,
                       prep: map<string, PlanSchema.ItemState>)
    requires RunOutcome.Ended(run, containers, pulled, prep)
    ensures Delivered(run.start, run.exec.host.log, run.exec.host.Now(), VerdictsOf(run), run.plan)
  {
    var last := run.exec.host.Now();
    forall i, n | 0 <= i < |run.exec.host.log| && n !in run.items
      ensures run.exec.host.log[i].At(n) == run.start.At(n)
    {
      RunOutcome.BystandersKept(run, containers, pulled, prep, n, i);
    }
    forall n | n !in run.items ensures last.At(n) == run.start.At(n) {
      RunOutcome.OutsideKept(run, containers, pulled, prep, n);
    }
    forall n | n in run.items ensures DeliveredAt(run.start, last, run.items[n].result, n, run.plan) {
      RunOutcome.VerdictSound(run, containers, pulled, prep, n);
      RunOutcome.AffectedKept(run, containers, pulled, prep, n);
    }
  }

  method RunPlanOn(docker: Host, containers: seq<Info>, plan: UpdatePlan, setting: Setting, ghost deps: Dependencies,
                   ghost eligible: set<string>)
    returns (results: Results, ghost verdicts: map<string, PlanSchema.Verdict>, ghost start: Moment)
    requires plan.toUpdate != {} && PlanRun.NamedContainers(containers) && PlanRun.PlanFits(plan, containers)
    requires PlanRun.Snapshot(containers, docker.containers)
    modifies docker
    ensures start.containers == old(docker.containers) && results == ResultsOf(containers, verdicts)
    ensures Delivered(start, docker.log, docker.Now(), verdicts, plan)
    ensures AllDoneAsSet(containers, setting, start, docker.Now(), verdicts, plan)
    ensures PlanRun.InOrder(plan, deps, eligible) ==> AlwaysSafe(start, docker.log, docker.Now(), deps, eligible)
  {
    ghost var pulled, prep;
    var run;
    run, pulled, prep := PlanRun.ExecuteUpdatePlan(docker, containers, plan, setting.hooks, setting.timeout,
                                                   setting.oldApi, deps, eligible);
    DeliveredByRun(run, containers, pulled, prep);
    AllDoneAsSetByRun(run, containers, pulled, prep, setting);
    if PlanRun.InOrder(plan, deps, eligible) {
      SafeByRun(run, containers, pulled, prep);
    }
    results := Report(run, containers);
    start, verdicts := run.start, VerdictsOf(run);
  }

  lemma SafeByRun(run: PlanRun.Run, containers: seq<Info>, pulled: map<string, string>,
                  prep: map<string, PlanSchema.ItemState>)
    requires RunOutcome.Ended(run, containers, pulled, prep) && PlanRun.InOrder(run.plan, run.deps, run.eligible)
    ensures AlwaysSafe(run.start, run.exec.host.log, run.exec.host.Now(), run.deps, run.eligible)
  {
    RunOutcome.SafeThroughout(run, containers, pulled, prep);
  }

  method Report(run: PlanRun.Run, containers: seq<Info>) returns (results: Results)
    ensures results == ResultsOf(containers, VerdictsOf(run))
  {
    results := [];
    for i := 0 to |containers|
      invariant results == ResultsOf(containers[..i], VerdictsOf(run))
    {
      assert containers[..i + 1][..i] == containers[..i];
      if containers[i].name in run.items {
        results := results + [(containers[i].name, run.items[containers[i].name].result)];
      }
    }
    assert containers[..|containers|] == containers;
  }

  function VerdictsOf(run: PlanRun.Run): map<string, PlanSchema.Verdict>
    reads run.items.Values`result
  {
    map n | n in run.items :: run.items[n].result
  }

  /** Rows after a run: exactly the updated containers lose their mark. */
  ghost predicate RowsUpdated(before: Database.Rows, after: Database.Rows, verdicts: map<string, PlanSchema.Verdict>,
                              at: int)
  {
    && after.Keys == before.Keys
    && forall n :: n in after ==>
         after[n] == if n in verdicts
           && verdicts[n] == PlanSchema.Updated then CheckHistory.AfterUpdate(before[n], at) else before[n]
  }

  method StoreResults(table: Database.ContainerTable, containers: seq<Info>, results: Results, at: int,
                      ghost verdicts: map<string, PlanSchema.Verdict>)
    requires results == ResultsOf(containers, verdicts) && forall n :: n in verdicts ==> PlanRun.Listed(containers, n)
    modifies table
    ensures RowsUpdated(old(table.rows), table.rows, verdicts, at)
  {
    CheckHistory.UpdateRowsAfterExecution(table, results, at);
    forall n ensures (n, PlanSchema.Updated) in results <==> n in verdicts && verdicts[n] == PlanSchema.Updated {
      ResultsHold(containers, verdicts, n, PlanSchema.Updated);
    }
  }

  /** What the executor is given beside the list and the plan; the last two fields say whether the database answers. */
  datatype Setting = Setting(hooks: map<string, Hooks>, timeout: int, oldApi: bool, at: int, hooksLoad: bool,
                             rowsStore: bool)

  datatype Outcome = Refused | NothingToDo | Raised | Finished(results: Results)

  /** How a started plan run leaves its entry, which stays open when the database raises. */
  predicate PlanOver(o: Outcome, entries: Entries, key: Key) {
    && (o.Finished? ==> Over(entries, key, DONE, true))
    && (o.Raised? ==> key in entries && !Ended(entries[key]))
  }

  /** What a started plan run did to the containers and the rows. */
  ghost predicate PlanEffect(o: Outcome, setting: Setting, containers: seq<Info>, plan: UpdatePlan, deps: Dependencies,
                             eligible: set<string>, before: map<string, Container>, now: Moment, log: seq<Moment>,
                             rows: Database.Rows, rows': Database.Rows, verdicts: map<string, PlanSchema.Verdict>,
                             start: Moment)
  {
    && (if setting.hooksLoad && setting.rowsStore then o.Finished? else o.Raised?)
    && (if setting.hooksLoad
        then start.containers == before && Delivered(start, log, now, verdicts, plan)
             && AllDoneAsSet(containers, setting, start, now, verdicts, plan)
             && (PlanRun.InOrder(plan, deps, eligible) ==> AlwaysSafe(start, log, now, deps, eligible))
        else now.containers == before)
    && if o.Finished?
       then o.results == ResultsOf(containers, verdicts) && RowsUpdated(rows, rows', verdicts, setting.at)
       else rows' == rows
  }

  /** Runs the plan and stores its results if the database takes them. */
  method RunAndStore(table: Database.ContainerTable, docker: Host, containers: seq<Info>, plan: UpdatePlan,
                     setting: Setting, ghost deps: Dependencies, ghost eligible: set<string>)
    returns (outcome: Outcome, ghost verdicts: map<string, PlanSchema.Verdict>, ghost start: Moment)
    requires plan.toUpdate != {} && PlanRun.NamedContainers(containers) && PlanRun.PlanFits(plan, containers)
    requires PlanRun.Snapshot(containers, docker.containers) && setting.hooksLoad
    modifies table, docker
    ensures PlanEffect(outcome, setting, containers, plan, deps, eligible, old(docker.containers), docker.Now(),
                       docker.log, old(table.rows), table.rows, verdicts, start)
  {
    var results;
    results, verdicts, start := RunPlanOn(docker, containers, plan, setting, deps, eligible);
    outcome := Raised;
    if setting.rowsStore {
      StoreResults(table, containers, results, setting.at, verdicts);
      outcome := Finished(results);
    }
  }

  /** A finished run ends its entry; an exception leaves it open. */
  method EndPlan(task: Task, cache: ProgressCache, outcome: Outcome)
    requires task.Valid() && cache.shared == task.shared && (outcome.Finished? || outcome.Raised?)
    requires task.stack != [] && task.stack[|task.stack| - 1] == Frame(RunPlan, cache.id)
    modifies task`stack, task.shared
    ensures task.Valid() && task.stack == old(task.stack)[..|old(task.stack)| - 1]
    ensures Kept(task.Keys(), old(task.shared.entries), task.shared.entries)
    ensures PlanOver(outcome, task.shared.entries, cache.id)
  {
    assert cache.id in task.Keys();
    if outcome.Finished? {
      task.Close(cache, DONE, true);
    } else {
      task.Leave();
    }
  }

  method RunUnderLock(task: Task, cache: ProgressCache, table: Database.ContainerTable, docker: Host,
                      containers: seq<Info>, plan: UpdatePlan, setting: Setting, ghost deps: Dependencies,
                      ghost eligible: set<string>)
    returns (outcome: Outcome, ghost verdicts: map<string, PlanSchema.Verdict>, ghost start: Moment)
    requires task.Valid() && cache.shared == task.shared
    requires task.stack != [] && task.stack[|task.stack| - 1] == Frame(RunPlan, cache.id)
    requires plan.toUpdate != {} && PlanRun.NamedContainers(containers) && PlanRun.PlanFits(plan, containers)
    requires PlanRun.Snapshot(containers, docker.containers) && setting.hooksLoad
    modifies task, task.shared, table, docker
    ensures task.Valid() && task.stack == old(task.stack)[..|old(task.stack)| - 1]
    ensures Kept(task.Keys(), old(task.shared.entries), task.shared.entries) && task.asked == old(task.asked)
    ensures PlanOver(outcome, task.shared.entries, cache.id)
    ensures PlanEffect(outcome, setting, containers, plan, deps, eligible, old(docker.containers), docker.Now(),
                       docker.log, old(table.rows), table.rows, verdicts, start)
  {
    task.Pass(cache, UPDATING);
    task.Await();
    ghost var held, kept := docker.containers, table.rows;
    outcome, verdicts, start := RunAndStore(table, docker, containers, plan, setting, deps, eligible);
    ghost var now, log, rows := docker.Now(), docker.log, table.rows;
    assert PlanEffect(outcome, setting, containers, plan, deps, eligible, held, now, log, kept, rows, verdicts, start);
    EndPlan(task, cache, outcome);
    assert docker.Now() == now && docker.log == log && table.rows == rows;
  }

  method FinishPlan(task: Task, cache: ProgressCache, table: Database.ContainerTable, docker: Host,
                    containers: seq<Info>, plan: UpdatePlan, setting: Setting, ghost deps: Dependencies,
                    ghost eligible: set<string>)
    returns (outcome: Outcome, ghost verdicts: map<string, PlanSchema.Verdict>, ghost start: Moment)
    requires task.Valid() && cache.shared == task.shared
    requires task.stack != [] && task.stack[|task.stack| - 1] == Frame(RunPlan, cache.id)
    requires plan.toUpdate != {} && PlanRun.NamedContainers(containers) && PlanRun.PlanFits(plan, containers)
    requires PlanRun.Snapshot(containers, docker.containers)
    modifies task, task.shared, table, docker
    ensures task.Valid() && task.stack == old(task.stack)[..|old(task.stack)| - 1]
    ensures Kept(task.Keys(), old(task.shared.entries), task.shared.entries) && task.asked == old(task.asked)
    ensures PlanOver(outcome, task.shared.entries, cache.id)
    ensures PlanEffect(outcome, setting, containers, plan, deps, eligible, old(docker.containers), docker.Now(),
                       docker.log, old(table.rows), table.rows, verdicts, start)
  {
    task.Await();
    if !setting.hooksLoad {
      task.Leave();
      return Raised, map[], docker.Now();
    }
    outcome, verdicts, start := RunUnderLock(task, cache, table, docker, containers, plan, setting, deps, eligible);
  }

  /** The plan run under the lock of its own key. */
  method ExecuteLocked(task: Task, table: Database.ContainerTable, id: nat, name: string, docker: Host,
                       containers: seq<Info>, plan: UpdatePlan, setting: Setting, ghost deps: Dependencies,
                       ghost eligible: set<string>)
    returns (outcome: Outcome, ghost verdicts: map<string, PlanSchema.Verdict>, ghost start: Moment)
    requires task.Valid() && MayBegin(task.stack, Frame(RunPlan, PlanKey(id, name, plan.toUpdate)))
    requires PlanRun.NamedContainers(containers) && PlanRun.PlanFits(plan, containers)
    requires PlanRun.Snapshot(containers, docker.containers)
    modifies task, task.shared, table, docker
    ensures task.Valid() && task.stack == old(task.stack)
    ensures Kept(task.Keys(), old(task.shared.entries), task.shared.entries)
    ensures task.asked == old(task.asked) + [(PlanKey(id, name, plan.toUpdate), !outcome.Refused?)]
    ensures outcome.Refused? <==> !IsAllowedStart(EntryOf(old(task.shared.entries), PlanKey(id, name, plan.toUpdate)))
    ensures outcome.NothingToDo? <==> !outcome.Refused? && plan.toUpdate == {}
    ensures if outcome.Refused? || outcome.NothingToDo?
            then task.shared.entries == old(task.shared.entries) && table.rows == old(table.rows)
                 && docker.containers == old(docker.containers)
            else PlanOver(outcome, task.shared.entries, PlanKey(id, name, plan.toUpdate))
                 && PlanEffect(outcome, setting, containers, plan, deps, eligible, old(docker.containers), docker.Now(),
                               docker.log, old(table.rows), table.rows, verdicts, start)
  {
    verdicts, start := map[], docker.Now();
    var cache := new ProgressCache(task.shared, PlanKey(id, name, plan.toUpdate));
    var ok := task.Ask(cache);
    if !ok {
      return Refused, verdicts, start;
    }
    if plan.toUpdate == {} {
      return NothingToDo, verdicts, start;
    }
    task.Start(cache, RunPlan);
    outcome, verdicts, start := FinishPlan(task, cache, table, docker, containers, plan, setting, deps, eligible);
    assert task.stack == old(task.stack);
  }

  // ---------- update_host_containers ----------

  /** Everything an update of one host meets; `listing` and `rowsLoad` tell whether agent and database answer. */
  datatype Job = Job(
    listing: Option<seq<Info>>,
    manual: bool,
    rowsLoad: bool,
    onlyRunning: bool,
    globalDelay: int,
    now: int,
    prune: bool,
    setting: Setting)
  {
    function ManualFor(): seq<Info>
      requires listing.Some?
    {
      if manual then listing.value else []
    }

    function Eligible(): seq<Info>
      requires listing.Some?
    {
      UpdatePlanner.EligibleOf(listing.value, onlyRunning)
    }

    function Dependencies(): Dependencies
      requires listing.Some?
    {
      UpdatePlanner.DependencyMap(Eligible(), Eligible())
    }

    function Seeds(rows: Database.Rows): set<string>
      requires listing.Some?
    {
      UpdatePlanner.ToUpdate(Eligible(), UpdatePlanner.EligibleOf(ManualFor(), onlyRunning), rows, globalDelay, now)
    }

    /** The list is what the host holds, and no cycle of dependencies lies inside what gets updated. */
    ghost predicate Ready(held: map<string, Container>, rows: Database.Rows) {
      listing.Some? ==>
        && PlanRun.NamedContainers(listing.value) && PlanRun.Snapshot(listing.value, held)
        && AcyclicInside(Dependencies(), Seeds(rows))
    }
  }

  /** The items of the host's result; a run that raised has none. */
  function ResultOf(o: Outcome): Option<Results> {
    if o.Finished? then Some(o.results) else if o.Raised? then None else Some([])
  }

  /** What an update of a host did, for the plan it built. */
  ghost predicate HostEffect(job: Job, result: Option<Results>, o: Outcome, plan: UpdatePlan,
                             before: map<string, Container>, now: Moment, log: seq<Moment>, rows: Database.Rows,
                             rows': Database.Rows, verdicts: map<string, PlanSchema.Verdict>, start: Moment)
  {
    if job.listing.None? || !job.rowsLoad then
      result.None? && now.containers == before && rows' == rows
    else
      && UpdatePlanner.IsPlan(plan, UpdatePlanner.Names(job.Eligible()), job.Seeds(rows), job.Dependencies())
      && (o.NothingToDo? ==> plan.toUpdate == {})
      && result == ResultOf(o)
      && (if o.Refused? || o.NothingToDo? then now.containers == before && rows' == rows
          else PlanEffect(o, job.setting, job.listing.value, plan, job.Dependencies(),
                          UpdatePlanner.Names(job.Eligible()), before, now, log, rows, rows', verdicts, start))
  }

  /**
   Builds the plan from the list and the rows as they are and runs it; unused images are pruned only
   after a run that did not raise.
   */
  method PlanAndExecute(task: Task, cache: ProgressCache, table: Database.ContainerTable, id: nat, name: string,
                        docker: Host, job: Job)
    returns (outcome: Outcome, ghost plan: UpdatePlan, ghost verdicts: map<string, PlanSchema.Verdict>,
             ghost start: Moment)
    requires task.Valid() && cache.shared == task.shared && cache.id == HostKey(id, name)
    requires task.stack != [] && task.stack[|task.stack| - 1] == Frame(UpdateHost, HostKey(id, name))
    requires job.Ready(docker.containers, table.rows) && job.listing.Some? && job.rowsLoad
    modifies task, task.shared, table, docker
    ensures task.Valid() && task.stack == old(task.stack)
    ensures Kept(task.Keys() - {cache.id}, old(task.shared.entries), task.shared.entries)
    ensures old(task.asked) <= task.asked
    ensures HostEffect(job, ResultOf(outcome), outcome, plan, old(docker.containers), docker.Now(), docker.log,
                       old(table.rows), table.rows, verdicts, start)
  {
    var built := UpdatePlanner.BuildUpdatePlan(job.listing.value, job.ManualFor(), table.rows, job.onlyRunning,
                                               job.globalDelay, job.now);
    plan := built;
    PlanReady(job.listing.value, job.onlyRunning, built, job.Seeds(table.rows), job.Dependencies());
    task.Pass(cache, UPDATING);
    outcome, verdicts, start := ExecuteLocked(task, table, id, name, docker, job.listing.value, built, job.setting,
                                              job.Dependencies(), UpdatePlanner.Names(job.Eligible()));
    if job.prune && !outcome.Raised? {
      task.Pass(cache, PRUNING);
      task.Await();
    }
  }

  method FinishHostUpdate(task: Task, cache: ProgressCache, table: Database.ContainerTable, id: nat, name: string,
                          docker: Host, job: Job)
    returns (result: Option<Results>, outcome: Outcome, ghost plan: UpdatePlan,
             ghost verdicts: map<string, PlanSchema.Verdict>, ghost start: Moment)
    requires task.Valid() && cache.shared == task.shared && cache.id == HostKey(id, name)
    requires task.stack != [] && task.stack[|task.stack| - 1] == Frame(UpdateHost, HostKey(id, name))
    requires job.Ready(docker.containers, table.rows)
    modifies task, task.shared, table, docker
    ensures task.Valid() && task.stack == old(task.stack)[..|old(task.stack)| - 1]
    ensures Kept(task.Keys(), old(task.shared.entries), task.shared.entries) && old(task.asked) <= task.asked
    ensures Over(task.shared.entries, cache.id, if result.Some? then DONE else ERROR, result.Some?)
    ensures HostEffect(job, result, outcome, plan, old(docker.containers), docker.Now(), docker.log,
                       old(table.rows), table.rows, verdicts, start)
  {
    task.Await();
    if job.listing.None? || !job.rowsLoad {
      task.Close(cache, ERROR, false);
      return None, NothingToDo, PlanSchema.UpdatePlan({}, {}, []), map[], docker.Now();
    }
    ghost var held, kept := docker.containers, table.rows;
    outcome, plan, verdicts, start := PlanAndExecute(task, cache, table, id, name, docker, job);
    result := ResultOf(outcome);
    ghost var now, log, rows := docker.Now(), docker.log, table.rows;
    assert HostEffect(job, result, outcome, plan, held, now, log, kept, rows, verdicts, start);
    task.Close(cache, if result.Some? then DONE else ERROR, result.Some?);
    assert docker.Now() == now && docker.log == log && table.rows == rows;
  }

  /** An update of a host under the lock it shares with the host's check. */
  method UpdateHostContainers(task: Task, table: Database.ContainerTable, id: nat, name: string, docker: Host, job: Job)
    returns (ran: bool, result: Option<Results>, outcome: Outcome, ghost plan: UpdatePlan,
             ghost verdicts: map<string, PlanSchema.Verdict>, ghost start: Moment)
    requires task.Valid() && MayBegin(task.stack, Frame(UpdateHost, HostKey(id, name)))
    requires job.Ready(docker.containers, table.rows)
    modifies task, task.shared, table, docker
    ensures task.Valid() && task.stack == old(task.stack)
    ensures Kept(task.Keys(), old(task.shared.entries), task.shared.entries)
    ensures ran <==> IsAllowedStart(EntryOf(old(task.shared.entries), HostKey(id, name)))
    ensures AskedFor(old(task.asked), task.asked, HostKey(id, name), ran)
    ensures if ran
            then Over(task.shared.entries, HostKey(id, name), if result.Some? then DONE else ERROR, result.Some?)
                 && HostEffect(job, result, outcome, plan, old(docker.containers), docker.Now(), docker.log,
                               old(table.rows), table.rows, verdicts, start)
            else result.None? && task.shared.entries == old(task.shared.entries) && table.rows == old(table.rows)
                 && docker.containers == old(docker.containers)
  {
    verdicts, start, outcome, plan := map[], docker.Now(), NothingToDo, PlanSchema.UpdatePlan({}, {}, []);
    var cache := new ProgressCache(task.shared, HostKey(id, name));
    ran := task.TryStart(cache, UpdateHost);
    if !ran {
      AskedNow(old(task.asked), task.asked, HostKey(id, name), false);
      return false, None, outcome, plan, verdicts, start;
    }
    result, outcome, plan, verdicts, start := FinishHostUpdate(task, cache, table, id, name, docker, job);
    assert task.stack == old(task.stack);
    AskedNow(old(task.asked), task.asked, HostKey(id, name), true);
  }

  // ---------- update_all_containers ----------

  /** One enabled host; its client may be missing. */
  datatype Target = Target(id: nat, name: string, table: Database.ContainerTable, docker: Host, hasClient: bool,
                           job: Job)

  predicate Separate(targets: seq<Target>) {
    forall i, j :: 0 <= i < j < |targets| ==>
      targets[i].table != targets[j].table && targets[i].docker != targets[j].docker
  }

  /** The host is as it was: nothing was done to its containers and rows. */
  twostate predicate LeftAlone(t: Target)
    reads t.table, t.docker
  {
    t.table.rows == old(t.table.rows) && t.docker.containers == old(t.docker.containers)
  }

  /** What an update of a host saw and did, as values. */
  datatype Effect = Effect(report: Option<Results>, outcome: Outcome, plan: UpdatePlan,
                           verdicts: map<string, PlanSchema.Verdict>, start: Moment,
                           before: map<string, Container>, now: Moment, log: seq<Moment>,
                           rows: Database.Rows, rows': Database.Rows)

  ghost predicate Effected(job: Job, e: Effect) {
    HostEffect(job, e.report, e.outcome, e.plan, e.before, e.now, e.log, e.rows, e.rows', e.verdicts, e.start)
  }

  /** The values are those of the host between two moments. */
  twostate predicate Spans(t: Target, e: Effect)
    reads t.table, t.docker
  {
    && e.before == old(t.docker.containers) && e.now == t.docker.Now() && e.log == t.docker.log
    && e.rows == old(t.table.rows) && e.rows' == t.table.rows
  }

  /** A host had its turn: it was asked for unless it has no client, and updated where the guard let it through. */
  ghost predicate HadTurn(t: Target, asked: Asked, asked': Asked, ran: bool, report: Option<Results>, e: Effect) {
    && (t.hasClient ==> AskedFor(asked, asked', HostKey(t.id, t.name), ran))
    && (ran ==> t.hasClient && report == e.report && Effected(t.job, e))
    && (!ran ==> report.None? && e.now.containers == e.before && e.rows' == e.rows)
  }

  lemma TurnWithin(t: Target, a0: Asked, a1: Asked, a2: Asked, a3: Asked,
                   ran: bool, report: Option<Results>, e: Effect)
    requires a0 <= a1 && a2 <= a3 && HadTurn(t, a1, a2, ran, report, e)
    ensures HadTurn(t, a0, a3, ran, report, e)
  {
    if t.hasClient {
      AskedLater(a0, a1, a2, HostKey(t.id, t.name), ran);
      AskedLater(a0, a2, a3, HostKey(t.id, t.name), ran);
    }
  }

  ghost predicate TurnsHad(targets: seq<Target>, asked: Asked, asked': Asked,
                           ran: seq<bool>, reports: seq<Option<Results>>, effects: seq<Effect>) {
    && |ran| == |reports| == |effects| <= |targets|
    && forall i :: 0 <= i < |ran| ==> HadTurn(targets[i], asked, asked', ran[i], reports[i], effects[i])
  }

  lemma TurnsNext(targets: seq<Target>, a0: Asked, a1: Asked, a2: Asked, ran: seq<bool>, reports: seq<Option<Results>>,
                  effects: seq<Effect>, one: bool, report: Option<Results>, e: Effect)
    requires TurnsHad(targets, a0, a1, ran, reports, effects) && |ran| < |targets| && a0 <= a1 <= a2
    requires HadTurn(targets[|ran|], a1, a2, one, report, e)
    ensures TurnsHad(targets, a0, a2, ran + [one], reports + [report], effects + [e])
  {
    forall i | 0 <= i < |ran| ensures HadTurn(targets[i], a0, a2, ran[i], reports[i], effects[i]) {
      TurnWithin(targets[i], a0, a0, a1, a2, ran[i], reports[i], effects[i]);
    }
    TurnWithin(targets[|ran|], a0, a1, a2, a2, one, report, e);
  }

  lemma TurnsWithin(targets: seq<Target>, a0: Asked, a1: Asked, a2: Asked,
                    ran: seq<bool>, reports: seq<Option<Results>>, effects: seq<Effect>)
    requires a0 <= a1 && TurnsHad(targets, a1, a2, ran, reports, effects)
    ensures TurnsHad(targets, a0, a2, ran, reports, effects)
  {
    forall i | 0 <= i < |ran| ensures HadTurn(targets[i], a0, a2, ran[i], reports[i], effects[i]) {
      TurnWithin(targets[i], a0, a1, a2, a2, ran[i], reports[i], effects[i]);
    }
  }

  /** Every host is ready for its own update. */
  ghost predicate AllReady(targets: seq<Target>)
    reads set i | 0 <= i < |targets| :: targets[i].table, set i | 0 <= i < |targets| :: targets[i].docker
  {
    forall i :: 0 <= i < |targets| ==> targets[i].job.Ready(targets[i].docker.containers, targets[i].table.rows)
  }

  method UpdateTarget(task: Task, t: Target) returns (ran: bool, report: Option<Results>, ghost effect: Effect)
    requires task.Valid() && MayBegin(task.stack, Frame(UpdateHost, HostKey(t.id, t.name)))
    requires t.job.Ready(t.docker.containers, t.table.rows)
    modifies task, task.shared, t.table, t.docker
    ensures task.Valid() && task.stack == old(task.stack)
    ensures Kept(task.Keys(), old(task.shared.entries), task.shared.entries)
    ensures old(task.asked) <= task.asked && HadTurn(t, old(task.asked), task.asked, ran, report, effect)
    ensures Spans(t, effect)
  {
    var outcome;
    ghost var plan, verdicts, start;
    ran, report, outcome := false, None, NothingToDo;
    plan, verdicts, start := PlanSchema.UpdatePlan({}, {}, []), map[], t.docker.Now();
    if t.hasClient {
      ran, report, outcome, plan, verdicts, start := UpdateHostContainers(task, t.table, t.id, t.name, t.docker, t.job);
    }
    effect := Effect(report, outcome, plan, verdicts, start, old(t.docker.containers), t.docker.Now(), t.docker.log,
                     old(t.table.rows), t.table.rows);
  }

  /** Every host gets its turn, whatever happened to the ones before. */
  method UpdateEach(task: Task, targets: seq<Target>)
    returns (ran: seq<bool>, reports: seq<Option<Results>>, ghost effects: seq<Effect>)
    requires task.Valid() && task.stack != [] && task.stack[|task.stack| - 1] == Frame(UpdateAll, AllKey)
    requires Separate(targets) && AllReady(targets)
    modifies task, task.shared, set i | 0 <= i < |targets| :: targets[i].table
    modifies set i | 0 <= i < |targets| :: targets[i].docker
    ensures task.Valid() && task.stack == old(task.stack)
    ensures Kept(task.Keys(), old(task.shared.entries), task.shared.entries)
    ensures old(task.asked) <= task.asked && |ran| == |targets|
    ensures TurnsHad(targets, old(task.asked), task.asked, ran, reports, effects)
    ensures forall i :: 0 <= i < |targets| ==> Spans(targets[i], effects[i])
  {
    ran, reports, effects := [], [], [];
    for i := 0 to |targets|
      invariant task.Valid() && task.stack == old(task.stack)
      invariant Kept(task.Keys(), old(task.shared.entries), task.shared.entries)
      invariant old(task.asked) <= task.asked && |ran| == i
      invariant TurnsHad(targets, old(task.asked), task.asked, ran, reports, effects)
      invariant forall k :: i <= k < |targets| ==> LeftAlone(targets[k])
      invariant forall k :: 0 <= k < i ==> Spans(targets[k], effects[k])
    {
      ghost var asked := task.asked;
      assert LeftAlone(targets[i]);
      var one, report, effect := UpdateTarget(task, targets[i]);
      TurnsNext(targets, old(task.asked), asked, task.asked, ran, reports, effects, one, report, effect);
      assert Spans(targets[i], effect);
      ran, reports, effects := ran + [one], reports + [report], effects + [effect];
    }
  }

  /** The started update of all hosts, up to the end of its entry. */
  method FinishUpdateAll(task: Task, cache: ProgressCache, targets: seq<Target>)
    returns (hosts: seq<bool>, reports: seq<Option<Results>>, ghost effects: seq<Effect>)
    requires task.Valid() && cache.shared == task.shared && cache.id == AllKey
    requires task.stack == [Frame(UpdateAll, AllKey)]
    requires Separate(targets) && AllReady(targets)
    modifies task, task.shared, set i | 0 <= i < |targets| :: targets[i].table
    modifies set i | 0 <= i < |targets| :: targets[i].docker
    ensures task.Valid() && task.stack == [] && Over(task.shared.entries, AllKey, DONE, true)
    ensures old(task.asked) <= task.asked && |hosts| == |targets|
    ensures TurnsHad(targets, old(task.asked), task.asked, hosts, reports, effects)
    ensures forall i :: 0 <= i < |targets| ==> Spans(targets[i], effects[i])
  {
    task.Pass(cache, UPDATING);
    hosts, reports, effects := UpdateEach(task, targets);
    task.Close(cache, DONE, true);
  }

  /**
   All enabled hosts, one after another; `targets` is `None` when the database failed. A host that
   fails, is busy or has no client never stops the others: each host with a client asked for its lock
   and, where it got it, was updated, and every other host is left alone.
   */
  method UpdateAllContainers(task: Task, targets: Option<seq<Target>>)
    returns (ran: bool, hosts: seq<bool>, reports: seq<Option<Results>>, ghost effects: seq<Effect>)
    requires task.Valid() && task.stack == []
    requires targets.Some? ==> Separate(targets.value) && AllReady(targets.value)
    modifies task, task.shared
    modifies if targets.Some? then set i | 0 <= i < |targets.value| :: targets.value[i].table else {}
    modifies if targets.Some? then set i | 0 <= i < |targets.value| :: targets.value[i].docker else {}
    ensures task.Valid() && task.stack == []
    ensures ran == IsAllowedStart(EntryOf(old(task.shared.entries), AllKey))
    ensures !ran ==> task.shared.entries == old(task.shared.entries) && reports == []
    ensures ran ==> Over(task.shared.entries, AllKey, if targets.Some? then DONE else ERROR, targets.Some?)
    ensures !ran && targets.Some? ==> forall i :: 0 <= i < |targets.value| ==> LeftAlone(targets.value[i])
    ensures ran && targets.Some? ==>
              && |hosts| == |targets.value|
              && TurnsHad(targets.value, old(task.asked), task.asked, hosts, reports, effects)
              && forall i :: 0 <= i < |hosts| ==> Spans(targets.value[i], effects[i])
  {
    hosts, reports, effects := [], [], [];
    var cache := new ProgressCache(task.shared, AllKey);
    ran := task.TryStart(cache, UpdateAll);
    if !ran {
      return;
    }
    task.Await();
    if targets.None? {
      task.Close(cache, ERROR, false);
      return;
    }
    ghost var asked := task.asked;
    assert forall i :: 0 <= i < |targets.value| ==> LeftAlone(targets.value[i]);
    hosts, reports, effects := FinishUpdateAll(task, cache, targets.value);
    TurnsWithin(targets.value, old(task.asked), asked, task.asked, hosts, reports, effects);
  }

  /**
   With acyclic dependencies an update of a host is safe at every moment, whatever fails: no eligible
   container runs without a dependency that ran at the start, unless one of the two has a recorded error.
   */
  lemma HostUpdateSafe(job: Job, result: Option<Results>, o: Outcome, plan: UpdatePlan, before: map<string, Container>,
                       now: Moment, log: seq<Moment>, rows: Database.Rows, rows': Database.Rows,
                       verdicts: map<string, PlanSchema.Verdict>, start: Moment)
    requires HostEffect(job, result, o, plan, before, now, log, rows, rows', verdicts, start)
    requires job.listing.Some? && job.rowsLoad && job.setting.hooksLoad && !o.Refused? && !o.NothingToDo?
    requires PlanRun.NamedContainers(job.listing.value) && Acyclic(job.Dependencies())
    ensures AlwaysSafe(start, log, now, job.Dependencies(), UpdatePlanner.Names(job.Eligible()))
  {
    PlanReady(job.listing.value, job.onlyRunning, plan, job.Seeds(rows), job.Dependencies());
  }

  /**
   A row loses its update mark in a run exactly when its container was updated, and such a container
   exists at the end, runs if and only if it ran before, and was marked as available and selected.
   */
  lemma MarkClearedExactly(job: Job, result: Option<Results>, o: Outcome, plan: UpdatePlan,
                           before: map<string, Container>, now: Moment, log: seq<Moment>, rows: Database.Rows,
                           rows': Database.Rows, verdicts: map<string, PlanSchema.Verdict>, start: Moment, n: string)
    requires HostEffect(job, result, o, plan, before, now, log, rows, rows', verdicts, start)
    requires job.listing.Some? && job.rowsLoad && n in rows && rows[n].updateAvailable
    ensures n in rows'
    ensures !rows'[n].updateAvailable <==> o.Finished? && n in verdicts && verdicts[n] == PlanSchema.Updated
    ensures !rows'[n].updateAvailable ==> n in job.Seeds(rows) && now.At(n).Some? && now.Runs(n) == start.Runs(n)
  {
    if o.Finished? && n in verdicts && verdicts[n] == PlanSchema.Updated {
      assert DeliveredAt(start, now, verdicts[n], n, plan);
    }
  }
}
