/**
 A whole run of an update plan: preparation, stop loop in reverse order, start and update loop in
 order, and what holds at every moment of it, for every pattern of agent, hook and health failures.
 */
module PlanRun {
  import opened Wrappers
  import opened Errors
  import opened Strings
  import opened ContainerInfo
  import opened CallProtocol
  import opened HookScript
  import opened DependencyGraph
  import opened Docker
  import opened PlanSchema
  import opened Executor

  /** Distinct names, each usable as a docker name, with attachments as docker reports them. */
  predicate NamedContainers(containers: seq<Info>) {
    && (forall i, j :: 0 <= i < j < |containers| ==> containers[i].name != containers[j].name)
    && forall i :: 0 <= i < |containers| ==> !Blank(containers[i].name) && DockerNetworks(containers[i].networks)
  }

  predicate Listed(containers: seq<Info>, name: string) {
    exists i :: 0 <= i < |containers| && containers[i].name == name
  }

  /** The shape every plan built by `UpdatePlanner` has. */
  ghost predicate PlanFits(plan: UpdatePlan, containers: seq<Info>) {
    && plan.toUpdate !! plan.affected
    && Distinct(plan.order)
    && forall n :: n in plan.toUpdate + plan.affected ==> n in plan.order && Listed(containers, n)
  }

  /** Dependencies among the eligible containers come earlier in the order. */
  ghost predicate Topological(order: seq<string>, deps: Dependencies, eligible: set<string>) {
    forall i, d :: 0 <= i < |order| && d in eligible && DependsOn(deps, order[i], d) ==> d in order[..i]
  }

  /** Every eligible container that depends on a member of the plan is a member itself. */
  ghost predicate DependentsIncluded(plan: UpdatePlan, deps: Dependencies, eligible: set<string>) {
    forall n, d :: n in eligible && d in plan.toUpdate + plan.affected && DependsOn(deps, n, d) ==>
      n in plan.toUpdate + plan.affected
  }

  /** The plan is one that can be run safely. */
  ghost predicate InOrder(plan: UpdatePlan, deps: Dependencies, eligible: set<string>) {
    && Topological(plan.order, deps, eligible) && DependentsIncluded(plan, deps, eligible)
    && plan.toUpdate + plan.affected <= eligible
  }

  /**
   No eligible container runs while an eligible dependency that ran at the start does not, unless
   one of the two has a recorded error.
   */
  ghost predicate Safe(start: Moment, m: Moment, deps: Dependencies, eligible: set<string>) {
    forall n, d ::
      n in eligible && d in eligible && DependsOn(deps, n, d) && start.Runs(d) && m.Runs(n) && !m.Runs(d) ==>
      n in m.errored || d in m.errored
  }

  /** Everything that depends on `x` is out of the way, and everything `x` depends on is there. */
  ghost predicate Clear(start: Moment, b: Moment, x: string, deps: Dependencies, eligible: set<string>) {
    && !DependsOn(deps, x, x)
    && (forall n :: n in eligible && DependsOn(deps, n, x) ==> !b.Runs(n) || n in b.errored)
    && forall d :: d in eligible && DependsOn(deps, x, d) && start.Runs(d) ==> b.Runs(d) || d in b.errored
  }

  /** While only `x` is worked on and the way is clear, nothing unsafe can happen. */
  lemma StepSafe(start: Moment, b: Moment, m: Moment, x: string, deps: Dependencies, eligible: set<string>)
    requires Safe(start, b, deps, eligible) && Clear(start, b, x, deps, eligible) && OnlyTouches(x, b, m)
    ensures Safe(start, m, deps, eligible)
  {
    forall n, d | n in eligible && d in eligible && DependsOn(deps, n, d) && start.Runs(d) && m.Runs(n) && !m.Runs(d)
      ensures n in m.errored || d in m.errored
    {
      assert n != x ==> SameAt(n, b, m) && m.Runs(n) == b.Runs(n);
      assert d != x ==> SameAt(d, b, m) && m.Runs(d) == b.Runs(d);
    }
  }

  /** What holds of one moment of the run, seen from a later one. */
  ghost predicate GoodMoment(start: Moment, m: Moment, now: Moment, members: set<string>) {
    && (forall n :: Explained(start, m, n) && m.CallsOf(n) <= now.CallsOf(n))
    && (forall n :: n !in members ==> SameAt(n, start, m))
    && Tracked(m.calls, m.stages)
  }

  lemma StepGood(start: Moment, s: Scope, now: Moment, m: Moment, members: set<string>)
    requires s.start == start && s.name in members
    requires GoodMoment(start, s.base, s.base, members)
    requires InScope(s, now)
    requires GoodMoment(start, m, s.base, members) || (InScope(s, m) && m.CallsOf(s.name) <= now.CallsOf(s.name))
    ensures GoodMoment(start, m, now, members)
  {
    forall n ensures Explained(start, m, n) && m.CallsOf(n) <= now.CallsOf(n) {
      if n != s.name {
        assert SameAt(n, s.base, now);
        if !GoodMoment(start, m, s.base, members) {
          assert SameAt(n, s.base, m);
          assert Explained(start, s.base, n);
        }
      } else {
        assert s.base.CallsOf(n) <= now.CallsOf(n);
      }
    }
    forall n | n !in members ensures SameAt(n, start, m) {
      if !GoodMoment(start, m, s.base, members) {
        assert SameAt(n, start, s.base) && SameAt(n, s.base, m);
      }
    }
  }

  /** The item was made from the container of that name as it was at the start. */
  ghost predicate ItemFor(start: Moment, name: string, item: UpdatePlanItem) {
    && item.name == name && item.origin.name == name && !Blank(name)
    && DockerNetworks(item.origin.networks) && item.imageSpec == item.origin.spec
    && start.At(name).Some? && item.wasRunning == start.Runs(name)
    && Describes(name, start.containers[name], item.origin)
  }

  /** The list is what the host reports. */
  ghost predicate Snapshot(containers: seq<Info>, held: map<string, Container>) {
    forall i {:trigger containers[i]} :: 0 <= i < |containers| ==>
      containers[i].name in held && Describes(containers[i].name, held[containers[i].name], containers[i])
  }

  lemma SuffixGrows(order: seq<string>, k: nat)
    requires k < |order|
    ensures forall n :: n in order[k..] <==> n == order[k] || n in order[k + 1..]
  {
    assert order[k..] == [order[k]] + order[k + 1..];
  }

  class Run {
    const exec: PlanExecution
    const plan: UpdatePlan
    const items: map<string, UpdatePlanItem>
    ghost const start: Moment
    ghost const deps: Dependencies
    ghost const eligible: set<string>

    constructor (exec: PlanExecution, plan: UpdatePlan, items: map<string, UpdatePlanItem>,
                 ghost start: Moment, ghost deps: Dependencies, ghost eligible: set<string>)
      ensures this.exec == exec && this.plan == plan && this.items == items
      ensures this.start == start && this.deps == deps && this.eligible == eligible
    {
      this.exec, this.plan, this.items := exec, plan, items;
      this.start, this.deps, this.eligible := start, deps, eligible;
    }

    /** What never changes during the run. */
    ghost predicate Fixed() {
      && items.Keys == plan.toUpdate + plan.affected && plan.toUpdate !! plan.affected
      && Distinct(plan.order)
      && start.errored == {} && start.calls == map[] && start.stages == map[]
      && forall n {:trigger items[n]} :: n in items ==> n in plan.order && FromStart(n, items[n])
    }

    ghost predicate FromStart(name: string, item: UpdatePlanItem) {
      ItemFor(start, name, item)
    }

    ghost predicate Ordered() {
      InOrder(plan, deps, eligible)
    }

    /** Every container's hooks were run as set. */
    ghost predicate HooksTold(m: Moment) {
      forall n {:trigger Told(m.CallsOf(n), exec.HooksOf(n))} :: Told(m.CallsOf(n), exec.HooksOf(n))
    }

    ghost predicate HistoryOf(now: Moment, log: seq<Moment>) {
      && GoodMoment(start, now, now, items.Keys) && HooksTold(now)
      && (Ordered() ==> Safe(start, now, deps, eligible))
      && forall i :: 0 <= i < |log| ==>
           && GoodMoment(start, log[i], now, items.Keys)
           && (Ordered() ==> Safe(start, log[i], deps, eligible))
    }

    /** Work on a member can begin at any moment of the history. */
    lemma ScopeBegins(s: Scope)
      requires s == Scope(s.name, start, exec.host.Now(), exec.host.log, exec.HooksOf(s.name))
      requires s.name in items && HistoryOf(s.base, s.past)
      ensures exec.host.Within(s)
    {
      assert Told(s.base.CallsOf(s.name), exec.HooksOf(s.name));
    }

    lemma HistoryGrows(s: Scope)
      requires s.start == start && s.name in items && exec.host.Within(s) && HistoryOf(s.base, s.past)
      requires s.hooks == exec.HooksOf(s.name)
      requires Ordered() ==> Clear(start, s.base, s.name, deps, eligible)
      ensures HistoryOf(exec.host.Now(), exec.host.log)
    {
      var members := items.Keys;
      var now := exec.host.Now();
      StepGood(start, s, now, now, members);
      forall n ensures Told(now.CallsOf(n), exec.HooksOf(n)) {
        assert n != s.name ==> SameAt(n, s.base, now) && Told(s.base.CallsOf(n), exec.HooksOf(n));
      }
      if Ordered() {
        StepSafe(start, s.base, now, s.name, deps, eligible);
      }
      forall i | 0 <= i < |exec.host.log|
        ensures GoodMoment(start, exec.host.log[i], now, members)
        ensures Ordered() ==> Safe(start, exec.host.log[i], deps, eligible)
      {
        var m := exec.host.log[i];
        if i < |s.past| {
          assert m == s.past[i];
        } else {
          assert InScope(s, m);
          if Ordered() {
            StepSafe(start, s.base, m, s.name, deps, eligible);
          }
        }
        StepGood(start, s, now, m, members);
      }
    }

    ghost function States(): map<string, ItemState>
      reads items.Values
    {
      map n | n in items :: items[n].State()
    }

    ghost predicate OnlyChanged(name: string, states: map<string, ItemState>, states': map<string, ItemState>) {
      states.Keys == states'.Keys == items.Keys && forall n :: n in items && n != name ==> states'[n] == states[n]
    }

    /** Work on one item leaves the states of the others alone. */
    twostate lemma OthersSame(item: UpdatePlanItem)
      requires Fixed() && item.name in items && items[item.name] == item
      requires forall n :: n in items && items[n] != item ==> unchanged(items[n])
      ensures OnlyChanged(item.name, old(States()), States()) && States()[item.name] == item.State()
    {
      forall n | n in items && n != item.name ensures items[n].State() == old(items[n].State()) {
        assert items[n] != item;
      }
    }

    /** An updatable item that was prepared has everything an update needs, or an error. */
    ghost predicate Supplied(item: UpdatePlanItem, st: ItemState) {
      item.name in plan.toUpdate && st.errors == [] ==> st.CanUpdate()
    }

    ghost predicate InTouch(item: UpdatePlanItem, st: ItemState, m: Moment) {
      (st.errors != [] <==> item.name in m.errored) && st.container.name == item.name
    }

    /** Before its turn in the stop loop. */
    ghost predicate Idle(item: UpdatePlanItem, st: ItemState, m: Moment, faults: set<Fault>) {
      && InTouch(item, st, m) && st.result == NoResult
      && Early(st.errors) && exec.Reasoned(item, st, faults) && st.judged == None
      && (item.name !in plan.toUpdate ==> st.errors == [])
      && m.At(item.name) == start.At(item.name) && m.StageAt(item.name) == Untouched
    }

    /** After its turn in the stop loop. */
    ghost predicate Stopped(item: UpdatePlanItem, st: ItemState, m: Moment, faults: set<Fault>) {
      && InTouch(item, st, m) && st.result == NoResult && Supplied(item, st)
      && Early(st.errors) && exec.Reasoned(item, st, faults) && st.judged == None
      && (item.name !in plan.toUpdate ==> exec.Mild(item, st, faults))
      && SameButRunning(start.At(item.name), m.At(item.name))
      && (item.wasRunning ==>
            && (!m.Runs(item.name) || st.errors != [])
            && (m.StageAt(item.name) == StoppedAs(item.name in plan.toUpdate) ||
                (RefusedAs(item.name in plan.toUpdate, m.StageAt(item.name)) && m.Runs(item.name)
                 && st.errors != [])))
      && (!item.wasRunning ==> m.StageAt(item.name) == Untouched && !m.Runs(item.name))
    }

    /** After its turn in the start and update loop. */
    ghost predicate Finished(item: UpdatePlanItem, st: ItemState, m: Moment, faults: set<Fault>) {
      && InTouch(item, st, m) && exec.Grounded(item, st, faults)
      && exec.Settled(item, st, start.At(item.name), m, faults)
      && (st.result != NoResult ==>
            && item.name in plan.toUpdate && item.imageSpec.Some?
            && st.config.Some? && st.remoteImage.Some? && st.localImage.Some?)
      && (st.result == NoResult && item.name in plan.toUpdate ==> st.errors != [])
      && (st.result == NoResult ==>
            HeldAs(item.wasRunning, item.name in plan.toUpdate, m.StageAt(item.name)))
      && (item.name !in plan.toUpdate ==> exec.Mild(item, st, faults))
      && (st.result == RolledBack && TagFailed !in st.errors ==>
            m.At(item.name).value.image == st.localImage.value.id)
    }

    /** An item's standing depends only on its own container, calls and errors, and on what went wrong so far. */
    lemma Carried(item: UpdatePlanItem, st: ItemState, b: Moment, now: Moment, faults: set<Fault>, faults': set<Fault>)
      requires SameAt(item.name, b, now) && faults <= faults'
      ensures Idle(item, st, b, faults) ==> Idle(item, st, now, faults')
      ensures Stopped(item, st, b, faults) ==> Stopped(item, st, now, faults')
    {
      assert b.Runs(item.name) == now.Runs(item.name);
    }

    lemma FinishedCarried(item: UpdatePlanItem, st: ItemState, b: Moment, now: Moment, faults: set<Fault>,
                          faults': set<Fault>)
      requires SameAt(item.name, b, now) && faults <= faults' && Finished(item, st, b, faults)
      ensures Finished(item, st, now, faults')
    {
      assert b.Runs(item.name) == now.Runs(item.name);
      assert exec.Settled(item, st, start.At(item.name), now, faults');
    }

    // ---------- Preparation ----------

    /** Nothing but image pulls has happened to the host yet. */
    ghost predicate Unstarted()
      reads exec.host
    {
      && exec.host.containers == start.containers && exec.host.log == []
      && exec.host.calls == map[] && exec.host.stages == map[]
      && forall n :: n in exec.host.errored ==> n in items
    }

    ghost predicate Untried(item: UpdatePlanItem, st: ItemState) {
      && st.errors == [] && st.container == item.origin
      && st.localImage == None && st.remoteImage == None && st.config == None
    }

    /** The item's spec resolves to this reference. */
    ghost predicate Refers(n: string, spec: string) {
      n in items && items[n].imageSpec.Some? && exec.RefOf(items[n]) == spec
    }

    /** An item with this reference is pulled for in the given part of the list. */
    ghost predicate PulledIn(containers: seq<Info>, lo: nat, hi: nat, spec: string) {
      exists l :: lo <= l < hi <= |containers|
                  && containers[l].name in plan.toUpdate && Refers(containers[l].name, spec)
    }

    /**
     A reference is tagged with the image pulled for an item unless a later item with that reference
     was pulled for.
     */
    ghost predicate PullsTraced(containers: seq<Info>, i: nat, prep: map<string, ItemState>, tags: map<string, string>)
    {
      i <= |containers| && forall j {:trigger containers[j]} :: 0 <= j < i ==> PullTraced(containers, j, i, prep, tags)
    }

    ghost predicate PullTraced(containers: seq<Info>, j: nat, i: nat, prep: map<string, ItemState>,
                               tags: map<string, string>)
      requires j < |containers|
    {
      var n := containers[j].name;
      n in items && n in prep && prep[n].remoteImage.Some? ==>
        && items[n].imageSpec.Some? && exec.RefOf(items[n]) in tags
        && (|| tags[exec.RefOf(items[n])] == prep[n].remoteImage.value.id
            || PulledIn(containers, j + 1, i, exec.RefOf(items[n])))
    }

    ghost predicate AllIdle(states: map<string, ItemState>, m: Moment, faults: set<Fault>) {
      && states.Keys == items.Keys
      && forall n {:trigger Idle(items[n], states[n], m, faults)} :: n in items ==> Idle(items[n], states[n], m, faults)
    }

    /** The members among the first `i` containers were prepared, the others not yet. */
    ghost predicate PreparedTo(containers: seq<Info>, i: nat, states: map<string, ItemState>) {
      && states.Keys == items.Keys && i <= |containers|
      && (forall j {:trigger containers[j]} :: 0 <= j < i && containers[j].name in items ==>
            && Supplied(items[containers[j].name], states[containers[j].name])
            && exec.Equipped(items[containers[j].name], states[containers[j].name]))
      && forall j {:trigger containers[j]} :: i <= j < |containers| && containers[j].name in items ==>
           Untried(items[containers[j].name], states[containers[j].name])
    }

    ghost predicate Preparing(containers: seq<Info>, i: nat, states: map<string, ItemState>, m: Moment,
                              faults: set<Fault>)
    {
      AllIdle(states, m, faults) && PreparedTo(containers, i, states)
    }

    method PrepareMember(item: UpdatePlanItem, ghost s: Scope)
      requires FromStart(item.name, item) && exec.host.Within(s) && item.name in plan.toUpdate
      requires s == Scope(item.name, start, exec.host.Now(), exec.host.log, exec.HooksOf(item.name))
      requires Idle(item, item.State(), s.base, exec.host.faults) && Untried(item, item.State())
      modifies exec.host`tags, exec.host`errored, exec.host`faults
      modifies item`config, item`commands, item`localImage, item`remoteImage, item`errors
      ensures exec.host.Within(s) && Idle(item, item.State(), exec.host.Now(), exec.host.faults)
      ensures Supplied(item, item.State())
      ensures exec.Equipped(item, item.State())
      ensures old(exec.host.faults) <= exec.host.faults && exec.PulledFor(item, old(exec.host.tags))
    {
      exec.Prepare(item, s);
    }

    lemma OnlyMembersErred(name: string, b: Moment, now: Moment)
      requires name in items && OnlyTouches(name, b, now) && forall n :: n in b.errored ==> n in items
      ensures forall n :: n in now.errored ==> n in items
    {
      forall n | n in now.errored ensures n in items {
        assert n != name ==> SameAt(n, b, now);
      }
    }

    method PrepareTurn(item: UpdatePlanItem)
      requires Fixed() && item.name in items && items[item.name] == item && Unstarted() && item.name in plan.toUpdate
      requires Idle(item, item.State(), exec.host.Now(), exec.host.faults) && Untried(item, item.State())
      modifies exec.host`tags, exec.host`errored, exec.host`faults
      modifies item`config, item`commands, item`localImage, item`remoteImage, item`errors
      ensures Unstarted() && Idle(item, item.State(), exec.host.Now(), exec.host.faults)
      ensures Supplied(item, item.State()) && exec.Equipped(item, item.State())
      ensures OnlyTouches(item.name, old(exec.host.Now()), exec.host.Now()) && old(exec.host.faults) <= exec.host.faults
      ensures OnlyChanged(item.name, old(States()), States()) && States()[item.name] == item.State()
      ensures exec.PulledFor(item, old(exec.host.tags))
    {
      ghost var s := Scope(item.name, start, exec.host.Now(), exec.host.log, exec.HooksOf(item.name));
      PrepareMember(item, s);
      assert Unstarted() by {
        OnlyMembersErred(item.name, s.base, exec.host.Now());
      }
      OthersSame(item);
    }

    /** The turn of one member leaves the others where they were. */
    lemma IdleNext(name: string, b: Moment, now: Moment, states: map<string, ItemState>,
                   states': map<string, ItemState>, faults: set<Fault>, faults': set<Fault>)
      requires Fixed() && name in items && AllIdle(states, b, faults) && faults <= faults'
      requires OnlyTouches(name, b, now) && OnlyChanged(name, states, states')
      requires Idle(items[name], states'[name], now, faults')
      ensures AllIdle(states', now, faults')
    {
      forall n | n in items && n != name ensures Idle(items[n], states'[n], now, faults') {
        Carried(items[n], states[n], b, now, faults, faults');
      }
    }

    lemma PreparedNext(containers: seq<Info>, i: nat, states: map<string, ItemState>, states': map<string, ItemState>)
      requires NamedContainers(containers) && i < |containers| && containers[i].name in items
      requires PreparedTo(containers, i, states) && OnlyChanged(containers[i].name, states, states')
      requires Supplied(items[containers[i].name], states'[containers[i].name])
      requires exec.Equipped(items[containers[i].name], states'[containers[i].name])
      ensures PreparedTo(containers, i + 1, states')
    {
      forall j | 0 <= j < |containers| && j != i && containers[j].name in items
        ensures states'[containers[j].name] == states[containers[j].name]
      {
        assert containers[j].name != containers[i].name;
      }
    }

    lemma PulledInMore(containers: seq<Info>, lo: nat, hi: nat, spec: string)
      requires lo <= hi < |containers|
      ensures PulledIn(containers, lo, hi + 1, spec) <==>
              || PulledIn(containers, lo, hi, spec)
              || (containers[hi].name in plan.toUpdate && Refers(containers[hi].name, spec))
    {
    }

    /** Its pull moves no tag but the one of its own spec. */
    lemma PullsNext(containers: seq<Info>, i: nat, tags: map<string, string>, tags': map<string, string>,
                    prep: map<string, ItemState>, prep': map<string, ItemState>)
      requires NamedContainers(containers) && i < |containers| && containers[i].name in items
      requires PullsTraced(containers, i, prep, tags)
      requires containers[i].name in plan.toUpdate && prep.Keys == prep'.Keys == items.Keys
      requires forall n :: n in items && n != containers[i].name ==> prep'[n] == prep[n]
      requires tags.Keys <= tags'.Keys
      requires forall t :: t in tags && !Refers(containers[i].name, t) ==> tags'[t] == tags[t]
      requires PullTraced(containers, i, i + 1, prep', tags')
      ensures PullsTraced(containers, i + 1, prep', tags')
    {
      var next := i + 1;
      forall j | 0 <= j < i ensures PullTraced(containers, j, next, prep', tags') {
        var n := containers[j].name;
        assert n != containers[i].name && PullTraced(containers, j, i, prep, tags);
        if n in items && prep'[n].remoteImage.Some? {
          PulledInMore(containers, j + 1, i, exec.RefOf(items[n]));
        }
      }
    }

    /** A container that is not an updatable member is passed over. */
    lemma PreparedSkip(containers: seq<Info>, i: nat, m: Moment, tags: map<string, string>,
                       states: map<string, ItemState>, faults: set<Fault>)
      requires Fixed() && i < |containers| && !(containers[i].name in items && containers[i].name in plan.toUpdate)
      requires Preparing(containers, i, states, m, faults) && PullsTraced(containers, i, states, tags)
      ensures Preparing(containers, i + 1, states, m, faults) && PullsTraced(containers, i + 1, states, tags)
    {
      assert PullTraced(containers, i, i + 1, states, tags) by {
        if containers[i].name in items {
          assert Untried(items[containers[i].name], states[containers[i].name]);
        }
      }
      var next := i + 1;
      forall j | 0 <= j < i ensures PullTraced(containers, j, next, states, tags) {
        assert PullTraced(containers, j, i, states, tags);
        var n := containers[j].name;
        if n in items && states[n].remoteImage.Some? && PulledIn(containers, j + 1, i, exec.RefOf(items[n])) {
          var spec := exec.RefOf(items[n]);
          var l :| j + 1 <= l < i && containers[l].name in plan.toUpdate && Refers(containers[l].name, spec);
          assert PulledIn(containers, j + 1, i + 1, spec);
        }
      }
    }

    /** Prepares every updatable member, in the order in which the containers are listed. */
    method PreparePhase(containers: seq<Info>)
      requires Fixed() && NamedContainers(containers) && Unstarted()
      requires Preparing(containers, 0, States(), exec.host.Now(), exec.host.faults)
      modifies exec.host`tags, exec.host`errored, exec.host`faults
      modifies items.Values`config, items.Values`commands, items.Values`localImage, items.Values`remoteImage
      modifies items.Values`errors
      ensures Unstarted() && Preparing(containers, |containers|, States(), exec.host.Now(), exec.host.faults)
      ensures PullsTraced(containers, |containers|, States(), exec.host.tags)
    {
      for i := 0 to |containers|
        invariant Unstarted() && Preparing(containers, i, States(), exec.host.Now(), exec.host.faults)
        invariant PullsTraced(containers, i, States(), exec.host.tags)
      {
        var name := containers[i].name;
        ghost var b, tags, states, faults := exec.host.Now(), exec.host.tags, States(), exec.host.faults;
        if name in items && name in plan.toUpdate {
          var item := items[name];
          assert states[name] == item.State();
          PrepareTurn(item);
          IdleNext(name, b, exec.host.Now(), states, States(), faults, exec.host.faults);
          PreparedNext(containers, i, states, States());
          PullsNext(containers, i, tags, exec.host.tags, states, States());
        } else {
          PreparedSkip(containers, i, b, tags, states, faults);
        }
      }
    }

    /** What the preparation left on an item stays there. */
    predicate SamePrep(st: ItemState, prepared: ItemState) {
      && st.localImage == prepared.localImage && st.remoteImage == prepared.remoteImage
      && st.config == prepared.config && st.commands == prepared.commands
    }

    ghost predicate Holds(states: map<string, ItemState>, prep: map<string, ItemState>) {
      && states.Keys == prep.Keys == items.Keys
      && forall n {:trigger prep[n]} :: n in items ==> SamePrep(states[n], prep[n])
    }

    lemma HoldsStill(name: string, states: map<string, ItemState>, states': map<string, ItemState>,
                     prep: map<string, ItemState>)
      requires Holds(states, prep) && OnlyChanged(name, states, states')
      requires name in items && SamePrep(states'[name], states[name])
      ensures Holds(states', prep)
    {
    }

    ghost predicate AllEquipped(prep: map<string, ItemState>) {
      forall n {:trigger prep[n]} :: n in items && n in prep ==> exec.Equipped(items[n], prep[n])
    }

    // ---------- Stop loop ----------

    /** The stop loop with the last `|order| - k` names done. */
    ghost predicate Stopping(k: nat, states: map<string, ItemState>, m: Moment, faults: set<Fault>)
      requires k <= |plan.order|
    {
      && states.Keys == items.Keys
      && forall n {:trigger Stopped(items[n], states[n], m, faults)} {:trigger Idle(items[n], states[n], m, faults)} ::
           n in items ==>
           if n in plan.order[k..] then Stopped(items[n], states[n], m, faults)
           else Idle(items[n], states[n], m, faults) && Supplied(items[n], states[n])
    }

    lemma StopClear(k: nat, states: map<string, ItemState>, b: Moment, faults: set<Fault>)
      requires Fixed() && k < |plan.order| && plan.order[k] in items && Ordered()
      requires GoodMoment(start, b, b, items.Keys) && Stopping(k + 1, states, b, faults)
      ensures Clear(start, b, plan.order[k], deps, eligible)
    {
      var x := plan.order[k];
      forall n | n in eligible && DependsOn(deps, n, x)
        ensures n != x && (!b.Runs(n) || n in b.errored)
      {
        assert n in items;
        var j :| 0 <= j < |plan.order| && plan.order[j] == n;
        assert x in plan.order[..j];
        assert j > k;
        assert plan.order[k + 1..][j - k - 1] == n;
        assert Stopped(items[n], states[n], b, faults);
      }
      forall d | d in eligible && DependsOn(deps, x, d) && start.Runs(d)
        ensures b.Runs(d) || d in b.errored
      {
        assert d in plan.order[..k];
        if d in items {
          assert d !in plan.order[k + 1..];
          assert Idle(items[d], states[d], b, faults);
        } else {
          assert SameAt(d, start, b);
        }
      }
    }

    method StopTurn(item: UpdatePlanItem, ghost st: ItemState, ghost s: Scope)
      requires Fixed() && item.name in items && items[item.name] == item
      requires s == Scope(item.name, start, exec.host.Now(), exec.host.log, exec.HooksOf(item.name))
      requires HistoryOf(s.base, s.past) && st == item.State() && Idle(item, st, s.base, exec.host.faults)
      requires Supplied(item, st)
      requires Ordered() ==> Clear(start, s.base, item.name, deps, eligible)
      modifies exec.host`containers, exec.host`calls, exec.host`stages, exec.host`log, exec.host`errored
      modifies exec.host`faults
      modifies item`container, item`errors
      ensures HistoryOf(exec.host.Now(), exec.host.log)
      ensures Stopped(item, item.State(), exec.host.Now(), exec.host.faults)
      ensures OnlyTouches(item.name, s.base, exec.host.Now()) && old(exec.host.faults) <= exec.host.faults
      ensures OnlyChanged(item.name, old(States()), States()) && States()[item.name] == item.State()
      ensures SamePrep(States()[item.name], st)
    {
      ScopeBegins(s);
      StopMember(item, st, s);
      HistoryGrows(s);
      OthersSame(item);
    }

    method StopMember(item: UpdatePlanItem, ghost st: ItemState, ghost s: Scope)
      requires FromStart(item.name, item) && exec.host.Within(s)
      requires s == Scope(item.name, start, exec.host.Now(), exec.host.log, exec.HooksOf(item.name))
      requires st == item.State() && Idle(item, st, s.base, exec.host.faults) && Supplied(item, st)
      modifies exec.host`containers, exec.host`calls, exec.host`stages, exec.host`log, exec.host`errored
      modifies exec.host`faults
      modifies item`container, item`errors
      ensures exec.host.Within(s) && old(exec.host.faults) <= exec.host.faults
      ensures Stopped(item, item.State(), exec.host.Now(), exec.host.faults)
    {
      exec.StopItem(item, item.name in plan.toUpdate, s);
    }

    /** The other members are where they were. */
    lemma StopExtends(k: nat, states: map<string, ItemState>, states': map<string, ItemState>, b: Moment, now: Moment,
                      item: UpdatePlanItem, st: ItemState, faults: set<Fault>, faults': set<Fault>)
      requires Fixed() && k < |plan.order| && plan.order[k] in items && items[plan.order[k]] == item
      requires Stopping(k + 1, states, b, faults) && OnlyChanged(plan.order[k], states, states') && faults <= faults'
      requires states'[plan.order[k]] == st && OnlyTouches(plan.order[k], b, now)
      requires Stopped(item, st, now, faults')
      ensures Stopping(k, states', now, faults')
    {
      SuffixGrows(plan.order, k);
      forall n | n in items && n != plan.order[k]
        ensures if n in plan.order[k + 1..] then Stopped(items[n], states'[n], now, faults')
                else Idle(items[n], states'[n], now, faults') && Supplied(items[n], states'[n])
      {
        Carried(items[n], states[n], b, now, faults, faults');
      }
    }

    ghost predicate Halting(k: nat, prep: map<string, ItemState>, states: map<string, ItemState>, m: Moment,
                            faults: set<Fault>)
      requires k <= |plan.order|
    {
      Stopping(k, states, m, faults) && Holds(states, prep)
    }

    /** A name in the order that is not a member is passed over. */
    lemma StopSkipped(k: nat, states: map<string, ItemState>, m: Moment, faults: set<Fault>)
      requires k < |plan.order| && plan.order[k] !in items && Stopping(k + 1, states, m, faults)
      ensures Stopping(k, states, m, faults)
    {
      SuffixGrows(plan.order, k);
      forall n | n in items
        ensures if n in plan.order[k..] then Stopped(items[n], states[n], m, faults)
                else Idle(items[n], states[n], m, faults) && Supplied(items[n], states[n])
      {
        assert n in plan.order[k..] <==> n in plan.order[k + 1..];
      }
    }

    /** One round of the stop loop. */
    method StopNext(k: nat, ghost prep: map<string, ItemState>)
      requires Fixed() && k < |plan.order|
      requires HistoryOf(exec.host.Now(), exec.host.log)
      requires Halting(k + 1, prep, States(), exec.host.Now(), exec.host.faults)
      modifies exec.host`containers, exec.host`calls, exec.host`stages, exec.host`log, exec.host`errored
      modifies exec.host`faults
      modifies items.Values`container, items.Values`errors
      ensures HistoryOf(exec.host.Now(), exec.host.log)
      ensures Halting(k, prep, States(), exec.host.Now(), exec.host.faults)
    {
      var name := plan.order[k];
      if name !in items {
        StopSkipped(k, States(), exec.host.Now(), exec.host.faults);
        return;
      }
      ghost var b, states, faults := exec.host.Now(), States(), exec.host.faults;
      if Ordered() {
        StopClear(k, states, b, faults);
      }
      assert name !in plan.order[k + 1..] && Idle(items[name], states[name], b, faults);
      var item := items[name];
      StopTurn(item, states[name], Scope(name, start, b, exec.host.log, exec.HooksOf(name)));
      StopExtends(k, states, States(), b, exec.host.Now(), item, item.State(), faults, exec.host.faults);
      HoldsStill(name, states, States(), prep);
    }

    /** Stops every member that was running, from most dependent to most dependable. */
    method StopPhase(ghost prep: map<string, ItemState>)
      requires Fixed() && HistoryOf(exec.host.Now(), exec.host.log)
      requires Halting(|plan.order|, prep, States(), exec.host.Now(), exec.host.faults)
      modifies exec.host`containers, exec.host`calls, exec.host`stages, exec.host`log, exec.host`errored
      modifies exec.host`faults
      modifies items.Values`container, items.Values`errors
      ensures HistoryOf(exec.host.Now(), exec.host.log)
      ensures Halting(0, prep, States(), exec.host.Now(), exec.host.faults)
    {
      for k := |plan.order| downto 0
        invariant HistoryOf(exec.host.Now(), exec.host.log)
        invariant Halting(k, prep, States(), exec.host.Now(), exec.host.faults)
      {
        StopNext(k, prep);
      }
    }

    // ---------- Start and update loop ----------

    ghost predicate Starting(k: nat, states: map<string, ItemState>, m: Moment, faults: set<Fault>)
      requires k <= |plan.order|
    {
      && states.Keys == items.Keys
      && forall n {:trigger Finished(items[n], states[n], m, faults)}
                  {:trigger Stopped(items[n], states[n], m, faults)} :: n in items ==>
           if n in plan.order[..k] then Finished(items[n], states[n], m, faults)
           else Stopped(items[n], states[n], m, faults)
    }

    lemma StartClear(k: nat, states: map<string, ItemState>, b: Moment, faults: set<Fault>)
      requires Fixed() && k < |plan.order| && plan.order[k] in items && Ordered()
      requires GoodMoment(start, b, b, items.Keys) && Starting(k, states, b, faults)
      ensures Clear(start, b, plan.order[k], deps, eligible)
    {
      var x := plan.order[k];
      forall n | n in eligible && DependsOn(deps, n, x)
        ensures n != x && (!b.Runs(n) || n in b.errored)
      {
        assert n in items;
        var j :| 0 <= j < |plan.order| && plan.order[j] == n;
        assert x in plan.order[..j];
        assert n !in plan.order[..k];
        assert Stopped(items[n], states[n], b, faults);
      }
      forall d | d in eligible && DependsOn(deps, x, d) && start.Runs(d)
        ensures b.Runs(d) || d in b.errored
      {
        assert d in plan.order[..k];
        if d in items {
          assert Finished(items[d], states[d], b, faults);
        } else {
          assert SameAt(d, start, b);
        }
      }
    }

    /** The named item ended rolled back or failed, and may have re-tagged this spec. */
    ghost predicate Undid(name: string, spec: string, states: map<string, ItemState>) {
      Refers(name, spec) && name in states && states[name].result in {RolledBack, Failed}
    }

    ghost predicate UndoneBefore(k: nat, spec: string, states: map<string, ItemState>)
      requires k <= |plan.order|
    {
      exists j :: 0 <= j < k && Undid(plan.order[j], spec, states)
    }

    /** The last one before `k` that was rolled back or failed with this spec. */
    ghost predicate LastUndone(j: nat, k: nat, spec: string, states: map<string, ItemState>)
      requires k <= |plan.order|
    {
      j < k && Undid(plan.order[j], spec, states) && forall l :: j < l < k ==> !Undid(plan.order[l], spec, states)
    }

    /** The tag is where the pulls left it, or after a rollback with a successful re-tag the image that brought back. */
    ghost predicate TagAs(k: nat, spec: string, tag: string, pulled: map<string, string>,
                          states: map<string, ItemState>)
      requires k <= |plan.order| && spec in pulled
    {
      && (tag == pulled[spec] || UndoneBefore(k, spec, states))
      && forall j: nat :: LastUndone(j, k, spec, states) && TagFailed !in states[plan.order[j]].errors ==>
           states[plan.order[j]].localImage.Some? && tag == states[plan.order[j]].localImage.value.id
    }

    ghost predicate TagsTraced(k: nat, pulled: map<string, string>, tags: map<string, string>,
                               states: map<string, ItemState>)
      requires k <= |plan.order|
    {
      pulled.Keys <= tags.Keys && forall t :: t in pulled ==> TagAs(k, t, tags[t], pulled, states)
    }

    /** So is the image of every container updated so far. */
    ghost predicate ImagesTraced(k: nat, pulled: map<string, string>, m: Moment, states: map<string, ItemState>)
      requires k <= |plan.order|
    {
      forall i :: 0 <= i < k && plan.order[i] in states && states[plan.order[i]].result == Updated ==>
        ImageFrom(i, pulled, m, states)
    }

    ghost predicate ImageFrom(i: nat, pulled: map<string, string>, m: Moment, states: map<string, ItemState>)
      requires i < |plan.order|
    {
      var name := plan.order[i];
      && name in items && items[name].imageSpec.Some? && exec.RefOf(items[name]) in pulled && m.At(name).Some?
      && TagAs(i, exec.RefOf(items[name]), m.At(name).value.image, pulled, states)
    }

    /** What one item's turn did: to its container, to the tags, and which image it took. */
    ghost predicate Turned(item: UpdatePlanItem, st: ItemState, b: Moment, now: Moment,
                           tags: map<string, string>, tags': map<string, string>, faults: set<Fault>)
    {
      && OnlyTouches(item.name, b, now) && Finished(item, st, now, faults)
      && exec.TagsAfter(item, st, now.At(item.name), tags, tags')
    }

    method StartTurn(item: UpdatePlanItem, ghost st: ItemState, ghost s: Scope)
      requires Fixed() && item.name in items && items[item.name] == item
      requires s == Scope(item.name, start, exec.host.Now(), exec.host.log, exec.HooksOf(item.name))
      requires HistoryOf(s.base, s.past) && st == item.State() && Stopped(item, st, s.base, exec.host.faults)
      requires item.remoteImage.Some? ==> item.imageSpec.Some? && exec.RefOf(item) in exec.host.tags
      requires exec.Equipped(item, st)
      requires Ordered() ==> Clear(start, s.base, item.name, deps, eligible)
      modifies exec.host, item`container, item`errors, item`result, item`judged, item`closing
      ensures HistoryOf(exec.host.Now(), exec.host.log)
      ensures Turned(item, item.State(), s.base, exec.host.Now(), old(exec.host.tags), exec.host.tags, exec.host.faults)
      ensures OnlyChanged(item.name, old(States()), States()) && States()[item.name] == item.State()
      ensures SamePrep(States()[item.name], st)
      ensures old(exec.host.faults) <= exec.host.faults
    {
      ScopeBegins(s);
      StartMember(item, st, s);
      HistoryGrows(s);
      OthersSame(item);
    }

    method StartMember(item: UpdatePlanItem, ghost st: ItemState, ghost s: Scope)
      requires FromStart(item.name, item) && exec.host.Within(s)
      requires s == Scope(item.name, start, exec.host.Now(), exec.host.log, exec.HooksOf(item.name))
      requires st == item.State() && Stopped(item, st, s.base, exec.host.faults)
      requires item.remoteImage.Some? ==> item.imageSpec.Some? && exec.RefOf(item) in exec.host.tags
      requires exec.Equipped(item, st)
      modifies exec.host, item`container, item`errors, item`result, item`judged, item`closing
      ensures exec.host.Within(s)
      ensures Turned(item, item.State(), s.base, exec.host.Now(), old(exec.host.tags), exec.host.tags, exec.host.faults)
      ensures old(exec.host.faults) <= exec.host.faults
    {
      exec.ProcessItem(item, item.name in plan.toUpdate, s);
    }

    /** The other members are where they were. */
    lemma StartExtends(k: nat, states: map<string, ItemState>, states': map<string, ItemState>, b: Moment, now: Moment,
                       faults: set<Fault>, faults': set<Fault>)
      requires Fixed() && k < |plan.order| && plan.order[k] in items
      requires Starting(k, states, b, faults) && OnlyChanged(plan.order[k], states, states') && faults <= faults'
      requires OnlyTouches(plan.order[k], b, now)
      requires Finished(items[plan.order[k]], states'[plan.order[k]], now, faults')
      ensures Starting(k + 1, states', now, faults')
    {
      assert plan.order[..k + 1] == plan.order[..k] + [plan.order[k]];
      forall n | n in items && n != plan.order[k]
        ensures if n in plan.order[..k + 1] then Finished(items[n], states'[n], now, faults')
                else Stopped(items[n], states'[n], now, faults')
      {
        if n in plan.order[..k] {
          FinishedCarried(items[n], states[n], b, now, faults, faults');
        } else {
          Carried(items[n], states[n], b, now, faults, faults');
        }
      }
    }

    /** States of later items do not matter for what came before. */
    lemma TagAsStays(i: nat, k: nat, spec: string, tag: string, pulled: map<string, string>,
                     states: map<string, ItemState>, states': map<string, ItemState>)
      requires Fixed() && i <= k < |plan.order| && spec in pulled
      requires plan.order[k] in items && OnlyChanged(plan.order[k], states, states')
      ensures TagAs(i, spec, tag, pulled, states) == TagAs(i, spec, tag, pulled, states')
    {
      forall j | 0 <= j < i ensures Undid(plan.order[j], spec, states) == Undid(plan.order[j], spec, states') {
        assert plan.order[j] != plan.order[k];
      }
      forall j | 0 <= j < i && plan.order[j] in items
        ensures states[plan.order[j]] == states'[plan.order[j]]
      {
        assert plan.order[j] != plan.order[k];
      }
      assert UndoneBefore(i, spec, states) == UndoneBefore(i, spec, states');
      assert forall j: nat :: LastUndone(j, i, spec, states) == LastUndone(j, i, spec, states');
    }

    /** The turn at `k` moves a tag only by undoing its item. */
    lemma TagExtends(k: nat, spec: string, pulled: map<string, string>, tag: string, tag': string,
                     states: map<string, ItemState>)
      requires Fixed() && k < |plan.order| && spec in pulled && TagAs(k, spec, tag, pulled, states)
      requires !Undid(plan.order[k], spec, states) ==> tag' == tag
      requires Undid(plan.order[k], spec, states) && TagFailed !in states[plan.order[k]].errors ==>
                 states[plan.order[k]].localImage.Some? && tag' == states[plan.order[k]].localImage.value.id
      ensures TagAs(k + 1, spec, tag', pulled, states)
    {
      forall j: nat | LastUndone(j, k + 1, spec, states) && TagFailed !in states[plan.order[j]].errors
        ensures states[plan.order[j]].localImage.Some? && tag' == states[plan.order[j]].localImage.value.id
      {
        if j < k {
          assert !Undid(plan.order[k], spec, states);
          assert LastUndone(j, k, spec, states);
        }
      }
    }

    lemma TagsExtend(k: nat, pulled: map<string, string>, tags: map<string, string>, tags': map<string, string>,
                     c: Option<Container>, states: map<string, ItemState>, states': map<string, ItemState>)
      requires Fixed() && k < |plan.order| && plan.order[k] in items
      requires OnlyChanged(plan.order[k], states, states') && TagsTraced(k, pulled, tags, states)
      requires exec.TagsAfter(items[plan.order[k]], states'[plan.order[k]], c, tags, tags')
      ensures TagsTraced(k + 1, pulled, tags', states')
    {
      forall t | t in pulled ensures TagAs(k + 1, t, tags'[t], pulled, states') {
        TagAsStays(k, k, t, tags[t], pulled, states, states');
        TagExtends(k, t, pulled, tags[t], tags'[t], states');
      }
    }

    /** What was traced stays traced; the item at `k` is traced through the tags it was created with. */
    lemma ImagesExtend(k: nat, pulled: map<string, string>, tags: map<string, string>, tags': map<string, string>,
                       b: Moment, now: Moment, states: map<string, ItemState>, states': map<string, ItemState>)
      requires Fixed() && k < |plan.order| && plan.order[k] in items
      requires OnlyChanged(plan.order[k], states, states')
      requires TagsTraced(k, pulled, tags, states) && ImagesTraced(k, pulled, b, states)
      requires OnlyTouches(plan.order[k], b, now)
      requires exec.TagsAfter(items[plan.order[k]], states'[plan.order[k]], now.At(plan.order[k]), tags, tags')
      requires states'[plan.order[k]].result == Updated ==> exec.RefOf(items[plan.order[k]]) in pulled
      ensures ImagesTraced(k + 1, pulled, now, states')
    {
      forall i | 0 <= i < k + 1 && plan.order[i] in states' && states'[plan.order[i]].result == Updated
        ensures ImageFrom(i, pulled, now, states')
      {
        var name := plan.order[i];
        if i < k {
          assert ImageFrom(i, pulled, b, states) && SameAt(name, b, now);
        }
        TagAsStays(i, k, exec.RefOf(items[name]), now.At(name).value.image, pulled, states, states');
      }
    }

    /** Every reference that was pulled has a tag. */
    ghost predicate SpecsPulled(prep: map<string, ItemState>, pulled: map<string, string>) {
      forall n {:trigger prep[n]} :: n in items && n in prep && prep[n].remoteImage.Some? ==>
        items[n].imageSpec.Some? && exec.RefOf(items[n]) in pulled
    }

    /** Where the start and update loop stands before its round `k`. */
    ghost predicate Underway(k: nat, pulled: map<string, string>, prep: map<string, ItemState>,
                             states: map<string, ItemState>, tags: map<string, string>, m: Moment, faults: set<Fault>)
      requires k <= |plan.order|
    {
      && Starting(k, states, m, faults) && SpecsPulled(prep, pulled) && AllEquipped(prep) && Holds(states, prep)
      && TagsTraced(k, pulled, tags, states) && ImagesTraced(k, pulled, m, states)
    }

    lemma RoundDone(k: nat, pulled: map<string, string>, tags: map<string, string>, tags': map<string, string>,
                    b: Moment, now: Moment, states: map<string, ItemState>, states': map<string, ItemState>,
                    item: UpdatePlanItem, st: ItemState, prep: map<string, ItemState>, faults: set<Fault>,
                    faults': set<Fault>)
      requires Fixed() && k < |plan.order| && plan.order[k] in items && items[plan.order[k]] == item
      requires Underway(k, pulled, prep, states, tags, b, faults) && faults <= faults'
      requires OnlyChanged(plan.order[k], states, states') && states'[plan.order[k]] == st
      requires SamePrep(st, states[plan.order[k]])
      requires Turned(item, st, b, now, tags, tags', faults')
      ensures Underway(k + 1, pulled, prep, states', tags', now, faults')
    {
      StartExtends(k, states, states', b, now, faults, faults');
      HoldsStill(plan.order[k], states, states', prep);
      assert SamePrep(st, prep[plan.order[k]]);
      TagsExtend(k, pulled, tags, tags', now.At(item.name), states, states');
      ImagesExtend(k, pulled, tags, tags', b, now, states, states');
    }

    /** A name in the order that is not a member is passed over. */
    lemma RoundSkipped(k: nat, pulled: map<string, string>, tags: map<string, string>, m: Moment,
                       states: map<string, ItemState>, prep: map<string, ItemState>, faults: set<Fault>)
      requires k < |plan.order| && plan.order[k] !in items && Underway(k, pulled, prep, states, tags, m, faults)
      ensures Underway(k + 1, pulled, prep, states, tags, m, faults)
    {
    }

    /** One round of the start and update loop. */
    method StartNext(k: nat, ghost pulled: map<string, string>, ghost prep: map<string, ItemState>)
      requires Fixed() && k < |plan.order|
      requires HistoryOf(exec.host.Now(), exec.host.log)
      requires Underway(k, pulled, prep, States(), exec.host.tags, exec.host.Now(), exec.host.faults)
      modifies exec.host
      modifies items.Values`container, items.Values`errors, items.Values`result, items.Values`judged
      modifies items.Values`closing
      ensures HistoryOf(exec.host.Now(), exec.host.log)
      ensures Underway(k + 1, pulled, prep, States(), exec.host.tags, exec.host.Now(), exec.host.faults)
    {
      var name := plan.order[k];
      ghost var b, tags, states, faults := exec.host.Now(), exec.host.tags, States(), exec.host.faults;
      if name !in items {
        RoundSkipped(k, pulled, tags, b, states, prep, faults);
        return;
      }
      if Ordered() {
        StartClear(k, states, b, faults);
      }
      assert name !in plan.order[..k] && Stopped(items[name], states[name], b, faults);
      assert SamePrep(states[name], prep[name]);
      var item := items[name];
      StartTurn(item, states[name], Scope(name, start, b, exec.host.log, exec.HooksOf(name)));
      RoundDone(k, pulled, tags, exec.host.tags, b, exec.host.Now(), states, States(), item, item.State(), prep,
                faults, exec.host.faults);
    }

    /** Updates or starts every member, from most dependable to most dependent. */
    method StartPhase(ghost pulled: map<string, string>, ghost prep: map<string, ItemState>)
      requires Fixed() && HistoryOf(exec.host.Now(), exec.host.log)
      requires Underway(0, pulled, prep, States(), exec.host.tags, exec.host.Now(), exec.host.faults)
      modifies exec.host
      modifies items.Values`container, items.Values`errors, items.Values`result, items.Values`judged
      modifies items.Values`closing
      ensures HistoryOf(exec.host.Now(), exec.host.log)
      ensures Underway(|plan.order|, pulled, prep, States(), exec.host.tags, exec.host.Now(), exec.host.faults)
    {
      for k := 0 to |plan.order|
        invariant HistoryOf(exec.host.Now(), exec.host.log)
        invariant Underway(k, pulled, prep, States(), exec.host.tags, exec.host.Now(), exec.host.faults)
      {
        StartNext(k, pulled, prep);
      }
    }

    // ---------- The whole run ----------

    /** A finished run: `prep` is what the preparation left, `pulled` the tags as the pulls left them. */
    ghost predicate Done(containers: seq<Info>, pulled: map<string, string>, prep: map<string, ItemState>)
      reads exec.host, items.Values
    {
      && Fixed() && HistoryOf(exec.host.Now(), exec.host.log) && NamedContainers(containers)
      && Underway(|plan.order|, pulled, prep, States(), exec.host.tags, exec.host.Now(), exec.host.faults)
      && PullsTraced(containers, |containers|, prep, pulled)
      && forall n :: n in items ==> items[n].origin in containers
    }

    lemma HistoryBegins()
      requires Fixed() && Unstarted()
      ensures HistoryOf(exec.host.Now(), exec.host.log)
    {
      var now := exec.host.Now();
      forall n ensures Explained(start, now, n) {
        assert now.At(n) == start.At(n);
      }
      assert Tracked(map[], map[]) by {
        forall n ensures StageOf(CallsIn(map[], n)) == StageIn(map[], n) {
        }
      }
    }

    lemma SpecsFromPulls(containers: seq<Info>, prep: map<string, ItemState>, pulled: map<string, string>)
      requires forall n :: n in items ==> Listed(containers, n)
      requires PullsTraced(containers, |containers|, prep, pulled)
      ensures SpecsPulled(prep, pulled)
    {
    }

    /** Between the phases nothing moves. */
    lemma PreparedToStopping(containers: seq<Info>, states: map<string, ItemState>, m: Moment, faults: set<Fault>)
      requires Preparing(containers, |containers|, states, m, faults) && forall n :: n in items ==>
                 Listed(containers, n)
      ensures Stopping(|plan.order|, states, m, faults) && AllEquipped(states)
    {
      forall n | n in items ensures Supplied(items[n], states[n]) && exec.Equipped(items[n], states[n]) {
        var j :| 0 <= j < |containers| && containers[j].name == n;
      }
    }

    lemma StoppingToUnderway(states: map<string, ItemState>, pulled: map<string, string>,
                             prep: map<string, ItemState>, m: Moment, faults: set<Fault>)
      requires Fixed() && Stopping(0, states, m, faults) && SpecsPulled(prep, pulled) && AllEquipped(prep)
      requires Holds(states, prep)
      ensures Underway(0, pulled, prep, states, pulled, m, faults)
    {
    }

    method PrepareToStop(containers: seq<Info>) returns (ghost prep: map<string, ItemState>)
      requires Fixed() && NamedContainers(containers) && Unstarted()
      requires Preparing(containers, 0, States(), exec.host.Now(), exec.host.faults)
      requires forall n :: n in items ==> Listed(containers, n)
      modifies exec.host`tags, exec.host`errored, exec.host`faults
      modifies items.Values`config, items.Values`commands, items.Values`localImage, items.Values`remoteImage
      modifies items.Values`errors
      ensures HistoryOf(exec.host.Now(), exec.host.log)
      ensures Halting(|plan.order|, prep, States(), exec.host.Now(), exec.host.faults) && AllEquipped(prep)
      ensures PullsTraced(containers, |containers|, prep, exec.host.tags)
    {
      PreparePhase(containers);
      prep := States();
      HistoryBegins();
      PreparedToStopping(containers, States(), exec.host.Now(), exec.host.faults);
    }

    /** Fresh items are in place for the preparation. */
    lemma Begun(containers: seq<Info>)
      requires Fixed() && Unstarted() && NamedContainers(containers) && exec.host.errored == {}
      requires forall n :: n in items ==>
                 items[n].State() == ItemState(items[n].origin, None, [], None, None, NoResult, [], None, None)
      ensures Preparing(containers, 0, States(), exec.host.Now(), exec.host.faults)
    {
      forall n | n in items ensures Idle(items[n], States()[n], exec.host.Now(), exec.host.faults) {
        assert exec.host.Now().At(n) == start.At(n);
      }
    }

    method Execute(containers: seq<Info>)
      returns (ghost pulled: map<string, string>, ghost prep: map<string, ItemState>)
      requires Fixed() && NamedContainers(containers) && Unstarted()
      requires Preparing(containers, 0, States(), exec.host.Now(), exec.host.faults)
      requires forall n :: n in items ==> Listed(containers, n) && items[n].origin in containers
      modifies exec.host, items.Values
      ensures Done(containers, pulled, prep)
    {
      prep := PrepareToStop(containers);
      pulled := exec.host.tags;
      SpecsFromPulls(containers, prep, pulled);
      StopPhase(prep);
      StoppingToUnderway(States(), pulled, prep, exec.host.Now(), exec.host.faults);
      StartPhase(pulled, prep);
    }
  }

  lemma ListedNext(containers: seq<Info>, i: nat, n: string)
    requires i < |containers|
    ensures Listed(containers[..i + 1], n) <==> Listed(containers[..i], n) || n == containers[i].name
  {
  }

  method NewItem(containers: seq<Info>, i: nat, ghost start: Moment) returns (item: UpdatePlanItem)
    requires NamedContainers(containers) && i < |containers| && Snapshot(containers, start.containers)
    ensures fresh(item) && ItemFor(start, containers[i].name, item) && item.origin in containers
    ensures item.State() == ItemState(item.origin, None, [], None, None, NoResult, [], None, None)
  {
    item := new UpdatePlanItem(containers[i]);
  }

  /** One item for every listed member of the plan. */
  method BuildItems(containers: seq<Info>, plan: UpdatePlan, ghost start: Moment)
    returns (items: map<string, UpdatePlanItem>)
    requires NamedContainers(containers) && PlanFits(plan, containers) && Snapshot(containers, start.containers)
    ensures items.Keys == plan.toUpdate + plan.affected
    ensures forall n :: n in items ==> fresh(items[n]) && ItemFor(start, n, items[n]) && items[n].origin in containers
    ensures forall n :: n in items ==>
              items[n].State() == ItemState(items[n].origin, None, [], None, None, NoResult, [], None, None)
  {
    items := map[];
    for i := 0 to |containers|
      invariant forall n :: n in items <==> n in plan.toUpdate + plan.affected && Listed(containers[..i], n)
      invariant forall n :: n in items ==>
                  fresh(items[n]) && ItemFor(start, n, items[n]) && items[n].origin in containers
      invariant forall n :: n in items ==>
                  items[n].State() == ItemState(items[n].origin, None, [], None, None, NoResult, [], None, None)
    {
      var c := containers[i];
      forall n ensures Listed(containers[..i + 1], n) <==> Listed(containers[..i], n) || n == c.name {
        ListedNext(containers, i, n);
      }
      if c.name in plan.toUpdate || c.name in plan.affected {
        var item := NewItem(containers, i, start);
        items := items[c.name := item];
      }
    }
    assert containers[..|containers|] == containers;
  }

  /** The whole of `execute_update_plan`; a plan without updatable containers is not run. */
  method ExecuteUpdatePlan(host: Host, containers: seq<Info>, plan: UpdatePlan, hooks: map<string, Hooks>,
                           timeout: int, oldApi: bool, ghost deps: Dependencies, ghost eligible: set<string>)
    returns (run: Run?, ghost pulled: map<string, string>, ghost prep: map<string, ItemState>)
    requires NamedContainers(containers) && PlanFits(plan, containers) && Snapshot(containers, host.containers)
    modifies host
    ensures run == null <==> plan.toUpdate == {}
    ensures run == null ==> host.containers == old(host.containers) && host.tags == old(host.tags)
    ensures run != null ==>
              && fresh(run) && run.exec.host == host && run.plan == plan && run.deps == deps && run.eligible == eligible
              && run.exec.hooks == hooks && run.exec.timeout == timeout && run.exec.oldApi == oldApi
              && run.start.containers == old(host.containers)
              && run.Done(containers, pulled, prep)
  {
    pulled, prep := map[], map[];
    if plan.toUpdate == {} {
      return null, pulled, prep;
    }
    host.BeginRecord();
    ghost var start := host.Now();
    var items := BuildItems(containers, plan, start);
    var exec := new PlanExecution(host, hooks, timeout, oldApi);
    run := new Run(exec, plan, items, start, deps, eligible);
    run.Begun(containers);
    pulled, prep := run.Execute(containers);
  }
}
