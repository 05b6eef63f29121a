/**
 Building the update plan of a host (backend/core/update_actions/update_actions_plan.py): eligible
 containers, the updatable set with its delay rule, the two dependency maps, the affected set, and the
 order of execution.
 */
module UpdatePlanner {
  import opened ContainerInfo
  import opened Labels
  import opened Strings
  import opened Database
  import opened DependencyGraph
  import opened PlanSchema
  import PlanRun
  import UpdateQueue
  import UpdateOrder

  // ---------- Eligible containers ----------

  predicate Eligible(c: Info, onlyRunning: bool) {
    !IsProtected(c) && (c.running || !onlyRunning)
  }

  function EligibleOf(containers: seq<Info>, onlyRunning: bool): seq<Info> {
    if containers == [] then []
    else
      var last := containers[|containers| - 1];
      EligibleOf(containers[..|containers| - 1], onlyRunning) + (if Eligible(last, onlyRunning) then [last] else [])
  }

  function Names(containers: seq<Info>): set<string> {
    set i | 0 <= i < |containers| :: containers[i].name
  }

  lemma {:induction false} EligibleMembers(containers: seq<Info>, onlyRunning: bool)
    ensures forall c :: c in EligibleOf(containers, onlyRunning) <==> c in containers && Eligible(c, onlyRunning)
  {
    if containers != [] {
      var front, last := containers[..|containers| - 1], containers[|containers| - 1];
      assert containers == front + [last];
      EligibleMembers(front, onlyRunning);
    }
  }

  /** What is left stands in the order of the list. */
  lemma {:induction false} EligibleInOrder(containers: seq<Info>, onlyRunning: bool, i: nat, j: nat)
    requires i < j < |EligibleOf(containers, onlyRunning)|
    ensures exists k, l :: 0 <= k < l < |containers| && containers[k] == EligibleOf(containers, onlyRunning)[i]
                           && containers[l] == EligibleOf(containers, onlyRunning)[j]
  {
    var front, last := containers[..|containers| - 1], containers[|containers| - 1];
    var kept := EligibleOf(front, onlyRunning);
    if j < |kept| {
      EligibleInOrder(front, onlyRunning, i, j);
      var k, l :| 0 <= k < l < |front| && front[k] == kept[i] && front[l] == kept[j];
      assert containers[k] == front[k] && containers[l] == front[l];
    } else {
      EligibleMembers(front, onlyRunning);
      assert kept[i] in front;
      var k :| 0 <= k < |front| && front[k] == kept[i];
      assert containers[k] == front[k] && containers[|front|] == last;
    }
  }

  lemma {:induction false} EligibleDistinct(containers: seq<Info>, onlyRunning: bool)
    requires PlanRun.NamedContainers(containers)
    ensures PlanRun.NamedContainers(EligibleOf(containers, onlyRunning))
  {
    if containers != [] {
      var front, last := containers[..|containers| - 1], containers[|containers| - 1];
      EligibleDistinct(front, onlyRunning);
      EligibleMembers(front, onlyRunning);
      var kept := EligibleOf(front, onlyRunning);
      forall i | 0 <= i < |kept| ensures kept[i].name != last.name {
        assert kept[i] in kept;
        var k :| 0 <= k < |front| && front[k] == kept[i];
        assert containers[k] == front[k];
      }
    }
  }

  /** The word `true` in any mixture of cases. */
  predicate SaysTrue(s: string) {
    |s| == 4 && s[0] in "tT" && s[1] in "rR" && s[2] in "uU" && s[3] in "eE"
  }

  lemma TrueRead(s: string)
    ensures Lower(s) == "true" <==> SaysTrue(s)
  {
    if |s| == 4 {
      var low := Lower(s);
      assert low == "true" <==> low[0] == 't' && low[1] == 'r' && low[2] == 'u' && low[3] == 'e';
    }
  }

  /** Left out are the containers that a label protects and, if so set, those that do not run. */
  lemma EligibleRead(containers: seq<Info>, onlyRunning: bool, c: Info)
    ensures c in EligibleOf(containers, onlyRunning) <==>
            && c in containers && (c.running || !onlyRunning)
            && !("dev.quenary.tugtainer.protected" in c.labels &&
                 SaysTrue(c.labels["dev.quenary.tugtainer.protected"]))
  {
    EligibleMembers(containers, onlyRunning);
    TrueRead(Get(c.labels, TUGTAINER_PROTECTED_LABEL, "false"));
  }

  method FilterEligible(containers: seq<Info>, onlyRunning: bool) returns (kept: seq<Info>)
    ensures kept == EligibleOf(containers, onlyRunning)
  {
    kept := [];
    for i := 0 to |containers|
      invariant kept == EligibleOf(containers[..i], onlyRunning)
    {
      assert containers[..i + 1][..i] == containers[..i];
      if !IsProtected(containers[i]) && (containers[i].running || !onlyRunning) {
        kept := kept + [containers[i]];
      }
    }
    assert containers[..|containers|] == containers;
  }

  // ---------- Updatable containers ----------

  predicate DelayOver(row: Row, globalDelay: int, now: int) {
    var delay := if row.delayUpdateFor.Some? then row.delayUpdateFor.value else globalDelay;
    delay > 0 && row.remoteDigestsChangedAt.Some? ==> now - row.remoteDigestsChangedAt.value >= delay
  }

  /**
   Whether a listed container is updated: manually whenever an update is available, else also by
   setting and delay.
   */
  predicate Selected(rows: Rows, name: string, manual: bool, globalDelay: int, now: int) {
    && name in rows && rows[name].updateAvailable
    && (manual || (rows[name].updateEnabled && DelayOver(rows[name], globalDelay, now)))
  }

  /** A manual list that is empty after the filter counts as a scheduled run. */
  function ToUpdate(eligible: seq<Info>, manual: seq<Info>, rows: Rows, globalDelay: int, now: int): set<string> {
    var source := if manual != [] then manual else eligible;
    set i | 0 <= i < |source| && Selected(rows, source[i].name, manual != [], globalDelay, now) :: source[i].name
  }

  /**
   A container is taken for an available update: every one that was asked for, or else, if none is left of
   those, every one that has updates enabled and whose delay, its own or the global one, is zero or over.
   */
  lemma UpdatableRead(eligible: seq<Info>, manual: seq<Info>, rows: Rows, globalDelay: int, now: int, n: string)
    ensures n in ToUpdate(eligible, manual, rows, globalDelay, now) <==>
            && n in Names(if manual != [] then manual else eligible)
            && n in rows && rows[n].updateAvailable
            && (manual == [] ==>
                  && rows[n].updateEnabled
                  && (rows[n].remoteDigestsChangedAt.Some? ==>
                        var delay := if rows[n].delayUpdateFor.Some? then rows[n].delayUpdateFor.value else globalDelay;
                        delay <= 0 || now >= rows[n].remoteDigestsChangedAt.value + delay))
  {
    var source := if manual != [] then manual else eligible;
    if n in Names(source) && Selected(rows, n, manual != [], globalDelay, now) {
      var i :| 0 <= i < |source| && source[i].name == n;
      assert n in ToUpdate(eligible, manual, rows, globalDelay, now);
    }
  }

  method SelectUpdatable(eligible: seq<Info>, manual: seq<Info>, rows: Rows, globalDelay: int, now: int)
    returns (toUpdate: set<string>)
    ensures toUpdate == ToUpdate(eligible, manual, rows, globalDelay, now)
  {
    toUpdate := {};
    if manual != [] {
      for i := 0 to |manual|
        invariant toUpdate == set k | 0 <= k < i && Selected(rows, manual[k].name, true, globalDelay,
                                                             now) :: manual[k].name
      {
        var name := manual[i].name;
        if name in rows && rows[name].updateAvailable {
          toUpdate := toUpdate + {name};
        }
      }
    } else {
      for i := 0 to |eligible|
        invariant toUpdate == set k | 0 <= k < i && Selected(rows, eligible[k].name, false, globalDelay,
                                                             now) :: eligible[k].name
      {
        var name := eligible[i].name;
        if !(name in rows && rows[name].updateAvailable && rows[name].updateEnabled) {
          continue;
        }
        var row := rows[name];
        var delay := if row.delayUpdateFor.Some? then row.delayUpdateFor.value else globalDelay;
        if delay > 0 && row.remoteDigestsChangedAt.Some? {
          var elapsed := now - row.remoteDigestsChangedAt.value;
          if elapsed < delay {
            continue;
          }
        }
        toUpdate := toUpdate + {name};
      }
    }
  }

  // ---------- Dependency maps ----------

  /** The container that last claimed a service of a compose project; empty when none did. */
  function Neighbor(containers: seq<Info>, compose: string, service: string): string {
    if containers == [] then ""
    else
      var last := containers[|containers| - 1];
      if service != "" && compose != "" && ServiceName(last) == service && ComposeId(last) == compose then last.name
      else Neighbor(containers[..|containers| - 1], compose, service)
  }

  function DirectDependencies(c: Info, containers: seq<Info>): set<string> {
    LabelDependencies(c.labels, TUGTAINER_DEPENDS_ON_LABEL) +
    if ComposeId(c) == "" then {}
    else set d | d in LabelDependencies(c.labels, DOCKER_COMPOSE_DEPENDS_ON_LABEL)
                 && Neighbor(containers, ComposeId(c), d) != "" :: Neighbor(containers, ComposeId(c), d)
  }

  /** The dependency map of the first containers of the list `all`. */
  function DependencyMap(containers: seq<Info>, all: seq<Info>): Dependencies {
    if containers == [] then map[]
    else
      var last := containers[|containers| - 1];
      DependencyMap(containers[..|containers| - 1], all)[last.name := DirectDependencies(last, all)]
  }

  lemma {:induction false} DependencyMapKeys(containers: seq<Info>, all: seq<Info>)
    ensures DependencyMap(containers, all).Keys == Names(containers)
  {
    if containers != [] {
      var front, last := containers[..|containers| - 1], containers[|containers| - 1];
      DependencyMapKeys(front, all);
      NamesNext(front, last);
      assert containers == front + [last];
    }
  }

  /** Every container is mapped to what its labels say. */
  lemma {:induction false} DependencyMapAt(containers: seq<Info>, all: seq<Info>, i: nat)
    requires i < |containers| && forall j, k :: 0 <= j < k < |containers| ==> containers[j].name != containers[k].name
    ensures var deps := DependencyMap(containers, all);
            containers[i].name in deps && deps[containers[i].name] == DirectDependencies(containers[i], all)
  {
    var n := |containers| - 1;
    var front, last := containers[..n], containers[n];
    var own := DirectDependencies(containers[i], all);
    assert DependencyMap(containers, all) == DependencyMap(front, all)[last.name := DirectDependencies(last, all)];
    if i < n {
      DependencyMapAt(front, all, i);
      assert front[i] == containers[i] && containers[i].name != last.name;
    }
  }

  // ---------- Dependencies, read off the labels ----------

  /** What tells compose projects apart. */
  function Project(c: Info): string {
    Get(c.labels, COMPOSE_PROJECT_LABEL, "") + ":" + Get(c.labels, COMPOSE_FILES_LABEL, "")
  }

  predicate InProject(c: Info) {
    Get(c.labels, COMPOSE_PROJECT_LABEL, "") != "" || Get(c.labels, COMPOSE_FILES_LABEL, "") != ""
  }

  predicate Provides(other: Info, service: string, project: string) {
    Get(other.labels, COMPOSE_SERVICE_LABEL, "") == service && Project(other) == project
  }

  /** Of all containers that provide the service in the project, the one listed last. */
  predicate ProvidesLast(containers: seq<Info>, i: nat, service: string, project: string)
    requires i < |containers|
  {
    && Provides(containers[i], service, project)
    && forall j :: i < j < |containers| ==> !Provides(containers[j], service, project)
  }

  /**
   What the labels say: `d` is a name in the container's own dependency label, or the container that
   provides a service named in its compose label within its project.
   */
  ghost predicate LabelsName(containers: seq<Info>, c: Info, d: string) {
    || d in LabelDependencies(c.labels, TUGTAINER_DEPENDS_ON_LABEL)
    || (d != "" && InProject(c) &&
        exists i, service :: 0 <= i < |containers| && ProvidesLast(containers, i, service, Project(c))
                             && service != "" && service in LabelDependencies(c.labels, DOCKER_COMPOSE_DEPENDS_ON_LABEL)
                             && containers[i].name == d)
  }

  lemma {:induction false} NeighborAt(containers: seq<Info>, c: Info, service: string, i: nat)
    requires InProject(c) && service != "" && i < |containers| && ProvidesLast(containers, i, service, Project(c))
    ensures Neighbor(containers, ComposeId(c), service) == containers[i].name
  {
    var front, last := containers[..|containers| - 1], containers[|containers| - 1];
    ProjectIs(last, c);
    if i < |front| {
      assert !Provides(last, service, Project(c));
      assert forall j :: i < j < |front| ==> front[j] == containers[j];
      NeighborAt(front, c, service, i);
    }
  }

  lemma {:induction false} NeighborNone(containers: seq<Info>, c: Info, service: string)
    requires InProject(c) && forall i :: 0 <= i < |containers| ==> !Provides(containers[i], service, Project(c))
    ensures Neighbor(containers, ComposeId(c), service) == ""
  {
    if containers != [] {
      var front, last := containers[..|containers| - 1], containers[|containers| - 1];
      ProjectIs(last, c);
      assert forall j :: 0 <= j < |front| ==> front[j] == containers[j];
      NeighborNone(front, c, service);
    }
  }

  lemma LastProvider(containers: seq<Info>, service: string, project: string, k: nat) returns (i: nat)
    requires k < |containers| && Provides(containers[k], service, project)
    ensures i < |containers| && ProvidesLast(containers, i, service, project)
  {
    i := |containers| - 1;
    while !Provides(containers[i], service, project)
      invariant k <= i < |containers|
      invariant forall j :: i < j < |containers| ==> !Provides(containers[j], service, project)
      decreases i
    {
      i := i - 1;
    }
  }

  lemma ProjectIs(other: Info, c: Info)
    requires InProject(c)
    ensures ComposeId(other) == ComposeId(c) <==> Project(other) == Project(c)
  {
    if !InProject(other) {
      assert Project(other) == ":";
    }
  }

  lemma ServiceRead(containers: seq<Info>, c: Info, d: string, service: string)
    requires InProject(c) && service != "" && d != ""
    requires service in LabelDependencies(c.labels, DOCKER_COMPOSE_DEPENDS_ON_LABEL)
    requires Neighbor(containers, ComposeId(c), service) == d
    ensures LabelsName(containers, c, d)
  {
    if k :| 0 <= k < |containers| && Provides(containers[k], service, Project(c)) {
      var i := LastProvider(containers, service, Project(c), k);
      NeighborAt(containers, c, service, i);
    } else {
      NeighborNone(containers, c, service);
    }
  }

  lemma NamesFilled(labels: map<string, string>, key: string)
    ensures "" !in LabelDependencies(labels, key)
  {
  }

  lemma DependenciesRead(containers: seq<Info>, c: Info, d: string)
    ensures d in DirectDependencies(c, containers) <==> LabelsName(containers, c, d)
  {
    if InProject(c) && d != "" {
      var named := LabelDependencies(c.labels, DOCKER_COMPOSE_DEPENDS_ON_LABEL);
      NamesFilled(c.labels, DOCKER_COMPOSE_DEPENDS_ON_LABEL);
      forall service | service in named && Neighbor(containers, ComposeId(c), service) == d
        ensures LabelsName(containers, c, d)
      {
        ServiceRead(containers, c, d, service);
      }
      forall i, service | 0 <= i < |containers| && ProvidesLast(containers, i, service, Project(c)) && service in named
                          && containers[i].name == d
        ensures Neighbor(containers, ComposeId(c), service) == d
      {
        NeighborAt(containers, c, service, i);
      }
    }
  }

  predicate DistinctNames(containers: seq<Info>) {
    forall i, j :: 0 <= i < j < |containers| ==> containers[i].name != containers[j].name
  }

  /** The map holds for every container exactly what the labels say. */
  ghost predicate MapsLabels(containers: seq<Info>, deps: Dependencies) {
    forall i, d :: 0 <= i < |containers| ==>
      (DependsOn(deps, containers[i].name, d) <==> LabelsName(containers, containers[i], d))
  }

  lemma MapRead(containers: seq<Info>)
    requires DistinctNames(containers)
    ensures MapsLabels(containers, DependencyMap(containers, containers))
  {
    forall i, d | 0 <= i < |containers|
      ensures DependsOn(DependencyMap(containers, containers), containers[i].name, d) <==>
              LabelsName(containers, containers[i], d)
    {
      DependencyMapAt(containers, containers, i);
      DependenciesRead(containers, containers[i], d);
    }
  }

  /** Of two containers of a project the one whose compose label names the other one's service depends on it. */
  lemma ComposeRead(db: Info, web: Info, project: string, files: string, service: string)
    requires project != "" && PlainName(service) && db.name != ""
    requires Get(db.labels, "com.docker.compose.project", "") == project
    requires Get(web.labels, "com.docker.compose.project", "") == project
    requires Get(db.labels, "com.docker.compose.project.config_files", "") == files
    requires Get(web.labels, "com.docker.compose.project.config_files", "") == files
    requires Get(db.labels, "com.docker.compose.service", "") == service
    requires Get(web.labels, "com.docker.compose.service", "") != service
    requires "com.docker.compose.depends_on" in web.labels && web.labels["com.docker.compose.depends_on"] == service
    ensures LabelsName([db, web], web, db.name)
  {
    NameRead(web.labels, service, DOCKER_COMPOSE_DEPENDS_ON_LABEL);
    assert ProvidesLast([db, web], 0, service, Project(web));
  }

  /** A label that is a plain name is read as that name. */
  lemma NameRead(labels: map<string, string>, name: string, key: string)
    requires PlainName(name) && key in labels && labels[key] == name
    ensures LabelDependencies(labels, key) == {name}
  {
    assert EntryOf(name, name) by {
      assert "" + name + "" + "" == name;
      assert EntryFor(name, name, "", "", "");
    }
    LabelRoundTrip([name], [name], labels, key);
    assert labels[key := name] == labels && [name][0] == name;
  }

  type ComposeNames = map<string, map<string, string>>

  function LookUp(names: ComposeNames, compose: string, service: string): string {
    if compose in names && service in names[compose] then names[compose][service] else ""
  }

  method ComposeServiceNames(containers: seq<Info>) returns (names: ComposeNames)
    ensures forall compose, service :: LookUp(names, compose, service) == Neighbor(containers, compose, service)
  {
    names := map[];
    for i := 0 to |containers|
      invariant forall compose, service ::
                  LookUp(names, compose, service) == Neighbor(containers[..i], compose, service)
    {
      assert containers[..i + 1][..i] == containers[..i];
      var service, compose := ServiceName(containers[i]), ComposeId(containers[i]);
      if service != "" && compose != "" {
        var known := if compose in names then names[compose] else map[];
        names := names[compose := known[service := containers[i].name]];
      }
    }
    assert containers[..|containers|] == containers;
  }

  method ComposeDependencies(c: Info, containers: seq<Info>, names: ComposeNames) returns (found: set<string>)
    requires forall compose, service :: LookUp(names, compose, service) == Neighbor(containers, compose, service)
    ensures found == if ComposeId(c) == "" then {}
                     else set d | d in LabelDependencies(c.labels, DOCKER_COMPOSE_DEPENDS_ON_LABEL)
                                  && Neighbor(containers, ComposeId(c), d) != "" ::
                                Neighbor(containers, ComposeId(c), d)
  {
    found := {};
    var compose := ComposeId(c);
    if compose != "" {
      var all := GetDependencies(c, DOCKER_COMPOSE_DEPENDS_ON_LABEL);
      var rest := all;
      while rest != {}
        invariant rest <= all
        invariant found == set d | d in all - rest && Neighbor(containers, compose, d) != "" ::
                             Neighbor(containers, compose, d)
        decreases rest
      {
        var d :| d in rest;
        rest := rest - {d};
        var name := LookUp(names, compose, d);
        ghost var before := found;
        if name != "" {
          found := found + {name};
        }
        assert all - rest == (all - (rest + {d})) + {d};
      }
      assert all - {} == all;
    }
  }

  method BuildDependencies(containers: seq<Info>) returns (deps: Dependencies)
    ensures deps == DependencyMap(containers, containers)
    ensures DistinctNames(containers) ==> MapsLabels(containers, deps)
  {
    var names := ComposeServiceNames(containers);
    deps := map[];
    for i := 0 to |containers|
      invariant deps == DependencyMap(containers[..i], containers)
    {
      assert containers[..i + 1][..i] == containers[..i];
      var own := GetDependencies(containers[i], TUGTAINER_DEPENDS_ON_LABEL);
      var composed := ComposeDependencies(containers[i], containers, names);
      assert own + composed == DirectDependencies(containers[i], containers);
      deps := deps[containers[i].name := own + composed];
    }
    assert containers[..|containers|] == containers;
    if DistinctNames(containers) {
      MapRead(containers);
    }
  }

  lemma NamesNext(containers: seq<Info>, c: Info)
    ensures Names(containers + [c]) == Names(containers) + {c.name}
  {
    var more := containers + [c];
    assert more[|containers|] == c;
    forall n | n in Names(containers) ensures n in Names(more) {
      var i :| 0 <= i < |containers| && containers[i].name == n;
      assert more[i].name == n;
    }
  }

  lemma DependableAdded(dependables: Dependencies, dep: string, name: string, b: string, a: string)
    ensures DependsOn(dependables[dep := Targets(dependables, dep) + {name}], b, a) <==>
            DependsOn(dependables, b, a) || (b == dep && a == name)
  {
  }

  method Invert(deps: Dependencies) returns (dependables: Dependencies)
    ensures Inverse(deps, dependables)
  {
    dependables := map[];
    var names := deps.Keys;
    while names != {}
      invariant names <= deps.Keys
      invariant forall a, b :: DependsOn(dependables, b, a) <==> DependsOn(deps, a, b) && a !in names
      decreases names
    {
      var name :| name in names;
      names := names - {name};
      ghost var before := dependables;
      var rest := deps[name];
      while rest != {}
        invariant rest <= deps[name]
        invariant forall a, b :: DependsOn(dependables, b, a) <==>
                    DependsOn(before, b, a) || (a == name && b in deps[name] && b !in rest)
        decreases rest
      {
        var dep :| dep in rest;
        ghost var mid, left := dependables, rest;
        rest := rest - {dep};
        dependables := dependables[dep := Targets(dependables, dep) + {name}];
        forall a, b
          ensures DependsOn(dependables, b, a) <==>
                    DependsOn(before, b, a) || (a == name && b in deps[name] && b !in rest)
        {
          DependableAdded(mid, dep, name, b, a);
          assert DependsOn(mid, b, a) <==> DependsOn(before, b, a) || (a == name && b in deps[name] && b !in left);
        }
      }
    }
  }

  // ---------- The plan ----------

  /** What a plan is, for eligible names `names`, updatable set `seeds` and dependency map `deps`. */
  ghost predicate IsPlan(plan: UpdatePlan, names: set<string>, seeds: set<string>, deps: Dependencies) {
    && plan.toUpdate == seeds * names
    && (forall n :: n in plan.affected <==> n !in seeds && exists s :: s in seeds && Reaches(deps, n, s))
    && plan.affected <= names
    && Distinct(plan.order)
    && (forall n :: n in plan.order <==> n in names && exists s :: s in seeds + plan.affected && Reaches(deps, s, n))
    && UpdateOrder.OrdersAmong(deps, plan.order, names)
  }

  /** Only eligible containers depend on anything, so everything affected is eligible. */
  lemma AffectedEligible(deps: Dependencies, dependables: Dependencies, seeds: set<string>, n: string)
    requires Inverse(deps, dependables) && UpdateQueue.IsAffected(dependables, seeds, n)
    ensures n in deps.Keys
  {
    var s :| s in seeds && Reaches(dependables, s, n);
    var p :| PathBetween(dependables, p, s, n);
    assert |p| >= 2;
    assert DependsOn(dependables, p[|p| - 2], p[|p| - 2 + 1]);
    assert DependsOn(deps, n, p[|p| - 2]);
  }

  lemma AffectedByDependencies(deps: Dependencies, dependables: Dependencies, seeds: set<string>, affected: set<string>)
    requires Inverse(deps, dependables)
    requires forall n :: n in affected <==> UpdateQueue.IsAffected(dependables, seeds, n)
    ensures forall n :: n in affected <==> n !in seeds && exists s :: s in seeds && Reaches(deps, n, s)
    ensures affected <= deps.Keys
  {
    forall n ensures n in affected <==> n !in seeds && exists s :: s in seeds && Reaches(deps, n, s) {
      if n in affected {
        var s :| s in seeds && Reaches(dependables, s, n);
        ReachesBackwards(deps, dependables, n, s);
      }
      if n !in seeds && exists s :: s in seeds && Reaches(deps, n, s) {
        var s :| s in seeds && Reaches(deps, n, s);
        ReachesBackwards(deps, dependables, n, s);
        assert UpdateQueue.IsAffected(dependables, seeds, n);
      }
    }
    forall n | n in affected ensures n in deps.Keys {
      AffectedEligible(deps, dependables, seeds, n);
    }
  }

  method OrderOf(deps: Dependencies, seeds: set<string>, names: set<string>) returns (order: seq<string>)
    ensures Distinct(order) && UpdateOrder.OrdersAmong(deps, order, names)
    ensures forall n :: n in order <==> n in names && exists s :: s in seeds && Reaches(deps, s, n)
  {
    var builder := new UpdateOrder.OrderBuilder(deps, UpdateQueue.AllNodes(deps) + seeds);
    builder.Build(seeds);
    order := UpdateOrder.Filter(builder.order, names);
    UpdateOrder.FilterKeepsOrder(deps, seeds, builder.order, names, order);
  }

  /** Without a dependency cycle among the updatable containers; with one the queue never empties. */
  method BuildUpdatePlan(containers: seq<Info>, manualFor: seq<Info>, rows: Rows, onlyRunning: bool, globalDelay: int,
                         now: int)
    returns (plan: UpdatePlan)
    requires PlanRun.NamedContainers(containers)
    requires var eligible, manual := EligibleOf(containers, onlyRunning), EligibleOf(manualFor, onlyRunning);
             AcyclicInside(DependencyMap(eligible, eligible), ToUpdate(eligible, manual, rows, globalDelay, now))
    ensures var eligible, manual := EligibleOf(containers, onlyRunning), EligibleOf(manualFor, onlyRunning);
            IsPlan(plan, Names(eligible), ToUpdate(eligible, manual, rows, globalDelay, now),
                   DependencyMap(eligible, eligible))
  {
    var eligible := FilterEligible(containers, onlyRunning);
    var manual := FilterEligible(manualFor, onlyRunning);
    EligibleDistinct(containers, onlyRunning);
    var toUpdate := SelectUpdatable(eligible, manual, rows, globalDelay, now);
    var dependsOn := BuildDependencies(eligible);
    DependencyMapKeys(eligible, eligible);
    var dependables := Invert(dependsOn);
    AcyclicBackwards(dependsOn, dependables, toUpdate);
    var affected := UpdateQueue.FindAffected(dependables, toUpdate);
    AffectedByDependencies(dependsOn, dependables, toUpdate, affected);
    var names := set i | 0 <= i < |eligible| :: eligible[i].name;
    var order := OrderOf(dependsOn, affected + toUpdate, names);
    plan := UpdatePlan(toUpdate * names, affected * names, order);
    assert affected * names == affected;
    assert affected + toUpdate == toUpdate + affected;
  }

  /**
   With a cycle of dependencies wholly among the updatable containers, self-dependency included, the
   queue is still not empty after any number of pops.
   */
  lemma CycleNeverPlanned(deps: Dependencies, dependables: Dependencies, seeds: set<string>,
                          queues: seq<seq<string>>, affecteds: seq<set<string>>)
    requires Inverse(deps, dependables) && !AcyclicInside(deps, seeds)
    requires UpdateQueue.IsRun(dependables, seeds, queues, affecteds)
    ensures forall n :: 0 <= n < |queues| ==> queues[n] != []
  {
    var p :| IsCycle(deps, p) && AllIn(p, seeds);
    BackwardsPath(deps, dependables, p);
    forall n | 0 <= n < |queues| ensures queues[n] != [] {
      UpdateQueue.CycleRunsForever(dependables, seeds, Backwards(p), queues, affecteds, n);
    }
  }

  /**
   An eligible, selected container that names itself among its dependencies is such a cycle, whatever
   else is on the host.
   */
  lemma SelfDependencyCycles(containers: seq<Info>, manualFor: seq<Info>, rows: Rows, onlyRunning: bool,
                             globalDelay: int, now: int, c: Info)
    requires PlanRun.NamedContainers(containers) && c in containers && Eligible(c, onlyRunning)
    requires c.name in LabelDependencies(c.labels, TUGTAINER_DEPENDS_ON_LABEL)
    requires c.name in ToUpdate(EligibleOf(containers, onlyRunning), EligibleOf(manualFor, onlyRunning), rows,
                                globalDelay, now)
    ensures var eligible, manual := EligibleOf(containers, onlyRunning), EligibleOf(manualFor, onlyRunning);
            !AcyclicInside(DependencyMap(eligible, eligible), ToUpdate(eligible, manual, rows, globalDelay, now))
  {
    var eligible := EligibleOf(containers, onlyRunning);
    EligibleMembers(containers, onlyRunning);
    EligibleDistinct(containers, onlyRunning);
    var i :| 0 <= i < |eligible| && eligible[i] == c;
    DependencyMapAt(eligible, eligible, i);
    var p := [c.name, c.name];
    assert DependsOn(DependencyMap(eligible, eligible), p[0], p[1]);
    assert IsCycle(DependencyMap(eligible, eligible), p);
  }

  /** A label that is the container's own name, as its owner would write it, names the container itself. */
  lemma OwnNameRead(c: Info, labels: map<string, string>)
    requires PlainName(c.name) && c.labels == labels[TUGTAINER_DEPENDS_ON_LABEL := c.name]
    ensures c.name in LabelDependencies(c.labels, TUGTAINER_DEPENDS_ON_LABEL)
  {
    NameRead(c.labels, c.name, TUGTAINER_DEPENDS_ON_LABEL);
  }

  // ---------- What a plan is good for ----------

  /** Updatable and affected are disjoint, all eligible, and closed under eligible dependents. */
  lemma PlanClosed(plan: UpdatePlan, names: set<string>, seeds: set<string>, deps: Dependencies)
    requires IsPlan(plan, names, seeds, deps)
    ensures plan.toUpdate !! plan.affected && plan.toUpdate + plan.affected <= names
    ensures PlanRun.DependentsIncluded(plan, deps, names)
    ensures forall n :: n in plan.toUpdate + plan.affected ==> n in plan.order
  {
    forall n, d | n in names && d in plan.toUpdate + plan.affected && DependsOn(deps, n, d)
      ensures n in plan.toUpdate + plan.affected
    {
      assert PathBetween(deps, [n, d], n, d);
      var s :| s in seeds && Reaches(deps, d, s) by {
        ReachesSelf(deps, d);
        assert d in seeds || d in plan.affected;
      }
      ReachesTransitive(deps, n, d, s);
    }
    forall n | n in plan.toUpdate + plan.affected ensures n in plan.order {
      ReachesSelf(deps, n);
    }
  }

  /**
   The plan by the labels: affected is what is not updated itself and names, in one of its labels, a
   container that is updated or affected.
   */
  lemma AffectedRead(eligible: seq<Info>, plan: UpdatePlan, seeds: set<string>, c: Info)
    requires DistinctNames(eligible) && IsPlan(plan, Names(eligible), seeds, DependencyMap(eligible, eligible))
    requires c in eligible
    ensures c.name in plan.affected <==>
            c.name !in seeds && exists d :: d in seeds + plan.affected && LabelsName(eligible, c, d)
    ensures c.name in plan.toUpdate <==> c.name in seeds
  {
    var deps := DependencyMap(eligible, eligible);
    MapRead(eligible);
    var k :| 0 <= k < |eligible| && eligible[k] == c;
    assert c.name in Names(eligible);
    forall d ensures DependsOn(deps, c.name, d) <==> LabelsName(eligible, c, d) {
      assert eligible[k] == c;
    }
    AffectedNext(plan, Names(eligible), seeds, deps, c.name);
  }

  /** Affected is who depends directly on somebody updated or affected. */
  lemma AffectedNext(plan: UpdatePlan, names: set<string>, seeds: set<string>, deps: Dependencies, n: string)
    requires IsPlan(plan, names, seeds, deps)
    ensures n in plan.affected <==> n !in seeds && exists d :: d in seeds + plan.affected && DependsOn(deps, n, d)
  {
    if n in plan.affected {
      var s :| s in seeds && Reaches(deps, n, s);
      var p :| PathBetween(deps, p, n, s);
      assert |p| >= 2 && DependsOn(deps, p[0], p[1]);
      assert PathBetween(deps, p[1..], p[1], s);
      assert p[1] in seeds + plan.affected;
    }
    if n !in seeds {
      if d :| d in seeds + plan.affected && DependsOn(deps, n, d) {
        ReachesSelf(deps, d);
        var s :| s in seeds && Reaches(deps, d, s);
        assert PathBetween(deps, [n, d], n, d);
        ReachesTransitive(deps, n, d, s);
      }
    }
  }

  /** Without dependency cycles every eligible dependency comes first. */
  lemma PlanTopological(plan: UpdatePlan, names: set<string>, seeds: set<string>, deps: Dependencies)
    requires IsPlan(plan, names, seeds, deps) && Acyclic(deps)
    ensures PlanRun.Topological(plan.order, deps, names)
  {
    forall i, d | 0 <= i < |plan.order| && d in names && DependsOn(deps, plan.order[i], d)
      ensures d in plan.order[..i]
    {
      UpdateOrder.AcyclicOrder(deps, plan.order, names, i, d);
    }
  }

  /** With no manual container left after the filter, the updatable names are those of a scheduled run. */
  lemma {:induction false} FilteredManualIsScheduled(eligible: seq<Info>, manualFor: seq<Info>, rows: Rows,
                                                     onlyRunning: bool, globalDelay: int, now: int)
    requires forall c :: c in manualFor ==> !Eligible(c, onlyRunning)
    ensures ToUpdate(eligible, EligibleOf(manualFor, onlyRunning), rows, globalDelay, now) ==
            ToUpdate(eligible, [], rows, globalDelay, now)
  {
    var kept := EligibleOf(manualFor, onlyRunning);
    assert kept != [] ==> kept[0] in kept;
    EligibleMembers(manualFor, onlyRunning);
  }

  /** A manual run updates exactly what was asked for only if something asked for is left after the filter. */
  lemma ManualOnlyAsked(eligible: seq<Info>, manualFor: seq<Info>, rows: Rows, onlyRunning: bool, globalDelay: int,
                        now: int)
    ensures (exists c :: c in manualFor && Eligible(c, onlyRunning)) ==>
              ToUpdate(eligible, EligibleOf(manualFor, onlyRunning), rows, globalDelay, now) <= Names(manualFor)
    ensures !(exists c :: c in manualFor && Eligible(c, onlyRunning)) ==>
              ToUpdate(eligible, EligibleOf(manualFor, onlyRunning), rows, globalDelay, now) ==
              ToUpdate(eligible, [], rows, globalDelay, now)
  {
    var kept := EligibleOf(manualFor, onlyRunning);
    EligibleMembers(manualFor, onlyRunning);
    if c :| c in manualFor && Eligible(c, onlyRunning) {
      assert c in kept;
      forall n | n in ToUpdate(eligible, kept, rows, globalDelay, now) ensures n in Names(manualFor) {
        var i :| 0 <= i < |kept| && kept[i].name == n;
        assert kept[i] in kept;
        var k :| 0 <= k < |manualFor| && manualFor[k] == kept[i];
        assert manualFor[k].name == n;
      }
    } else {
      FilteredManualIsScheduled(eligible, manualFor, rows, onlyRunning, globalDelay, now);
    }
  }
}
