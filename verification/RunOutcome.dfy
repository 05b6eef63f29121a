/** What a finished run of an update plan guarantees, whatever failed on the way. */
module RunOutcome {
  import opened Wrappers
  import opened Errors
  import opened ContainerInfo
  import opened NetKwargs
  import opened ContainerConfig
  import opened CallProtocol
  import opened HookScript
  import opened Docker
  import opened PlanSchema
  import opened Executor
  import opened PlanRun
  import opened Strings
  import ImageSpec

  /** A finished run, for lemmas about it. */
  ghost predicate Ended(run: Run, containers: seq<Info>, pulled: map<string, string>, prep: map<string, ItemState>)
    reads run.exec.host, run.items.Values
  {
    run.Done(containers, pulled, prep)
  }

  ghost function Last(run: Run): Moment
    reads run.exec.host
  {
    run.exec.host.Now()
  }

  /**
   With an order that puts dependencies first and a plan that includes all dependents: at every moment
   of the run, if an eligible container runs while a dependency that ran at the start does not, one of
   the two has a recorded error.
   */
  lemma SafeThroughout(run: Run, containers: seq<Info>, pulled: map<string, string>, prep: map<string, ItemState>)
    requires Ended(run, containers, pulled, prep)
    requires InOrder(run.plan, run.deps, run.eligible)
    ensures forall i :: 0 <= i < |run.exec.host.log| ==> Safe(run.start, run.exec.host.log[i], run.deps, run.eligible)
    ensures Safe(run.start, Last(run), run.deps, run.eligible)
  {
    assert run.Ordered() && run.HistoryOf(Last(run), run.exec.host.log);
  }

  lemma ItemFinished(run: Run, containers: seq<Info>, pulled: map<string, string>, prep: map<string, ItemState>,
                     n: string)
    requires Ended(run, containers, pulled, prep) && n in run.items
    ensures run.FromStart(n, run.items[n])
    ensures run.Finished(run.items[n], run.items[n].State(), Last(run), run.exec.host.faults)
  {
  }

  /** What it kept of its container, it kept from the start. */
  lemma ItemEquipped(run: Run, containers: seq<Info>, pulled: map<string, string>, prep: map<string, ItemState>,
                     n: string)
    requires Ended(run, containers, pulled, prep) && n in run.items
    ensures run.exec.Equipped(run.items[n], run.items[n].State())
  {
    assert run.SamePrep(run.States()[n], prep[n]) && run.exec.Equipped(run.items[n], prep[n]);
  }

  /** Every container's calls follow the protocol, and a container outside the plan is never called. */
  lemma CallsLawful(run: Run, containers: seq<Info>, pulled: map<string, string>, prep: map<string, ItemState>,
                    n: string)
    requires Ended(run, containers, pulled, prep)
    ensures Lawful(Last(run).CallsOf(n)) && StageOf(Last(run).CallsOf(n)) == Last(run).StageAt(n)
    ensures n !in run.items ==> Last(run).CallsOf(n) == []
  {
    var now := Last(run);
    assert StageOf(CallsIn(now.calls, n)) == StageIn(now.stages, n);
    if n in run.items {
      ItemFinished(run, containers, pulled, prep, n);
    } else {
      assert SameAt(n, run.start, now);
    }
  }

  /**
   A failed pre_stop or pre_update command leaves the container as it was: at every moment of the run
   it is exactly what it was at the start.
   */
  lemma FailedHookLeavesAlone(run: Run, containers: seq<Info>, pulled: map<string, string>,
                              prep: map<string, ItemState>, n: string, at: nat, i: nat)
    requires Ended(run, containers, pulled, prep)
    requires at < |Last(run).CallsOf(n)| && FailedBefore(Last(run).CallsOf(n)[at])
    requires i < |run.exec.host.log|
    ensures run.exec.host.log[i].At(n) == run.start.At(n)
  {
    var calls := Last(run).CallsOf(n);
    CallsLawful(run, containers, pulled, prep, n);
    FailedHookBars(calls);
    MomentGood(run, containers, pulled, prep, i);
    InPlaceBefore(run.start, run.exec.host.log[i], Last(run), run.items.Keys, n);
  }

  lemma MomentGood(run: Run, containers: seq<Info>, pulled: map<string, string>, prep: map<string, ItemState>, i: nat)
    requires Ended(run, containers, pulled, prep) && i < |run.exec.host.log|
    ensures GoodMoment(run.start, run.exec.host.log[i], Last(run), run.items.Keys)
  {
  }

  /** What is still in place at the end was in place before, and then as at the start. */
  lemma InPlaceBefore(start: Moment, m: Moment, last: Moment, members: set<string>, n: string)
    requires GoodMoment(start, m, last, members)
    ensures InPlace(StageOf(last.CallsOf(n))) ==> SameButRunning(start.At(n), m.At(n))
    ensures HooksOnly(StageOf(last.CallsOf(n))) ==> m.At(n) == start.At(n)
  {
    assert Explained(start, m, n) && m.CallsOf(n) <= last.CallsOf(n);
    InPlaceAllAlong(last.CallsOf(n), m.CallsOf(n));
    assert StageOf(CallsIn(m.calls, n)) == StageIn(m.stages, n);
  }

  /**
   A container that was running is disconnected, removed or created only after its pre_stop and
   pre_update hooks are done without errors and a stop was attempted.
   */
  lemma DrainedFirst(run: Run, containers: seq<Info>, pulled: map<string, string>, prep: map<string, ItemState>,
                     n: string, at: nat)
    requires Ended(run, containers, pulled, prep) && run.start.Runs(n)
    requires at < |Last(run).CallsOf(n)| && Replaces(Last(run).CallsOf(n)[at])
    ensures var calls := Last(run).CallsOf(n);
            && HooksDone(PreStop, true) in calls[..at] && HooksDone(PreUpdate, true) in calls[..at]
            && exists i :: 0 <= i < at && calls[i].Stop?
  {
    CallsLawful(run, containers, pulled, prep, n);
    StageFollowsVerdict(run, containers, pulled, prep, n);
    ReplacedOnlyDrained(Last(run).CallsOf(n), at);
  }

  /** The stage that goes with a verdict; `ran` is whether the container was running. */
  predicate StageFor(v: Verdict, ran: bool, stage: Stage) {
    match v
    case NoResult => InPlace(stage)
    case Updated => stage == if ran then Accepted else Rebuilding(false)
    case RolledBack => stage == Restored(ran)
    case Failed => Renewing(stage, ran) || stage == Restored(ran)
  }

  lemma HooksByStage(calls: seq<Call>, v: Verdict, ran: bool)
    requires StageFor(v, ran, StageOf(calls))
    ensures HookRan(calls, PostUpdate) <==> v == Updated && ran
    ensures v == RolledBack ==> HookRan(calls, PostRollback)
    ensures HookRan(calls, PostRollback) ==> v in {RolledBack, Failed}
  {
    AcceptedExactly(calls);
    RestoredExactly(calls);
  }

  /** The stage in which a member ends, by its verdict. */
  lemma StageFollowsVerdict(run: Run, containers: seq<Info>, pulled: map<string, string>, prep: map<string, ItemState>,
                            n: string)
    requires Ended(run, containers, pulled, prep) && n in run.items
    ensures StageFor(run.items[n].result, run.start.Runs(n), StageOf(Last(run).CallsOf(n)))
  {
    CallsLawful(run, containers, pulled, prep, n);
    ItemFinished(run, containers, pulled, prep, n);
  }

  /**
   The post_update hooks of a container have run exactly when it was running and is updated; those of
   a rollback have run for every container that is rolled back, and for no updated one.
   */
  lemma HooksFollowVerdict(run: Run, containers: seq<Info>, pulled: map<string, string>, prep: map<string, ItemState>,
                           n: string)
    requires Ended(run, containers, pulled, prep) && n in run.items
    ensures var calls, result := Last(run).CallsOf(n), run.items[n].result;
            && (HookRan(calls, PostUpdate) <==> result == Updated && run.start.Runs(n))
            && (result == RolledBack ==> HookRan(calls, PostRollback))
            && (HookRan(calls, PostRollback) ==> result in {RolledBack, Failed})
  {
    StageFollowsVerdict(run, containers, pulled, prep, n);
    HooksByStage(Last(run).CallsOf(n), run.items[n].result, run.start.Runs(n));
  }

  /**
   Only updatable members are ever removed or created: any other container keeps its image,
   configuration and networks at every moment, and one outside the plan is not touched at all.
   */
  lemma BystandersKept(run: Run, containers: seq<Info>, pulled: map<string, string>,
                       prep: map<string, ItemState>, n: string, i: nat)
    requires Ended(run, containers, pulled, prep) && i < |run.exec.host.log|
    requires n !in run.plan.toUpdate
    ensures SameButRunning(run.start.At(n), run.exec.host.log[i].At(n))
    ensures n !in run.plan.affected ==> run.exec.host.log[i].At(n) == run.start.At(n)
  {
    var m := run.exec.host.log[i];
    MomentGood(run, containers, pulled, prep, i);
    if n in run.items {
      NotUpdated(run, containers, pulled, prep, n);
      InPlaceBefore(run.start, m, Last(run), run.items.Keys, n);
    } else {
      assert SameAt(n, run.start, m);
    }
  }

  lemma NotUpdated(run: Run, containers: seq<Info>, pulled: map<string, string>, prep: map<string, ItemState>,
                   n: string)
    requires Ended(run, containers, pulled, prep) && n in run.items && n !in run.plan.toUpdate
    ensures InPlace(StageOf(Last(run).CallsOf(n))) && n in run.plan.affected
  {
    StageFollowsVerdict(run, containers, pulled, prep, n);
    ItemFinished(run, containers, pulled, prep, n);
  }

  lemma OutsideKept(run: Run, containers: seq<Info>, pulled: map<string, string>, prep: map<string, ItemState>,
                    n: string)
    requires Ended(run, containers, pulled, prep) && n !in run.items
    ensures Last(run).At(n) == run.start.At(n) && n !in Last(run).errored
  {
  }

  /** A member that is not updated ends as it was, but for running or not. */
  lemma AffectedKept(run: Run, containers: seq<Info>, pulled: map<string, string>, prep: map<string, ItemState>,
                     n: string)
    requires Ended(run, containers, pulled, prep) && n in run.items
    ensures n !in run.plan.toUpdate ==> SameButRunning(run.start.At(n), Last(run).At(n))
    ensures run.items[n].result == Failed ==> n in Last(run).errored
    ensures n in Last(run).errored <==> run.items[n].errors != []
  {
    ItemFinished(run, containers, pulled, prep, n);
  }

  /** A verdict is given exactly to updatable members that had everything they needed and no error. */
  lemma VerdictSound(run: Run, containers: seq<Info>, pulled: map<string, string>, prep: map<string, ItemState>,
                     n: string)
    requires Ended(run, containers, pulled, prep) && n in run.items
    ensures var item, last := run.items[n], Last(run).At(n);
            && (item.result != NoResult ==> n in run.plan.toUpdate)
            && (item.result == NoResult && n in run.plan.toUpdate ==> item.errors != [])
            && (last == None ==> item.result == Failed)
            && (item.result == Failed ==> item.errors != [])
            && (item.result == Updated ==>
                  && item.config.Some? && item.remoteImage.Some? && last.Some?
                  && last.value.config == Merged(item.config.value, item.remoteImage.value)
                    && last.value.running == run.start.Runs(n))
            && (item.result == RolledBack ==>
                  last.Some? && item.config == Some(last.value.config) && last.value.running)
            && (item.errors == [] ==> Last(run).Runs(n) == run.start.Runs(n))
  {
    ItemFinished(run, containers, pulled, prep, n);
  }

  /**
   The configuration of a container that ends updated or rolled back is the whole of what it had, as
   captured at the start: unchanged after a rollback, merged with the new image after an update.
   */
  lemma ConfigurationKept(run: Run, containers: seq<Info>, pulled: map<string, string>, prep: map<string, ItemState>,
                          n: string)
    requires Ended(run, containers, pulled, prep) && n in run.items && run.items[n].result in {Updated, RolledBack}
    ensures var item, last := run.items[n], Last(run).At(n);
            && item.origin.name == n && item.origin.spec.Some? && item.localImage.Some? && item.remoteImage.Some?
            && last.Some?
            && var captured := Captured(item.origin, item.localImage, NetArgsOf(item.origin, run.exec.oldApi));
               last.value.config ==
               if item.result == RolledBack then captured else Merged(captured, item.remoteImage.value)
  {
    ItemFinished(run, containers, pulled, prep, n);
  }

  /**
   Such a container runs its original command line exactly when that survives its image, whichever
   image it runs on.
   */
  lemma CommandLineKept(run: Run, containers: seq<Info>, pulled: map<string, string>, prep: map<string, ItemState>,
                        n: string, image: Image)
    requires Ended(run, containers, pulled, prep) && n in run.items && run.items[n].result in {Updated, RolledBack}
    ensures var item, last := run.items[n], Last(run).At(n);
            && last.Some?
            && (Argv(last.value.config, image) == OriginalArgv(item.origin) <==>
                ArgvSurvives(item.origin, item.localImage, image))
  {
    ConfigurationKept(run, containers, pulled, prep, n);
    var item := run.items[n];
    var net := NetArgsOf(item.origin, run.exec.oldApi);
    CapturedArgvIff(item.origin, item.localImage, image, net);
    ArgvAcrossUpdateIff(item.origin, item.localImage, item.remoteImage.value, net, image);
  }

  /**
   Field by field: it keeps every other setting that was filled and, unless the new image brings them itself,
   every label the client takes; its ports, name resolution and hostname are those it had, as far as its
   network mode allows.
   */
  lemma FieldsKept(run: Run, containers: seq<Info>, pulled: map<string, string>, prep: map<string, ItemState>,
                   n: string, k: string)
    requires Ended(run, containers, pulled, prep) && n in run.items && run.items[n].result in {Updated, RolledBack}
    ensures var item, last := run.items[n], Last(run).At(n);
            && item.origin in containers && item.origin.name == n && last.Some? && item.origin.spec.Some?
            && var c, cfg := item.origin, last.value.config;
               && cfg.image == c.spec.value && cfg.name == Some(n)
               && (k in cfg.settings <==> k in c.settings && Filled(c.settings[k]))
               && (k in cfg.settings ==> cfg.settings[k] == c.settings[k])
               && (k in cfg.labels <==>
                     k in c.labels && Passable(k) &&
                     (item.result == Updated && item.remoteImage.Some? ==> k !in item.remoteImage.value.labels))
               && (k in cfg.labels ==> cfg.labels[k] == c.labels[k])
               && (if c.networkMode == "host" || c.networkMode == "none" || "container:" <= c.networkMode then
                     cfg.net.dns == Dns([], [], []) && cfg.net.publish == [] && !cfg.net.publishAll
                     && cfg.net.hostname == ""
                   else
                     cfg.net.dns == c.dns && cfg.net.publish == c.publish && cfg.net.publishAll == c.publishAll
                     && cfg.net.hostname == if Embeds(c.id, c.hostname) then "" else c.hostname)
  {
    ConfigurationKept(run, containers, pulled, prep, n);
    ItemFinished(run, containers, pulled, prep, n);
    var item := run.items[n];
    var net := NetArgsOf(item.origin, run.exec.oldApi);
    OtherArgsKept(item.origin, run.exec.oldApi);
    CapturedFields(item.origin, item.localImage, net, k);
    MergedFields(item.origin, item.localImage, item.remoteImage.value, net, k);
    assert Filled(n) by {
      assert !Blank(n);
    }
  }

  /** It works in its original directory exactly when that survives its image. */
  lemma WorkdirKept(run: Run, containers: seq<Info>, pulled: map<string, string>, prep: map<string, ItemState>,
                    n: string, image: Image)
    requires Ended(run, containers, pulled, prep) && n in run.items && run.items[n].result in {Updated, RolledBack}
    ensures var item, last := run.items[n], Last(run).At(n);
            && last.Some?
            && (Workdir(last.value.config, image) == item.origin.workdir <==>
                WorkdirSurvives(item.origin, item.localImage, image))
  {
    ConfigurationKept(run, containers, pulled, prep, n);
    var item := run.items[n];
    WorkdirAcrossUpdateIff(item.origin, item.localImage, item.remoteImage.value,
                           NetArgsOf(item.origin, run.exec.oldApi), image);
  }

  /**
   The health check decides: a container that ran is updated only after a healthy verdict on its last
   inspection, and one that is rolled back without an error had an unhealthy one. A member that is only
   started ends without an error only if it was found running or healthy.
   */
  lemma HealthDecides(run: Run, containers: seq<Info>, pulled: map<string, string>, prep: map<string, ItemState>,
                      n: string)
    requires Ended(run, containers, pulled, prep) && n in run.items && run.start.Runs(n)
    ensures var item := run.items[n];
            && (item.result == Updated ==> run.exec.FoundHealthy(item.judged, item.container))
            && (item.result == RolledBack && item.errors == [] ==> run.exec.FoundUnhealthy(item.judged))
            && (item.result == NoResult && item.errors == [] ==>
                  item.container.running || run.exec.FoundHealthy(item.judged, item.container))
  {
    ItemFinished(run, containers, pulled, prep, n);
  }

  /**
   And it takes its time: unless a call raised needlessly or a request does not pass, an update is undone only
   after its new container was waited for in vain until the timeout was over.
   */
  lemma UndoneAfterWait(run: Run, containers: seq<Info>, pulled: map<string, string>, prep: map<string, ItemState>,
                        n: string)
    requires Ended(run, containers, pulled, prep) && n in run.items && run.items[n].result in {RolledBack, Failed}
    requires Needless(n) !in run.exec.host.faults && RequestsPass(run, n)
    ensures run.items[n].judged.Some?
    ensures run.items[n].judged.value.began.id != "" ==> Outwaited(run.items[n].judged.value, run.exec.timeout)
  {
    UndoneForReason(run, containers, pulled, prep, n);
    if run.items[n].judged.value.began.id != "" {
      OutwaitedBy(run.items[n].judged.value, run.exec.timeout);
    }
  }

  // ---------- Hooks as set ----------

  /** Where a container ends, by its verdict. */
  predicate EndsAt(ran: bool, inUpdate: bool, stage: Stage) {
    if ran then stage.RefusedAtStop? || (inUpdate && stage.RefusedAtUpdate?) || Onward(inUpdate, stage)
    else NeverRan(stage)
  }

  lemma EndsByVerdict(v: Verdict, ran: bool, inUpdate: bool, stage: Stage)
    requires StageFor(v, ran, stage) && (v != NoResult ==> inUpdate) && (v == NoResult ==> HeldAs(ran, inUpdate, stage))
    ensures EndsAt(ran, inUpdate, stage)
  {
  }

  lemma EndsOnward(run: Run, containers: seq<Info>, pulled: map<string, string>, prep: map<string, ItemState>,
                   n: string)
    requires Ended(run, containers, pulled, prep) && n in run.items
    ensures EndsAt(run.start.Runs(n), n in run.plan.toUpdate, StageOf(Last(run).CallsOf(n)))
  {
    StageFollowsVerdict(run, containers, pulled, prep, n);
    CallsLawful(run, containers, pulled, prep, n);
    ItemFinished(run, containers, pulled, prep, n);
    EndsByVerdict(run.items[n].result, run.start.Runs(n), n in run.plan.toUpdate, StageOf(Last(run).CallsOf(n)));
  }

  lemma HooksWereTold(run: Run, containers: seq<Info>, pulled: map<string, string>, prep: map<string, ItemState>,
                      n: string)
    requires Ended(run, containers, pulled, prep)
    ensures Told(Last(run).CallsOf(n), run.exec.HooksOf(n))
  {
    assert run.HooksTold(Last(run));
  }

  /**
   The hooks of a container are run as its owner set them. The log of one that ran begins with its whole
   pre_stop hook, for an update followed by its whole pre_update hook, and then the stop; after a failed
   command of either nothing follows. That of an updated one ends with its whole post_update hook, that of
   a rolled back one with its whole post_rollback hook. A new container that was found unhealthy had its
   whole pre_rollback hook while it was still in place.
   */
  lemma HooksAsSet(run: Run, containers: seq<Info>, pulled: map<string, string>, prep: map<string, ItemState>,
                   n: string)
    requires Ended(run, containers, pulled, prep) && n in run.items
    ensures var calls, h, item := Last(run).CallsOf(n), run.exec.HooksOf(n), run.items[n];
            && (run.start.Runs(n) ==> BeginsAsSet(calls, h, n in run.plan.toUpdate))
            && (run.start.Runs(n) && item.result == Updated ==> EndsWith(calls, PostUpdate, Commands(h, PostUpdate)))
            && (item.result == RolledBack ==> EndsWith(calls, PostRollback, Commands(h, PostRollback)))
            && (item.result in {RolledBack, Failed} && run.exec.FoundUnhealthy(item.judged) ==>
                  Warned(calls, Commands(h, PreRollback)))
  {
    var calls, h, item := Last(run).CallsOf(n), run.exec.HooksOf(n), run.items[n];
    HooksWereTold(run, containers, pulled, prep, n);
    EndsOnward(run, containers, pulled, prep, n);
    StageFollowsVerdict(run, containers, pulled, prep, n);
    ItemFinished(run, containers, pulled, prep, n);
    if run.start.Runs(n) {
      BeginsSo(calls, h, n in run.plan.toUpdate);
    }
    if run.start.Runs(n) && item.result == Updated {
      EndsAccepted(calls, h);
    }
    if item.result == RolledBack {
      EndsRestored(calls, h);
    }
  }

  /**
   No other hook command is ever run: every one stands within its whole hook, and for a container that was
   not running only those of a rollback do.
   */
  lemma HooksWhole(run: Run, containers: seq<Info>, pulled: map<string, string>, prep: map<string, ItemState>,
                   n: string, calls: seq<Call>, i: nat)
    requires Ended(run, containers, pulled, prep) && n in run.items && calls == Last(run).CallsOf(n)
    requires i < |calls| && calls[i].Hook?
    ensures exists b: nat :: WholeAt(calls, run.exec.HooksOf(n), i, b)
    ensures !run.start.Runs(n) ==> calls[i].kind in {PreRollback, PostRollback}
  {
    HooksWereTold(run, containers, pulled, prep, n);
    EndsOnward(run, containers, pulled, prep, n);
    WholeHooks(calls, run.exec.HooksOf(n), i);
    if !run.start.Runs(n) {
      OnlyRollbackHooks(calls, run.exec.HooksOf(n), i);
    }
  }

  // ---------- Reasons ----------

  /**
   Every error has its reason: a call that raised needlessly or a container without an image id, a
   request that fails its validation, a failed hook command, a connect command that the allowlist
   refuses or whose call raised needlessly, or an unhealthy verdict.
   */
  lemma ErrorsHaveReasons(run: Run, containers: seq<Info>, pulled: map<string, string>, prep: map<string, ItemState>,
                          n: string, e: Error)
    requires Ended(run, containers, pulled, prep) && n in run.items && e in run.items[n].errors
    ensures var item, faults := run.items[n], run.exec.host.faults;
            match e
            case AgentFailed => Needless(n) in faults || Imageless(item.origin)
            case InvalidConfig => !RequestsPass(run, n)
            case HookFailed(kind) => BrokenHook(n, kind) in faults
            case CommandFailed(cmd) => Allowlisted(run.exec.host.isIp, cmd) ==> Unplugged(n, NetworkOf(cmd)) in faults
            case TagFailed => Needless(n) in faults
            case Unhealthy => run.exec.FoundUnhealthy(item.judged)
  {
    ItemFinished(run, containers, pulled, prep, n);
    assert e in run.items[n].State().errors;
  }

  /**
   Both create requests an update may make pass the validation: the captured one and its merge with
   the pulled image.
   */
  ghost predicate RequestsPass(run: Run, n: string)
    requires n in run.items
    reads run.items.Values
  {
    var item, accepts := run.items[n], run.exec.host.accepts;
    && Capturable(item.origin, item.localImage, run.exec.oldApi, accepts)
    && (item.remoteImage.Some? ==>
          accepts(Merged(Captured(item.origin, item.localImage, NetArgsOf(item.origin, run.exec.oldApi)),
                         item.remoteImage.value)))
  }

  /** No call for the container raised needlessly, no hook before its stop failed, and it was not found unhealthy. */
  ghost predicate Untroubled(run: Run, n: string)
    requires n in run.items
    reads run.items.Values, run.exec.host
  {
    var faults := run.exec.host.faults;
    && Needless(n) !in faults && BrokenHook(n, PreStop) !in faults && BrokenHook(n, PreUpdate) !in faults
    && !run.exec.FoundUnhealthy(run.items[n].judged)
  }

  /** An update is undone only for an unhealthy verdict, a refused configuration, or a call that raised needlessly. */
  lemma UndoneForReason(run: Run, containers: seq<Info>, pulled: map<string, string>, prep: map<string, ItemState>,
                        n: string)
    requires Ended(run, containers, pulled, prep) && n in run.items && run.items[n].result in {RolledBack, Failed}
    ensures || run.exec.FoundUnhealthy(run.items[n].judged) || Needless(n) in run.exec.host.faults
            || !RequestsPass(run, n)
  {
    ItemFinished(run, containers, pulled, prep, n);
    if InvalidConfig in run.items[n].errors {
      ErrorsHaveReasons(run, containers, pulled, prep, n, InvalidConfig);
    }
  }

  lemma FirstError(errors: seq<Error>)
    ensures errors == [] || errors[0] in errors
  {
  }

  lemma WithoutVerdict(run: Run, containers: seq<Info>, pulled: map<string, string>, prep: map<string, ItemState>,
                       n: string)
    requires Ended(run, containers, pulled, prep) && n in run.items && run.items[n].result == NoResult
    ensures Early(run.items[n].errors) && (n in run.plan.toUpdate ==> run.items[n].errors != [])
  {
    ItemFinished(run, containers, pulled, prep, n);
  }

  /** An updatable container with an image id that is not troubled had no error when its turn came. */
  lemma NoEarlyError(run: Run, containers: seq<Info>, pulled: map<string, string>, prep: map<string, ItemState>,
                     n: string)
    requires Ended(run, containers, pulled, prep) && n in run.items && run.items[n].result == NoResult
    requires Untroubled(run, n) && RequestsPass(run, n) && !Imageless(run.items[n].origin)
    ensures n !in run.plan.toUpdate
  {
    WithoutVerdict(run, containers, pulled, prep, n);
    if run.items[n].errors != [] {
      FirstError(run.items[n].errors);
      ErrorsHaveReasons(run, containers, pulled, prep, n, run.items[n].errors[0]);
    }
  }

  /** If nothing of the kind happens, every updatable container with an image id ends updated, and runs as before. */
  lemma UpdatedUnlessTroubled(run: Run, containers: seq<Info>, pulled: map<string, string>,
                              prep: map<string, ItemState>, n: string)
    requires Ended(run, containers, pulled, prep) && n in run.plan.toUpdate && n in run.items
    requires Untroubled(run, n) && RequestsPass(run, n) && !Imageless(run.items[n].origin)
    ensures run.items[n].result == Updated && Last(run).Runs(n) == run.start.Runs(n)
  {
    VerdictSound(run, containers, pulled, prep, n);
    if run.items[n].result in {RolledBack, Failed} {
      UndoneForReason(run, containers, pulled, prep, n);
    } else if run.items[n].result == NoResult {
      NoEarlyError(run, containers, pulled, prep, n);
    }
  }

  /** Neither does any other member end with an error, and it runs as before. */
  lemma RestartedUnlessTroubled(run: Run, containers: seq<Info>, pulled: map<string, string>,
                                prep: map<string, ItemState>, n: string)
    requires Ended(run, containers, pulled, prep) && n in run.items && n !in run.plan.toUpdate
    requires Untroubled(run, n)
    ensures run.items[n].errors == [] && Last(run).Runs(n) == run.start.Runs(n)
  {
    ItemFinished(run, containers, pulled, prep, n);
    FirstError(run.items[n].errors);
  }

  /**
   Whatever errors it has, a member that ran and is not updated or undone runs again, unless a call
   for it raised needlessly.
   */
  lemma RunsAgain(run: Run, containers: seq<Info>, pulled: map<string, string>, prep: map<string, ItemState>, n: string)
    requires Ended(run, containers, pulled, prep) && n in run.items && run.items[n].result == NoResult
    requires run.start.Runs(n)
    requires Needless(n) !in run.exec.host.faults
    ensures Last(run).Runs(n)
  {
    ItemFinished(run, containers, pulled, prep, n);
  }

  // ---------- Networks ----------

  /** Every network missing at the end left the error of its connect command. */
  ghost predicate LostByError(origin: Info, before: set<string>, after: set<string>, errors: seq<Error>) {
    forall net :: net in before - after ==>
      exists a :: a in origin.networks && a.0 == net && CommandFailed(ConnectCommand(a.0, a.1, origin.name)) in errors
  }

  /** Where a container that ran ends that was on the networks `before`. */
  ghost predicate NetworksBack(origin: Info, before: set<string>, after: set<string>, errors: seq<Error>) {
    if before == {} then after == CreatedNetworks(ModeNetworks(origin))
    else
      && after <= before && LostByError(origin, before, after, errors)
      && (errors == [] ==> after == before)
  }

  lemma RestoredNetworks(isIp: string -> bool, origin: Info, after: set<string>, errors: seq<Error>, faults: set<Fault>)
    requires NetworksRestored(isIp, origin, after, errors, faults)
    ensures NetworksBack(origin, NetworkNames(origin.networks), after, errors)
  {
    if origin.networks != [] {
      assert origin.networks[0].0 in NetworkNames(origin.networks);
      forall net | net in NetworkNames(origin.networks) && net !in after
        ensures exists a ::
                  a in origin.networks && a.0 == net && CommandFailed(ConnectCommand(a.0, a.1, origin.name)) in errors
      {
        var i :| 0 <= i < |origin.networks| && origin.networks[i].0 == net;
        assert origin.networks[i] in origin.networks && net != MainKey(origin);
      }
    }
  }

  /** A container whose connect commands were run: updated after it had been running, or rolled back. */
  ghost predicate WasReconnected(run: Run, n: string)
    requires n in run.items
    reads run.items.Values
  {
    (run.start.Runs(n) && run.items[n].result == Updated) || run.items[n].result == RolledBack
  }

  /**
   Such a container is attached to its original networks, except those whose connect command left an
   error; without errors, to exactly the original ones. One without attachments is where its network
   mode puts it.
   */
  lemma NetworksKept(run: Run, containers: seq<Info>, pulled: map<string, string>, prep: map<string, ItemState>,
                     n: string)
    requires Ended(run, containers, pulled, prep) && n in run.items && WasReconnected(run, n)
    ensures var item := run.items[n];
            && item.origin.name == n && run.start.At(n).Some? && Last(run).At(n).Some?
            && NetworksBack(item.origin, run.start.At(n).value.networks, Last(run).At(n).value.networks, item.errors)
  {
    RestoredAtEnd(run, containers, pulled, prep, n);
    RestoredNetworks(run.exec.host.isIp, run.items[n].origin, Last(run).At(n).value.networks, run.items[n].errors,
                     run.exec.host.faults);
  }

  lemma RestoredAtEnd(run: Run, containers: seq<Info>, pulled: map<string, string>, prep: map<string, ItemState>,
                      n: string)
    requires Ended(run, containers, pulled, prep) && n in run.items && WasReconnected(run, n)
    ensures run.start.At(n).Some? && run.start.At(n).value.networks == NetworkNames(run.items[n].origin.networks)
    ensures Last(run).At(n).Some? && run.items[n].origin.name == n && DistinctNetworks(run.items[n].origin.networks)
    ensures NetworksRestored(run.exec.host.isIp, run.items[n].origin, Last(run).At(n).value.networks,
                             run.items[n].errors, run.exec.host.faults)
  {
    ItemFinished(run, containers, pulled, prep, n);
  }

  /**
   Which secondary attachments come back: never one that the allowlist refuses, and every other one
   unless its connect call raised needlessly.
   */
  lemma AttachmentBack(run: Run, containers: seq<Info>, pulled: map<string, string>, prep: map<string, ItemState>,
                       n: string, a: (string, Endpoint))
    requires Ended(run, containers, pulled, prep) && n in run.items && WasReconnected(run, n)
    requires a in run.items[n].origin.networks && a.0 != MainKey(run.items[n].origin)
    ensures Last(run).At(n).Some?
    ensures !Connectable(run.exec.host.isIp, a.0, a.1, n) ==> a.0 !in Last(run).At(n).value.networks
    ensures Connectable(run.exec.host.isIp, a.0, a.1, n) && Unplugged(n, a.0) !in run.exec.host.faults ==>
              a.0 in Last(run).At(n).value.networks
  {
    RestoredAtEnd(run, containers, pulled, prep, n);
    if a.0 in Last(run).At(n).value.networks {
      SameAttachment(run.exec.host.isIp, run.items[n].origin, a);
    }
  }

  lemma SameAttachment(isIp: string -> bool, origin: Info, a: (string, Endpoint))
    requires DistinctNetworks(origin.networks) && a in origin.networks && Reconnectable(isIp, origin, a.0)
    ensures Connectable(isIp, a.0, a.1, origin.name)
  {
    var b :| b in origin.networks && b.0 == a.0 && Connectable(isIp, b.0, b.1, origin.name);
    var i :| 0 <= i < |origin.networks| && origin.networks[i] == a;
    var j :| 0 <= j < |origin.networks| && origin.networks[j] == b;
    assert i == j;
  }

  lemma SameNetworks(isIp: string -> bool, origin: Info, after: set<string>)
    requires origin.networks != [] && MainKey(origin) in after && after <= NetworkNames(origin.networks)
    requires forall a :: a in origin.networks && a.0 != MainKey(origin) ==>
               (a.0 in after <==> Connectable(isIp, a.0, a.1, origin.name))
    ensures after == NetworkNames(origin.networks) <==>
            forall a :: a in origin.networks && a.0 != MainKey(origin) ==> Connectable(isIp, a.0, a.1, origin.name)
  {
    forall a | a in origin.networks ensures a.0 in NetworkNames(origin.networks) {
      var i :| 0 <= i < |origin.networks| && origin.networks[i] == a;
    }
    forall net | net in NetworkNames(origin.networks) ensures exists a :: a in origin.networks && a.0 == net {
      var i :| 0 <= i < |origin.networks| && origin.networks[i].0 == net;
      assert origin.networks[i] in origin.networks;
    }
  }

  /**
   Unless a connect call raised needlessly, it keeps its networks if and only if the allowlist lets
   every secondary one through.
   */
  lemma NetworksKeptIff(run: Run, containers: seq<Info>, pulled: map<string, string>, prep: map<string, ItemState>,
                        n: string)
    requires Ended(run, containers, pulled, prep) && n in run.items && WasReconnected(run, n)
    requires run.items[n].origin.networks != []
    requires forall a :: a in run.items[n].origin.networks ==> Unplugged(n, a.0) !in run.exec.host.faults
    ensures run.start.At(n).Some? && Last(run).At(n).Some?
    ensures Last(run).At(n).value.networks == run.start.At(n).value.networks <==>
            forall a :: a in run.items[n].origin.networks && a.0 != MainKey(run.items[n].origin) ==>
              Connectable(run.exec.host.isIp, a.0, a.1, n)
  {
    RestoredAtEnd(run, containers, pulled, prep, n);
    NetworksKept(run, containers, pulled, prep, n);
    var origin, after := run.items[n].origin, Last(run).At(n).value.networks;
    forall a | a in origin.networks && a.0 != MainKey(origin)
      ensures a.0 in after <==> Connectable(run.exec.host.isIp, a.0, a.1, n)
    {
      AttachmentBack(run, containers, pulled, prep, n, a);
    }
    assert origin.networks[0].0 in NetworkNames(origin.networks);
    SameNetworks(run.exec.host.isIp, origin, after);
  }

  /** A secondary attachment with a link is lost, whatever happens. */
  lemma LinkLost(run: Run, containers: seq<Info>, pulled: map<string, string>, prep: map<string, ItemState>,
                 n: string, a: (string, Endpoint))
    requires Ended(run, containers, pulled, prep) && n in run.items && WasReconnected(run, n)
    requires a in run.items[n].origin.networks && a.0 != MainKey(run.items[n].origin) && a.1.links != []
    ensures run.start.At(n).Some? && a.0 in run.start.At(n).value.networks
    ensures Last(run).At(n).Some? && a.0 !in Last(run).At(n).value.networks
  {
    AttachmentBack(run, containers, pulled, prep, n, a);
    RestoredAtEnd(run, containers, pulled, prep, n);
    var i :| 0 <= i < |run.items[n].origin.networks| && run.items[n].origin.networks[i] == a;
  }

  /**
   A container that was not running is updated without its connect commands: it ends on its primary
   network alone, so it keeps its networks if and only if it had one.
   */
  lemma StoppedKeepsPrimary(run: Run, containers: seq<Info>, pulled: map<string, string>, prep: map<string, ItemState>,
                            n: string)
    requires Ended(run, containers, pulled, prep) && n in run.items
    requires !run.start.Runs(n) && run.items[n].result == Updated
    ensures run.start.At(n).Some? && Last(run).At(n).Some?
    ensures var before, after := run.start.At(n).value.networks, Last(run).At(n).value.networks;
            OnPrimary(run.items[n].origin, before, after)
  {
    CreatedAtEnd(run, containers, pulled, prep, n);
    PrimaryAlone(run.items[n].origin, run.exec.oldApi);
  }

  lemma CreatedAtEnd(run: Run, containers: seq<Info>, pulled: map<string, string>, prep: map<string, ItemState>,
                     n: string)
    requires Ended(run, containers, pulled, prep) && n in run.items
    requires !run.start.Runs(n) && run.items[n].result == Updated
    ensures var origin, last := run.items[n].origin, Last(run).At(n);
            && run.start.At(n).Some? && run.start.At(n).value.networks == NetworkNames(origin.networks)
            && DockerNetworks(origin.networks) && last.Some?
            && last.value.networks == CreatedNetworks(NetArgsOf(origin, run.exec.oldApi).networks)
  {
    ConfigurationKept(run, containers, pulled, prep, n);
    ItemFinished(run, containers, pulled, prep, n);
  }

  /** Where a container ends that is created and not connected any further. */
  ghost predicate OnPrimary(origin: Info, before: set<string>, after: set<string>) {
    if before == {} then after == CreatedNetworks(ModeNetworks(origin))
    else |after| == 1 && after <= before && (after == before <==> |before| == 1)
  }

  lemma PrimaryAlone(origin: Info, oldApi: bool)
    requires DockerNetworks(origin.networks)
    ensures OnPrimary(origin, NetworkNames(origin.networks), CreatedNetworks(NetArgsOf(origin, oldApi).networks))
  {
    if origin.networks != [] {
      AttachmentsPartitioned(origin);
      var i :| 0 <= i < |origin.networks| && origin.networks[i].0 == MainKey(origin);
      CreatedOnPrimary(origin, oldApi);
      if |NetworkNames(origin.networks)| == 1 {
        SingletonIs(NetworkNames(origin.networks), MainKey(origin));
      }
    }
  }

  lemma SingletonIs(s: set<string>, x: string)
    requires |s| == 1 && x in s
    ensures s == {x}
  {
    assert |s - {x}| == 0;
  }

  // ---------- Images ----------

  /** An updatable member whose spec, however it is spelled, resolves to this reference. */
  ghost predicate Shares(run: Run, m: string, spec: string) {
    m in run.plan.toUpdate && run.Refers(m, spec)
  }

  /** Two spellings of one reference share it: with and without the tag `latest`, for one. */
  lemma SpellingsShare(run: Run, m: string, n: string, name: string)
    requires forall s :: run.exec.host.ref(s) == ImageSpec.Text(ImageSpec.ParseImageSpec(s))
    requires m in run.items && m in run.plan.toUpdate && run.items[m].imageSpec == Some(name)
    requires n in run.items && n in run.plan.toUpdate && run.items[n].imageSpec == Some(name + ":latest")
    requires !ImageSpec.HasTag(name) && (Has(name, '/') || !Has(name, ':'))
    ensures Shares(run, m, run.exec.host.ref(name)) && Shares(run, n, run.exec.host.ref(name))
  {
    ImageSpec.LatestSpelled(name);
  }

  /** The member at `j` of the order has this reference and was rolled back or failed. */
  ghost predicate UndoneAt(run: Run, j: nat, spec: string)
    reads run.items.Values
  {
    j < |run.plan.order| && run.Refers(run.plan.order[j], spec) &&
    run.items[run.plan.order[j]].result in {RolledBack, Failed}
  }

  /** The image of an updated container is where the tag of its reference pointed at its turn. */
  lemma UpdatedTag(run: Run, containers: seq<Info>, pulled: map<string, string>, prep: map<string, ItemState>, k: nat)
    requires Ended(run, containers, pulled, prep) && k < |run.plan.order| && run.plan.order[k] in run.items
    requires run.items[run.plan.order[k]].result == Updated
    ensures var n := run.plan.order[k];
            && run.items[n].imageSpec.Some? && run.exec.RefOf(run.items[n]) in pulled && Last(run).At(n).Some?
            && run.items[n].remoteImage.Some? && n in run.plan.toUpdate
            && run.TagAs(k, run.exec.RefOf(run.items[n]), Last(run).At(n).value.image, pulled, run.States())
  {
    var n := run.plan.order[k];
    ItemFinished(run, containers, pulled, prep, n);
    assert run.States()[n] == run.items[n].State();
    assert run.ImageFrom(k, pulled, Last(run), run.States());
  }

  lemma UndoneStates(run: Run, j: nat, spec: string)
    requires j < |run.plan.order|
    ensures UndoneAt(run, j, spec) == run.Undid(run.plan.order[j], spec, run.States())
    ensures run.plan.order[j] in run.items ==> run.States()[run.plan.order[j]] == run.items[run.plan.order[j]].State()
  {
  }

  /**
   As long as no earlier member with its reference was rolled back or failed, an updated container runs on the
   image that was pulled last for the reference.
   */
  lemma UpdatedFromLastPull(run: Run, containers: seq<Info>, pulled: map<string, string>, prep: map<string, ItemState>,
                            k: nat, l: nat, spec: string)
    requires Ended(run, containers, pulled, prep) && k < |run.plan.order| && run.plan.order[k] in run.items
    requires run.items[run.plan.order[k]].result == Updated && run.Refers(run.plan.order[k], spec)
    requires forall j :: 0 <= j < k ==> !UndoneAt(run, j, spec)
    requires l < |containers| && Shares(run, containers[l].name, spec)
    requires run.items[containers[l].name].remoteImage.Some?
    requires forall i :: l < i < |containers| ==> !Shares(run, containers[i].name, spec)
    ensures Last(run).At(run.plan.order[k]).Some?
    ensures Last(run).At(run.plan.order[k]).value.image == run.items[containers[l].name].remoteImage.value.id
  {
    UpdatedTag(run, containers, pulled, prep, k);
    forall j | 0 <= j < k ensures !run.Undid(run.plan.order[j], spec, run.States()) {
      UndoneStates(run, j, spec);
    }
    PulledLast(run, containers, pulled, prep, l, spec);
  }

  lemma PulledLast(run: Run, containers: seq<Info>, pulled: map<string, string>, prep: map<string, ItemState>, l: nat,
                   spec: string)
    requires Ended(run, containers, pulled, prep)
    requires l < |containers| && Shares(run, containers[l].name, spec)
    requires run.items[containers[l].name].remoteImage.Some?
    requires forall i :: l < i < |containers| ==> !Shares(run, containers[i].name, spec)
    ensures spec in pulled && pulled[spec] == run.items[containers[l].name].remoteImage.value.id
  {
    var m := containers[l].name;
    assert run.SamePrep(run.States()[m], prep[m]) && run.States()[m].remoteImage == run.items[m].remoteImage;
    assert run.PullTraced(containers, l, |containers|, prep, pulled);
  }

  /**
   Otherwise the last such member before it decides: if that one was re-tagged, the updated container
   runs on the image that member was running on at the start.
   */
  lemma UpdatedFromLastUndo(run: Run, containers: seq<Info>, pulled: map<string, string>, prep: map<string, ItemState>,
                            k: nat, j: nat, spec: string)
    requires Ended(run, containers, pulled, prep) && j < k < |run.plan.order| && run.plan.order[k] in run.items
    requires run.items[run.plan.order[k]].result == Updated && run.Refers(run.plan.order[k], spec)
    requires UndoneAt(run, j, spec) && forall i :: j < i < k ==> !UndoneAt(run, i, spec)
    requires TagFailed !in run.items[run.plan.order[j]].errors
    ensures var u, image := run.plan.order[j], Last(run).At(run.plan.order[k]);
            && run.items[u].localImage.Some? && image.Some? && image.value.image == run.items[u].localImage.value.id
            && (run.start.At(u).value.image != "" ==> image.value.image == run.start.At(u).value.image)
  {
    UpdatedTag(run, containers, pulled, prep, k);
    forall i | j <= i < k ensures UndoneAt(run, i, spec) == run.Undid(run.plan.order[i], spec, run.States()) {
      UndoneStates(run, i, spec);
    }
    UndoneStates(run, j, spec);
    assert run.LastUndone(j, k, spec, run.States());
    ItemFinished(run, containers, pulled, prep, run.plan.order[j]);
  }

  lemma UndoneShares(run: Run, containers: seq<Info>, pulled: map<string, string>, prep: map<string, ItemState>, j: nat,
                     spec: string)
    requires Ended(run, containers, pulled, prep) && UndoneAt(run, j, spec)
    ensures Shares(run, run.plan.order[j], spec)
  {
    ItemFinished(run, containers, pulled, prep, run.plan.order[j]);
  }

  /** Where a listed member stands in the order and in the list. */
  lemma PlacesOf(run: Run, containers: seq<Info>, pulled: map<string, string>, prep: map<string, ItemState>, n: string)
    returns (k: nat, l: nat)
    requires Ended(run, containers, pulled, prep) && n in run.items && Listed(containers, n)
    ensures k < |run.plan.order| && run.plan.order[k] == n
    ensures l < |containers| && containers[l].name == n && forall i :: l < i < |containers| ==> containers[i].name != n
  {
    ItemFinished(run, containers, pulled, prep, n);
    k :| 0 <= k < |run.plan.order| && run.plan.order[k] == n;
    l :| 0 <= l < |containers| && containers[l].name == n;
  }

  /** A container with a reference of its own runs on its own pulled image whenever it is updated. */
  lemma UpdatedOwnImage(run: Run, containers: seq<Info>, pulled: map<string, string>, prep: map<string, ItemState>,
                        n: string, spec: string)
    requires Ended(run, containers, pulled, prep) && n in run.items && Listed(containers, n)
    requires run.items[n].result == Updated && run.Refers(n, spec)
    requires forall m :: Shares(run, m, spec) ==> m == n
    ensures Last(run).At(n).Some? && run.items[n].remoteImage.Some?
    ensures Last(run).At(n).value.image == run.items[n].remoteImage.value.id
  {
    var k, l := PlacesOf(run, containers, pulled, prep, n);
    UpdatedTag(run, containers, pulled, prep, k);
    forall j | 0 <= j < k && UndoneAt(run, j, spec) ensures run.plan.order[j] == n {
      UndoneShares(run, containers, pulled, prep, j, spec);
    }
    UpdatedFromLastPull(run, containers, pulled, prep, k, l, spec);
  }

  /** A rolled back container whose re-tag went through runs on its original image, shared spec or not. */
  lemma RolledBackImage(run: Run, containers: seq<Info>, pulled: map<string, string>, prep: map<string, ItemState>,
                        n: string)
    requires Ended(run, containers, pulled, prep) && n in run.items
    requires run.items[n].result == RolledBack && TagFailed !in run.items[n].errors
    ensures Last(run).At(n).Some? && run.items[n].localImage.Some?
    ensures Last(run).At(n).value.image == run.items[n].localImage.value.id
    ensures run.start.At(n).value.image != "" ==> Last(run).At(n).value.image == run.start.At(n).value.image
  {
    ItemFinished(run, containers, pulled, prep, n);
  }
}
