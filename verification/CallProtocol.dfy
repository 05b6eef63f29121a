/**
 The order in which an update plan may call the agent for one container, as an automaton over the
 container's call log, and what every accepted log guarantees about hooks.
 */
module CallProtocol {
  import opened Errors

  /**
   A call made for one container, and whether it returned without raising. `HooksDone` marks that all
   commands of a hook, if any, have run, and whether none of them failed.
   */
  datatype Call =
    | Hook(kind: HookKind, command: string, ok: bool)
    | HooksDone(kind: HookKind, clean: bool)
    | Stop(ok: bool)
    | Start(ok: bool)
    | Detach(network: string, ok: bool)
    | Remove(ok: bool)
    | Create(ok: bool)
    | Connect(ok: bool)

  /** `drained` remembers whether the container was running and stopped for the update. */
  datatype Stage =
    | Untouched                     // at most error-free pre_stop commands
    | Willing                       // pre_stop is done, without errors
    | Armed                         // pre_update is done as well
    | RefusedAtStop(done: bool)     // a pre_stop command failed; whether pre_stop is done
    | RefusedAtUpdate(done: bool)   // a pre_update command failed; whether pre_update is done
    | Halted                        // a stop was attempted after pre_stop
    | Drained                       // a stop was attempted after pre_update
    | Resumed(drained: bool)        // started again without an update
    | Rebuilding(drained: bool)     // being replaced, by the new or by the previous configuration
    | Accepting                     // post_update commands are running
    | Accepted                      // post_update is done
    | Undoing(drained: bool)        // a failed replacement is being taken down
    | Restoring(drained: bool)      // the previous configuration is being created after a takedown
    | Closing(drained: bool)        // post_rollback commands are running
    | Restored(drained: bool)       // post_rollback is done
    | Illegal

  predicate Refused(s: Stage) {
    s.RefusedAtStop? || s.RefusedAtUpdate?
  }

  /** Nothing but hooks has been called. */
  predicate HooksOnly(s: Stage) {
    s.Untouched? || s.Willing? || s.Armed? || s.RefusedAtStop? || s.RefusedAtUpdate?
  }

  /** Neither removed nor created, nor about to be. */
  predicate InPlace(s: Stage) {
    HooksOnly(s) || s.Halted? || s.Drained? || s.Resumed?
  }

  /** Where a container stands while it is replaced; `drained` is whether it was running before. */
  predicate Reworking(s: Stage, drained: bool) {
    || s == (if drained then Drained else Untouched)
    || s == Rebuilding(drained) || s == Undoing(drained)
  }

  predicate Renewing(s: Stage, drained: bool) {
    s == Rebuilding(drained) || s == Restoring(drained)
  }

  function Undone(s: Stage): Stage {
    match s
    case Untouched => Undoing(false)
    case Drained => Undoing(true)
    case Rebuilding(d) => Undoing(d)
    case Undoing(d) => s
    case _ => Illegal
  }

  function AfterHook(s: Stage, kind: HookKind, ok: bool): Stage {
    match kind
    case PreStop =>
      if s.Untouched? then (if ok then Untouched else RefusedAtStop(false))
      else if s == RefusedAtStop(false) then s else Illegal
    case PreUpdate =>
      if s.Willing? then (if ok then Willing else RefusedAtUpdate(false))
      else if s == RefusedAtUpdate(false) then s else Illegal
    case PostUpdate => if s == Rebuilding(true) || s.Accepting? then Accepting else Illegal
    case PreRollback => Undone(s)
    case PostRollback => if s.Rebuilding? || s.Restoring? || s.Closing? then Closing(s.drained) else Illegal
  }

  /** A hook is done without errors exactly when none of its commands failed. */
  function AfterHooks(s: Stage, kind: HookKind, clean: bool): Stage {
    match kind
    case PreStop =>
      if clean then (if s.Untouched? then Willing else Illegal)
      else if s == RefusedAtStop(false) then RefusedAtStop(true) else Illegal
    case PreUpdate =>
      if clean then (if s.Willing? then Armed else Illegal)
      else if s == RefusedAtUpdate(false) then RefusedAtUpdate(true) else Illegal
    case PostUpdate => if s == Rebuilding(true) || s.Accepting? then Accepted else Illegal
    case PreRollback => Undone(s)
    case PostRollback => if s.Rebuilding? || s.Restoring? || s.Closing? then Restored(s.drained) else Illegal
  }

  function AfterStop(s: Stage): Stage {
    if s.Willing? then Halted else if s.Armed? || s.Drained? then Drained else Undone(s)
  }

  function AfterStart(s: Stage): Stage {
    if s.Halted? then Resumed(false) else if s.Drained? then Resumed(true)
    else if s.Rebuilding? || s.Restoring? then s else Illegal
  }

  function AfterClearing(s: Stage): Stage {
    match s
    case Untouched => Rebuilding(false)
    case Drained => Rebuilding(true)
    case Rebuilding(d) => s
    case Undoing(d) => s
    case _ => Illegal
  }

  function AfterCreate(s: Stage): Stage {
    if s.Undoing? then Restoring(s.drained) else AfterClearing(s)
  }

  function AfterConnect(s: Stage): Stage {
    if s.Rebuilding? || s.Restoring? then s else Illegal
  }

  function Next(s: Stage, call: Call): Stage {
    match call
    case Hook(kind, _, ok) => AfterHook(s, kind, ok)
    case HooksDone(kind, clean) => AfterHooks(s, kind, clean)
    case Stop(_) => AfterStop(s)
    case Start(_) => AfterStart(s)
    case Detach(_, _) => AfterClearing(s)
    case Remove(_) => AfterClearing(s)
    case Create(_) => AfterCreate(s)
    case Connect(_) => AfterConnect(s)
  }

  function StageOf(calls: seq<Call>): Stage {
    if calls == [] then Untouched else Next(StageOf(calls[..|calls| - 1]), calls[|calls| - 1])
  }

  predicate Lawful(calls: seq<Call>) {
    StageOf(calls) != Illegal
  }

  lemma StageAfter(calls: seq<Call>, call: Call)
    ensures StageOf(calls + [call]) == Next(StageOf(calls), call)
  {
    assert (calls + [call])[..|calls|] == calls;
  }

  /** Clearing out what an update left behind stays within the rework. */
  lemma ReworkingStays(s: Stage, drained: bool)
    requires Reworking(s, drained)
    ensures Reworking(AfterStop(s), drained) && Reworking(Undone(s), drained) && !Undone(s).Illegal?
    ensures Reworking(AfterClearing(s), drained) && AfterClearing(AfterClearing(s)) == AfterClearing(s)
  {
  }

  // ---------- What lawful logs guarantee ----------

  predicate FailedBefore(call: Call) {
    call.Hook? && !call.ok && (call.kind == PreStop || call.kind == PreUpdate)
  }

  predicate IsHook(call: Call, kind: HookKind) {
    call.Hook? && call.kind == kind
  }

  /** A call that takes the old container away or puts a new one in place. */
  predicate Replaces(call: Call) {
    call.Detach? || call.Remove? || call.Create?
  }

  /** A failed pre_stop or pre_update command: nothing but hooks is ever called for that container. */
  lemma {:induction false} FailedHookBars(calls: seq<Call>)
    requires Lawful(calls)
    ensures (exists i :: 0 <= i < |calls| && FailedBefore(calls[i])) <==> Refused(StageOf(calls))
    ensures HooksOnly(StageOf(calls)) ==> forall i :: 0 <= i < |calls| ==> calls[i].Hook? || calls[i].HooksDone?
  {
    if calls != [] {
      var front, last := calls[..|calls| - 1], calls[|calls| - 1];
      assert calls == front + [last];
      FailedHookBars(front);
      if Refused(StageOf(front)) {
        var i :| 0 <= i < |front| && FailedBefore(front[i]);
        assert FailedBefore(calls[i]);
      }
      if FailedBefore(last) {
        assert FailedBefore(calls[|calls| - 1]);
      }
    }
  }

  /** What happened before a stage that is reached only through pre_stop, or through pre_update as well. */
  lemma {:induction false} HooksDoneBefore(calls: seq<Call>)
    ensures StageOf(calls) in {Willing, Armed, Halted, Drained} || StageOf(calls).RefusedAtUpdate? ||
            StageOf(calls).Resumed? ==>
              HooksDone(PreStop, true) in calls
    ensures StageOf(calls) in {Armed, Drained} ==> HooksDone(PreUpdate, true) in calls
    ensures StageOf(calls).Untouched? || StageOf(calls).RefusedAtStop? ==> HooksDone(PreStop, true) !in calls
  {
    if calls != [] {
      var front, last := calls[..|calls| - 1], calls[|calls| - 1];
      assert calls == front + [last];
      HooksDoneBefore(front);
    }
  }

  /**
   pre_update runs only after pre_stop is done without errors, and neither runs once the container
   has been stopped.
   */
  lemma {:induction false} PreUpdateInPlace(calls: seq<Call>, at: nat)
    requires Lawful(calls) && at < |calls| && IsHook(calls[at], PreUpdate)
    ensures HooksDone(PreStop, true) in calls[..at]
    ensures forall i :: 0 <= i < at ==> calls[i].Hook? || calls[i].HooksDone?
    ensures forall i :: at < i < |calls| ==> !IsHook(calls[i], PreStop)
  {
    var front, last := calls[..|calls| - 1], calls[|calls| - 1];
    assert calls == front + [last];
    if at < |front| {
      PreUpdateInPlace(front, at);
      assert front[..at] == calls[..at];
      PastPreStop(front, at);
    } else {
      FailedHookBars(front);
      HooksDoneBefore(front);
    }
  }

  lemma {:induction false} PastPreStop(calls: seq<Call>, at: nat)
    requires Lawful(calls) && at < |calls| && IsHook(calls[at], PreUpdate)
    ensures !StageOf(calls).Untouched? && !StageOf(calls).RefusedAtStop?
  {
    var front, last := calls[..|calls| - 1], calls[|calls| - 1];
    assert calls == front + [last];
    if at < |front| {
      PastPreStop(front, at);
    }
  }

  /** Stages of a container that was running and is being, or has been, replaced. */
  predicate WasDrained(s: Stage) {
    s in {Rebuilding(true), Undoing(true), Restoring(true), Closing(true), Restored(true), Accepting, Accepted}
  }

  /**
   A running container is taken away or recreated only after pre_stop and pre_update are done without
   errors and a stop was attempted; one that is still in place is neither.
   */
  lemma {:induction false} ReplacedOnlyDrained(calls: seq<Call>, at: nat)
    requires InPlace(StageOf(calls)) || WasDrained(StageOf(calls))
    requires at < |calls| && Replaces(calls[at])
    ensures WasDrained(StageOf(calls))
    ensures HooksDone(PreStop, true) in calls[..at] && HooksDone(PreUpdate, true) in calls[..at]
    ensures exists i :: 0 <= i < at && calls[i].Stop?
  {
    var front, last := calls[..|calls| - 1], calls[|calls| - 1];
    assert calls == front + [last];
    if at < |front| {
      ReplacedOnlyDrained(front, at);
      assert front[..at] == calls[..at];
      var i :| 0 <= i < at && front[i].Stop?;
      assert calls[i].Stop?;
    } else {
      DrainedBefore(front);
      assert front == calls[..at];
      var i :| 0 <= i < |front| && front[i].Stop?;
      assert calls[i].Stop?;
    }
  }

  lemma NextDrained(s: Stage, call: Call)
    requires Next(s, call).Drained? || WasDrained(Next(s, call))
    ensures (s.Armed? && call.Stop?) || s.Drained? || WasDrained(s)
  {
  }

  lemma {:induction false} DrainedBefore(calls: seq<Call>)
    requires StageOf(calls).Drained? || WasDrained(StageOf(calls))
    ensures HooksDone(PreStop, true) in calls && HooksDone(PreUpdate, true) in calls
    ensures exists i :: 0 <= i < |calls| && calls[i].Stop?
  {
    var front, last := calls[..|calls| - 1], calls[|calls| - 1];
    assert calls == front + [last];
    NextDrained(StageOf(front), last);
    if StageOf(front).Armed? {
      HooksDoneBefore(front);
      assert calls[|front|].Stop?;
    } else {
      DrainedBefore(front);
      var i :| 0 <= i < |front| && front[i].Stop?;
      assert calls[i].Stop?;
    }
  }

  predicate HookRan(calls: seq<Call>, kind: HookKind) {
    HooksDone(kind, true) in calls || HooksDone(kind, false) in calls
  }

  /** post_update commands run only in an accepted update, one for which no pre_rollback ever runs. */
  lemma {:induction false} AcceptedExactly(calls: seq<Call>)
    requires Lawful(calls)
    ensures HookRan(calls, PostUpdate) <==> StageOf(calls).Accepted?
    ensures (exists i :: 0 <= i < |calls| && IsHook(calls[i], PostUpdate)) ==>
              StageOf(calls).Accepting? || StageOf(calls).Accepted?
    ensures StageOf(calls).Accepting? || StageOf(calls).Accepted? ==>
              forall i :: 0 <= i < |calls| ==> !IsHook(calls[i], PreRollback)
  {
    if calls != [] {
      var front, last := calls[..|calls| - 1], calls[|calls| - 1];
      assert calls == front + [last];
      AcceptedExactly(front);
      if StageOf(front).Rebuilding? {
        NoRollbackYet(front);
      }
    }
  }

  lemma {:induction false} RestoredExactly(calls: seq<Call>)
    requires Lawful(calls)
    ensures HookRan(calls, PostRollback) <==> StageOf(calls).Restored?
    ensures (exists i :: 0 <= i < |calls| && IsHook(calls[i], PostRollback)) ==>
              StageOf(calls).Closing? || StageOf(calls).Restored?
  {
    if calls != [] {
      var front, last := calls[..|calls| - 1], calls[|calls| - 1];
      assert calls == front + [last];
      RestoredExactly(front);
    }
  }

  /** Of post_update and post_rollback at most one ever runs a command. */
  lemma PostHooksExclusive(calls: seq<Call>, i: nat, j: nat)
    requires Lawful(calls) && i < |calls| && j < |calls|
    ensures !(IsHook(calls[i], PostUpdate) && IsHook(calls[j], PostRollback))
  {
    AcceptedExactly(calls);
    RestoredExactly(calls);
  }

  lemma {:induction false} NoRollbackYet(calls: seq<Call>)
    requires StageOf(calls) in {Untouched, Willing, Armed, Drained} || StageOf(calls).Rebuilding?
    ensures forall i :: 0 <= i < |calls| ==> !IsHook(calls[i], PreRollback)
  {
    if calls != [] {
      assert calls == calls[..|calls| - 1] + [calls[|calls| - 1]];
      NoRollbackYet(calls[..|calls| - 1]);
    }
  }

  /** If taking a new container down raises, its pre_rollback hooks may run a second time. */
  lemma RollbackHooksAgain(calls: seq<Call>, clean: bool, again: bool)
    requires StageOf(calls).Rebuilding?
    ensures StageOf(calls + [HooksDone(PreRollback, clean)] + [Stop(false)] + [HooksDone(PreRollback, again)]) ==
            Undoing(StageOf(calls).drained)
  {
    StageAfter(calls, HooksDone(PreRollback, clean));
    StageAfter(calls + [HooksDone(PreRollback, clean)], Stop(false));
    StageAfter(calls + [HooksDone(PreRollback, clean)] + [Stop(false)], HooksDone(PreRollback, again));
  }

  /** A container that is still in place at the end was in place all along. */
  lemma {:induction false} InPlaceAllAlong(calls: seq<Call>, some: seq<Call>)
    requires some <= calls
    ensures InPlace(StageOf(calls)) ==> InPlace(StageOf(some))
    ensures HooksOnly(StageOf(calls)) ==> HooksOnly(StageOf(some))
  {
    if |some| < |calls| {
      var front := calls[..|calls| - 1];
      assert some <= front;
      InPlaceAllAlong(front, some);
    } else {
      assert some == calls;
    }
  }
}
