/**
 The hooks of a container as its owner set them, and what a call log that follows them looks like
 (backend/core/update_actions/hooks_executor.py): every hook is run as a whole, command by command, and the
 hooks come where the update executor puts them.
 */
module HookScript {
  import opened Errors
  import opened CallProtocol

  type Hooks = map<HookKind, seq<string>>

  function Commands(h: Hooks, kind: HookKind): seq<string> {
    if kind in h then h[kind] else []
  }

  predicate NoneFailed(calls: seq<Call>, from: nat, to: nat)
    requires to <= |calls|
  {
    forall i :: from <= i < to && calls[i].Hook? ==> calls[i].ok
  }

  /** At `b`: all commands of a hook in order, and the mark that tells whether none of them failed. */
  predicate BlockAt(calls: seq<Call>, b: nat, kind: HookKind, commands: seq<string>) {
    && b + |commands| < |calls|
    && (forall i :: b <= i < b + |commands| ==> IsHook(calls[i], kind) && calls[i].command == commands[i - b])
    && calls[b + |commands|] == HooksDone(kind, NoneFailed(calls, b, b + |commands|))
  }

  /** These calls are one whole hook. */
  predicate IsBlock(block: seq<Call>, kind: HookKind, commands: seq<string>) {
    |block| == |commands| + 1 && BlockAt(block, 0, kind, commands)
  }

  lemma BlockStill(front: seq<Call>, calls: seq<Call>, b: nat, kind: HookKind, commands: seq<string>)
    requires front <= calls && BlockAt(front, b, kind, commands)
    ensures BlockAt(calls, b, kind, commands) && calls[b + |commands|] == front[b + |commands|]
  {
    assert forall i :: 0 <= i < |front| ==> calls[i] == front[i];
    assert NoneFailed(calls, b, b + |commands|) == NoneFailed(front, b, b + |commands|);
  }

  lemma BlockAdded(calls: seq<Call>, block: seq<Call>, kind: HookKind, commands: seq<string>)
    requires IsBlock(block, kind, commands)
    ensures BlockAt(calls + block, |calls|, kind, commands)
  {
    var more := calls + block;
    assert forall i :: |calls| <= i < |more| ==> more[i] == block[i - |calls|];
    assert forall i :: 0 <= i < |block| ==> block[i] == more[|calls| + i];
    assert NoneFailed(more, |calls|, |calls| + |commands|) == NoneFailed(block, 0, |commands|);
  }

  /** Hook commands stand in this log only as parts of whole hooks. */
  predicate Told(calls: seq<Call>, h: Hooks)
    decreases |calls|
  {
    if calls == [] then true
    else
      match calls[|calls| - 1]
      case Hook(_, _, _) => false
      case HooksDone(kind, _) =>
        var b := |calls| - |Commands(h, kind)| - 1;
        b >= 0 && BlockAt(calls, b, kind, Commands(h, kind)) && Told(calls[..b], h)
      case _ => Told(calls[..|calls| - 1], h)
  }

  lemma ToldMore(calls: seq<Call>, call: Call, h: Hooks)
    requires Told(calls, h) && !call.Hook? && !call.HooksDone?
    ensures Told(calls + [call], h)
  {
    assert (calls + [call])[..|calls|] == calls;
  }

  lemma ToldSoFar(calls: seq<Call>, b: nat, kind: HookKind, h: Hooks)
    requires BlockAt(calls, b, kind, Commands(h, kind)) && |calls| == b + |Commands(h, kind)| + 1
    requires Told(calls[..b], h)
    ensures Told(calls, h)
  {
  }

  lemma ToldHook(calls: seq<Call>, block: seq<Call>, kind: HookKind, h: Hooks)
    requires Told(calls, h) && IsBlock(block, kind, Commands(h, kind))
    ensures Told(calls + block, h)
  {
    BlockAdded(calls, block, kind, Commands(h, kind));
    assert (calls + block)[..|calls|] == calls;
    ToldSoFar(calls + block, |calls|, kind, h);
  }

  lemma Regrouped(calls: seq<Call>, made: seq<Call>, last: Call)
    ensures calls + (made + [last]) == (calls + made) + [last]
  {
  }

  /** Where the last part of a log of whole hooks begins, a call or a hook. */
  function LastAt(calls: seq<Call>, h: Hooks): nat
    requires Told(calls, h) && calls != []
  {
    var last := calls[|calls| - 1];
    if last.HooksDone? then |calls| - |Commands(h, last.kind)| - 1 else |calls| - 1
  }

  lemma LastPart(calls: seq<Call>, h: Hooks)
    requires Told(calls, h) && calls != []
    ensures LastAt(calls, h) < |calls| && Told(calls[..LastAt(calls, h)], h)
    ensures var last := calls[|calls| - 1];
            if last.HooksDone? then BlockAt(calls, LastAt(calls, h), last.kind, Commands(h, last.kind))
            else LastAt(calls, h) == |calls| - 1 && !last.Hook?
  {
  }

  /** The hook command at `i` stands within its whole hook, which begins at `b`. */
  predicate WholeAt(calls: seq<Call>, h: Hooks, i: nat, b: nat)
    requires i < |calls| && calls[i].Hook?
  {
    b <= i < b + |Commands(h, calls[i].kind)| && BlockAt(calls, b, calls[i].kind, Commands(h, calls[i].kind))
  }

  /** No hook command is ever run but within its whole hook. */
  lemma {:induction false} WholeHooks(calls: seq<Call>, h: Hooks, i: nat)
    requires Told(calls, h) && i < |calls| && calls[i].Hook?
    ensures exists b: nat :: WholeAt(calls, h, i, b)
    decreases |calls|
  {
    LastPart(calls, h);
    var at := LastAt(calls, h);
    if i < at {
      WholeHooks(calls[..at], h, i);
      var b: nat :| WholeAt(calls[..at], h, i, b);
      BlockStill(calls[..at], calls, b, calls[i].kind, Commands(h, calls[i].kind));
      assert WholeAt(calls, h, i, b);
    } else {
      assert WholeAt(calls, h, i, at);
    }
  }

  // ---------- Where hooks can begin ----------

  /** The stages in which a command of this hook is lawful. */
  predicate Begins(kind: HookKind, s: Stage) {
    match kind
    case PreStop => s == Untouched || s == RefusedAtStop(false)
    case PreUpdate => s == Willing || s == RefusedAtUpdate(false)
    case PostUpdate => s == Rebuilding(true) || s == Accepting
    case PreRollback => !Undone(s).Illegal?
    case PostRollback => s.Rebuilding? || s.Restoring? || s.Closing?
  }

  /** Where a hook leads that begins here. */
  function Leads(kind: HookKind, s: Stage, clean: bool): Stage {
    match kind
    case PreStop => if clean then Willing else RefusedAtStop(true)
    case PreUpdate => if clean then Armed else RefusedAtUpdate(true)
    case PostUpdate => Accepted
    case PreRollback => Undone(s)
    case PostRollback => if s.Rebuilding? || s.Restoring? || s.Closing? then Restored(s.drained) else Illegal
  }

  lemma CommandBack(s: Stage, kind: HookKind, ok: bool, clean: bool)
    requires Begins(kind, AfterHook(s, kind, ok))
    ensures Begins(kind, s) && Leads(kind, AfterHook(s, kind, ok), clean) == Leads(kind, s, clean)
  {
  }

  lemma MarkBack(s: Stage, kind: HookKind, clean: bool)
    requires !AfterHooks(s, kind, clean).Illegal?
    ensures Begins(kind, s) && AfterHooks(s, kind, clean) == Leads(kind, s, clean)
  {
  }

  lemma {:induction false} HooksBack(calls: seq<Call>, b: nat, kind: HookKind, clean: bool)
    requires b <= |calls| && forall i :: b <= i < |calls| ==> IsHook(calls[i], kind)
    requires Begins(kind, StageOf(calls))
    ensures Begins(kind, StageOf(calls[..b])) && Leads(kind, StageOf(calls), clean) ==
                                                  Leads(kind, StageOf(calls[..b]), clean)
    decreases |calls|
  {
    if b == |calls| {
      assert calls[..b] == calls;
    } else {
      var front := calls[..|calls| - 1];
      CommandBack(StageOf(front), kind, calls[|calls| - 1].ok, clean);
      HooksBack(front, b, kind, clean);
      assert front[..b] == calls[..b];
    }
  }

  lemma BlockBack(calls: seq<Call>, b: nat, kind: HookKind, commands: seq<string>)
    requires BlockAt(calls, b, kind, commands) && |calls| == b + |commands| + 1 && Lawful(calls)
    ensures Begins(kind, StageOf(calls[..b]))
    ensures StageOf(calls) == Leads(kind, StageOf(calls[..b]), calls[|calls| - 1].clean)
  {
    var front, clean := calls[..|calls| - 1], calls[|calls| - 1].clean;
    MarkBack(StageOf(front), kind, clean);
    HooksBack(front, b, kind, clean);
    assert front[..b] == calls[..b];
  }

  /** Only a command of a hook leads to the stages in which it is under way. */
  lemma NextUnderWay(s: Stage, call: Call)
    requires Next(s, call) in {Untouched, RefusedAtStop(false), RefusedAtUpdate(false), Accepting} ||
             Next(s, call).Closing?
    ensures call.Hook?
  {
  }

  /** In a log of whole hooks no hook is under way. */
  lemma NoneUnderWay(calls: seq<Call>, h: Hooks)
    requires Told(calls, h)
    ensures StageOf(calls) != RefusedAtStop(false) && StageOf(calls) != RefusedAtUpdate(false)
    ensures !StageOf(calls).Accepting? && !StageOf(calls).Closing?
    ensures StageOf(calls).Untouched? ==> calls == []
  {
    if calls != [] && (StageOf(calls) in {Untouched, RefusedAtStop(false), RefusedAtUpdate(false), Accepting} ||
                       StageOf(calls).Closing?) {
      NextUnderWay(StageOf(calls[..|calls| - 1]), calls[|calls| - 1]);
    }
  }

  /** The stage in which a whole hook began. */
  predicate BeganIn(kind: HookKind, s: Stage) {
    match kind
    case PreStop => s == Untouched
    case PreUpdate => s == Willing
    case PostUpdate => s == Rebuilding(true)
    case PreRollback => !Undone(s).Illegal?
    case PostRollback => s.Rebuilding? || s.Restoring?
  }

  /** Where the last hook of a log of whole hooks began, and where it led. */
  lemma LastHook(calls: seq<Call>, h: Hooks)
    requires Told(calls, h) && Lawful(calls) && calls != [] && calls[|calls| - 1].HooksDone?
    ensures var last, before := calls[|calls| - 1], StageOf(calls[..LastAt(calls, h)]);
            BeganIn(last.kind, before) && StageOf(calls) == Leads(last.kind, before, last.clean)
  {
    LastPart(calls, h);
    var at, kind := LastAt(calls, h), calls[|calls| - 1].kind;
    BlockBack(calls, at, kind, Commands(h, kind));
    NoneUnderWay(calls[..at], h);
  }

  // ---------- How a log begins ----------

  /** The stages that only the end of a hook leads to. */
  predicate LedTo(s: Stage, last: Call) {
    && (s.Willing? ==> last == HooksDone(PreStop, true) || last.Hook?)
    && (s == RefusedAtStop(true) ==> last == HooksDone(PreStop, false))
    && (s.Armed? ==> last == HooksDone(PreUpdate, true))
    && (s == RefusedAtUpdate(true) ==> last == HooksDone(PreUpdate, false))
    && (s.Accepted? ==> last.HooksDone? && last.kind == PostUpdate)
    && (s.Restored? ==> last.HooksDone? && last.kind == PostRollback)
  }

  lemma NextLed(s: Stage, call: Call)
    ensures LedTo(Next(s, call), call)
  {
  }

  lemma HookLed(calls: seq<Call>, h: Hooks)
    requires Told(calls, h) && !StageOf(calls).Untouched?
    ensures calls != [] && LedTo(StageOf(calls), calls[|calls| - 1]) && !calls[|calls| - 1].Hook?
  {
    NextLed(StageOf(calls[..|calls| - 1]), calls[|calls| - 1]);
  }

  lemma OnlyPreStop(calls: seq<Call>, h: Hooks)
    requires Told(calls, h) && (StageOf(calls).Willing? || StageOf(calls).RefusedAtStop?)
    ensures |calls| == |Commands(h, PreStop)| + 1 && BlockAt(calls, 0, PreStop, Commands(h, PreStop))
    ensures calls[|calls| - 1].clean <==> StageOf(calls).Willing?
  {
    NoneUnderWay(calls, h);
    HookLed(calls, h);
    LastPart(calls, h);
    LastHook(calls, h);
    NoneUnderWay(calls[..LastAt(calls, h)], h);
  }

  lemma OnlyPreUpdate(calls: seq<Call>, h: Hooks)
    requires Told(calls, h) && (StageOf(calls).Armed? || StageOf(calls).RefusedAtUpdate?)
    ensures var p := |Commands(h, PreStop)| + 1;
            && |calls| == StopAt(h, true) && BlockAt(calls, 0, PreStop, Commands(h, PreStop)) && calls[p - 1].clean
            && BlockAt(calls, p, PreUpdate, Commands(h, PreUpdate))
    ensures calls[|calls| - 1].clean <==> StageOf(calls).Armed?
  {
    NoneUnderWay(calls, h);
    HookLed(calls, h);
    LastPart(calls, h);
    LastHook(calls, h);
    var front := calls[..LastAt(calls, h)];
    OnlyPreStop(front, h);
    BlockStill(front, calls, 0, PreStop, Commands(h, PreStop));
  }

  predicate NoEarlyHook(calls: seq<Call>, from: nat) {
    forall i :: from <= i < |calls| ==> !IsHook(calls[i], PreStop) && !IsHook(calls[i], PreUpdate)
  }

  /** Where the stop stands in the log of a container that was stopped. */
  function StopAt(h: Hooks, inUpdate: bool): nat {
    |Commands(h, PreStop)| + 1 + if inUpdate then |Commands(h, PreUpdate)| + 1 else 0
  }

  /** The whole pre_stop hook without errors, and for an update the whole pre_update hook after it. */
  predicate Cleared(calls: seq<Call>, h: Hooks, inUpdate: bool) {
    var p := |Commands(h, PreStop)| + 1;
    && BlockAt(calls, 0, PreStop, Commands(h, PreStop)) && calls[p - 1].clean
    && (inUpdate ==> BlockAt(calls, p, PreUpdate, Commands(h, PreUpdate)) && calls[StopAt(h, true) - 1].clean)
  }

  /** The stop comes right after these hooks, and none of their commands later. */
  predicate StoppedCleanly(calls: seq<Call>, h: Hooks, inUpdate: bool) {
    var at := StopAt(h, inUpdate);
    Cleared(calls, h, inUpdate) && at < |calls| && calls[at].Stop? && NoEarlyHook(calls, at)
  }

  lemma ClearedBy(calls: seq<Call>, h: Hooks, inUpdate: bool)
    requires Told(calls, h) && StageOf(calls) == if inUpdate then Armed else Willing
    ensures Cleared(calls, h, inUpdate) && |calls| == StopAt(h, inUpdate)
  {
    if inUpdate {
      OnlyPreUpdate(calls, h);
    } else {
      OnlyPreStop(calls, h);
    }
  }

  lemma ClearedStill(front: seq<Call>, calls: seq<Call>, h: Hooks, inUpdate: bool)
    requires Cleared(front, h, inUpdate) && front <= calls
    ensures Cleared(calls, h, inUpdate)
  {
    BlockStill(front, calls, 0, PreStop, Commands(h, PreStop));
    if inUpdate {
      BlockStill(front, calls, |Commands(h, PreStop)| + 1, PreUpdate, Commands(h, PreUpdate));
    }
  }

  /** The stages of a container after its stop. */
  predicate Onward(inUpdate: bool, s: Stage) {
    if inUpdate then s == Drained || s == Resumed(true) || WasDrained(s) else s == Halted || s == Resumed(false)
  }

  lemma StoppedStill(front: seq<Call>, calls: seq<Call>, h: Hooks, inUpdate: bool)
    requires StoppedCleanly(front, h, inUpdate) && front <= calls && NoEarlyHook(calls, |front|)
    ensures StoppedCleanly(calls, h, inUpdate)
  {
    ClearedStill(front, calls, h, inUpdate);
    assert forall i :: 0 <= i < |front| ==> calls[i] == front[i];
  }

  lemma StoppedNow(front: seq<Call>, calls: seq<Call>, h: Hooks, inUpdate: bool)
    requires Told(front, h) && StageOf(front) == if inUpdate then Armed else Willing
    requires front <= calls && |calls| == |front| + 1 && calls[|front|].Stop?
    ensures StoppedCleanly(calls, h, inUpdate)
  {
    ClearedBy(front, h, inUpdate);
    ClearedStill(front, calls, h, inUpdate);
  }

  /** What leads to a stage after the stop. */
  lemma NextOnward(s: Stage, call: Call, inUpdate: bool)
    requires Onward(inUpdate, Next(s, call)) && !call.HooksDone? && !call.Hook?
    ensures (s == (if inUpdate then Armed else Willing) && call.Stop?) || Onward(inUpdate, s)
  {
  }

  lemma LeadsOnward(kind: HookKind, s: Stage, clean: bool, inUpdate: bool)
    requires BeganIn(kind, s) && Onward(inUpdate, Leads(kind, s, clean))
    ensures Onward(inUpdate, s) && kind !in {PreStop, PreUpdate}
  {
  }

  /** The part before the last one ended after the stop, too, or the last part is the stop. */
  lemma OnwardBack(calls: seq<Call>, h: Hooks, inUpdate: bool)
    requires Told(calls, h) && Onward(inUpdate, StageOf(calls))
    ensures calls != [] && LastAt(calls, h) < |calls| && Told(calls[..LastAt(calls, h)], h)
    ensures var front := calls[..LastAt(calls, h)];
            || (Onward(inUpdate, StageOf(front)) && NoEarlyHook(calls, |front|))
            || (StageOf(front) == (if inUpdate then Armed else Willing) && |calls| == |front| + 1
                && calls[|front|].Stop?)
  {
    LastPart(calls, h);
    var last, before := calls[|calls| - 1], StageOf(calls[..LastAt(calls, h)]);
    if last.HooksDone? {
      LastHook(calls, h);
      LeadsOnward(last.kind, before, last.clean, inUpdate);
    } else {
      NextOnward(before, last, inUpdate);
    }
  }

  lemma {:induction false} StopsCleanly(calls: seq<Call>, h: Hooks, inUpdate: bool)
    requires Told(calls, h) && Onward(inUpdate, StageOf(calls))
    ensures StoppedCleanly(calls, h, inUpdate)
    decreases |calls|
  {
    OnwardBack(calls, h, inUpdate);
    var front := calls[..LastAt(calls, h)];
    if Onward(inUpdate, StageOf(front)) {
      StopsCleanly(front, h, inUpdate);
      StoppedStill(front, calls, h, inUpdate);
    } else {
      StoppedNow(front, calls, h, inUpdate);
    }
  }

  /**
   How the log of a container that ran begins: with its whole pre_stop hook. If a command of that failed,
   nothing follows. Else for an update the whole pre_update hook comes next, after which nothing follows if
   a command of that failed. Else the container is stopped.
   */
  predicate BeginsAsSet(calls: seq<Call>, h: Hooks, inUpdate: bool) {
    var p, u := |Commands(h, PreStop)| + 1, StopAt(h, true);
    && BlockAt(calls, 0, PreStop, Commands(h, PreStop)) && NoEarlyHook(calls, StopAt(h, inUpdate))
    && if !calls[p - 1].clean then |calls| == p
       else if !inUpdate then p < |calls| && calls[p].Stop?
       else
         && BlockAt(calls, p, PreUpdate, Commands(h, PreUpdate))
         && if !calls[u - 1].clean then |calls| == u else u < |calls| && calls[u].Stop?
  }

  lemma BeginsSo(calls: seq<Call>, h: Hooks, inUpdate: bool)
    requires Told(calls, h)
    requires StageOf(calls).RefusedAtStop? || (inUpdate && StageOf(calls).RefusedAtUpdate?) ||
             Onward(inUpdate, StageOf(calls))
    ensures BeginsAsSet(calls, h, inUpdate)
  {
    if StageOf(calls).RefusedAtStop? {
      OnlyPreStop(calls, h);
    } else if StageOf(calls).RefusedAtUpdate? {
      OnlyPreUpdate(calls, h);
    } else {
      StopsCleanly(calls, h, inUpdate);
    }
  }

  // ---------- How a log ends ----------

  /** The log ends with this whole hook and has none of its commands before. */
  predicate EndsWith(calls: seq<Call>, kind: HookKind, commands: seq<string>) {
    var b := |calls| - |commands| - 1;
    b >= 0 && BlockAt(calls, b, kind, commands) && forall i :: 0 <= i < b ==> !IsHook(calls[i], kind)
  }

  lemma EndsAccepted(calls: seq<Call>, h: Hooks)
    requires Told(calls, h) && StageOf(calls) == Accepted
    ensures EndsWith(calls, PostUpdate, Commands(h, PostUpdate))
  {
    HookLed(calls, h);
    LastPart(calls, h);
    LastHook(calls, h);
    NoneBefore(calls, LastAt(calls, h), PostUpdate);
  }

  lemma EndsRestored(calls: seq<Call>, h: Hooks)
    requires Told(calls, h) && StageOf(calls).Restored?
    ensures EndsWith(calls, PostRollback, Commands(h, PostRollback))
  {
    HookLed(calls, h);
    LastPart(calls, h);
    LastHook(calls, h);
    NoneBefore(calls, LastAt(calls, h), PostRollback);
  }

  /** Neither hook that ends a log has a command before the stage in which it begins. */
  lemma NoneBefore(calls: seq<Call>, b: nat, kind: HookKind)
    requires b <= |calls| && kind in {PostUpdate, PostRollback} && BeganIn(kind, StageOf(calls[..b]))
    ensures forall i :: 0 <= i < b ==> !IsHook(calls[i], kind)
  {
    var front := calls[..b];
    AcceptedExactly(front);
    RestoredExactly(front);
    forall i | 0 <= i < b ensures !IsHook(calls[i], kind) {
      assert front[i] == calls[i];
    }
  }

  /** The stages of a container that was not running. */
  predicate NeverRan(s: Stage) {
    s in {Untouched, Rebuilding(false), Undoing(false), Restoring(false), Restored(false)}
  }

  lemma NextNeverRan(s: Stage, call: Call)
    requires NeverRan(Next(s, call)) && !call.HooksDone? && !call.Hook?
    ensures NeverRan(s)
  {
  }

  lemma LeadsNeverRan(kind: HookKind, s: Stage, clean: bool)
    requires BeganIn(kind, s) && NeverRan(Leads(kind, s, clean))
    ensures NeverRan(s) && kind in {PreRollback, PostRollback}
  {
  }

  lemma NeverRanBack(calls: seq<Call>, h: Hooks)
    requires Told(calls, h) && NeverRan(StageOf(calls)) && calls != []
    ensures LastAt(calls, h) < |calls| && Told(calls[..LastAt(calls, h)], h)
    ensures NeverRan(StageOf(calls[..LastAt(calls, h)]))
    ensures forall i :: LastAt(calls, h) <= i < |calls| && calls[i].Hook? ==>
              calls[i].kind in {PreRollback, PostRollback}
  {
    LastPart(calls, h);
    var last, before := calls[|calls| - 1], StageOf(calls[..LastAt(calls, h)]);
    if last.HooksDone? {
      LastHook(calls, h);
      LeadsNeverRan(last.kind, before, last.clean);
    } else {
      NextNeverRan(before, last);
    }
  }

  /** A container that was not running has no hooks but those of a rollback. */
  lemma {:induction false} OnlyRollbackHooks(calls: seq<Call>, h: Hooks, i: nat)
    requires Told(calls, h) && NeverRan(StageOf(calls)) && i < |calls| && calls[i].Hook?
    ensures calls[i].kind in {PreRollback, PostRollback}
    decreases |calls|
  {
    NeverRanBack(calls, h);
    if i < LastAt(calls, h) {
      OnlyRollbackHooks(calls[..LastAt(calls, h)], h, i);
    }
  }

  /** The whole pre_rollback hook was run while the new container was still in place. */
  predicate WarnedAt(calls: seq<Call>, b: nat, commands: seq<string>) {
    BlockAt(calls, b, PreRollback, commands) && StageOf(calls[..b]) == Rebuilding(true)
  }

  ghost predicate Warned(calls: seq<Call>, commands: seq<string>) {
    exists b: nat :: WarnedAt(calls, b, commands)
  }

  lemma WarnedStill(calls: seq<Call>, more: seq<Call>, commands: seq<string>)
    requires Warned(calls, commands) && calls <= more
    ensures Warned(more, commands)
  {
    var b: nat :| WarnedAt(calls, b, commands);
    BlockStill(calls, more, b, PreRollback, commands);
    assert more[..b] == calls[..b];
    assert WarnedAt(more, b, commands);
  }

  lemma WarnedNow(calls: seq<Call>, block: seq<Call>, commands: seq<string>)
    requires StageOf(calls) == Rebuilding(true) && IsBlock(block, PreRollback, commands)
    ensures Warned(calls + block, commands)
  {
    BlockAdded(calls, block, PreRollback, commands);
    assert (calls + block)[..|calls|] == calls;
    assert WarnedAt(calls + block, |calls|, commands);
  }
}
