/**
 Checks and updates as interleaved tasks over the shared progress cache: what the start guard and the
 cache entries guarantee over every run, and what eviction breaks
 (backend/core/progress/, backend/core/check_actions/, backend/core/update_actions/).
 */
module LockProtocol {
  import opened Wrappers
  import opened Progress

  datatype Action = CheckOne | CheckHost | UpdateHost | RunPlan | CheckAll | UpdateAll

  /** One started action and the key whose entry it keeps. */
  datatype Frame = Frame(action: Action, key: Key)

  predicate Fits(f: Frame) {
    match f.action
    case CheckOne => f.key.ContainerKey?
    case CheckHost => f.key.HostKey?
    case UpdateHost => f.key.HostKey?
    case RunPlan => f.key.PlanKey?
    case CheckAll => f.key.AllKey?
    case UpdateAll => f.key.AllKey?
  }

  predicate SameHost(a: Key, b: Key) {
    !a.AllKey? && !b.AllKey? && a.id == b.id && a.host == b.host
  }

  /** Which action runs inside which. */
  predicate Calls(caller: Frame, callee: Frame) {
    match caller.action
    case CheckAll => callee.action.CheckHost?
    case UpdateAll => callee.action.UpdateHost?
    case CheckHost => callee.action.CheckOne? && SameHost(caller.key, callee.key)
    case UpdateHost => callee.action.RunPlan? && SameHost(caller.key, callee.key)
    case CheckOne => false
    case RunPlan => false
  }

  /** The statuses an action passes through between its start and its end. */
  predicate Passes(a: Action, s: Status) {
    match a
    case CheckOne => s == CHECKING
    case CheckHost => s == CHECKING
    case CheckAll => s == CHECKING
    case UpdateHost => s == UPDATING || s == PRUNING
    case UpdateAll => s == UPDATING
    case RunPlan => s == UPDATING
  }

  /** How an action may end, and whether its entry then gets a result. */
  predicate Closes(a: Action, s: Status, result: bool) {
    match a
    case CheckOne => s == DONE || (s == ERROR && result)
    case RunPlan => s == DONE && result
    case _ => (s == DONE && result) || (s == ERROR && !result)
  }

  type Stack = seq<Frame>

  predicate MayBegin(stack: Stack, f: Frame) {
    Fits(f) && (stack == [] || Calls(stack[|stack| - 1], f))
  }

  /** Every task is a stack of started actions; only the innermost one takes steps. */
  datatype State = State(entries: Entries, stacks: map<nat, Stack>) {
    function StackOf(t: nat): Stack {
      if t in stacks then stacks[t] else []
    }
  }

  /** `Abandon` is an exception that leaves the plan executor, which has no outer handler. */
  datatype Step =
    | Begin(task: nat, frame: Frame)
    | Move(task: nat, status: Status)
    | End(task: nat, status: Status, result: bool)
    | Abandon(task: nat)
    | Evict(key: Key)

  predicate Enabled(s: State, step: Step) {
    match step
    case Begin(t, f) => MayBegin(s.StackOf(t), f) && IsAllowedStart(EntryOf(s.entries, f.key))
    case Move(t, st) => s.StackOf(t) != [] && Passes(Top(s, t).action, st)
    case End(t, st, r) => s.StackOf(t) != [] && Closes(Top(s, t).action, st, r)
    case Abandon(t) => s.StackOf(t) != [] && Top(s, t).action.RunPlan?
    case Evict(k) => k in s.entries
  }

  function Top(s: State, t: nat): Frame
    requires s.StackOf(t) != []
  {
    s.StackOf(t)[|s.StackOf(t)| - 1]
  }

  function Popped(s: State, t: nat): map<nat, Stack>
    requires s.StackOf(t) != []
  {
    s.stacks[t := s.StackOf(t)[..|s.StackOf(t)| - 1]]
  }

  function After(s: State, step: Step): State
    requires Enabled(s, step)
  {
    match step
    case Begin(t, f) => State(s.entries[f.key := WithStatus(PREPARING)], s.stacks[t := s.StackOf(t) + [f]])
    case Move(t, st) => State(UpdatedEntries(s.entries, Top(s, t).key, WithStatus(st)), s.stacks)
    case End(t, st, r) => State(UpdatedEntries(s.entries, Top(s, t).key, Entry(Some(st), r)), Popped(s, t))
    case Abandon(t) => State(s.entries, Popped(s, t))
    case Evict(k) => State(s.entries - {k}, s.stacks)
  }

  const INITIAL := State(map[], map[])

  predicate Holds(s: State, t: nat, i: nat, k: Key) {
    i < |s.StackOf(t)| && s.StackOf(t)[i].key == k
  }

  ghost predicate Held(s: State, k: Key) {
    exists t, i :: Holds(s, t, i, k)
  }

  // ---------- The invariant ----------

  /** At most one started action has a given key. */
  ghost predicate Exclusive(s: State) {
    forall t, i, u, j, k :: Holds(s, t, i, k) && Holds(s, u, j, k) ==> t == u && i == j
  }

  /** The entry of a running action shows that it runs. */
  ghost predicate HeldOpen(s: State) {
    forall t, i, k :: Holds(s, t, i, k) ==> k in s.entries && !Ended(s.entries[k])
  }

  /** Every entry has a status, and a result only with a final one. */
  ghost predicate ResultsFinal(entries: Entries) {
    forall k :: k in entries ==> entries[k].status.Some? && (entries[k].hasResult ==> Ended(entries[k]))
  }

  /** An entry that shows a running action belongs to one, or to a plan run that was abandoned. */
  ghost predicate OpenHeld(s: State) {
    forall k :: k in s.entries && !Ended(s.entries[k]) ==> Held(s, k) || k.PlanKey?
  }

  ghost predicate FramesFit(s: State) {
    forall t, i :: 0 <= i < |s.StackOf(t)| ==> Fits(s.StackOf(t)[i])
  }

  ghost predicate Invariant(s: State) {
    Exclusive(s) && HeldOpen(s) && ResultsFinal(s.entries) && OpenHeld(s) && FramesFit(s)
  }

  /** The step does not evict the entry of a running action. */
  ghost predicate Sparing(s: State, step: Step) {
    step.Evict? ==> !Held(s, step.key)
  }

  lemma HoldsAfter(s: State, step: Step, t: nat, i: nat, k: Key)
    requires Enabled(s, step)
    ensures step.Begin? ==>
              (Holds(After(s, step), t, i, k) <==>
               Holds(s, t, i, k) || (t == step.task && i == |s.StackOf(t)| && k == step.frame.key))
    ensures step.End? || step.Abandon? ==>
              (Holds(After(s, step), t, i, k) <==>
               Holds(s, t, i, k) && !(t == step.task && i == |s.StackOf(t)| - 1))
    ensures step.Move? || step.Evict? ==> (Holds(After(s, step), t, i, k) <==> Holds(s, t, i, k))
  {
  }

  lemma ExclusiveAfter(s: State, step: Step)
    requires Invariant(s) && Enabled(s, step)
    ensures Exclusive(After(s, step))
  {
    forall t, i, u, j, k | Holds(After(s, step), t, i, k) && Holds(After(s, step), u, j, k) ensures t == u && i == j {
      HoldsAfter(s, step, t, i, k);
      HoldsAfter(s, step, u, j, k);
    }
  }

  lemma HeldOpenAfter(s: State, step: Step)
    requires Invariant(s) && Enabled(s, step) && Sparing(s, step)
    ensures HeldOpen(After(s, step))
  {
    var s' := After(s, step);
    forall t, i, k | Holds(s', t, i, k) ensures k in s'.entries && !Ended(s'.entries[k]) {
      HoldsAfter(s, step, t, i, k);
      if step.End? && k == Top(s, step.task).key {
        assert Holds(s, step.task, |s.StackOf(step.task)| - 1, k);
      }
    }
  }

  lemma OpenHeldAfter(s: State, step: Step)
    requires Invariant(s) && Enabled(s, step) && Sparing(s, step)
    ensures OpenHeld(After(s, step))
  {
    var s' := After(s, step);
    forall k | k in s'.entries && !Ended(s'.entries[k]) ensures Held(s', k) || k.PlanKey? {
      if step.Begin? && k == step.frame.key {
        assert Holds(s', step.task, |s.StackOf(step.task)|, k);
      } else if step.Move? && k == Top(s, step.task).key {
        assert Holds(s', step.task, |s.StackOf(step.task)| - 1, k);
      } else if t: nat, i: nat :| Holds(s, t, i, k) {
        HoldsAfter(s, step, t, i, k);
        if (step.End? || step.Abandon?) && t == step.task && i == |s.StackOf(t)| - 1 {
          assert Fits(s.StackOf(t)[i]);
        }
      }
    }
  }

  lemma FramesFitAfter(s: State, step: Step)
    requires FramesFit(s) && Enabled(s, step)
    ensures FramesFit(After(s, step))
  {
    var s' := After(s, step);
    forall t: nat, i | 0 <= i < |s'.StackOf(t)| ensures Fits(s'.StackOf(t)[i]) {
      if i < |s.StackOf(t)| {
        assert s'.StackOf(t)[i] == s.StackOf(t)[i];
      }
    }
  }

  lemma InvariantKept(s: State, step: Step)
    requires Invariant(s) && Enabled(s, step) && Sparing(s, step)
    ensures Invariant(After(s, step))
  {
    ExclusiveAfter(s, step);
    HeldOpenAfter(s, step);
    OpenHeldAfter(s, step);
    FramesFitAfter(s, step);
    if step.Move? {
      assert Holds(s, step.task, |s.StackOf(step.task)| - 1, Top(s, step.task).key);
    }
  }

  // ---------- Runs ----------

  ghost predicate IsRun(states: seq<State>, steps: seq<Step>) {
    && |states| == |steps| + 1
    && forall i :: 0 <= i < |steps| ==> Enabled(states[i], steps[i]) && states[i + 1] == After(states[i], steps[i])
  }

  ghost predicate AllSparing(states: seq<State>, steps: seq<Step>)
    requires |states| == |steps| + 1
  {
    forall i :: 0 <= i < |steps| ==> Sparing(states[i], steps[i])
  }

  /** Over every interleaving that evicts no running action's entry the invariant holds throughout. */
  lemma {:induction false} InvariantThroughout(states: seq<State>, steps: seq<Step>, n: nat)
    requires IsRun(states, steps) && states[0] == INITIAL && AllSparing(states, steps) && n < |states|
    ensures Invariant(states[n])
  {
    if n > 0 {
      InvariantThroughout(states, steps, n - 1);
      InvariantKept(states[n - 1], steps[n - 1]);
    }
  }

  /** An action is allowed to start exactly when no other one has the key and no plan run was abandoned under it. */
  lemma StartExactly(s: State, k: Key)
    requires Invariant(s)
    ensures IsAllowedStart(EntryOf(s.entries, k)) <==> !Held(s, k) && (k in s.entries ==> Ended(s.entries[k]))
    ensures !k.PlanKey? ==> (IsAllowedStart(EntryOf(s.entries, k)) <==> !Held(s, k))
  {
  }

  /** The step that ends the action at position `i` of a task, as opposed to leaving it open. */
  ghost predicate Leaves(s: State, step: Step, t: nat, i: nat) {
    (step.End? || step.Abandon?) && step.task == t && i == |s.StackOf(t)| - 1
  }

  /** A started action that is over ended its own entry; only a plan run can be over without. */
  lemma {:induction false} OverMeansEnded(states: seq<State>, steps: seq<Step>, t: nat, i: nat, k: Key, n: nat)
    returns (m: nat)
    requires IsRun(states, steps) && n < |states|
    requires Holds(states[0], t, i, k) && !Holds(states[n], t, i, k)
    ensures m < n && m < |steps| && Leaves(states[m], steps[m], t, i) && Top(states[m], t).key == k
    ensures steps[m].End? ==> k in states[m + 1].entries && Ended(states[m + 1].entries[k])
    ensures steps[m].Abandon? ==> states[m].StackOf(t)[i].action.RunPlan?
  {
    HoldsAfter(states[n - 1], steps[n - 1], t, i, k);
    if Holds(states[n - 1], t, i, k) {
      m := n - 1;
    } else {
      m := OverMeansEnded(states, steps, t, i, k, n - 1);
    }
  }

  /** While a task waits, the others leave its entries alone. */
  lemma OthersKeepMine(s: State, step: Step, t: nat)
    requires Invariant(s) && Enabled(s, step) && Sparing(s, step)
    requires !step.Evict? ==> step.task != t
    ensures After(s, step).StackOf(t) == s.StackOf(t)
    ensures forall i :: 0 <= i < |s.StackOf(t)| ==>
              EntryOf(After(s, step).entries, s.StackOf(t)[i].key) == EntryOf(s.entries, s.StackOf(t)[i].key)
  {
    forall i | 0 <= i < |s.StackOf(t)|
      ensures EntryOf(After(s, step).entries, s.StackOf(t)[i].key) == EntryOf(s.entries, s.StackOf(t)[i].key)
    {
      var k := s.StackOf(t)[i].key;
      assert Holds(s, t, i, k);
      if step.Move? || step.End? {
        assert Holds(s, step.task, |s.StackOf(step.task)| - 1, Top(s, step.task).key);
      }
    }
  }

  // ---------- What the lock does not give ----------

  lemma FreeTask(s: State) returns (t: nat)
    ensures s.StackOf(t) == []
  {
    var bound := Bound(s.stacks.Keys);
    t := bound;
  }

  lemma {:induction false} Bound(tasks: set<nat>) returns (b: nat)
    ensures forall t: nat :: t in tasks ==> t < b
  {
    if tasks == {} {
      b := 0;
    } else {
      var t :| t in tasks;
      var c := Bound(tasks - {t});
      b := if c <= t then t + 1 else c;
      forall u: nat | u in tasks ensures u < b {
        assert u == t || u in tasks - {t};
      }
    }
  }

  function FrameFor(k: Key): (f: Frame)
    ensures Fits(f) && f.key == k
  {
    Frame(match k
          case AllKey => UpdateAll
          case HostKey(_, _) => UpdateHost
          case ContainerKey(_, _, _) => CheckOne
          case PlanKey(_, _, _) => RunPlan, k)
  }

  /** A second action under the same key can start right after an eviction exactly when the key was held. */
  lemma EvictionBreaksExactly(s: State, k: Key)
    requires Invariant(s) && k in s.entries
    ensures Held(s, k) <==>
            exists t: nat, f: Frame :: Enabled(After(s, Evict(k)), Begin(t, f)) && f.key == k
                                       && !Exclusive(After(After(s, Evict(k)), Begin(t, f)))
  {
    var e := After(s, Evict(k));
    if u: nat, j: nat :| Holds(s, u, j, k) {
      var t := FreeTask(s);
      var f := FrameFor(k);
      assert e.StackOf(t) == [] && e.StackOf(u) == s.StackOf(u);
      assert Enabled(e, Begin(t, f));
      var s' := After(e, Begin(t, f));
      assert Holds(s', t, 0, k) && Holds(s', u, j, k);
      assert !Exclusive(s');
    } else {
      InvariantKept(s, Evict(k));
      forall t: nat, f: Frame | Enabled(e, Begin(t, f)) ensures Exclusive(After(e, Begin(t, f))) {
        ExclusiveAfter(e, Begin(t, f));
      }
    }
  }

  /** An abandoned plan's entry stays open, and its key shut, until it is evicted. */
  lemma {:induction false} AbandonedStaysShut(states: seq<State>, steps: seq<Step>, k: Key, n: nat)
    requires IsRun(states, steps) && n < |states|
    requires k in states[0].entries && !IsAllowedStart(EntryOf(states[0].entries, k)) && !Held(states[0], k)
    requires forall i :: 0 <= i < |steps| ==> steps[i] != Evict(k)
    ensures EntryOf(states[n].entries, k) == EntryOf(states[0].entries, k) && !Held(states[n], k)
  {
    if n > 0 {
      AbandonedStaysShut(states, steps, k, n - 1);
      var s, step := states[n - 1], steps[n - 1];
      forall t, i ensures !Holds(states[n], t, i, k) {
        HoldsAfter(s, step, t, i, k);
      }
      if step.Move? || step.End? {
        assert !Holds(s, step.task, |s.StackOf(step.task)| - 1, k);
      }
    }
  }

  /** A plan run can be abandoned, whatever its plan. */
  lemma AbandonedPlan(k: Key)
    requires k.PlanKey?
    ensures var s1 := After(INITIAL, Begin(0, Frame(RunPlan, k)));
            Enabled(s1, Abandon(0)) && !Held(After(s1, Abandon(0)), k)
            && !IsAllowedStart(EntryOf(After(s1, Abandon(0)).entries, k))
  {
  }

  /** Two plans of one host exclude each other only when they update the same set, not when the sets overlap. */
  lemma PlansTogether(a: Key, b: Key)
    requires a.PlanKey? && b.PlanKey?
    ensures Enabled(After(INITIAL, Begin(0, Frame(RunPlan, a))), Begin(1, Frame(RunPlan, b))) <==> a != b
  {
  }
}
