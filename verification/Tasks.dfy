/** One task's view of the shared progress cache while other tasks run in between. */
module Tasks {
  import opened Wrappers
  import opened Progress
  import opened LockProtocol

  function KeysOf(stack: Stack): set<Key> {
    if stack == [] then {} else KeysOf(stack[..|stack| - 1]) + {stack[|stack| - 1].key}
  }

  predicate DistinctKeys(stack: Stack) {
    stack != [] ==> DistinctKeys(stack[..|stack| - 1]) && stack[|stack| - 1].key !in KeysOf(stack[..|stack| - 1])
  }

  lemma Pushed(stack: Stack, f: Frame)
    requires DistinctKeys(stack) && f.key !in KeysOf(stack)
    ensures DistinctKeys(stack + [f]) && KeysOf(stack + [f]) == KeysOf(stack) + {f.key}
  {
  }

  /** The task's own entries show that it runs. */
  predicate Mine(keys: set<Key>, entries: Entries) {
    forall k :: k in keys ==> k in entries && !Ended(entries[k])
  }

  predicate Kept(keys: set<Key>, before: Entries, after: Entries) {
    forall k :: k in keys ==> EntryOf(after, k) == EntryOf(before, k)
  }

  /** The entry of `key` shows that the action under it ended. */
  predicate Over(entries: Entries, key: Key, s: Status, result: bool) {
    key in entries && entries[key] == Entry(Some(s), result)
  }

  /** What a task asked to start, in order, and whether the guard let it through. */
  type Asked = seq<(Key, bool)>

  /** Between two moments of a task it asked to start under the key, with this answer. */
  ghost predicate AskedFor(before: Asked, after: Asked, key: Key, ok: bool) {
    before <= after && (key, ok) in after[|before|..]
  }

  lemma AskedNow(before: Asked, after: Asked, key: Key, ok: bool)
    requires before + [(key, ok)] <= after
    ensures AskedFor(before, after, key, ok)
  {
    assert after[|before|..][0] == (key, ok);
  }

  lemma AskedLater(before: Asked, mid: Asked, after: Asked, key: Key, ok: bool)
    ensures before <= mid && AskedFor(mid, after, key, ok) ==> AskedFor(before, after, key, ok)
    ensures AskedFor(before, mid, key, ok) && mid <= after ==> AskedFor(before, after, key, ok)
  {
    if before <= mid && AskedFor(mid, after, key, ok) {
      var i :| 0 <= i < |after[|mid|..]| && after[|mid|..][i] == (key, ok);
      assert after[|before|..][i + |mid| - |before|] == (key, ok);
    }
    if AskedFor(before, mid, key, ok) && mid <= after {
      var i :| 0 <= i < |mid[|before|..]| && mid[|before|..][i] == (key, ok);
      assert after[|before|..][i] == (key, ok);
    }
  }

  class Task {
    const shared: SharedEntries
    var stack: Stack
    ghost var asked: Asked

    constructor (shared: SharedEntries)
      requires ResultsFinal(shared.entries)
      ensures this.shared == shared && stack == [] && asked == [] && Valid()
    {
      this.shared, stack, asked := shared, [], [];
    }

    function Keys(): set<Key>
      reads this`stack
    {
      KeysOf(stack)
    }

    ghost predicate Valid()
      reads this`stack, shared
    {
      DistinctKeys(stack) && Mine(Keys(), shared.entries) && ResultsFinal(shared.entries)
    }

    /** An await: other tasks take any number of steps, which leave this task's entries alone. */
    method Await()
      requires Valid()
      modifies shared
      ensures Valid() && Kept(Keys(), old(shared.entries), shared.entries)
    {
      var others: Entries := *;
      if Final(others) && Kept(Keys(), shared.entries, others) {
        shared.entries := others;
        assert forall k :: k in Keys() ==> EntryOf(shared.entries, k) == EntryOf(old(shared.entries), k);
      }
    }

    /** The guard of an action. */
    method Ask(cache: ProgressCache) returns (ok: bool)
      requires Valid() && cache.shared == shared
      modifies this`asked
      ensures Valid() && ok == IsAllowedStart(EntryOf(shared.entries, cache.id))
      ensures asked == old(asked) + [(cache.id, ok)]
    {
      var state := cache.Get();
      ok := IsAllowedStart(state);
      asked := asked + [(cache.id, ok)];
    }

    /** The first write of an action that the guard lets through, with no await in between. */
    method Start(cache: ProgressCache, action: Action)
      requires Valid() && cache.shared == shared && MayBegin(stack, Frame(action, cache.id))
      requires IsAllowedStart(EntryOf(shared.entries, cache.id))
      modifies this`stack, shared
      ensures Valid() && stack == old(stack) + [Frame(action, cache.id)]
      ensures cache.id !in old(Keys()) && Keys() == old(Keys()) + {cache.id}
      ensures shared.entries == old(shared.entries)[cache.id := WithStatus(PREPARING)]
    {
      cache.Set(WithStatus(PREPARING));
      Pushed(stack, Frame(action, cache.id));
      stack := stack + [Frame(action, cache.id)];
    }

    /** Guard and first write together. */
    method TryStart(cache: ProgressCache, action: Action) returns (ok: bool)
      requires Valid() && cache.shared == shared && MayBegin(stack, Frame(action, cache.id))
      modifies this, shared
      ensures Valid() && ok == IsAllowedStart(EntryOf(old(shared.entries), cache.id))
      ensures asked == old(asked) + [(cache.id, ok)]
      ensures ok ==>
                && stack == old(stack) + [Frame(action, cache.id)]
                && cache.id !in old(Keys()) && Keys() == old(Keys()) + {cache.id}
                && shared.entries == old(shared.entries)[cache.id := WithStatus(PREPARING)]
      ensures !ok ==> stack == old(stack) && shared.entries == old(shared.entries)
    {
      ok := Ask(cache);
      if ok {
        Start(cache, action);
      }
    }

    method Pass(cache: ProgressCache, s: Status)
      requires Valid() && cache.shared == shared
      requires stack != [] && stack[|stack| - 1].key == cache.id && Passes(stack[|stack| - 1].action, s)
      modifies shared
      ensures Valid() && shared.entries == UpdatedEntries(old(shared.entries), cache.id, WithStatus(s))
      ensures shared.entries == old(shared.entries)[cache.id := WithStatus(s)]
    {
      assert cache.id in Keys();
      cache.Update(WithStatus(s));
    }

    method Close(cache: ProgressCache, s: Status, result: bool)
      requires Valid() && cache.shared == shared
      requires stack != [] && stack[|stack| - 1].key == cache.id && Closes(stack[|stack| - 1].action, s, result)
      modifies this`stack, shared
      ensures Valid() && stack == old(stack)[..|old(stack)| - 1]
      ensures cache.id !in Keys() && old(Keys()) == Keys() + {cache.id}
      ensures shared.entries == UpdatedEntries(old(shared.entries), cache.id, Entry(Some(s), result))
      ensures shared.entries == old(shared.entries)[cache.id := Entry(Some(s), result)]
    {
      assert cache.id in Keys();
      cache.Update(Entry(Some(s), result));
      stack := stack[..|stack| - 1];
    }

    /** An exception leaves a plan run: its entry stays as it is. */
    method Leave()
      requires Valid() && stack != [] && stack[|stack| - 1].action.RunPlan?
      modifies this`stack
      ensures Valid() && stack == old(stack)[..|old(stack)| - 1]
      ensures old(stack)[|stack|].key !in Keys() && old(Keys()) == Keys() + {old(stack)[|stack|].key}
    {
      stack := stack[..|stack| - 1];
    }
  }

  /** `ResultsFinal` as a check that can be computed. */
  predicate Final(entries: Entries)
    ensures Final(entries) == ResultsFinal(entries)
  {
    forall k :: k in entries ==> entries[k].status.Some? && (entries[k].hasResult ==> Ended(entries[k]))
  }

  /** What a task does is a step of the protocol: `Start`, `Pass`, `Close` and `Leave` are its four kinds. */
  lemma TaskSteps(s: State, t: nat, f: Frame, st: Status, result: bool)
    requires Invariant(s)
    ensures MayBegin(s.StackOf(t), f) && IsAllowedStart(EntryOf(s.entries, f.key)) <==> Enabled(s, Begin(t, f))
    ensures Enabled(s, Begin(t, f)) ==>
              After(s, Begin(t, f)) == State(s.entries[f.key := WithStatus(PREPARING)],
                                             s.stacks[t := s.StackOf(t) + [f]])
    ensures s.StackOf(t) != [] && Top(s, t) == f && Passes(f.action, st) ==>
              && Enabled(s, Move(t, st))
              && After(s, Move(t, st)) == State(s.entries[f.key := WithStatus(st)], s.stacks)
    ensures s.StackOf(t) != [] && Top(s, t) == f && Closes(f.action, st, result) ==>
              && Enabled(s, End(t, st, result))
              && After(s, End(t, st, result)) == State(s.entries[f.key := Entry(Some(st), result)], Popped(s, t))
    ensures s.StackOf(t) != [] && Top(s, t) == f && f.action.RunPlan? ==>
              Enabled(s, Abandon(t)) && After(s, Abandon(t)) == State(s.entries, Popped(s, t))
  {
    if s.StackOf(t) != [] && Top(s, t) == f {
      assert Holds(s, t, |s.StackOf(t)| - 1, f.key);
    }
  }

  /** Awaiting is sound: a step of another task that spares running entries keeps what `Await` promises. */
  lemma AwaitSound(s: State, step: Step, t: nat)
    requires Invariant(s) && Enabled(s, step) && Sparing(s, step)
    requires !step.Evict? ==> step.task != t
    ensures var s' := After(s, step);
            && s'.StackOf(t) == s.StackOf(t) && DistinctKeys(s.StackOf(t))
            && Mine(KeysOf(s.StackOf(t)), s.entries) && Mine(KeysOf(s.StackOf(t)), s'.entries)
            && ResultsFinal(s'.entries) && Kept(KeysOf(s.StackOf(t)), s.entries, s'.entries)
  {
    OthersKeepMine(s, step, t);
    InvariantKept(s, step);
    HeldIsMine(s, t, s.StackOf(t));
    HeldIsMine(After(s, step), t, s.StackOf(t));
    var stack := s.StackOf(t);
    forall k | k in KeysOf(stack) ensures EntryOf(After(s, step).entries, k) == EntryOf(s.entries, k) {
      var i := KeyAt(stack, k);
      assert stack[i].key == k;
    }
  }

  lemma {:induction false} KeyAt(stack: Stack, k: Key) returns (i: nat)
    requires k in KeysOf(stack)
    ensures i < |stack| && stack[i].key == k
  {
    if stack[|stack| - 1].key == k {
      i := |stack| - 1;
    } else {
      i := KeyAt(stack[..|stack| - 1], k);
    }
  }

  lemma {:induction false} HeldIsMine(s: State, t: nat, stack: Stack)
    requires Invariant(s) && stack <= s.StackOf(t)
    ensures DistinctKeys(stack) && Mine(KeysOf(stack), s.entries)
  {
    if stack != [] {
      var front, last := stack[..|stack| - 1], stack[|stack| - 1];
      HeldIsMine(s, t, front);
      assert Holds(s, t, |front|, last.key);
      if last.key in KeysOf(front) {
        var i := KeyAt(front, last.key);
        assert Holds(s, t, i, last.key);
      }
    }
  }
}
