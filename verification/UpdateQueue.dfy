/**
 The work queue that finds the affected containers
 (backend/core/update_actions/update_actions_plan.py, affected region). Nodes of `toUpdate` are never
 marked, so they are expanded every time they are popped: the queue ends exactly when no dependency
 cycle lies wholly inside `toUpdate`.
 */
module UpdateQueue {
  import opened DependencyGraph

  // ---------- One pop ----------

  ghost predicate IsListing(listing: seq<string>, s: set<string>) {
    && (forall i, j :: 0 <= i < j < |listing| ==> listing[i] != listing[j])
    && forall x :: x in listing <==> x in s
  }

  /** Popping the head: skip it if affected, else mark it unless updatable, and append its unaffected dependents. */
  ghost predicate QueueStep(dependables: Dependencies, toUpdate: set<string>,
                            queue: seq<string>, affected: set<string>, queue': seq<string>, affected': set<string>)
  {
    queue != [] &&
    if queue[0] in affected then queue' == queue[1..] && affected' == affected
    else
      && affected' == (if queue[0] in toUpdate then affected else affected + {queue[0]})
      && exists listing ::
           && IsListing(listing, Targets(dependables, queue[0]) - affected')
           && queue' == queue[1..] + listing
  }

  // ---------- With a cycle inside toUpdate it never ends ----------

  /** Some node of the cycle is still waiting. */
  ghost predicate CycleWaits(cycle: seq<string>, toUpdate: set<string>, queue: seq<string>, affected: set<string>) {
    affected !! toUpdate && exists i :: 0 <= i < |cycle| && cycle[i] in queue
  }

  lemma CycleStillWaits(dependables: Dependencies, toUpdate: set<string>, cycle: seq<string>,
                        queue: seq<string>, affected: set<string>, queue': seq<string>, affected': set<string>)
    requires IsCycle(dependables, cycle) && AllIn(cycle, toUpdate)
    requires CycleWaits(cycle, toUpdate, queue, affected)
    requires QueueStep(dependables, toUpdate, queue, affected, queue', affected')
    ensures CycleWaits(cycle, toUpdate, queue', affected') && queue' != []
  {
    var i :| 0 <= i < |cycle| && cycle[i] in queue;
    assert queue == [queue[0]] + queue[1..];
    if cycle[i] == queue[0] {
      var k := if i == |cycle| - 1 then 1 else i + 1;
      assert DependsOn(dependables, cycle[k - 1], cycle[k]);
      var listing :| IsListing(listing, Targets(dependables, queue[0]) - affected') && queue' == queue[1..] + listing;
      assert cycle[k] in listing;
      assert cycle[k] in queue';
    } else {
      assert cycle[i] in queue[1..];
      assert cycle[i] in queue';
    }
  }

  /** A run of the queue from its start: the states after 0, 1, 2, ... pops. */
  ghost predicate IsRun(dependables: Dependencies, toUpdate: set<string>, queues: seq<seq<string>>,
                        affecteds: seq<set<string>>)
  {
    && |queues| == |affecteds| > 0
    && IsListing(queues[0], toUpdate) && affecteds[0] == {}
    && forall i {:trigger queues[i]} :: 0 < i < |queues| ==>
         QueueStep(dependables, toUpdate, queues[i - 1], affecteds[i - 1], queues[i], affecteds[i])
  }

  /** With a cycle wholly inside `toUpdate`, the queue is not empty after any number `n` of pops. */
  lemma {:induction false} CycleRunsForever(dependables: Dependencies, toUpdate: set<string>, cycle: seq<string>,
                                            queues: seq<seq<string>>, affecteds: seq<set<string>>, n: nat)
    requires IsCycle(dependables, cycle) && AllIn(cycle, toUpdate)
    requires IsRun(dependables, toUpdate, queues, affecteds) && n < |queues|
    ensures queues[n] != [] && CycleWaits(cycle, toUpdate, queues[n], affecteds[n])
  {
    if n == 0 {
      assert cycle[0] in queues[0];
    } else {
      CycleRunsForever(dependables, toUpdate, cycle, queues, affecteds, n - 1);
      CycleStillWaits(dependables, toUpdate, cycle, queues[n - 1], affecteds[n - 1], queues[n], affecteds[n]);
    }
  }

  // ---------- Without one it ends: the measure ----------

  /** How many pops a node can cause while the nodes of `open` are still expanded. */
  ghost function Weight(g: Dependencies, node: string, open: set<string>): nat
    decreases |open|, 0, 0
  {
    if node !in open then 1 else 1 + WeightSum(g, Targets(g, node), open - {node})
  }

  ghost function WeightSum(g: Dependencies, nodes: set<string>, open: set<string>): nat
    decreases |open|, 1, |nodes|
  {
    if nodes == {} then 0
    else
      var x :| x in nodes;
      Weight(g, x, open) + WeightSum(g, nodes - {x}, open)
  }

  ghost function QueueWeight(g: Dependencies, queue: seq<string>, open: set<string>): nat {
    if queue == [] then 0 else Weight(g, queue[0], open) + QueueWeight(g, queue[1..], open)
  }

  lemma {:induction false} QueueWeightAppend(g: Dependencies, a: seq<string>, b: seq<string>, open: set<string>)
    ensures QueueWeight(g, a + b, open) == QueueWeight(g, a, open) + QueueWeight(g, b, open)
  {
    if a == [] {
      assert a + b == b;
    } else {
      assert (a + b)[1..] == a[1..] + b;
      QueueWeightAppend(g, a[1..], b, open);
    }
  }

  /** The sum does not depend on the order in which the nodes are taken. */
  lemma {:induction false} WeightSumTake(g: Dependencies, nodes: set<string>, y: string, open: set<string>)
    requires y in nodes
    ensures WeightSum(g, nodes, open) == Weight(g, y, open) + WeightSum(g, nodes - {y}, open)
    decreases |nodes|
  {
    var x :| x in nodes && WeightSum(g, nodes, open) == Weight(g, x, open) + WeightSum(g, nodes - {x}, open);
    if x != y {
      WeightSumTake(g, nodes - {x}, y, open);
      assert nodes - {x} - {y} == nodes - {y} - {x};
      WeightSumTake(g, nodes - {y}, x, open);
    }
  }

  lemma {:induction false} ListingWeight(g: Dependencies, listing: seq<string>, nodes: set<string>, open: set<string>)
    requires IsListing(listing, nodes)
    ensures QueueWeight(g, listing, open) == WeightSum(g, nodes, open)
    decreases |listing|
  {
    if listing == [] {
      assert nodes == {};
    } else {
      assert listing[0] in listing;
      WeightSumTake(g, nodes, listing[0], open);
      assert IsListing(listing[1..], nodes - {listing[0]}) by {
        forall x ensures x in listing[1..] <==> x in nodes - {listing[0]} {
          assert x in listing <==> x == listing[0] || x in listing[1..];
        }
      }
      ListingWeight(g, listing[1..], nodes - {listing[0]}, open);
    }
  }

  lemma {:induction false} WeightSumMonotone(g: Dependencies, part: set<string>, nodes: set<string>, open: set<string>)
    requires part <= nodes
    ensures WeightSum(g, part, open) <= WeightSum(g, nodes, open)
    decreases |nodes|
  {
    if part != nodes {
      var y :| y in nodes && y !in part;
      WeightSumTake(g, nodes, y, open);
      WeightSumMonotone(g, part, nodes - {y}, open);
    }
  }

  ghost predicate ReachesInside(g: Dependencies, a: string, b: string, inside: set<string>) {
    exists p :: PathBetween(g, p, a, b) && AllIn(p, inside)
  }

  /** A node that cannot be reached inside `open` does not weigh in. */
  lemma {:induction false} WeightWithout(g: Dependencies, m: string, open: set<string>, n: string)
    requires !ReachesInside(g, m, n, open)
    ensures Weight(g, m, open) == Weight(g, m, open - {n})
    decreases |open|, 0, 0
  {
    if m in open {
      assert m != n by {
        if m == n {
          assert PathBetween(g, [m], m, n) && AllIn([m], open);
        }
      }
      var open' := open - {m};
      assert open - {n} - {m} == open' - {n};
      forall d | d in Targets(g, m) ensures !ReachesInside(g, d, n, open') {
        if ReachesInside(g, d, n, open') {
          var p :| PathBetween(g, p, d, n) && AllIn(p, open');
          var q := [m] + p;
          forall i | 0 <= i < |q| - 1 ensures DependsOn(g, q[i], q[i + 1]) {
            if i > 0 {
              assert DependsOn(g, p[i - 1], p[i - 1 + 1]);
            }
          }
          assert PathBetween(g, q, m, n) && AllIn(q, open);
        }
      }
      WeightSumWithout(g, Targets(g, m), open', n);
    }
  }

  lemma {:induction false} WeightSumWithout(g: Dependencies, nodes: set<string>, open: set<string>, n: string)
    requires forall d :: d in nodes ==> !ReachesInside(g, d, n, open)
    ensures WeightSum(g, nodes, open) == WeightSum(g, nodes, open - {n})
    decreases |open|, 1, |nodes|
  {
    if nodes != {} {
      var x :| x in nodes && WeightSum(g, nodes, open) == Weight(g, x, open) + WeightSum(g, nodes - {x}, open);
      WeightWithout(g, x, open, n);
      WeightSumWithout(g, nodes - {x}, open, n);
      WeightSumTake(g, nodes, x, open - {n});
    }
  }

  /** Expanding a node outside every cycle replaces it by less than its own weight. */
  lemma ExpansionShrinks(g: Dependencies, toUpdate: set<string>, node: string, listing: seq<string>, part: set<string>)
    requires AcyclicInside(g, toUpdate) && node in toUpdate
    requires part <= Targets(g, node) && IsListing(listing, part)
    ensures QueueWeight(g, listing, toUpdate) < Weight(g, node, toUpdate)
  {
    forall d | d in Targets(g, node) ensures !ReachesInside(g, d, node, toUpdate) {
      if ReachesInside(g, d, node, toUpdate) {
        var p :| PathBetween(g, p, d, node) && AllIn(p, toUpdate);
        var q := [node] + p;
        forall i | 0 <= i < |q| - 1 ensures DependsOn(g, q[i], q[i + 1]) {
          if i > 0 {
            assert DependsOn(g, p[i - 1], p[i - 1 + 1]);
          }
        }
        assert IsCycle(g, q) && AllIn(q, toUpdate);
      }
    }
    WeightSumWithout(g, Targets(g, node), toUpdate, node);
    ListingWeight(g, listing, part, toUpdate);
    WeightSumMonotone(g, part, Targets(g, node), toUpdate);
  }

  // ---------- The loop ----------

  function AllNodes(g: Dependencies): set<string> {
    g.Keys + set a, b | a in g.Keys && b in g[a] :: b
  }

  /** `list(s)`: the members in some order. */
  method ListOf(s: set<string>) returns (listing: seq<string>)
    ensures IsListing(listing, s)
  {
    listing := [];
    var rest := s;
    while rest != {}
      invariant rest <= s && IsListing(listing, s - rest)
      decreases rest
    {
      var x :| x in rest;
      listing := listing + [x];
      rest := rest - {x};
    }
  }

  /** One round of the loop. */
  method Pop(dependables: Dependencies, toUpdate: set<string>, queue: seq<string>, affected: set<string>)
    returns (queue': seq<string>, affected': set<string>)
    requires queue != []
    ensures QueueStep(dependables, toUpdate, queue, affected, queue', affected')
  {
    var node := queue[0];
    queue', affected' := queue[1..], affected;
    if node in affected {
      return;
    }
    if node !in toUpdate {
      affected' := affected' + {node};
    }
    var rest := Targets(dependables, node);
    ghost var listing: seq<string> := [];
    while rest != {}
      invariant rest <= Targets(dependables, node)
      invariant queue' == queue[1..] + listing && IsListing(listing, Targets(dependables, node) - rest - affected')
      decreases rest
    {
      var dep :| dep in rest;
      assert dep !in listing;
      rest := rest - {dep};
      if dep !in affected' {
        queue', listing := queue' + [dep], listing + [dep];
      }
    }
  }

  ghost predicate SeedReaches(g: Dependencies, seeds: set<string>, n: string) {
    exists s :: s in seeds && Reaches(g, s, n)
  }

  /** Everything queued or marked depends on a seed; marked nodes are expanded, seeds are or still wait. */
  ghost predicate Searching(g: Dependencies, toUpdate: set<string>, queue: seq<string>, affected: set<string>) {
    && affected !! toUpdate
    && (forall n :: n in affected || n in queue ==> SeedReaches(g, toUpdate, n))
    && (forall n :: n in affected ==> Expanded(g, toUpdate, queue, affected, n))
    && (forall n :: n in toUpdate ==> n in queue || Expanded(g, toUpdate, queue, affected, n))
  }

  ghost predicate Expanded(g: Dependencies, toUpdate: set<string>, queue: seq<string>, affected: set<string>, n: string)
  {
    forall d :: DependsOn(g, n, d) ==> d in toUpdate + affected || d in queue
  }

  lemma StepSearches(g: Dependencies, toUpdate: set<string>, queue: seq<string>, affected: set<string>,
                     queue': seq<string>, affected': set<string>)
    requires Searching(g, toUpdate, queue, affected) && QueueStep(g, toUpdate, queue, affected, queue', affected')
    ensures Searching(g, toUpdate, queue', affected')
  {
    var node := queue[0];
    assert queue == [node] + queue[1..];
    assert node in queue;
    if node !in affected {
      var listing :| IsListing(listing, Targets(g, node) - affected') && queue' == queue[1..] + listing;
      forall n | n in affected' || n in queue' ensures SeedReaches(g, toUpdate, n) {
        if n in listing {
          var s :| s in toUpdate && Reaches(g, s, node);
          ReachesStep(g, s, node, n);
        } else {
          assert n == node || n in affected || n in queue;
        }
      }
      forall n | n in affected' || (n in toUpdate && n !in queue') ensures Expanded(g, toUpdate, queue', affected', n) {
        forall d | DependsOn(g, n, d) ensures d in toUpdate + affected' || d in queue' {
          if n == node {
            assert d in Targets(g, node);
            assert d in affected' || d in listing;
          } else {
            assert n in affected || n !in queue;
            assert Expanded(g, toUpdate, queue, affected, n);
          }
        }
      }
    } else {
      forall n | n in affected || (n in toUpdate && n !in queue') ensures Expanded(g, toUpdate, queue', affected', n) {
        assert n in affected || n !in queue;
        assert Expanded(g, toUpdate, queue, affected, n);
      }
    }
  }

  /** The containers that depend, directly or not, on an updatable one, without the updatable ones. */
  ghost predicate IsAffected(g: Dependencies, toUpdate: set<string>, n: string) {
    n !in toUpdate && SeedReaches(g, toUpdate, n)
  }

  lemma SearchComplete(g: Dependencies, toUpdate: set<string>, affected: set<string>)
    requires Searching(g, toUpdate, [], affected)
    ensures forall n :: n in affected <==> IsAffected(g, toUpdate, n)
  {
    forall n | IsAffected(g, toUpdate, n) ensures n in affected {
      var s :| s in toUpdate && Reaches(g, s, n);
      forall x, y | x in toUpdate + affected && DependsOn(g, x, y) ensures y in toUpdate + affected {
        assert Expanded(g, toUpdate, [], affected, x);
      }
      ClosedUnderPaths(g, toUpdate + affected, s, n);
    }
  }

  /** Each pop lowers the pair (unmarked nodes, weight of the queue). */
  lemma PopShrinks(g: Dependencies, toUpdate: set<string>, queue: seq<string>, affected: set<string>,
                   queue': seq<string>, affected': set<string>)
    requires AcyclicInside(g, toUpdate) && QueueStep(g, toUpdate, queue, affected, queue', affected')
    requires queue[0] in AllNodes(g) + toUpdate
    ensures var left, left' := AllNodes(g) - toUpdate - affected, AllNodes(g) - toUpdate - affected';
            || |left'| < |left|
            || (left' == left && QueueWeight(g, queue', toUpdate) < QueueWeight(g, queue, toUpdate))
  {
    var node := queue[0];
    var left, left' := AllNodes(g) - toUpdate - affected, AllNodes(g) - toUpdate - affected';
    if node in affected {
      assert Weight(g, node, toUpdate) >= 1;
    } else {
      var listing :| IsListing(listing, Targets(g, node) - affected') && queue' == queue[1..] + listing;
      if node in toUpdate {
        ExpansionShrinks(g, toUpdate, node, listing, Targets(g, node) - affected');
        QueueWeightAppend(g, queue[1..], listing, toUpdate);
      } else {
        assert left' == left - {node};
      }
    }
  }

  /** The queued nodes are the seeds and nodes somebody depends on. */
  lemma QueueKnown(g: Dependencies, toUpdate: set<string>, queue: seq<string>, affected: set<string>,
                   queue': seq<string>, affected': set<string>)
    requires QueueStep(g, toUpdate, queue, affected, queue', affected')
    requires forall n :: n in queue ==> n in AllNodes(g) + toUpdate
    ensures forall n :: n in queue' ==> n in AllNodes(g) + toUpdate
  {
  }

  ghost predicate Running(g: Dependencies, toUpdate: set<string>, queue: seq<string>, affected: set<string>) {
    Searching(g, toUpdate, queue, affected) && forall n :: n in queue ==> n in AllNodes(g) + toUpdate
  }

  ghost function Unmarked(g: Dependencies, toUpdate: set<string>, affected: set<string>): nat {
    |AllNodes(g) - toUpdate - affected|
  }

  lemma RoundRuns(g: Dependencies, toUpdate: set<string>, queue: seq<string>, affected: set<string>,
                  queue': seq<string>, affected': set<string>)
    requires AcyclicInside(g, toUpdate) && Running(g, toUpdate, queue, affected)
    requires QueueStep(g, toUpdate, queue, affected, queue', affected')
    ensures Running(g, toUpdate, queue', affected')
    ensures Unmarked(g, toUpdate, affected') < Unmarked(g, toUpdate, affected) ||
            (Unmarked(g, toUpdate, affected') == Unmarked(g, toUpdate, affected) &&
             QueueWeight(g, queue', toUpdate) < QueueWeight(g, queue, toUpdate))
  {
    assert queue[0] in queue;
    StepSearches(g, toUpdate, queue, affected, queue', affected');
    PopShrinks(g, toUpdate, queue, affected, queue', affected');
    QueueKnown(g, toUpdate, queue, affected, queue', affected');
  }

  lemma RunBegins(g: Dependencies, toUpdate: set<string>, queue: seq<string>)
    requires IsListing(queue, toUpdate)
    ensures Running(g, toUpdate, queue, {})
  {
    forall n | n in toUpdate ensures SeedReaches(g, toUpdate, n) {
      ReachesSelf(g, n);
    }
  }

  /** The loop; it is total exactly because no dependency cycle lies wholly inside `toUpdate`. */
  method FindAffected(dependables: Dependencies, toUpdate: set<string>) returns (affected: set<string>)
    requires AcyclicInside(dependables, toUpdate)
    ensures forall n :: n in affected <==> IsAffected(dependables, toUpdate, n)
  {
    affected := {};
    var queue := ListOf(toUpdate);
    RunBegins(dependables, toUpdate, queue);
    while queue != []
      invariant Running(dependables, toUpdate, queue, affected)
      decreases Unmarked(dependables, toUpdate, affected), QueueWeight(dependables, queue, toUpdate)
    {
      var queue', affected' := Pop(dependables, toUpdate, queue, affected);
      RoundRuns(dependables, toUpdate, queue, affected, queue', affected');
      queue, affected := queue', affected';
    }
    SearchComplete(dependables, toUpdate, affected);
  }
}
