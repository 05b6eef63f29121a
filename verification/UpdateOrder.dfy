/**
 The execution order (backend/core/update_actions/update_actions_plan.py, topological sort region): a
 depth-first search whose closure variables are `visited` and `order`. The dependencies of a node are
 taken in any order, and the graph may contain cycles.
 */
module UpdateOrder {
  import opened DependencyGraph

  /** Every dependency of a listed node is listed before it, or the node is itself a dependency of it. */
  ghost predicate DependenciesFirst(deps: Dependencies, order: seq<string>) {
    forall i, d :: 0 <= i < |order| && DependsOn(deps, order[i], d) ==> d in order[..i] || Reaches(deps, d, order[i])
  }

  /** The members of the order are exactly what the seeds reach. */
  ghost predicate IsClosure(deps: Dependencies, seeds: set<string>, order: seq<string>) {
    forall n :: n in order <==> exists s :: s in seeds && Reaches(deps, s, n)
  }

  class OrderBuilder {
    const deps: Dependencies
    ghost const nodes: set<string>
    var visited: set<string>
    var order: seq<string>

    constructor (deps: Dependencies, ghost nodes: set<string>)
      requires forall n, d :: DependsOn(deps, n, d) ==> d in nodes
      ensures this.deps == deps && this.nodes == nodes && visited == {} && order == [] && Valid()
    {
      this.deps, this.nodes, visited, order := deps, nodes, {}, [];
    }

    /** Visited but not yet listed: the nodes the search is inside of. */
    ghost function Open(): set<string>
      reads this
    {
      set n | n in visited && n !in order
    }

    ghost predicate Valid()
      reads this
    {
      && (forall n, d :: DependsOn(deps, n, d) ==> d in nodes)
      && visited <= nodes && Distinct(order)
      && (forall n :: n in order ==> n in visited)
      && (forall n, d :: n in order && DependsOn(deps, n, d) ==> d in visited)
      && DependenciesFirst(deps, order)
    }

    lemma Finish(node: string)
      requires Valid() && node in visited && node !in order
      requires forall d :: DependsOn(deps, node, d) ==> d in visited && (d in order || Reaches(deps, d, node))
      ensures Distinct(order + [node]) && DependenciesFirst(deps, order + [node])
    {
      var order' := order + [node];
      forall i, d | 0 <= i < |order'| && DependsOn(deps, order'[i], d)
        ensures d in order'[..i] || Reaches(deps, d, order'[i])
      {
        assert order'[..i] == order[..i];
        if i == |order| {
          assert order[..i] == order;
        }
      }
    }

    /** Lists everything the node reaches that was not visited yet. */
    method Dfs(node: string)
      requires Valid() && node in nodes
      requires forall g :: g in Open() ==> Reaches(deps, g, node)
      modifies this
      ensures Valid() && old(visited) <= visited && node in visited
      ensures old(order) <= order && Open() == old(Open())
      ensures forall n :: n in visited && n !in old(visited) ==> Reaches(deps, node, n)
      decreases nodes - visited
    {
      if node in visited {
        return;
      }
      visited := visited + {node};
      ReachesSelf(deps, node);
      var rest := Targets(deps, node);
      while rest != {}
        invariant Valid() && rest <= Targets(deps, node)
        invariant old(visited) + {node} <= visited && old(order) <= order && Open() == old(Open()) + {node}
        invariant forall n :: n in visited && n !in old(visited) ==> Reaches(deps, node, n)
        invariant forall d :: d in Targets(deps, node) && d !in rest ==> d in visited
        decreases rest
      {
        var dep :| dep in rest;
        rest := rest - {dep};
        assert DependsOn(deps, node, dep);
        forall g | g in Open() ensures Reaches(deps, g, dep) {
          ReachesStep(deps, g, node, dep);
        }
        ReachesStep(deps, node, node, dep);
        ghost var before := visited;
        Dfs(dep);
        forall n | n in visited && n !in before ensures Reaches(deps, node, n) {
          ReachesTransitive(deps, node, dep, n);
        }
      }
      forall d | DependsOn(deps, node, d) ensures d in visited && (d in order || Reaches(deps, d, node)) {
        assert d in Targets(deps, node);
        if d !in order {
          assert d in Open();
        }
      }
      assert node in Open();
      Finish(node);
      order := order + [node];
    }

    /** Visits every seed from the outside. */
    method Build(seeds: set<string>)
      requires Valid() && visited == {} && seeds <= nodes
      modifies this
      ensures Valid() && IsClosure(deps, seeds, order)
    {
      var rest := seeds;
      while rest != {}
        invariant Valid() && rest <= seeds && Open() == {}
        invariant forall n :: n in visited ==> exists s :: s in seeds && Reaches(deps, s, n)
        invariant forall s :: s in seeds && s !in rest ==> s in visited
        decreases rest
      {
        var n :| n in rest;
        rest := rest - {n};
        Dfs(n);
      }
      forall x, y | x in visited && DependsOn(deps, x, y) ensures y in visited {
        assert x !in order ==> x in Open();
      }
      forall n ensures n in order <==> exists s :: s in seeds && Reaches(deps, s, n) {
        assert n in visited && n !in order ==> n in Open();
        if s :| s in seeds && Reaches(deps, s, n) {
          ClosedUnderPaths(deps, visited, s, n);
        }
      }
    }
  }

  /** Keeping only some names keeps their relative order. */
  method Filter(order: seq<string>, keep: set<string>) returns (kept: seq<string>)
    requires Distinct(order)
    ensures Distinct(kept) && forall n :: n in kept <==> n in order && n in keep
    ensures forall i, j :: 0 <= i < j < |order| && order[i] in keep && order[j] in keep ==>
              Precedes(kept, order[i], order[j])
  {
    kept := [];
    for k := 0 to |order|
      invariant Distinct(kept) && forall n :: n in kept <==> n in order[..k] && n in keep
      invariant forall i, j :: 0 <= i < j < k && order[i] in keep && order[j] in keep ==>
                  Precedes(kept, order[i], order[j])
    {
      assert order[..k + 1] == order[..k] + [order[k]];
      if order[k] in keep {
        assert order[k] !in order[..k];
        forall i, j | 0 <= i < j < k + 1 && order[i] in keep && order[j] in keep
          ensures Precedes(kept + [order[k]], order[i], order[j])
        {
          if j < k {
            PrecedesExtends(kept, order[k], order[i], order[j]);
          } else {
            assert order[i] in order[..k];
            LastFollows(kept, order[k], order[i]);
          }
        }
        kept := kept + [order[k]];
      }
    }
    assert order[..|order|] == order;
  }

  ghost predicate Precedes(s: seq<string>, a: string, b: string) {
    exists i, j :: 0 <= i < j < |s| && s[i] == a && s[j] == b
  }

  lemma PrecedesExtends(s: seq<string>, x: string, a: string, b: string)
    requires Precedes(s, a, b)
    ensures Precedes(s + [x], a, b)
  {
    var i, j :| 0 <= i < j < |s| && s[i] == a && s[j] == b;
    assert (s + [x])[i] == a && (s + [x])[j] == b;
  }

  lemma LastFollows(s: seq<string>, x: string, a: string)
    requires a in s
    ensures Precedes(s + [x], a, x)
  {
    var i :| 0 <= i < |s| && s[i] == a;
    assert (s + [x])[i] == a && (s + [x])[|s|] == x;
  }

  /** What the order promises after the filter, for any graph. */
  ghost predicate OrdersAmong(deps: Dependencies, order: seq<string>, keep: set<string>) {
    forall n, d :: n in order && d in keep && DependsOn(deps, n, d) ==>
      d in order && (Precedes(order, d, n) || Reaches(deps, d, n))
  }

  lemma FilterKeepsOrder(deps: Dependencies, seeds: set<string>, order: seq<string>, keep: set<string>,
                         kept: seq<string>)
    requires Distinct(order) && DependenciesFirst(deps, order) && IsClosure(deps, seeds, order)
    requires forall n :: n in kept <==> n in order && n in keep
    requires forall i, j :: 0 <= i < j < |order| && order[i] in keep && order[j] in keep ==>
               Precedes(kept, order[i], order[j])
    ensures OrdersAmong(deps, kept, keep)
  {
    forall n, d | n in kept && d in keep && DependsOn(deps, n, d)
      ensures d in kept && (Precedes(kept, d, n) || Reaches(deps, d, n))
    {
      var s :| s in seeds && Reaches(deps, s, n);
      ReachesStep(deps, s, n, d);
      assert d in order;
      var i :| 0 <= i < |order| && order[i] == n;
      if d in order[..i] {
        var j :| 0 <= j < i && order[..i][j] == d;
        assert order[j] == d;
      }
    }
  }

  /** In an acyclic graph the kept order is strictly topological. */
  lemma AcyclicOrder(deps: Dependencies, order: seq<string>, keep: set<string>, i: nat, d: string)
    requires Distinct(order) && OrdersAmong(deps, order, keep) && Acyclic(deps)
    requires i < |order| && d in keep && DependsOn(deps, order[i], d)
    ensures d in order[..i]
  {
    var n := order[i];
    if Reaches(deps, d, n) {
      var p :| PathBetween(deps, p, d, n);
      var q := [n] + p;
      forall k | 0 <= k < |q| - 1 ensures DependsOn(deps, q[k], q[k + 1]) {
        if k > 0 {
          assert DependsOn(deps, p[k - 1], p[k - 1 + 1]);
        }
      }
      assert IsCycle(deps, q);
      assert false;
    }
    var a, b :| 0 <= a < b < |order| && order[a] == d && order[b] == n;
    assert b == i;
  }
}
