/** Dependency graphs between containers, by name: who depends on whom, directly and transitively. */
module DependencyGraph {

  /** From a container to what it depends on; a name without an entry depends on nothing. */
  type Dependencies = map<string, set<string>>

  predicate Distinct(s: seq<string>) {
    forall i, j :: 0 <= i < j < |s| ==> s[i] != s[j]
  }

  predicate DependsOn(deps: Dependencies, name: string, dep: string) {
    name in deps && dep in deps[name]
  }

  function Targets(deps: Dependencies, name: string): set<string> {
    if name in deps then deps[name] else {}
  }

  ghost predicate IsPath(deps: Dependencies, p: seq<string>) {
    |p| > 0 && forall i :: 0 <= i < |p| - 1 ==> DependsOn(deps, p[i], p[i + 1])
  }

  ghost predicate PathBetween(deps: Dependencies, p: seq<string>, a: string, b: string) {
    IsPath(deps, p) && p[0] == a && p[|p| - 1] == b
  }

  /** Zero or more dependency steps. */
  ghost predicate Reaches(deps: Dependencies, a: string, b: string) {
    exists p :: PathBetween(deps, p, a, b)
  }

  /** A path of at least one step from a node back to itself. */
  ghost predicate IsCycle(deps: Dependencies, p: seq<string>) {
    IsPath(deps, p) && |p| >= 2 && p[0] == p[|p| - 1]
  }

  ghost predicate Acyclic(deps: Dependencies) {
    forall p :: !IsCycle(deps, p)
  }

  ghost predicate AllIn(p: seq<string>, inside: set<string>) {
    forall i :: 0 <= i < |p| ==> p[i] in inside
  }

  /** No cycle lies wholly inside the given set. */
  ghost predicate AcyclicInside(deps: Dependencies, inside: set<string>) {
    forall p :: IsCycle(deps, p) ==> !AllIn(p, inside)
  }

  ghost predicate Inverse(deps: Dependencies, reversed: Dependencies) {
    forall a, b :: DependsOn(reversed, b, a) <==> DependsOn(deps, a, b)
  }

  lemma ReachesSelf(deps: Dependencies, a: string)
    ensures Reaches(deps, a, a)
  {
    assert PathBetween(deps, [a], a, a);
  }

  lemma PathJoins(deps: Dependencies, p: seq<string>, q: seq<string>)
    requires IsPath(deps, p) && IsPath(deps, q) && p[|p| - 1] == q[0]
    ensures IsPath(deps, p + q[1..])
  {
  }

  lemma ReachesTransitive(deps: Dependencies, a: string, b: string, c: string)
    requires Reaches(deps, a, b) && Reaches(deps, b, c)
    ensures Reaches(deps, a, c)
  {
    var p :| PathBetween(deps, p, a, b);
    var q :| PathBetween(deps, q, b, c);
    PathJoins(deps, p, q);
    assert PathBetween(deps, p + q[1..], a, c);
  }

  lemma ReachesStep(deps: Dependencies, a: string, b: string, c: string)
    requires Reaches(deps, a, b) && DependsOn(deps, b, c)
    ensures Reaches(deps, a, c)
  {
    assert PathBetween(deps, [b, c], b, c);
    ReachesTransitive(deps, a, b, c);
  }

  /** A set closed under dependencies holds everything its members reach. */
  lemma ClosedUnderPaths(deps: Dependencies, s: set<string>, a: string, b: string)
    requires forall x, y :: x in s && DependsOn(deps, x, y) ==> y in s
    requires a in s && Reaches(deps, a, b)
    ensures b in s
  {
    var p :| PathBetween(deps, p, a, b);
    var i := 0;
    while i < |p| - 1
      invariant 0 <= i < |p| && p[i] in s
    {
      assert DependsOn(deps, p[i], p[i + 1]);
      i := i + 1;
    }
  }

  function Backwards(p: seq<string>): seq<string> {
    seq(|p|, i requires 0 <= i < |p| => p[|p| - 1 - i])
  }

  lemma BackwardsPath(deps: Dependencies, reversed: Dependencies, p: seq<string>)
    requires Inverse(deps, reversed) && IsPath(deps, p)
    ensures IsPath(reversed, Backwards(p))
  {
  }

  lemma ReachesBackwards(deps: Dependencies, reversed: Dependencies, a: string, b: string)
    requires Inverse(deps, reversed)
    ensures Reaches(deps, a, b) <==> Reaches(reversed, b, a)
  {
    if Reaches(deps, a, b) {
      var p :| PathBetween(deps, p, a, b);
      BackwardsPath(deps, reversed, p);
      assert PathBetween(reversed, Backwards(p), b, a);
    }
    if Reaches(reversed, b, a) {
      var p :| PathBetween(reversed, p, b, a);
      assert Inverse(reversed, deps);
      BackwardsPath(reversed, deps, p);
      assert PathBetween(deps, Backwards(p), a, b);
    }
  }

  /** The reverse map has a cycle inside a set exactly when the map has one. */
  lemma AcyclicBackwards(deps: Dependencies, reversed: Dependencies, inside: set<string>)
    requires Inverse(deps, reversed)
    ensures AcyclicInside(deps, inside) <==> AcyclicInside(reversed, inside)
  {
    assert Inverse(reversed, deps);
    if AcyclicInside(deps, inside) {
      forall p | IsCycle(reversed, p) ensures !AllIn(p, inside) {
        CycleBackwards(reversed, deps, p, inside);
      }
    }
    if AcyclicInside(reversed, inside) {
      forall p | IsCycle(deps, p) ensures !AllIn(p, inside) {
        CycleBackwards(deps, reversed, p, inside);
      }
    }
  }

  lemma CycleBackwards(deps: Dependencies, reversed: Dependencies, p: seq<string>, inside: set<string>)
    requires Inverse(deps, reversed) && IsCycle(deps, p)
    ensures IsCycle(reversed, Backwards(p)) && (AllIn(p, inside) ==> AllIn(Backwards(p), inside))
  {
    BackwardsPath(deps, reversed, p);
  }
}
