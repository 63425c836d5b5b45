/** The dependency graph of a change-set: walks, cycles, and what a topological order is. */
module DependencyGraph {
  import opened Ordering

  datatype RepoNode = RepoNode(alias: string, dependsOn: seq<string>)

  function Aliases(repos: seq<RepoNode>): (r: set<string>) {
    set node | node in repos :: node.alias
  }

  ghost predicate Edge(repos: seq<RepoNode>, a: string, d: string) {
    exists node :: node in repos && node.alias == a && d in node.dependsOn
  }

  ghost predicate DistinctAliases(repos: seq<RepoNode>) {
    forall i, j :: 0 <= i < j < |repos| ==> repos[i].alias != repos[j].alias
  }

  ghost predicate AllKnown(repos: seq<RepoNode>) {
    forall a, d :: Edge(repos, a, d) ==> d in Aliases(repos)
  }

  /** Each step of a walk goes from a repo to one of its dependencies. */
  ghost predicate Walk(repos: seq<RepoNode>, p: seq<string>) {
    |p| >= 1 && forall i :: 0 <= i < |p| - 1 ==> Edge(repos, p[i], p[i + 1])
  }

  ghost predicate Cycle(repos: seq<RepoNode>, p: seq<string>) {
    Walk(repos, p) && |p| >= 2 && p[0] == p[|p| - 1]
  }

  ghost predicate Acyclic(repos: seq<RepoNode>) {
    forall p :: !Cycle(repos, p)
  }

  ghost predicate WalkBetween(repos: seq<RepoNode>, p: seq<string>, a: string, b: string) {
    Walk(repos, p) && p[0] == a && p[|p| - 1] == b
  }

  /** `b` is `a` or one of its transitive dependencies. */
  ghost predicate Reaches(repos: seq<RepoNode>, a: string, b: string) {
    exists p :: WalkBetween(repos, p, a, b)
  }

  /** Every dependency of every repo stands before it. */
  ghost predicate DependenciesFirst(repos: seq<RepoNode>, order: seq<string>) {
    forall k, d :: 0 <= k < |order| && Edge(repos, order[k], d) ==> d in order[..k]
  }

  ghost predicate TopologicalOrder(repos: seq<RepoNode>, order: seq<string>) {
    NoDuplicates(order) && Elements(order) == Aliases(repos) && DependenciesFirst(repos, order)
  }

  /** Lexicographic order on alias lists of equal length. */
  ghost predicate ListLe(a: seq<string>, b: seq<string>) {
    a == b || exists k :: 0 <= k < |a| && k < |b| && a[..k] == b[..k] && Lt(a[k], b[k])
  }

  ghost predicate LeastTopologicalOrder(repos: seq<RepoNode>, order: seq<string>) {
    TopologicalOrder(repos, order)
    && forall other :: TopologicalOrder(repos, other) ==> ListLe(order, other)
  }

  // ---- What Kahn's loop can take next ----

  ghost predicate DepsDone(repos: seq<RepoNode>, a: string, done: set<string>) {
    forall d :: Edge(repos, a, d) ==> d in done
  }

  ghost predicate Ready(repos: seq<RepoNode>, done: set<string>, a: string) {
    a in Aliases(repos) && a !in done && DepsDone(repos, a, done)
  }

  /** Each entry was the least ready alias when it was taken. */
  ghost predicate Greedy(repos: seq<RepoNode>, order: seq<string>) {
    forall k :: 0 <= k < |order| ==>
      Ready(repos, Elements(order[..k]), order[k])
      && forall a :: Ready(repos, Elements(order[..k]), a) ==> Le(order[k], a)
  }

  lemma GreedyExtends(repos: seq<RepoNode>, order: seq<string>, next: string)
    requires Greedy(repos, order)
    requires Ready(repos, Elements(order), next)
    requires forall a :: Ready(repos, Elements(order), a) ==> Le(next, a)
    ensures Greedy(repos, order + [next])
  {
    var longer := order + [next];
    assert longer[..|order|] == order;
    forall k | 0 <= k < |order| ensures longer[..k] == order[..k] {}
  }

  lemma GreedyHasNoDuplicates(repos: seq<RepoNode>, order: seq<string>)
    requires Greedy(repos, order)
    ensures NoDuplicates(order)
    ensures Elements(order) <= Aliases(repos)
    ensures DependenciesFirst(repos, order)
  {
  }

  /** Taking the least ready alias each time gives the least of all topological orders. */
  lemma GreedyIsLeast(repos: seq<RepoNode>, order: seq<string>, other: seq<string>)
    requires Greedy(repos, order) && Elements(order) == Aliases(repos)
    requires TopologicalOrder(repos, other)
    ensures ListLe(order, other)
  {
    GreedyHasNoDuplicates(repos, order);
    NoDuplicatesCardinality(order);
    NoDuplicatesCardinality(other);
    GreedyIsLeastFrom(repos, order, other, 0);
  }

  lemma {:induction false} GreedyIsLeastFrom(repos: seq<RepoNode>, order: seq<string>, other: seq<string>, k: nat)
    requires Greedy(repos, order) && TopologicalOrder(repos, other)
    requires |order| == |other| && k <= |order| && order[..k] == other[..k]
    ensures ListLe(order, other)
    decreases |order| - k
  {
    if k == |order| {
      assert order == order[..k] && other == other[..k];
    } else if order[k] == other[k] {
      assert order[..k + 1] == order[..k] + [order[k]];
      assert other[..k + 1] == other[..k] + [other[k]];
      GreedyIsLeastFrom(repos, order, other, k + 1);
    } else {
      assert other[k] in Elements(other);
      forall d | Edge(repos, other[k], d) ensures d in Elements(order[..k]) {
        assert d in other[..k];
      }
      assert other[k] !in Elements(order[..k]);
      assert Ready(repos, Elements(order[..k]), other[k]);
      assert Le(order[k], other[k]);
    }
  }

  // ---- A stuck loop has met a cycle, and an ordered graph has none ----

  lemma {:induction false} StuckWalk(repos: seq<RepoNode>, done: set<string>, start: string, n: nat)
      returns (p: seq<string>)
    requires AllKnown(repos)
    requires forall a :: !Ready(repos, done, a)
    requires start in Aliases(repos) - done
    ensures Walk(repos, p) && |p| == n + 1
    ensures Elements(p) <= Aliases(repos) - done
  {
    if n == 0 {
      p := [start];
    } else {
      var q := StuckWalk(repos, done, start, n - 1);
      var last := q[|q| - 1];
      assert last in Elements(q);
      assert !Ready(repos, done, last);
      var d :| Edge(repos, last, d) && d !in done;
      p := q + [d];
    }
  }

  /** When nothing that remains is ready, a cycle lies among what remains. */
  lemma StuckHasCycle(repos: seq<RepoNode>, done: set<string>) returns (c: seq<string>)
    requires AllKnown(repos)
    requires forall a :: !Ready(repos, done, a)
    requires !(Aliases(repos) <= done)
    ensures Cycle(repos, c) && Elements(c) <= Aliases(repos) - done
  {
    var start :| start in Aliases(repos) && start !in done;
    var pool := Aliases(repos) - done;
    var p := StuckWalk(repos, done, start, |pool|);
    var i, j := Pigeonhole(p, pool);
    c := p[i..j + 1];
  }

  lemma {:induction false} WalkDescends(repos: seq<RepoNode>, order: seq<string>, p: seq<string>, k: nat)
    requires DependenciesFirst(repos, order)
    requires Walk(repos, p) && k < |order| && p[0] == order[k]
    ensures |p| >= 2 ==> p[|p| - 1] in order[..k]
  {
    if |p| >= 2 {
      assert Edge(repos, p[0], p[1]);
      var m :| 0 <= m < k && order[m] == p[1];
      if |p| > 2 {
        WalkDescends(repos, order, p[1..], m);
        assert order[..m] <= order[..k];
      }
    }
  }

  lemma OrderedIsAcyclic(repos: seq<RepoNode>, order: seq<string>)
    requires TopologicalOrder(repos, order)
    ensures Acyclic(repos)
  {
    forall p ensures !Cycle(repos, p) {
      if Cycle(repos, p) {
        assert Edge(repos, p[0], p[1]);
        assert p[0] in Aliases(repos);
        var k :| 0 <= k < |order| && order[k] == p[0];
        WalkDescends(repos, order, p, k);
        assert false;
      }
    }
  }

  // ---- Transitive dependencies, one edge at a time ----

  lemma ReachesSplit(repos: seq<RepoNode>, a: string, b: string)
    ensures Reaches(repos, a, b) <==> (a == b || exists d :: Edge(repos, a, d) && Reaches(repos, d, b))
  {
    if Reaches(repos, a, b) && a != b {
      var p :| WalkBetween(repos, p, a, b);
      assert |p| >= 2;
      assert WalkBetween(repos, p[1..], p[1], b);
      assert Edge(repos, a, p[1]) && Reaches(repos, p[1], b);
    }
    if a == b {
      assert WalkBetween(repos, [a], a, b);
    }
    if exists d :: Edge(repos, a, d) && Reaches(repos, d, b) {
      var d :| Edge(repos, a, d) && Reaches(repos, d, b);
      var p :| WalkBetween(repos, p, d, b);
      assert WalkBetween(repos, [a] + p, a, b);
    }
  }

  lemma AliasesOfSnoc(init: seq<RepoNode>, last: RepoNode)
    ensures Aliases(init + [last]) == Aliases(init) + {last.alias}
  {
  }

  lemma DistinctSnoc(init: seq<RepoNode>, last: RepoNode)
    ensures DistinctAliases(init + [last]) <==> DistinctAliases(init) && last.alias !in Aliases(init)
  {
    var repos := init + [last];
    if DistinctAliases(repos) {
      forall i, j | 0 <= i < j < |init| ensures init[i].alias != init[j].alias {
        assert repos[i].alias != repos[j].alias;
      }
      forall node | node in init ensures node.alias != last.alias {
        var i :| 0 <= i < |init| && init[i] == node;
        assert repos[i].alias != repos[|init|].alias;
      }
    }
  }

  /** Counting aliases detects a duplicated repo. */
  lemma {:induction false} DistinctAliasCount(repos: seq<RepoNode>)
    ensures |Aliases(repos)| <= |repos|
    ensures |Aliases(repos)| == |repos| <==> DistinctAliases(repos)
  {
    if repos == [] {
      assert Aliases(repos) == {};
    } else {
      var init := repos[..|repos| - 1];
      var last := repos[|repos| - 1];
      assert repos == init + [last];
      DistinctAliasCount(init);
      AliasesOfSnoc(init, last);
      DistinctSnoc(init, last);
      if last.alias in Aliases(init) {
        assert Aliases(repos) == Aliases(init);
      }
    }
  }
}
