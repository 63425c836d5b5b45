/** The multi-repository change-set saga of internal/kernel/changeset.go. */
module ChangeSet {
  import opened Ordering
  import opened DependencyGraph

  datatype Result<+T, +E> = Ok(value: T) | Err(error: E)

  datatype OrderError =
    | UnknownDependency(alias: string, dependency: string)
    | DependencyCycle(repoCount: nat)

  // ---- The counters Kahn's loop keeps ----

  /** One dependency edge: `from` depends on `on`. */
  datatype Dep = Dep(from: string, on: string)

  function RepoDeps(node: RepoNode): seq<Dep> {
    seq(|node.dependsOn|, i requires 0 <= i < |node.dependsOn| => Dep(node.alias, node.dependsOn[i]))
  }

  /** All declared edges in list order, repetitions kept. */
  function DepList(repos: seq<RepoNode>): seq<Dep> {
    if repos == [] then []
    else DepList(repos[..|repos| - 1]) + RepoDeps(repos[|repos| - 1])
  }

  /** The in-degree of `a` once the repos in `done` have been taken. */
  function InDegree(deps: seq<Dep>, a: string, done: set<string>): nat {
    if deps == [] then 0
    else
      var last := deps[|deps| - 1];
      InDegree(deps[..|deps| - 1], a, done) + (if last.from == a && last.on !in done then 1 else 0)
  }

  /** One entry per edge into `d`, in list order. */
  function Children(deps: seq<Dep>, d: string): seq<string> {
    if deps == [] then []
    else
      var last := deps[|deps| - 1];
      Children(deps[..|deps| - 1], d) + (if last.on == d then [last.from] else [])
  }

  lemma {:induction false} EdgeIsListed(repos: seq<RepoNode>, a: string, d: string)
    ensures Edge(repos, a, d) <==> Dep(a, d) in DepList(repos)
  {
    if repos != [] {
      var init, last := repos[..|repos| - 1], repos[|repos| - 1];
      assert repos == init + [last];
      EdgeIsListed(init, a, d);
      EdgeSnoc(init, last, a, d);
      if last.alias == a && d in last.dependsOn {
        var i :| 0 <= i < |last.dependsOn| && last.dependsOn[i] == d;
        assert RepoDeps(last)[i] == Dep(a, d);
      }
    }
  }

  lemma EdgeSnoc(init: seq<RepoNode>, last: RepoNode, a: string, d: string)
    ensures Edge(init + [last], a, d) <==> Edge(init, a, d) || (last.alias == a && d in last.dependsOn)
  {
  }

  lemma {:induction false} InDegreeZero(deps: seq<Dep>, a: string, done: set<string>)
    ensures InDegree(deps, a, done) == 0 <==> forall d :: Dep(a, d) in deps ==> d in done
  {
    if deps != [] {
      var init, last := deps[..|deps| - 1], deps[|deps| - 1];
      assert deps == init + [last];
      InDegreeZero(init, a, done);
      assert forall d :: Dep(a, d) in deps <==> Dep(a, d) in init || last == Dep(a, d);
      if last.from == a {
        assert last == Dep(a, last.on);
      }
    }
  }

  lemma DepsDoneIsZero(repos: seq<RepoNode>, a: string, done: set<string>)
    ensures DepsDone(repos, a, done) <==> InDegree(DepList(repos), a, done) == 0
  {
    InDegreeZero(DepList(repos), a, done);
    forall d ensures Edge(repos, a, d) <==> Dep(a, d) in DepList(repos) {
      EdgeIsListed(repos, a, d);
    }
  }

  /** Taking `next` lowers each in-degree by the number of edges into `next`. */
  lemma {:induction false} InDegreeDrops(deps: seq<Dep>, a: string, done: set<string>, next: string)
    requires next !in done
    ensures InDegree(deps, a, done + {next}) + multiset(Children(deps, next))[a] == InDegree(deps, a, done)
  {
    if deps != [] {
      InDegreeDrops(deps[..|deps| - 1], a, done, next);
    }
  }

  lemma {:induction false} ChildrenMembers(deps: seq<Dep>, d: string, c: string)
    ensures c in Children(deps, d) <==> Dep(c, d) in deps
  {
    if deps != [] {
      var init, last := deps[..|deps| - 1], deps[|deps| - 1];
      assert deps == init + [last];
      ChildrenMembers(init, d, c);
    }
  }

  // ---- topoOrder ----

  function Get(m: map<string, seq<string>>, k: string): seq<string> {
    if k in m then m[k] else []
  }

  ghost predicate Counted(read: seq<Dep>, indeg: map<string, int>, kids: map<string, seq<string>>) {
    (forall a :: a in indeg ==> indeg[a] == InDegree(read, a, {}))
    && (forall d :: Get(kids, d) == Children(read, d))
  }

  lemma CountOne(read: seq<Dep>, dep: Dep, indeg: map<string, int>, kids: map<string, seq<string>>)
    requires Counted(read, indeg, kids)
    requires dep.from in indeg
    ensures Counted(read + [dep], indeg[dep.from := indeg[dep.from] + 1], kids[dep.on := Get(kids, dep.on) + [dep.from]])
  {
    var read' := read + [dep];
    assert read'[..|read|] == read;
    forall a ensures InDegree(read', a, {}) == InDegree(read, a, {}) + (if dep.from == a then 1 else 0) {}
    forall d ensures Children(read', d) == Children(read, d) + (if dep.on == d then [dep.from] else []) {}
  }

  lemma {:induction false} NoDepsNoDegree(read: seq<Dep>, a: string)
    requires forall dep :: dep in read ==> dep.from != a
    ensures InDegree(read, a, {}) == 0
  {
    if read != [] {
      NoDepsNoDegree(read[..|read| - 1], a);
    }
  }

  /** Reads the graph into in-degrees and child lists, or names a dependency that no repo provides. */
  method CountEdges(repos: seq<RepoNode>)
    returns (unknown: Result<(), OrderError>, indeg: map<string, int>, kids: map<string, seq<string>>)
    ensures unknown.Ok? ==> AllKnown(repos) && indeg.Keys == Aliases(repos) && Counted(DepList(repos), indeg, kids)
    ensures unknown.Err? ==>
              unknown.error.UnknownDependency?
              && Edge(repos, unknown.error.alias, unknown.error.dependency)
              && unknown.error.dependency !in Aliases(repos)
  {
    var known: set<string> := {};
    for i := 0 to |repos|
      invariant known == Aliases(repos[..i])
    {
      known := known + {repos[i].alias};
      assert repos[..i + 1] == repos[..i] + [repos[i]];
      AliasesOfSnoc(repos[..i], repos[i]);
    }
    assert repos[..|repos|] == repos;
    indeg, kids := map[], map[];
    for i := 0 to |repos|
      invariant indeg.Keys == Aliases(repos[..i])
      invariant Counted(DepList(repos[..i]), indeg, kids)
      invariant forall dep :: dep in DepList(repos[..i]) ==> dep.from in indeg && dep.on in known
    {
      ghost var before := DepList(repos[..i]);
      unknown, indeg, kids := CountRepo(repos[i], known, before, indeg, kids);
      if unknown.Err? {
        assert repos[i] in repos;
        return;
      }
      assert repos[..i + 1] == repos[..i] + [repos[i]];
      AliasesOfSnoc(repos[..i], repos[i]);
      assert repos[..i + 1][..i] == repos[..i];
      forall dep | dep in RepoDeps(repos[i]) ensures dep.from in indeg && dep.on in known {}
    }
    forall a, d | Edge(repos, a, d) ensures d in Aliases(repos) {
      EdgeIsListed(repos, a, d);
    }
    unknown := Ok(());
  }

  /** The body of the counting loop for one repo. */
  method CountRepo(node: RepoNode, known: set<string>, ghost before: seq<Dep>,
                   indeg0: map<string, int>, kids0: map<string, seq<string>>)
    returns (unknown: Result<(), OrderError>, indeg: map<string, int>, kids: map<string, seq<string>>)
    requires Counted(before, indeg0, kids0)
    requires forall dep :: dep in before ==> dep.from in indeg0
    ensures unknown.Ok? ==>
              indeg.Keys == indeg0.Keys + {node.alias}
              && Counted(before + RepoDeps(node), indeg, kids)
              && forall d :: d in node.dependsOn ==> d in known
    ensures unknown.Err? ==>
              unknown.error.UnknownDependency? && unknown.error.alias == node.alias
              && unknown.error.dependency in node.dependsOn && unknown.error.dependency !in known
  {
    indeg, kids := indeg0, kids0;
    if node.alias !in indeg {
      NoDepsNoDegree(before, node.alias);
      indeg := indeg[node.alias := 0];
    }
    assert Counted(before, indeg, kids);
    unknown, indeg, kids := CountDependencies(node, known, before, indeg, kids);
  }

  method CountDependencies(node: RepoNode, known: set<string>, ghost before: seq<Dep>,
                           indeg0: map<string, int>, kids0: map<string, seq<string>>)
    returns (unknown: Result<(), OrderError>, indeg: map<string, int>, kids: map<string, seq<string>>)
    requires Counted(before, indeg0, kids0)
    requires node.alias in indeg0
    ensures unknown.Ok? ==>
              indeg.Keys == indeg0.Keys
              && Counted(before + RepoDeps(node), indeg, kids)
              && forall d :: d in node.dependsOn ==> d in known
    ensures unknown.Err? ==>
              unknown.error.UnknownDependency? && unknown.error.alias == node.alias
              && unknown.error.dependency in node.dependsOn && unknown.error.dependency !in known
  {
    hide Counted;
    indeg, kids := indeg0, kids0;
    ghost var mine := RepoDeps(node);
    ghost var read := before;
    for j := 0 to |node.dependsOn|
      invariant indeg.Keys == indeg0.Keys
      invariant read == before + mine[..j]
      invariant Counted(read, indeg, kids)
      invariant forall m :: 0 <= m < j ==> node.dependsOn[m] in known
    {
      var d := node.dependsOn[j];
      if d !in known {
        unknown := Err(UnknownDependency(node.alias, d));
        return;
      }
      CountOne(read, mine[j], indeg, kids);
      read := read + [mine[j]];
      kids := kids[d := Get(kids, d) + [node.alias]];
      indeg := indeg[node.alias := indeg[node.alias] + 1];
    }
    assert read == before + mine;
    unknown := Ok(());
  }

  /** Collects a set's members in whatever order iteration yields them. */
  method CollectZero(indeg: map<string, int>) returns (ready: seq<string>)
    ensures NoDuplicates(ready)
    ensures forall a :: a in ready <==> a in indeg && indeg[a] == 0
  {
    ready := [];
    var left := indeg.Keys;
    while left != {}
      invariant left <= indeg.Keys
      invariant NoDuplicates(ready)
      invariant forall a :: a in ready <==> a in indeg && a !in left && indeg[a] == 0
      decreases left
    {
      var a :| a in left;
      left := left - {a};
      if indeg[a] == 0 {
        ready := ready + [a];
      }
    }
  }

  lemma SortKeepsMembers(s: seq<string>)
    ensures forall a :: a in Sort(s) <==> a in s
    ensures NoDuplicates(s) ==> NoDuplicates(Sort(s))
    ensures Sorted(Sort(s))
  {
    hide Sort;
    SortSorts(s);
    var r := Sort(s);
    forall a ensures a in r <==> a in s {
      assert a in r <==> a in multiset(r);
      assert a in s <==> a in multiset(s);
    }
    if NoDuplicates(s) {
      forall i, j | 0 <= i < j < |r| ensures r[i] != r[j] {
        if r[i] == r[j] {
          var rest := r[..j] + r[j + 1..];
          assert r == r[..j] + [r[j]] + r[j + 1..];
          assert multiset(r) == multiset(rest) + multiset{r[j]};
          assert rest[i] == r[j];
          assert r[j] in multiset(rest);
          assert multiset(s)[r[j]] >= 2;
          NoDuplicatesMultiset(s);
          assert false;
        }
      }
    }
  }

  /** Lowers the in-degree of each child entry, readying those that reach zero. */
  method Relax(children: seq<string>, indeg0: map<string, int>, ready0: seq<string>)
    returns (indeg: map<string, int>, ready: seq<string>)
    requires forall c :: c in children ==> c in indeg0
    requires forall c :: c in children ==> indeg0[c] >= multiset(children)[c]
    requires NoDuplicates(ready0)
    requires forall c :: c in ready0 ==> c !in children
    ensures indeg.Keys == indeg0.Keys
    ensures forall a :: a in indeg ==> indeg[a] == indeg0[a] - multiset(children)[a]
    ensures NoDuplicates(ready)
    ensures forall a :: a in ready <==> a in ready0 || (a in children && indeg[a] == 0)
  {
    indeg, ready := indeg0, ready0;
    for i := 0 to |children|
      invariant indeg.Keys == indeg0.Keys
      invariant forall a :: a in indeg ==> indeg[a] == indeg0[a] - multiset(children[..i])[a]
      invariant NoDuplicates(ready)
      invariant forall a :: a in ready <==> a in ready0 || (a in children[..i] && indeg[a] == 0)
    {
      var c := children[i];
      assert children[..i + 1] == children[..i] + [c];
      assert children == children[..i + 1] + children[i + 1..];
      assert multiset(children) == multiset(children[..i]) + multiset{c} + multiset(children[i + 1..]);
      indeg := indeg[c := indeg[c] - 1];
      if indeg[c] == 0 {
        ready := ready + [c];
      }
    }
    assert children[..|children|] == children;
  }

  ghost predicate LoopState(repos: seq<RepoNode>, order: seq<string>, ready: seq<string>, indeg: map<string, int>) {
    Greedy(repos, order)
    && indeg.Keys == Aliases(repos)
    && (forall a :: a in indeg ==> indeg[a] == InDegree(DepList(repos), a, Elements(order)))
    && NoDuplicates(ready) && Sorted(ready)
    && (forall a :: a in ready <==> Ready(repos, Elements(order), a))
  }

  /** The ready aliases after taking `next`: those already waiting and those it released. */
  lemma ReadyAfter(repos: seq<RepoNode>, done: set<string>, next: string, a: string)
    requires Ready(repos, done, next)
    requires forall b :: b in done ==> DepsDone(repos, b, done)
    ensures Ready(repos, done + {next}, a) <==>
              (Ready(repos, done, a) && a != next)
              || (a in Children(DepList(repos), next) && InDegree(DepList(repos), a, done + {next}) == 0)
    ensures a in Children(DepList(repos), next) ==> a in Aliases(repos) && !Ready(repos, done, a)
  {
    DepsDoneIsZero(repos, a, done);
    DepsDoneIsZero(repos, a, done + {next});
    InDegreeDrops(DepList(repos), a, done, next);
    ChildrenMembers(DepList(repos), next, a);
    EdgeIsListed(repos, a, next);
  }

  lemma OrderIsClosed(repos: seq<RepoNode>, order: seq<string>)
    requires Greedy(repos, order)
    ensures forall b :: b in Elements(order) ==> DepsDone(repos, b, Elements(order))
  {
  }

  lemma HeadIsLeastReady(repos: seq<RepoNode>, order: seq<string>, ready: seq<string>, indeg: map<string, int>)
    requires LoopState(repos, order, ready, indeg) && ready != []
    ensures Ready(repos, Elements(order), ready[0])
    ensures Greedy(repos, order + [ready[0]])
  {
    var next := ready[0];
    forall a | Ready(repos, Elements(order), a) ensures Le(next, a) {
      LeReflexive(next);
      assert a in ready;
    }
    GreedyExtends(repos, order, next);
  }

  lemma SortedChildren(repos: seq<RepoNode>, done: set<string>, next: string, children: seq<string>)
    requires Ready(repos, done, next)
    requires forall b :: b in done ==> DepsDone(repos, b, done)
    requires children == Sort(Children(DepList(repos), next))
    ensures forall c :: InDegree(DepList(repos), c, done + {next}) + multiset(children)[c] == InDegree(DepList(repos), c, done)
    ensures forall c :: c in children <==> c in Children(DepList(repos), next)
    ensures forall c :: c in children ==> c in Aliases(repos) && !Ready(repos, done, c)
  {
    SortKeepsMembers(Children(DepList(repos), next));
    forall c
      ensures InDegree(DepList(repos), c, done + {next}) + multiset(children)[c] == InDegree(DepList(repos), c, done)
      ensures c in children ==> c in Aliases(repos) && !Ready(repos, done, c)
    {
      InDegreeDrops(DepList(repos), c, done, next);
      ReadyAfter(repos, done, next, c);
    }
  }

  /** One round of Kahn's loop: take the head, relax its children, re-sort. */
  method TakeNext(repos: seq<RepoNode>, kids: map<string, seq<string>>,
                  order0: seq<string>, ready0: seq<string>, indeg0: map<string, int>)
    returns (order: seq<string>, ready: seq<string>, indeg: map<string, int>)
    requires LoopState(repos, order0, ready0, indeg0) && ready0 != []
    requires forall d :: Get(kids, d) == Children(DepList(repos), d)
    ensures LoopState(repos, order, ready, indeg)
    ensures order == order0 + [ready0[0]]
  {
    hide Greedy, Ready, DepsDone, Sorted, InDegree, Children, DepList, Sort;
    var next := ready0[0];
    ghost var done := Elements(order0);
    HeadIsLeastReady(repos, order0, ready0, indeg0);
    OrderIsClosed(repos, order0);
    order := order0 + [next];
    assert Elements(order) == done + {next};
    var children := Sort(Get(kids, next));
    SortedChildren(repos, done, next, children);
    forall c | c in children ensures indeg0[c] >= multiset(children)[c] {}
    forall c | c in ready0[1..] ensures c !in children { assert c in ready0; }
    indeg, ready := Relax(children, indeg0, ready0[1..]);
    forall a ensures a in ready <==> Ready(repos, done + {next}, a) {
      ReadyAfter(repos, done, next, a);
      TailMembers(ready0, a);
    }
    SortKeepsMembers(ready);
    ready := Sort(ready);
  }

  lemma TailMembers(s: seq<string>, a: string)
    requires s != [] && NoDuplicates(s)
    ensures a in s[1..] <==> a in s && a != s[0]
  {
  }

  lemma StartState(repos: seq<RepoNode>, ready: seq<string>, indeg: map<string, int>)
    requires indeg.Keys == Aliases(repos)
    requires forall a :: a in indeg ==> indeg[a] == InDegree(DepList(repos), a, {})
    requires NoDuplicates(ready) && Sorted(ready)
    requires forall a :: a in ready <==> a in indeg && indeg[a] == 0
    ensures LoopState(repos, [], ready, indeg)
  {
    var none: seq<string> := [];
    assert Elements(none) == {};
    forall a ensures a in ready <==> Ready(repos, {}, a) {
      DepsDoneIsZero(repos, a, {});
    }
  }

  /** What an emptied ready list means: either everything is ordered or the rest hides a cycle. */
  lemma LoopExit(repos: seq<RepoNode>, order: seq<string>, indeg: map<string, int>)
    requires AllKnown(repos) && LoopState(repos, order, [], indeg)
    ensures |order| == |repos| <==> DistinctAliases(repos) && Acyclic(repos)
    ensures |order| == |repos| ==> LeastTopologicalOrder(repos, order)
  {
    GreedyHasNoDuplicates(repos, order);
    NoDuplicatesCardinality(order);
    DistinctAliasCount(repos);
    SubsetCardinality(Elements(order), Aliases(repos));
    if Elements(order) == Aliases(repos) {
      forall other | TopologicalOrder(repos, other) ensures ListLe(order, other) {
        GreedyIsLeast(repos, order, other);
      }
      OrderedIsAcyclic(repos, order);
    } else {
      var c := StuckHasCycle(repos, Elements(order));
    }
  }

  /** Kahn's algorithm with sorted tie-breaks: succeeds exactly on well-formed graphs, with their least order. */
  method TopoOrder(repos: seq<RepoNode>) returns (r: Result<seq<string>, OrderError>)
    ensures r.Ok? <==> DistinctAliases(repos) && AllKnown(repos) && Acyclic(repos)
    ensures r.Ok? ==> LeastTopologicalOrder(repos, r.value) && |r.value| == |repos|
    ensures r.Err? ==> (r.error.UnknownDependency? <==> !AllKnown(repos))
    ensures r.Err? && r.error.UnknownDependency? ==>
              Edge(repos, r.error.alias, r.error.dependency) && r.error.dependency !in Aliases(repos)
  {
    hide Greedy, Sorted, InDegree, Children, DepList, Sort, LeastTopologicalOrder, DistinctAliases, Acyclic;
    var unknown, indeg, kids := CountEdges(repos);
    if unknown.Err? {
      r := Err(unknown.error);
      return;
    }
    var ready := CollectZero(indeg);
    SortKeepsMembers(ready);
    ready := Sort(ready);
    var order: seq<string> := [];
    StartState(repos, ready, indeg);
    while ready != []
      invariant LoopState(repos, order, ready, indeg)
      decreases Aliases(repos) - Elements(order)
    {
      ghost var taken := ready[0];
      assert Ready(repos, Elements(order), taken);
      ghost var before := order;
      order, ready, indeg := TakeNext(repos, kids, order, ready, indeg);
      assert Elements(order) == Elements(before) + {taken};
    }
    LoopExit(repos, order, indeg);
    if |order| != |repos| {
      r := Err(DependencyCycle(|repos|));
    } else {
      r := Ok(order);
    }
  }

  /** There is only one least order, so the answer cannot depend on list order or map iteration. */
  lemma LeastOrderIsUnique(repos: seq<RepoNode>, a: seq<string>, b: seq<string>)
    requires LeastTopologicalOrder(repos, a) && LeastTopologicalOrder(repos, b)
    ensures a == b
  {
    hide TopologicalOrder, ListLe;
    ListLeAntisymmetric(a, b);
  }

  lemma ListLeAntisymmetric(a: seq<string>, b: seq<string>)
    requires ListLe(a, b) && ListLe(b, a)
    ensures a == b
  {
    if a != b {
      var i :| 0 <= i < |a| && i < |b| && a[..i] == b[..i] && Lt(a[i], b[i]);
      var j :| 0 <= j < |b| && j < |a| && b[..j] == a[..j] && Lt(b[j], a[j]);
      LeAntisymmetric(a[i], b[i]);
    }
  }

  lemma OrderIgnoresListOrder(repos: seq<RepoNode>, shuffled: seq<RepoNode>, a: seq<string>, b: seq<string>)
    requires forall node :: node in repos <==> node in shuffled
    requires LeastTopologicalOrder(repos, a) && LeastTopologicalOrder(shuffled, b)
    ensures a == b
  {
    assert Aliases(repos) == Aliases(shuffled);
    forall x, y ensures Edge(repos, x, y) <==> Edge(shuffled, x, y) {}
    forall t ensures TopologicalOrder(repos, t) <==> TopologicalOrder(shuffled, t) {}
    LeastOrderIsUnique(repos, a, b);
  }

  // ---- FreezeContracts ----

  datatype Contract = Contract(name: string, digest: string)

  function ContractEntries(contracts: seq<Contract>): seq<string> {
    if contracts == [] then []
    else ContractEntries(contracts[..|contracts| - 1])
         + [contracts[|contracts| - 1].name + "@" + contracts[|contracts| - 1].digest]
  }

  function JoinLines(lines: seq<string>): string {
    if lines == [] then ""
    else if |lines| == 1 then lines[0]
    else JoinLines(lines[..|lines| - 1]) + "\n" + lines[|lines| - 1]
  }

  /** The sorted digest list, and the one digest over its lines. */
  method FreezeContracts(hash: string -> string, contracts: seq<Contract>)
      returns (digests: seq<string>, combined: string)
    ensures digests == Sort(ContractEntries(contracts))
    ensures combined == hash(JoinLines(Sort(ContractEntries(contracts))))
  {
    digests := [];
    for i := 0 to |contracts|
      invariant digests == ContractEntries(contracts[..i])
    {
      digests := digests + [contracts[i].name + "@" + contracts[i].digest];
      assert contracts[..i + 1][..i] == contracts[..i];
    }
    assert contracts[..|contracts|] == contracts;
    digests := Sort(digests);
    var joined := "";
    for i := 0 to |digests|
      invariant joined == JoinLines(digests[..i])
    {
      assert digests[..i + 1][..i] == digests[..i];
      joined := if i == 0 then digests[0] else joined + "\n" + digests[i];
    }
    assert digests[..|digests|] == digests;
    combined := hash(joined);
  }

  lemma {:induction false} EntriesOfSplit(a: seq<Contract>, b: seq<Contract>)
    ensures ContractEntries(a + b) == ContractEntries(a) + ContractEntries(b)
  {
    if b == [] {
      assert a + b == a;
    } else {
      var init, last := b[..|b| - 1], b[|b| - 1];
      EntriesOfSplit(a, init);
      assert (a + b)[..|a + b| - 1] == a + init;
    }
  }

  /** The frozen snapshot does not depend on the order contracts are declared in. */
  lemma {:induction false} FrozenContractsIgnoreOrder(a: seq<Contract>, b: seq<Contract>)
    requires multiset(a) == multiset(b)
    ensures Sort(ContractEntries(a)) == Sort(ContractEntries(b))
  {
    EntriesFollowContents(a, b);
    SortIsOrderIndependent(ContractEntries(a), ContractEntries(b));
  }

  lemma {:induction false} EntriesFollowContents(a: seq<Contract>, b: seq<Contract>)
    requires multiset(a) == multiset(b)
    ensures multiset(ContractEntries(a)) == multiset(ContractEntries(b))
    decreases |a|
  {
    if a == [] {
      assert |multiset(b)| == 0;
    } else {
      var init, last := a[..|a| - 1], a[|a| - 1];
      assert a == init + [last];
      var left, right := FindAndRemove(init, last, b);
      EntriesFollowContents(init, left + right);
      EntriesOfSplit(left + [last], right);
      EntriesOfSplit(left, [last]);
      EntriesOfSplit(left, right);
      EntriesOfSplit(init, [last]);
    }
  }

  // ---- RunChangeSet ----

  datatype PushReceipt = PushReceipt(branch: string, afterSHA: string)
  const NO_RECEIPT := PushReceipt("", "")

  datatype Attempt = Attempt(pushed: bool, receipt: PushReceipt, err: string)

  datatype RepoStatus = Integrated | PushedBlocked | Failed

  datatype RepoReceipt = RepoReceipt(alias: string, status: RepoStatus, receipt: PushReceipt, error: string)

  datatype Outcome = HandoffReady | ProvenBlocked

  /** What a human is told to do next; the sentence around the two lists is left out. */
  datatype NextAction = Nothing | FixGraph(error: OrderError) | Reconcile(failed: seq<string>, pushedBranches: seq<string>)

  datatype Plan = Plan(contracts: seq<Contract>, repos: seq<RepoNode>)

  datatype SagaResult = SagaResult(
    outcome: Outcome, contractDigests: seq<string>, receipts: map<string, RepoReceipt>, nextAction: NextAction)

  /** A repo without an attempt reads as the zero attempt: not pushed. */
  function AttemptOf(attempts: map<string, Attempt>, alias: string): Attempt {
    if alias in attempts then attempts[alias] else Attempt(false, NO_RECEIPT, "")
  }

  ghost predicate Pushed(attempts: map<string, Attempt>, alias: string) {
    AttemptOf(attempts, alias).pushed
  }

  /** The declarative meaning of "integrated": the repo and everything it transitively depends on pushed. */
  ghost predicate FullyPushed(repos: seq<RepoNode>, attempts: map<string, Attempt>, alias: string) {
    forall b :: Reaches(repos, alias, b) ==> Pushed(attempts, b)
  }

  lemma FullyPushedByEdges(repos: seq<RepoNode>, attempts: map<string, Attempt>, a: string)
    ensures FullyPushed(repos, attempts, a) <==>
              Pushed(attempts, a) && forall d :: Edge(repos, a, d) ==> FullyPushed(repos, attempts, d)
  {
    ReachesSplit(repos, a, a);
    if FullyPushed(repos, attempts, a) {
      forall d, b | Edge(repos, a, d) && Reaches(repos, d, b) ensures Pushed(attempts, b) {
        ReachesSplit(repos, a, b);
      }
    }
    if Pushed(attempts, a) && forall d :: Edge(repos, a, d) ==> FullyPushed(repos, attempts, d) {
      forall b | Reaches(repos, a, b) ensures Pushed(attempts, b) {
        ReachesSplit(repos, a, b);
      }
    }
  }

  /** The receipt the documentation promises for each repo of an orderable change-set. */
  ghost predicate ReceiptMatches(repos: seq<RepoNode>, attempts: map<string, Attempt>, alias: string, rr: RepoReceipt) {
    var a := AttemptOf(attempts, alias);
    rr.alias == alias
    && (rr.status == Integrated <==> FullyPushed(repos, attempts, alias))
    && (rr.status == Failed <==> !a.pushed)
    && rr.receipt == (if a.pushed then a.receipt else NO_RECEIPT)
    && rr.error == (if a.pushed then "" else a.err)
  }

  function DepsMap(repos: seq<RepoNode>): map<string, seq<string>> {
    if repos == [] then map[]
    else DepsMap(repos[..|repos| - 1])[repos[|repos| - 1].alias := repos[|repos| - 1].dependsOn]
  }

  lemma {:induction false} DepsMapKeys(repos: seq<RepoNode>)
    ensures DepsMap(repos).Keys == Aliases(repos)
  {
    if repos != [] {
      var init, last := repos[..|repos| - 1], repos[|repos| - 1];
      assert repos == init + [last];
      DepsMapKeys(init);
      AliasesOfSnoc(init, last);
    }
  }

  lemma {:induction false} DepsMapHoldsEdges(repos: seq<RepoNode>, a: string, d: string)
    requires DistinctAliases(repos)
    ensures Edge(repos, a, d) <==> d in Get(DepsMap(repos), a)
  {
    if repos != [] {
      var init, last := repos[..|repos| - 1], repos[|repos| - 1];
      assert repos == init + [last];
      DistinctSnoc(init, last);
      DepsMapHoldsEdges(init, a, d);
      EdgeSnoc(init, last, a, d);
      DepsMapKeys(init);
    }
  }

  method AllIntegrated(deps: seq<string>, integrated: set<string>) returns (ok: bool)
    ensures ok <==> forall d :: d in deps ==> d in integrated
  {
    ok := true;
    for i := 0 to |deps|
      invariant ok && forall m :: 0 <= m < i ==> deps[m] in integrated
    {
      if deps[i] !in integrated {
        ok := false;
        return;
      }
    }
  }

  ghost predicate Settled(repos: seq<RepoNode>, attempts: map<string, Attempt>, processed: seq<string>,
                          receipts: map<string, RepoReceipt>, integrated: set<string>, failed: seq<string>) {
    receipts.Keys == Elements(processed)
    && (forall a :: a in receipts ==> ReceiptMatches(repos, attempts, a, receipts[a]))
    && (forall a :: a in integrated <==> a in processed && FullyPushed(repos, attempts, a))
    && (forall a :: a in failed <==> a in processed && !Pushed(attempts, a))
    && NoDuplicates(failed)
  }

  /** The dependency-ordered integration fold. */
  method IntegrateInOrder(repos: seq<RepoNode>, attempts: map<string, Attempt>, order: seq<string>)
    returns (receipts: map<string, RepoReceipt>, integrated: set<string>, failed: seq<string>)
    requires DistinctAliases(repos) && TopologicalOrder(repos, order)
    ensures Settled(repos, attempts, order, receipts, integrated, failed)
  {
    hide TopologicalOrder, DistinctAliases, FullyPushed, Settled;
    receipts, integrated, failed := map[], {}, [];
    var depsOf := DepsMap(repos);
    assert order[..0] == [];
    NothingSettled(repos, attempts);
    for k := 0 to |order|
      invariant Settled(repos, attempts, order[..k], receipts, integrated, failed)
    {
      var alias := order[k];
      var a := AttemptOf(attempts, alias);
      var depsOK := AllIntegrated(Get(depsOf, alias), integrated);
      SettledDecides(repos, attempts, order, k, receipts, integrated, failed, depsOK);
      NextIsNew(repos, order, k);
      ghost var receipts0, integrated0, failed0 := receipts, integrated, failed;
      if a.pushed && depsOK {
        integrated := integrated + {alias};
        receipts := receipts[alias := RepoReceipt(alias, Integrated, a.receipt, "")];
      } else if a.pushed {
        receipts := receipts[alias := RepoReceipt(alias, PushedBlocked, a.receipt, "")];
      } else {
        failed := failed + [alias];
        receipts := receipts[alias := RepoReceipt(alias, Failed, NO_RECEIPT, a.err)];
      }
      SettledNext(repos, attempts, order[..k], alias, receipts0, integrated0, failed0, receipts[alias], integrated, failed);
    }
    assert order[..|order|] == order;
  }

  lemma NothingSettled(repos: seq<RepoNode>, attempts: map<string, Attempt>)
    ensures Settled(repos, attempts, [], map[], {}, [])
  {
  }

  lemma SettledDecides(repos: seq<RepoNode>, attempts: map<string, Attempt>, order: seq<string>, k: nat,
                       receipts: map<string, RepoReceipt>, integrated: set<string>, failed: seq<string>, depsOK: bool)
    requires DistinctAliases(repos) && TopologicalOrder(repos, order) && k < |order|
    requires Settled(repos, attempts, order[..k], receipts, integrated, failed)
    requires depsOK <==> forall d :: d in Get(DepsMap(repos), order[k]) ==> d in integrated
    ensures FullyPushed(repos, attempts, order[k]) <==> Pushed(attempts, order[k]) && depsOK
  {
    hide TopologicalOrder, DistinctAliases, FullyPushed, ReceiptMatches;
    IntegrationDecision(repos, attempts, order, k, integrated, depsOK);
  }

  /** One more repo settled. */
  lemma SettledNext(repos: seq<RepoNode>, attempts: map<string, Attempt>, processed: seq<string>, alias: string,
                    receipts: map<string, RepoReceipt>, integrated: set<string>, failed: seq<string>,
                    rr: RepoReceipt, integrated': set<string>, failed': seq<string>)
    requires Settled(repos, attempts, processed, receipts, integrated, failed) && alias !in processed
    requires ReceiptMatches(repos, attempts, alias, rr)
    requires integrated' == integrated + (if FullyPushed(repos, attempts, alias) then {alias} else {})
    requires failed' == failed + (if Pushed(attempts, alias) then [] else [alias])
    ensures Settled(repos, attempts, processed + [alias], receipts[alias := rr], integrated', failed')
  {
    hide FullyPushed, ReceiptMatches, Pushed;
  }

  lemma NextIsNew(repos: seq<RepoNode>, order: seq<string>, k: nat)
    requires TopologicalOrder(repos, order) && k < |order|
    ensures order[..k + 1] == order[..k] + [order[k]] && order[k] !in order[..k]
  {
  }

  /** Checking direct dependencies in order decides the transitive statement. */
  lemma IntegrationDecision(repos: seq<RepoNode>, attempts: map<string, Attempt>, order: seq<string>, k: nat,
                            integrated: set<string>, depsOK: bool)
    requires DistinctAliases(repos) && TopologicalOrder(repos, order) && k < |order|
    requires forall a :: a in integrated <==> a in order[..k] && FullyPushed(repos, attempts, a)
    requires depsOK <==> forall d :: d in Get(DepsMap(repos), order[k]) ==> d in integrated
    ensures FullyPushed(repos, attempts, order[k]) <==> Pushed(attempts, order[k]) && depsOK
  {
    FullyPushedByEdges(repos, attempts, order[k]);
    forall d ensures Edge(repos, order[k], d) <==> d in Get(DepsMap(repos), order[k]) {
      DepsMapHoldsEdges(repos, order[k], d);
    }
  }

  /** The branch a pushed repo shows to a human. */
  function BranchOf(rr: RepoReceipt): string {
    if rr.receipt.branch == "" then rr.alias else rr.receipt.branch
  }

  function PushedBranchesOf(receipts: map<string, RepoReceipt>, keys: seq<string>): seq<string>
    requires forall k :: k in keys ==> k in receipts
  {
    if keys == [] then []
    else
      var init := keys[..|keys| - 1];
      var rr := receipts[keys[|keys| - 1]];
      PushedBranchesOf(receipts, init) + (if rr.status == Failed then [] else [BranchOf(rr)])
  }

  lemma {:induction false} BranchesOfSplit(receipts: map<string, RepoReceipt>, a: seq<string>, b: seq<string>)
    requires forall k :: k in a ==> k in receipts
    requires forall k :: k in b ==> k in receipts
    ensures PushedBranchesOf(receipts, a + b) == PushedBranchesOf(receipts, a) + PushedBranchesOf(receipts, b)
  {
    if b == [] {
      assert a + b == a;
    } else {
      BranchesOfSplit(receipts, a, b[..|b| - 1]);
      assert (a + b)[..|a + b| - 1] == a + b[..|b| - 1];
    }
  }

  /** Which order the receipt map is iterated in does not matter to the listed branches. */
  lemma {:induction false} BranchesFollowKeys(receipts: map<string, RepoReceipt>, a: seq<string>, b: seq<string>)
    requires forall k :: k in a ==> k in receipts
    requires forall k :: k in b ==> k in receipts
    requires multiset(a) == multiset(b)
    ensures multiset(PushedBranchesOf(receipts, a)) == multiset(PushedBranchesOf(receipts, b))
    decreases |a|
  {
    hide PushedBranchesOf;
    if a == [] {
      assert |multiset(b)| == 0;
      assert a == b;
    } else {
      var init, last := a[..|a| - 1], a[|a| - 1];
      assert a == init + [last];
      var left, right := FindAndRemove(init, last, b);
      BranchesFollowKeys(receipts, init, left + right);
      BranchesOfSplit(receipts, left + [last], right);
      BranchesOfSplit(receipts, left, [last]);
      BranchesOfSplit(receipts, left, right);
      BranchesOfSplit(receipts, init, [last]);
    }
  }

  lemma BranchesIgnoreIteration(receipts: map<string, RepoReceipt>, a: seq<string>, b: seq<string>)
    requires NoDuplicates(a) && Elements(a) == receipts.Keys
    requires NoDuplicates(b) && Elements(b) == receipts.Keys
    ensures Sort(PushedBranchesOf(receipts, a)) == Sort(PushedBranchesOf(receipts, b))
  {
    NoDuplicatesMultiset(a);
    NoDuplicatesMultiset(b);
    BranchesFollowKeys(receipts, a, b);
    SortIsOrderIndependent(PushedBranchesOf(receipts, a), PushedBranchesOf(receipts, b));
  }

  lemma VisitKey(receipts: map<string, RepoReceipt>, seen: seq<string>, alias: string)
    requires NoDuplicates(seen) && Elements(seen) <= receipts.Keys
    requires alias in receipts && alias !in Elements(seen)
    ensures NoDuplicates(seen + [alias]) && Elements(seen + [alias]) == Elements(seen) + {alias}
    ensures PushedBranchesOf(receipts, seen + [alias])
         == PushedBranchesOf(receipts, seen) + (if receipts[alias].status == Failed then [] else [BranchOf(receipts[alias])])
  {
  }

  lemma NoBranches(receipts: map<string, RepoReceipt>)
    ensures PushedBranchesOf(receipts, []) == []
  {
  }

  /** pushedBranches: iterates the map in any order, then sorts. */
  method PushedBranches(receipts: map<string, RepoReceipt>, ghost keys: seq<string>) returns (branches: seq<string>)
    requires NoDuplicates(keys) && Elements(keys) == receipts.Keys
    ensures branches == Sort(PushedBranchesOf(receipts, keys))
  {
    hide Sort, PushedBranchesOf;
    branches := [];
    ghost var seen: seq<string> := [];
    NoBranches(receipts);
    var left := receipts.Keys;
    while left != {}
      invariant left <= receipts.Keys
      invariant NoDuplicates(seen) && Elements(seen) == receipts.Keys - left
      invariant forall k :: k in seen ==> k in receipts
      invariant branches == PushedBranchesOf(receipts, seen)
      decreases left
    {
      var alias :| alias in left;
      VisitKey(receipts, seen, alias);
      left := left - {alias};
      var rr := receipts[alias];
      if rr.status == Integrated || rr.status == PushedBlocked {
        branches := branches + [BranchOf(rr)];
      }
      seen := seen + [alias];
    }
    BranchesIgnoreIteration(receipts, seen, keys);
    branches := Sort(branches);
  }

  ghost predicate WellFormed(repos: seq<RepoNode>) {
    DistinctAliases(repos) && AllKnown(repos) && Acyclic(repos)
  }

  /** Unorderable change-set: every raw attempt is surfaced and nothing is integrated. */
  method RawReceipts(repos: seq<RepoNode>, attempts: map<string, Attempt>) returns (receipts: map<string, RepoReceipt>)
    ensures receipts.Keys == Aliases(repos)
    ensures forall a :: a in receipts ==>
              receipts[a].alias == a && receipts[a].receipt == AttemptOf(attempts, a).receipt
              && receipts[a].status == (if Pushed(attempts, a) then PushedBlocked else Failed)
              && receipts[a].error == (if Pushed(attempts, a) then "" else AttemptOf(attempts, a).err)
  {
    receipts := map[];
    for i := 0 to |repos|
      invariant receipts.Keys == Aliases(repos[..i])
      invariant forall a :: a in receipts ==>
                  receipts[a].alias == a && receipts[a].receipt == AttemptOf(attempts, a).receipt
                  && receipts[a].status == (if Pushed(attempts, a) then PushedBlocked else Failed)
                  && receipts[a].error == (if Pushed(attempts, a) then "" else AttemptOf(attempts, a).err)
    {
      var alias := repos[i].alias;
      var a := AttemptOf(attempts, alias);
      receipts := receipts[alias :=
        if a.pushed then RepoReceipt(alias, PushedBlocked, a.receipt, "")
        else RepoReceipt(alias, Failed, a.receipt, a.err)];
      assert repos[..i + 1] == repos[..i] + [repos[i]];
      AliasesOfSnoc(repos[..i], repos[i]);
    }
    assert repos[..|repos|] == repos;
  }

  /** The whole saga: all-or-honest-partial over the transitive dependency relation. */
  method RunChangeSet(hash: string -> string, plan: Plan, attempts: map<string, Attempt>) returns (res: SagaResult)
    ensures res.receipts.Keys == Aliases(plan.repos)
    ensures res.contractDigests == Sort(ContractEntries(plan.contracts))
    // An orderable change-set: exact receipts, and success exactly when everything pushed.
    ensures WellFormed(plan.repos) ==>
              forall a :: a in res.receipts ==> ReceiptMatches(plan.repos, attempts, a, res.receipts[a])
    ensures WellFormed(plan.repos) ==>
              (res.outcome == HandoffReady <==> forall a :: a in Aliases(plan.repos) ==> Pushed(attempts, a))
    ensures !WellFormed(plan.repos) ==> res.outcome == ProvenBlocked && res.nextAction.FixGraph?
    // No pushed branch is ever hidden, and no unpushed repo is ever shown as pushed.
    ensures forall a :: a in res.receipts ==> (res.receipts[a].status == Failed <==> !Pushed(attempts, a))
    ensures res.nextAction.Nothing? <==> res.outcome == HandoffReady
    ensures res.nextAction.Reconcile? ==>
              Sorted(res.nextAction.failed)
              && (forall a :: a in res.nextAction.failed <==> a in Aliases(plan.repos) && !Pushed(attempts, a))
              && forall keys :: NoDuplicates(keys) && Elements(keys) == res.receipts.Keys ==>
                                res.nextAction.pushedBranches == Sort(PushedBranchesOf(res.receipts, keys))
  {
    var digests, _ := FreezeContracts(hash, plan.contracts);
    var ordered := TopoOrder(plan.repos);
    if ordered.Err? {
      var raw := RawReceipts(plan.repos, attempts);
      res := SagaResult(ProvenBlocked, digests, raw, FixGraph(ordered.error));
      return;
    }
    var order := ordered.value;
    var receipts, integrated, failed := IntegrateInOrder(plan.repos, attempts, order);
    CountCheckIsRedundant(plan.repos, attempts, order, receipts, integrated, failed);
    if failed == [] && |integrated| == |plan.repos| {
      res := SagaResult(HandoffReady, digests, receipts, Nothing);
      return;
    }
    SortKeepsMembers(failed);
    var branches := PushedBranches(receipts, order);
    forall keys | NoDuplicates(keys) && Elements(keys) == receipts.Keys
      ensures branches == Sort(PushedBranchesOf(receipts, keys))
    {
      BranchesIgnoreIteration(receipts, order, keys);
    }
    res := SagaResult(ProvenBlocked, digests, receipts, Reconcile(Sort(failed), branches));
  }

  /** With no failed repo every repo is integrated, so the count test never decides anything. */
  lemma CountCheckIsRedundant(repos: seq<RepoNode>, attempts: map<string, Attempt>, order: seq<string>,
                              receipts: map<string, RepoReceipt>, integrated: set<string>, failed: seq<string>)
    requires TopologicalOrder(repos, order) && |order| == |repos|
    requires AllKnown(repos)
    requires Settled(repos, attempts, order, receipts, integrated, failed)
    ensures failed == [] ==> |integrated| == |repos|
    ensures failed == [] <==> forall a :: a in Aliases(repos) ==> Pushed(attempts, a)
  {
    if failed == [] {
      forall a | a in Elements(order) ensures a in integrated {
        forall b | Reaches(repos, a, b) ensures Pushed(attempts, b) {
          var p :| WalkBetween(repos, p, a, b);
          assert b in Aliases(repos) by {
            if |p| >= 2 {
              assert Edge(repos, p[|p| - 2], p[|p| - 1]);
            }
          }
          assert b in Elements(order);
        }
      }
      assert integrated == Elements(order);
      NoDuplicatesCardinality(order);
    } else {
      assert failed[0] in failed;
    }
  }
}
