/** Executor selection (internal/kernel/executor_select.go) and the bounded fallback loop of ExecuteTask
    (internal/kernel/activities.go). */
module Fallback {
  import opened Options

  datatype Record = Record(provider: string, supported: bool, profileAllow: seq<string>, profileDeny: seq<string>)

  datatype Selector = Selector(fallback: string, routing: map<string, seq<string>>, profile: string)

  datatype Task = Task(executor: string, class_: string)

  /** Trips by provider, as of one instant; None is a worker without a breaker. */
  datatype Health = Health(tripUntil: Option<map<string, int>>, at: int)

  datatype Reason =
    | NOT_IN_ALLOWLIST | UNKNOWN_EXECUTOR | UNSUPPORTED_EXECUTOR | NO_EXECUTOR_CONFIGURED | UNROUTED_CLASS | NO_ELIGIBLE_EXECUTOR

  datatype Selection = Chosen(name: string) | Rejected(executor: string, reason: Reason)

  // ---- The registry ----

  /** Loading a registry refuses a repeated provider. */
  ghost predicate DistinctProviders(registry: seq<Record>) {
    forall i, j :: 0 <= i < j < |registry| ==> registry[i].provider != registry[j].provider
  }

  ghost predicate Known(registry: seq<Record>, name: string) {
    exists i :: 0 <= i < |registry| && registry[i].provider == name
  }

  /** The first record of a provider. */
  method Lookup(registry: seq<Record>, name: string) returns (found: Option<Record>)
    ensures found.Some? <==> Known(registry, name)
    ensures found.Some? ==>
              exists i :: 0 <= i < |registry| && registry[i] == found.value && found.value.provider == name
                       && forall j :: 0 <= j < i ==> registry[j].provider != name
    ensures found == Find(registry, name)
  {
    for i := 0 to |registry|
      invariant forall j :: 0 <= j < i ==> registry[j].provider != name
      invariant Find(registry, name) == Find(registry[i..], name)
    {
      assert registry[i..][0] == registry[i] && registry[i..][1..] == registry[i + 1..];
      if registry[i].provider == name {
        return Some(registry[i]);
      }
    }
    return None;
  }

  function Find(registry: seq<Record>, name: string): Option<Record> {
    if registry == [] then None else if registry[0].provider == name then Some(registry[0]) else Find(registry[1..], name)
  }

  /** In the allowlist and a supported record: the gate every executor passes. */
  predicate InPolicy(allow: seq<string>, registry: seq<Record>, name: string) {
    name in allow && Find(registry, name).Some? && Find(registry, name).value.supported
  }

  predicate ProfileAdmits(rec: Record, profile: string) {
    profile !in rec.profileDeny && (rec.profileAllow != [] ==> profile in rec.profileAllow)
  }

  ghost predicate EligibleFor(registry: seq<Record>, profile: string, name: string) {
    exists i :: 0 <= i < |registry| && registry[i].provider == name && registry[i].supported && ProfileAdmits(registry[i], profile)
  }

  predicate Available(health: Health, name: string) {
    health.tripUntil.Some? && name in health.tripUntil.value ==> health.at >= health.tripUntil.value[name]
  }

  // ---- Choosing one ----

  /** Allowlist first, then the registry. */
  method Validate(allow: seq<string>, registry: seq<Record>, name: string) returns (r: Selection)
    ensures r.Chosen? <==> InPolicy(allow, registry, name)
    ensures r.Chosen? ==> r.name == name
    ensures r == Validated(allow, registry, name)
  {
    if name !in allow {
      return Rejected(name, NOT_IN_ALLOWLIST);
    }
    var rec := Lookup(registry, name);
    if rec.None? {
      return Rejected(name, UNKNOWN_EXECUTOR);
    }
    if !rec.value.supported {
      return Rejected(name, UNSUPPORTED_EXECUTOR);
    }
    return Chosen(name);
  }

  function Validated(allow: seq<string>, registry: seq<Record>, name: string): Selection {
    if name !in allow then Rejected(name, NOT_IN_ALLOWLIST)
    else if Find(registry, name).None? then Rejected(name, UNKNOWN_EXECUTOR)
    else if !Find(registry, name).value.supported then Rejected(name, UNSUPPORTED_EXECUTOR)
    else Chosen(name)
  }

  /** The first preference that is allowlisted and eligible for the profile; never the default. */
  method RouteClassed(sel: Selector, class_: string, allow: seq<string>, registry: seq<Record>) returns (r: Selection)
    ensures IsRouted(sel, class_, allow, registry, r)
  {
    if class_ !in sel.routing || sel.routing[class_] == [] {
      return Rejected("", UNROUTED_CLASS);
    }
    var prefs := sel.routing[class_];
    for i := 0 to |prefs|
      invariant forall j :: 0 <= j < i ==> !Routable(sel, allow, registry, prefs[j])
    {
      if prefs[i] in allow {
        for k := 0 to |registry|
          invariant forall j :: 0 <= j < k ==>
            !(registry[j].provider == prefs[i] && registry[j].supported && ProfileAdmits(registry[j], sel.profile))
        {
          if registry[k].provider == prefs[i] && registry[k].supported && ProfileAdmits(registry[k], sel.profile) {
            return Chosen(prefs[i]);
          }
        }
      }
    }
    return Rejected("", NO_ELIGIBLE_EXECUTOR);
  }

  ghost predicate Routable(sel: Selector, allow: seq<string>, registry: seq<Record>, name: string) {
    name in allow && EligibleFor(registry, sel.profile, name)
  }

  /** What routing promises: the earliest routable preference, or the reason there is none. */
  ghost predicate IsRouted(sel: Selector, class_: string, allow: seq<string>, registry: seq<Record>, r: Selection) {
    if class_ !in sel.routing || sel.routing[class_] == [] then r == Rejected("", UNROUTED_CLASS)
    else
      var prefs := sel.routing[class_];
      if r.Chosen? then
        exists i :: 0 <= i < |prefs| && prefs[i] == r.name && Routable(sel, allow, registry, prefs[i])
                 && forall j :: 0 <= j < i ==> !Routable(sel, allow, registry, prefs[j])
      else r == Rejected("", NO_ELIGIBLE_EXECUTOR) && forall j :: 0 <= j < |prefs| ==> !Routable(sel, allow, registry, prefs[j])
  }

  ghost predicate IsSelected(sel: Selector, task: Task, allow: seq<string>, registry: seq<Record>, r: Selection) {
    if task.executor != "" then r == Validated(allow, registry, task.executor)
    else if sel.routing != map[] && task.class_ != "" then IsRouted(sel, task.class_, allow, registry, r)
    else if sel.fallback == "" then r == Rejected("", NO_EXECUTOR_CONFIGURED)
    else r == Validated(allow, registry, sel.fallback)
  }

  /** An explicit executor, else the routed class, else the default, else a refusal. */
  method Select(sel: Selector, task: Task, allow: seq<string>, registry: seq<Record>) returns (r: Selection)
    ensures IsSelected(sel, task, allow, registry, r)
  {
    if task.executor != "" {
      r := Validate(allow, registry, task.executor);
    } else if sel.routing != map[] && task.class_ != "" {
      r := RouteClassed(sel, task.class_, allow, registry);
    } else if sel.fallback == "" {
      r := Rejected("", NO_EXECUTOR_CONFIGURED);
    } else {
      r := Validate(allow, registry, sel.fallback);
    }
  }

  /** Selection is a function: the rules leave exactly one answer. */
  lemma SelectionIsDetermined(sel: Selector, task: Task, allow: seq<string>, registry: seq<Record>, a: Selection,
                              b: Selection)
    requires IsSelected(sel, task, allow, registry, a) && IsSelected(sel, task, allow, registry, b)
    ensures a == b
  {
  }

  // ---- Choosing all ----

  function Preferences(sel: Selector, task: Task): (seq<string>, Option<Reason>) {
    if task.executor != "" then ([task.executor], None)
    else if sel.routing != map[] && task.class_ != "" then
      if task.class_ in sel.routing && sel.routing[task.class_] != [] then (sel.routing[task.class_], None)
      else ([], Some(UNROUTED_CLASS))
    else if sel.fallback != "" then ([sel.fallback], None)
    else ([], Some(NO_EXECUTOR_CONFIGURED))
  }

  /** The members of a list with a property, in order. */
  function Keep(names: seq<string>, p: string -> bool): seq<string> {
    if names == [] then []
    else
      var last := names[|names| - 1];
      Keep(names[..|names| - 1], p) + if p(last) then [last] else []
  }

  function Candidates(allow: seq<string>, registry: seq<Record>, health: Health, prefs: seq<string>): seq<string> {
    Keep(prefs, name => InPolicy(allow, registry, name) && Available(health, name))
  }

  function TrippedOut(allow: seq<string>, registry: seq<Record>, health: Health, prefs: seq<string>): seq<string> {
    Keep(prefs, name => InPolicy(allow, registry, name) && !Available(health, name))
  }

  /** The in-policy preferences in order, split by the health snapshot; no candidate is a refusal. */
  method SelectCandidates(sel: Selector, task: Task, allow: seq<string>, registry: seq<Record>, health: Health)
    returns (candidates: seq<string>, skipped: seq<string>, refusal: Option<Reason>)
    ensures var prefs := Preferences(sel, task);
            candidates == Candidates(allow, registry, health, prefs.0)
            && skipped == TrippedOut(allow, registry, health, prefs.0)
            && refusal == (if prefs.1.Some? then prefs.1 else if candidates == [] then Some(NO_ELIGIBLE_EXECUTOR) else None)
  {
    candidates, skipped := [], [];
    var prefs := Preferences(sel, task);
    if prefs.1.Some? {
      return candidates, skipped, prefs.1;
    }
    var names := prefs.0;
    for i := 0 to |names|
      invariant candidates == Candidates(allow, registry, health, names[..i])
      invariant skipped == TrippedOut(allow, registry, health, names[..i])
    {
      assert names[..i + 1][..i] == names[..i];
      var gate := Validate(allow, registry, names[i]);
      if gate.Chosen? {
        if Available(health, names[i]) {
          candidates := candidates + [names[i]];
        } else {
          skipped := skipped + [names[i]];
        }
      }
    }
    assert names[..|names|] == names;
    refusal := if candidates == [] then Some(NO_ELIGIBLE_EXECUTOR) else None;
  }

  /** Keeping keeps exactly the members with the property. */
  lemma {:induction false} KeepMembers(names: seq<string>, p: string -> bool, name: string)
    ensures name in Keep(names, p) <==> name in names && p(name)
  {
    if names != [] {
      KeepMembers(names[..|names| - 1], p, name);
      assert names == names[..|names| - 1] + [names[|names| - 1]];
    }
  }

  /** The first kept is the first with the property. */
  lemma {:induction false} KeepFirst(names: seq<string>, p: string -> bool, i: nat)
    requires i < |names| && p(names[i]) && forall j :: 0 <= j < i ==> !p(names[j])
    ensures Keep(names, p) != [] && Keep(names, p)[0] == names[i]
  {
    var n := |names| - 1;
    if i < n {
      KeepFirst(names[..n], p, i);
    } else {
      KeepNone(names[..n], p);
    }
  }

  lemma {:induction false} KeepNone(names: seq<string>, p: string -> bool)
    requires forall j :: 0 <= j < |names| ==> !p(names[j])
    ensures Keep(names, p) == []
  {
    if names != [] {
      KeepNone(names[..|names| - 1], p);
    }
  }

  /** Every preference in policy is a candidate or was skipped, and nothing else is either: the fallback cannot
      leave the policy. */
  lemma FallbackStaysInPolicy(sel: Selector, task: Task, allow: seq<string>, registry: seq<Record>, health: Health,
                              name: string)
    ensures var prefs := Preferences(sel, task).0;
            (name in Candidates(allow, registry, health, prefs) || name in TrippedOut(allow, registry, health, prefs))
            <==> name in prefs && InPolicy(allow, registry, name)
    ensures var prefs := Preferences(sel, task).0;
            !(name in Candidates(allow, registry, health, prefs) && name in TrippedOut(allow, registry, health, prefs))
  {
    var prefs := Preferences(sel, task).0;
    KeepMembers(prefs, n => InPolicy(allow, registry, n) && Available(health, n), name);
    KeepMembers(prefs, n => InPolicy(allow, registry, n) && !Available(health, n), name);
  }

  ghost predicate AllHealthy(health: Health, prefs: seq<string>) {
    forall i :: 0 <= i < |prefs| ==> Available(health, prefs[i])
  }

  /** With one record a provider, being eligible for a profile is being supported and admitted by it. */
  lemma EligibleIsFound(registry: seq<Record>, profile: string, name: string)
    requires DistinctProviders(registry)
    ensures EligibleFor(registry, profile, name) <==>
              var rec := Find(registry, name); rec.Some? && rec.value.supported && ProfileAdmits(rec.value, profile)
  {
  }

  /** With everything healthy, what Select answers is among the candidates exactly when the first record of its name is
      supported - always so in a registry with one record a provider, which is all that loading accepts. */
  lemma SelectedIsACandidate(sel: Selector, task: Task, allow: seq<string>, registry: seq<Record>, health: Health,
                             r: Selection)
    requires IsSelected(sel, task, allow, registry, r) && r.Chosen?
    requires AllHealthy(health, Preferences(sel, task).0)
    ensures var found := Find(registry, r.name);
            r.name in Candidates(allow, registry, health, Preferences(sel, task).0) <==> found.Some? && found.value.supported
    ensures DistinctProviders(registry) ==> r.name in Candidates(allow, registry, health, Preferences(sel, task).0)
  {
    var prefs := Preferences(sel, task).0;
    KeepMembers(prefs, n => InPolicy(allow, registry, n) && Available(health, n), r.name);
    assert r.name in prefs && r.name in allow;
    if DistinctProviders(registry) {
      EligibleIsFound(registry, sel.profile, r.name);
    }
  }

  /** The fallback does not look at the profile. With everything healthy its first candidate is Select's answer
      exactly when the profile admits that candidate - always so for an explicit or default executor. */
  lemma FirstCandidateIsSelectedIff(sel: Selector, task: Task, allow: seq<string>, registry: seq<Record>,
                                    health: Health, r: Selection)
    requires DistinctProviders(registry) && IsSelected(sel, task, allow, registry, r)
    requires AllHealthy(health, Preferences(sel, task).0)
    requires Candidates(allow, registry, health, Preferences(sel, task).0) != []
    ensures var lead := Candidates(allow, registry, health, Preferences(sel, task).0)[0];
            r == Chosen(lead) <==>
              task.executor != "" || sel.routing == map[] || task.class_ == "" || EligibleFor(registry, sel.profile, lead)
  {
    var prefs := Preferences(sel, task).0;
    var p := n => InPolicy(allow, registry, n) && Available(health, n);
    var lead := Candidates(allow, registry, health, prefs)[0];
    KeepMembers(prefs, p, lead);
    if task.executor == "" && sel.routing != map[] && task.class_ != "" {
      RoutedLead(sel, task, allow, registry, health, r);
    }
  }

  lemma RoutedLead(sel: Selector, task: Task, allow: seq<string>, registry: seq<Record>, health: Health, r: Selection)
    requires DistinctProviders(registry) && task.class_ in sel.routing && IsRouted(sel, task.class_, allow, registry, r)
    requires AllHealthy(health, sel.routing[task.class_])
    requires Candidates(allow, registry, health, sel.routing[task.class_]) != []
    ensures var lead := Candidates(allow, registry, health, sel.routing[task.class_])[0];
            r == Chosen(lead) <==> EligibleFor(registry, sel.profile, lead)
  {
    var prefs := sel.routing[task.class_];
    var p := n => InPolicy(allow, registry, n) && Available(health, n);
    var lead := Candidates(allow, registry, health, prefs)[0];
    var i := FirstKept(prefs, p);
    KeepFirst(prefs, p, i);
    EligibleIsFound(registry, sel.profile, lead);
    forall j | 0 <= j < i ensures !Routable(sel, allow, registry, prefs[j]) {
      EligibleIsFound(registry, sel.profile, prefs[j]);
      assert !p(prefs[j]);
    }
    if EligibleFor(registry, sel.profile, lead) {
      assert Routable(sel, allow, registry, prefs[i]);
    }
  }

  lemma {:induction false} FirstKept(names: seq<string>, p: string -> bool) returns (i: nat)
    requires Keep(names, p) != []
    ensures i < |names| && p(names[i]) && forall j :: 0 <= j < i ==> !p(names[j])
  {
    var n := |names| - 1;
    if Keep(names[..n], p) != [] {
      i := FirstKept(names[..n], p);
    } else {
      i := n;
      forall j | 0 <= j < n ensures !p(names[j]) {
        KeepMembers(names[..n], p, names[j]);
        assert names[..n][j] in names[..n];
      }
    }
  }

  /** A profile that denies an executor keeps Select from it, but not the fallback. */
  lemma DeniedProfileStillFallsBack(name: string, profile: string, class_: string)
    requires name != "" && class_ != ""
    ensures var sel := Selector("", map[class_ := [name]], profile);
            var registry := [Record(name, true, [], [profile])];
            var task := Task("", class_);
            IsSelected(sel, task, [name], registry, Rejected("", NO_ELIGIBLE_EXECUTOR))
            && Candidates([name], registry, Health(None, 0), Preferences(sel, task).0) == [name]
  {
    var registry := [Record(name, true, [], [profile])];
    assert class_ in map[class_ := [name]];
    assert Find(registry, name) == Some(registry[0]);
    assert Keep([name][..0], n => InPolicy([name], registry, n) && Available(Health(None, 0), n)) == [];
  }

  // ---- Running one after another ----

  datatype Attempt = Fault | Fatal | Ran(output: string, failed: bool)

  datatype Outcome =
    | Aborted
    | Finished(executor: string, output: string, failed: bool, skipped: seq<string>)
    | PolicyViolation(reason: Option<Reason>, skipped: seq<string>)

  const DEFAULT_BUDGET: int := 3

  function AttemptBudget(configured: int): (b: int)
    ensures b > 0
  {
    if configured > 0 then configured else DEFAULT_BUDGET
  }

  function Min(a: int, b: int): int {
    if a < b then a else b
  }

  /** What the loop promises of the executors it asked, in terms of the candidates alone: they are the first
      ones, at most the budget; all but the last were faults; the last decides, or all faulted. */
  ghost predicate FallsOver(candidates: seq<string>, skipped: seq<string>, budget: int, run: (nat, string) -> Attempt,
                            asked: seq<string>, out: Outcome)
  {
    |asked| <= Min(budget, |candidates|) && asked == candidates[..|asked|]
    && (forall i :: 0 <= i < |asked| - 1 ==> run(i, asked[i]) == Fault)
    && match out
       case PolicyViolation(reason, all) =>
         reason == None && all == skipped + asked && |asked| == Min(budget, |candidates|)
         && (asked != [] ==> run(|asked| - 1, asked[|asked| - 1]) == Fault)
       case Aborted => asked != [] && run(|asked| - 1, asked[|asked| - 1]) == Fatal
       case Finished(executor, output, failed, all) =>
         asked != [] && executor == asked[|asked| - 1] && run(|asked| - 1, executor) == Ran(output, failed)
         && all == skipped + asked[..|asked| - 1]
  }

  /** The loop; `run` says what the n-th attempt meets on a given executor. */
  method TryCandidates(candidates: seq<string>, preSkipped: seq<string>, configured: int, run: (nat, string) -> Attempt)
    returns (out: Outcome, asked: seq<string>)
    ensures FallsOver(candidates, preSkipped, AttemptBudget(configured), run, asked, out)
  {
    var budget := AttemptBudget(configured);
    var skipped := preSkipped;
    asked := [];
    var i := 0;
    while i < |candidates| && |asked| < budget
      invariant 0 <= i <= |candidates| && i <= budget && asked == candidates[..i]
      invariant forall j :: 0 <= j < i ==> run(j, candidates[j]) == Fault
      invariant skipped == preSkipped + asked
    {
      asked := asked + [candidates[i]];
      assert asked == candidates[..i + 1];
      var attempt := run(i, candidates[i]);
      match attempt {
        case Fatal => return Aborted, asked;
        case Ran(output, failed) =>
          assert asked[..|asked| - 1] == candidates[..i];
          return Finished(candidates[i], output, failed, skipped), asked;
        case Fault => skipped := skipped + [candidates[i]];
      }
      i := i + 1;
    }
    out := PolicyViolation(None, skipped);
  }

  /** What was asked and what came of it are determined by the candidates and their answers. */
  lemma FallingOverIsDetermined(candidates: seq<string>, skipped: seq<string>, budget: int,
                                run: (nat, string) -> Attempt, asked1: seq<string>, out1: Outcome, asked2: seq<string>, out2: Outcome)
    requires FallsOver(candidates, skipped, budget, run, asked1, out1)
    requires FallsOver(candidates, skipped, budget, run, asked2, out2)
    ensures asked1 == asked2 && out1 == out2
  {
  }

  /** What executing a task promises of the executors it asked and of its outcome. */
  ghost predicate Executes(sel: Selector, task: Task, allow: seq<string>, registry: seq<Record>, health: Health,
                           configured: int,
                           run: (nat, string) -> Attempt, asked: seq<string>, out: Outcome)
  {
    var prefs := Preferences(sel, task);
    var candidates := Candidates(allow, registry, health, prefs.0);
    var tripped := TrippedOut(allow, registry, health, prefs.0);
    if allow == [] then out == PolicyViolation(None, []) && asked == []
    else if prefs.1.Some? then out == PolicyViolation(prefs.1, []) && asked == []
    else if candidates == [] then out == PolicyViolation(Some(NO_ELIGIBLE_EXECUTOR), tripped) && asked == []
    else FallsOver(candidates, tripped, AttemptBudget(configured), run, asked, out)
  }

  /** ExecuteTask: no allowlist refuses outright; otherwise the candidates are tried in order. Whoever is asked
      is allowlisted, supported and healthy. */
  method ExecuteTask(sel: Selector, task: Task, allow: seq<string>, registry: seq<Record>, health: Health,
                     configured: int,
                     run: (nat, string) -> Attempt) returns (out: Outcome, asked: seq<string>)
    ensures forall i :: 0 <= i < |asked| ==> InPolicy(allow, registry, asked[i]) && Available(health, asked[i])
    ensures Executes(sel, task, allow, registry, health, configured, run, asked, out)
  {
    if allow == [] {
      return PolicyViolation(None, []), [];
    }
    var candidates, tripped, refusal := SelectCandidates(sel, task, allow, registry, health);
    if refusal.Some? {
      return PolicyViolation(refusal, tripped), [];
    }
    out, asked := TryCandidates(candidates, tripped, configured, run);
    forall i | 0 <= i < |asked| ensures InPolicy(allow, registry, asked[i]) && Available(health, asked[i]) {
      assert asked[i] == candidates[i] && candidates[i] in candidates;
      KeepMembers(Preferences(sel, task).0, n => InPolicy(allow, registry, n) && Available(health, n), candidates[i]);
    }
  }

  // ---- The profile ----

  /** Every executor that is asked, whatever the attempts meet, is eligible for the selector's profile. */
  ghost predicate AsksOnlyEligible(sel: Selector, task: Task, allow: seq<string>, registry: seq<Record>, health: Health,
                                   configured: int)
  {
    forall run, asked, out :: Executes(sel, task, allow, registry, health, configured, run, asked, out) ==>
      forall i :: 0 <= i < |asked| ==> EligibleFor(registry, sel.profile, asked[i])
  }

  /** Executing never asks an executor its profile refuses exactly when each of the first healthy in-policy preferences,
      as many as the attempt budget allows, is one the profile admits. The code does not check that. */
  lemma ProfileIsRespectedIff(sel: Selector, task: Task, allow: seq<string>, registry: seq<Record>, health: Health,
                              configured: int)
    ensures var candidates := Candidates(allow, registry, health, Preferences(sel, task).0);
            AsksOnlyEligible(sel, task, allow, registry, health, configured) <==>
              forall i :: 0 <= i < Min(AttemptBudget(configured), |candidates|) ==> EligibleFor(registry, sel.profile, candidates[i])
  {
    hide EligibleFor;
    var candidates := Candidates(allow, registry, health, Preferences(sel, task).0);
    var n := Min(AttemptBudget(configured), |candidates|);
    NoAllowlistNoCandidates(allow, registry, health, Preferences(sel, task).0);
    if candidates != [] {
      AllFaulty(sel, task, allow, registry, health, configured);
    }
    if AsksOnlyEligible(sel, task, allow, registry, health, configured) {
      forall i | 0 <= i < n ensures EligibleFor(registry, sel.profile, candidates[i]) {
        assert candidates[..n][i] == candidates[i];
      }
    }
    if forall i :: 0 <= i < n ==> EligibleFor(registry, sel.profile, candidates[i]) {
      forall run, asked, out | Executes(sel, task, allow, registry, health, configured, run, asked, out)
        ensures forall i :: 0 <= i < |asked| ==> EligibleFor(registry, sel.profile, asked[i])
      {
        assert forall i :: 0 <= i < |asked| ==> asked[i] == candidates[i];
      }
    }
  }

  lemma NoAllowlistNoCandidates(allow: seq<string>, registry: seq<Record>, health: Health, prefs: seq<string>)
    ensures allow == [] ==> Candidates(allow, registry, health, prefs) == []
  {
    if allow == [] {
      KeepNone(prefs, n => InPolicy(allow, registry, n) && Available(health, n));
    }
  }

  /** When every provider faults, all the candidates within the budget are asked. */
  lemma AllFaulty(sel: Selector, task: Task, allow: seq<string>, registry: seq<Record>, health: Health, configured: int)
    requires allow != [] && Candidates(allow, registry, health, Preferences(sel, task).0) != []
    ensures var prefs := Preferences(sel, task).0;
            var candidates := Candidates(allow, registry, health, prefs);
            var asked := candidates[..Min(AttemptBudget(configured), |candidates|)];
            Executes(sel, task, allow, registry, health, configured, (_, _) => Fault, asked,
                     PolicyViolation(None, TrippedOut(allow, registry, health, prefs) + asked))
  {
  }

  /** A denied executor decides a task whose first preference is Select's own answer and merely faults. */
  lemma DeniedExecutorDecides(a: string, b: string, profile: string, class_: string, output: string)
    requires a != b && class_ != ""
    ensures var sel := Selector("", map[class_ := [a, b]], profile);
            var registry := [Record(a, true, [], []), Record(b, true, [], [profile])];
            IsSelected(sel, Task("", class_), [a, b], registry, Chosen(a))
            && !EligibleFor(registry, profile, b)
            && Executes(sel, Task("", class_), [a, b], registry, Health(None, 0), 0,
                        (i, _) => if i == 0 then Fault else Ran(output, false), [a, b], Finished(b, output, false, [a]))
  {
    var registry := [Record(a, true, [], []), Record(b, true, [], [profile])];
    var sel := Selector("", map[class_ := [a, b]], profile);
    assert class_ in sel.routing;
    TwoRecords(a, b, profile);
    TwoCandidates([a, b], registry, Health(None, 0), a, b);
    assert Routable(sel, [a, b], registry, [a, b][0]);
    assert [a, b][..1] == [a];
  }

  lemma TwoRecords(a: string, b: string, profile: string)
    requires a != b
    ensures var registry := [Record(a, true, [], []), Record(b, true, [], [profile])];
            Find(registry, a) == Some(registry[0]) && Find(registry, b) == Some(registry[1])
            && EligibleFor(registry, profile, a) && !EligibleFor(registry, profile, b)
  {
    var registry := [Record(a, true, [], []), Record(b, true, [], [profile])];
    assert registry[0].provider == a && registry[1].provider == b;
    assert registry[1..] == [registry[1]];
  }

  lemma TwoCandidates(allow: seq<string>, registry: seq<Record>, health: Health, a: string, b: string)
    requires InPolicy(allow, registry, a) && InPolicy(allow, registry, b) && Available(health, a)
    requires Available(health, b)
    ensures Candidates(allow, registry, health, [a, b]) == [a, b] && TrippedOut(allow, registry, health, [a, b]) == []
  {
    KeepTwo(a, b, n => InPolicy(allow, registry, n) && Available(health, n));
    KeepTwo(a, b, n => InPolicy(allow, registry, n) && !Available(health, n));
  }

  lemma KeepTwo(a: string, b: string, p: string -> bool)
    ensures Keep([a, b], p) == (if p(a) then [a] else []) + (if p(b) then [b] else [])
  {
    var none: seq<string> := [];
    assert [a, b][..1] == [a] && [a][..0] == none;
    assert Keep(none, p) == [];
    assert Keep([a], p) == if p(a) then [a] else [];
  }
}
