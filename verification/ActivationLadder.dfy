/** One skill promoted again and again at one time, and what can then go wrong with its budget. */
module ActivationLadder {
  import opened Options
  import opened Packages
  import opened Budget
  import opened Skills
  import opened RecordLog
  import opened VersionStore
  import opened Activation
  import opened ActivationSafety
  import opened ActivationSteps
  import opened ActivationTheorems
  import opened ActivationBudget
  import opened ActivationReports
  import opened ActivationProgress
  import opened ActivationHidden
  import opened ActivationWitness
  import opened ActivationRollback

  function Body(i: int): SkillVersion {
    SkillVersion("k", i, "old", [], [], 0.0)
  }

  function Rung(i: int): Candidate {
    Candidate(Body(i), Body(i + 1), true, 0.0, 0.0, true, true)
  }

  function LadderEnv(limits: Limits): Env {
    Env(limits, map["k" := "old"])
  }

  function FilesOf(i: int): int {
    if i == 1 then 5 else 3
  }

  /** The window after `n` promotions. */
  function WindowAfter(n: nat): Window {
    EMPTY_WINDOW.(promotions := n, filesChanged := if n == 0 then 0 else 2 + 3 * n)
  }

  /** One more promotion on top of a window breaches nothing, neither when it is decided nor when it is reserved. */
  predicate RoomFor(limits: Limits, loaded: Window, files: int) {
    EffectiveLimits(limits) == limits
    && Breaches(loaded.(promotions := loaded.promotions + 1), limits) == []
    && Breaches(loaded.(promotions := loaded.promotions + 1, filesChanged := loaded.filesChanged + files, rollbackChainDepth := 0),
                limits) == []
  }

  /** The reservations of the first `i - 1` promotions, all at time 0. */
  ghost predicate ReservedUpTo(events: seq<Event>, i: int) {
    |events| == i - 1 && WindowOf(events, -WINDOW) == WindowAfter(i - 1)
    && forall k :: 0 <= k < |events| ==> events[k].at == 0 && events[k].key.to <= i && events[k].action == Promote
  }

  ghost predicate Below(o: Objects, i: int) {
    (forall k :: k in o.content ==> k.version <= i) && (forall k :: k in o.metadata ==> k.version <= i)
  }

  /** At rest with version `i` active. */
  ghost predicate At(s: State, i: int) {
    i >= 1 && s.op.None? && !s.guard && !s.reading && s.frozen == None && ProcOf(s, 0).latch == THAWED
    && |History(s, 0, "k")| == i && (forall j :: 0 <= j < i ==> History(s, 0, "k")[j] == Body(j + 1))
    && (if i == 1 then s.pins == map[] && s.objects == Objects(map[], map[]) else "k" in s.pins && s.pins["k"] == PinOf(Body(i), i))
    && Below(s.objects, i) && ReservedUpTo(s.events, i)
  }

  // ---- One rung ----

  /** The active version is the one the store reads back. */
  lemma RungReads(env: Env, steps: seq<Step>, i: int)
    requires At(Run(env, steps), i) && i > 1
    ensures var o := Run(env, steps).objects;
            ReadPinned(o, "k", i, PinOf(Body(i), i)) == Some(Body(i)) && ReadVersion(o, "k", i - 1) == Some(Body(i - 1))
  {
    hide Run, ReadVersion, Below, ReservedUpTo, ReadPinned;
    var s := Run(env, steps);
    RegistryAgreesWithStore(env, steps, 0, "k", i - 1);
    RegistryAgreesWithStore(env, steps, 0, "k", i - 2);
    BodyReads(s.objects, i);
  }

  lemma BodyReads(o: Objects, i: int)
    requires ReadVersion(o, "k", i) == Some(Body(i))
    ensures ReadPinned(o, "k", i, PinOf(Body(i), i)) == Some(Body(i))
  {
  }

  lemma RungChecks(env: Env, s: State, i: int)
    requires At(s, i) && "k" in env.baseline && env.baseline["k"] == "old"
    requires i > 1 ==> ReadPinned(s.objects, "k", i, PinOf(Body(i), i)) == Some(Body(i))
    ensures CheckedVersion(env, s, 0, Rung(i)) == Some(i)
  {
    hide ReadPinned, Below, ReservedUpTo;
    var h := History(s, 0, "k");
    assert h != [] && h[|h| - 1] == Body(i);
    assert ValidCandidate(Rung(i));
  }

  lemma RungIsEvaluated(i: int, loaded: Window, limits: Limits)
    requires i >= 1 && RoomFor(limits, loaded, FilesOf(i))
    ensures Evaluate(Rung(i), loaded, limits).applied
  {
    hide Breaches, EffectiveLimits;
    AppliedMeansEveryGate(Rung(i), loaded, limits);
  }

  /** A reservation for the next version is new, and accepted where there is room for it. */
  lemma RungReserves(env: Env, s: State, plan: Plan, i: int)
    requires ReservedUpTo(s.events, i) && s.now >= 0 && plan.action == Promote && plan.to == i + 1 && plan.files > 0
    requires EffectiveLimits(env.limits) == env.limits
    requires Breaches(plan.window.(promotions := plan.window.promotions + 1, filesChanged := plan.window.filesChanged + plan.files,
                                   rollbackChainDepth := 0), env.limits) == []
    ensures CanReserve(env, s, plan) && PlanKey(plan) !in Keys(s.events)
  {
    hide Breaches, EffectiveLimits, WindowOf;
    forall e | e in s.events ensures e.key != PlanKey(plan) {
      assert e.key.to <= i;
    }
  }

  lemma RungStores(s: State, i: int)
    requires At(s, i)
    ensures CanStore(s.objects, PromotionPlan(s, Rung(i), i))
  {
    hide WindowOf, ReservedUpTo, History;
  }

  lemma RungIsAdmissible(limits: Limits, steps: seq<Step>, i: int, loaded: Window)
    requires var s := Run(LadderEnv(limits), steps);
             At(s, i) && s.now >= 0 && loaded == WindowOf(s.events, s.now - WINDOW)
             && DecisionWindow(EMPTY_WINDOW, loaded) == loaded && RoomFor(limits, loaded, FilesOf(i))
    ensures Admissible(LadderEnv(limits), Run(LadderEnv(limits), steps), 0, Rung(i), EMPTY_WINDOW)
  {
    hide Run, CheckedVersion, Evaluate, CanStore, CanReserve, Breaches, EffectiveLimits, WindowOf, ReadPinned, ReadVersion, PinOf;
    var env, s := LadderEnv(limits), Run(LadderEnv(limits), steps);
    if i > 1 {
      RungReads(env, steps, i);
    }
    RungChecks(env, s, i);
    RungIsEvaluated(i, loaded, limits);
    RungReserves(env, s, PromotionPlan(s, Rung(i), i), i);
    RungStores(s, i);
  }

  lemma ReservedOneMore(events: seq<Event>, e: Event, i: int)
    requires i >= 1 && ReservedUpTo(events, i) && e.at == 0 && e.key.to == i + 1 && e.action == Promote && e.filesChanged == FilesOf(i)
    ensures ReservedUpTo(events + [e], i + 1)
  {
    WindowSnoc(events, -WINDOW, e);
  }

  lemma StoredBelow(o: Objects, plan: Plan, i: int)
    requires Below(o, i) && i >= 1 && plan.to == i + 1
    ensures Below(StoredFor(o, plan), i + 1)
  {
  }

  /** What a completed promotion at time 0 leaves is the next rung. */
  lemma NextRung(s: State, t: State, i: int)
    requires At(s, i) && s.now == 0 && t.op.None? && !t.guard && !t.reading && t.frozen == s.frozen
    requires var plan := PromotionPlan(s, Rung(i), i);
             t.objects == StoredFor(s.objects, plan) && ReservedFor(s, plan, t.events) && PlanKey(plan) !in Keys(s.events)
    requires ProcOf(t, 0).latch == ClearMirror(ProcOf(s, 0).latch) && t.pins == s.pins["k" := PinOf(Body(i + 1), i + 1)]
    requires History(t, 0, "k") == History(s, 0, "k") + [Renumbered(Body(i + 1), "k", i + 1)]
    ensures At(t, i + 1)
  {
    hide WindowOf, StoredFor, Below, PinOf, ReservedUpTo, Keys, History;
    var plan := PromotionPlan(s, Rung(i), i);
    ReservedOneMore(s.events, Event(|s.events| + 1, s.now, PlanKey(plan), plan.action, plan.files), i);
    StoredBelow(s.objects, plan, i);
  }

  // ---- The ladder ----

  lemma FirstRung(limits: Limits) returns (steps: seq<Step>)
    ensures At(Run(LadderEnv(limits), steps), 1) && Run(LadderEnv(limits), steps).now == 0
  {
    steps := [] + [Register(0, Body(1))];
    RunSnoc(LadderEnv(limits), [], Register(0, Body(1)));
    var s := Run(LadderEnv(limits), steps);
    assert Run(LadderEnv(limits), []) == INITIAL;
    assert s == INITIAL.(procs := map[0 := Process(map["k" := [Body(1)]], THAWED)]);
    assert History(s, 0, "k") == [Body(1)];
  }

  /** Version `i` can be reached by promotions at time 0 as long as each of them has room. */
  lemma {:induction false} Climb(limits: Limits, i: int) returns (steps: seq<Step>)
    requires i >= 1 && forall j :: 1 <= j < i ==> RoomFor(limits, WindowAfter(j - 1), FilesOf(j))
    ensures At(Run(LadderEnv(limits), steps), i) && Run(LadderEnv(limits), steps).now == 0
    decreases i
  {
    if i == 1 {
      steps := FirstRung(limits);
    } else {
      var below := Climb(limits, i - 1);
      steps := ClimbOne(limits, below, i - 1);
    }
  }

  lemma ClimbOne(limits: Limits, below: seq<Step>, i: int) returns (steps: seq<Step>)
    requires At(Run(LadderEnv(limits), below), i) && Run(LadderEnv(limits), below).now == 0
    requires RoomFor(limits, WindowAfter(i - 1), FilesOf(i))
    ensures At(Run(LadderEnv(limits), steps), i + 1) && Run(LadderEnv(limits), steps).now == 0
  {
    hide Run, Next, After, RoomFor, Admissible, StoredFor, ReservedFor, Reported, PinOf, WindowOf, Keys, PlanKey;
    var env, s := LadderEnv(limits), Run(LadderEnv(limits), below);
    RungIsAdmissible(limits, below, i, WindowAfter(i - 1));
    var plan := PromotionPlan(s, Rung(i), i);
    var t := PromotionCompletes(env, s, 0, Rung(i), EMPTY_WINDOW);
    var begin := Begin(0, PromoteRequest(Rung(i), EMPTY_WINDOW));
    RunSnoc(env, below, begin);
    AfterIsRun(env, below + [begin], 9 + ToSwitch(plan));
    steps := below + [begin] + Proceeds(9 + ToSwitch(plan));
    NewKey(s, plan, i);
    NextRung(s, t, i);
  }

  lemma NewKey(s: State, plan: Plan, i: int)
    requires ReservedUpTo(s.events, i) && plan.to == i + 1
    ensures PlanKey(plan) !in Keys(s.events)
  {
    hide WindowOf;
    forall e | e in s.events ensures e.key != PlanKey(plan) {
      assert e.key.to <= i;
    }
  }

  // ---- A clock set back under an operation takes a run over the limit ----

  lemma ManyPromotionsFit(max: nat, j: int)
    requires max > 0 && 1 <= j <= max
    ensures RoomFor(OnlyPromotions(max), WindowAfter(j - 1), FilesOf(j))
  {
  }

  lemma OneFitsAnEmptyWindow(max: nat, files: int)
    requires max > 0
    ensures RoomFor(OnlyPromotions(max), EMPTY_WINDOW, files)
  {
  }

  lemma {:induction false} AgedWindow(events: seq<Event>)
    requires forall k :: 0 <= k < |events| ==> events[k].at == 0
    ensures WindowOf(events, 0) == EMPTY_WINDOW
  {
    if events != [] {
      AgedWindow(events[..|events| - 1]);
    }
  }

  /** After the limit is used up at time 0: the clock set 30 days on, a promotion that loads the budget, the clock set back,
      and its reservation. */
  lemma ClockSetBackOverruns(max: nat) returns (steps: seq<Step>)
    requires max > 0
    ensures EffectiveLimits(OnlyPromotions(max)).maxPromotions == max
    ensures PromotesIn(Run(LadderEnv(OnlyPromotions(max)), steps).events, -WINDOW, 0) == max + 1
  {
    hide Run, Next, After, RoomFor, Admissible, At, PromotesIn, WindowOf;
    var limits := OnlyPromotions(max);
    forall j | 1 <= j < max + 1 ensures RoomFor(limits, WindowAfter(j - 1), FilesOf(j)) {
      ManyPromotionsFit(max, j);
    }
    var used := Climb(limits, max + 1);
    steps := Overrun(max, used);
  }

  lemma Overrun(max: nat, used: seq<Step>) returns (steps: seq<Step>)
    requires max > 0 && At(Run(LadderEnv(OnlyPromotions(max)), used), max + 1) && Run(LadderEnv(OnlyPromotions(max)), used).now == 0
    ensures PromotesIn(Run(LadderEnv(OnlyPromotions(max)), steps).events, -WINDOW, 0) == max + 1
  {
    hide Run, Next, After, RoomFor, Admissible, PromotesIn, WindowOf, Below, PinOf, History, CanReserve, Reconciled, ClearMirror;
    var env, i := LadderEnv(OnlyPromotions(max)), max + 1;
    var s := Run(env, used);
    RunSnoc(env, used, SetClock(WINDOW));
    var s1 := s.(now := WINDOW);
    ClockIs(env, s, WINDOW);
    AtAnyTime(s, WINDOW, i);
    AgedWindow(s.events);
    OneFitsAnEmptyWindow(max, FilesOf(i));
    RungIsAdmissible(OnlyPromotions(max), used + [SetClock(WINDOW)], i, EMPTY_WINDOW);
    var begin := Begin(0, PromoteRequest(Rung(i), EMPTY_WINDOW));
    RunSnoc(env, used + [SetClock(WINDOW)], begin);
    var r := ReachesReserving(env, s1, 0, Rung(i), EMPTY_WINDOW);
    AfterIsRun(env, used + [SetClock(WINDOW)] + [begin], 5);
    var loaded := used + [SetClock(WINDOW)] + [begin] + Proceeds(5);
    RunSnoc(env, loaded, SetClock(0));
    ClockIs(env, r, 0);
    RunSnoc(env, loaded + [SetClock(0)], Proceed);
    steps := loaded + [SetClock(0)] + [Proceed];
    LateReservation(env, r.(now := 0), r.op.value, max);
  }

  lemma ClockIs(env: Env, s: State, now: int)
    ensures Next(env, s, SetClock(now)) == s.(now := now)
  {
  }

  lemma AtAnyTime(s: State, now: int, i: int)
    requires At(s, i)
    ensures At(s.(now := now), i)
  {
    hide WindowOf, Below, PinOf;
    assert History(s.(now := now), 0, "k") == History(s, 0, "k");
  }

  /** The reservation against the window that was loaded too late. */
  lemma LateReservation(env: Env, s: State, op: Op, max: nat)
    requires env == LadderEnv(OnlyPromotions(max)) && max > 0 && s.op == Some(op) && op.pc == Reserving && s.now == 0
    requires ReservedUpTo(s.events, max + 1) && op.plan.window == EMPTY_WINDOW && op.plan.action == Promote
    requires op.plan.to == max + 2 && op.plan.files > 0 && op.plan.body.prompt != ""
    ensures PromotesIn(Next(env, s, Proceed).events, -WINDOW, 0) == max + 1
  {
    hide WindowOf, PromotesIn, PlanKey, Reserve, Keys, ReservedUpTo, DoReserve, AfterReserve;
    var plan := op.plan;
    OneFitsAnEmptyWindow(max, plan.files);
    RungReserves(env, s, plan, max + 1);
    ReservePasses(env, s, op);
    LateActions(env, s, op);
    var e := Event(|s.events| + 1, 0, PlanKey(plan), plan.action, plan.files);
    assert Next(env, s, Proceed).events == s.events + [e];
    PromoteCounts(s.events, e);
    UsedUp(s.events, max);
  }

  lemma UsedUp(events: seq<Event>, max: nat)
    requires ReservedUpTo(events, max + 1)
    ensures PromotesIn(events, -WINDOW, 0) == max
  {
    WindowCountsPromotes(events, -WINDOW, 0);
  }

  // ---- A retried rollback crosses the budget without a freeze ----

  /** Only the number of changed files is limited, to those of a first promotion. */
  const FIVE_FILES := Limits(0, 5, 0.0, 0.0, 0.0, 0, 0)

  lemma PromotionFitsFiveFiles()
    ensures RoomFor(FIVE_FILES, WindowAfter(0), FilesOf(1))
  {
  }

  /** The first attempt, without a freeze store, is refused for its breach and keeps its reservation. */
  lemma RefusedRollback(env: Env, before: seq<Step>, plan: Plan) returns (steps: seq<Step>)
    requires var s := Run(env, before);
             At(s, 2) && s.now == 0 && plan == RollbackPlan(s, "k", Body(2), Body(1), 2) && NewBreach(env, s, plan).Some?
    ensures var s, t := Run(env, before), Run(env, steps);
            t == s.(records := t.records, events := s.events + [RollbackEvent(s.events, 0, plan)])
  {
    hide Run, Next, After, At, CanRollBack, NewBreach, WindowOf, Reconciled, DoReserve, Keys, PlanKey, RollbackEvent, Advance, History,
         ReadVersion, ReadPinned, PinOf;
    var s := Run(env, before);
    TwoCanRollBack(env, before);
    PinAtTwo(s);
    var begin := Begin(0, RollbackRequest("k", true, false));
    RunSnoc(env, before, begin);
    var r := RollbackReachesReserving(env, s, 0, "k", false, Body(2), Body(1));
    AfterIsRun(env, before + [begin], 2);
    var checked := before + [begin] + Proceeds(2);
    RunSnoc(env, checked, Proceed);
    steps := checked + [Proceed];
    ReservesAndFails(env, s, r, plan);
  }

  lemma ReservesAndFails(env: Env, s: State, r: State, plan: Plan)
    requires NewBreach(env, s, plan).Some? && s.op.None? && !s.guard && !s.reading && Loads(s.events, s.now)
    requires plan.action == Rollback && plan.files > 0 && plan.body.prompt != ""
    requires r == s.(records := r.records, op := Some(Op(0, RollbackRequest("k", true, false), Reserving, plan)))
    ensures Next(env, r, Proceed) == s.(records := r.records, events := s.events + [RollbackEvent(s.events, s.now, plan)])
  {
    hide NewBreach, DoReserve, Keys, PlanKey, RollbackEvent, DoPrepare, DoSwitch, DoPublish, DoCommit, Advance;
    SameBreach(env, s, r, plan);
    KnownIsNoBreach(env, s, plan);
    RollbackDecides(env, r, r.op.value);
    LateActions(env, r, r.op.value);
  }

  lemma PinAtTwo(s: State)
    requires At(s, 2)
    ensures "k" in s.pins && s.pins["k"].source == Source("k", 2) && s.op.None? && !s.guard && !s.reading && s.frozen == None
    ensures s.now == 0 ==> Loads(s.events, s.now)
  {
    hide WindowOf, Below, History;
  }

  lemma TwoCanRollBack(env: Env, steps: seq<Step>)
    requires At(Run(env, steps), 2) && Run(env, steps).now == 0
    ensures CanRollBack(Run(env, steps), 0, "k", Body(2), Body(1))
  {
    hide Run, ReadVersion, ReadPinned, WindowOf, PinOf;
    var s := Run(env, steps);
    RungReads(env, steps, 2);
    PinAtTwo(s);
  }

  /** Eight changed files are over the limit of five. */
  lemma RollbackBreachesFiveFiles(s: State)
    requires At(s, 2) && s.now == 0
    ensures NewBreach(LadderEnv(FIVE_FILES), s, RollbackPlan(s, "k", Body(2), Body(1), 2)).Some?
  {
    hide History, Below;
    var plan := RollbackPlan(s, "k", Body(2), Body(1), 2);
    NewKey(s, plan, 2);
    assert plan.window == WindowAfter(1);
    assert Breaches(Apply(plan.window, RollbackEvent(s.events, 0, plan)), FIVE_FILES)[0] == BudgetExceeded;
  }

  /** The second attempt finds the first one's reservation. */
  lemma SecondRollback(env: Env, climbed: seq<Step>, t: State, plan: Plan)
    requires var s := Run(env, climbed);
             At(s, 2) && s.now == 0 && plan == RollbackPlan(s, "k", Body(2), Body(1), 2)
             && t == s.(records := t.records, events := s.events + [RollbackEvent(s.events, 0, plan)])
    ensures CanRollBack(t, 0, "k", Body(2), Body(1)) && t.pins["k"].source == Source("k", 2)
    ensures var again := RollbackPlan(t, "k", Body(2), Body(1), 2);
            NewBreach(env, t, again) == None && EventsAfter(t, again) == t.events
  {
    hide Run, WindowOf, ReadVersion, ReadPinned, PinOf, NewBreach, History, CoherentHistory;
    var s := Run(env, climbed);
    TwoCanRollBack(env, climbed);
    PinAtTwo(s);
    SameHistory(s, t, 0, "k");
    var again := RollbackPlan(t, "k", Body(2), Body(1), 2);
    assert PlanKey(again) == PlanKey(plan);
    assert t.events[|s.events|].key == PlanKey(plan);
    KnownIsNoBreach(env, t, again);
  }

  /** The charge that was refused once is over the limit. */
  lemma ChargeIsOver(s: State, events: seq<Event>, plan: Plan)
    requires At(s, 2) && s.now == 0 && plan == RollbackPlan(s, "k", Body(2), Body(1), 2)
    requires NewBreach(LadderEnv(FIVE_FILES), s, plan).Some? && events == s.events + [RollbackEvent(s.events, 0, plan)]
    ensures EffectiveLimits(FIVE_FILES) == FIVE_FILES && Breaches(WindowOf(events, -WINDOW), FIVE_FILES) != []
  {
    hide Breaches, WindowOf, Keys, PlanKey, At;
    WindowSnoc(s.events, -WINDOW, RollbackEvent(s.events, 0, plan));
  }

  /** A caller without a freeze store rolls back over budget twice: the first call is refused and the second goes through,
      leaving the rollback active, its charge over the limit, and promotions not frozen. */
  lemma RetriedRollbackIsUnfrozen() returns (steps: seq<Step>)
    ensures var s := Run(LadderEnv(FIVE_FILES), steps);
            s.op.None? && s.frozen == None && CurrentVersion(s.pins, "k") == 3
            && |s.switches| > 0 && s.switches[|s.switches| - 1].action == Rollback
            && EffectiveLimits(FIVE_FILES) == FIVE_FILES && Breaches(WindowOf(s.events, s.now - WINDOW), FIVE_FILES) != []
  {
    hide Run, Next, After, At, CanRollBack, NewBreach, WindowOf, Keys, PlanKey, RollbackEvent, PinOf, Reported, Breaches, History,
         EventsAfter, EffectiveLimits;
    var env := LadderEnv(FIVE_FILES);
    PromotionFitsFiveFiles();
    var climbed := Climb(FIVE_FILES, 2);
    var s := Run(env, climbed);
    var plan := RollbackPlan(s, "k", Body(2), Body(1), 2);
    RollbackBreachesFiveFiles(s);
    var refused := RefusedRollback(env, climbed, plan);
    var t := Run(env, refused);
    PinAtTwo(s);
    SecondRollback(env, climbed, t, plan);
    var begin := Begin(0, RollbackRequest("k", true, false));
    var u := RollbackCompletes(env, t, 0, "k", false, Body(2), Body(1));
    RunSnoc(env, refused, begin);
    AfterIsRun(env, refused + [begin], 10);
    steps := refused + [begin] + Proceeds(10);
    ChargeIsOver(s, t.events, plan);
    PinsVersionThree();
  }

  lemma PinsVersionThree()
    ensures PinOf(Body(1), 3).source == Source("k", 3)
  {
  }
}
