/** The promotion limit over whole runs, and the clock it depends on. */
module ActivationBudget {
  import opened Options
  import opened Packages
  import opened Budget
  import opened Skills
  import opened RecordLog
  import opened VersionStore
  import opened Activation
  import opened ActivationLocks
  import opened ActivationSafety
  import opened ActivationSteps
  import opened ActivationTheorems

  /** The operation has loaded the budget and not yet reserved. */
  predicate BetweenLoadAndReserve(s: State) {
    s.op.Some? && Rank(s.op.value.pc) == 2
  }

  ghost predicate LoadIsPast(s: State) {
    BetweenLoadAndReserve(s) ==> s.op.value.plan.loadedAt <= s.now
  }

  ghost predicate RoomInv(s: State, max: int) {
    RoomAtEachPromotion(s.events, max) && LoadIsPast(s)
  }

  /** The clock is not set back under an operation that has loaded the budget and not yet reserved. */
  predicate Steady(s: State, e: Step) {
    e.SetClock? && BetweenLoadAndReserve(s) ==> e.now >= s.now
  }

  // ---- The load is never later than the reservation ----

  lemma CheckLoadsNow(env: Env, s: State, op: Op)
    requires op.pc == Checking
    ensures LoadIsPast(Decide(env, s, op)) && Decide(env, s, op).now == s.now
  {
    hide CheckedVersion, Evaluate, Breaches, WindowOf, ReadPinned, ReadVersion, CoherentHistory, History;
  }

  lemma DecideLoadIsPast(env: Env, s: State, op: Op)
    requires s.op == Some(op) && Deciding(op.pc) && LoadIsPast(s)
    ensures LoadIsPast(Decide(env, s, op))
  {
    hide DoCheckPromote, DoCheckRollback, DoReserve, Reconciled;
    if op.pc == Checking {
      CheckLoadsNow(env, s, op);
    } else if op.pc == Reserving {
      ReserveEffect(env, s, op);
    }
  }

  lemma RefuseLoadIsPast(s: State, op: Op)
    requires s.op == Some(op) && Refusing(op.pc)
    ensures !BetweenLoadAndReserve(Refuse(s, op)) || Refuse(s, op) == s
  {
    hide DoDeny, MirrorDurable;
    if op.pc.Denying? && op.request.PromoteRequest? {
      DenyFrame(s, op);
    }
  }

  lemma ActivateLoadIsPast(s: State, op: Op)
    requires s.op == Some(op) && !Deciding(op.pc) && !Refusing(op.pc)
    ensures !BetweenLoadAndReserve(Activate(s, op)) && Activate(s, op).events == s.events
  {
    hide WriteContent, WriteMetadata, Appended, PlanRecord, PlanPin, History, MetadataOf;
  }

  // ---- Room ----

  lemma ReserveKeepsRoom(env: Env, s: State, op: Op)
    requires Inv(env, s) && s.op == Some(op) && op.pc == Reserving && LoadIsPast(s)
    requires var max := EffectiveLimits(env.limits).maxPromotions; max > 0 && RoomAtEachPromotion(s.events, max)
    ensures RoomAtEachPromotion(DoReserve(env, s, op).events, EffectiveLimits(env.limits).maxPromotions)
  {
    hide Inv, Reserve, EffectiveLimits, PlanKey, WindowOf, Keys, AfterReserve, RoomAtEachPromotion;
    PlanAtReserving(env, s, op);
    var plan, limits := op.plan, EffectiveLimits(env.limits);
    var r := Reserve(s.events, plan.window, limits, s.now, PlanKey(plan), plan.action, plan.files);
    if r.Accepted? {
      AcceptKeepsRoom(s.events, plan.loadedAt, limits, s.now, PlanKey(plan), plan.action, plan.files);
    }
  }

  lemma AdvanceKeepsRoom(env: Env, s: State)
    requires Inv(env, s) && s.op.Some?
    requires var max := EffectiveLimits(env.limits).maxPromotions; max > 0 && RoomInv(s, max)
    ensures RoomInv(Advance(env, s), EffectiveLimits(env.limits).maxPromotions)
  {
    hide Inv, EffectiveLimits, Refuse, Activate, RoomAtEachPromotion, DoCheckPromote, DoCheckRollback, DoReserve, Reconciled;
    var op := s.op.value;
    if Deciding(op.pc) {
      DecideFrame(env, s, op);
      DecideLoadIsPast(env, s, op);
      if op.pc == Reserving {
        ReserveKeepsRoom(env, s, op);
      }
    } else if Refusing(op.pc) {
      RefuseFrame(s, op);
      RefuseLoadIsPast(s, op);
    } else {
      ActivateLoadIsPast(s, op);
    }
  }

  lemma NextKeepsRoom(env: Env, s: State, e: Step)
    requires Inv(env, s) && Steady(s, e)
    requires var max := EffectiveLimits(env.limits).maxPromotions; max > 0 && RoomInv(s, max)
    ensures RoomInv(Next(env, s, e), EffectiveLimits(env.limits).maxPromotions)
  {
    hide Inv, EffectiveLimits, Advance, RoomAtEachPromotion;
    if e == Proceed && s.op.Some? {
      AdvanceKeepsRoom(env, s);
    }
  }

  ghost predicate SteadyRun(env: Env, steps: seq<Step>) {
    forall k :: 0 <= k < |steps| ==> Steady(Run(env, steps[..k]), steps[k])
  }

  lemma {:induction false} RoomAlwaysHolds(env: Env, steps: seq<Step>)
    requires EffectiveLimits(env.limits).maxPromotions > 0 && SteadyRun(env, steps)
    ensures RoomInv(Run(env, steps), EffectiveLimits(env.limits).maxPromotions)
  {
    hide EffectiveLimits, Next, RoomInv, Steady;
    if steps == [] {
      InitiallyRoom(EffectiveLimits(env.limits).maxPromotions);
    } else {
      var n := |steps| - 1;
      var init := steps[..n];
      forall k | 0 <= k < |init| ensures Steady(Run(env, init[..k]), init[k]) {
        assert init[..k] == steps[..k] && init[k] == steps[k];
      }
      RoomAlwaysHolds(env, init);
      AlwaysHolds(env, init);
      NextKeepsRoom(env, Run(env, init), steps[n]);
    }
  }

  lemma InitiallyRoom(max: int)
    ensures RoomInv(INITIAL, max)
  {
  }

  /** With a positive limit, no 30-day window anywhere in any run holds more promotions than the limit - crashes, retries,
      over-budget rollbacks and a clock set back between operations included - as long as the clock is not set back under
      an operation that has loaded the budget and not yet reserved. */
  lemma PromotionsStayWithinLimit(env: Env, steps: seq<Step>, t: int)
    requires EffectiveLimits(env.limits).maxPromotions > 0 && SteadyRun(env, steps)
    ensures PromotesIn(Run(env, steps).events, t - WINDOW, t) <= EffectiveLimits(env.limits).maxPromotions
  {
    hide Run, PromotesIn, RoomAtEachPromotion, EffectiveLimits, Steady, SteadyRun;
    BudgetAlwaysHolds(env, steps);
    RoomAlwaysHolds(env, steps);
    EveryWindowIsBounded(Run(env, steps).events, EffectiveLimits(env.limits).maxPromotions, t);
  }

  // ---- Why the clock matters ----

  function Key(i: int): OpKey {
    OpKey(Promote, "", i, i + 1, OfContent(""), OfContent(""))
  }

  /** `n` promotions reserved at one time. */
  function Burst(n: nat, at: int): seq<Event> {
    seq(n, i requires 0 <= i => Event(i + 1, at, Key(i), Promote, 1))
  }

  /** Only the number of promotions is limited. */
  function OnlyPromotions(max: nat): Limits {
    Limits(max, 0, 0.0, 0.0, 0.0, 0, 0)
  }

  lemma BurstIsWellFormed(n: nat, at: int)
    ensures WellFormedEvents(Burst(n, at), at) && Key(n) !in Keys(Burst(n, at))
  {
  }

  lemma BurstSnoc(n: nat, at: int)
    requires n > 0
    ensures Burst(n, at)[..n - 1] == Burst(n - 1, at) && Burst(n, at)[n - 1] == Event(n, at, Key(n - 1), Promote, 1)
  {
  }

  lemma {:induction false} BurstCounts(n: nat, at: int, cutoff: int, until: int)
    ensures PromotesIn(Burst(n, at), cutoff, until) == if cutoff < at <= until then n else 0
    ensures at <= cutoff ==> WindowOf(Burst(n, at), cutoff) == EMPTY_WINDOW
  {
    if n > 0 {
      BurstSnoc(n, at);
      BurstCounts(n - 1, at, cutoff, until);
    }
  }

  lemma {:induction false} BurstHasRoom(n: nat, at: int, max: nat)
    requires n <= max
    ensures RoomAtEachPromotion(Burst(n, at), max)
  {
    if n > 0 {
      BurstSnoc(n, at);
      BurstHasRoom(n - 1, at, max);
      BurstCounts(n, at, at - WINDOW, at);
    }
  }

  /** The store may accept a reservation at `at` against the window it loaded at `loadedAt`. */
  ghost predicate Accepts(events: seq<Event>, loadedAt: int, max: nat, at: int) {
    WellFormedEvents(events, loadedAt) && RoomAtEachPromotion(events, max)
    && Reserve(events, WindowOf(events, loadedAt - WINDOW), OnlyPromotions(max), at, Key(max), Promote, 1).Accepted?
  }

  ghost predicate OverLimit(events: seq<Event>, loadedAt: int, max: nat, at: int)
    requires Accepts(events, loadedAt, max, at)
  {
    var after := Reserve(events, WindowOf(events, loadedAt - WINDOW), OnlyPromotions(max), at, Key(max), Promote, 1).events;
    PromotesIn(after, at - WINDOW, at) > max
  }

  /** A full burst that had left the window when it was loaded is back inside it when the clock is set back. */
  lemma StaleWindowOverruns(loadedAt: int, max: nat, at: int)
    requires max > 0 && at < loadedAt
    ensures exists events :: Accepts(events, loadedAt, max, at) && OverLimit(events, loadedAt, max, at)
  {
    hide PromotesIn, WindowOf, RoomAtEachPromotion, Keys, WellFormedEvents;
    var t := if loadedAt - WINDOW < at then loadedAt - WINDOW else at;
    var events := Burst(max, t);
    BurstIsWellFormed(max, t);
    BurstHasRoom(max, t, max);
    BurstCounts(max, t, loadedAt - WINDOW, at);
    BurstCounts(max, t, at - WINDOW, at);
    LaterIsWellFormed(events, t, loadedAt);
    BurstSnoc(max, t);
    assert Breaches(Apply(EMPTY_WINDOW, Event(max + 1, at, Key(max), Promote, 1)), OnlyPromotions(max)) == [];
    assert Accepts(events, loadedAt, max, at);
    PromoteCounts(events, Event(max + 1, at, Key(max), Promote, 1));
  }

  lemma LaterIsWellFormed(events: seq<Event>, a: int, b: int)
    requires WellFormedEvents(events, a) && a <= b
    ensures WellFormedEvents(events, b)
  {
  }

  lemma PromoteCounts(events: seq<Event>, e: Event)
    requires e.action == Promote
    ensures PromotesIn(events + [e], e.at - WINDOW, e.at) == PromotesIn(events, e.at - WINDOW, e.at) + 1
  {
    assert (events + [e])[..|events|] == events;
  }

  /** A reservation against a loaded window keeps every log within the limit exactly when the clock has not been set back
      since the load. */
  lemma LimitHoldsIffClockForward(loadedAt: int, max: nat, at: int)
    requires max > 0
    ensures (forall events :: Accepts(events, loadedAt, max, at) ==> !OverLimit(events, loadedAt, max, at)) <==> loadedAt <= at
  {
    hide PromotesIn, WindowOf, Reserve;
    if loadedAt <= at {
      forall events | Accepts(events, loadedAt, max, at) ensures !OverLimit(events, loadedAt, max, at) {
        AcceptKeepsRoom(events, loadedAt, OnlyPromotions(max), at, Key(max), Promote, 1);
        var after := Reserve(events, WindowOf(events, loadedAt - WINDOW), OnlyPromotions(max), at, Key(max), Promote, 1).events;
        EveryWindowIsBounded(after, max, at);
      }
    } else {
      StaleWindowOverruns(loadedAt, max, at);
    }
  }
}
