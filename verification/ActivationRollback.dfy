/** Rollbacks that do happen, and the authority they give back. */
module ActivationRollback {
  import opened Options
  import opened Packages
  import opened Budget
  import opened Skills
  import opened RecordLog
  import opened VersionStore
  import opened Activation
  import opened ActivationSafety
  import opened ActivationSteps
  import opened ActivationTheorems
  import opened ActivationReports
  import opened ActivationProgress
  import opened ActivationHidden
  import opened ActivationWitness

  /** What an undisturbed rollback needs: the pinned version and the one before it, in the store and in the registry, a
      budget that loads, and a free slot for the copy. The promotion limit and a freeze do not matter. */
  ghost predicate CanRollBack(s: State, p: nat, skill: string, current: SkillVersion, previous: SkillVersion) {
    s.op.None? && !s.guard && !s.reading
    && skill in s.pins
    && var from := s.pins[skill].source.version;
       from >= 2 && Loads(s.events, s.now) && ReadPinned(s.objects, skill, from, s.pins[skill]) == Some(current)
       && ReadVersion(s.objects, skill, from - 1) == Some(previous)
       && CoherentHistory(History(s, p, skill), current, previous)
       && CanStore(s.objects, RollbackPlan(s, skill, current, previous, from))
  }

  /** Recovering and checking: two actions. */
  lemma RollbackReachesReserving(env: Env, s: State, p: nat, skill: string, gate: bool,
                                 current: SkillVersion, previous: SkillVersion)
      returns (t: State)
    requires CanRollBack(s, p, skill, current, previous)
    ensures After(env, Next(env, s, Begin(p, RollbackRequest(skill, true, gate))), 2) == t
    ensures t == s.(records := Reconciled(s.records, s.pins, s.now),
                    op := Some(Op(p, RollbackRequest(skill, true, gate), Reserving,
                                  RollbackPlan(s, skill, current, previous, s.pins[skill].source.version))))
  {
    hide Reconciled, WindowOf, CanStore, ReadPinned, ReadVersion, DoCheckRollback;
    var request := RollbackRequest(skill, true, gate);
    var begun := Next(env, s, Begin(p, request));
    var op := Op(p, request, Reconciling, NO_PLAN);
    var t1 := DoReconcile(begun, op);
    ProceedOnce(env, begun, 0, begun);
    ProceedOnce(env, begun, 1, t1);
    t := DoCheckRollback(t1, op.(pc := Checking));
    RollbackChecks(s, t1, op.(pc := Checking), current, previous);
  }

  lemma RollbackChecks(s: State, t: State, op: Op, current: SkillVersion, previous: SkillVersion)
    requires op.request.RollbackRequest? && t == s.(records := t.records, op := t.op)
    requires var skill := op.request.skill;
             skill in s.pins
             && var from := s.pins[skill].source.version;
                from >= 2 && Loads(s.events, s.now) && ReadPinned(s.objects, skill, from, s.pins[skill]) == Some(current)
                && ReadVersion(s.objects, skill, from - 1) == Some(previous)
                && CoherentHistory(History(s, op.proc, skill), current, previous)
    ensures var from := s.pins[op.request.skill].source.version;
            DoCheckRollback(t, op)
            == t.(op := Some(op.(pc := Reserving, plan := RollbackPlan(s, op.request.skill, current, previous, from))))
  {
    hide WindowOf, ReadPinned, ReadVersion, CoherentHistory;
    assert History(t, op.proc, op.request.skill) == History(s, op.proc, op.request.skill);
  }

  // ---- The reservation of a rollback ----

  function RollbackEvent(events: seq<Event>, at: int, plan: Plan): Event {
    Event(|events| + 1, at, PlanKey(plan), plan.action, plan.files)
  }

  /** The condition the reservation would breach, if it is a new one. */
  function NewBreach(env: Env, s: State, plan: Plan): Option<Condition> {
    var breaches := Breaches(Apply(plan.window, RollbackEvent(s.events, s.now, plan)), EffectiveLimits(env.limits));
    if PlanKey(plan) in Keys(s.events) || breaches == [] then None else Some(breaches[0])
  }

  /** A rollback's reservation is never refused: it is found, or appended with or without a breach. */
  lemma RollbackReserves(env: Env, s: State, plan: Plan)
    requires plan.action == Rollback && plan.files > 0 && Loads(s.events, s.now)
    ensures var r := Reserve(s.events, plan.window, EffectiveLimits(env.limits), s.now, PlanKey(plan), plan.action, plan.files);
            if PlanKey(plan) in Keys(s.events) then r == AlreadyReserved
            else r.Accepted? && r.events == s.events + [RollbackEvent(s.events, s.now, plan)] && r.breach == NewBreach(env, s, plan)
  {
    hide Breaches, Apply, EffectiveLimits, PlanKey;
  }

  function EventsAfter(s: State, plan: Plan): seq<Event> {
    if PlanKey(plan) in Keys(s.events) then s.events else s.events + [RollbackEvent(s.events, s.now, plan)]
  }

  /** Where a rollback goes from its reservation: on when nothing new is breached, to the freeze when something is and there
      is a freeze store, and otherwise out with an error - keeping the reservation. */
  lemma RollbackDecides(env: Env, s: State, op: Op)
    requires op.request.RollbackRequest? && op.plan.action == Rollback && op.plan.files > 0 && Loads(s.events, s.now)
    requires op.plan.body.prompt != ""
    ensures var t := s.(events := EventsAfter(s, op.plan));
            DoReserve(env, s, op)
            == match NewBreach(env, s, op.plan)
               case None => Goto(t, op, WritingContent)
               case Some(c) => if op.request.withFreezeStore then Goto(t, op, RollbackFreezing(c)) else Finish(t)
  {
    hide Reserve, NewBreach, PlanKey, EffectiveLimits, RollbackEvent, Keys, Goto, Finish;
    RollbackReserves(env, s, op.plan);
    assert s.(events := s.events) == s;
    KnownIsNoBreach(env, s, op.plan);
  }

  lemma KnownIsNoBreach(env: Env, s: State, plan: Plan)
    ensures PlanKey(plan) in Keys(s.events) ==> NewBreach(env, s, plan) == None
  {
    hide Breaches, Apply, EffectiveLimits, PlanKey;
  }

  /** Exactly when a rollback passes its reservation with no freeze on its way: its reservation breaches nothing, or an
      earlier attempt has already made it. */
  lemma RollbackGoesUnfrozenIff(env: Env, s: State, op: Op)
    requires op.request.RollbackRequest? && op.plan.action == Rollback && op.plan.files > 0 && Loads(s.events, s.now)
    requires op.plan.body.prompt != ""
    ensures var t := DoReserve(env, s, op);
            var e := RollbackEvent(s.events, s.now, op.plan);
            t.op.Some? && t.op.value.pc == WritingContent <==>
              PlanKey(op.plan) in Keys(s.events) || Breaches(Apply(op.plan.window, e), EffectiveLimits(env.limits)) == []
  {
    hide DoReserve, Breaches, Apply, EffectiveLimits, PlanKey, Keys;
    RollbackDecides(env, s, op);
  }

  // ---- From the reservation to the end ----

  function Frozen(s: State, breach: Option<Condition>): Option<Condition> {
    if breach.Some? then breach else s.frozen
  }

  /** An over-budget rollback freezes, mirrors and goes on: two actions. */
  lemma FreezesAndMirrors(env: Env, s: State, op: Op)
    requires s.op == Some(op) && op.pc.RollbackFreezing? && !s.guard && !s.reading
    ensures After(env, s, 2)
            == Goto(WithLatch(s.(frozen := Some(op.pc.breach)), op.proc, MirrorDurable(ProcOf(s, op.proc).latch)), op, WritingContent)
  {
    hide MirrorDurable;
    Nothing(env, s);
    ProceedOnce(env, s, 0, s);
    var t1 := DoRollbackFreeze(s, op);
    ProceedOnce(env, s, 1, t1);
  }

  /** Reserving and, when it breaches something new, freezing: one action or three. */
  lemma RollbackReachesBody(env: Env, s: State, op: Op) returns (t: State)
    requires s.op == Some(op) && op.pc == Reserving && op.request.RollbackRequest? && !s.guard && !s.reading
    requires op.plan.action == Rollback && op.plan.files > 0 && Loads(s.events, s.now) && op.plan.body.prompt != ""
    requires NewBreach(env, s, op.plan).Some? ==> op.request.withFreezeStore
    ensures var breach := NewBreach(env, s, op.plan);
            After(env, s, if breach.Some? then 3 else 1) == t
            && t == s.(events := EventsAfter(s, op.plan), frozen := Frozen(s, breach), procs := t.procs,
                       op := Some(op.(pc := WritingContent)))
            && History(t, op.proc, op.plan.skill) == History(s, op.proc, op.plan.skill)
  {
    hide NewBreach, EventsAfter, DoReserve, After, Next, Advance, DoPrepare, DoSwitch, DoPublish, DoCommit, MirrorDurable, History;
    var breach := NewBreach(env, s, op.plan);
    Nothing(env, s);
    ProceedOnce(env, s, 0, s);
    LateActions(env, s, op);
    RollbackDecides(env, s, op);
    t := DoReserve(env, s, op);
    SameHistory(s, t, op.proc, op.plan.skill);
    if breach.Some? {
      var t1 := t;
      FreezesAndMirrors(env, t1, t1.op.value);
      AfterAdds(env, s, 1, 2);
      t := After(env, s, 3);
      var mirrored := MirrorDurable(ProcOf(t1, op.proc).latch);
      LatchKeepsHistory(t1.(frozen := breach), op.proc, mirrored, op.proc, op.plan.skill);
      SameHistory(t1, t1.(frozen := breach), op.proc, op.plan.skill);
      SameHistory(WithLatch(t1.(frozen := breach), op.proc, mirrored), t, op.proc, op.plan.skill);
    }
  }

  lemma SameHistory(s: State, t: State, p: nat, skill: string)
    requires t.procs == s.procs
    ensures History(t, p, skill) == History(s, p, skill)
  {
  }

  function RollbackActions(breach: Option<Condition>): nat {
    if breach.Some? then 12 else 10
  }

  /** A rollback that nothing interrupts is applied, over budget or not: the version before the pinned one is active again
      under the next number, and catalog, registry and log say so. When its reservation breaches a limit it needs a freeze
      store and leaves promotions frozen for that breach; otherwise it leaves the freeze row as it was. */
  lemma RollbackCompletes(env: Env, s: State, p: nat, skill: string, gate: bool, current: SkillVersion, previous: SkillVersion)
      returns (t: State)
    requires CanRollBack(s, p, skill, current, previous)
    requires NewBreach(env, s, RollbackPlan(s, skill, current, previous, s.pins[skill].source.version)).Some? ==> gate
    ensures var breach := NewBreach(env, s, RollbackPlan(s, skill, current, previous, s.pins[skill].source.version));
            After(env, Next(env, s, Begin(p, RollbackRequest(skill, true, gate))), RollbackActions(breach)) == t
            && t.frozen == Frozen(s, breach)
    ensures t.events == EventsAfter(s, RollbackPlan(s, skill, current, previous, s.pins[skill].source.version))
    ensures t.op.None? && !t.guard && !t.reading && t.now == s.now
    ensures var from := s.pins[skill].source.version;
            t.pins == s.pins[skill := PinOf(previous, from + 1)]
            && t.switches == s.switches + [Switch(Rollback, skill, from, from + 1, PinOf(previous, from + 1))]
            && History(t, p, skill) == History(s, p, skill) + [Renumbered(previous, skill, from + 1)]
            && Reported(t.records, Identity(Rollback, skill, from + 1))
  {
    hide Reconciled, WindowOf, NewBreach, CanStore, EventsAfter, ReadPinned, ReadVersion, Next, PinOf, After, Appended, PlanRecord,
         Reported, CoherentHistory, History, NoCollision;
    var begun := Next(env, s, Begin(p, RollbackRequest(skill, true, gate)));
    var r := RollbackReachesReserving(env, s, p, skill, gate, current, previous);
    var plan := r.op.value.plan;
    CopyFits(s, skill, current, previous);
    SameBreach(env, s, r, plan);
    SameHistory(s, r, p, skill);
    t := RollbackFinishes(env, r, r.op.value);
    AfterAdds(env, begun, 2, RollbackActions(NewBreach(env, s, plan)) - 2);
  }

  /** From the reservation on: eight actions, ten with a freeze. */
  lemma RollbackFinishes(env: Env, s: State, op: Op) returns (t: State)
    requires s.op == Some(op) && op.pc == Reserving && op.request.RollbackRequest? && op.request.withRegistry
    requires !s.guard && !s.reading && op.plan.catalog == s.pins
    requires op.plan.action == Rollback && op.plan.files > 0 && Loads(s.events, s.now) && op.plan.body.prompt != ""
    requires NoCollision(s.objects, Source(op.plan.skill, op.plan.to), op.plan.body, op.plan.to)
    requires NewBreach(env, s, op.plan).Some? ==> op.request.withFreezeStore
    ensures var breach := NewBreach(env, s, op.plan);
            After(env, s, RollbackActions(breach) - 2) == t && t.frozen == Frozen(s, breach)
    ensures t.op.None? && !t.guard && !t.reading && t.now == s.now && t.events == EventsAfter(s, op.plan)
    ensures var plan := op.plan;
            t.pins == s.pins[plan.skill := PlanPin(plan)]
            && t.switches == s.switches + [Switch(plan.action, plan.skill, plan.from, plan.to, PlanPin(plan))]
            && History(t, op.proc, plan.skill) == History(s, op.proc, plan.skill) + [Renumbered(plan.body, plan.skill, plan.to)]
            && Reported(t.records, Identity(plan.action, plan.skill, plan.to))
  {
    hide NewBreach, EventsAfter, Next, PlanPin, After, Appended, PlanRecord, Reported, History, WithVersion, NoCollision, Frozen;
    var b := RollbackReachesBody(env, s, op);
    var t0 := ReachesPrepared(env, b, b.op.value);
    SameHistory(b, t0, op.proc, op.plan.skill);
    t := SwitchCompletes(env, t0, t0.op.value);
    var k := if NewBreach(env, s, op.plan).Some? then 3 else 1;
    AfterAdds(env, s, k, 3);
    AfterAdds(env, s, k + 3, 4);
  }

  lemma CopyFits(s: State, skill: string, current: SkillVersion, previous: SkillVersion)
    requires skill in s.pins && CanStore(s.objects, RollbackPlan(s, skill, current, previous, s.pins[skill].source.version))
    ensures previous.prompt != ""
    ensures NoCollision(s.objects, Source(skill, s.pins[skill].source.version + 1), previous, s.pins[skill].source.version + 1)
  {
    hide NoCollision;
  }

  lemma SameBreach(env: Env, s: State, t: State, plan: Plan)
    requires t.events == s.events && t.now == s.now
    ensures NewBreach(env, t, plan) == NewBreach(env, s, plan) && EventsAfter(t, plan) == EventsAfter(s, plan)
  {
    hide Breaches, Apply, EffectiveLimits, PlanKey, Keys;
  }

  // ---- A rollback regains authority ----

  /** The process after the promotion of SECOND over FIRST: version 2 is active and has dropped the permission. */
  lemma Promoted() returns (steps: seq<Step>, s: State)
    ensures s == Run(ENV, steps) && s.op.None? && !s.guard && !s.reading && s.now == 0
    ensures s.pins == map["k" := PinOf(SECOND, 2)] && History(s, 0, "k") == [FIRST, SECOND]
    ensures s.objects == StoredFor(Objects(map[], map[]), PromotionPlan(INITIAL, CANDIDATE, 1))
    ensures s.events == [Event(1, 0, PlanKey(PromotionPlan(INITIAL, CANDIDATE, 1)), Promote, 5)]
  {
    hide PlanKey, After, Reconciled, NoCollision, Next, Run, Reported, PinOf, StoredFor, Reserve;
    var registered, s1 := Registered();
    CandidateIsAdmissible(s1);
    var request := PromoteRequest(CANDIDATE, EMPTY_WINDOW);
    RunSnoc(ENV, registered, Begin(0, request));
    AfterIsRun(ENV, registered + [Begin(0, request)], 15);
    s := PromotionCompletes(ENV, s1, 0, CANDIDATE, EMPTY_WINDOW);
    steps := registered + [Begin(0, request)] + Proceeds(15);
    assert PromotionPlan(s1, CANDIDATE, 1) == PromotionPlan(INITIAL, CANDIDATE, 1);
    NoKeys(PlanKey(PromotionPlan(s1, CANDIDATE, 1)));
    assert History(s1, 0, "k") == [FIRST];
  }

  lemma NoKeys(key: OpKey)
    ensures key !in Keys([])
  {
  }

  lemma StoredVersions()
    ensures var o := StoredFor(Objects(map[], map[]), PromotionPlan(INITIAL, CANDIDATE, 1));
            ReadVersion(o, "k", 1) == Some(FIRST) && ReadPinned(o, "k", 2, PinOf(SECOND, 2)) == Some(SECOND)
            && NoCollision(o, Source("k", 3), FIRST, 3)
  {
    var o := StoredFor(Objects(map[], map[]), PromotionPlan(INITIAL, CANDIDATE, 1));
    StoredReadsBack(o, FIRST, 1);
    StoredReadsBack(o, SECOND, 2);
  }

  /** The one promotion so far leaves room for a rollback within the budget. */
  lemma RollbackHasRoom(s: State)
    requires s.now == 0 && s.pins == map["k" := PinOf(SECOND, 2)]
    requires s.events == [Event(1, 0, PlanKey(PromotionPlan(INITIAL, CANDIDATE, 1)), Promote, 5)]
    ensures NewBreach(ENV, s, RollbackPlan(s, "k", SECOND, FIRST, 2)) == None
  {
    var plan := RollbackPlan(s, "k", SECOND, FIRST, 2);
    var none: seq<Event> := [];
    assert s.events[..0] == none && WindowOf(none, -WINDOW) == EMPTY_WINDOW;
    assert plan.window == Apply(EMPTY_WINDOW, s.events[0]);
    assert PlanKey(plan).action == Rollback;
    forall e | e in s.events ensures e.key != PlanKey(plan) {}
  }

  /** A run in which a promotion drops a permission and the rollback after it regains it: version 2 lies strictly inside
      version 1, and version 3, active at the end, carries what version 2 had given up. */
  lemma RollbackRegainsAuthority() returns (steps: seq<Step>)
    ensures var s := Run(ENV, steps);
            s.op.None? && CurrentVersion(s.pins, "k") == 3
            && |s.switches| > 0 && s.switches[|s.switches| - 1].action == Rollback
            && ReadVersion(s.objects, "k", 2).Some? && ReadVersion(s.objects, "k", 3).Some?
            && var dropped, regained := ReadVersion(s.objects, "k", 2).value, ReadVersion(s.objects, "k", 3).value;
               "read" !in dropped.permissions && "read" in regained.permissions && !Within(regained, dropped)
  {
    hide PlanKey, After, NoCollision, Next, Run, Reported, PinOf, StoredFor, NewBreach, ReadVersion, ReadPinned;
    var promoted, s := Promoted();
    StoredVersions();
    RollbackHasRoom(s);
    PinNames();
    var request := RollbackRequest("k", true, true);
    RunSnoc(ENV, promoted, Begin(0, request));
    AfterIsRun(ENV, promoted + [Begin(0, request)], 10);
    var t := RollbackCompletes(ENV, s, 0, "k", true, SECOND, FIRST);
    steps := promoted + [Begin(0, request)] + Proceeds(10);
    assert History(t, 0, "k") == [FIRST, SECOND, Renumbered(FIRST, "k", 3)];
    RegistryAgreesWithStore(ENV, steps, 0, "k", 1);
    RegistryAgreesWithStore(ENV, steps, 0, "k", 2);
    assert "read" in FIRST.permissions;
  }

  lemma PinNames()
    ensures PinOf(SECOND, 2).source == Source("k", 2) && PinOf(FIRST, 3).source == Source("k", 3)
  {
  }
}
