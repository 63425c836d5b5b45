/** Every step of the activation protocol keeps its invariant. */
module ActivationSteps {
  import opened Options
  import opened Packages
  import opened Budget
  import opened Skills
  import opened RecordLog
  import opened VersionStore
  import opened Activation
  import opened ActivationSafety

  // ---- Appending to the log ----

  lemma SettledAfterAppend(log: seq<Record>, r: Record, id: Identity)
    ensures Settled(Appended(log, r), id) <==> Settled(log, id) || (r.state != Prepared && IdentityOf(r) == id)
  {
    var longer := Appended(log, r);
    if Settled(log, id) {
      var i :| 0 <= i < |log| && log[i].state != Prepared && IdentityOf(log[i]) == id;
      assert longer[i] == log[i];
    }
    if r.state != Prepared && IdentityOf(r) == id {
      assert longer[|log|].state != Prepared && IdentityOf(longer[|log|]) == id;
    }
  }

  /** A row that is not prepared opens nothing. */
  lemma AppendTerminal(log: seq<Record>, r: Record)
    requires LogInv(log) && r.state != Prepared && ValidRecord(r.(seqNo := NextSequence(log)))
    requires NothingOpen(log) || (log != [] && IdentityOf(log[|log| - 1]) == IdentityOf(r))
    ensures LogInv(Appended(log, r)) && NothingOpen(Appended(log, r))
  {
    hide ValidRecord;
    var longer := Appended(log, r);
    AppendedIsContiguous(log, r);
    forall i | 0 <= i < |longer| ensures !OpenAt(longer, i) {
      if i < |log| {
        assert longer[i] == log[i];
        SettledAfterAppend(log, r, IdentityOf(log[i]));
        assert !OpenAt(log, i) || i == |log| - 1;
      }
    }
  }

  /** A prepared row can only be open itself. */
  lemma AppendPrepared(log: seq<Record>, r: Record)
    requires LogInv(log) && NothingOpen(log) && r.state == Prepared && ValidRecord(r.(seqNo := NextSequence(log)))
    ensures LogInv(Appended(log, r))
  {
    hide ValidRecord;
    var longer := Appended(log, r);
    AppendedIsContiguous(log, r);
    forall i | 0 <= i < |longer| - 1 ensures !OpenAt(longer, i) {
      assert longer[i] == log[i];
      SettledAfterAppend(log, r, IdentityOf(log[i]));
      assert !OpenAt(log, i);
    }
  }

  // ---- Where switches lead ----

  lemma {:induction false} SwitchesStayBelow(switches: seq<Switch>, i: nat)
    requires Chained(switches) && i < |switches|
    ensures switches[i].to <= LastTo(switches, switches[i].skill)
  {
    var n := |switches| - 1;
    if i < n {
      SwitchesStayBelow(switches[..n], i);
    }
  }

  lemma NotSwitchedYet(switches: seq<Switch>, id: Identity)
    requires Chained(switches) && id.to > LastTo(switches, id.skill)
    ensures !SwitchedTo(switches, id)
  {
  }

  // ---- Deciding ----

  lemma FinishKeeps(env: Env, s: State)
    requires Inv(env, s)
    ensures Inv(env, Finish(s))
  {
    hide OpInv, ObjInv, PinInv, SwitchInv, CopyInv, BudgetInv, RegInv, LogInv, OpenRowInv;
  }

  lemma ReconcileKeeps(env: Env, s: State, op: Op)
    requires Inv(env, s) && s.op == Some(op) && op.pc == Reconciling
    ensures Inv(env, DoReconcile(s, op))
  {
    hide ObjInv, PinInv, SwitchInv, CopyInv, BudgetInv, RegInv, Reconciled;
    ReconcileSettlesEverything(s.records, s.pins, s.now);
  }

  /** What a successful check of a promotion establishes. */
  lemma CheckedBase(env: Env, s: State, p: nat, c: Candidate)
    requires PinInv(s.objects, s.pins) && c.personal && CheckedVersion(env, s, p, c).Some?
    ensures var from := CheckedVersion(env, s, p, c).value;
            from >= 1 && c.base.version == from && c.base.skill == c.proposed.skill
            && CurrentVersion(s.pins, c.base.skill) == from
            && (c.base.skill in s.pins ==> ReadVersion(s.objects, c.base.skill, from) == Some(c.base))
            && History(s, p, c.base.skill) != []
            && History(s, p, c.base.skill)[|History(s, p, c.base.skill)| - 1] == c.base
  {
  }

  function PromotionPlan(s: State, c: Candidate, from: int): Plan {
    Plan(Promote, c.base.skill, from, from + 1, c.base, c.proposed, if c.base.version == 1 then 5 else 3,
         s.now, WindowOf(s.events, s.now - WINDOW), s.pins)
  }

  /** A checked promotion's plan describes the catalog, the store and the registry. */
  lemma PromotionPlanned(env: Env, s: State, op: Op, from: int)
    requires Inv(env, s) && s.op == Some(op) && op.pc == Checking && op.request.PromoteRequest?
    requires CheckedVersion(env, s, op.proc, op.request.cand) == Some(from)
    requires op.request.cand.personal && Within(op.request.cand.proposed, op.request.cand.base)
    ensures Inv(env, s.(op := Some(op.(pc := AcquiringGuard, plan := PromotionPlan(s, op.request.cand, from)))))
  {
    hide ObjInv, PinInv, SwitchInv, CopyInv, BudgetInv, RegInv, LogInv, OpenRowInv, NothingOpen;
    hide CheckedVersion, WindowOf, ReadVersion, Within;
    CheckedBase(env, s, op.proc, op.request.cand);
  }

  lemma CheckPromoteKeeps(env: Env, s: State, op: Op)
    requires Inv(env, s) && s.op == Some(op) && op.pc == Checking && op.request.PromoteRequest?
    ensures Inv(env, DoCheckPromote(env, s, op))
  {
    hide Inv, CheckedVersion, Breaches, Evaluate, WindowOf, Within;
    var c, r := op.request.cand, DoCheckPromote(env, s, op);
    match CheckedVersion(env, s, op.proc, c) {
      case None => FinishKeeps(env, s);
      case Some(from) =>
        FinishKeeps(env, s);
        var loaded := WindowOf(s.events, s.now - WINDOW);
        var window := op.request.window.(promotions := loaded.promotions, filesChanged := loaded.filesChanged,
                                         rollbackChainDepth := loaded.rollbackChainDepth);
        AppliedMeansEveryGate(c, window, env.limits);
        if Loads(s.events, s.now) {
          if Evaluate(c, window, env.limits).applied {
            PromotionPlanned(env, s, op, from);
          } else {
            MoveKeeps(env, s, op, r);
          }
        }
    }
  }

  function RollbackPlan(s: State, skill: string, current: SkillVersion, previous: SkillVersion, from: int): Plan {
    Plan(Rollback, skill, from, from + 1, current, previous, 3, s.now, WindowOf(s.events, s.now - WINDOW), s.pins)
  }

  /** A checked rollback's plan describes the catalog, the store and - when it uses one - the registry. */
  lemma RollbackPlanned(env: Env, s: State, op: Op, current: SkillVersion, previous: SkillVersion, from: int)
    requires Inv(env, s) && s.op == Some(op) && op.pc == Checking && op.request.RollbackRequest?
    requires var skill := op.request.skill;
             skill in s.pins && from == s.pins[skill].source.version && from >= 2
             && ReadVersion(s.objects, skill, from) == Some(current) && ReadVersion(s.objects, skill, from - 1) == Some(previous)
             && (op.request.withRegistry ==> CoherentHistory(History(s, op.proc, skill), current, previous))
    ensures Inv(env, s.(op := Some(op.(pc := Reserving, plan := RollbackPlan(s, op.request.skill, current, previous, from)))))
  {
    hide ObjInv, PinInv, SwitchInv, CopyInv, BudgetInv, RegInv, LogInv, OpenRowInv, NothingOpen, WindowOf, ReadVersion;
    ReadsCarryTheirName(s.objects, op.request.skill, from);
    ReadsCarryTheirName(s.objects, op.request.skill, from - 1);
  }

  lemma CheckRollbackKeeps(env: Env, s: State, op: Op)
    requires Inv(env, s) && s.op == Some(op) && op.pc == Checking && op.request.RollbackRequest?
    ensures Inv(env, DoCheckRollback(s, op))
  {
    hide Inv, ReadVersion, ReadPinned, CoherentHistory, History, WindowOf;
    FinishKeeps(env, s);
    var skill := op.request.skill;
    if skill in s.pins {
      var from := s.pins[skill].source.version;
      PinReadsBackFrom(s.objects, skill, from, s.pins[skill]);
      var current, previous := ReadPinned(s.objects, skill, from, s.pins[skill]), ReadVersion(s.objects, skill, from - 1);
      if from >= 2 && current.Some? && previous.Some?
         && (op.request.withRegistry ==> CoherentHistory(History(s, op.proc, skill), current.value, previous.value)) {
        RollbackPlanned(env, s, op, current.value, previous.value, from);
      }
    }
  }

  lemma PinReadsBackFrom(o: Objects, skill: string, n: int, pin: Pin)
    ensures ReadPinned(o, skill, n, pin).Some? ==> ReadPinned(o, skill, n, pin) == ReadVersion(o, skill, n)
  {
  }

  lemma ReadsCarryTheirName(o: Objects, skill: string, n: int)
    ensures ReadVersion(o, skill, n).Some? ==>
              ReadVersion(o, skill, n).value.skill == skill && ReadVersion(o, skill, n).value.version == n
  {
  }

  /** Steps that move only locks, latches, the freeze row and the operation's own position. */
  lemma MoveKeeps(env: Env, s: State, op: Op, t: State)
    requires Inv(env, s) && s.op == Some(op)
    requires t.op.Some? && t.op.value.plan == op.plan && t.op.value.proc == op.proc && t.op.value.request == op.request
    requires Rank(t.op.value.pc) == Rank(op.pc) || (Rank(op.pc) == 2 && Rank(t.op.value.pc) == 1)
    requires t.objects == s.objects && t.records == s.records && t.events == s.events && t.pins == s.pins
             && t.now == s.now && t.switches == s.switches
    requires forall p :: ProcOf(t, p).registry == ProcOf(s, p).registry
    ensures Inv(env, t)
  {
    hide ObjInv, PinInv, SwitchInv, CopyInv, BudgetInv, LogInv, OpenRowInv, NothingOpen;
    hide PlanShape, PlanWritten, PreparedRow, PlanSwitched, PlanBudget, PlanStands;
    if Rank(t.op.value.pc) == Rank(op.pc) {
      SameRank(s, op, t.op.value);
    }
    RegistriesFollow(s, t);
  }

  /** An operation's facts depend on its position only through its rank. */
  lemma SameRank(s: State, op: Op, moved: Op)
    requires moved.plan == op.plan && moved.request == op.request && moved.proc == op.proc
    requires Rank(moved.pc) == Rank(op.pc)
    ensures PlanShape(moved) == PlanShape(op) && PlanWritten(s.objects, moved) == PlanWritten(s.objects, op)
    ensures PlanBudget(s.events, moved) == PlanBudget(s.events, op)
    ensures PlanStands(s.objects, s.pins, moved) == PlanStands(s.objects, s.pins, op)
  {
    hide Rank, ReadVersion;
  }

  lemma RegistriesFollow(s: State, t: State)
    requires RegInv(s.objects, s.procs) && t.objects == s.objects
    requires forall p :: ProcOf(t, p).registry == ProcOf(s, p).registry
    ensures RegInv(t.objects, t.procs)
  {
    hide HistoryInv;
    forall p, sk | p in t.procs && sk in t.procs[p].registry ensures HistoryInv(t.objects, sk, t.procs[p].registry[sk]) {
      assert ProcOf(t, p).registry == ProcOf(s, p).registry;
    }
  }

  lemma AcquireGuardKeeps(env: Env, s: State, op: Op)
    requires Inv(env, s) && s.op == Some(op) && op.pc == AcquiringGuard
    ensures Inv(env, DoAcquireGuard(s, op))
  {
    hide Inv;
    if !s.guard {
      MoveKeeps(env, s, op, DoAcquireGuard(s, op));
    }
  }

  lemma ClearMirrorKeeps(env: Env, s: State, op: Op)
    requires Inv(env, s) && s.op == Some(op) && op.pc == ClearingMirror
    ensures Inv(env, DoClearMirror(s, op))
  {
    hide Inv;
    if !s.reading {
      MoveKeeps(env, s, op, DoClearMirror(s, op));
    }
  }

  lemma CheckLatchKeeps(env: Env, s: State, op: Op)
    requires Inv(env, s) && s.op == Some(op) && op.pc == CheckingLatch
    ensures Inv(env, DoCheckLatch(s, op))
  {
    hide Inv;
    MoveKeeps(env, s, op, DoCheckLatch(s, op));
  }

  // ---- Reserving ----

  /** An accepted reservation extends the log and keeps it well formed. */
  lemma AcceptKeepsBudget(events: seq<Event>, window: Window, limits: Limits, at: int, key: OpKey, action: Action, files: int)
    requires BudgetInv(events)
    requires Reserve(events, window, limits, at, key, action, files).Accepted?
    ensures var after := Reserve(events, window, limits, at, key, action, files).events;
            BudgetInv(after) && Keys(events) <= Keys(after) && key in Keys(after)
  {
    hide Breaches, Apply;
    var e := Event(|events| + 1, at, key, action, files);
    assert WellFormedEvents(events, at);
    WellFormedSnoc(events, e, at);
    assert (events + [e])[|events|] == e;
    forall x | x in events ensures x in events + [e] {}
  }

  lemma SwitchesKeepTheirKeys(switches: seq<Switch>, pins: map<string, Pin>, events: seq<Event>, after: seq<Event>)
    requires SwitchInv(switches, pins, events) && Keys(events) <= Keys(after)
    ensures SwitchInv(switches, pins, after)
  {
    hide Keys, Chained, LastTo;
  }

  /** The facts of a planned operation after its reservation. */
  lemma ReservedFacts(env: Env, s: State, op: Op, events: seq<Event>, pc: PC)
    requires Inv(env, s) && s.op == Some(op) && op.pc == Reserving
    requires BudgetInv(events) && Keys(s.events) <= Keys(events) && PlanKey(op.plan) in Keys(events)
    requires pc == AfterReserve(op) || (pc.RollbackFreezing? && op.request.RollbackRequest?)
    ensures Inv(env, Goto(s.(events := events), op, pc))
  {
    hide ObjInv, PinInv, CopyInv, BudgetInv, LogInv, OpenRowInv, NothingOpen, RegInv, Keys, PlanKey, SwitchInv,
         ReadVersion, Within, WindowOf;
    SwitchesKeepTheirKeys(s.switches, s.pins, s.events, events);
  }

  lemma PlanAtReserving(env: Env, s: State, op: Op)
    requires Inv(env, s) && s.op == Some(op) && op.pc == Reserving
    ensures BudgetInv(s.events)
    ensures op.plan.window == WindowOf(s.events, op.plan.loadedAt - WINDOW)
  {
    hide ObjInv, PinInv, SwitchInv, CopyInv, BudgetInv, RegInv, LogInv, OpenRowInv, NothingOpen, PlanStands,
         PlanWritten, PlanHistory, Within, WindowOf;
  }

  lemma ReserveKeeps(env: Env, s: State, op: Op)
    requires Inv(env, s) && s.op == Some(op) && op.pc == Reserving
    ensures Inv(env, DoReserve(env, s, op))
  {
    hide Inv, BudgetInv, Reserve, EffectiveLimits, PlanKey, WindowOf, Keys, AfterReserve;
    var plan := op.plan;
    PlanAtReserving(env, s, op);
    FinishKeeps(env, s);
    if plan.body.prompt != "" {
      match Reserve(s.events, plan.window, EffectiveLimits(env.limits), s.now, PlanKey(plan), plan.action, plan.files) {
        case Malformed =>
        case TimeWentBackwards =>
        case AlreadyReserved =>
          KnownKey(s.events, plan.window, EffectiveLimits(env.limits), s.now, PlanKey(plan), plan.action, plan.files);
          ReservedFacts(env, s, op, s.events, AfterReserve(op));
        case Breached(c) => MoveKeeps(env, s, op, Goto(s, op, Releasing(c)));
        case Accepted(events, _, breach) =>
          AcceptKeepsBudget(s.events, plan.window, EffectiveLimits(env.limits), s.now, PlanKey(plan), plan.action, plan.files);
          ReserveAccepted(env, s, op, events, breach);
      }
    }
  }

  lemma KnownKey(events: seq<Event>, window: Window, limits: Limits, at: int, key: OpKey, action: Action, files: int)
    requires Reserve(events, window, limits, at, key, action, files) == AlreadyReserved
    ensures key in Keys(events)
  {
    hide Breaches, Apply;
  }

  lemma ReserveAccepted(env: Env, s: State, op: Op, events: seq<Event>, breach: Option<Condition>)
    requires Inv(env, s) && s.op == Some(op) && op.pc == Reserving
    requires BudgetInv(events) && Keys(s.events) <= Keys(events) && PlanKey(op.plan) in Keys(events)
    ensures breach.Some? && op.request.RollbackRequest? ==>
              Inv(env, Goto(s.(events := events), op, RollbackFreezing(breach.value))) && Inv(env, Finish(s.(events := events)))
    ensures Inv(env, Goto(s.(events := events), op, AfterReserve(op)))
  {
    hide Inv, BudgetInv, Keys, PlanKey, AfterReserve;
    ReservedFacts(env, s, op, events, AfterReserve(op));
    if breach.Some? && op.request.RollbackRequest? {
      ReservedFacts(env, s, op, events, RollbackFreezing(breach.value));
      FinishKeeps(env, Goto(s.(events := events), op, RollbackFreezing(breach.value)));
    }
  }

  // ---- Refusing ----

  lemma ReleaseKeeps(env: Env, s: State, op: Op)
    requires Inv(env, s) && s.op == Some(op) && op.pc.Releasing?
    ensures Inv(env, DoRelease(s, op))
  {
    hide Inv;
    MoveKeeps(env, s, op, DoRelease(s, op));
  }

  lemma FreezeKeeps(env: Env, s: State, op: Op)
    requires Inv(env, s) && s.op == Some(op) && op.pc.Freezing?
    ensures Inv(env, DoFreeze(s, op))
  {
    hide Inv;
    if !s.guard {
      MoveKeeps(env, s, op, DoFreeze(s, op));
    }
  }

  lemma MirrorKeeps(env: Env, s: State, op: Op)
    requires Inv(env, s) && s.op == Some(op) && op.pc.Mirroring?
    ensures Inv(env, DoMirror(s, op))
  {
    hide Inv;
    if !s.reading {
      MoveKeeps(env, s, op, DoMirror(s, op));
    }
  }

  lemma RollbackFreezeKeeps(env: Env, s: State, op: Op)
    requires Inv(env, s) && s.op == Some(op) && op.pc.RollbackFreezing?
    ensures Inv(env, DoRollbackFreeze(s, op))
  {
    hide Inv;
    if !s.guard {
      MoveKeeps(env, s, op, DoRollbackFreeze(s, op));
    }
  }

  lemma RollbackMirrorKeeps(env: Env, s: State, op: Op)
    requires Inv(env, s) && s.op == Some(op) && op.pc == RollbackMirroring
    ensures Inv(env, DoRollbackMirror(s, op))
  {
    hide Inv;
    if !s.reading {
      MoveKeeps(env, s, op, DoRollbackMirror(s, op));
    }
  }

  lemma DenyKeeps(env: Env, s: State, op: Op)
    requires Inv(env, s) && s.op == Some(op) && op.pc.Denying? && op.request.PromoteRequest?
    ensures Inv(env, DoDeny(s, op))
  {
    hide ObjInv, PinInv, SwitchInv, CopyInv, BudgetInv, RegInv, ValidRecord;
    var row := DeniedRecord(op.request.cand, op.pc.reason, s.now);
    if ValidRecord(row.(seqNo := NextSequence(s.records))) {
      AppendTerminal(s.records, row);
    }
    hide LogInv, NextSequence, DeniedRecord;
  }

  // ---- Writing version objects ----

  /** More files: nothing stored, pinned, copied or registered is disturbed. */
  lemma ObjectsGrow(env: Env, s: State, o: Objects)
    requires StoreInv(env, s) && Grows(s.objects, o) && ObjInv(o)
    ensures StoreInv(env, s.(objects := o))
  {
    hide ObjInv, PinInv, SwitchInv, CopyInv, BudgetInv, RegInv, LogInv, OpenRowInv, Grows;
    PinsStayReadable(s.objects, o, s.pins);
    CopiesStay(s.objects, o, s.switches);
    RegistriesStay(s.objects, o, s.procs);
  }

  lemma ContentKeepsObjects(o: Objects, k: Source, c: string)
    requires ObjInv(o) && WriteContent(o, k, c).Some?
    ensures ObjInv(WriteContent(o, k, c).value) && Grows(o, WriteContent(o, k, c).value)
  {
    hide Within;
    var o' := WriteContent(o, k, c).value;
    WritesOnlyGrow(o, k, c, MetadataOf(NO_VERSION, 0));
    forall x | x in o'.metadata ensures ObjectAt(o', x) == ObjectAt(o, x) {}
  }

  /** New metadata is admitted when it binds stored content and stays inside version 1. */
  lemma MetadataKeepsObjects(o: Objects, k: Source, v: SkillVersion)
    requires ObjInv(o) && WriteMetadata(o, k, MetadataOf(v, k.version)).Some?
    requires k.skill == v.skill && k.version >= 1 && k in o.content && o.content[k] == v.prompt
    requires k.version == 1 || (Source(k.skill, 1) in o.metadata && Within(v, ObjectAt(o, Source(k.skill, 1))))
    ensures var o' := WriteMetadata(o, k, MetadataOf(v, k.version)).value;
            ObjInv(o') && Grows(o, o')
  {
    var m := MetadataOf(v, k.version);
    var o' := WriteMetadata(o, k, m).value;
    WritesOnlyGrow(o, k, "", m);
    forall x | x in o.metadata ensures ObjectAt(o', x) == ObjectAt(o, x) {}
    assert o'.metadata[k] == m;
    assert ObjectAt(o', k) == v.(version := k.version);
    hide Within;
    WithinSame(v, ObjectAt(o', Source(k.skill, 1)), k.version);
    WithinSelf(ObjectAt(o', k));
  }

  lemma WithinSelf(v: SkillVersion)
    ensures Within(v, v)
  {
  }

  lemma WithinSame(v: SkillVersion, w: SkillVersion, n: int)
    ensures Within(v, w) ==> Within(v.(version := n), w)
  {
  }

  /** A planned operation keeps its facts while the store grows. */
  lemma PlanSurvivesGrowth(s: State, op: Op, o: Objects)
    requires Grows(s.objects, o) && PlanStands(s.objects, s.pins, op)
    ensures PlanStands(o, s.pins, op)
  {
  }

  /** One more object is stored and the operation moves up. */
  lemma WroteObject(env: Env, s: State, op: Op, o: Objects, next: PC)
    requires Inv(env, s) && s.op == Some(op) && 3 <= Rank(op.pc) <= 6
    requires Grows(s.objects, o) && ObjInv(o)
    requires Rank(next) == Rank(op.pc) + 1
    requires PlanWritten(o, op.(pc := next))
    requires Rank(next) == 5 ==> ReadVersion(o, op.plan.skill, op.plan.from) == Some(op.plan.base)
    ensures Inv(env, Goto(s.(objects := o), op, next))
  {
    hide ObjInv, PinInv, SwitchInv, CopyInv, BudgetInv, RegInv, LogInv, OpenRowInv, NothingOpen, PlanWritten, Grows,
         ReadVersion, Keys, PlanKey, Within, WindowOf;
    ObjectsGrow(env, s, o);
    PlanSurvivesGrowth(s, op, o);
  }

  lemma WriteBaseContentKeeps(env: Env, s: State, op: Op)
    requires Inv(env, s) && s.op == Some(op) && op.pc == WritingBaseContent
    ensures Inv(env, DoWriteContent(s, op, op.plan.base, 1, WritingBaseMetadata))
  {
    hide PinInv, SwitchInv, CopyInv, BudgetInv, RegInv, LogInv, OpenRowInv, NothingOpen, PlanBudget, PlanHistory,
         PlanStands, ObjInv, Within;
    var k := Source(op.plan.skill, 1);
    match WriteContent(s.objects, k, op.plan.base.prompt) {
      case None => FinishKeeps(env, s);
      case Some(o) =>
        ContentKeepsObjects(s.objects, k, op.plan.base.prompt);
        WroteObject(env, s, op, o, WritingBaseMetadata);
    }
  }

  lemma WriteBaseMetadataKeeps(env: Env, s: State, op: Op)
    requires Inv(env, s) && s.op == Some(op) && op.pc == WritingBaseMetadata
    ensures Inv(env, DoWriteMetadata(s, op, op.plan.base, 1, WritingContent))
  {
    hide PinInv, SwitchInv, CopyInv, BudgetInv, RegInv, LogInv, OpenRowInv, NothingOpen, PlanBudget, PlanHistory,
         PlanStands, ObjInv, Within;
    var k := Source(op.plan.skill, 1);
    match WriteMetadata(s.objects, k, MetadataOf(op.plan.base, 1)) {
      case None => FinishKeeps(env, s);
      case Some(o) =>
        MetadataKeepsObjects(s.objects, k, op.plan.base);
        StoredReadsBack(o, op.plan.base, 1);
        WroteObject(env, s, op, o, WritingContent);
    }
  }

  lemma WriteContentKeeps(env: Env, s: State, op: Op)
    requires Inv(env, s) && s.op == Some(op) && op.pc == WritingContent
    ensures Inv(env, DoWriteContent(s, op, op.plan.body, op.plan.to, WritingMetadata))
  {
    hide PinInv, SwitchInv, CopyInv, BudgetInv, RegInv, LogInv, OpenRowInv, NothingOpen, PlanBudget, PlanHistory,
         PlanStands, ObjInv, Within;
    var k := Source(op.plan.skill, op.plan.to);
    match WriteContent(s.objects, k, op.plan.body.prompt) {
      case None => FinishKeeps(env, s);
      case Some(o) =>
        ContentKeepsObjects(s.objects, k, op.plan.body.prompt);
        WroteObject(env, s, op, o, WritingMetadata);
    }
  }

  lemma StoredVersionIsWithinFirst(o: Objects, skill: string, n: int)
    requires ObjInv(o) && ReadVersion(o, skill, n).Some?
    ensures Source(skill, 1) in o.metadata
    ensures Within(ReadVersion(o, skill, n).value, ObjectAt(o, Source(skill, 1)))
  {
  }

  /** The body about to be stored carries no authority the skill's version 1 lacks. */
  lemma BodyIsWithinFirst(env: Env, s: State, op: Op)
    requires Inv(env, s) && s.op == Some(op) && op.pc == WritingMetadata
    ensures Source(op.plan.skill, 1) in s.objects.metadata && Source(op.plan.skill, 1) in s.objects.content
    ensures Within(op.plan.body, ObjectAt(s.objects, Source(op.plan.skill, 1)))
  {
    hide PinInv, SwitchInv, CopyInv, BudgetInv, RegInv, LogInv, OpenRowInv, NothingOpen, PlanBudget, PlanHistory,
         Within, ReadVersion;
    var plan := op.plan;
    StoredVersionIsWithinFirst(s.objects, plan.skill, plan.from);
    if plan.action == Promote {
      WithinTransitive(plan.body, plan.base, ObjectAt(s.objects, Source(plan.skill, 1)));
    } else {
      StoredVersionIsWithinFirst(s.objects, plan.skill, plan.from - 1);
    }
  }

  lemma WriteMetadataKeeps(env: Env, s: State, op: Op)
    requires Inv(env, s) && s.op == Some(op) && op.pc == WritingMetadata
    ensures Inv(env, DoWriteMetadata(s, op, op.plan.body, op.plan.to, Preparing))
  {
    hide PinInv, SwitchInv, CopyInv, BudgetInv, RegInv, LogInv, OpenRowInv, NothingOpen, PlanBudget, PlanHistory,
         PlanStands, ObjInv, Within, ReadVersion;
    var k := Source(op.plan.skill, op.plan.to);
    BodyIsWithinFirst(env, s, op);
    match WriteMetadata(s.objects, k, MetadataOf(op.plan.body, op.plan.to)) {
      case None => FinishKeeps(env, s);
      case Some(o) =>
        MetadataKeepsObjects(s.objects, k, op.plan.body);
        WroteObject(env, s, op, o, Preparing);
    }
  }

  // ---- Preparing, switching, publishing, committing ----

  /** The new row is the only open one, and the catalog has not switched to it. */
  lemma PreparedRowIsOpen(env: Env, s: State, op: Op)
    requires Inv(env, s) && s.op == Some(op) && op.pc == Preparing
    ensures var records := DoPrepare(s, op).records;
            LogInv(records) && PreparedRow(records, op.plan) && OpenRowInv(records, s.pins, s.switches)
  {
    hide ObjInv, PinInv, CopyInv, BudgetInv, RegInv, PlanKey, WindowOf, Within, ReadVersion, LastTo, Chained, Keys,
         PlanWritten, PlanHistory;
    var plan := op.plan;
    var row := PlanRecord(plan, Prepared, s.now);
    ContiguousNext(s.records);
    AppendPrepared(s.records, row);
    var records := Appended(s.records, row);
    assert records[|records| - 1] == row.(seqNo := NextSequence(s.records));
    NotSwitchedYet(s.switches, Identity(plan.action, plan.skill, plan.to));
    hide LogInv, SwitchInv, SwitchedTo;
  }

  lemma PrepareKeeps(env: Env, s: State, op: Op)
    requires Inv(env, s) && s.op == Some(op) && op.pc == Preparing
    ensures Inv(env, DoPrepare(s, op))
  {
    hide ObjInv, PinInv, CopyInv, BudgetInv, RegInv, LogInv, SwitchInv, OpenRowInv, PreparedRow, PlanKey, WindowOf, Within,
         ReadVersion, Keys, Appended, PlanRecord;
    PreparedRowIsOpen(env, s, op);
  }

  /** The switched catalog still reads back, and every version below the pin is stored. */
  lemma SwitchedPinsReadBack(env: Env, s: State, op: Op)
    requires Inv(env, s) && s.op == Some(op) && op.pc == Switching
    ensures PinInv(s.objects, s.pins[op.plan.skill := PlanPin(op.plan)])
    ensures ReadVersion(s.objects, op.plan.skill, op.plan.to) == Some(op.plan.body.(version := op.plan.to))
  {
    hide ObjInv, SwitchInv, CopyInv, BudgetInv, RegInv, LogInv, OpenRowInv, PlanBudget, PlanHistory, Within;
    var plan := op.plan;
    var pins := s.pins[plan.skill := PlanPin(plan)];
    StoredReadsBack(s.objects, plan.body, plan.to);
    forall n | 1 <= n <= plan.to ensures Source(plan.skill, n) in s.objects.metadata {
      if n == plan.from {
        assert ReadVersion(s.objects, plan.skill, plan.from).Some?;
      }
    }
    hide ReadVersion;
  }

  /** The history gains one switch that starts where its skill stood. */
  lemma SwitchExtendsChain(switches: seq<Switch>, pins: map<string, Pin>, events: seq<Event>, w: Switch)
    requires SwitchInv(switches, pins, events) && SwitchKey(w) in Keys(events)
    requires CurrentVersion(pins, w.skill) == w.from && w.to == w.from + 1 && w.pin.source.version == w.to
    ensures SwitchInv(switches + [w], pins[w.skill := w.pin], events)
  {
    hide Keys;
    var longer, pins' := switches + [w], pins[w.skill := w.pin];
    assert longer[..|switches|] == switches;
    forall sk ensures CurrentVersion(pins', sk) == LastTo(longer, sk) {}
  }

  lemma RollbackIsCopy(o: Objects, switches: seq<Switch>, w: Switch, body: SkillVersion)
    requires CopyInv(o, switches)
    requires w.action == Rollback ==>
               ReadVersion(o, w.skill, w.to - 2) == Some(body) && ReadVersion(o, w.skill, w.to) == Some(body.(version := w.to))
    ensures CopyInv(o, switches + [w])
  {
  }

  lemma SwitchKeeps(env: Env, s: State, op: Op)
    requires Inv(env, s) && s.op == Some(op) && op.pc == Switching
    ensures Inv(env, DoSwitch(s, op))
  {
    hide ObjInv, PinInv, SwitchInv, CopyInv, BudgetInv, RegInv, LogInv, Within, ReadVersion, Keys, WindowOf, PlanPin,
         MetadataOf;
    var plan := op.plan;
    var w := Switch(plan.action, plan.skill, plan.from, plan.to, PlanPin(plan));
    PlanPinNames(plan);
    SwitchedPinsReadBack(env, s, op);
    SwitchExtendsChain(s.switches, s.pins, s.events, w);
    RollbackIsCopy(s.objects, s.switches, w, plan.body);
    var switches := s.switches + [w];
    assert switches[|s.switches|] == w;
    assert SwitchedTo(switches, Identity(plan.action, plan.skill, plan.to));
  }

  lemma PlanPinNames(plan: Plan)
    ensures PlanPin(plan).source == Source(plan.body.skill, plan.to)
    ensures SwitchKey(Switch(plan.action, plan.skill, plan.from, plan.to, PlanPin(plan))) == PlanKey(plan)
  {
  }

  lemma PublishedHistory(o: Objects, skill: string, h: seq<SkillVersion>, v: SkillVersion)
    requires HistoryInv(o, skill, h) && v.skill == skill && v.version == h[|h| - 1].version + 1
    requires ReadVersion(o, skill, h[|h| - 1].version) == Some(h[|h| - 1])
    requires ReadVersion(o, skill, v.version) == Some(v)
    ensures HistoryInv(o, skill, h + [v])
  {
    hide ReadVersion;
  }

  lemma PublishKeepsRegistries(env: Env, s: State, op: Op)
    requires Inv(env, s) && s.op == Some(op) && op.pc == Publishing
    ensures RegInv(s.objects, DoPublish(s, op).procs)
  {
    hide ObjInv, PinInv, SwitchInv, CopyInv, BudgetInv, LogInv, OpenRowInv, Within, Keys, WindowOf, PlanKey;
    var plan := op.plan;
    StoredReadsBack(s.objects, plan.body, plan.to);
    hide ReadVersion;
    if UsesRegistry(op) {
      var h := History(s, op.proc, plan.skill);
      assert op.proc in s.procs && plan.skill in s.procs[op.proc].registry;
      PublishedHistory(s.objects, plan.skill, h, Renumbered(plan.body, plan.skill, plan.to));
      hide HistoryInv;
    }
  }

  lemma PublishKeeps(env: Env, s: State, op: Op)
    requires Inv(env, s) && s.op == Some(op) && op.pc == Publishing
    ensures Inv(env, DoPublish(s, op))
  {
    hide ObjInv, PinInv, SwitchInv, CopyInv, BudgetInv, LogInv, OpenRowInv, RegInv, Within, Keys, WindowOf, PlanKey, ReadVersion,
         PreparedRow, PlanSwitched, MetadataOf;
    PublishKeepsRegistries(env, s, op);
  }

  lemma CommitKeeps(env: Env, s: State, op: Op)
    requires Inv(env, s) && s.op == Some(op) && op.pc == Committing
    ensures Inv(env, DoCommit(s, op))
  {
    hide ObjInv, PinInv, SwitchInv, CopyInv, BudgetInv, RegInv, Within, ReadVersion, Keys, WindowOf, PlanKey,
         PlanSwitched, MetadataOf;
    var plan := op.plan;
    ContiguousNext(s.records);
    AppendTerminal(s.records, PlanRecord(plan, Committed, s.now));
    hide LogInv;
  }

  // ---- The whole protocol ----

  lemma DecideKeeps(env: Env, s: State)
    requires Inv(env, s) && s.op.Some? && Deciding(s.op.value.pc)
    ensures Inv(env, Decide(env, s, s.op.value))
  {
    hide Inv, DoReconcile, DoCheckPromote, DoCheckRollback, DoAcquireGuard, DoClearMirror, DoCheckLatch, DoReserve;
    var op := s.op.value;
    match op.pc {
      case Reconciling => ReconcileKeeps(env, s, op);
      case Checking =>
        if op.request.PromoteRequest? {
          CheckPromoteKeeps(env, s, op);
        } else {
          CheckRollbackKeeps(env, s, op);
        }
      case AcquiringGuard => AcquireGuardKeeps(env, s, op);
      case ClearingMirror => ClearMirrorKeeps(env, s, op);
      case CheckingLatch => CheckLatchKeeps(env, s, op);
      case Reserving => ReserveKeeps(env, s, op);
    }
  }

  lemma RefuseKeeps(env: Env, s: State)
    requires Inv(env, s) && s.op.Some? && Refusing(s.op.value.pc)
    ensures Inv(env, Refuse(s, s.op.value))
  {
    hide Inv, DoRelease, DoFreeze, DoMirror, DoDeny, DoRollbackFreeze, DoRollbackMirror;
    var op := s.op.value;
    match op.pc {
      case Releasing(_) => ReleaseKeeps(env, s, op);
      case Freezing(_, _) => FreezeKeeps(env, s, op);
      case Mirroring(_) => MirrorKeeps(env, s, op);
      case Denying(_) => if op.request.PromoteRequest? { DenyKeeps(env, s, op); } else { FinishKeeps(env, s); }
      case RollbackFreezing(_) => RollbackFreezeKeeps(env, s, op);
      case RollbackMirroring => RollbackMirrorKeeps(env, s, op);
    }
  }

  lemma ActivateKeeps(env: Env, s: State)
    requires Inv(env, s) && s.op.Some? && !Deciding(s.op.value.pc) && !Refusing(s.op.value.pc)
    ensures Inv(env, Activate(s, s.op.value))
  {
    hide Inv, DoWriteContent, DoWriteMetadata, DoPrepare, DoSwitch, DoPublish, DoCommit;
    var op := s.op.value;
    match op.pc {
      case WritingBaseContent => WriteBaseContentKeeps(env, s, op);
      case WritingBaseMetadata => WriteBaseMetadataKeeps(env, s, op);
      case WritingContent => WriteContentKeeps(env, s, op);
      case WritingMetadata => WriteMetadataKeeps(env, s, op);
      case Preparing => PrepareKeeps(env, s, op);
      case Switching => SwitchKeeps(env, s, op);
      case Publishing => PublishKeeps(env, s, op);
      case Committing => CommitKeeps(env, s, op);
      case Finishing => FinishKeeps(env, s);
    }
  }

  lemma AdvanceKeeps(env: Env, s: State)
    requires Inv(env, s) && s.op.Some?
    ensures Inv(env, Advance(env, s))
  {
    hide Inv, Decide, Refuse, Activate;
    if Deciding(s.op.value.pc) {
      DecideKeeps(env, s);
    } else if Refusing(s.op.value.pc) {
      RefuseKeeps(env, s);
    } else {
      ActivateKeeps(env, s);
    }
  }

  /** Steps outside the operation: only registries and latches of processes change. */
  lemma OutsideKeeps(env: Env, s: State, t: State)
    requires Inv(env, s)
    requires t == s.(procs := t.procs, frozen := t.frozen)
    requires RegInv(t.objects, t.procs)
    requires s.op.Some? && UsesRegistry(s.op.value) && s.op.value.pc != Reconciling ==>
               ProcOf(t, s.op.value.proc).registry == ProcOf(s, s.op.value.proc).registry
    ensures Inv(env, t)
  {
    hide ObjInv, PinInv, SwitchInv, CopyInv, BudgetInv, RegInv, LogInv, OpenRowInv, NothingOpen;
    hide PlanShape, PlanWritten, PlanBudget, PlanStands, PreparedRow, PlanSwitched;
  }

  lemma LatchKeeps(env: Env, s: State, p: nat, l: Latch)
    requires Inv(env, s)
    ensures Inv(env, WithLatch(s, p, l))
  {
    hide OpInv, ObjInv, PinInv, SwitchInv, CopyInv, BudgetInv, RegInv, LogInv, OpenRowInv;
    var t := WithLatch(s, p, l);
    RegistriesFollow(s, t);
    hide Inv;
    OutsideKeeps(env, s, t);
  }

  lemma CrashKeeps(env: Env, s: State, p: nat)
    requires Inv(env, s)
    ensures Inv(env, Next(env, s, Crash(p)))
  {
    hide OpInv, ObjInv, PinInv, SwitchInv, CopyInv, BudgetInv, LogInv, OpenRowInv, HistoryInv;
    var t := s.(procs := s.procs - {p});
    if s.op.Some? && s.op.value.proc == p {
      assert Inv(env, Finish(t));
    } else {
      assert RegInv(t.objects, t.procs);
      hide Inv;
      OutsideKeeps(env, s, t);
    }
  }

  lemma RegisterKeeps(env: Env, s: State, p: nat, v: SkillVersion)
    requires Inv(env, s)
    ensures Inv(env, Next(env, s, Register(p, v)))
  {
    hide OpInv, ObjInv, PinInv, SwitchInv, CopyInv, BudgetInv, LogInv, OpenRowInv;
    if RegistryFree(s, p) {
      var t := Next(env, s, Register(p, v));
      var seeded := v.(version := if v.version == 0 then 1 else v.version);
      assert HistoryInv(s.objects, v.skill, [seeded]);
      hide HistoryInv;
      forall q, sk | q in t.procs && sk in t.procs[q].registry ensures HistoryInv(t.objects, sk, t.procs[q].registry[sk]) {
        if q == p && sk != v.skill {
          assert p in s.procs && sk in s.procs[p].registry;
        }
      }
      OutsideKeeps(env, s, t);
    }
  }

  lemma ClockKeeps(env: Env, s: State, now: int)
    requires Inv(env, s)
    ensures Inv(env, s.(now := now))
  {
    hide ObjInv, PinInv, SwitchInv, CopyInv, BudgetInv, RegInv, LogInv, OpenRowInv, NothingOpen;
    hide PlanShape, PlanWritten, PlanBudget, PlanStands, PreparedRow, PlanSwitched;
  }

  lemma BeginKeeps(env: Env, s: State, p: nat, r: Request)
    requires Inv(env, s) && s.op.None?
    ensures Inv(env, s.(op := Some(Op(p, r, Reconciling, NO_PLAN))))
  {
    hide ObjInv, PinInv, SwitchInv, CopyInv, BudgetInv, RegInv, LogInv, OpenRowInv, NothingOpen;
    hide PlanShape, PlanWritten, PlanBudget, PlanStands, PlanHistory, PreparedRow, PlanSwitched;
  }

  lemma FreezeRowKeeps(env: Env, s: State, f: Option<Condition>)
    requires Inv(env, s)
    ensures Inv(env, s.(frozen := f))
  {
    hide ObjInv, PinInv, SwitchInv, CopyInv, BudgetInv, RegInv, LogInv, OpenRowInv, NothingOpen;
    hide PlanShape, PlanWritten, PlanBudget, PlanStands, PreparedRow, PlanSwitched;
  }

  /** Every step whatsoever keeps the invariant. */
  lemma NextKeeps(env: Env, s: State, e: Step)
    requires Inv(env, s)
    ensures Inv(env, Next(env, s, e))
  {
    hide Inv, Advance, Finish, WithLatch, MirrorDurable, FreezeLocally;
    match e {
      case Begin(p, r) => if s.op.None? { BeginKeeps(env, s, p, r); }
      case Proceed => if s.op.Some? { AdvanceKeeps(env, s); }
      case Fail => FinishKeeps(env, s);
      case Crash(p) => CrashKeeps(env, s, p);
      case DurableFreeze(reason) => FreezeRowKeeps(env, s, Some(reason));
      case DurableUnfreeze => FreezeRowKeeps(env, s, None);
      case LocalFreeze(p) => LatchKeeps(env, s, p, FreezeLocally(ProcOf(s, p).latch));
      case LocalUnfreeze(p) => LatchKeeps(env, s, p, THAWED);
      case MirrorFreeze(p) => LatchKeeps(env, s, p, MirrorDurable(ProcOf(s, p).latch));
      case Register(p, v) => RegisterKeeps(env, s, p, v);
      case SetClock(now) => ClockKeeps(env, s, now);
    }
  }

  lemma InitiallyHolds(env: Env)
    ensures Inv(env, INITIAL)
  {
  }

  /** The invariant holds after every schedule of operations, failures, crashes, freezes and thaws. */
  lemma {:induction false} AlwaysHolds(env: Env, steps: seq<Step>)
    ensures Inv(env, Run(env, steps))
  {
    hide Inv, Next;
    if steps == [] {
      InitiallyHolds(env);
    } else {
      AlwaysHolds(env, steps[..|steps| - 1]);
      NextKeeps(env, Run(env, steps[..|steps| - 1]), steps[|steps| - 1]);
    }
  }
}
