/** Runs that do happen: an admissible promotion completes, and an aborted first attempt hides a later switch. */
module ActivationWitness {
  import opened Options
  import opened Packages
  import opened Budget
  import opened Skills
  import opened RecordLog
  import opened VersionStore
  import opened Activation
  import opened ActivationSafety
  import opened ActivationSteps
  import opened ActivationTheorems
  import opened ActivationReports
  import opened ActivationProgress
  import opened ActivationHidden

  lemma LateActions(env: Env, s: State, op: Op)
    requires s.op == Some(op)
    ensures op.pc == Reserving ==> Advance(env, s) == DoReserve(env, s, op)
    ensures op.pc == Preparing ==> Advance(env, s) == DoPrepare(s, op)
    ensures op.pc == Switching ==> Advance(env, s) == DoSwitch(s, op)
    ensures op.pc == Publishing ==> Advance(env, s) == DoPublish(s, op)
    ensures op.pc == Committing ==> Advance(env, s) == DoCommit(s, op)
    ensures op.pc == Finishing ==> Advance(env, s) == Finish(s)
  {
    hide DoReserve, DoPrepare, DoSwitch, DoPublish, DoCommit, Finish;
  }

  /** The decision window of a promotion: the three durable dimensions replace the process's own. */
  function DecisionWindow(own: Window, loaded: Window): Window {
    own.(promotions := loaded.promotions, filesChanged := loaded.filesChanged, rollbackChainDepth := loaded.rollbackChainDepth)
  }

  /** What the reservation of a planned operation finds: its own earlier one, or room without a breach. */
  ghost predicate CanReserve(env: Env, s: State, plan: Plan) {
    var r := Reserve(s.events, plan.window, EffectiveLimits(env.limits), s.now, PlanKey(plan), plan.action, plan.files);
    r.AlreadyReserved? || (r.Accepted? && r.breach == None)
  }

  ghost predicate ReservedFor(s: State, plan: Plan, events: seq<Event>) {
    (events == s.events && PlanKey(plan) in Keys(s.events))
    || events == s.events + [Event(|s.events| + 1, s.now, PlanKey(plan), plan.action, plan.files)]
  }

  /** Only a first promotion stores its baseline too. */
  predicate StoresBase(plan: Plan) {
    plan.action == Promote && plan.base.version == 1
  }

  ghost predicate NoCollision(o: Objects, k: Source, v: SkillVersion, n: int) {
    (k in o.content ==> o.content[k] == v.prompt) && (k in o.metadata ==> o.metadata[k] == MetadataOf(v, n))
  }

  ghost predicate CanStore(o: Objects, plan: Plan) {
    plan.body.prompt != "" && plan.to == plan.from + 1 && plan.from >= 1
    && (StoresBase(plan) ==> NoCollision(o, Source(plan.skill, 1), plan.base, 1))
    && NoCollision(o, Source(plan.skill, plan.to), plan.body, plan.to)
  }

  function WithVersion(o: Objects, k: Source, v: SkillVersion, n: int): Objects {
    Objects(o.content[k := v.prompt], o.metadata[k := MetadataOf(v, n)])
  }

  function StoredFor(o: Objects, plan: Plan): Objects {
    var based := if StoresBase(plan) then WithVersion(o, Source(plan.skill, 1), plan.base, 1) else o;
    WithVersion(based, Source(plan.skill, plan.to), plan.body, plan.to)
  }

  /** Everything an undisturbed promotion needs, from whatever version. */
  ghost predicate Admissible(env: Env, s: State, p: nat, c: Candidate, own: Window) {
    var plan := PromotionPlan(s, c, c.base.version);
    s.op.None? && !s.guard && !s.reading && s.frozen == None
    && !ClearMirror(ProcOf(s, p).latch).frozen
    && CheckedVersion(env, s, p, c) == Some(c.base.version) && Loads(s.events, s.now)
    && Evaluate(c, DecisionWindow(own, WindowOf(s.events, s.now - WINDOW)), env.limits).applied
    && CanReserve(env, s, plan) && CanStore(s.objects, plan)
  }

  /** The operation stands before its switch and has changed nothing but its own versions, reservation and row. */
  ghost predicate ReadyToSwitch(s: State, p: nat, c: Candidate, own: Window, t: State) {
    var plan := PromotionPlan(s, c, c.base.version);
    t.op == Some(Op(p, PromoteRequest(c, own), Switching, plan))
    && t.pins == s.pins && t.switches == s.switches && t.now == s.now && t.frozen == s.frozen
    && t.records == Appended(Reconciled(s.records, s.pins, s.now), PlanRecord(plan, Prepared, s.now))
    && t.procs == s.procs[p := ProcOf(s, p).(latch := ClearMirror(ProcOf(s, p).latch))]
    && t.guard && t.reading
    && ReservedFor(s, plan, t.events) && t.objects == StoredFor(s.objects, plan)
  }

  // ---- The steps, one at a time ----

  lemma CheckPasses(env: Env, s: State, op: Op)
    requires op.request.PromoteRequest?
    requires var c := op.request.cand;
             CheckedVersion(env, s, op.proc, c) == Some(c.base.version) && Loads(s.events, s.now)
             && Evaluate(c, DecisionWindow(op.request.window, WindowOf(s.events, s.now - WINDOW)), env.limits).applied
    ensures DoCheckPromote(env, s, op)
            == s.(op := Some(op.(pc := AcquiringGuard, plan := PromotionPlan(s, op.request.cand, op.request.cand.base.version))))
  {
    hide CheckedVersion, Evaluate, Breaches, WindowOf;
  }

  /** From taking the catalog lock to standing before the reservation: five actions. */
  lemma ReachesReserving(env: Env, s: State, p: nat, c: Candidate, own: Window) returns (t: State)
    requires Admissible(env, s, p, c, own)
    ensures After(env, Next(env, s, Begin(p, PromoteRequest(c, own))), 5) == t
    ensures t == s.(records := Reconciled(s.records, s.pins, s.now), guard := true, reading := true,
                    procs := s.procs[p := ProcOf(s, p).(latch := ClearMirror(ProcOf(s, p).latch))],
                    op := Some(Op(p, PromoteRequest(c, own), Reserving, PromotionPlan(s, c, c.base.version))))
  {
    hide Reconciled, CheckedVersion, Evaluate, Breaches, WindowOf, DoCheckPromote, ClearMirror, CanReserve, CanStore;
    var begun := Next(env, s, Begin(p, PromoteRequest(c, own)));
    var op := Op(p, PromoteRequest(c, own), Reconciling, NO_PLAN);
    var t1 := DoReconcile(begun, op);
    ProceedOnce(env, begun, 0, begun);
    CheckAgain(env, s, t1, p, c);
    var op1 := op.(pc := Checking);
    CheckPasses(env, t1, op1);
    ProceedOnce(env, begun, 1, t1);
    var t2 := DoCheckPromote(env, t1, op1);
    ProceedOnce(env, begun, 2, t2);
    var t3 := DoAcquireGuard(t2, t2.op.value);
    ProceedOnce(env, begun, 3, t3);
    var t4 := DoClearMirror(t3, t3.op.value);
    ProceedOnce(env, begun, 4, t4);
    t := DoCheckLatch(t4, t4.op.value);
  }

  /** The checks read the objects, the pins and the registry, not the log. */
  lemma CheckAgain(env: Env, s: State, t: State, p: nat, c: Candidate)
    requires t.objects == s.objects && t.pins == s.pins && t.procs == s.procs
    ensures CheckedVersion(env, t, p, c) == CheckedVersion(env, s, p, c)
  {
    hide ActiveVersion;
  }

  lemma ReservePasses(env: Env, s: State, op: Op)
    requires op.plan.body.prompt != "" && CanReserve(env, s, op.plan)
    ensures var t := DoReserve(env, s, op);
            t == Goto(s.(events := t.events), op, AfterReserve(op)) && ReservedFor(s, op.plan, t.events)
  {
    hide Breaches, EffectiveLimits, Apply, PlanKey, AfterReserve;
  }

  lemma ContentPasses(s: State, op: Op, v: SkillVersion, n: int, next: PC)
    requires NoCollision(s.objects, Source(op.plan.skill, n), v, n)
    ensures var t := DoWriteContent(s, op, v, n, next);
            t == Goto(s.(objects := t.objects), op, next)
            && t.objects == s.objects.(content := s.objects.content[Source(op.plan.skill, n) := v.prompt])
  {
  }

  lemma MetadataPasses(s: State, op: Op, v: SkillVersion, n: int, next: PC)
    requires NoCollision(s.objects, Source(op.plan.skill, n), v, n)
    ensures var t := DoWriteMetadata(s, op, v, n, next);
            t == Goto(s.(objects := t.objects), op, next)
            && t.objects == s.objects.(metadata := s.objects.metadata[Source(op.plan.skill, n) := MetadataOf(v, n)])
  {
    var k := Source(op.plan.skill, n);
    if k in s.objects.metadata {
      assert s.objects.metadata[k := MetadataOf(v, n)] == s.objects.metadata;
    }
  }

  /** Storing one version takes two actions. */
  lemma StoresVersion(env: Env, s: State, op: Op, v: SkillVersion, n: int, mid: PC, next: PC)
    requires s.op == Some(op) && NoCollision(s.objects, Source(op.plan.skill, n), v, n)
    requires (op.pc == WritingBaseContent && mid == WritingBaseMetadata && next == WritingContent && v == op.plan.base && n == 1)
             || (op.pc == WritingContent && mid == WritingMetadata && next == Preparing && v == op.plan.body && n == op.plan.to)
    ensures After(env, s, 2) == Goto(s.(objects := WithVersion(s.objects, Source(op.plan.skill, n), v, n)), op, next)
  {
    hide DoWriteContent, DoWriteMetadata, MetadataOf;
    ContentPasses(s, op, v, n, mid);
    ProceedOnce(env, s, 0, s);
    var t1 := DoWriteContent(s, op, v, n, mid);
    var op1 := op.(pc := mid);
    MetadataPasses(t1, op1, v, n, next);
    ProceedOnce(env, s, 1, t1);
  }

  /** Storing the baseline leaves the new version's slot as it was. */
  lemma SlotsAreSeparate(o: Objects, plan: Plan)
    requires CanStore(o, plan)
    ensures NoCollision(WithVersion(o, Source(plan.skill, 1), plan.base, 1), Source(plan.skill, plan.to), plan.body, plan.to)
  {
  }

  /** A first promotion leaves both its versions in their slots. */
  lemma StoredSlots(o: Objects, plan: Plan)
    requires CanStore(o, plan) && StoresBase(plan)
    ensures NoCollision(StoredFor(o, plan), Source(plan.skill, 1), plan.base, 1)
    ensures NoCollision(StoredFor(o, plan), Source(plan.skill, plan.to), plan.body, plan.to)
  {
  }

  /** Reserving and, for a first promotion, storing the baseline: one action or three. */
  lemma ReachesBody(env: Env, s: State, op: Op) returns (t: State)
    requires s.op == Some(op) && op.pc == Reserving && CanReserve(env, s, op.plan) && CanStore(s.objects, op.plan)
    ensures After(env, s, if StoresBase(op.plan) then 3 else 1) == t
    ensures t == s.(events := t.events, op := Some(op.(pc := WritingContent)),
                    objects := if StoresBase(op.plan) then WithVersion(s.objects, Source(op.plan.skill, 1), op.plan.base, 1) else s.objects)
    ensures ReservedFor(s, op.plan, t.events)
  {
    hide CanReserve, ReservedFor, DoReserve, NoCollision, WithVersion, After, Next, Advance, DoPrepare, DoSwitch,
         DoPublish, DoCommit;
    ReservePasses(env, s, op);
    Nothing(env, s);
    ProceedOnce(env, s, 0, s);
    LateActions(env, s, op);
    t := DoReserve(env, s, op);
    if StoresBase(op.plan) {
      StoresVersion(env, t, t.op.value, op.plan.base, 1, WritingBaseMetadata, WritingContent);
      AfterAdds(env, s, 1, 2);
      t := After(env, s, 3);
    }
  }

  /** Storing the new version and preparing: three actions. */
  lemma ReachesPrepared(env: Env, s: State, op: Op) returns (t: State)
    requires s.op == Some(op) && op.pc == WritingContent
    requires NoCollision(s.objects, Source(op.plan.skill, op.plan.to), op.plan.body, op.plan.to)
    ensures After(env, s, 3) == t
    ensures t == s.(objects := WithVersion(s.objects, Source(op.plan.skill, op.plan.to), op.plan.body, op.plan.to),
                    op := Some(op.(pc := Switching)), records := Appended(s.records, PlanRecord(op.plan, Prepared, s.now)))
  {
    hide PlanRecord, Appended, NoCollision, WithVersion, After, Next, Advance;
    StoresVersion(env, s, op, op.plan.body, op.plan.to, WritingMetadata, Preparing);
    var t2 := After(env, s, 2);
    ProceedOnce(env, s, 2, t2);
    LateActions(env, t2, t2.op.value);
    t := DoPrepare(t2, t2.op.value);
  }

  function ToSwitch(plan: Plan): nat {
    if StoresBase(plan) then 6 else 4
  }

  /** From the reservation to the switch: six more actions for a first promotion, four for anything else. */
  lemma ReachesSwitching(env: Env, s: State, op: Op) returns (t: State)
    requires s.op == Some(op) && op.pc == Reserving && CanReserve(env, s, op.plan) && CanStore(s.objects, op.plan)
    ensures After(env, s, ToSwitch(op.plan)) == t
    ensures t == s.(events := t.events, objects := StoredFor(s.objects, op.plan), op := Some(op.(pc := Switching)),
                    records := Appended(s.records, PlanRecord(op.plan, Prepared, s.now)))
    ensures ReservedFor(s, op.plan, t.events)
  {
    hide CanReserve, ReservedFor, PlanRecord, Appended, NoCollision, WithVersion, After;
    SlotsAreSeparate(s.objects, op.plan);
    var t1 := ReachesBody(env, s, op);
    t := ReachesPrepared(env, t1, t1.op.value);
    AfterAdds(env, s, if StoresBase(op.plan) then 3 else 1, 3);
  }

  lemma Nothing(env: Env, s: State)
    ensures After(env, s, 0) == s
  {
  }

  lemma {:induction false} AfterAdds(env: Env, s: State, m: nat, n: nat)
    ensures After(env, s, m + n) == After(env, After(env, s, m), n)
  {
    hide Next;
    if n > 0 {
      AfterAdds(env, s, m, n - 1);
    }
  }

  /** An admissible promotion that nothing interrupts reaches its switch. */
  lemma PromotionReachesSwitch(env: Env, s: State, p: nat, c: Candidate, own: Window) returns (t: State)
    requires Admissible(env, s, p, c, own)
    ensures After(env, Next(env, s, Begin(p, PromoteRequest(c, own))), 5 + ToSwitch(PromotionPlan(s, c, c.base.version))) == t
    ensures ReadyToSwitch(s, p, c, own, t)
  {
    hide After, Next, Reconciled, CheckedVersion, Evaluate, WindowOf, CanStore, StoredFor, PlanRecord, Appended, ClearMirror, PlanKey,
         Reserve, Keys, EffectiveLimits, ToSwitch;
    var begun := Next(env, s, Begin(p, PromoteRequest(c, own)));
    var r := ReachesReserving(env, s, p, c, own);
    t := ReachesSwitching(env, r, r.op.value);
    AfterAdds(env, begun, 5, ToSwitch(PromotionPlan(s, c, c.base.version)));
  }

  /** An admissible promotion that nothing interrupts is applied, from whatever version: objects, catalog, registry and
      log all say so. */
  lemma PromotionCompletes(env: Env, s: State, p: nat, c: Candidate, own: Window) returns (t: State)
    requires Admissible(env, s, p, c, own)
    ensures var plan := PromotionPlan(s, c, c.base.version);
            After(env, Next(env, s, Begin(p, PromoteRequest(c, own))), 9 + ToSwitch(plan)) == t
            && t.objects == StoredFor(s.objects, plan) && ReservedFor(s, plan, t.events)
    ensures t.op.None? && !t.guard && !t.reading && t.now == s.now && t.frozen == s.frozen
    ensures ProcOf(t, p).latch == ClearMirror(ProcOf(s, p).latch)
    ensures var to := c.base.version + 1;
            t.pins == s.pins[c.base.skill := PinOf(c.proposed, to)]
            && t.switches == s.switches + [Switch(Promote, c.base.skill, c.base.version, to, PinOf(c.proposed, to))]
            && History(t, p, c.base.skill) == History(s, p, c.base.skill) + [Renumbered(c.proposed, c.base.skill, to)]
            && Reported(t.records, Identity(Promote, c.base.skill, to))
  {
    hide Reconciled, CheckedVersion, Evaluate, WindowOf, CanReserve, CanStore, StoredFor, ReservedFor, ClearMirror, Next, PinOf, After,
         Appended, PlanRecord, ToSwitch, Reported;
    var begun := Next(env, s, Begin(p, PromoteRequest(c, own)));
    var t0 := PromotionReachesSwitch(env, s, p, c, own);
    t := SwitchCompletes(env, t0, t0.op.value);
    AfterAdds(env, begun, 5 + ToSwitch(PromotionPlan(s, c, c.base.version)), 4);
  }

  /** What an operation leaves alone from its switch on. */
  ghost predicate Kept(s: State, t: State) {
    t.objects == s.objects && t.events == s.events && t.now == s.now && t.frozen == s.frozen
  }

  /** Once prepared, four actions switch the catalog, publish, commit and release. */
  lemma SwitchCompletes(env: Env, s: State, op: Op) returns (t: State)
    requires s.op == Some(op) && op.pc == Switching && UsesRegistry(op) && op.plan.catalog == s.pins
    ensures After(env, s, 4) == t
    ensures t.op.None? && !t.guard && !t.reading && Kept(s, t) && ProcOf(t, op.proc).latch == ProcOf(s, op.proc).latch
    ensures t.pins == s.pins[op.plan.skill := PlanPin(op.plan)]
    ensures t.switches == s.switches + [Switch(op.plan.action, op.plan.skill, op.plan.from, op.plan.to, PlanPin(op.plan))]
    ensures History(t, op.proc, op.plan.skill) == History(s, op.proc, op.plan.skill) + [Renumbered(op.plan.body, op.plan.skill, op.plan.to)]
    ensures Reported(t.records, Identity(op.plan.action, op.plan.skill, op.plan.to))
  {
    hide PlanPin, After, PlanRecord, Renumbered, Reported, Appended;
    var t2 := SwitchesAndPublishes(env, s, op);
    t := CommitsAndReleases(env, t2, t2.op.value);
    AfterAdds(env, s, 2, 2);
    CommittedRowReports(t2.records, op.plan, t2.now);
  }

  lemma SwitchesAndPublishes(env: Env, s: State, op: Op) returns (t: State)
    requires s.op == Some(op) && op.pc == Switching && UsesRegistry(op) && op.plan.catalog == s.pins
    ensures After(env, s, 2) == t
    ensures t.op == Some(op.(pc := Committing)) && Kept(s, t) && t.records == s.records
    ensures ProcOf(t, op.proc).latch == ProcOf(s, op.proc).latch
    ensures t.pins == s.pins[op.plan.skill := PlanPin(op.plan)]
    ensures t.switches == s.switches + [Switch(op.plan.action, op.plan.skill, op.plan.from, op.plan.to, PlanPin(op.plan))]
    ensures History(t, op.proc, op.plan.skill) == History(s, op.proc, op.plan.skill) + [Renumbered(op.plan.body, op.plan.skill, op.plan.to)]
  {
    hide PlanPin, Next, After, Advance, Renumbered;
    Nothing(env, s);
    ProceedOnce(env, s, 0, s);
    LateActions(env, s, op);
    var t1 := DoSwitch(s, op);
    ProceedOnce(env, s, 1, t1);
    LateActions(env, t1, t1.op.value);
    t := DoPublish(t1, t1.op.value);
  }

  lemma CommitsAndReleases(env: Env, s: State, op: Op) returns (t: State)
    requires s.op == Some(op) && op.pc == Committing
    ensures After(env, s, 2) == t
    ensures t == s.(op := None, guard := false, reading := false, records := Appended(s.records, PlanRecord(op.plan, Committed, s.now)))
  {
    hide Next, After, Advance, PlanRecord, Appended, DoCommit, Finish, DoReserve, DoPrepare, DoSwitch, DoPublish;
    Nothing(env, s);
    ProceedOnce(env, s, 0, s);
    LastActions(env, s, op);
    CommitThenFinish(s, op);
    var t1 := DoCommit(s, op);
    ProceedOnce(env, s, 1, t1);
    LastActions(env, t1, t1.op.value);
    t := Finish(t1);
  }

  lemma LastActions(env: Env, s: State, op: Op)
    requires s.op == Some(op)
    ensures op.pc == Committing ==> Advance(env, s) == DoCommit(s, op)
    ensures op.pc == Finishing ==> Advance(env, s) == Finish(s)
  {
    hide Advance, DoReserve, DoPrepare, DoSwitch, DoPublish, DoCommit, Finish;
    LateActions(env, s, op);
  }

  lemma CommitThenFinish(s: State, op: Op)
    ensures DoCommit(s, op).op == Some(op.(pc := Finishing))
    ensures Finish(DoCommit(s, op))
            == s.(op := None, guard := false, reading := false, records := Appended(s.records, PlanRecord(op.plan, Committed, s.now)))
  {
    hide PlanRecord, Appended;
  }

  lemma CommittedRowReports(records: seq<Record>, plan: Plan, now: int)
    ensures Reported(Appended(records, PlanRecord(plan, Committed, now)), Identity(plan.action, plan.skill, plan.to))
  {
    var longer := Appended(records, PlanRecord(plan, Committed, now));
    assert ClaimsCommit(longer[|records|]) && IdentityOf(longer[|records|]) == Identity(plan.action, plan.skill, plan.to);
  }

  // ---- An aborted first attempt hides the switch of the second ----

  const ENV := Env(Limits(5, 50, 0.0, 0.0, 0.0, 2, 0), map["k" := "old"])
  const FIRST := SkillVersion("k", 1, "old", ["read"], [], 1.0)
  const SECOND := SkillVersion("k", 2, "new", [], [], 1.0)
  const CANDIDATE := Candidate(FIRST, SECOND, true, 0.0, 0.0, true, true)

  /** The candidate is admissible wherever its skill is still at version 1 and its slots are its own. */
  lemma CandidateIsAdmissible(s: State)
    requires s.op.None? && !s.guard && !s.reading && s.frozen == None && s.now == 0
    requires 0 in s.procs && s.procs[0] == Process(map["k" := [FIRST]], THAWED) && s.pins == map[]
    requires NoCollision(s.objects, Source("k", 1), FIRST, 1) && NoCollision(s.objects, Source("k", 2), SECOND, 2)
    requires s.events == [] || s.events == [Event(1, 0, PlanKey(PromotionPlan(s, CANDIDATE, 1)), Promote, 5)]
    ensures Admissible(ENV, s, 0, CANDIDATE, EMPTY_WINDOW)
  {
    hide NoCollision, PlanKey;
    var loaded := WindowOf(s.events, -WINDOW);
    if s.events == [] {
      assert loaded == EMPTY_WINDOW;
    } else {
      var none: seq<Event> := [];
      assert s.events[..0] == none && WindowOf(none, -WINDOW) == EMPTY_WINDOW;
      assert loaded == Apply(EMPTY_WINDOW, s.events[0]);
      assert s.events[0] in s.events;
      assert PlanKey(PromotionPlan(s, CANDIDATE, 1)) in Keys(s.events);
    }
    assert History(s, 0, "k") == [FIRST];
    assert ValidCandidate(CANDIDATE);
    assert CheckedVersion(ENV, s, 0, CANDIDATE) == Some(1);
    assert CheckL1(FIRST, SECOND) == L1OK;
    assert Breaches(DecisionWindow(EMPTY_WINDOW, loaded).(promotions := loaded.promotions + 1), ENV.limits) == [];
  }

  /** The key does not depend on when or against what window the plan was made. */
  lemma SameKey(s: State, t: State)
    ensures PlanKey(PromotionPlan(s, CANDIDATE, 1)) == PlanKey(PromotionPlan(t, CANDIDATE, 1))
    ensures PlanPin(PromotionPlan(s, CANDIDATE, 1)) == PlanPin(PromotionPlan(t, CANDIDATE, 1)) == PinOf(SECOND, 2)
  {
  }

  function PreparedRowAt(seqNo: int): Record {
    Record(seqNo, Promote, Prepared, "k", true, 1, 2, Some(PinOf(SECOND, 2)), None, "", 0)
  }

  /** The log of the run: prepared, aborted by reconciliation, prepared again. */
  function HidingLog(): seq<Record> {
    [PreparedRowAt(1), PreparedRowAt(2).(state := Aborted), PreparedRowAt(3)]
  }

  lemma FirstAttempt() returns (steps: seq<Step>, s: State)
    ensures s == Run(ENV, steps) && s.op.None? && !s.guard && !s.reading && s.frozen == None && s.now == 0
    ensures s.procs == map[0 := Process(map["k" := [FIRST]], THAWED)] && s.pins == map[] && s.switches == []
    ensures s.records == [PreparedRowAt(1)]
    ensures NoCollision(s.objects, Source("k", 1), FIRST, 1) && NoCollision(s.objects, Source("k", 2), SECOND, 2)
    ensures s.events == [Event(1, 0, PlanKey(PromotionPlan(s, CANDIDATE, 1)), Promote, 5)]
  {
    hide PlanKey, After, NoCollision, Next, Run, Admissible, ReadyToSwitch, Finish;
    var request := PromoteRequest(CANDIDATE, EMPTY_WINDOW);
    var registered, s1 := Registered();
    CandidateIsAdmissible(s1);
    var begun := registered + [Begin(0, request)];
    RunSnoc(ENV, registered, Begin(0, request));
    var t := PromotionReachesSwitch(ENV, s1, 0, CANDIDATE, EMPTY_WINDOW);
    AfterIsRun(ENV, begun, 11);
    var walked := begun + Proceeds(11);
    steps := walked + [Fail];
    RunSnoc(ENV, walked, Fail);
    s := Run(ENV, steps);
    FailFinishes(t);
    FailedAttempt(s1, t);
  }

  /** What a failure before the switch leaves behind. */
  lemma FailedAttempt(s1: State, t: State)
    requires s1 == INITIAL.(procs := map[0 := Process(map["k" := [FIRST]], THAWED)])
    requires Admissible(ENV, s1, 0, CANDIDATE, EMPTY_WINDOW) && ReadyToSwitch(s1, 0, CANDIDATE, EMPTY_WINDOW, t)
    ensures var s := Finish(t);
            s.op.None? && !s.guard && !s.reading && s.frozen == None && s.now == 0
            && s.procs == s1.procs && s.pins == map[] && s.switches == [] && s.records == [PreparedRowAt(1)]
            && s.events == [Event(1, 0, PlanKey(PromotionPlan(s, CANDIDATE, 1)), Promote, 5)]
            && NoCollision(s.objects, Source("k", 1), FIRST, 1) && NoCollision(s.objects, Source("k", 2), SECOND, 2)
  {
    hide PlanKey, Reconciled, NoCollision, StoredFor, Evaluate, CheckedVersion, CanReserve;
    StoredSlots(s1.objects, PromotionPlan(s1, CANDIDATE, 1));
    SameKey(s1, Finish(t));
    NothingLogged();
    assert s1.procs[0 := ProcOf(s1, 0).(latch := ClearMirror(ProcOf(s1, 0).latch))] == s1.procs;
  }

  lemma FailFinishes(t: State)
    ensures Next(ENV, t, Fail) == Finish(t)
  {
  }

  lemma NothingLogged()
    ensures Reconciled([], map[], 0) == []
  {
  }

  lemma Registered() returns (steps: seq<Step>, s: State)
    ensures steps == [Register(0, FIRST)] && s == Run(ENV, steps)
    ensures s == INITIAL.(procs := map[0 := Process(map["k" := [FIRST]], THAWED)])
    ensures NoCollision(s.objects, Source("k", 1), FIRST, 1) && NoCollision(s.objects, Source("k", 2), SECOND, 2)
  {
    steps := [Register(0, FIRST)];
    var none: seq<Step> := [];
    assert steps[..0] == none && Run(ENV, none) == INITIAL;
    s := Run(ENV, steps);
  }

  /** The run: an attempt that fails after its prepared row, a second one that switches and dies. */
  lemma SecondAttempt() returns (steps: seq<Step>, s: State)
    ensures s == Run(ENV, steps) && s.op.None? && s.records == HidingLog()
    ensures CurrentVersion(s.pins, "k") == 2 && SwitchedTo(s.switches, Identity(Promote, "k", 2))
  {
    hide PlanKey, After, NoCollision, Next, Reconciled, HidingLog, Run;
    var first, s2 := FirstAttempt();
    CandidateIsAdmissible(s2);
    var begun := first + [Begin(0, PromoteRequest(CANDIDATE, EMPTY_WINDOW))];
    RunSnoc(ENV, first, Begin(0, PromoteRequest(CANDIDATE, EMPTY_WINDOW)));
    var t2 := PromotionReachesSwitch(ENV, s2, 0, CANDIDATE, EMPTY_WINDOW);
    AfterIsRun(ENV, begun, 11);
    var walked := begun + Proceeds(11);
    RunSnoc(ENV, walked, Proceed);
    RunSnoc(ENV, walked + [Proceed], Crash(0));
    steps := walked + [Proceed] + [Crash(0)];
    s := Run(ENV, steps);
    SecondAttemptLog(s2);
    SwitchAndDie(s2, t2);
  }

  /** In this run the catalog has switched to version 2 and the process died before committing. The log is fully
      settled, holds only an abort for the identity, and nothing that happens afterwards will report the switch. */
  lemma AbortHidesLaterSwitch() returns (steps: seq<Step>)
    ensures var s := Run(ENV, steps);
            var id := Identity(Promote, "k", 2);
            SwitchedTo(s.switches, id) && CurrentVersion(s.pins, "k") == 2
            && s.op.None? && NothingOpen(s.records)
            && AbortedBefore(s.records, id)
            && forall more :: !Reported(Run(ENV, steps + more).records, id)
  {
    hide Run, HidingLog, NothingOpen, AbortedBefore, Reported, Hidden;
    var s;
    steps, s := SecondAttempt();
    HidingLogIsSettled();
    var id := Identity(Promote, "k", 2);
    HiddenAtRest(s, id);
    forall more ensures !Reported(Run(ENV, steps + more).records, id) {
      HiddenForEver(ENV, steps, more, id);
      HiddenIsUnreported(Run(ENV, steps + more), id);
    }
  }

  lemma HiddenAtRest(s: State, id: Identity)
    requires s.op.None? && SwitchedTo(s.switches, id) && AbortedBefore(s.records, id) && !Reported(s.records, id)
    ensures Hidden(s, id)
  {
    hide SwitchedTo, Reported;
  }

  lemma HiddenIsUnreported(s: State, id: Identity)
    requires Hidden(s, id)
    ensures !Reported(s.records, id)
  {
    hide SwitchedTo, Reported, Settled;
  }

  lemma SwitchAndDie(s: State, t: State)
    requires ReadyToSwitch(s, 0, CANDIDATE, EMPTY_WINDOW, t)
    ensures var r := Next(ENV, Next(ENV, t, Proceed), Crash(0));
            r.op.None? && r.records == t.records
            && CurrentVersion(r.pins, "k") == 2 && SwitchedTo(r.switches, Identity(Promote, "k", 2))
  {
    hide Reconciled, Appended, PlanKey, NoCollision, Keys, Advance;
    LateActions(ENV, t, t.op.value);
    var t3 := DoSwitch(t, t.op.value);
    SameKey(s, s);
    var n := |t3.switches| - 1;
    assert Identity(t3.switches[n].action, t3.switches[n].skill, t3.switches[n].to) == Identity(Promote, "k", 2);
  }

  lemma FirstRowIsAborted()
    ensures Reconciled([PreparedRowAt(1)], map[], 0) == [PreparedRowAt(1), PreparedRowAt(2).(state := Aborted)]
  {
  }

  lemma SecondAttemptLog(s: State)
    requires s.records == [PreparedRowAt(1)] && s.pins == map[] && s.now == 0
    ensures Appended(Reconciled(s.records, s.pins, s.now), PlanRecord(PromotionPlan(s, CANDIDATE, 1), Prepared, s.now)) == HidingLog()
  {
    hide Reconciled;
    FirstRowIsAborted();
    SameKey(s, s);
  }

  lemma HidingLogIsSettled()
    ensures NothingOpen(HidingLog()) && AbortedBefore(HidingLog(), Identity(Promote, "k", 2))
    ensures !Reported(HidingLog(), Identity(Promote, "k", 2))
  {
    var log := HidingLog();
    assert log[1].state == Aborted && IdentityOf(log[1]) == Identity(Promote, "k", 2);
    assert Settled(log, Identity(Promote, "k", 2));
  }
}
