/** SkillPackageBridge.Promote and Rollback as a step machine (internal/evolve/skill_packages.go).

    Every durable write is one step. Between any two steps the operation may fail, any process may
    crash, the clock may be set to any time, and other processes may freeze or thaw. The file lock on the catalog lets
    one operation run at a time; the advisory lock (`guard`) and the process's read lock (`reading`)
    hold freezes off while an activation is decided. */
module Activation {
  import opened Options
  import opened Packages
  import opened Budget
  import opened Skills
  import opened RecordLog
  import opened VersionStore

  // ---- The in-process freeze latch (internal/evolve/budget.go) ----

  datatype LatchSource = NoLatch | LocalLatch | MirrorLatch

  datatype Latch = Latch(frozen: bool, source: LatchSource)

  const THAWED := Latch(false, NoLatch)

  function FreezeLocally(l: Latch): Latch {
    Latch(true, LocalLatch)
  }

  /** A direct local freeze wins over the mirror. */
  function MirrorDurable(l: Latch): Latch {
    if l.source == LocalLatch then l else Latch(true, MirrorLatch)
  }

  function ClearMirror(l: Latch): Latch {
    if l.source != MirrorLatch then l else THAWED
  }

  // ---- State ----

  datatype Process = Process(registry: map<string, seq<SkillVersion>>, latch: Latch)

  const FRESH := Process(map[], THAWED)

  /** What does not change: the configured limits and the baseline catalog. */
  datatype Env = Env(limits: Limits, baseline: map<string, string>)

  datatype Request =
    | PromoteRequest(cand: Candidate, window: Window)
    | RollbackRequest(skill: string, withRegistry: bool, withFreezeStore: bool)

  datatype PC =
    | Reconciling
    | Checking
    | AcquiringGuard
    | ClearingMirror
    | CheckingLatch
    | Reserving
    | Releasing(condition: Condition)
    | Freezing(condition: Condition, reason: string)
    | Mirroring(reason: string)
    | Denying(reason: string)
    | RollbackFreezing(breach: Condition)
    | RollbackMirroring
    | WritingBaseContent
    | WritingBaseMetadata
    | WritingContent
    | WritingMetadata
    | Preparing
    | Switching
    | Publishing
    | Committing
    | Finishing

  /** An operation's local variables once it has checked its request. */
  datatype Plan = Plan(
    action: Action, skill: string, from: int, to: int, base: SkillVersion, body: SkillVersion,
    files: int, loadedAt: int, window: Window, catalog: map<string, Pin>)

  const NO_VERSION := SkillVersion("", 0, "", [], [], 0.0)
  const NO_PLAN := Plan(EvaluateOnly, "", 0, 0, NO_VERSION, NO_VERSION, 0, 0, EMPTY_WINDOW, map[])

  datatype Op = Op(proc: nat, request: Request, pc: PC, plan: Plan)

  /** One switch of the catalog pointer, kept as history. */
  datatype Switch = Switch(action: Action, skill: string, from: int, to: int, pin: Pin)

  datatype State = State(
    // durable
    objects: Objects, records: seq<Record>, events: seq<Event>, pins: map<string, Pin>, frozen: Option<Condition>,
    // volatile
    procs: map<nat, Process>, op: Option<Op>, guard: bool, reading: bool,
    // history
    now: int, switches: seq<Switch>)

  const INITIAL := State(Objects(map[], map[]), [], [], map[], None, map[], None, false, false, 0, [])

  function ProcOf(s: State, p: nat): Process {
    if p in s.procs then s.procs[p] else FRESH
  }

  function WithLatch(s: State, p: nat, l: Latch): State {
    s.(procs := s.procs[p := ProcOf(s, p).(latch := l)])
  }

  function History(s: State, p: nat, skill: string): seq<SkillVersion> {
    var r := ProcOf(s, p).registry;
    if skill in r then r[skill] else []
  }

  /** The version the personal catalog stands at; an unpinned skill is at its baseline, version 1. */
  function CurrentVersion(pins: map<string, Pin>, skill: string): int {
    if skill in pins then pins[skill].source.version else 1
  }

  function PlanPin(plan: Plan): Pin {
    PinOf(plan.body, plan.to)
  }

  function PlanKey(plan: Plan): OpKey {
    OpKey(plan.action, plan.skill, plan.from, plan.to, PlanPin(plan).content, PlanPin(plan).authority)
  }

  function PlanRecord(plan: Plan, state: RecordState, now: int): Record {
    Record(0, plan.action, state, plan.skill, true, plan.from, plan.to, Some(PlanPin(plan)), None, "", now)
  }

  // ---- How an operation ends or moves on ----

  /** Returning releases every lock the operation still holds. */
  function Finish(s: State): State {
    s.(op := None, guard := false, reading := false)
  }

  function Goto(s: State, op: Op, pc: PC): State {
    s.(op := Some(op.(pc := pc)))
  }

  // ---- The steps of Promote ----

  function FailureName(f: L1Failure): string {
    match f
    case L1OK => ""
    case NotReversible => "not-reversible"
    case NewPermission => "new-permission"
    case NewDataClass => "new-data-class"
    case BudgetIncrease => "budget-increase"
    case QualityRegression => "quality-regression"
  }

  function StageName(st: Stage): string {
    match st
    case Rejected => "rejected"
    case Quarantined => "quarantined"
    case Reverted => "reverted"
    case Proposed => "proposed"
    case Promoted => "promoted"
  }

  predicate ValidCandidate(c: Candidate) {
    c.base.skill != "" && c.base.skill == c.proposed.skill && c.base.version >= 1
    && c.base.budgetUSD >= 0.0 && c.proposed.budgetUSD >= 0.0
  }

  /** The durable version the candidate may be promoted from, if every precondition holds. */
  function CheckedVersion(env: Env, s: State, p: nat, c: Candidate): Option<int> {
    var h := History(s, p, c.base.skill);
    if !ValidCandidate(c) || h == [] || h[|h| - 1] != c.base || c.base.skill !in env.baseline then None
    else ActiveVersion(s.objects, s.pins, env.baseline, c.base, c.personal)
  }

  function DoCheckPromote(env: Env, s: State, op: Op): State
    requires op.request.PromoteRequest?
  {
    var c := op.request.cand;
    match CheckedVersion(env, s, op.proc, c)
    case None => Finish(s)
    case Some(from) =>
      // loadDurableBudget fails on a reservation of the future.
      if !Loads(s.events, s.now) then Finish(s) else
      var loaded := WindowOf(s.events, s.now - WINDOW);
      // mergeBudgetWindow: the three durable dimensions replace the process's own.
      var window := op.request.window.(promotions := loaded.promotions, filesChanged := loaded.filesChanged,
                                       rollbackChainDepth := loaded.rollbackChainDepth);
      var outcome := Evaluate(c, window, env.limits);
      if outcome.applied then
        var plan := Plan(Promote, c.base.skill, from, from + 1, c.base, c.proposed,
                         if c.base.version == 1 then 5 else 3, s.now, loaded, s.pins);
        s.(op := Some(op.(pc := AcquiringGuard, plan := plan)))
      else
        var reason := if outcome.failure == L1OK then StageName(outcome.stage) else FailureName(outcome.failure);
        var breaches := Breaches(window.(promotions := window.promotions + 1), env.limits);
        if outcome.stage == Quarantined && c.shadowPass && c.canaryPass && c.personal && breaches != []
        then Goto(s, op, Freezing(breaches[0], "budget"))
        else Goto(s, op, Denying(reason))
  }

  /** AcquirePromotionGuard: take the advisory lock and look at the freeze row inside it. */
  function DoAcquireGuard(s: State, op: Op): State {
    if s.guard then s
    else if s.frozen.Some? then Goto(s, op, Mirroring("freeze"))
    else Goto(s.(guard := true), op, ClearingMirror)
  }

  function DoClearMirror(s: State, op: Op): State {
    if s.reading then s
    else Goto(WithLatch(s, op.proc, ClearMirror(ProcOf(s, op.proc).latch)), op, CheckingLatch)
  }

  /** Takes the read lock and then looks at the latch. */
  function DoCheckLatch(s: State, op: Op): State {
    if ProcOf(s, op.proc).latch.frozen then Goto(s.(reading := true), op, Denying("freeze"))
    else Goto(s.(reading := true), op, Reserving)
  }

  function DoReserve(env: Env, s: State, op: Op): State {
    if op.plan.body.prompt == "" then Finish(s)
    else
      match Reserve(s.events, op.plan.window, EffectiveLimits(env.limits), s.now, PlanKey(op.plan), op.plan.action, op.plan.files)
      case Malformed => Finish(s)
      case TimeWentBackwards => Finish(s)
      case AlreadyReserved => Goto(s, op, AfterReserve(op))
      case Breached(c) => Goto(s, op, Releasing(c))
      case Accepted(events, _, breach) =>
        if breach.Some? && op.request.RollbackRequest? then
          if op.request.withFreezeStore then Goto(s.(events := events), op, RollbackFreezing(breach.value))
          else Finish(s.(events := events))
        else Goto(s.(events := events), op, AfterReserve(op))
  }

  /** Only a first promotion also stores its baseline. */
  function AfterReserve(op: Op): PC {
    if op.plan.action == Promote && op.plan.base.version == 1 then WritingBaseContent else WritingContent
  }

  /** The over-budget path gives both locks back before it freezes. */
  function DoRelease(s: State, op: Op): State
    requires op.pc.Releasing?
  {
    Goto(s.(reading := false, guard := false), op, Freezing(op.pc.condition, "budget"))
  }

  /** FreezeStore.Freeze waits for the advisory lock. */
  function DoFreeze(s: State, op: Op): State
    requires op.pc.Freezing?
  {
    if s.guard then s else Goto(s.(frozen := Some(op.pc.condition)), op, Mirroring(op.pc.reason))
  }

  /** MirrorDurableFreeze waits for the process's write lock. */
  function DoMirror(s: State, op: Op): State
    requires op.pc.Mirroring?
  {
    if s.reading then s
    else Goto(WithLatch(s, op.proc, MirrorDurable(ProcOf(s, op.proc).latch)), op, Denying(op.pc.reason))
  }

  function DeniedRecord(c: Candidate, reason: string, now: int): Record {
    Record(0, EvaluateOnly, Recorded, c.base.skill, c.personal, c.base.version, c.base.version, None,
           if c.proposed.prompt == "" then None else Some(OfMetadata(MetadataOf(c.proposed, c.base.version + 1))), reason, now)
  }

  /** The audit row of a promotion that was not applied; an invalid row is refused and the call fails. */
  function DoDeny(s: State, op: Op): State
    requires op.pc.Denying? && op.request.PromoteRequest?
  {
    var row := DeniedRecord(op.request.cand, op.pc.reason, s.now);
    if ValidRecord(row.(seqNo := NextSequence(s.records))) then Finish(s.(records := Appended(s.records, row))) else Finish(s)
  }

  // ---- The steps Promote and Rollback share ----

  function DoReconcile(s: State, op: Op): State {
    Goto(s.(records := Reconciled(s.records, s.pins, s.now)), op, Checking)
  }

  function DoWriteContent(s: State, op: Op, v: SkillVersion, n: int, next: PC): State {
    match WriteContent(s.objects, Source(op.plan.skill, n), v.prompt)
    case None => Finish(s)
    case Some(o) => Goto(s.(objects := o), op, next)
  }

  function DoWriteMetadata(s: State, op: Op, v: SkillVersion, n: int, next: PC): State {
    match WriteMetadata(s.objects, Source(op.plan.skill, n), MetadataOf(v, n))
    case None => Finish(s)
    case Some(o) => Goto(s.(objects := o), op, next)
  }

  function DoPrepare(s: State, op: Op): State {
    Goto(s.(records := Appended(s.records, PlanRecord(op.plan, Prepared, s.now))), op, Switching)
  }

  /** writeEvolutionCatalog: switch the pin if the catalog is still the one that was loaded. */
  function DoSwitch(s: State, op: Op): State {
    if s.pins != op.plan.catalog then Finish(s)
    else
      var plan := op.plan;
      Goto(s.(pins := s.pins[plan.skill := PlanPin(plan)], reading := false,
              switches := s.switches + [Switch(plan.action, plan.skill, plan.from, plan.to, PlanPin(plan))]), op, Publishing)
  }

  function DoPublish(s: State, op: Op): State {
    if op.request.RollbackRequest? && !op.request.withRegistry then Goto(s, op, Committing)
    else
      var plan, proc := op.plan, ProcOf(s, op.proc);
      var h := History(s, op.proc, plan.skill) + [Renumbered(plan.body, plan.skill, plan.to)];
      Goto(s.(procs := s.procs[op.proc := proc.(registry := proc.registry[plan.skill := h])]), op, Committing)
  }

  function DoCommit(s: State, op: Op): State {
    Goto(s.(records := Appended(s.records, PlanRecord(op.plan, Committed, s.now))), op, Finishing)
  }

  // ---- The steps of Rollback ----

  /** The two newest registry entries are the two durable versions the rollback works on. */
  predicate CoherentHistory(h: seq<SkillVersion>, current: SkillVersion, previous: SkillVersion) {
    |h| >= 2 && h[|h| - 1] == current && h[|h| - 2] == previous
  }

  function DoCheckRollback(s: State, op: Op): State
    requires op.request.RollbackRequest?
  {
    var skill := op.request.skill;
    if skill !in s.pins then Finish(s)
    else
      var pin := s.pins[skill];
      var from := pin.source.version;
      var current, previous := ReadPinned(s.objects, skill, from, pin), ReadVersion(s.objects, skill, from - 1);
      if from < 2 || current.None? || previous.None? then Finish(s)
      else if op.request.withRegistry && !CoherentHistory(History(s, op.proc, skill), current.value, previous.value) then Finish(s)
      else if !Loads(s.events, s.now) then Finish(s)
      else
        var plan := Plan(Rollback, skill, from, from + 1, current.value, previous.value, 3,
                         s.now, WindowOf(s.events, s.now - WINDOW), s.pins);
        s.(op := Some(op.(pc := Reserving, plan := plan)))
  }

  function DoRollbackFreeze(s: State, op: Op): State
    requires op.pc.RollbackFreezing?
  {
    if s.guard then s else Goto(s.(frozen := Some(op.pc.breach)), op, RollbackMirroring)
  }

  function DoRollbackMirror(s: State, op: Op): State {
    if s.reading then s
    else Goto(WithLatch(s, op.proc, MirrorDurable(ProcOf(s, op.proc).latch)), op, WritingContent)
  }

  // ---- Putting the steps together ----

  predicate Deciding(pc: PC) {
    match pc
    case Reconciling => true
    case Checking => true
    case AcquiringGuard => true
    case ClearingMirror => true
    case CheckingLatch => true
    case Reserving => true
    case _ => false
  }

  predicate Refusing(pc: PC) {
    pc.Releasing? || pc.Freezing? || pc.Mirroring? || pc.Denying? || pc.RollbackFreezing? || pc == RollbackMirroring
  }

  /** From taking the catalog lock to reserving the budget. */
  function Decide(env: Env, s: State, op: Op): State
    requires Deciding(op.pc)
  {
    match op.pc
    case Reconciling => DoReconcile(s, op)
    case Checking => if op.request.PromoteRequest? then DoCheckPromote(env, s, op) else DoCheckRollback(s, op)
    case AcquiringGuard => DoAcquireGuard(s, op)
    case ClearingMirror => DoClearMirror(s, op)
    case CheckingLatch => DoCheckLatch(s, op)
    case Reserving => DoReserve(env, s, op)
  }

  /** A refused promotion, and the freeze an over-budget operation leaves behind. */
  function Refuse(s: State, op: Op): State
    requires Refusing(op.pc)
  {
    match op.pc
    case Releasing(_) => DoRelease(s, op)
    case Freezing(_, _) => DoFreeze(s, op)
    case Mirroring(_) => DoMirror(s, op)
    case Denying(_) => if op.request.PromoteRequest? then DoDeny(s, op) else Finish(s)
    case RollbackFreezing(_) => DoRollbackFreeze(s, op)
    case RollbackMirroring => DoRollbackMirror(s, op)
  }

  /** From the first version object to the committed record. */
  function Activate(s: State, op: Op): State
    requires !Deciding(op.pc) && !Refusing(op.pc)
  {
    match op.pc
    case WritingBaseContent => DoWriteContent(s, op, op.plan.base, 1, WritingBaseMetadata)
    case WritingBaseMetadata => DoWriteMetadata(s, op, op.plan.base, 1, WritingContent)
    case WritingContent => DoWriteContent(s, op, op.plan.body, op.plan.to, WritingMetadata)
    case WritingMetadata => DoWriteMetadata(s, op, op.plan.body, op.plan.to, Preparing)
    case Preparing => DoPrepare(s, op)
    case Switching => DoSwitch(s, op)
    case Publishing => DoPublish(s, op)
    case Committing => DoCommit(s, op)
    case Finishing => Finish(s)
  }

  /** The operation that holds the catalog lock performs its next action. */
  function Advance(env: Env, s: State): State
    requires s.op.Some?
  {
    var op := s.op.value;
    if Deciding(op.pc) then Decide(env, s, op)
    else if Refusing(op.pc) then Refuse(s, op)
    else Activate(s, op)
  }

  // ---- Everything that can happen ----

  datatype Step =
    | Begin(p: nat, request: Request)
    | Proceed
    | Fail
    | Crash(p: nat)
    | DurableFreeze(reason: Condition)
    | DurableUnfreeze
    | LocalFreeze(p: nat)
    | LocalUnfreeze(p: nat)
    | MirrorFreeze(p: nat)
    | Register(p: nat, v: SkillVersion)
    | SetClock(now: int)

  /** The process's write lock on the latch is free. */
  predicate LatchFree(s: State, p: nat) {
    !(s.reading && s.op.Some? && s.op.value.proc == p)
  }

  /** The registry mutex is free: an operation that uses the registry holds it from its checks until it returns. */
  predicate RegistryFree(s: State, p: nat) {
    s.op.None? || s.op.value.proc != p || s.op.value.pc == Reconciling
    || (s.op.value.request.RollbackRequest? && !s.op.value.request.withRegistry)
  }

  /** One step; a step that has to wait leaves the state as it is. */
  function Next(env: Env, s: State, e: Step): State {
    match e
    case Begin(p, r) => if s.op.Some? then s else s.(op := Some(Op(p, r, Reconciling, NO_PLAN)))
    case Proceed => if s.op.None? then s else Advance(env, s)
    case Fail => Finish(s)
    case Crash(p) =>
      var t := s.(procs := s.procs - {p});
      if s.op.Some? && s.op.value.proc == p then Finish(t) else t
    case DurableFreeze(reason) => if s.guard then s else s.(frozen := Some(reason))
    case DurableUnfreeze => if s.guard then s else s.(frozen := None)
    case LocalFreeze(p) => if LatchFree(s, p) then WithLatch(s, p, FreezeLocally(ProcOf(s, p).latch)) else s
    case LocalUnfreeze(p) => if LatchFree(s, p) then WithLatch(s, p, THAWED) else s
    case MirrorFreeze(p) => if LatchFree(s, p) then WithLatch(s, p, MirrorDurable(ProcOf(s, p).latch)) else s
    case Register(p, v) =>
      if !RegistryFree(s, p) then s
      else
        var seeded := v.(version := if v.version == 0 then 1 else v.version);
        s.(procs := s.procs[p := ProcOf(s, p).(registry := ProcOf(s, p).registry[v.skill := [seeded]])])
    case SetClock(now) => s.(now := now)
  }

  /** The state after any finite schedule of steps. */
  function Run(env: Env, steps: seq<Step>): State {
    if steps == [] then INITIAL else Next(env, Run(env, steps[..|steps| - 1]), steps[|steps| - 1])
  }
}
