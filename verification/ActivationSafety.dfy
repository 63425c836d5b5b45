/** The invariant of the activation protocol: what holds between any two steps of any run. */
module ActivationSafety {
  import opened Options
  import opened Packages
  import opened Budget
  import opened Skills
  import opened RecordLog
  import opened VersionStore
  import opened Activation

  // ---- Version objects and pins ----

  function ObjectAt(o: Objects, k: Source): SkillVersion
    requires k in o.content && k in o.metadata
  {
    Decoded(o.content[k], o.metadata[k])
  }

  /** Every stored version binds its content and stays inside the authority of the skill's version 1. */
  ghost predicate ObjInv(o: Objects) {
    Bound(o)
    && forall k :: k in o.metadata ==>
         k.version >= 1 && Source(k.skill, 1) in o.metadata && Within(ObjectAt(o, k), ObjectAt(o, Source(k.skill, 1)))
  }

  /** Every pin reads back, and every version up to it is stored. */
  ghost predicate PinInv(o: Objects, pins: map<string, Pin>) {
    forall sk :: sk in pins ==>
      pins[sk].source.version >= 2
      && ReadPinned(o, sk, pins[sk].source.version, pins[sk]).Some?
      && forall n :: 1 <= n <= pins[sk].source.version ==> Source(sk, n) in o.metadata
  }

  // ---- The catalog's history ----

  /** The version the last switch of a skill led to. */
  function LastTo(switches: seq<Switch>, skill: string): int {
    if switches == [] then 1
    else
      var last := switches[|switches| - 1];
      if last.skill == skill then last.to else LastTo(switches[..|switches| - 1], skill)
  }

  /** Each switch goes from where its skill stood to the next version. */
  ghost predicate Chained(switches: seq<Switch>) {
    switches == []
    || (var init, last := switches[..|switches| - 1], switches[|switches| - 1];
        Chained(init) && last.from == LastTo(init, last.skill) && last.to == last.from + 1)
  }

  function SwitchKey(w: Switch): OpKey {
    OpKey(w.action, w.skill, w.from, w.to, w.pin.content, w.pin.authority)
  }

  ghost predicate SwitchInv(switches: seq<Switch>, pins: map<string, Pin>, events: seq<Event>) {
    Chained(switches)
    && (forall sk :: CurrentVersion(pins, sk) == LastTo(switches, sk))
    && (forall i :: 0 <= i < |switches| ==> SwitchKey(switches[i]) in Keys(events))
  }

  /** The version `n` of a skill is a copy of its version `m`. */
  ghost predicate CopyOf(o: Objects, skill: string, n: int, m: int) {
    ReadVersion(o, skill, m).Some?
    && ReadVersion(o, skill, n) == Some(ReadVersion(o, skill, m).value.(version := n))
  }

  ghost predicate CopyInv(o: Objects, switches: seq<Switch>) {
    forall i :: 0 <= i < |switches| && switches[i].action == Rollback ==>
      CopyOf(o, switches[i].skill, switches[i].to, switches[i].to - 2)
  }

  ghost predicate SwitchedTo(switches: seq<Switch>, id: Identity) {
    exists i :: 0 <= i < |switches| && Identity(switches[i].action, switches[i].skill, switches[i].to) == id
  }

  // ---- The log ----

  ghost predicate LogInv(records: seq<Record>) {
    Contiguous(records) && AllValid(records) && OnlyLastOpen(records)
  }

  /** An open row is the newest one, and the catalog tells whether its switch has happened. */
  ghost predicate OpenRowInv(records: seq<Record>, pins: map<string, Pin>, switches: seq<Switch>) {
    records != [] && OpenAt(records, |records| - 1) ==>
      var r := records[|records| - 1];
      if SwitchedTo(switches, IdentityOf(r)) then r.skill in pins && Some(pins[r.skill]) == r.pin
      else CurrentVersion(pins, r.skill) == r.from
  }

  // ---- Budget and registries ----

  ghost predicate BudgetInv(events: seq<Event>) {
    WellFormedEvents(events, LastAt(events))
  }

  /** A history that has advanced agrees, version by version, with the durable store. */
  ghost predicate HistoryInv(o: Objects, skill: string, h: seq<SkillVersion>) {
    GoodHistory(skill, h)
    && (|h| >= 2 ==> forall i :: 0 <= i < |h| ==> ReadVersion(o, skill, h[i].version) == Some(h[i]))
  }

  ghost predicate RegInv(o: Objects, procs: map<nat, Process>) {
    forall p, sk :: p in procs && sk in procs[p].registry ==> HistoryInv(o, sk, procs[p].registry[sk])
  }

  // ---- What an operation knows at each point ----

  /** How far an operation has come: 2 planned, 3 reserved, 5 baseline stored, 7 version stored, 8 prepared, 9
      switched. */
  function Rank(pc: PC): int {
    match pc
    case Reconciling => 0
    case AcquiringGuard => 2
    case ClearingMirror => 2
    case CheckingLatch => 2
    case Reserving => 2
    case WritingBaseContent => 3
    case WritingBaseMetadata => 4
    case RollbackFreezing(_) => 5
    case RollbackMirroring => 5
    case WritingContent => 5
    case WritingMetadata => 6
    case Preparing => 7
    case Switching => 8
    case Publishing => 9
    case Committing => 10
    case Finishing => 11
    case _ => 1
  }

  ghost predicate PlanShape(op: Op) {
    var plan := op.plan;
    plan.from >= 1 && plan.to == plan.from + 1 && plan.files > 0
    && plan.body.skill == plan.skill && plan.base.skill == plan.skill && plan.base.version == plan.from
    && plan.action == (if op.request.PromoteRequest? then Promote else Rollback)
    && (plan.action == Promote ==> Within(plan.body, plan.base))
    && (plan.action == Rollback ==> plan.from >= 2)
  }

  /** The plan still describes the catalog and the store. */
  ghost predicate PlanStands(o: Objects, pins: map<string, Pin>, op: Op) {
    var plan := op.plan;
    plan.catalog == pins && CurrentVersion(pins, plan.skill) == plan.from
    && (plan.skill in pins || Rank(op.pc) >= 5 ==> ReadVersion(o, plan.skill, plan.from) == Some(plan.base))
    && (plan.action == Rollback ==> plan.skill in pins && ReadVersion(o, plan.skill, plan.from - 1) == Some(plan.body))
  }

  ghost predicate PlanWritten(o: Objects, op: Op) {
    var plan, rank := op.plan, Rank(op.pc);
    (rank == 3 || rank == 4 ==> plan.action == Promote && plan.from == 1)
    && (rank == 4 ==> Source(plan.skill, 1) in o.content && o.content[Source(plan.skill, 1)] == plan.base.prompt)
    && (rank >= 6 ==> Source(plan.skill, plan.to) in o.content && o.content[Source(plan.skill, plan.to)] == plan.body.prompt)
    && (rank >= 7 ==> Source(plan.skill, plan.to) in o.metadata
                      && o.metadata[Source(plan.skill, plan.to)] == MetadataOf(plan.body, plan.to))
  }

  ghost predicate PreparedRow(records: seq<Record>, plan: Plan) {
    records != []
    && records[|records| - 1].state == Prepared && records[|records| - 1].from == plan.from
    && IdentityOf(records[|records| - 1]) == Identity(plan.action, plan.skill, plan.to)
    && records[|records| - 1].pin == Some(PlanPin(plan))
  }

  ghost predicate PlanSwitched(pins: map<string, Pin>, switches: seq<Switch>, plan: Plan) {
    plan.skill in pins && pins[plan.skill] == PlanPin(plan)
    && switches != []
    && switches[|switches| - 1] == Switch(plan.action, plan.skill, plan.from, plan.to, PlanPin(plan))
  }

  ghost predicate PlanBudget(events: seq<Event>, op: Op) {
    var plan := op.plan;
    (Rank(op.pc) == 2 ==> plan.window == WindowOf(events, plan.loadedAt - WINDOW))
    && (Rank(op.pc) >= 3 ==> PlanKey(plan) in Keys(events))
  }

  predicate UsesRegistry(op: Op) {
    op.request.PromoteRequest? || op.request.withRegistry
  }

  ghost predicate PlanHistory(s: State, op: Op) {
    UsesRegistry(op) ==>
      var h := History(s, op.proc, op.plan.skill);
      h != [] && h[|h| - 1] == op.plan.base
  }

  ghost predicate OpInv(s: State, op: Op) {
    var rank := Rank(op.pc);
    (rank != 0 && rank < 8 ==> NothingOpen(s.records))
    && (rank >= 2 ==> PlanShape(op) && PlanWritten(s.objects, op) && PlanBudget(s.events, op))
    && (2 <= rank <= 8 ==> PlanStands(s.objects, s.pins, op))
    && (2 <= rank <= 9 ==> PlanHistory(s, op))
    && (rank >= 9 ==> ReadVersion(s.objects, op.plan.skill, op.plan.from) == Some(op.plan.base))
    && (8 <= rank <= 10 ==> PreparedRow(s.records, op.plan))
    && (rank >= 9 ==> PlanSwitched(s.pins, s.switches, op.plan))
  }

  ghost predicate StoreInv(env: Env, s: State) {
    ObjInv(s.objects) && PinInv(s.objects, s.pins)
    && SwitchInv(s.switches, s.pins, s.events) && CopyInv(s.objects, s.switches)
    && LogInv(s.records) && OpenRowInv(s.records, s.pins, s.switches)
    && BudgetInv(s.events) && RegInv(s.objects, s.procs)
  }

  ghost predicate Inv(env: Env, s: State) {
    StoreInv(env, s) && (s.op.Some? ==> OpInv(s, s.op.value))
  }

  // ---- Stability of the store-dependent parts ----

  lemma PinsStayReadable(a: Objects, b: Objects, pins: map<string, Pin>)
    requires Grows(a, b) && PinInv(a, pins)
    ensures PinInv(b, pins)
  {
  }

  lemma CopiesStay(a: Objects, b: Objects, switches: seq<Switch>)
    requires Grows(a, b) && CopyInv(a, switches)
    ensures CopyInv(b, switches)
  {
  }

  lemma RegistriesStay(a: Objects, b: Objects, procs: map<nat, Process>)
    requires Grows(a, b) && RegInv(a, procs)
    ensures RegInv(b, procs)
  {
  }
}
