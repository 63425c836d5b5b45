/** The resumable intake pipeline (internal/intake): what one Start or Resume call does to the durable run.

    The provider seams are deterministic functions. Around them a `Schedule` says what goes wrong during
    one call: a seam may fail, and the run's save after a stage record may be lost - the two are separate
    writes. Clocks and provenance are left out. */
module Intake {

  datatype Stage =
    | IdeaRecorded | OpportunityValidated | SpecSynthesized | PlanGenerated | Admitted | Approved | MissionStarted
    | OpportunityRejected | OpportunityValidationRequired | AwaitingStrongAuth | AwaitingReadiness

  const FORWARD: seq<Stage> :=
    [IdeaRecorded, OpportunityValidated, SpecSynthesized, PlanGenerated, Admitted, Approved, MissionStarted]

  datatype Status = Running | Done | Paused

  datatype Caps = Caps(envelopeUSD: real, researchCapUSD: real, mvpCapUSD: real)

  function CapsFromBudget(envelope: real): (c: Caps)
    ensures c.researchCapUSD + c.mvpCapUSD == c.envelopeUSD
    ensures 0.0 <= c.researchCapUSD <= c.envelopeUSD && c.envelopeUSD == (if envelope <= 0.0 then 0.0 else envelope)
  {
    if envelope <= 0.0 then Caps(0.0, 0.0, 0.0)
    else Caps(envelope, envelope * 0.2, envelope - envelope * 0.2)
  }

  datatype Run = Run(id: string, idea: string, caps: Caps, stage: Stage, status: Status, spentUSD: real, mission: string)

  datatype Verdict = Build | ValidateMore | Reject | Unknown(text: string)

  datatype ValidateOutput = ValidateOutput(verdict: Verdict, spentUSD: real, digest: string)
  datatype SpecOutput = SpecOutput(spec: string, digest: string)
  datatype PlanOutput = PlanOutput(planID: string, bytes: string)
  datatype AdmitOutput = AdmitOutput(tier: string, requiresStrongAuth: bool)

  datatype Artifact =
    | IdeaArtifact(digest: string)
    | ValidatedArtifact(validated: ValidateOutput)
    | SpecArtifact(spec: SpecOutput)
    | PlanArtifact(plan: PlanOutput)
    | AdmitArtifact(admit: AdmitOutput)
    | ApproveArtifact(approvalRef: string)
    | MissionArtifact(missionID: string)

  datatype StageRecord = StageRecord(inputDigest: string, output: Artifact, costUSD: real)

  /** The seams: deterministic functions of what the pipeline hands them, and the digest that names inputs. */
  datatype Seams = Seams(
    validate: (string, string, real) -> ValidateOutput,
    synthesize: (string, string) -> SpecOutput,
    generate: (string, string, real) -> PlanOutput,
    classify: (string, string) -> AdmitOutput,
    approve: (string, string, string) -> string,
    start: (string, string, real) -> string,
    digest: seq<string> -> string)

  /** What happens when a stage is executed: nothing special, its seam (or record write) fails, the record is
      written but the run's save is lost, or the seam asks for a human (approver or readiness). */
  datatype Fault = NoFault | SeamError | SaveLost | Asks

  /** What goes wrong during one Resume call. */
  datatype Schedule = Schedule(at: Stage -> Fault, finalSaveLost: bool)

  const CLEAN := Schedule(_ => NoFault, false)

  /** One run as the store keeps it. */
  datatype Stored = Stored(run: Run, records: map<Stage, StageRecord>)

  datatype Flow = Continue | Stop | Error

  /** DefaultBudgetGate: no envelope refuses, and so does a spend past it. */
  predicate Admits(caps: Caps, spent: real, request: real) {
    !(caps.envelopeUSD <= 0.0) && !(spent + request > caps.envelopeUSD)
  }

  /** RecordStage: the first record of a stage stays. */
  function Recorded(records: map<Stage, StageRecord>, stage: Stage, rec: StageRecord): map<Stage, StageRecord> {
    if stage in records then records else records[stage := rec]
  }

  // ---- The stages ----

  function ValidatedRecord(seams: Seams, run: Run, out: ValidateOutput): StageRecord {
    StageRecord(seams.digest([run.idea]), ValidatedArtifact(out), out.spentUSD)
  }

  function ExecuteValidate(seams: Seams, fault: Fault, st: Stored): (Stored, Flow) {
    var run := st.run;
    if !Admits(run.caps, run.spentUSD, run.caps.researchCapUSD) || fault == SeamError || fault == Asks then (st, Error)
    else
      var out := seams.validate(run.id, run.idea, run.caps.researchCapUSD);
      var spent := run.(spentUSD := run.spentUSD + out.spentUSD);
      var records := Recorded(st.records, OpportunityValidated, ValidatedRecord(seams, run, out));
      if fault == SaveLost then (Stored(run, records), Error)
      else
        match out.verdict
        case Reject => (Stored(spent.(stage := OpportunityRejected, status := Done), records), Stop)
        case ValidateMore => (Stored(spent.(stage := OpportunityValidationRequired, status := Done), records), Stop)
        case Build => (Stored(spent.(stage := OpportunityValidated), records), Continue)
        case Unknown(_) => (Stored(run, records), Error)
  }

  /** A stage with nothing but an output: record it, then advance the run. */
  function Complete(fault: Fault, st: Stored, stage: Stage, rec: StageRecord): (Stored, Flow) {
    if fault == SeamError || fault == Asks then (st, Error)
    else
      var records := Recorded(st.records, stage, rec);
      if fault == SaveLost then (Stored(st.run, records), Error)
      else (Stored(st.run.(stage := stage), records), Continue)
  }

  function ExecuteSynthesize(seams: Seams, fault: Fault, st: Stored): (Stored, Flow) {
    Complete(fault, st, SpecSynthesized,
             StageRecord(seams.digest([st.run.idea]), SpecArtifact(seams.synthesize(st.run.id, st.run.idea)), 0.0))
  }

  function ExecutePlan(seams: Seams, fault: Fault, st: Stored): (Stored, Flow) {
    if SpecSynthesized !in st.records || !st.records[SpecSynthesized].output.SpecArtifact? then (st, Error)
    else
      var spec := st.records[SpecSynthesized].output.spec;
      Complete(fault, st, PlanGenerated,
               StageRecord(spec.digest, PlanArtifact(seams.generate(st.run.id, spec.spec, st.run.caps.envelopeUSD)), 0.0))
  }

  function ExecuteAdmit(seams: Seams, fault: Fault, st: Stored): (Stored, Flow) {
    if PlanGenerated !in st.records || !st.records[PlanGenerated].output.PlanArtifact? then (st, Error)
    else
      var plan := st.records[PlanGenerated].output.plan;
      Complete(fault, st, Admitted,
               StageRecord(seams.digest([plan.bytes]), AdmitArtifact(seams.classify(st.run.id, plan.bytes)), 0.0))
  }

  /** A pause writes no record, only the run's position. */
  function Pause(fault: Fault, st: Stored, stage: Stage): (Stored, Flow) {
    if fault == SaveLost then (st, Error) else (Stored(st.run.(stage := stage, status := Paused), st.records), Stop)
  }

  function ExecuteApprove(seams: Seams, fault: Fault, st: Stored): (Stored, Flow) {
    if Admitted !in st.records || !st.records[Admitted].output.AdmitArtifact?
       || PlanGenerated !in st.records || !st.records[PlanGenerated].output.PlanArtifact? then (st, Error)
    else
      var admit, plan := st.records[Admitted].output.admit, st.records[PlanGenerated].output.plan;
      if admit.requiresStrongAuth then Pause(fault, st, AwaitingStrongAuth)
      else if fault == Asks then Pause(NoFault, st, AwaitingStrongAuth)
      else Complete(fault, st, Approved,
                    StageRecord(seams.digest([plan.bytes, admit.tier]),
                                ApproveArtifact(seams.approve(st.run.id, plan.bytes, admit.tier)), 0.0))
  }

  function ExecuteStart(seams: Seams, fault: Fault, st: Stored): (Stored, Flow) {
    if Approved !in st.records || !st.records[Approved].output.ApproveArtifact? then (st, Error)
    else
      var ref := st.records[Approved].output.approvalRef;
      if fault == Asks then Pause(NoFault, st, AwaitingReadiness)
      else if fault == SeamError then (st, Error)
      else
        var mission := seams.start(st.run.id, ref, st.run.caps.envelopeUSD);
        var records := Recorded(st.records, MissionStarted, StageRecord(seams.digest([ref]), MissionArtifact(mission), 0.0));
        if fault == SaveLost then (Stored(st.run, records), Error)
        else (Stored(st.run.(mission := mission, stage := MissionStarted, status := Done), records), Continue)
  }

  function Execute(seams: Seams, fault: Fault, st: Stored, stage: Stage): (Stored, Flow) {
    match stage
    case OpportunityValidated => ExecuteValidate(seams, fault, st)
    case SpecSynthesized => ExecuteSynthesize(seams, fault, st)
    case PlanGenerated => ExecutePlan(seams, fault, st)
    case Admitted => ExecuteAdmit(seams, fault, st)
    case Approved => ExecuteApprove(seams, fault, st)
    case MissionStarted => ExecuteStart(seams, fault, st)
    case _ => (st, Error)
  }

  /** A recorded stage is not executed again; a terminal verdict stops the call, an undecodable one fails it. */
  function Replay(st: Stored, stage: Stage): Flow
    requires stage in st.records
  {
    ReplayRecord(stage, st.records[stage].output)
  }

  function ReplayRecord(stage: Stage, out: Artifact): Flow {
    if stage == OpportunityValidated then
      if !out.ValidatedArtifact? then Error
      else if out.validated.verdict == Reject || out.validated.verdict == ValidateMore then Stop
      else Continue
    else if stage == MissionStarted && !out.MissionArtifact? then Error
    else Continue
  }

  function RunStage(seams: Seams, sched: Schedule, st: Stored, stage: Stage): (Stored, Flow) {
    if stage in st.records then (st, Replay(st, stage)) else Execute(seams, sched.at(stage), st, stage)
  }

  /** The save at the end of Resume; the mission is the recorded one. */
  function FinishRun(sched: Schedule, st: Stored): Stored {
    if sched.finalSaveLost || MissionStarted !in st.records || !st.records[MissionStarted].output.MissionArtifact? then st
    else Stored(st.run.(mission := st.records[MissionStarted].output.missionID, stage := MissionStarted, status := Done), st.records)
  }

  function ResumeFrom(seams: Seams, sched: Schedule, st: Stored, i: nat): Stored
    requires 1 <= i <= 7
    decreases 7 - i
  {
    if i == 7 then FinishRun(sched, st)
    else
      var r := RunStage(seams, sched, st, FORWARD[i]);
      if r.1 == Continue then ResumeFrom(seams, sched, r.0, i + 1) else r.0
  }

  /** One Resume call. */
  function Resume(seams: Seams, sched: Schedule, st: Stored): Stored {
    if st.run.status == Done then st else ResumeFrom(seams, sched, st, 1)
  }

  /** Any number of Resume calls. */
  function ResumeAll(seams: Seams, scheds: seq<Schedule>, st: Stored): Stored {
    if scheds == [] then st else Resume(seams, scheds[|scheds| - 1], ResumeAll(seams, scheds[..|scheds| - 1], st))
  }

  /** What Start creates before it resumes. */
  function Fresh(seams: Seams, id: string, idea: string, budget: real): Stored {
    Stored(Run(id, idea, CapsFromBudget(budget), IdeaRecorded, Running, 0.0, ""),
           map[IdeaRecorded := StageRecord(seams.digest([idea]), IdeaArtifact(seams.digest([idea])), 0.0)])
  }
}
