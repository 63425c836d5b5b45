/** Interrupted and resumed equals uninterrupted - and exactly when it does not. */
module IntakeProofs {
  import opened Intake

  // ---- The one output each stage can have ----

  function VerdictOf(seams: Seams, run: Run): ValidateOutput {
    seams.validate(run.id, run.idea, run.caps.researchCapUSD)
  }

  function SpecOf(seams: Seams, run: Run): SpecOutput {
    seams.synthesize(run.id, run.idea)
  }

  function PlanOf(seams: Seams, run: Run): PlanOutput {
    seams.generate(run.id, SpecOf(seams, run).spec, run.caps.envelopeUSD)
  }

  function AdmitOf(seams: Seams, run: Run): AdmitOutput {
    seams.classify(run.id, PlanOf(seams, run).bytes)
  }

  function ApprovalOf(seams: Seams, run: Run): string {
    seams.approve(run.id, PlanOf(seams, run).bytes, AdmitOf(seams, run).tier)
  }

  function MissionOf(seams: Seams, run: Run): string {
    seams.start(run.id, ApprovalOf(seams, run), run.caps.envelopeUSD)
  }

  predicate Forward(stage: Stage) {
    match stage
    case OpportunityRejected => false
    case OpportunityValidationRequired => false
    case AwaitingStrongAuth => false
    case AwaitingReadiness => false
    case _ => true
  }

  function Canonical(seams: Seams, run: Run, stage: Stage): StageRecord
    requires Forward(stage)
  {
    match stage
    case IdeaRecorded => StageRecord(seams.digest([run.idea]), IdeaArtifact(seams.digest([run.idea])), 0.0)
    case OpportunityValidated => ValidatedRecord(seams, run, VerdictOf(seams, run))
    case SpecSynthesized => StageRecord(seams.digest([run.idea]), SpecArtifact(SpecOf(seams, run)), 0.0)
    case PlanGenerated => StageRecord(SpecOf(seams, run).digest, PlanArtifact(PlanOf(seams, run)), 0.0)
    case Admitted => StageRecord(seams.digest([PlanOf(seams, run).bytes]), AdmitArtifact(AdmitOf(seams, run)), 0.0)
    case Approved =>
      StageRecord(seams.digest([PlanOf(seams, run).bytes, AdmitOf(seams, run).tier]), ApproveArtifact(ApprovalOf(seams, run)), 0.0)
    case MissionStarted => StageRecord(seams.digest([ApprovalOf(seams, run)]), MissionArtifact(MissionOf(seams, run)), 0.0)
  }

  predicate Terminal(v: Verdict) {
    v == Reject || v == ValidateMore
  }

  // ---- The invariant of a run, whatever happens to it ----

  ghost predicate SameRun(run: Run, base: Run) {
    run.id == base.id && run.idea == base.idea && run.caps == base.caps
  }

  /** Every record is the one its stage can have, and records form a prefix of the forward order. */
  ghost predicate GoodRecords(seams: Seams, base: Run, records: map<Stage, StageRecord>) {
    (forall stage :: stage in records ==> Forward(stage) && records[stage] == Canonical(seams, base, stage))
    && IdeaRecorded in records
    && (SpecSynthesized in records ==> OpportunityValidated in records)
    && (PlanGenerated in records ==> SpecSynthesized in records)
    && (Admitted in records ==> PlanGenerated in records)
    && (Approved in records ==> Admitted in records)
    && (MissionStarted in records ==> Approved in records)
    && (OpportunityValidated in records ==> base.caps.envelopeUSD > 0.0)
    && (SpecSynthesized in records ==> !Terminal(VerdictOf(seams, base).verdict))
    && (Approved in records ==> !AdmitOf(seams, base).requiresStrongAuth)
  }

  /** `lossless` says that no save after a validation has been lost so far. */
  ghost predicate GoodSpend(seams: Seams, base: Run, run: Run, records: map<Stage, StageRecord>, lossless: bool) {
    var v := VerdictOf(seams, base);
    if OpportunityValidated !in records then run.spentUSD == 0.0
    else
      (run.spentUSD == v.spentUSD || run.spentUSD == 0.0)
      && (lossless && !v.verdict.Unknown? ==> run.spentUSD == v.spentUSD)
      && (v.verdict.Unknown? ==> run.spentUSD == 0.0)
  }

  /** A finished run finished for a reason its records show. */
  ghost predicate GoodEnd(seams: Seams, base: Run, run: Run, records: map<Stage, StageRecord>) {
    var v := VerdictOf(seams, base);
    (run.mission == "" || (MissionStarted in records && run.mission == MissionOf(seams, base)))
    && (run.status == Done && MissionStarted !in records ==>
          OpportunityValidated in records && Terminal(v.verdict) && run.spentUSD == v.spentUSD && run.mission == ""
          && run.stage == (if v.verdict == Reject then OpportunityRejected else OpportunityValidationRequired))
    && (run.status == Done && MissionStarted in records ==>
          run.stage == MissionStarted && run.mission == MissionOf(seams, base))
  }

  ghost predicate Good(seams: Seams, base: Run, lossless: bool, st: Stored) {
    SameRun(st.run, base)
    && GoodRecords(seams, base, st.records) && GoodSpend(seams, base, st.run, st.records, lossless)
    && GoodEnd(seams, base, st.run, st.records)
  }

  /** This call does not lose the save after a validation it executes. */
  predicate KeepsSpend(sched: Schedule, st: Stored) {
    OpportunityValidated in st.records || sched.at(OpportunityValidated) != SaveLost
  }

  lemma ValidateKeepsGood(seams: Seams, base: Run, lossless: bool, fault: Fault, st: Stored)
    requires Good(seams, base, lossless, st) && st.run.status != Done && OpportunityValidated !in st.records
    requires lossless ==> fault != SaveLost
    ensures var r := ExecuteValidate(seams, fault, st);
            Good(seams, base, lossless, r.0)
            && (r.1 == Continue ==>
                  OpportunityValidated in r.0.records && r.0.run.status != Done && VerdictOf(seams, base).verdict == Build)
  {
  }

  lemma CompleteKeepsGood(seams: Seams, base: Run, lossless: bool, fault: Fault, st: Stored, stage: Stage)
    requires Good(seams, base, lossless, st) && st.run.status != Done && stage !in st.records
    requires stage == SpecSynthesized || stage == PlanGenerated || stage == Admitted || stage == Approved
    requires stage == SpecSynthesized ==> OpportunityValidated in st.records && !Terminal(VerdictOf(seams, base).verdict)
    requires stage == PlanGenerated ==> SpecSynthesized in st.records
    requires stage == Admitted ==> PlanGenerated in st.records
    requires stage == Approved ==> Admitted in st.records && !AdmitOf(seams, base).requiresStrongAuth
    ensures var r := Complete(fault, st, stage, Canonical(seams, base, stage));
            Good(seams, base, lossless, r.0)
            && (r.1 == Continue ==> stage in r.0.records && r.0.run.status != Done)
  {
  }

  lemma PauseKeepsGood(seams: Seams, base: Run, lossless: bool, fault: Fault, st: Stored, stage: Stage)
    requires Good(seams, base, lossless, st)
    ensures Good(seams, base, lossless, Pause(fault, st, stage).0) && Pause(fault, st, stage).1 != Continue
  {
  }

  lemma StartKeepsGood(seams: Seams, base: Run, lossless: bool, fault: Fault, st: Stored)
    requires Good(seams, base, lossless, st) && st.run.status != Done && MissionStarted !in st.records
    ensures var r := ExecuteStart(seams, fault, st);
            Good(seams, base, lossless, r.0) && (r.1 == Continue ==> MissionStarted in r.0.records)
  {
    hide Canonical;
    CanonicalEnds(seams, base);
  }

  lemma CanonicalEnds(seams: Seams, base: Run)
    ensures Canonical(seams, base, Approved).output == ApproveArtifact(ApprovalOf(seams, base))
    ensures Canonical(seams, base, MissionStarted)
         == StageRecord(seams.digest([ApprovalOf(seams, base)]), MissionArtifact(MissionOf(seams, base)), 0.0)
  {
  }

  /** The four stages in the middle record the output their inputs determine. */
  lemma MiddleStageKeepsGood(seams: Seams, base: Run, lossless: bool, fault: Fault, st: Stored, stage: Stage)
    requires Good(seams, base, lossless, st) && st.run.status != Done && stage !in st.records
    requires !Terminal(VerdictOf(seams, base).verdict)
    requires (stage == SpecSynthesized && OpportunityValidated in st.records) || (stage == PlanGenerated && SpecSynthesized in st.records)
             || (stage == Admitted && PlanGenerated in st.records) || (stage == Approved && Admitted in st.records)
    ensures var r := Execute(seams, fault, st, stage);
            Good(seams, base, lossless, r.0)
            && (r.1 == Continue ==> stage in r.0.records && r.0.run.status != Done)
  {
    hide GoodSpend, GoodEnd;
    if stage == Approved && AdmitOf(seams, base).requiresStrongAuth {
      PauseKeepsGood(seams, base, lossless, fault, st, AwaitingStrongAuth);
    } else {
      CompleteKeepsGood(seams, base, lossless, fault, st, stage);
      if stage == Approved {
        PauseKeepsGood(seams, base, lossless, NoFault, st, AwaitingStrongAuth);
      }
    }
  }

  /** What one stage of a call needs and leaves. */
  lemma StageKeepsGood(seams: Seams, base: Run, lossless: bool, sched: Schedule, st: Stored, i: nat)
    requires 1 <= i <= 6 && Good(seams, base, lossless, st) && st.run.status != Done
    requires i > 1 ==> FORWARD[i - 1] in st.records && !Terminal(VerdictOf(seams, base).verdict)
    requires lossless ==> KeepsSpend(sched, st)
    ensures var r := RunStage(seams, sched, st, FORWARD[i]);
            Good(seams, base, lossless, r.0)
            && (r.1 == Continue ==> FORWARD[i] in r.0.records && !Terminal(VerdictOf(seams, base).verdict)
                                    && (i < 6 ==> r.0.run.status != Done))
  {
    hide GoodSpend, GoodEnd;
    var stage := FORWARD[i];
    if stage !in st.records {
      if i == 1 {
        ValidateKeepsGood(seams, base, lossless, sched.at(stage), st);
      } else if i == 6 {
        StartKeepsGood(seams, base, lossless, sched.at(stage), st);
      } else {
        MiddleStageKeepsGood(seams, base, lossless, sched.at(stage), st, stage);
      }
    }
  }

  lemma FinishKeepsGood(seams: Seams, base: Run, lossless: bool, sched: Schedule, st: Stored)
    requires Good(seams, base, lossless, st) && MissionStarted in st.records
    ensures Good(seams, base, lossless, FinishRun(sched, st))
  {
  }

  /** Records are write-once: they only grow. */
  ghost predicate Grows(before: map<Stage, StageRecord>, after: map<Stage, StageRecord>) {
    forall stage :: stage in before ==> stage in after && after[stage] == before[stage]
  }

  lemma ExecuteGrows(seams: Seams, fault: Fault, st: Stored, stage: Stage)
    ensures Grows(st.records, Execute(seams, fault, st, stage).0.records)
  {
  }

  lemma {:induction false} ResumeFromKeepsGood(seams: Seams, base: Run, lossless: bool, sched: Schedule, st: Stored,
                                               i: nat)
    requires 1 <= i <= 7 && Good(seams, base, lossless, st) && (i < 7 ==> st.run.status != Done)
    requires i > 1 ==> FORWARD[i - 1] in st.records && !Terminal(VerdictOf(seams, base).verdict)
    requires lossless ==> KeepsSpend(sched, st)
    ensures Good(seams, base, lossless, ResumeFrom(seams, sched, st, i))
    decreases 7 - i
  {
    hide Good, Execute;
    if i == 7 {
      FinishKeepsGood(seams, base, lossless, sched, st);
    } else {
      StageKeepsGood(seams, base, lossless, sched, st, i);
      ExecuteGrows(seams, sched.at(FORWARD[i]), st, FORWARD[i]);
      var r := RunStage(seams, sched, st, FORWARD[i]);
      if r.1 == Continue {
        ResumeFromKeepsGood(seams, base, lossless, sched, r.0, i + 1);
      }
    }
  }

  lemma ResumeKeepsGood(seams: Seams, base: Run, lossless: bool, sched: Schedule, st: Stored)
    requires Good(seams, base, lossless, st)
    requires lossless ==> KeepsSpend(sched, st)
    ensures Good(seams, base, lossless, Resume(seams, sched, st))
  {
    if st.run.status != Done {
      ResumeFromKeepsGood(seams, base, lossless, sched, st, 1);
    }
  }

  /** No call of the sequence loses the save of the validation it records. */
  ghost predicate Lossless(seams: Seams, scheds: seq<Schedule>, st: Stored)
  {
    forall k :: 0 <= k < |scheds| ==> KeepsSpend(scheds[k], ResumeAll(seams, scheds[..k], st))
  }

  lemma {:induction false} ResumeAllKeepsGood(seams: Seams, base: Run, lossless: bool, scheds: seq<Schedule>,
                                              st: Stored)
    requires Good(seams, base, lossless, st)
    requires lossless ==> Lossless(seams, scheds, st)
    ensures Good(seams, base, lossless, ResumeAll(seams, scheds, st))
  {
    hide Good, Resume;
    if scheds != [] {
      var n := |scheds| - 1;
      var head := scheds[..n];
      if lossless {
        forall k | 0 <= k < n ensures KeepsSpend(head[k], ResumeAll(seams, head[..k], st)) {
          assert head[..k] == scheds[..k] && head[k] == scheds[k];
        }
      }
      ResumeAllKeepsGood(seams, base, lossless, head, st);
      ResumeKeepsGood(seams, base, lossless, scheds[n], ResumeAll(seams, head, st));
    }
  }

  lemma FreshIsGood(seams: Seams, id: string, idea: string, budget: real)
    ensures var st := Fresh(seams, id, idea, budget); Good(seams, st.run, true, st) && Good(seams, st.run, false, st)
  {
  }
}
