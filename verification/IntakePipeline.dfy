/** The pipeline (internal/intake/pipeline.go, stages.go) stepping a run through the store. */
module IntakePipeline {
  import opened Options
  import opened Intake
  import opened IntakeStore
  import opened IntakeHistory

  /** Only the run `id` differs between two states of the store. */
  ghost predicate OnlyRunChanged(id: string, runs0: map<string, Run>, stages0: map<string, map<Stage, StageRecord>>,
                                 runs1: map<string, Run>, stages1: map<string, map<Stage, StageRecord>>)
  {
    runs1.Keys == runs0.Keys && stages1.Keys == stages0.Keys
    && (forall k :: k in runs0 && k != id ==> runs1[k] == runs0[k])
    && (forall k :: k in stages0 && k != id ==> stages1[k] == stages0[k])
  }

  lemma NothingChanged(id: string, runs: map<string, Run>, stages: map<string, map<Stage, StageRecord>>)
    ensures OnlyRunChanged(id, runs, stages, runs, stages)
  {
  }

  lemma StillOnlyRunChanged(id: string, runs0: map<string, Run>, stages0: map<string, map<Stage, StageRecord>>,
                            runs1: map<string, Run>, stages1: map<string, map<Stage, StageRecord>>,
                            runs2: map<string, Run>, stages2: map<string, map<Stage, StageRecord>>)
    requires OnlyRunChanged(id, runs0, stages0, runs1, stages1) && OnlyRunChanged(id, runs1, stages1, runs2, stages2)
    ensures OnlyRunChanged(id, runs0, stages0, runs2, stages2) && runs2.Keys == runs1.Keys
  {
  }

  function WithMission(run: Run, out: Artifact): Run {
    if out.MissionArtifact? then run.(mission := out.missionID) else run
  }

  lemma CompleteNeverStops(fault: Fault, st: Stored, stage: Stage, rec: StageRecord)
    ensures Complete(fault, st, stage, rec).1 != Stop
  {
  }

  lemma StartedMissionIsRecorded(seams: Seams, fault: Fault, st: Stored)
    requires MissionStarted !in st.records
    ensures var r := Execute(seams, fault, st, MissionStarted);
            r.1 == Continue ==>
              MissionStarted in r.0.records && r.0.records[MissionStarted].output == MissionArtifact(r.0.run.mission)
  {
  }

  /** The run in memory is the stored one with the recorded mission in it. */
  ghost predicate CarriesMission(run: Run, st: Stored) {
    MissionStarted in st.records && st.records[MissionStarted].output.MissionArtifact?
    && run == WithMission(st.run, st.records[MissionStarted].output)
  }

  lemma CarriesIdentity(run: Run, st: Stored)
    requires CarriesMission(run, st)
    ensures run.id == st.run.id
  {
  }

  lemma FinishSaves(sched: Schedule, run: Run, st: Stored)
    requires CarriesMission(run, st)
    ensures FinishRun(sched, st) == if sched.finalSaveLost then st else Stored(run.(stage := MissionStarted, status := Done), st.records)
  {
  }

  class Pipeline {
    const store: MemStore
    const seams: Seams

    constructor (store: MemStore, seams: Seams)
      ensures this.store == store && this.seams == seams
    {
      this.store, this.seams := store, seams;
    }

    /** Saves the run unless the write is lost. */
    method SaveRun(run: Run, lost: bool) returns (ok: bool)
      requires store.Valid() && run.id in store.runs
      modifies store`runs
      ensures store.Valid() && ok == !lost
      ensures OnlyRunChanged(run.id, old(store.runs), old(store.stages), store.runs, store.stages)
      ensures store.View(run.id) == Stored(if lost then old(store.runs)[run.id] else run, old(store.stages)[run.id])
    {
      if lost {
        ok := false;
      } else {
        ok := store.UpdateRun(run);
      }
    }

    /** Appends a stage record; the run itself is not saved yet. */
    method RecordOutput(run: Run, stage: Stage, rec: StageRecord)
      requires store.Valid() && run.id in store.runs
      modifies store`stages
      ensures store.Valid() && OnlyRunChanged(run.id, old(store.runs), old(store.stages), store.runs, store.stages)
      ensures store.View(run.id) == Stored(store.runs[run.id], Recorded(old(store.stages)[run.id], stage, rec))
    {
      var recorded := store.RecordStage(run.id, stage, rec);
    }

    /** Records a stage output and saves the advanced run: two writes, the second of which may be lost. */
    method CompleteStage(run: Run, fault: Fault, stage: Stage, rec: StageRecord) returns (out: Run, flow: Flow)
      requires store.Valid() && run.id in store.runs && store.runs[run.id] == run
      modifies store
      ensures store.Valid() && OnlyRunChanged(run.id, old(store.runs), old(store.stages), store.runs, store.stages)
      ensures (store.View(run.id), flow) == Complete(fault, old(store.View(run.id)), stage, rec)
      ensures flow == Continue ==> out == store.runs[run.id]
    {
      out := run;
      if fault == SeamError || fault == Asks {
        return out, Error;
      }
      RecordOutput(run, stage, rec);
      out := run.(stage := stage);
      var ok := SaveRun(out, fault == SaveLost);
      flow := if ok then Continue else Error;
    }

    method PauseRun(run: Run, fault: Fault, stage: Stage) returns (out: Run, flow: Flow)
      requires store.Valid() && run.id in store.runs && store.runs[run.id] == run
      modifies store
      ensures store.Valid() && OnlyRunChanged(run.id, old(store.runs), old(store.stages), store.runs, store.stages)
      ensures (store.View(run.id), flow) == Pause(fault, old(store.View(run.id)), stage)
      ensures flow != Continue && (flow == Stop ==> out == store.runs[run.id])
    {
      out := run.(stage := stage, status := Paused);
      var ok := SaveRun(out, fault == SaveLost);
      flow := if ok then Stop else Error;
    }

    method StageValidate(run: Run, fault: Fault) returns (out: Run, flow: Flow)
      requires store.Valid() && run.id in store.runs && store.runs[run.id] == run
      modifies store
      ensures store.Valid() && OnlyRunChanged(run.id, old(store.runs), old(store.stages), store.runs, store.stages)
      ensures (store.View(run.id), flow) == ExecuteValidate(seams, fault, old(store.View(run.id)))
      ensures flow != Error ==> out == store.runs[run.id]
    {
      hide OnlyRunChanged;
      out := run;
      NothingChanged(run.id, store.runs, store.stages);
      if !Admits(run.caps, run.spentUSD, run.caps.researchCapUSD) || fault == SeamError || fault == Asks {
        return out, Error;
      }
      var answer := seams.validate(run.id, run.idea, run.caps.researchCapUSD);
      out := out.(spentUSD := out.spentUSD + answer.spentUSD);
      RecordOutput(run, OpportunityValidated, ValidatedRecord(seams, run, answer));
      if answer.verdict.Unknown? {
        return out, Error;
      }
      if answer.verdict == Reject {
        out := out.(stage := OpportunityRejected, status := Done);
      } else if answer.verdict == ValidateMore {
        out := out.(stage := OpportunityValidationRequired, status := Done);
      } else {
        out := out.(stage := OpportunityValidated);
      }
      ghost var stages := store.stages;
      var ok := SaveRun(out, fault == SaveLost);
      StillOnlyRunChanged(run.id, old(store.runs), old(store.stages), old(store.runs), stages, store.runs, store.stages);
      flow := if !ok then Error else if answer.verdict == Build then Continue else Stop;
    }

    /** The recorded output of an earlier stage. */
    method LoadOutput(id: string, stage: Stage) returns (found: Option<Artifact>)
      requires store.Valid() && id in store.runs
      ensures found == if stage in store.stages[id] then Some(store.stages[id][stage].output) else None
    {
      var rec := store.GetStage(id, stage);
      found := if rec.value.Some? then Some(rec.value.value.output) else None;
    }

    method StageApprove(run: Run, fault: Fault) returns (out: Run, flow: Flow)
      requires store.Valid() && run.id in store.runs && store.runs[run.id] == run
      modifies store
      ensures store.Valid() && OnlyRunChanged(run.id, old(store.runs), old(store.stages), store.runs, store.stages)
      ensures (store.View(run.id), flow) == ExecuteApprove(seams, fault, old(store.View(run.id)))
      ensures flow != Error ==> out == store.runs[run.id]
    {
      out := run;
      var admitted := LoadOutput(run.id, Admitted);
      var planned := LoadOutput(run.id, PlanGenerated);
      if admitted.None? || !admitted.value.AdmitArtifact? || planned.None? || !planned.value.PlanArtifact? {
        return out, Error;
      }
      var admit, plan := admitted.value.admit, planned.value.plan;
      if admit.requiresStrongAuth {
        out, flow := PauseRun(run, fault, AwaitingStrongAuth);
      } else if fault == Asks {
        out, flow := PauseRun(run, NoFault, AwaitingStrongAuth);
      } else {
        var ref := seams.approve(run.id, plan.bytes, admit.tier);
        out, flow := CompleteStage(run, fault, Approved,
                                   StageRecord(seams.digest([plan.bytes, admit.tier]), ApproveArtifact(ref), 0.0));
      }
    }

    method StageStart(run: Run, fault: Fault) returns (out: Run, flow: Flow)
      requires store.Valid() && run.id in store.runs && store.runs[run.id] == run
      modifies store
      ensures store.Valid() && OnlyRunChanged(run.id, old(store.runs), old(store.stages), store.runs, store.stages)
      ensures (store.View(run.id), flow) == ExecuteStart(seams, fault, old(store.View(run.id)))
      ensures flow != Error ==> out == store.runs[run.id]
    {
      out := run;
      var approved := LoadOutput(run.id, Approved);
      if approved.None? || !approved.value.ApproveArtifact? || fault == SeamError {
        return out, Error;
      }
      var ref := approved.value.approvalRef;
      if fault == Asks {
        out, flow := PauseRun(run, NoFault, AwaitingReadiness);
        return;
      }
      var mission := seams.start(run.id, ref, run.caps.envelopeUSD);
      RecordOutput(run, MissionStarted, StageRecord(seams.digest([ref]), MissionArtifact(mission), 0.0));
      out := run.(mission := mission, stage := MissionStarted, status := Done);
      var ok := SaveRun(out, fault == SaveLost);
      flow := if ok then Continue else Error;
    }

    method StagePlan(run: Run, fault: Fault) returns (out: Run, flow: Flow)
      requires store.Valid() && run.id in store.runs && store.runs[run.id] == run
      modifies store
      ensures store.Valid() && OnlyRunChanged(run.id, old(store.runs), old(store.stages), store.runs, store.stages)
      ensures (store.View(run.id), flow) == ExecutePlan(seams, fault, old(store.View(run.id)))
      ensures flow == Continue ==> out == store.runs[run.id]
      ensures flow != Stop
    {
      var loaded := LoadOutput(run.id, SpecSynthesized);
      if loaded.None? || !loaded.value.SpecArtifact? {
        return run, Error;
      }
      var spec := loaded.value.spec;
      var plan := seams.generate(run.id, spec.spec, run.caps.envelopeUSD);
      out, flow := CompleteStage(run, fault, PlanGenerated, StageRecord(spec.digest, PlanArtifact(plan), 0.0));
    }

    method StageAdmit(run: Run, fault: Fault) returns (out: Run, flow: Flow)
      requires store.Valid() && run.id in store.runs && store.runs[run.id] == run
      modifies store
      ensures store.Valid() && OnlyRunChanged(run.id, old(store.runs), old(store.stages), store.runs, store.stages)
      ensures (store.View(run.id), flow) == ExecuteAdmit(seams, fault, old(store.View(run.id)))
      ensures flow == Continue ==> out == store.runs[run.id]
      ensures flow != Stop
    {
      var loaded := LoadOutput(run.id, PlanGenerated);
      if loaded.None? || !loaded.value.PlanArtifact? {
        return run, Error;
      }
      var plan := loaded.value.plan;
      var admit := seams.classify(run.id, plan.bytes);
      out, flow := CompleteStage(run, fault, Admitted, StageRecord(seams.digest([plan.bytes]), AdmitArtifact(admit), 0.0));
    }

    /** Executes a stage that has no record. */
    method ExecuteStage(run: Run, fault: Fault, stage: Stage) returns (out: Run, flow: Flow)
      requires store.Valid() && run.id in store.runs && store.runs[run.id] == run
      modifies store
      ensures store.Valid() && OnlyRunChanged(run.id, old(store.runs), old(store.stages), store.runs, store.stages)
      ensures (store.View(run.id), flow) == Execute(seams, fault, old(store.View(run.id)), stage)
      ensures flow != Error ==> out == store.runs[run.id]
    {
      hide ExecuteValidate, ExecutePlan, ExecuteAdmit, ExecuteApprove, ExecuteStart, Complete;
      match stage {
        case OpportunityValidated => out, flow := StageValidate(run, fault);
        case SpecSynthesized =>
          out, flow := CompleteStage(run, fault, SpecSynthesized,
            StageRecord(seams.digest([run.idea]), SpecArtifact(seams.synthesize(run.id, run.idea)), 0.0));
          CompleteNeverStops(fault, old(store.View(run.id)), SpecSynthesized,
            StageRecord(seams.digest([run.idea]), SpecArtifact(seams.synthesize(run.id, run.idea)), 0.0));
        case PlanGenerated => out, flow := StagePlan(run, fault);
        case Admitted => out, flow := StageAdmit(run, fault);
        case Approved => out, flow := StageApprove(run, fault);
        case MissionStarted => out, flow := StageStart(run, fault);
        case _ => out, flow := run, Error;
      }
    }

    /** Restores what a recorded stage did to the run in memory. */
    method ReplayStage(run: Run, stage: Stage, rec: StageRecord) returns (out: Run, flow: Flow)
      ensures flow == ReplayRecord(stage, rec.output)
      ensures out == if stage == MissionStarted then WithMission(run, rec.output) else run
    {
      out, flow := run, Continue;
      if stage == OpportunityValidated {
        if !rec.output.ValidatedArtifact? {
          flow := Error;
        } else if rec.output.validated.verdict == Reject || rec.output.validated.verdict == ValidateMore {
          flow := Stop;
        }
      } else if stage == MissionStarted {
        if !rec.output.MissionArtifact? {
          flow := Error;
        } else {
          out := run.(mission := rec.output.missionID);
        }
      }
    }

    /** Replays a recorded stage or executes one that is not. The run in memory stays the stored one, except
        that a replayed mission is restored into it. */
    method RunOneStage(run: Run, sched: Schedule, stage: Stage) returns (out: Run, flow: Flow)
      requires store.Valid() && run.id in store.runs && store.runs[run.id] == run
      modifies store
      ensures store.Valid() && OnlyRunChanged(run.id, old(store.runs), old(store.stages), store.runs, store.stages)
      ensures (store.View(run.id), flow) == RunStage(seams, sched, old(store.View(run.id)), stage)
      ensures flow == Stop || (flow == Continue && stage != MissionStarted) ==> out == store.runs[run.id]
      ensures flow == Continue && stage == MissionStarted ==> CarriesMission(out, store.View(run.id))
    {
      hide Execute;
      var rec := store.GetStage(run.id, stage);
      if rec.value.Some? {
        out, flow := ReplayStage(run, stage, rec.value.value);
      } else {
        out, flow := ExecuteStage(run, sched.at(stage), stage);
        if stage == MissionStarted {
          StartedMissionIsRecorded(seams, sched.at(stage), old(store.View(run.id)));
        }
      }
    }

    /** The loop over the forward stages, up to the first that does not continue. */
    method RunStages(run: Run, sched: Schedule) returns (out: Run, flow: Flow)
      requires store.Valid() && run.id in store.runs && store.runs[run.id] == run
      modifies store
      ensures store.Valid() && OnlyRunChanged(run.id, old(store.runs), old(store.stages), store.runs, store.stages)
      ensures run.id in store.runs
      ensures flow == Stop ==> out == store.runs[run.id]
      ensures flow == Continue ==> CarriesMission(out, store.View(run.id))
      ensures ResumeFrom(seams, sched, old(store.View(run.id)), 1)
              == if flow == Continue then FinishRun(sched, store.View(run.id)) else store.View(run.id)
    {
      hide RunStage, FinishRun, CarriesMission, OnlyRunChanged;
      NothingChanged(run.id, store.runs, store.stages);
      out, flow := run, Continue;
      var i := 1;
      while i < 7
        invariant 1 <= i <= 7 && store.Valid() && run.id in store.runs && flow == Continue
        invariant OnlyRunChanged(run.id, old(store.runs), old(store.stages), store.runs, store.stages)
        invariant ResumeFrom(seams, sched, store.View(run.id), i) == ResumeFrom(seams, sched, old(store.View(run.id)), 1)
        invariant if i < 7 then out == store.runs[run.id] else CarriesMission(out, store.View(run.id))
      {
        ghost var runs, stages := store.runs, store.stages;
        out, flow := RunOneStage(out, sched, FORWARD[i]);
        StillOnlyRunChanged(run.id, old(store.runs), old(store.stages), runs, stages, store.runs, store.stages);
        if flow != Continue {
          return;
        }
        i := i + 1;
      }
    }

    /** One Resume call: it leaves in the store exactly what the specification says and touches no other run;
        without an error the run it returns is the stored one. */
    method ResumeRun(id: string, sched: Schedule) returns (run: Option<Run>, ok: bool)
      requires store.Valid()
      modifies store
      ensures store.Valid() && OnlyRunChanged(id, old(store.runs), old(store.stages), store.runs, store.stages)
      ensures id !in old(store.runs) ==> !ok && run == None && store.runs == old(store.runs) && store.stages == old(store.stages)
      ensures id in old(store.runs) ==> id in store.runs && store.View(id) == Resume(seams, sched, old(store.View(id)))
      ensures ok ==> id in store.runs && run == Some(store.runs[id])
    {
      hide ResumeFrom, FinishRun, CarriesMission;
      run := store.GetRun(id);
      if run.None? {
        return None, false;
      }
      if run.value.status == Done {
        return run, true;
      }
      var current, flow := RunStages(run.value, sched);
      if flow != Continue {
        return Some(current), flow == Stop;
      }
      CarriesIdentity(current, store.View(id));
      FinishSaves(sched, current, store.View(id));
      current := current.(stage := MissionStarted, status := Done);
      ok := SaveRun(current, sched.finalSaveLost);
      run := Some(current);
    }

    /** The new run and its idea record, two writes: `lost` says that the second one fails. */
    method CreateFresh(id: string, idea: string, budget: real, lost: bool) returns (ok: bool)
      requires store.Valid()
      modifies store
      ensures store.Valid() && ok == (id !in old(store.runs) && !lost)
      ensures id in old(store.runs) ==> store.runs == old(store.runs) && store.stages == old(store.stages)
      ensures id !in old(store.runs) ==>
                id in store.runs
                && store.View(id) == (if lost then WithoutIdea(Fresh(seams, id, idea, budget)) else Fresh(seams, id, idea, budget))
                && store.runs == old(store.runs)[id := store.runs[id]] && store.stages == old(store.stages)[id := store.stages[id]]
    {
      ok := store.CreateRun(Run(id, idea, CapsFromBudget(budget), IdeaRecorded, Running, 0.0, ""));
      if ok {
        var digest := seams.digest([idea]);
        if lost {
          assert store.View(id).records == WithoutIdea(Fresh(seams, id, idea, budget)).records;
          return false;
        }
        var recorded := store.RecordStage(id, IdeaRecorded, StageRecord(digest, IdeaArtifact(digest), 0.0));
      }
    }

    /** Start: refuses an empty idea and a taken identifier; otherwise the stored run is what one call makes of a fresh
        one, or the fresh one without its idea record when that write is lost. */
    method StartRun(runID: string, minted: string, idea: string, budget: real, ideaLost: bool, sched: Schedule)
        returns (run: Option<Run>, ok: bool)
      requires store.Valid()
      modifies store
      ensures store.Valid()
      ensures var id := if runID == "" then minted else runID;
              var begun := Fresh(seams, id, idea, budget);
              if idea == "" || id in old(store.runs) then
                !ok && run == None && store.runs == old(store.runs) && store.stages == old(store.stages)
              else
                id in store.runs
                && store.View(id) == (if ideaLost then WithoutIdea(begun) else Resume(seams, sched, begun))
                && (ideaLost ==> !ok) && (ok ==> run == Some(store.runs[id]))
                && (forall k :: k in old(store.runs) ==> k in store.runs && store.View(k) == old(store.View(k)))
                && store.runs.Keys == old(store.runs).Keys + {id}
    {
      hide Resume, Fresh, WithoutIdea;
      var id := if runID == "" then minted else runID;
      if idea == "" {
        return None, false;
      }
      var created := CreateFresh(id, idea, budget, ideaLost);
      if !created {
        return None, false;
      }
      run, ok := ResumeRun(id, sched);
    }
  }
}
