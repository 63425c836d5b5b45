/** What the stage records promise even when the seams answer differently on every call. */
module IntakeHistory {
  import opened Intake
  import opened IntakeProofs

  datatype Call = Call(seams: Seams, sched: Schedule)

  /** Any number of Resume calls, each with its own seams. */
  function Calls(calls: seq<Call>, st: Stored): Stored {
    if calls == [] then st
    else
      var last := calls[|calls| - 1];
      Resume(last.seams, last.sched, Calls(calls[..|calls| - 1], st))
  }

  ghost predicate DemandsStrongAuth(records: map<Stage, StageRecord>) {
    Admitted in records && records[Admitted].output.AdmitArtifact? && records[Admitted].output.admit.requiresStrongAuth
  }

  ghost predicate InOrder(records: map<Stage, StageRecord>) {
    (forall stage :: stage in records ==> Forward(stage))
    && IdeaRecorded in records
    && (SpecSynthesized in records ==> OpportunityValidated in records)
    && (PlanGenerated in records ==> SpecSynthesized in records)
    && (Admitted in records ==> PlanGenerated in records)
    && (Approved in records ==> Admitted in records)
    && (MissionStarted in records ==> Approved in records)
  }

  ghost predicate Shape(st: Stored) {
    InOrder(st.records)
    && (DemandsStrongAuth(st.records) ==> Approved !in st.records)
    && (MissionStarted !in st.records ==> st.run.mission == "")
    && (st.run.status == Done ==> MissionStarted in st.records || SpecSynthesized !in st.records)
  }

  /** An execution adds at most its own record, approves nothing that demands strong authentication, and
      ends the run only with the verdict or the mission it recorded. */
  lemma ExecuteEffect(seams: Seams, fault: Fault, st: Stored, stage: Stage)
    requires Forward(stage) && stage !in st.records && st.run.status != Done
    ensures var r := Execute(seams, fault, st, stage);
            (r.0.records == st.records || (stage in r.0.records && r.0.records == st.records[stage := r.0.records[stage]]))
            && (r.1 == Continue ==> stage in r.0.records)
            && (stage == Approved && Approved in r.0.records ==> !DemandsStrongAuth(st.records))
            && (stage !in r.0.records ==> r.0.run.mission == st.run.mission)
            && (stage != MissionStarted ==> r.0.run.mission == st.run.mission)
            && (r.0.run.status == Done ==>
                  (stage == OpportunityValidated && r.1 == Stop) || (stage == MissionStarted && MissionStarted in r.0.records))
  {
  }

  lemma ExecuteKeepsShape(seams: Seams, fault: Fault, st: Stored, i: nat)
    requires 1 <= i <= 6 && Shape(st) && FORWARD[i - 1] in st.records && FORWARD[i] !in st.records
    requires st.run.status != Done
    ensures var r := Execute(seams, fault, st, FORWARD[i]);
            Shape(r.0) && (r.1 == Continue ==> FORWARD[i] in r.0.records && (i < 6 ==> r.0.run.status != Done))
  {
    hide Execute;
    ExecuteEffect(seams, fault, st, FORWARD[i]);
  }

  lemma FinishKeepsShape(sched: Schedule, st: Stored)
    requires Shape(st) && MissionStarted in st.records
    ensures Shape(FinishRun(sched, st)) && FinishRun(sched, st).records == st.records
  {
  }

  lemma {:induction false} ResumeFromKeepsShape(seams: Seams, sched: Schedule, st: Stored, i: nat)
    requires 1 <= i <= 7 && Shape(st) && FORWARD[i - 1] in st.records && (i < 7 ==> st.run.status != Done)
    ensures var r := ResumeFrom(seams, sched, st, i); Shape(r) && Grows(st.records, r.records)
    decreases 7 - i
  {
    hide Execute, Shape;
    if i == 7 {
      FinishKeepsShape(sched, st);
    } else {
      var r := RunStage(seams, sched, st, FORWARD[i]);
      if FORWARD[i] !in st.records {
        ExecuteKeepsShape(seams, sched.at(FORWARD[i]), st, i);
        ExecuteGrows(seams, sched.at(FORWARD[i]), st, FORWARD[i]);
      }
      if r.1 == Continue {
        ResumeFromKeepsShape(seams, sched, r.0, i + 1);
      }
    }
  }

  lemma ResumeKeepsShape(call: Call, st: Stored)
    requires Shape(st)
    ensures var r := Resume(call.seams, call.sched, st); Shape(r) && Grows(st.records, r.records)
  {
    hide ResumeFrom;
    if st.run.status != Done {
      assert FORWARD[0] == IdeaRecorded;
      ResumeFromKeepsShape(call.seams, call.sched, st, 1);
    }
  }

  lemma {:induction false} CallsKeepShape(calls: seq<Call>, st: Stored)
    requires Shape(st)
    ensures Shape(Calls(calls, st)) && Grows(st.records, Calls(calls, st).records)
  {
    hide Resume, Shape;
    if calls != [] {
      var n := |calls| - 1;
      CallsKeepShape(calls[..n], st);
      ResumeKeepsShape(calls[n], Calls(calls[..n], st));
    }
  }

  lemma {:induction false} CallsAppend(a: seq<Call>, b: seq<Call>, st: Stored)
    ensures Calls(a + b, st) == Calls(b, Calls(a, st))
  {
    hide Resume;
    if b == [] {
      assert a + b == a;
    } else {
      var n := |b| - 1;
      assert (a + b)[..|a + b| - 1] == a + b[..n] && (a + b)[|a + b| - 1] == b[n];
      CallsAppend(a, b[..n], st);
    }
  }

  lemma FreshHasShape(seams: Seams, id: string, idea: string, budget: real)
    ensures Shape(Fresh(seams, id, idea, budget))
  {
  }

  // ---- Over every sequence of calls ----

  ghost function FirstStages(n: nat): set<Stage>
    requires n <= 7
  {
    set k | 0 <= k < n :: FORWARD[k]
  }

  /** From a start that recorded its idea, the recorded stages are always a non-empty prefix of the forward order. */
  lemma RecordsAreAPrefix(seams: Seams, id: string, idea: string, budget: real, calls: seq<Call>)
    ensures exists n :: 1 <= n <= 7 && Calls(calls, Fresh(seams, id, idea, budget)).records.Keys == FirstStages(n)
  {
    hide Resume;
    FreshHasShape(seams, id, idea, budget);
    CallsKeepShape(calls, Fresh(seams, id, idea, budget));
    InOrderIsPrefix(Calls(calls, Fresh(seams, id, idea, budget)).records);
  }

  lemma InOrderIsPrefix(records: map<Stage, StageRecord>)
    requires InOrder(records)
    ensures exists n :: 1 <= n <= 7 && records.Keys == FirstStages(n)
  {
    var n := if MissionStarted in records then 7 else if Approved in records then 6 else if Admitted in records then 5
             else if PlanGenerated in records then 4 else if SpecSynthesized in records then 3
             else if OpportunityValidated in records then 2 else 1;
    var prefix := FirstStages(n);
    forall stage ensures stage in records.Keys <==> stage in prefix {
      if Forward(stage) {
        var at := Position(stage);
        assert FORWARD[at] == stage;
        assert forall k :: 0 <= k < n && FORWARD[k] == stage ==> k == at;
      }
    }
    assert records.Keys == prefix;
  }

  function Position(stage: Stage): (i: nat)
    requires Forward(stage)
    ensures i < 7 && FORWARD[i] == stage
  {
    match stage
    case IdeaRecorded => 0
    case OpportunityValidated => 1
    case SpecSynthesized => 2
    case PlanGenerated => 3
    case Admitted => 4
    case Approved => 5
    case MissionStarted => 6
  }

  /** A record once written is never changed or dropped, and a finished run never changes at all. */
  lemma RecordsAreWriteOnce(seams: Seams, id: string, idea: string, budget: real, calls: seq<Call>, more: seq<Call>)
    ensures var st := Calls(calls, Fresh(seams, id, idea, budget));
            var later := Calls(calls + more, Fresh(seams, id, idea, budget));
            Grows(st.records, later.records) && (st.run.status == Done ==> later == st)
  {
    hide Resume, Shape;
    var begun := Fresh(seams, id, idea, budget);
    FreshHasShape(seams, id, idea, budget);
    CallsKeepShape(calls, begun);
    CallsKeepShape(more, Calls(calls, begun));
    CallsAppend(calls, more, begun);
    if Calls(calls, begun).run.status == Done {
      DoneIsAbsorbing(more, Calls(calls, begun));
    }
  }

  lemma {:induction false} DoneIsAbsorbing(calls: seq<Call>, st: Stored)
    requires st.run.status == Done
    ensures Calls(calls, st) == st
  {
    if calls != [] {
      DoneIsAbsorbing(calls[..|calls| - 1], st);
    }
  }

  /** Once the admission on record demands strong authentication, no later call gains an approval,
      a mission or an end. */
  lemma StrongAuthNeverPasses(seams: Seams, id: string, idea: string, budget: real, calls: seq<Call>, more: seq<Call>)
    requires DemandsStrongAuth(Calls(calls, Fresh(seams, id, idea, budget)).records)
    ensures var later := Calls(calls + more, Fresh(seams, id, idea, budget));
            DemandsStrongAuth(later.records) && Approved !in later.records && MissionStarted !in later.records
            && later.run.mission == "" && later.run.status != Done
  {
    hide Resume;
    var begun := Fresh(seams, id, idea, budget);
    FreshHasShape(seams, id, idea, budget);
    CallsKeepShape(calls, begun);
    CallsKeepShape(more, Calls(calls, begun));
    CallsAppend(calls, more, begun);
  }

  // ---- A start that dies before it records the idea ----

  /** The run as Start leaves it when the idea's own record is not written. */
  function WithoutIdea(st: Stored): Stored {
    Stored(st.run, st.records - {IdeaRecorded})
  }

  lemma RecordedIgnoresIdea(records: map<Stage, StageRecord>, stage: Stage, rec: StageRecord)
    requires stage != IdeaRecorded
    ensures Recorded(records - {IdeaRecorded}, stage, rec) == Recorded(records, stage, rec) - {IdeaRecorded}
  {
    if stage !in records {
      assert (records - {IdeaRecorded})[stage := rec] == records[stage := rec] - {IdeaRecorded};
    }
  }

  lemma CompleteIgnoresIdea(fault: Fault, st: Stored, stage: Stage, rec: StageRecord)
    requires stage != IdeaRecorded
    ensures var r := Complete(fault, st, stage, rec); Complete(fault, WithoutIdea(st), stage, rec) == (WithoutIdea(r.0), r.1)
  {
    hide Recorded;
    RecordedIgnoresIdea(st.records, stage, rec);
  }

  lemma EndsIgnoreIdea(seams: Seams, fault: Fault, st: Stored)
    ensures var r := ExecuteValidate(seams, fault, st);
            ExecuteValidate(seams, fault, WithoutIdea(st)) == (WithoutIdea(r.0), r.1)
    ensures var r := ExecuteStart(seams, fault, st); ExecuteStart(seams, fault, WithoutIdea(st)) == (WithoutIdea(r.0), r.1)
  {
    hide Recorded;
    forall rec
      ensures Recorded(st.records - {IdeaRecorded}, OpportunityValidated, rec)
              == Recorded(st.records, OpportunityValidated, rec) - {IdeaRecorded}
      ensures Recorded(st.records - {IdeaRecorded}, MissionStarted, rec) == Recorded(st.records, MissionStarted, rec) - {IdeaRecorded}
    {
      RecordedIgnoresIdea(st.records, OpportunityValidated, rec);
      RecordedIgnoresIdea(st.records, MissionStarted, rec);
    }
  }

  lemma ExecuteIgnoresIdea(seams: Seams, fault: Fault, st: Stored, stage: Stage)
    requires stage != IdeaRecorded
    ensures var r := Execute(seams, fault, st, stage);
            Execute(seams, fault, WithoutIdea(st), stage) == (WithoutIdea(r.0), r.1)
  {
    hide Recorded, Complete, ExecuteValidate, ExecuteStart;
    EndsIgnoreIdea(seams, fault, st);
    forall rec
      ensures var r := Complete(fault, st, stage, rec); Complete(fault, WithoutIdea(st), stage, rec) == (WithoutIdea(r.0), r.1)
    {
      CompleteIgnoresIdea(fault, st, stage, rec);
    }
  }

  lemma {:induction false} ResumeFromIgnoresIdea(seams: Seams, sched: Schedule, st: Stored, i: nat)
    requires 1 <= i <= 7
    ensures ResumeFrom(seams, sched, WithoutIdea(st), i) == WithoutIdea(ResumeFrom(seams, sched, st, i))
    decreases 7 - i
  {
    hide Execute;
    if i < 7 {
      ExecuteIgnoresIdea(seams, sched.at(FORWARD[i]), st, FORWARD[i]);
      var r := RunStage(seams, sched, st, FORWARD[i]);
      assert RunStage(seams, sched, WithoutIdea(st), FORWARD[i]) == (WithoutIdea(r.0), r.1);
      if r.1 == Continue {
        ResumeFromIgnoresIdea(seams, sched, r.0, i + 1);
      }
    }
  }

  /** No stage ever reads the idea's record: a run that lost it goes through any calls exactly as one that has it, and
      never gains it. */
  lemma {:induction false} IdeaRecordIsNeverMissed(calls: seq<Call>, st: Stored)
    ensures Calls(calls, WithoutIdea(st)) == WithoutIdea(Calls(calls, st))
  {
    hide ResumeFrom;
    if calls != [] {
      var n := |calls| - 1;
      IdeaRecordIsNeverMissed(calls[..n], st);
      ResumeFromIgnoresIdea(calls[n].seams, calls[n].sched, Calls(calls[..n], st), 1);
    }
  }

  /** From a start that died before it recorded the idea, the recorded stages are a prefix of the forward order exactly
      as long as nothing is recorded at all: every later stage is recorded without the first. */
  lemma LostIdeaLeavesNoPrefix(seams: Seams, id: string, idea: string, budget: real, calls: seq<Call>)
    ensures var st := Calls(calls, WithoutIdea(Fresh(seams, id, idea, budget)));
            IdeaRecorded !in st.records
            && ((exists n :: 0 <= n <= 7 && st.records.Keys == FirstStages(n)) <==> st.records == map[])
  {
    hide Calls, Fresh;
    var st := Calls(calls, WithoutIdea(Fresh(seams, id, idea, budget)));
    IdeaRecordIsNeverMissed(calls, Fresh(seams, id, idea, budget));
    assert IdeaRecorded !in st.records;
    forall n | 1 <= n <= 7 ensures IdeaRecorded in FirstStages(n) {
      assert FORWARD[0] == IdeaRecorded;
    }
    assert FirstStages(0) == {};
    if st.records == map[] {
      assert st.records.Keys == FirstStages(0);
    }
  }
}
