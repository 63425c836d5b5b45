/** What every sequence of intake calls guarantees. */
module IntakeTheorems {
  import opened Intake
  import opened IntakeProofs
  import opened IntakeHistory

  // ---- One clean call settles a run, except where it cannot ----

  /** The validation's terminal verdict is on record but the run was never marked done. */
  predicate VerdictSaveLost(st: Stored) {
    st.run.status != Done && OpportunityValidated in st.records && Replay(st, OpportunityValidated) == Stop
  }

  /** Nothing but the seams' answers stands between the run and its mission. */
  predicate MissionAllowed(seams: Seams, base: Run) {
    !Terminal(VerdictOf(seams, base).verdict) && !AdmitOf(seams, base).requiresStrongAuth
  }

  /** A call with no faults completes the next stage. */
  lemma CleanStageContinues(seams: Seams, base: Run, st: Stored, i: nat)
    requires 1 <= i <= 6 && Good(seams, base, false, st) && base.caps.envelopeUSD > 0.0
    requires 0.0 <= base.caps.researchCapUSD <= base.caps.envelopeUSD
    requires i > 1 ==> FORWARD[i - 1] in st.records
    requires MissionAllowed(seams, base)
    requires i == 1 ==> VerdictOf(seams, base).verdict == Build || OpportunityValidated in st.records
    ensures RunStage(seams, CLEAN, st, FORWARD[i]).1 == Continue
  {
    hide GoodEnd;
  }

  lemma {:induction false} CleanFromFinishes(seams: Seams, base: Run, st: Stored, i: nat)
    requires 1 <= i <= 7 && Good(seams, base, false, st) && (i < 7 ==> st.run.status != Done)
    requires base.caps.envelopeUSD > 0.0 && 0.0 <= base.caps.researchCapUSD <= base.caps.envelopeUSD
    requires i > 1 ==> FORWARD[i - 1] in st.records
    requires MissionAllowed(seams, base)
    requires i == 1 ==> VerdictOf(seams, base).verdict == Build || OpportunityValidated in st.records
    ensures ResumeFrom(seams, CLEAN, st, i).run.status == Done
    decreases 7 - i
  {
    hide RunStage, GoodEnd, GoodSpend;
    if i < 7 {
      StageKeepsGood(seams, base, false, CLEAN, st, i);
      CleanStageContinues(seams, base, st, i);
      CleanFromFinishes(seams, base, RunStage(seams, CLEAN, st, FORWARD[i]).0, i + 1);
    }
  }

  /** A terminal verdict executed cleanly ends the run. */
  lemma CleanVerdictEnds(seams: Seams, base: Run, st: Stored)
    requires Good(seams, base, false, st) && st.run.status != Done && OpportunityValidated !in st.records
    requires base.caps.envelopeUSD > 0.0 && 0.0 <= base.caps.researchCapUSD <= base.caps.envelopeUSD
    requires Terminal(VerdictOf(seams, base).verdict)
    ensures Resume(seams, CLEAN, st).run.status == Done
  {
  }

  lemma UnknownVerdictStops(seams: Seams, base: Run, st: Stored)
    requires Good(seams, base, false, st) && st.run.status != Done && OpportunityValidated !in st.records
    requires VerdictOf(seams, base).verdict.Unknown?
    ensures Resume(seams, CLEAN, st).run == st.run
  {
  }

  lemma StuckVerdictStays(seams: Seams, sched: Schedule, st: Stored)
    requires VerdictSaveLost(st)
    ensures Resume(seams, sched, st) == st
  {
  }

  predicate Settles(seams: Seams, base: Run, st: Stored) {
    st.run.status == Done
    || (base.caps.envelopeUSD > 0.0 && !VerdictSaveLost(st)
        && (VerdictOf(seams, base).verdict.Unknown? ==> OpportunityValidated in st.records)
        && (Terminal(VerdictOf(seams, base).verdict) || !AdmitOf(seams, base).requiresStrongAuth))
  }

  lemma CleanSettles(seams: Seams, base: Run, st: Stored)
    requires Good(seams, base, false, st) && 0.0 <= base.caps.researchCapUSD <= base.caps.envelopeUSD
    ensures Resume(seams, CLEAN, st).run.status == Done <==> Settles(seams, base, st)
  {
    if st.run.status != Done {
      if Settles(seams, base, st) {
        if Terminal(VerdictOf(seams, base).verdict) {
          CleanVerdictEnds(seams, base, st);
        } else {
          CleanFromFinishes(seams, base, st, 1);
        }
      } else {
        CleanDoesNotSettle(seams, base, st);
      }
    }
  }

  lemma CleanDoesNotSettle(seams: Seams, base: Run, st: Stored)
    requires Good(seams, base, false, st) && st.run.status != Done && !Settles(seams, base, st)
    ensures Resume(seams, CLEAN, st).run.status != Done
  {
    hide Resume, Canonical;
    ResumeKeepsGood(seams, base, false, CLEAN, st);
    if VerdictSaveLost(st) {
      StuckVerdictStays(seams, CLEAN, st);
    } else if VerdictOf(seams, base).verdict.Unknown? && OpportunityValidated !in st.records {
      UnknownVerdictStops(seams, base, st);
    }
  }

  /** After any calls whatever, one call without faults ends the run exactly when there is an envelope,
      no terminal verdict lost its save, the verdict is known or already on record, and no strong
      authentication is demanded of a plan. */
  lemma OneCleanCallSettles(seams: Seams, id: string, idea: string, budget: real, scheds: seq<Schedule>)
    ensures var begun := Fresh(seams, id, idea, budget);
            var st := ResumeAll(seams, scheds, begun);
            Resume(seams, CLEAN, st).run.status == Done <==> Settles(seams, begun.run, st)
  {
    hide Resume, Good, Settles;
    var begun := Fresh(seams, id, idea, budget);
    FreshIsGood(seams, id, idea, budget);
    ResumeAllKeepsGood(seams, begun.run, false, scheds, begun);
    CleanSettles(seams, begun.run, ResumeAll(seams, scheds, begun));
  }

  // ---- Interrupted and resumed equals uninterrupted ----

  /** Two finished runs of the same idea have the same records, position and mission. */
  lemma FinishedIsDetermined(seams: Seams, base: Run, a: Stored, b: Stored)
    requires Good(seams, base, false, a) && Good(seams, base, false, b)
    requires a.run.status == Done && b.run.status == Done
    ensures a.records == b.records && b.run.(spentUSD := a.run.spentUSD) == a.run
  {
    hide Canonical, VerdictOf, AdmitOf, MissionOf;
    SameStages(seams, base, a, b);
  }

  lemma SameStages(seams: Seams, base: Run, a: Stored, b: Stored)
    requires Good(seams, base, false, a) && Good(seams, base, false, b)
    requires a.run.status == Done && b.run.status == Done
    ensures forall stage :: stage in a.records <==> stage in b.records
  {
  }

  /** Once the verdict is on record the spend never changes again. */
  lemma {:induction false} SpendFrozenFrom(seams: Seams, sched: Schedule, st: Stored, i: nat)
    requires 1 <= i <= 7 && OpportunityValidated in st.records
    ensures var r := ResumeFrom(seams, sched, st, i);
            r.run.spentUSD == st.run.spentUSD && OpportunityValidated in r.records
    decreases 7 - i
  {
    if i < 7 {
      var r := RunStage(seams, sched, st, FORWARD[i]);
      StageFreezesSpend(seams, sched, st, i);
      if r.1 == Continue {
        SpendFrozenFrom(seams, sched, r.0, i + 1);
      }
    }
  }

  lemma StageFreezesSpend(seams: Seams, sched: Schedule, st: Stored, i: nat)
    requires 1 <= i <= 6 && OpportunityValidated in st.records
    ensures var r := RunStage(seams, sched, st, FORWARD[i]);
            r.0.run.spentUSD == st.run.spentUSD && OpportunityValidated in r.0.records
  {
  }

  lemma {:induction false} SpendFrozen(seams: Seams, scheds: seq<Schedule>, k: nat, st: Stored)
    requires k <= |scheds| && OpportunityValidated in ResumeAll(seams, scheds[..k], st).records
    ensures ResumeAll(seams, scheds, st).run.spentUSD == ResumeAll(seams, scheds[..k], st).run.spentUSD
  {
    SpendFrozenAll(seams, scheds[k..], ResumeAll(seams, scheds[..k], st));
    ResumeAllAppends(seams, scheds[..k], scheds[k..], st);
    assert scheds[..k] + scheds[k..] == scheds;
  }

  lemma {:induction false} ResumeAllAppends(seams: Seams, a: seq<Schedule>, b: seq<Schedule>, st: Stored)
    ensures ResumeAll(seams, a + b, st) == ResumeAll(seams, b, ResumeAll(seams, a, st))
  {
    hide Resume;
    if b == [] {
      assert a + b == a;
    } else {
      var n := |b| - 1;
      assert (a + b)[..|a + b| - 1] == a + b[..n];
      assert (a + b)[|a + b| - 1] == b[n];
      ResumeAllAppends(seams, a, b[..n], st);
    }
  }

  lemma {:induction false} SpendFrozenAll(seams: Seams, scheds: seq<Schedule>, st: Stored)
    requires OpportunityValidated in st.records
    ensures var r := ResumeAll(seams, scheds, st);
            r.run.spentUSD == st.run.spentUSD && OpportunityValidated in r.records
  {
    if scheds != [] {
      var n := |scheds| - 1;
      SpendFrozenAll(seams, scheds[..n], st);
      SpendFrozenFrom(seams, scheds[n], ResumeAll(seams, scheds[..n], st), 1);
    }
  }

  /** A lost validation save leaves the verdict on record and the spend at zero. */
  lemma LostSaveLosesSpend(seams: Seams, base: Run, sched: Schedule, st: Stored)
    requires Good(seams, base, false, st) && !KeepsSpend(sched, st) && base.caps.envelopeUSD > 0.0
    requires 0.0 <= base.caps.researchCapUSD <= base.caps.envelopeUSD
    ensures var r := Resume(seams, sched, st); OpportunityValidated in r.records && r.run.spentUSD == 0.0
  {
  }

  /** The spend of a finished run is the verdict's if the verdict is a known one and no validation save was lost, and zero
      otherwise. */
  lemma SpendIsKeptIff(seams: Seams, id: string, idea: string, budget: real, scheds: seq<Schedule>)
    requires ResumeAll(seams, scheds, Fresh(seams, id, idea, budget)).run.status == Done
    ensures var begun := Fresh(seams, id, idea, budget);
            var v := VerdictOf(seams, begun.run);
            ResumeAll(seams, scheds, begun).run.spentUSD
            == (if !v.verdict.Unknown? && Lossless(seams, scheds, begun) then v.spentUSD else 0.0)
  {
    hide Resume, Canonical, VerdictOf, AdmitOf, MissionOf;
    var begun := Fresh(seams, id, idea, budget);
    FreshIsGood(seams, id, idea, budget);
    ResumeAllKeepsGood(seams, begun.run, false, scheds, begun);
    if Lossless(seams, scheds, begun) {
      ResumeAllKeepsGood(seams, begun.run, true, scheds, begun);
    } else {
      var k :| 0 <= k < |scheds| && !KeepsSpend(scheds[k], ResumeAll(seams, scheds[..k], begun));
      SpendStaysLost(seams, begun.run, scheds, k, begun);
    }
  }

  lemma SpendStaysLost(seams: Seams, base: Run, scheds: seq<Schedule>, k: nat, begun: Stored)
    requires Good(seams, base, false, begun) && base.caps.envelopeUSD > 0.0
    requires 0.0 <= base.caps.researchCapUSD <= base.caps.envelopeUSD
    requires k < |scheds| && !KeepsSpend(scheds[k], ResumeAll(seams, scheds[..k], begun))
    ensures ResumeAll(seams, scheds, begun).run.spentUSD == 0.0
  {
    hide Resume, Good;
    assert scheds[..k + 1][..k] == scheds[..k];
    ResumeAllKeepsGood(seams, base, false, scheds[..k], begun);
    LostSaveLosesSpend(seams, base, scheds[k], ResumeAll(seams, scheds[..k], begun));
    SpendFrozen(seams, scheds, k + 1, begun);
  }

  /** Any schedule of failures and resumes that finishes leaves the records, the position, the status and
      the mission of one uninterrupted call exactly when the verdict is a known one, and its spend too
      exactly when, besides, no validation save was lost or the validation cost nothing. */
  lemma ResumedEqualsUninterrupted(seams: Seams, id: string, idea: string, budget: real, scheds: seq<Schedule>)
    requires ResumeAll(seams, scheds, Fresh(seams, id, idea, budget)).run.status == Done
    ensures var begun := Fresh(seams, id, idea, budget);
            var v := VerdictOf(seams, begun.run);
            var end := ResumeAll(seams, scheds, begun);
            var once := Resume(seams, CLEAN, begun);
            ((end.records == once.records && end.run.(spentUSD := once.run.spentUSD) == once.run) <==> !v.verdict.Unknown?)
            && (end == once <==> !v.verdict.Unknown? && (Lossless(seams, scheds, begun) || v.spentUSD == 0.0))
  {
    hide Resume, Good, VerdictOf, AdmitOf, Lossless;
    var begun := Fresh(seams, id, idea, budget);
    var end := ResumeAll(seams, scheds, begun);
    var once := Resume(seams, CLEAN, begun);
    FreshIsGood(seams, id, idea, budget);
    ResumeAllKeepsGood(seams, begun.run, false, scheds, begun);
    FinishedShows(seams, begun.run, end);
    CleanSettles(seams, begun.run, begun);
    if !VerdictOf(seams, begun.run).verdict.Unknown? {
      ResumeKeepsGood(seams, begun.run, false, CLEAN, begun);
      FinishedIsDetermined(seams, begun.run, end, once);
      SpendIsKeptIff(seams, id, idea, budget, scheds);
      CleanSpend(seams, begun.run, begun, once);
    }
  }

  lemma FinishedShows(seams: Seams, base: Run, end: Stored)
    requires Good(seams, base, false, end) && end.run.status == Done
    ensures base.caps.envelopeUSD > 0.0
    ensures Terminal(VerdictOf(seams, base).verdict) || !AdmitOf(seams, base).requiresStrongAuth
  {
    hide Canonical, VerdictOf, AdmitOf, MissionOf;
  }

  lemma CleanSpend(seams: Seams, base: Run, begun: Stored, once: Stored)
    requires Good(seams, base, true, begun) && once == Resume(seams, CLEAN, begun) && once.run.status == Done
    requires !VerdictOf(seams, base).verdict.Unknown?
    ensures once.run.spentUSD == VerdictOf(seams, base).spentUSD
  {
    hide Resume, Canonical, VerdictOf, AdmitOf, MissionOf;
    ResumeKeepsGood(seams, base, true, CLEAN, begun);
  }

  lemma {:induction false} ResumeAllIgnoresIdea(seams: Seams, scheds: seq<Schedule>, st: Stored)
    ensures ResumeAll(seams, scheds, WithoutIdea(st)) == WithoutIdea(ResumeAll(seams, scheds, st))
  {
    hide ResumeFrom;
    if scheds != [] {
      var n := |scheds| - 1;
      ResumeAllIgnoresIdea(seams, scheds[..n], st);
      ResumeFromIgnoresIdea(seams, scheds[n], ResumeAll(seams, scheds[..n], st), 1);
    }
  }

  /** A start that died before recording the idea, resumed to its end: never the uninterrupted run, because the idea's
      record is missing for good, and it lacks nothing else exactly where an interrupted run with it would equal it. */
  lemma ResumedWithoutIdea(seams: Seams, id: string, idea: string, budget: real, scheds: seq<Schedule>)
    requires ResumeAll(seams, scheds, WithoutIdea(Fresh(seams, id, idea, budget))).run.status == Done
    ensures var begun := Fresh(seams, id, idea, budget);
            var v := VerdictOf(seams, begun.run);
            var end := ResumeAll(seams, scheds, WithoutIdea(begun));
            var once := Resume(seams, CLEAN, begun);
            end.records != once.records
            && ((end.records == once.records - {IdeaRecorded} && end.run.(spentUSD := once.run.spentUSD) == once.run)
                <==> !v.verdict.Unknown?)
            && (end == WithoutIdea(once) <==> !v.verdict.Unknown? && (Lossless(seams, scheds, begun) || v.spentUSD == 0.0))
  {
    hide Resume, Fresh, VerdictOf, Lossless, ResumeAll;
    var begun := Fresh(seams, id, idea, budget);
    ResumeAllIgnoresIdea(seams, scheds, begun);
    ResumedEqualsUninterrupted(seams, id, idea, budget, scheds);
    IdeaIsRecorded(seams, id, idea, budget, scheds);
    SameButIdea(ResumeAll(seams, scheds, begun).records, Resume(seams, CLEAN, begun).records);
  }

  /** Runs that begin with the idea's record keep it, and it is the same one. */
  lemma IdeaIsRecorded(seams: Seams, id: string, idea: string, budget: real, scheds: seq<Schedule>)
    ensures var begun := Fresh(seams, id, idea, budget);
            var end, once := ResumeAll(seams, scheds, begun), Resume(seams, CLEAN, begun);
            IdeaRecorded in end.records && IdeaRecorded in once.records
            && end.records[IdeaRecorded] == once.records[IdeaRecorded]
  {
    hide Resume, Canonical, GoodEnd, GoodSpend;
    var begun := Fresh(seams, id, idea, budget);
    FreshIsGood(seams, id, idea, budget);
    ResumeAllKeepsGood(seams, begun.run, false, scheds, begun);
    ResumeKeepsGood(seams, begun.run, false, CLEAN, begun);
  }

  lemma SameButIdea(a: map<Stage, StageRecord>, b: map<Stage, StageRecord>)
    requires IdeaRecorded in a && IdeaRecorded in b && a[IdeaRecorded] == b[IdeaRecorded]
    ensures a - {IdeaRecorded} == b - {IdeaRecorded} <==> a == b
    ensures a - {IdeaRecorded} != b
  {
    if a - {IdeaRecorded} == b - {IdeaRecorded} {
      assert a == (a - {IdeaRecorded})[IdeaRecorded := a[IdeaRecorded]];
      assert b == (b - {IdeaRecorded})[IdeaRecorded := b[IdeaRecorded]];
    }
  }

  /** An unrecognised verdict stops the first call, and the second call walks past it to a mission. */
  lemma UnknownVerdictSlipsThrough(seams: Seams, id: string, idea: string, budget: real)
    requires budget > 0.0 && VerdictOf(seams, Fresh(seams, id, idea, budget).run).verdict.Unknown?
    requires !AdmitOf(seams, Fresh(seams, id, idea, budget).run).requiresStrongAuth
    ensures var begun := Fresh(seams, id, idea, budget);
            var first := Resume(seams, CLEAN, begun);
            var second := Resume(seams, CLEAN, first);
            first.run == begun.run && second.run.status == Done
            && MissionStarted in second.records && second.run.spentUSD == 0.0
  {
    hide Resume, VerdictOf, AdmitOf, MissionOf;
    var begun := Fresh(seams, id, idea, budget);
    var first := Resume(seams, CLEAN, begun);
    FreshIsGood(seams, id, idea, budget);
    UnknownVerdictStops(seams, begun.run, begun);
    UnknownVerdictIsRecorded(seams, begun.run, begun);
    ResumeKeepsGood(seams, begun.run, false, CLEAN, begun);
    CleanSettles(seams, begun.run, first);
    ResumeKeepsGood(seams, begun.run, false, CLEAN, first);
  }

  lemma UnknownVerdictIsRecorded(seams: Seams, base: Run, st: Stored)
    requires Good(seams, base, false, st) && st.run.status != Done && OpportunityValidated !in st.records
    requires VerdictOf(seams, base).verdict.Unknown? && base.caps.envelopeUSD > 0.0
    requires 0.0 <= base.caps.researchCapUSD <= base.caps.envelopeUSD
    ensures OpportunityValidated in Resume(seams, CLEAN, st).records
  {
  }

  /** Without an envelope no call ever gets past the idea. */
  lemma {:induction false} NoEnvelopeNothingHappens(seams: Seams, id: string, idea: string, budget: real,
                                                    scheds: seq<Schedule>)
    requires budget <= 0.0
    ensures ResumeAll(seams, scheds, Fresh(seams, id, idea, budget)) == Fresh(seams, id, idea, budget)
  {
    if scheds != [] {
      NoEnvelopeNothingHappens(seams, id, idea, budget, scheds[..|scheds| - 1]);
      assert FORWARD[1] == OpportunityValidated;
    }
  }
}
