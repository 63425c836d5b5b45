/** Exactly which switches the log will ever report. */
module ActivationHidden {
  import opened Options
  import opened Packages
  import opened Budget
  import opened Skills
  import opened RecordLog
  import opened VersionStore
  import opened Activation
  import opened ActivationLocks
  import opened ActivationSafety
  import opened ActivationSteps
  import opened ActivationTheorems
  import opened ActivationReports

  function PlanIdentity(plan: Plan): Identity {
    Identity(plan.action, plan.skill, plan.to)
  }

  function SwitchIdentity(w: Switch): Identity {
    Identity(w.action, w.skill, w.to)
  }

  /** The operation has switched and has not written its commit row. */
  predicate OnItsWay(s: State) {
    s.op.Some? && (s.op.value.pc.Publishing? || s.op.value.pc.Committing?)
  }

  /** The operation that switched to `id` has not written its commit row yet. */
  predicate CommitPending(s: State, id: Identity) {
    OnItsWay(s) && PlanIdentity(s.op.value.plan) == id
  }

  // ---- Recovery reports a switch exactly when no abort stands alone for it ----

  /** In a valid log an activation's identity is settled by commits and aborts only. */
  lemma SettledIsReportedOrAborted(log: seq<Record>, id: Identity)
    requires AllValid(log) && id.action != EvaluateOnly
    ensures Settled(log, id) <==> Reported(log, id) || AbortedBefore(log, id)
  {
    if Settled(log, id) {
      var k :| 0 <= k < |log| && log[k].state != Prepared && IdentityOf(log[k]) == id;
      assert ValidRecord(log[k]);
    }
  }

  lemma PreparedIdentity(log: seq<Record>, w: Switch)
    requires AllValid(log) && PreparedFor(log, w)
    ensures w.action != EvaluateOnly
  {
    var j :| 0 <= j < |log| && log[j].state == Prepared && IdentityOf(log[j]) == SwitchIdentity(w);
    assert ValidRecord(log[j]);
  }

  lemma ReportedStays(log: seq<Record>, longer: seq<Record>, id: Identity)
    requires Extends(log, longer)
    ensures Reported(log, id) ==> Reported(longer, id)
    ensures AbortedBefore(log, id) ==> AbortedBefore(longer, id)
  {
    assert forall i :: 0 <= i < |log| ==> longer[i] == log[i];
  }

  /** Recovery adds no row for an identity that is settled. */
  lemma RecoveryLeavesSettledAlone(log: seq<Record>, pins: map<string, Pin>, now: int, id: Identity)
    requires Contiguous(log) && AllValid(log) && Settled(log, id)
    ensures Reported(Reconciled(log, pins, now), id) <==> Reported(log, id)
  {
    hide ValidRecord, Reconciled;
    ReconcileSettlesEverything(log, pins, now);
    var r := Reconciled(log, pins, now);
    ReportedStays(log, r, id);
    if Reported(r, id) {
      var i :| 0 <= i < |r| && ClaimsCommit(r[i]) && IdentityOf(r[i]) == id;
      if i < |log| {
        assert r[i] == log[i];
      } else {
        assert SettlesOpenRow(log, pins, r[i]);
      }
    }
  }

  /** An unsettled switch is the open row, and recovery reports it. */
  lemma RecoveryReportsOpenSwitch(env: Env, steps: seq<Step>, i: nat, now: int)
    requires i < |Run(env, steps).switches|
    requires !Settled(Run(env, steps).records, SwitchIdentity(Run(env, steps).switches[i]))
    ensures var s := Run(env, steps); Reported(Reconciled(s.records, s.pins, now), SwitchIdentity(s.switches[i]))
  {
    hide Run, Reconciled, Extends, NothingOpen;
    var s := Run(env, steps);
    var w, r := s.switches[i], Reconciled(s.records, s.pins, now);
    ReportsAlwaysHold(env, steps);
    assert PreparedFor(s.records, w);
    var j :| 0 <= j < |s.records| && s.records[j].state == Prepared && IdentityOf(s.records[j]) == SwitchIdentity(w);
    assert OpenAt(s.records, j);
    AtMostOneRowIsOpen(env, steps, j);
    SwitchFacts(env, steps, i);
    ReconciliationTellsTheTruth(env, steps, now);
    RecoveryAddsRow(env, s, now);
    assert SwitchedTo(s.switches, SwitchIdentity(w));
    assert ClaimsCommit(r[|r| - 1]) && IdentityOf(r[|r| - 1]) == SwitchIdentity(w);
  }

  lemma RecoveryAddsRow(env: Env, s: State, now: int)
    requires s.records != [] && OpenAt(s.records, |s.records| - 1) && OnlyLastOpen(s.records)
    ensures |Reconciled(s.records, s.pins, now)| > |s.records|
  {
    hide Reconciled;
    ReconcileWritesAtMostOne(s.records, s.pins, now);
  }

  /** For every reachable state and every switch made so far: recovery reports it exactly when the log already does, or
      holds no abort for its identity. */
  lemma RecoveryReportsSwitchIff(env: Env, steps: seq<Step>, i: nat, now: int)
    requires i < |Run(env, steps).switches|
    ensures var s := Run(env, steps);
            var id := SwitchIdentity(s.switches[i]);
            Reported(Reconciled(s.records, s.pins, now), id) <==> Reported(s.records, id) || !AbortedBefore(s.records, id)
  {
    hide Run, Reconciled, Reported, AbortedBefore, Settled;
    var s := Run(env, steps);
    var id := SwitchIdentity(s.switches[i]);
    SwitchFacts(env, steps, i);
    SettledIsReportedOrAborted(s.records, id);
    if Settled(s.records, id) {
      RecoveryLeavesSettledAlone(s.records, s.pins, now, id);
    } else {
      RecoveryReportsOpenSwitch(env, steps, i, now);
    }
  }

  lemma SwitchFacts(env: Env, steps: seq<Step>, i: nat)
    requires i < |Run(env, steps).switches|
    ensures var s := Run(env, steps);
            Contiguous(s.records) && AllValid(s.records) && OnlyLastOpen(s.records)
            && s.switches[i].action != EvaluateOnly && SwitchedTo(s.switches, SwitchIdentity(s.switches[i]))
  {
    hide Run, ValidRecord;
    var s := Run(env, steps);
    ReportsAlwaysHold(env, steps);
    AlwaysHolds(env, steps);
    InvLog(env, s);
    PreparedIdentity(s.records, s.switches[i]);
  }

  // ---- A hidden switch stays hidden ----

  /** `id` was switched to, an abort settles it, nothing reports it and no commit row is on its way. */
  ghost predicate Hidden(s: State, id: Identity) {
    SwitchedTo(s.switches, id) && Settled(s.records, id) && !Reported(s.records, id) && !CommitPending(s, id)
  }

  /** The rows `t` adds to `s` claim no commit of `id`. */
  ghost predicate NoNewClaim(s: State, t: State, id: Identity) {
    forall j :: |s.records| <= j < |t.records| ==> !(ClaimsCommit(t.records[j]) && IdentityOf(t.records[j]) == id)
  }

  lemma StaysHidden(s: State, t: State, id: Identity)
    requires Hidden(s, id) && DurablyGrows(s, t) && NoNewClaim(s, t, id) && !CommitPending(t, id)
    ensures Hidden(t, id)
  {
    hide Grows, CommitPending;
    SettledIsStable(s.records, t.records, id);
    var i :| 0 <= i < |s.switches| && SwitchIdentity(s.switches[i]) == id;
    assert t.switches[i] == s.switches[i];
    assert forall j :: 0 <= j < |s.records| ==> t.records[j] == s.records[j];
  }

  lemma ReconcileClaimsNothingSettled(env: Env, s: State, op: Op, id: Identity)
    requires Inv(env, s) && Settled(s.records, id)
    ensures NoNewClaim(s, DoReconcile(s, op), id)
  {
    hide Inv, Reconciled, ValidRecord, Settled;
    InvLog(env, s);
    ReconcileSettlesEverything(s.records, s.pins, s.now);
    var r := Reconciled(s.records, s.pins, s.now);
    forall j | |s.records| <= j < |r| ensures IdentityOf(r[j]) != id {
      assert SettlesOpenRow(s.records, s.pins, r[j]);
    }
  }

  lemma DecideStaysHidden(env: Env, s: State, id: Identity)
    requires Inv(env, s) && Hidden(s, id) && s.op.Some? && Deciding(s.op.value.pc)
    ensures var t := Decide(env, s, s.op.value); NoNewClaim(s, t, id) && !CommitPending(t, id)
  {
    hide Inv, DoCheckPromote, DoCheckRollback, DoReserve, Reconciled, SwitchedTo, Settled, Reported;
    var op := s.op.value;
    DecideFrame(env, s, op);
    if op.pc == Reconciling {
      ReconcileClaimsNothingSettled(env, s, op, id);
    } else if op.pc == Checking {
      if op.request.PromoteRequest? {
        CheckPromoteEffect(env, s, op);
      } else {
        CheckRollbackEffect(s, op);
      }
    } else if op.pc == Reserving {
      ReserveEffect(env, s, op);
    }
  }

  lemma RefuseStaysHidden(s: State, id: Identity)
    requires s.op.Some? && Refusing(s.op.value.pc)
    ensures var t := Refuse(s, s.op.value); NoNewClaim(s, t, id) && !CommitPending(t, id)
  {
    hide ValidRecord, MirrorDurable, MetadataOf;
    RefuseFrame(s, s.op.value);
  }

  lemma WritingRows(s: State, op: Op)
    requires s.op == Some(op) && Writing(op.pc)
    ensures var t := Activate(s, op);
            t.records == s.records && !OnItsWay(t)
  {
    hide DoWriteContent, DoWriteMetadata;
    var plan := op.plan;
    if op.pc == WritingBaseContent {
      WriteEffect(s, op, plan.base, 1, WritingBaseMetadata);
    } else if op.pc == WritingBaseMetadata {
      WriteEffect(s, op, plan.base, 1, WritingContent);
    } else if op.pc == WritingContent {
      WriteEffect(s, op, plan.body, plan.to, WritingMetadata);
    } else {
      WriteEffect(s, op, plan.body, plan.to, Preparing);
    }
  }

  /** Storing a file writes no row and leads to the next point or to the end. */
  lemma WriteEffect(s: State, op: Op, v: SkillVersion, n: int, next: PC)
    requires !next.Publishing? && !next.Committing?
    ensures var t := DoWriteContent(s, op, v, n, next); t.records == s.records && !OnItsWay(t)
    ensures var t := DoWriteMetadata(s, op, v, n, next); t.records == s.records && !OnItsWay(t)
  {
    hide WriteContent, WriteMetadata, MetadataOf, Goto, Finish, OnItsWay;
    FinishEffect(s);
    forall o ensures Goto(s.(objects := o), op, next).records == s.records && !OnItsWay(Goto(s.(objects := o), op, next)) {
      GotoEffect(s.(objects := o), op, next);
    }
  }

  lemma GotoEffect(s: State, op: Op, next: PC)
    requires !next.Publishing? && !next.Committing?
    ensures Goto(s, op, next).records == s.records && !OnItsWay(Goto(s, op, next))
  {
  }

  lemma FinishEffect(s: State)
    ensures Finish(s).records == s.records && !OnItsWay(Finish(s))
  {
  }

  lemma PrepareEffect(s: State, op: Op)
    ensures DoPrepare(s, op).records == Appended(s.records, PlanRecord(op.plan, Prepared, s.now))
    ensures !OnItsWay(DoPrepare(s, op))
  {
    hide Appended, PlanRecord;
  }

  lemma SwitchEffect(s: State, op: Op)
    ensures DoSwitch(s, op).records == s.records
    ensures OnItsWay(DoSwitch(s, op)) ==> DoSwitch(s, op).op.value.plan == op.plan
  {
    hide PlanPin;
  }

  lemma PublishEffect(s: State, op: Op)
    ensures DoPublish(s, op).records == s.records && DoPublish(s, op).op == Some(op.(pc := Committing))
  {
    hide History, Renumbered;
  }

  lemma CommitEffect(s: State, op: Op)
    ensures DoCommit(s, op).records == Appended(s.records, PlanRecord(op.plan, Committed, s.now))
    ensures !OnItsWay(DoCommit(s, op))
  {
    hide Appended, PlanRecord;
  }

  /** The rows the late actions write, and where they put an operation on its way to its commit row. */
  lemma LateRows(s: State, op: Op)
    requires s.op == Some(op) && !Deciding(op.pc) && !Refusing(op.pc) && !Writing(op.pc)
    ensures var t := Activate(s, op);
            (t.records == s.records
             || (op.pc == Preparing && t.records == Appended(s.records, PlanRecord(op.plan, Prepared, s.now)))
             || (op.pc == Committing && t.records == Appended(s.records, PlanRecord(op.plan, Committed, s.now))))
            && (OnItsWay(t) ==> t.op.value.plan == op.plan && (op.pc.Switching? || op.pc.Publishing?))
  {
    hide DoWriteContent, DoWriteMetadata, DoPrepare, DoSwitch, DoPublish, DoCommit, Finish, Appended, PlanRecord;
    PrepareEffect(s, op);
    SwitchEffect(s, op);
    PublishEffect(s, op);
    CommitEffect(s, op);
    FinishEffect(s);
  }

  lemma ActivateStaysHidden(env: Env, s: State, id: Identity)
    requires Inv(env, s) && Hidden(s, id) && s.op.Some? && !Deciding(s.op.value.pc) && !Refusing(s.op.value.pc)
    ensures var t := Activate(s, s.op.value); NoNewClaim(s, t, id) && !CommitPending(t, id)
  {
    hide Inv, Activate, PlanPin, SwitchedTo, Settled, Reported;
    if Writing(s.op.value.pc) {
      WritingRows(s, s.op.value);
    } else {
      LateRows(s, s.op.value);
    }
    if s.op.value.pc == Switching {
      SwitchesAnew(env, s, s.op.value);
    }
  }

  /** The version an operation is about to switch to has never been switched to. */
  lemma SwitchesAnew(env: Env, s: State, op: Op)
    requires Inv(env, s) && s.op == Some(op) && op.pc == Switching
    ensures !SwitchedTo(s.switches, PlanIdentity(op.plan))
  {
    hide ObjInv, PinInv, CopyInv, BudgetInv, RegInv, LogInv, OpenRowInv, PlanWritten, PlanBudget, PlanHistory, PreparedRow, Within,
         ReadVersion, LastTo, Chained, Keys;
    NotSwitchedYet(s.switches, PlanIdentity(op.plan));
  }

  lemma NextStaysHidden(env: Env, s: State, e: Step, id: Identity)
    requires Inv(env, s) && Hidden(s, id)
    ensures Hidden(Next(env, s, e), id)
  {
    hide Inv, Decide, Refuse, Activate, SwitchedTo, Settled, Reported, DurablyGrows;
    NextGrows(env, s, e);
    if e == Proceed && s.op.Some? {
      if Deciding(s.op.value.pc) {
        DecideStaysHidden(env, s, id);
      } else if Refusing(s.op.value.pc) {
        RefuseStaysHidden(s, id);
      } else {
        ActivateStaysHidden(env, s, id);
      }
    }
    StaysHidden(s, Next(env, s, e), id);
  }

  lemma {:induction false} HiddenForEver(env: Env, steps: seq<Step>, more: seq<Step>, id: Identity)
    requires Hidden(Run(env, steps), id)
    ensures Hidden(Run(env, steps + more), id)
  {
    hide Next, Hidden;
    if more == [] {
      assert steps + more == steps;
    } else {
      var n := |more| - 1;
      var whole := steps + more;
      assert whole[..|whole| - 1] == steps + more[..n];
      HiddenForEver(env, steps, more[..n], id);
      AlwaysHolds(env, steps + more[..n]);
      NextStaysHidden(env, Run(env, steps + more[..n]), more[n], id);
    }
  }

  // ---- What can still be reported ----

  lemma RunSnoc(env: Env, steps: seq<Step>, e: Step)
    ensures Run(env, steps + [e]) == Next(env, Run(env, steps), e)
  {
    hide Next;
    assert (steps + [e])[..|steps + [e]| - 1] == steps;
  }

  /** A fresh operation begins by recovering the log. */
  lemma RecoveryHappens(env: Env, steps: seq<Step>)
    ensures var s := Run(env, steps);
            var begin := Begin(0, RollbackRequest("", false, false));
            Run(env, steps + [Fail] + [begin] + [Proceed]).records == Reconciled(s.records, s.pins, s.now)
  {
    hide Reconciled, Run;
    var begin := Begin(0, RollbackRequest("", false, false));
    RunSnoc(env, steps, Fail);
    RunSnoc(env, steps + [Fail], begin);
    RunSnoc(env, steps + [Fail] + [begin], Proceed);
  }

  lemma CommitRowReports(s: State, op: Op)
    ensures Reported(DoCommit(s, op).records, PlanIdentity(op.plan))
  {
    var records := DoCommit(s, op).records;
    assert ClaimsCommit(records[|s.records|]) && IdentityOf(records[|s.records|]) == PlanIdentity(op.plan);
  }

  /** An operation past its switch writes its commit row in one action or two. */
  lemma CommitHappens(env: Env, steps: seq<Step>, id: Identity) returns (more: seq<Step>)
    requires CommitPending(Run(env, steps), id)
    ensures Reported(Run(env, steps + more).records, id)
  {
    hide Run, Reported, History, Appended, PlanRecord;
    var s := Run(env, steps);
    var op := s.op.value;
    RunSnoc(env, steps, Proceed);
    if op.pc == Committing {
      more := [Proceed];
      CommitRowReports(s, op);
    } else {
      var t := Next(env, s, Proceed);
      assert t.op == Some(op.(pc := Committing));
      RunSnoc(env, steps + [Proceed], Proceed);
      more := [Proceed] + [Proceed];
      assert steps + more == steps + [Proceed] + [Proceed];
      CommitRowReports(t, t.op.value);
    }
  }

  /** For every reachable state and every switch made so far: some continuation reports it exactly when the log already
      does, holds no abort for its identity, or the operation that made it is still on its way to its commit row. In
      every other case no continuation whatever reports it. */
  lemma SwitchIsEverReportedIff(env: Env, steps: seq<Step>, i: nat)
    requires i < |Run(env, steps).switches|
    ensures var s := Run(env, steps);
            var id := SwitchIdentity(s.switches[i]);
            (exists more :: Reported(Run(env, steps + more).records, id)) <==>
              Reported(s.records, id) || !AbortedBefore(s.records, id) || CommitPending(s, id)
  {
    hide Run, Reconciled, Reported, AbortedBefore, Settled, SwitchedTo, CommitPending;
    var s := Run(env, steps);
    var id := SwitchIdentity(s.switches[i]);
    if CommitPending(s, id) {
      var more := CommitHappens(env, steps, id);
    } else if Reported(s.records, id) || !AbortedBefore(s.records, id) {
      RecoveryReportsSwitchIff(env, steps, i, s.now);
      RecoveryHappens(env, steps);
      var begin := Begin(0, RollbackRequest("", false, false));
      assert steps + [Fail] + [begin] + [Proceed] == steps + [Fail, begin, Proceed];
      assert Reported(Run(env, steps + [Fail, begin, Proceed]).records, id);
    } else {
      SwitchFacts(env, steps, i);
      SettledIsReportedOrAborted(s.records, id);
      forall more ensures !Reported(Run(env, steps + more).records, id) {
        HiddenForEver(env, steps, more, id);
      }
    }
  }
}
