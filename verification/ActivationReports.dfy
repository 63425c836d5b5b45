/** How far the log can be trusted about the catalog. */
module ActivationReports {
  import opened Options
  import opened Budget
  import opened RecordLog
  import opened VersionStore
  import opened Activation
  import opened ActivationLocks
  import opened ActivationSafety
  import opened ActivationSteps
  import opened ActivationTheorems

  predicate ClaimsCommit(r: Record) {
    r.state == Committed || r.state == RecoveredCommitted
  }

  /** Every row that claims a commit is true. */
  ghost predicate ClaimsTrue(records: seq<Record>, switches: seq<Switch>) {
    forall i :: 0 <= i < |records| && ClaimsCommit(records[i]) ==> SwitchedTo(switches, IdentityOf(records[i]))
  }

  ghost predicate PreparedFor(records: seq<Record>, w: Switch) {
    exists i :: 0 <= i < |records| && records[i].state == Prepared && IdentityOf(records[i]) == Identity(w.action, w.skill, w.to)
  }

  /** Every switch was announced by a prepared row. */
  ghost predicate SwitchesPrepared(records: seq<Record>, switches: seq<Switch>) {
    forall i :: 0 <= i < |switches| ==> PreparedFor(records, switches[i])
  }

  ghost predicate ReportInv(s: State) {
    ClaimsTrue(s.records, s.switches) && SwitchesPrepared(s.records, s.switches)
  }

  lemma AppendClaim(records: seq<Record>, r: Record, switches: seq<Switch>)
    requires ClaimsTrue(records, switches) && (ClaimsCommit(r) ==> SwitchedTo(switches, IdentityOf(r)))
    ensures ClaimsTrue(Appended(records, r), switches)
  {
    hide SwitchedTo;
  }

  lemma PreparedStays(records: seq<Record>, longer: seq<Record>, switches: seq<Switch>)
    requires SwitchesPrepared(records, switches) && Extends(records, longer)
    ensures SwitchesPrepared(longer, switches)
  {
  }

  lemma SwitchedStays(switches: seq<Switch>, w: Switch, id: Identity)
    requires SwitchedTo(switches, id)
    ensures SwitchedTo(switches + [w], id)
  {
    var i :| 0 <= i < |switches| && Identity(switches[i].action, switches[i].skill, switches[i].to) == id;
    assert (switches + [w])[i] == switches[i];
  }

  lemma ReconcileReports(env: Env, s: State, op: Op)
    requires Inv(env, s) && ReportInv(s)
    ensures ReportInv(DoReconcile(s, op))
  {
    hide SwitchedTo, Reconciled, SwitchInv, Inv, Contiguous;
    InvLog(env, s);
    ReconcileSettlesEverything(s.records, s.pins, s.now);
    ReconcileWritesAtMostOne(s.records, s.pins, s.now);
    PreparedStays(s.records, Reconciled(s.records, s.pins, s.now), s.switches);
    if s.records != [] && OpenAt(s.records, |s.records| - 1) {
      OpenRowIsActivation(s.records);
      AppendClaim(s.records, Recovered(s.records[|s.records| - 1], s.pins, s.now), s.switches);
    }
  }

  lemma DecideReports(env: Env, s: State)
    requires Inv(env, s) && ReportInv(s) && s.op.Some? && Deciding(s.op.value.pc)
    ensures ReportInv(Decide(env, s, s.op.value))
  {
    hide Inv, ReportInv, DoReconcile, DoCheckPromote, DoCheckRollback, DoReserve, DoAcquireGuard, DoClearMirror,
         DoCheckLatch;
    DecideFrame(env, s, s.op.value);
    if s.op.value.pc == Reconciling {
      ReconcileReports(env, s, s.op.value);
    } else {
      SameReports(s, Decide(env, s, s.op.value));
    }
  }

  lemma SameReports(s: State, t: State)
    requires ReportInv(s) && t.records == s.records && t.switches == s.switches
    ensures ReportInv(t)
  {
  }

  lemma DenyReports(s: State, op: Op)
    requires ReportInv(s) && op.pc.Denying? && op.request.PromoteRequest?
    ensures ReportInv(DoDeny(s, op))
  {
    hide ValidRecord, SwitchedTo;
    var row := DeniedRecord(op.request.cand, op.pc.reason, s.now);
    AppendClaim(s.records, row, s.switches);
    PreparedStays(s.records, Appended(s.records, row), s.switches);
  }

  lemma RefuseReports(s: State)
    requires ReportInv(s) && s.op.Some? && Refusing(s.op.value.pc)
    ensures ReportInv(Refuse(s, s.op.value))
  {
    hide ReportInv, DoRelease, DoFreeze, DoMirror, DoDeny, DoRollbackFreeze, DoRollbackMirror;
    var op := s.op.value;
    RefuseFrame(s, op);
    if op.pc.Denying? && op.request.PromoteRequest? {
      DenyReports(s, op);
    } else {
      SameReports(s, Refuse(s, op));
    }
  }

  lemma PrepareReports(s: State, op: Op)
    requires ReportInv(s)
    ensures ReportInv(DoPrepare(s, op))
  {
    hide SwitchedTo;
    var row := PlanRecord(op.plan, Prepared, s.now);
    AppendClaim(s.records, row, s.switches);
    PreparedStays(s.records, Appended(s.records, row), s.switches);
  }

  lemma SwitchReports(s: State, op: Op)
    requires ReportInv(s) && PreparedRow(s.records, op.plan)
    ensures ReportInv(DoSwitch(s, op))
  {
    hide SwitchedTo, PlanPin;
    var plan := op.plan;
    var w := Switch(plan.action, plan.skill, plan.from, plan.to, PlanPin(plan));
    var switches := s.switches + [w];
    forall i | 0 <= i < |s.records| && ClaimsCommit(s.records[i]) ensures SwitchedTo(switches, IdentityOf(s.records[i])) {
      SwitchedStays(s.switches, w, IdentityOf(s.records[i]));
    }
    forall i | 0 <= i < |switches| ensures PreparedFor(s.records, switches[i]) {
      if i < |s.switches| {
        assert switches[i] == s.switches[i];
      }
    }
  }

  lemma CommitReports(s: State, op: Op)
    requires ReportInv(s) && PlanSwitched(s.pins, s.switches, op.plan)
    ensures ReportInv(DoCommit(s, op))
  {
    hide PlanPin;
    var plan := op.plan;
    var row := PlanRecord(plan, Committed, s.now);
    assert SwitchedTo(s.switches, Identity(plan.action, plan.skill, plan.to)) by {
      var n := |s.switches| - 1;
      assert Identity(s.switches[n].action, s.switches[n].skill, s.switches[n].to) == Identity(plan.action, plan.skill, plan.to);
    }
    hide SwitchedTo;
    AppendClaim(s.records, row, s.switches);
    PreparedStays(s.records, Appended(s.records, row), s.switches);
  }

  lemma OpFacts(env: Env, s: State)
    requires Inv(env, s) && s.op.Some?
    ensures s.op.value.pc == Switching ==> PreparedRow(s.records, s.op.value.plan)
    ensures s.op.value.pc == Committing ==> PlanSwitched(s.pins, s.switches, s.op.value.plan)
  {
    hide StoreInv, NothingOpen, PlanShape, PlanWritten, PlanBudget, PlanStands, PlanHistory, PreparedRow,
         PlanSwitched, ReadVersion;
  }

  lemma ActivateReports(env: Env, s: State)
    requires Inv(env, s) && ReportInv(s) && s.op.Some? && !Deciding(s.op.value.pc) && !Refusing(s.op.value.pc)
    ensures ReportInv(Activate(s, s.op.value))
  {
    hide Inv, ReportInv, DoPrepare, DoSwitch, DoCommit, PreparedRow, PlanSwitched, WriteContent, WriteMetadata,
         MetadataOf, History;
    var op := s.op.value;
    OpFacts(env, s);
    if op.pc == Preparing {
      PrepareReports(s, op);
    } else if op.pc == Switching {
      SwitchReports(s, op);
    } else if op.pc == Committing {
      CommitReports(s, op);
    } else {
      SameReports(s, Activate(s, op));
    }
  }

  lemma NextReports(env: Env, s: State, e: Step)
    requires Inv(env, s) && ReportInv(s)
    ensures ReportInv(Next(env, s, e))
  {
    hide Inv, ReportInv, Decide, Refuse, Activate;
    if e == Proceed && s.op.Some? {
      if Deciding(s.op.value.pc) {
        DecideReports(env, s);
      } else if Refusing(s.op.value.pc) {
        RefuseReports(s);
      } else {
        ActivateReports(env, s);
      }
    } else {
      SameReports(s, Next(env, s, e));
    }
  }

  lemma {:induction false} ReportsAlwaysHold(env: Env, steps: seq<Step>)
    ensures ReportInv(Run(env, steps))
  {
    hide Next, ReportInv;
    if steps == [] {
      NoReports();
    } else {
      ReportsAlwaysHold(env, steps[..|steps| - 1]);
      AlwaysHolds(env, steps[..|steps| - 1]);
      NextReports(env, Run(env, steps[..|steps| - 1]), steps[|steps| - 1]);
    }
  }

  lemma NoReports()
    ensures ReportInv(INITIAL)
  {
  }

  // ---- What the log claims ----

  /** A row that claims a commit, live or recovered, is never wrong. */
  lemma CommitClaimsAreTrue(env: Env, steps: seq<Step>, i: nat)
    requires i < |Run(env, steps).records| && ClaimsCommit(Run(env, steps).records[i])
    ensures SwitchedTo(Run(env, steps).switches, IdentityOf(Run(env, steps).records[i]))
  {
    hide Run, SwitchedTo;
    ReportsAlwaysHold(env, steps);
  }

  ghost predicate Reported(log: seq<Record>, id: Identity) {
    exists i :: 0 <= i < |log| && ClaimsCommit(log[i]) && IdentityOf(log[i]) == id
  }

  ghost predicate AbortedBefore(log: seq<Record>, id: Identity) {
    exists i :: 0 <= i < |log| && log[i].state == Aborted && IdentityOf(log[i]) == id
  }
}
