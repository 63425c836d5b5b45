/** What the activation protocol promises over whole runs. */
module ActivationTheorems {
  import opened Options
  import opened Packages
  import opened Budget
  import opened Skills
  import opened RecordLog
  import opened VersionStore
  import opened Activation
  import opened ActivationSafety
  import opened ActivationSteps
  import opened ActivationLocks

  // ---- Version objects and pins ----

  /** In every reachable state, crash points included, the active pin names stored objects with the pinned digests. */
  lemma PinnedVersionAlwaysReads(env: Env, steps: seq<Step>, skill: string)
    requires skill in Run(env, steps).pins
    ensures var s := Run(env, steps);
            var n := s.pins[skill].source.version;
            ReadPinned(s.objects, skill, n, s.pins[skill]).Some?
            && s.pins[skill] == PinOf(ReadPinned(s.objects, skill, n, s.pins[skill]).value, n)
            && forall m :: 1 <= m <= n ==> ReadVersion(s.objects, skill, m).Some?
  {
    hide Run;
    AlwaysHolds(env, steps);
    var s := Run(env, steps);
    assert StoreInv(env, s) && ObjInv(s.objects) && PinInv(s.objects, s.pins);
    var n := s.pins[skill].source.version;
    hide StoreInv, Inv;
    PinReadsBack(s.objects, skill, n, s.pins[skill]);
    forall m | 1 <= m <= n ensures ReadVersion(s.objects, skill, m).Some? {
      assert Source(skill, m) in s.objects.metadata;
    }
  }

  /** The durable state only ever grows: objects are never altered, rows, reservations and switches never removed. */
  ghost predicate DurablyGrows(a: State, b: State) {
    Grows(a.objects, b.objects) && Extends(a.records, b.records) && a.events <= b.events && a.switches <= b.switches
  }

  lemma ReserveGrows(env: Env, s: State, op: Op)
    ensures s.events <= DoReserve(env, s, op).events
  {
    hide Breaches, EffectiveLimits, Apply, PlanKey, AfterReserve;
  }

  lemma DecideGrows(env: Env, s: State)
    requires Inv(env, s) && s.op.Some? && Deciding(s.op.value.pc)
    ensures DurablyGrows(s, Decide(env, s, s.op.value))
  {
    hide Reconciled, DoCheckPromote, DoCheckRollback, DoReserve, DoAcquireGuard, DoClearMirror, DoCheckLatch, Inv;
    DecideFrame(env, s, s.op.value);
    if s.op.value.pc == Reconciling {
      InvLog(env, s);
      ReconcileSettlesEverything(s.records, s.pins, s.now);
    } else if s.op.value.pc == Reserving {
      ReserveGrows(env, s, s.op.value);
    }
  }

  lemma InvLog(env: Env, s: State)
    requires Inv(env, s)
    ensures LogInv(s.records) && OpenRowInv(s.records, s.pins, s.switches) && SwitchInv(s.switches, s.pins, s.events)
  {
    hide OpInv, ObjInv, PinInv, SwitchInv, CopyInv, BudgetInv, RegInv, LogInv, OpenRowInv;
  }

  lemma RefuseGrows(s: State, op: Op)
    requires Refusing(op.pc)
    ensures DurablyGrows(s, Refuse(s, op))
  {
    hide DoRelease, DoFreeze, DoMirror, DoDeny, DoRollbackFreeze, DoRollbackMirror, Grows;
    RefuseFrame(s, op);
    ObjectsUnchanged(s.objects);
    if op.pc.Denying? && op.request.PromoteRequest? {
      DenyExtends(s, op);
    }
  }

  lemma DenyExtends(s: State, op: Op)
    requires op.pc.Denying? && op.request.PromoteRequest?
    ensures Extends(s.records, DoDeny(s, op).records)
  {
    hide ValidRecord, DeniedRecord;
  }

  lemma WritingGrows(s: State, op: Op, v: SkillVersion, n: int, next: PC)
    ensures DurablyGrows(s, DoWriteContent(s, op, v, n, next))
    ensures DurablyGrows(s, DoWriteMetadata(s, op, v, n, next))
  {
    hide MetadataOf, WriteContent, WriteMetadata, Grows;
    WritesOnlyGrow(s.objects, Source(op.plan.skill, n), v.prompt, MetadataOf(v, n));
    ObjectsUnchanged(s.objects);
  }

  lemma ObjectsUnchanged(o: Objects)
    ensures Grows(o, o)
  {
  }

  lemma LoggingGrows(s: State, op: Op)
    ensures DurablyGrows(s, DoPrepare(s, op)) && DurablyGrows(s, DoCommit(s, op))
    ensures DurablyGrows(s, DoSwitch(s, op)) && DurablyGrows(s, DoPublish(s, op)) && DurablyGrows(s, Finish(s))
  {
    hide PlanRecord, PlanPin, History;
  }

  lemma ActivateGrows(s: State, op: Op)
    requires !Deciding(op.pc) && !Refusing(op.pc)
    ensures DurablyGrows(s, Activate(s, op))
  {
    hide DurablyGrows, DoWriteContent, DoWriteMetadata, DoPrepare, DoCommit, DoSwitch, DoPublish, Finish;
    WritingGrows(s, op, op.plan.base, 1, WritingBaseMetadata);
    WritingGrows(s, op, op.plan.base, 1, WritingContent);
    WritingGrows(s, op, op.plan.body, op.plan.to, WritingMetadata);
    WritingGrows(s, op, op.plan.body, op.plan.to, Preparing);
    LoggingGrows(s, op);
  }

  lemma NextGrows(env: Env, s: State, e: Step)
    requires Inv(env, s)
    ensures DurablyGrows(s, Next(env, s, e))
  {
    hide Inv, Decide, Refuse, Activate;
    if e == Proceed && s.op.Some? {
      var op := s.op.value;
      if Deciding(op.pc) {
        DecideGrows(env, s);
      } else if Refusing(op.pc) {
        RefuseGrows(s, op);
      } else {
        ActivateGrows(s, op);
      }
      hide DurablyGrows;
    }
  }

  lemma GrowsTransitive(a: State, b: State, c: State)
    requires DurablyGrows(a, b) && DurablyGrows(b, c)
    ensures DurablyGrows(a, c)
  {
  }

  lemma {:induction false} DurableStateOnlyGrows(env: Env, before: seq<Step>, after: seq<Step>)
    ensures DurablyGrows(Run(env, before), Run(env, before + after))
  {
    hide Next, DurablyGrows;
    if after == [] {
      assert before + after == before;
      GrowsReflexive(Run(env, before));
    } else {
      var n := |after| - 1;
      DurableStateOnlyGrows(env, before, after[..n]);
      var whole := before + after;
      assert whole[..|whole| - 1] == before + after[..n];
      AlwaysHolds(env, before + after[..n]);
      NextGrows(env, Run(env, before + after[..n]), after[n]);
      GrowsTransitive(Run(env, before), Run(env, before + after[..n]), Run(env, whole));
    }
  }

  lemma GrowsReflexive(s: State)
    ensures DurablyGrows(s, s)
  {
  }

  // ---- Authority ----

  /** After any run every stored version - active, superseded or abandoned - stays inside version 1's authority. */
  lemma AuthorityNeverExceedsFirstVersion(env: Env, steps: seq<Step>, skill: string, n: int)
    requires ReadVersion(Run(env, steps).objects, skill, n).Some?
    ensures var o := Run(env, steps).objects;
            ReadVersion(o, skill, 1).Some? && Within(ReadVersion(o, skill, n).value, ReadVersion(o, skill, 1).value)
  {
    hide Run;
    AlwaysHolds(env, steps);
    var o := Run(env, steps).objects;
    assert StoreInv(env, Run(env, steps)) && ObjInv(o);
    hide StoreInv, Inv, Within;
    StoredVersionIsWithinFirst(o, skill, n);
    assert Source(skill, 1) in o.metadata;
    assert ReadVersion(o, skill, 1) == Some(ObjectAt(o, Source(skill, 1)));
  }

  // ---- The log ----

  /** Sequence numbers run 1, 2, 3, ... and every row is valid, whatever crashed. */
  lemma LogIsAlwaysReadable(env: Env, steps: seq<Step>)
    ensures Contiguous(Run(env, steps).records) && AllValid(Run(env, steps).records)
  {
    hide Run;
    AlwaysHolds(env, steps);
    InvLog(env, Run(env, steps));
  }

  /** At most one prepared row is ever unsettled, and it is the newest row. */
  lemma AtMostOneRowIsOpen(env: Env, steps: seq<Step>, i: nat)
    requires i < |Run(env, steps).records| && OpenAt(Run(env, steps).records, i)
    ensures i == |Run(env, steps).records| - 1
  {
    hide Run;
    AlwaysHolds(env, steps);
    InvLog(env, Run(env, steps));
  }

  /** Reconciliation at any point of any run settles everything with at most one row, and that row says
      "recovered-committed" exactly when the catalog had already switched to the prepared version. */
  lemma ReconciliationTellsTheTruth(env: Env, steps: seq<Step>, now: int)
    ensures var s := Run(env, steps);
            var r := Reconciled(s.records, s.pins, now);
            NothingOpen(r) && Extends(s.records, r) && |r| <= |s.records| + 1
            && (|r| > |s.records| ==>
                  OpenAt(s.records, |s.records| - 1)
                  && IdentityOf(r[|r| - 1]) == IdentityOf(s.records[|s.records| - 1])
                  && r[|r| - 1].state == if SwitchedTo(s.switches, IdentityOf(r[|r| - 1])) then RecoveredCommitted else Aborted)
  {
    hide Run, Reconciled, SwitchInv, SwitchedTo;
    AlwaysHolds(env, steps);
    var s := Run(env, steps);
    InvLog(env, s);
    ReconcileSettlesEverything(s.records, s.pins, now);
    ReconcileWritesAtMostOne(s.records, s.pins, now);
    if s.records != [] && OpenAt(s.records, |s.records| - 1) {
      OpenRowIsActivation(s.records);
    }
  }

  lemma OpenRowIsActivation(records: seq<Record>)
    requires AllValid(records) && records != [] && records[|records| - 1].state == Prepared
    ensures var r := records[|records| - 1];
            r.pin.Some? && r.pin.value.source == Source(r.skill, r.to) && r.to == r.from + 1
  {
  }

  // ---- Switches and their reservations ----

  lemma {:induction false} ChainStep(switches: seq<Switch>, i: nat)
    requires Chained(switches) && i < |switches|
    ensures switches[i].to == switches[i].from + 1
    ensures switches[i].from == LastTo(switches[..i], switches[i].skill)
  {
    var n := |switches| - 1;
    if i < n {
      ChainStep(switches[..n], i);
      assert switches[..n][..i] == switches[..i];
    }
  }

  lemma {:induction false} ChainPrefix(switches: seq<Switch>, n: nat)
    requires Chained(switches) && n <= |switches|
    ensures Chained(switches[..n])
  {
    if n == |switches| {
      assert switches[..n] == switches;
    } else {
      ChainPrefix(switches[..|switches| - 1], n);
      assert switches[..|switches| - 1][..n] == switches[..n];
    }
  }

  /** Each switch raises its skill's version by exactly one from where the previous switch left it. */
  lemma SwitchesAreSerial(env: Env, steps: seq<Step>, i: nat)
    requires i < |Run(env, steps).switches|
    ensures var w := Run(env, steps).switches;
            w[i].to == w[i].from + 1 && w[i].from == LastTo(w[..i], w[i].skill)
            && CurrentVersion(Run(env, steps).pins, w[i].skill) == LastTo(w, w[i].skill)
  {
    hide Run;
    AlwaysHolds(env, steps);
    InvLog(env, Run(env, steps));
    ChainStep(Run(env, steps).switches, i);
  }

  /** The reservation that paid for a switch. */
  ghost predicate PaidBy(events: seq<Event>, w: Switch, k: nat) {
    k < |events| && events[k].key == SwitchKey(w)
  }

  /** Every switch is paid for by exactly one reservation, and no two switches share one. */
  lemma EachSwitchHasItsOwnReservation(env: Env, steps: seq<Step>, i: nat, j: nat, k: nat)
    requires i < |Run(env, steps).switches| && j < |Run(env, steps).switches|
    ensures exists m :: PaidBy(Run(env, steps).events, Run(env, steps).switches[i], m)
    ensures (PaidBy(Run(env, steps).events, Run(env, steps).switches[i], k)
             && PaidBy(Run(env, steps).events, Run(env, steps).switches[j], k)) ==> i == j
  {
    hide Run;
    AlwaysHolds(env, steps);
    var s := Run(env, steps);
    InvLog(env, s);
    hide Inv;
    assert SwitchKey(s.switches[i]) in Keys(s.events);
    var e :| e in s.events && e.key == SwitchKey(s.switches[i]);
    var m :| 0 <= m < |s.events| && s.events[m] == e;
    assert PaidBy(s.events, s.switches[i], m);
    if i < j {
      LaterSwitchGoesHigher(s.switches, i, j);
    } else if j < i {
      LaterSwitchGoesHigher(s.switches, j, i);
    }
  }

  lemma LaterSwitchGoesHigher(switches: seq<Switch>, i: nat, j: nat)
    requires Chained(switches) && i < j < |switches|
    ensures switches[i].skill == switches[j].skill ==> switches[i].to < switches[j].to
  {
    ChainPrefix(switches, j);
    SwitchesStayBelow(switches[..j], i);
    ChainStep(switches, j);
  }

  lemma BudgetAlwaysHolds(env: Env, steps: seq<Step>)
    ensures BudgetInv(Run(env, steps).events)
  {
    hide Run;
    AlwaysHolds(env, steps);
    hide OpInv, ObjInv, PinInv, SwitchInv, CopyInv, BudgetInv, RegInv, LogInv, OpenRowInv;
  }

  /** No operation is charged twice: reservations have distinct keys, in order of time, and a reload accepts them unless
      the clock stands before the last of them. */
  lemma ReservationsAreDistinct(env: Env, steps: seq<Step>, now: int)
    ensures var events := Run(env, steps).events;
            WellFormedEvents(events, LastAt(events)) && (WellFormedEvents(events, now) <==> Loads(events, now))
  {
    hide Run;
    BudgetAlwaysHolds(env, steps);
    ReloadAcceptsIff(Run(env, steps).events, now);
  }

  // ---- Registries ----

  lemma RegistriesAlwaysHold(env: Env, steps: seq<Step>)
    ensures RegInv(Run(env, steps).objects, Run(env, steps).procs)
  {
    hide Run;
    AlwaysHolds(env, steps);
    hide OpInv, ObjInv, PinInv, SwitchInv, CopyInv, BudgetInv, RegInv, LogInv, OpenRowInv;
  }

  /** Once a process's history of a skill has advanced, every entry of it is the durably stored version of that
      number. */
  lemma RegistryAgreesWithStore(env: Env, steps: seq<Step>, p: nat, skill: string, i: nat)
    requires |History(Run(env, steps), p, skill)| >= 2 && i < |History(Run(env, steps), p, skill)|
    ensures var s := Run(env, steps);
            var h := History(s, p, skill);
            h[i].version == h[0].version + i && ReadVersion(s.objects, skill, h[i].version) == Some(h[i])
  {
    hide Run, ReadVersion;
    RegistriesAlwaysHold(env, steps);
    var s := Run(env, steps);
    assert p in s.procs && skill in s.procs[p].registry;
    assert HistoryInv(s.objects, skill, s.procs[p].registry[skill]);
  }

  // ---- Rollback ----

  /** A step other than the process's death and a new registration of the skill in it only adds to the history. */
  lemma NextKeepsHistory(env: Env, s: State, e: Step, p: nat, skill: string)
    requires e != Crash(p) && !(e.Register? && e.p == p && e.v.skill == skill)
    ensures History(s, p, skill) <= History(Next(env, s, e), p, skill)
  {
    hide Advance;
    if e == Proceed {
      if s.op.Some? {
        AdvanceKeepsHistory(env, s, p, skill);
      }
    }
  }

  lemma AdvanceKeepsHistory(env: Env, s: State, p: nat, skill: string)
    requires s.op.Some?
    ensures History(s, p, skill) <= History(Advance(env, s), p, skill)
  {
    hide Decide, Refuse, Activate, ClearMirror, MirrorDurable, WithLatch;
    var op := s.op.value;
    if Deciding(op.pc) {
      DecideFrame(env, s, op);
      LatchKeepsHistory(s, op.proc, ClearMirror(ProcOf(s, op.proc).latch), p, skill);
    } else if Refusing(op.pc) {
      RefuseFrame(s, op);
      LatchKeepsHistory(s, op.proc, MirrorDurable(ProcOf(s, op.proc).latch), p, skill);
    } else {
      ActivateKeepsHistory(s, op, p, skill);
    }
  }

  lemma LatchKeepsHistory(s: State, q: nat, l: Latch, p: nat, skill: string)
    ensures History(WithLatch(s, q, l), p, skill) == History(s, p, skill)
  {
  }

  lemma ActivateKeepsHistory(s: State, op: Op, p: nat, skill: string)
    requires !Deciding(op.pc) && !Refusing(op.pc)
    ensures History(s, p, skill) <= History(Activate(s, op), p, skill)
  {
    hide WriteContent, WriteMetadata, Appended, PlanRecord, PlanPin, MetadataOf, Renumbered;
  }

  /** Histories are append-only: until its process dies or registers the skill anew, no entry is changed or removed. */
  lemma {:induction false} HistoryOnlyGrows(env: Env, before: seq<Step>, after: seq<Step>, p: nat, skill: string)
    requires forall i :: 0 <= i < |after| ==> after[i] != Crash(p) && !(after[i].Register? && after[i].p == p && after[i].v.skill == skill)
    ensures History(Run(env, before), p, skill) <= History(Run(env, before + after), p, skill)
  {
    hide Next, History;
    if after == [] {
      assert before + after == before;
    } else {
      var n := |after| - 1;
      HistoryOnlyGrows(env, before, after[..n], p, skill);
      var whole := before + after;
      assert whole[..|whole| - 1] == before + after[..n];
      NextKeepsHistory(env, Run(env, before + after[..n]), after[n], p, skill);
    }
  }

  lemma CopiesAlwaysHold(env: Env, steps: seq<Step>)
    ensures CopyInv(Run(env, steps).objects, Run(env, steps).switches)
  {
    hide Run;
    AlwaysHolds(env, steps);
    hide OpInv, ObjInv, PinInv, SwitchInv, CopyInv, BudgetInv, RegInv, LogInv, OpenRowInv;
  }

  /** A rollback reinstates the version before the one it leaves, under the next number. */
  lemma RollbackRestoresPrevious(env: Env, steps: seq<Step>, i: nat)
    requires i < |Run(env, steps).switches| && Run(env, steps).switches[i].action == Rollback
    ensures var s := Run(env, steps);
            CopyOf(s.objects, s.switches[i].skill, s.switches[i].to, s.switches[i].from - 1)
  {
    hide Run, CopyOf;
    CopiesAlwaysHold(env, steps);
    SwitchesAreSerial(env, steps, i);
    var s := Run(env, steps);
    assert CopyOf(s.objects, s.switches[i].skill, s.switches[i].to, s.switches[i].to - 2);
  }

  /** Two rollbacks in a row restore exactly what was active before the first: prompt, permissions,
      data classes and budget. */
  lemma TwoRollbacksCancel(env: Env, steps: seq<Step>, i: nat, j: nat)
    requires i < |Run(env, steps).switches| && j < |Run(env, steps).switches|
    requires var w := Run(env, steps).switches;
             w[i].action == Rollback && w[j].action == Rollback && w[i].skill == w[j].skill && w[j].from == w[i].to
    ensures var s := Run(env, steps);
            CopyOf(s.objects, s.switches[i].skill, s.switches[j].to, s.switches[i].from)
  {
    hide Run, CopyOf;
    RollbackRestoresPrevious(env, steps, j);
    SwitchesAreSerial(env, steps, i);
  }
}
