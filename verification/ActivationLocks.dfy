/** Freeze exclusion: what the two locks guarantee in every interleaving. */
module ActivationLocks {
  import opened Options
  import opened Packages
  import opened Budget
  import opened Skills
  import opened RecordLog
  import opened VersionStore
  import opened Activation

  predicate PromoteOnly(pc: PC) {
    match pc
    case AcquiringGuard => true
    case ClearingMirror => true
    case CheckingLatch => true
    case Releasing(_) => true
    case Freezing(_, _) => true
    case Mirroring(_) => true
    case Denying(_) => true
    case WritingBaseContent => true
    case WritingBaseMetadata => true
    case _ => false
  }

  /** The advisory lock is held from its acquisition until the operation returns. */
  predicate NeedsGuard(op: Op) {
    op.request.PromoteRequest?
    && match op.pc
       case Reconciling => false
       case Checking => false
       case AcquiringGuard => false
       case Freezing(_, _) => false
       case Mirroring(_) => false
       case Denying(_) => false
       case _ => true
  }

  /** The process's read lock is held from the latch check until the catalog has switched. */
  predicate NeedsRead(op: Op) {
    NeedsGuard(op)
    && match op.pc
       case ClearingMirror => false
       case CheckingLatch => false
       case Publishing => false
       case Committing => false
       case Finishing => false
       case _ => true
  }

  ghost predicate OpLocks(s: State, op: Op) {
    (op.request.RollbackRequest? ==> !PromoteOnly(op.pc))
    && (op.request.PromoteRequest? ==> !op.pc.RollbackFreezing? && op.pc != RollbackMirroring)
    && (op.pc == Reserving ==> op.plan.action == if op.request.PromoteRequest? then Promote else Rollback)
    && (op.pc == AcquiringGuard || op.pc == ClearingMirror || op.pc == CheckingLatch ==> op.plan.action == Promote)
    && (if op.pc.Denying? then s.guard == s.reading else s.guard == NeedsGuard(op) && s.reading == NeedsRead(op))
    && (s.reading && !op.pc.Denying? ==> !ProcOf(s, op.proc).latch.frozen)
  }

  /** Which locks are held at each point, and what they keep false. A denial is written under both locks when the latch
      caused it and under neither otherwise. */
  ghost predicate LockInv(s: State) {
    (s.guard ==> s.frozen == None)
    && (s.op.None? ==> !s.guard && !s.reading)
    && (s.op.Some? ==> OpLocks(s, s.op.value))
  }

  // ---- What the deciding steps can change ----

  /** `t` is `s` with its operation moved to another point. */
  ghost predicate Moved(s: State, op: Op, t: State) {
    t.op.Some? && t == s.(op := t.op) && t.op.value.proc == op.proc && t.op.value.request == op.request
  }

  /** The checks decide where to go and touch nothing else. */
  lemma CheckPromoteEffect(env: Env, s: State, op: Op)
    requires op.request.PromoteRequest?
    ensures var r := DoCheckPromote(env, s, op);
            r == Finish(s)
            || (Moved(s, op, r)
                && (r.op.value.pc.Freezing? || r.op.value.pc.Denying?
                    || (r.op.value.pc == AcquiringGuard && r.op.value.plan.action == Promote)))
  {
    hide Breaches, Evaluate, CheckedVersion, EffectiveLimits, WindowOf;
  }

  lemma CheckRollbackEffect(s: State, op: Op)
    requires op.request.RollbackRequest?
    ensures var r := DoCheckRollback(s, op);
            r == Finish(s)
            || (Moved(s, op, r) && r.op.value.pc == Reserving && r.op.value.plan.action == Rollback)
  {
    hide WindowOf;
  }

  lemma GotoMoves(s: State, op: Op, events: seq<Event>, pc: PC)
    ensures var r := Goto(s.(events := events), op, pc);
            r.events == events && Moved(s.(events := events), op, r) && r.op.value.plan == op.plan && r.op.value.pc == pc
  {
  }

  /** Reserving changes at most the events; only a promotion is refused for a breach. */
  lemma ReserveEffect(env: Env, s: State, op: Op)
    ensures var r := DoReserve(env, s, op);
            r == Finish(s.(events := r.events))
            || (Moved(s.(events := r.events), op, r) && r.op.value.plan == op.plan
                && (r.op.value.pc == AfterReserve(op)
                    || (r.op.value.pc.Releasing? && op.plan.action != Rollback)
                    || (r.op.value.pc.RollbackFreezing? && op.request.RollbackRequest?)))
  {
    hide Reserve, EffectiveLimits, PlanKey, Moved, Goto, AfterReserve;
    var plan, limits := op.plan, EffectiveLimits(env.limits);
    RollbackIsNeverRefused(s.events, plan.window, limits, s.now, PlanKey(plan), plan.files);
    assert s.(events := s.events) == s;
    match Reserve(s.events, plan.window, limits, s.now, PlanKey(plan), plan.action, plan.files) {
      case Malformed =>
      case TimeWentBackwards =>
      case AlreadyReserved => GotoMoves(s, op, s.events, AfterReserve(op));
      case Breached(c) => GotoMoves(s, op, s.events, Releasing(c));
      case Accepted(events, _, breach) =>
        GotoMoves(s, op, events, AfterReserve(op));
        if breach.Some? {
          GotoMoves(s, op, events, RollbackFreezing(breach.value));
        }
    }
  }

  lemma RollbackIsNeverRefused(events: seq<Event>, window: Window, limits: Limits, at: int, key: OpKey, files: int)
    ensures !Reserve(events, window, limits, at, key, Rollback, files).Breached?
  {
    hide Breaches, Apply;
  }

  // ---- The invariant ----

  /** Taking the two locks and looking at the latch. */
  lemma LockingKeepsLocks(s: State, op: Op)
    requires LockInv(s) && s.op == Some(op)
    ensures op.pc == AcquiringGuard ==> LockInv(DoAcquireGuard(s, op))
    ensures op.pc == ClearingMirror ==> LockInv(DoClearMirror(s, op))
    ensures op.pc == CheckingLatch ==> LockInv(DoCheckLatch(s, op))
  {
  }

  lemma DecideKeepsLocks(env: Env, s: State)
    requires LockInv(s) && s.op.Some? && Deciding(s.op.value.pc)
    ensures LockInv(Decide(env, s, s.op.value))
  {
    hide DoCheckPromote, DoCheckRollback, DoReserve, DoAcquireGuard, DoClearMirror, DoCheckLatch, Reconciled;
    var op := s.op.value;
    if op.pc == Checking {
      if op.request.PromoteRequest? {
        CheckPromoteEffect(env, s, op);
      } else {
        CheckRollbackEffect(s, op);
      }
    } else if op.pc == Reserving {
      ReserveEffect(env, s, op);
    } else {
      LockingKeepsLocks(s, op);
    }
  }

  lemma RefuseKeepsLocks(s: State)
    requires LockInv(s) && s.op.Some? && Refusing(s.op.value.pc)
    ensures LockInv(Refuse(s, s.op.value))
  {
    hide ValidRecord, DeniedRecord, Appended;
  }

  lemma WriteKeepsLocks(s: State, op: Op, objects: Objects, next: PC)
    requires LockInv(s) && s.op == Some(op) && Writing(op.pc)
    requires next == Preparing || next == WritingMetadata || next == WritingContent
             || (next == WritingBaseMetadata && op.request.PromoteRequest?)
    ensures LockInv(Finish(s)) && LockInv(Goto(s.(objects := objects), op, next))
  {
  }

  lemma WritingKeepsLocks(s: State)
    requires LockInv(s) && s.op.Some? && Writing(s.op.value.pc)
    ensures LockInv(Activate(s, s.op.value))
  {
    hide WriteContent, WriteMetadata, MetadataOf;
    var op, t := s.op.value, Activate(s, s.op.value);
    var next := match op.pc
      case WritingBaseContent => WritingBaseMetadata
      case WritingBaseMetadata => WritingContent
      case WritingContent => WritingMetadata
      case _ => Preparing;
    assert op.pc == WritingBaseContent ==> op.request.PromoteRequest?;
    hide LockInv;
    WriteKeepsLocks(s, op, t.objects, next);
  }

  lemma SwitchingKeepsLocks(s: State)
    requires LockInv(s) && s.op.Some? && (s.op.value.pc == Switching || s.op.value.pc == Preparing)
    ensures LockInv(Activate(s, s.op.value))
  {
    hide Appended, PlanRecord, PlanPin;
  }

  lemma PublishingKeepsLocks(s: State)
    requires LockInv(s) && s.op.Some?
    requires s.op.value.pc == Publishing || s.op.value.pc == Committing || s.op.value.pc == Finishing
    ensures LockInv(Activate(s, s.op.value))
  {
    hide Appended, PlanRecord, History;
  }

  predicate Writing(pc: PC) {
    pc == WritingBaseContent || pc == WritingBaseMetadata || pc == WritingContent || pc == WritingMetadata
  }

  lemma ActivateKeepsLocks(s: State)
    requires LockInv(s) && s.op.Some? && !Deciding(s.op.value.pc) && !Refusing(s.op.value.pc)
    ensures LockInv(Activate(s, s.op.value))
  {
    hide Activate, LockInv;
    if Writing(s.op.value.pc) {
      WritingKeepsLocks(s);
    } else if s.op.value.pc == Switching || s.op.value.pc == Preparing {
      SwitchingKeepsLocks(s);
    } else {
      PublishingKeepsLocks(s);
    }
  }

  lemma AdvanceKeepsLocks(env: Env, s: State)
    requires LockInv(s) && s.op.Some?
    ensures LockInv(Advance(env, s))
  {
    hide Decide, Refuse, Activate, LockInv;
    if Deciding(s.op.value.pc) {
      DecideKeepsLocks(env, s);
    } else if Refusing(s.op.value.pc) {
      RefuseKeepsLocks(s);
    } else {
      ActivateKeepsLocks(s);
    }
  }

  lemma NextKeepsLocks(env: Env, s: State, e: Step)
    requires LockInv(s)
    ensures LockInv(Next(env, s, e))
  {
    hide Advance;
    if e == Proceed && s.op.Some? {
      AdvanceKeepsLocks(env, s);
    }
  }

  lemma {:induction false} LocksAlwaysHold(env: Env, steps: seq<Step>)
    ensures LockInv(Run(env, steps))
  {
    hide Next, LockInv;
    if steps == [] {
      InitialLocks();
    } else {
      LocksAlwaysHold(env, steps[..|steps| - 1]);
      NextKeepsLocks(env, Run(env, steps[..|steps| - 1]), steps[|steps| - 1]);
    }
  }

  lemma InitialLocks()
    ensures LockInv(INITIAL)
  {
  }

  // ---- What it gives ----

  /** In every interleaving of promotions, rollbacks, freezes, thaws and crashes: at the step where a promotion
      switches the catalog, no durable freeze exists and the promoting process is not latched. */
  lemma NoPromotionWhileFrozen(env: Env, steps: seq<Step>, e: Step)
    requires var s := Run(env, steps);
             Next(env, s, e).pins != s.pins && s.op.Some? && s.op.value.request.PromoteRequest?
    ensures var s := Run(env, steps);
            s.frozen == None && !ProcOf(s, s.op.value.proc).latch.frozen
  {
    hide Run, Next;
    LocksAlwaysHold(env, steps);
    OnlySwitchingChangesPins(env, Run(env, steps), e);
  }

  /** The catalog changes only in the compare-and-switch step. */
  lemma OnlySwitchingChangesPins(env: Env, s: State, e: Step)
    requires Next(env, s, e).pins != s.pins
    ensures e == Proceed && s.op.Some? && s.op.value.pc == Switching
  {
    hide Advance;
    if e == Proceed && s.op.Some? && s.op.value.pc != Switching {
      AdvanceKeepsPins(env, s);
    }
  }

  lemma AdvanceKeepsPins(env: Env, s: State)
    requires s.op.Some? && s.op.value.pc != Switching
    ensures Advance(env, s).pins == s.pins && Advance(env, s).switches == s.switches
  {
    hide Decide, Refuse, Activate;
    var op := s.op.value;
    if Deciding(op.pc) {
      DecideFrame(env, s, op);
    } else if Refusing(op.pc) {
      RefuseFrame(s, op);
    } else {
      ActivateKeepsPins(s, op);
    }
  }

  /** Deciding writes only records and events, and moves a latch only by clearing a mirror. */
  lemma DecideFrame(env: Env, s: State, op: Op)
    requires Deciding(op.pc)
    ensures var r := Decide(env, s, op);
            r.objects == s.objects && r.pins == s.pins && r.switches == s.switches && r.frozen == s.frozen && r.now == s.now
            && (r.procs == s.procs || r.procs == WithLatch(s, op.proc, ClearMirror(ProcOf(s, op.proc).latch)).procs)
            && (op.pc != Reconciling ==> r.records == s.records)
            && (op.pc != Reserving ==> r.events == s.events)
  {
    hide DoCheckPromote, DoCheckRollback, DoReserve, Reconciled;
    if op.pc == Checking {
      if op.request.PromoteRequest? {
        CheckPromoteEffect(env, s, op);
      } else {
        CheckRollbackEffect(s, op);
      }
    } else if op.pc == Reserving {
      ReserveEffect(env, s, op);
    }
  }

  /** Refusing writes at most an audit row and the freeze. */
  lemma RefuseFrame(s: State, op: Op)
    requires Refusing(op.pc)
    ensures var r := Refuse(s, op);
            r.objects == s.objects && r.pins == s.pins && r.switches == s.switches && r.events == s.events && r.now == s.now
            && (r.procs == s.procs || r.procs == WithLatch(s, op.proc, MirrorDurable(ProcOf(s, op.proc).latch)).procs)
            && (!op.pc.Denying? ==> r.records == s.records)
  {
    hide DoDeny, MirrorDurable;
    if op.pc.Denying? && op.request.PromoteRequest? {
      DenyFrame(s, op);
    }
  }

  lemma DenyFrame(s: State, op: Op)
    requires op.pc.Denying? && op.request.PromoteRequest?
    ensures DoDeny(s, op) == Finish(s.(records := DoDeny(s, op).records))
  {
    hide ValidRecord, DeniedRecord, Appended;
  }

  lemma ActivateKeepsPins(s: State, op: Op)
    requires !Deciding(op.pc) && !Refusing(op.pc) && op.pc != Switching
    ensures Activate(s, op).pins == s.pins && Activate(s, op).switches == s.switches
  {
    hide WriteContent, WriteMetadata, Appended, PlanRecord, PlanPin, History, MetadataOf;
  }

  /** Wherever an operation has to freeze or mirror - the over-budget path included - its own locks are
      already released, so it cannot wait for itself. */
  lemma OverBudgetCannotBlockItself(env: Env, steps: seq<Step>)
    requires var s := Run(env, steps);
             s.op.Some? && (s.op.value.pc.Freezing? || s.op.value.pc.Mirroring?
                            || s.op.value.pc.RollbackFreezing? || s.op.value.pc == RollbackMirroring)
    ensures var s := Run(env, steps);
            !s.guard && !s.reading
            && Advance(env, s).op.Some? && Advance(env, s).op.value.pc != s.op.value.pc
            && (s.op.value.pc.Freezing? || s.op.value.pc.RollbackFreezing? ==> Advance(env, s).frozen.Some?)
  {
    hide Run;
    LocksAlwaysHold(env, steps);
  }

  lemma AdvanceKeepsLocalFreeze(env: Env, s: State, p: nat)
    requires s.op.Some? && ProcOf(s, p).latch == Latch(true, LocalLatch)
    ensures ProcOf(Advance(env, s), p).latch == Latch(true, LocalLatch)
  {
    hide Decide, Refuse, Activate;
    var op := s.op.value;
    if Deciding(op.pc) {
      DecideFrame(env, s, op);
    } else if Refusing(op.pc) {
      RefuseFrame(s, op);
    } else {
      ActivateKeepsLatches(s, op, p);
    }
  }

  lemma ActivateKeepsLatches(s: State, op: Op, p: nat)
    requires !Deciding(op.pc) && !Refusing(op.pc)
    ensures ProcOf(Activate(s, op), p).latch == ProcOf(s, p).latch
  {
    hide WriteContent, WriteMetadata, Appended, PlanRecord, PlanPin, History, MetadataOf;
  }

  /** A direct local freeze survives everything but a local thaw or the death of its process. */
  lemma LocalFreezeSticks(env: Env, s: State, e: Step, p: nat)
    requires ProcOf(s, p).latch == Latch(true, LocalLatch)
    requires e != LocalUnfreeze(p) && e != Crash(p)
    ensures ProcOf(Next(env, s, e), p).latch == Latch(true, LocalLatch)
  {
    hide Advance;
    if e == Proceed && s.op.Some? {
      AdvanceKeepsLocalFreeze(env, s, p);
    }
  }

  /** Over a whole run: a process that froze itself stays frozen until it thaws or dies. */
  lemma {:induction false} LocalFreezeHoldsThroughout(env: Env, before: seq<Step>, after: seq<Step>, p: nat)
    requires ProcOf(Run(env, before), p).latch == Latch(true, LocalLatch)
    requires forall i :: 0 <= i < |after| ==> after[i] != LocalUnfreeze(p) && after[i] != Crash(p)
    ensures ProcOf(Run(env, before + after), p).latch == Latch(true, LocalLatch)
  {
    hide Next;
    if after == [] {
      assert before + after == before;
    } else {
      var n := |after| - 1;
      LocalFreezeHoldsThroughout(env, before, after[..n], p);
      var whole := before + after;
      assert whole[..|whole| - 1] == before + after[..n];
      LocalFreezeSticks(env, Run(env, before + after[..n]), after[n], p);
    }
  }
}
