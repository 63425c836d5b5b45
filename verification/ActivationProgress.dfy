/** No operation waits on itself: left alone, every one of them ends. */
module ActivationProgress {
  import opened Options
  import opened Budget
  import opened Skills
  import opened RecordLog
  import opened VersionStore
  import opened Activation
  import opened ActivationLocks

  /** The operation proceeds `n` times undisturbed. */
  function After(env: Env, s: State, n: nat): State {
    if n == 0 then s else Next(env, After(env, s, n - 1), Proceed)
  }

  function Proceeds(n: nat): seq<Step> {
    seq(n, _ => Proceed)
  }

  lemma {:induction false} AfterIsRun(env: Env, steps: seq<Step>, n: nat)
    ensures Run(env, steps + Proceeds(n)) == After(env, Run(env, steps), n)
  {
    hide Next;
    if n == 0 {
      assert steps + Proceeds(0) == steps;
    } else {
      AfterIsRun(env, steps, n - 1);
      var whole := steps + Proceeds(n);
      assert whole[..|whole| - 1] == steps + Proceeds(n - 1);
    }
  }

  lemma ProceedOnce(env: Env, s: State, n: nat, t: State)
    requires After(env, s, n) == t && t.op.Some?
    ensures After(env, s, n + 1) == Advance(env, t)
  {
    hide Advance;
  }

  /** An upper bound on the actions an operation still takes. */
  function Remaining(pc: PC): nat {
    match pc
    case Reconciling => 15
    case Checking => 14
    case AcquiringGuard => 13
    case ClearingMirror => 12
    case CheckingLatch => 11
    case Reserving => 10
    case WritingBaseContent => 9
    case RollbackFreezing(_) => 9
    case WritingBaseMetadata => 8
    case RollbackMirroring => 8
    case WritingContent => 7
    case WritingMetadata => 6
    case Preparing => 5
    case Switching => 4
    case Releasing(_) => 4
    case Publishing => 3
    case Freezing(_, _) => 3
    case Committing => 2
    case Mirroring(_) => 2
    case Denying(_) => 1
    case Finishing => 1
  }

  ghost predicate Descends(s: State, t: State) {
    s.op.Some? && (t.op.Some? ==> Remaining(t.op.value.pc) < Remaining(s.op.value.pc))
  }

  lemma DecideDescends(env: Env, s: State)
    requires LockInv(s) && s.op.Some? && Deciding(s.op.value.pc)
    ensures Descends(s, Decide(env, s, s.op.value))
  {
    hide DoCheckPromote, DoCheckRollback, DoReserve, Reconciled, History;
    var op := s.op.value;
    if op.pc == Checking {
      if op.request.PromoteRequest? {
        CheckPromoteEffect(env, s, op);
      } else {
        CheckRollbackEffect(s, op);
      }
    } else if op.pc == Reserving {
      ReserveEffect(env, s, op);
    }
  }

  lemma RefuseDescends(s: State)
    requires LockInv(s) && s.op.Some? && Refusing(s.op.value.pc)
    ensures Descends(s, Refuse(s, s.op.value))
  {
    hide DoDeny;
    if s.op.value.pc.Denying? && s.op.value.request.PromoteRequest? {
      DenyFrame(s, s.op.value);
    }
  }

  lemma GotoDescends(s: State, t: State, op: Op, next: PC)
    requires s.op == Some(op) && Remaining(next) < Remaining(op.pc)
    ensures Descends(s, Goto(t, op, next))
  {
  }

  lemma FinishDescends(s: State, t: State)
    requires s.op.Some?
    ensures Descends(s, Finish(t))
  {
  }

  /** Storing a file leads to the next point or to the end. */
  lemma WriteDescends(s: State, op: Op, v: SkillVersion, n: int, next: PC)
    requires s.op == Some(op) && Remaining(next) < Remaining(op.pc)
    ensures Descends(s, DoWriteContent(s, op, v, n, next)) && Descends(s, DoWriteMetadata(s, op, v, n, next))
  {
    hide WriteContent, WriteMetadata, MetadataOf, Goto, Finish, Descends, Remaining;
    FinishDescends(s, s);
    forall o ensures Descends(s, Goto(s.(objects := o), op, next)) {
      GotoDescends(s, s.(objects := o), op, next);
    }
  }

  lemma PrepareDescends(s: State, op: Op)
    requires s.op == Some(op)
    ensures op.pc == Preparing ==> Descends(s, DoPrepare(s, op))
    ensures op.pc == Committing ==> Descends(s, DoCommit(s, op))
  {
    hide Appended, PlanRecord;
  }

  lemma SwitchDescends(s: State, op: Op)
    requires s.op == Some(op)
    ensures op.pc == Switching ==> Descends(s, DoSwitch(s, op))
    ensures op.pc == Publishing ==> Descends(s, DoPublish(s, op))
  {
    hide PlanPin, History, Renumbered;
  }

  lemma ActivateDescends(s: State)
    requires s.op.Some? && !Deciding(s.op.value.pc) && !Refusing(s.op.value.pc)
    ensures Descends(s, Activate(s, s.op.value))
  {
    hide DoWriteContent, DoWriteMetadata, DoPrepare, DoSwitch, DoPublish, DoCommit, Finish, Descends;
    var op := s.op.value;
    match op.pc {
      case WritingBaseContent => WriteDescends(s, op, op.plan.base, 1, WritingBaseMetadata);
      case WritingBaseMetadata => WriteDescends(s, op, op.plan.base, 1, WritingContent);
      case WritingContent => WriteDescends(s, op, op.plan.body, op.plan.to, WritingMetadata);
      case WritingMetadata => WriteDescends(s, op, op.plan.body, op.plan.to, Preparing);
      case Preparing => PrepareDescends(s, op);
      case Switching => SwitchDescends(s, op);
      case Publishing => SwitchDescends(s, op);
      case Committing => PrepareDescends(s, op);
      case Finishing => FinishDescends(s, s);
    }
  }

  lemma AdvanceDescends(env: Env, s: State)
    requires LockInv(s) && s.op.Some?
    ensures Descends(s, Advance(env, s))
  {
    hide Decide, Refuse, Activate, LockInv;
    if Deciding(s.op.value.pc) {
      DecideDescends(env, s);
    } else if Refusing(s.op.value.pc) {
      RefuseDescends(s);
    } else {
      ActivateDescends(s);
    }
  }

  /** In every reachable state the next action of the operation ends it or brings it nearer to its end: no lock it may
      find taken is its own. */
  lemma NoOperationWaitsOnItself(env: Env, steps: seq<Step>)
    requires Run(env, steps).op.Some?
    ensures Descends(Run(env, steps), Advance(env, Run(env, steps)))
  {
    hide Run, LockInv, Advance;
    LocksAlwaysHold(env, steps);
    AdvanceDescends(env, Run(env, steps));
  }

  lemma {:induction false} UndisturbedEnds(env: Env, s: State, n: nat)
    requires LockInv(s) && (s.op.Some? ==> Remaining(s.op.value.pc) <= n)
    ensures After(env, s, n).op.None?
    decreases n
  {
    hide LockInv, Advance;
    if n > 0 {
      if s.op.Some? {
        AdvanceDescends(env, s);
        AdvanceKeepsLocks(env, s);
      }
      AfterFirst(env, s, n);
      UndisturbedEnds(env, Next(env, s, Proceed), n - 1);
    }
  }

  lemma {:induction false} AfterFirst(env: Env, s: State, n: nat)
    requires n > 0
    ensures After(env, s, n) == After(env, Next(env, s, Proceed), n - 1)
  {
    hide Next;
    if n > 1 {
      AfterFirst(env, s, n - 1);
    }
  }

  /** Whatever came before, an operation left to itself returns, with every lock released, within fifteen actions. */
  lemma EveryOperationEnds(env: Env, steps: seq<Step>)
    ensures var t := Run(env, steps + Proceeds(15)); t.op.None? && !t.guard && !t.reading
  {
    hide Run, After, Next;
    LocksAlwaysHold(env, steps);
    UndisturbedEnds(env, Run(env, steps), 15);
    AfterIsRun(env, steps, 15);
    LocksAlwaysHold(env, steps + Proceeds(15));
  }
}
