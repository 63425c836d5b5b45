/** What holds of deploys in every interleaving. */
module DeployProofs {
  import opened Options
  import opened Quota
  import opened Deploy

  predicate IsSettled(s: State, key: string) {
    key in s.ledger && !s.ledger[key].Reserved?
  }

  function ReceiptOf(s: State, key: string): Receipt
    requires IsSettled(s, key)
  {
    s.ledger[key].receipt
  }

  lemma {:induction false} RunAppends(cfg: Config, s: State, a: seq<Step>, b: seq<Step>)
    ensures Run(cfg, s, a + b) == Run(cfg, Run(cfg, s, a), b)
  {
    hide Next;
    if b == [] {
      assert a + b == a;
    } else {
      var n := |b| - 1;
      assert (a + b)[..|a + b| - 1] == a + b[..n] && (a + b)[|a + b| - 1] == b[n];
      RunAppends(cfg, s, a, b[..n]);
    }
  }

  // ---- Receipts ----

  /** Healthy in place, or unhealthy and rolled back; never an unhealthy deploy left standing. */
  predicate Sound(r: Receipt) {
    (r.healthy && !r.rolledBack && r.code == DEPLOYED) || (!r.healthy && r.rolledBack && r.code == UNHEALTHY_ROLLED_BACK)
  }

  /** What a call is about to record is sound, and what it answered is what is recorded. */
  ghost predicate CallAgrees(s: State, call: Call) {
    (call.pc.Settled? ==> Sound(call.pc.receipt))
    && (call.pc.Finished? && call.pc.outcome.Answer? ==>
          IsSettled(s, call.input.key) && ReceiptOf(s, call.input.key) == call.pc.outcome.receipt)
  }

  ghost predicate ReceiptsAgree(s: State) {
    (forall key :: IsSettled(s, key) ==> Sound(ReceiptOf(s, key)))
    && (forall id :: id in s.calls ==> CallAgrees(s, s.calls[id]))
  }

  /** A settled operation stays settled with the receipt it has. */
  ghost predicate LedgerGrows(s: State, t: State) {
    forall key :: IsSettled(s, key) ==> IsSettled(t, key) && ReceiptOf(t, key) == ReceiptOf(s, key)
  }

  lemma AdvanceGrowsLedger(cfg: Config, s: State, id: nat, provider: Provider)
    requires id in s.calls
    ensures LedgerGrows(s, Advance(cfg, s, id, provider))
  {
  }

  /** A step of a call touches that call only. */
  lemma AdvanceMovesOneCall(cfg: Config, s: State, id: nat, provider: Provider)
    requires id in s.calls
    ensures var t := Advance(cfg, s, id, provider);
            id in t.calls && t.calls == s.calls[id := t.calls[id]] && t.calls[id].input == s.calls[id].input
  {
    hide Admissible, Charged, Checked, RolledBack;
  }

  lemma AdvanceSettlesSoundly(cfg: Config, s: State, id: nat, provider: Provider)
    requires id in s.calls && (s.calls[id].pc.Settled? ==> Sound(s.calls[id].pc.receipt))
    ensures var t := Advance(cfg, s, id, provider);
            forall key :: IsSettled(t, key) && !IsSettled(s, key) ==> Sound(ReceiptOf(t, key))
  {
    hide Sound, Admissible, Charged;
  }

  lemma AdvanceCallAgrees(cfg: Config, s: State, id: nat, provider: Provider)
    requires id in s.calls && CallAgrees(s, s.calls[id])
    ensures var t := Advance(cfg, s, id, provider); id in t.calls && CallAgrees(t, t.calls[id])
  {
    hide Admissible, Charged;
  }

  lemma AdvanceKeepsReceipts(cfg: Config, s: State, id: nat, provider: Provider)
    requires id in s.calls && ReceiptsAgree(s)
    ensures ReceiptsAgree(Advance(cfg, s, id, provider))
  {
    hide Advance, CallAgrees, Sound;
    var t := Advance(cfg, s, id, provider);
    AdvanceGrowsLedger(cfg, s, id, provider);
    AdvanceMovesOneCall(cfg, s, id, provider);
    AdvanceCallAgrees(cfg, s, id, provider);
    SoundlySettled(cfg, s, id, provider);
    OthersKeepAgreeing(s, t, id);
  }

  lemma SoundlySettled(cfg: Config, s: State, id: nat, provider: Provider)
    requires id in s.calls && ReceiptsAgree(s)
    ensures var t := Advance(cfg, s, id, provider); forall key :: IsSettled(t, key) ==> Sound(ReceiptOf(t, key))
  {
    hide Advance, Sound;
    assert CallAgrees(s, s.calls[id]);
    AdvanceGrowsLedger(cfg, s, id, provider);
    AdvanceSettlesSoundly(cfg, s, id, provider);
    var t := Advance(cfg, s, id, provider);
    forall key | IsSettled(t, key) ensures Sound(ReceiptOf(t, key)) {
      if IsSettled(s, key) {
        assert ReceiptOf(t, key) == ReceiptOf(s, key);
      }
    }
  }

  lemma OthersKeepAgreeing(s: State, t: State, id: nat)
    requires LedgerGrows(s, t) && (forall other :: other in s.calls ==> CallAgrees(s, s.calls[other]))
    ensures forall other :: other in s.calls && other != id ==> CallAgrees(t, s.calls[other])
  {
  }

  lemma StepKeepsReceipts(cfg: Config, s: State, step: Step)
    ensures LedgerGrows(s, Next(cfg, s, step))
    ensures ReceiptsAgree(s) ==> ReceiptsAgree(Next(cfg, s, step))
  {
    hide Advance;
    if step.Proceed? && step.id in s.calls {
      AdvanceGrowsLedger(cfg, s, step.id, step.provider);
      if ReceiptsAgree(s) {
        AdvanceKeepsReceipts(cfg, s, step.id, step.provider);
      }
    }
  }

  lemma {:induction false} RunKeepsReceipts(cfg: Config, s: State, steps: seq<Step>)
    ensures LedgerGrows(s, Run(cfg, s, steps))
    ensures ReceiptsAgree(s) ==> ReceiptsAgree(Run(cfg, s, steps))
  {
    hide Next, ReceiptsAgree;
    if steps != [] {
      var n := |steps| - 1;
      RunKeepsReceipts(cfg, s, steps[..n]);
      StepKeepsReceipts(cfg, Run(cfg, s, steps[..n]), steps[n]);
    }
  }

  /** Receipts are write-once over any interleaving, crash or restart. */
  lemma ReceiptsAreWriteOnce(cfg: Config, steps: seq<Step>, more: seq<Step>, key: string)
    requires IsSettled(Run(cfg, START, steps), key)
    ensures var s, t := Run(cfg, START, steps), Run(cfg, START, steps + more);
            IsSettled(t, key) && ReceiptOf(t, key) == ReceiptOf(s, key)
  {
    hide Next;
    RunAppends(cfg, START, steps, more);
    RunKeepsReceipts(cfg, Run(cfg, START, steps), more);
  }

  /** Every recorded receipt is a healthy deploy or a completed rollback. */
  lemma EveryReceiptIsSound(cfg: Config, steps: seq<Step>, key: string)
    requires IsSettled(Run(cfg, START, steps), key)
    ensures Sound(ReceiptOf(Run(cfg, START, steps), key))
  {
    hide Next;
    RunKeepsReceipts(cfg, START, steps);
  }

  /** All calls with one key that are answered get the same receipt, however they interleave. */
  lemma AnswersAgree(cfg: Config, steps: seq<Step>, a: nat, b: nat)
    requires var calls := Run(cfg, START, steps).calls;
             a in calls && b in calls && calls[a].input.key == calls[b].input.key
             && calls[a].pc.Finished? && calls[a].pc.outcome.Answer? && calls[b].pc.Finished? && calls[b].pc.outcome.Answer?
    ensures var calls := Run(cfg, START, steps).calls; calls[a].pc == calls[b].pc
  {
    hide Next;
    RunKeepsReceipts(cfg, START, steps);
  }

  // ---- Only gated calls deploy ----

  /** The environment is granted and the readiness gate passed. */
  predicate Gated(input: Input) {
    input.request.environment in input.granted && input.gate == Passed
  }

  ghost predicate GatesHold(s: State) {
    (forall id :: id in s.calls ==> Gated(s.calls[id].input) || (s.calls[id].pc.Finished? && s.calls[id].pc.outcome.Refused?))
    && (forall i :: 0 <= i < |s.log| && s.log[i].Deployment? ==>
          s.log[i].id in s.calls && Gated(s.calls[s.log[i].id].input)
          && s.calls[s.log[i].id].input.key == s.log[i].key && s.calls[s.log[i].id].input.profile == s.log[i].profile)
  }

  lemma AdvanceKeepsGates(cfg: Config, s: State, id: nat, provider: Provider)
    requires id in s.calls && GatesHold(s)
    ensures GatesHold(Advance(cfg, s, id, provider))
  {
    hide Advance, Gated;
    var t := Advance(cfg, s, id, provider);
    AdvanceMovesOneCall(cfg, s, id, provider);
    AdvanceDeploysItself(cfg, s, id, provider);
  }

  /** A step of a call logs a deployment of that call only, and refused calls do not move. */
  lemma AdvanceDeploysItself(cfg: Config, s: State, id: nat, provider: Provider)
    requires id in s.calls
    ensures var t := Advance(cfg, s, id, provider);
            id in t.calls
            && (t.log == s.log || (|t.log| == |s.log| + 1 && t.log == s.log + [t.log[|s.log|]]))
            && (t.log != s.log && t.log[|s.log|].Deployment? ==>
                  t.log[|s.log|] == Deployment(id, s.calls[id].input.key, s.calls[id].input.profile) && s.calls[id].pc == Admitted)
            && (t.log != s.log ==> !t.log[|s.log|].Restarted?)
            && (s.calls[id].pc.Finished? ==> t.calls[id] == s.calls[id])
  {
    hide Admissible, Charged;
  }

  lemma StepKeepsGates(cfg: Config, s: State, step: Step)
    requires GatesHold(s)
    ensures GatesHold(Next(cfg, s, step))
  {
    hide Advance, Admissible;
    if step.Proceed? && step.id in s.calls {
      AdvanceKeepsGates(cfg, s, step.id, step.provider);
    }
  }

  lemma {:induction false} RunKeepsGates(cfg: Config, steps: seq<Step>)
    ensures GatesHold(Run(cfg, START, steps))
  {
    hide Next;
    if steps != [] {
      RunKeepsGates(cfg, steps[..|steps| - 1]);
      StepKeepsGates(cfg, Run(cfg, START, steps[..|steps| - 1]), steps[|steps| - 1]);
    }
  }

  /** In every interleaving the provider is asked to deploy only for a call whose environment is granted and whose
      gate passed. */
  lemma OnlyGatedCallsDeploy(cfg: Config, steps: seq<Step>, i: nat)
    requires i < |Run(cfg, START, steps).log| && Run(cfg, START, steps).log[i].Deployment?
    ensures var s := Run(cfg, START, steps);
            s.log[i].id in s.calls && Gated(s.calls[s.log[i].id].input) && s.calls[s.log[i].id].input.key == s.log[i].key
  {
    hide Next;
    RunKeepsGates(cfg, steps);
  }

  // ---- The quota bounds the deploys ----

  function Deploys(log: seq<Event>, profile: string): nat {
    if log == [] then 0
    else
      var last := log[|log| - 1];
      Deploys(log[..|log| - 1], profile) + if last.Deployment? && last.profile == profile then 1 else 0
  }

  function SinceRestart(log: seq<Event>, profile: string): nat {
    if log == [] then 0
    else
      var last := log[|log| - 1];
      if last.Restarted? then 0
      else SinceRestart(log[..|log| - 1], profile) + if last.Deployment? && last.profile == profile then 1 else 0
  }

  function Restarts(log: seq<Event>): nat {
    if log == [] then 0 else Restarts(log[..|log| - 1]) + if log[|log| - 1].Restarted? then 1 else 0
  }

  ghost function Pending(calls: map<nat, Call>, profile: string): set<nat> {
    set id | id in calls && calls[id].pc == Admitted && calls[id].input.profile == profile
  }

  ghost predicate QuotaHolds(cfg: Config, s: State, profile: string)
    requires profile in cfg.limits
  {
    var max := cfg.limits[profile].admissions;
    SinceRestart(s.log, profile) + |Pending(s.calls, profile)| <= Used(s.usage, profile).admissions <= max
    && Deploys(s.log, profile) <= Restarts(s.log) * max + SinceRestart(s.log, profile)
  }

  lemma LogSnoc(log: seq<Event>, event: Event, profile: string)
    ensures Deploys(log + [event], profile) == Deploys(log, profile) + (if event.Deployment? && event.profile == profile then 1 else 0)
    ensures SinceRestart(log + [event], profile)
            == if event.Restarted? then 0 else SinceRestart(log, profile) + (if event.Deployment? && event.profile == profile then 1 else 0)
    ensures Restarts(log + [event]) == Restarts(log) + (if event.Restarted? then 1 else 0)
  {
  }

  lemma PendingAfter(calls: map<nat, Call>, id: nat, call: Call, profile: string)
    requires id in calls ==> calls[id].input == call.input
    ensures var before, after := Pending(calls, profile), Pending(calls[id := call], profile);
            |after| == |before| - (if id in before then 1 else 0)
                       + (if call.pc == Admitted && call.input.profile == profile then 1 else 0)
  {
    var before, after := Pending(calls, profile), Pending(calls[id := call], profile);
    if call.pc == Admitted && call.input.profile == profile {
      assert after == before + {id};
    } else {
      assert after == before - {id};
    }
  }

  lemma AdvanceKeepsQuota(cfg: Config, s: State, id: nat, provider: Provider, profile: string)
    requires profile in cfg.limits && Limited(cfg, profile) && cfg.limits[profile].admissions > 0
    requires QuotaHolds(cfg, s, profile) && id in s.calls
    ensures QuotaHolds(cfg, Advance(cfg, s, id, provider), profile)
  {
    hide Pending, Deploys, SinceRestart, Restarts, Advance;
    var t := Advance(cfg, s, id, provider);
    AdvanceMovesOneCall(cfg, s, id, provider);
    AdvanceCharges(cfg, s, id, provider, profile);
    AdvanceDeploysItself(cfg, s, id, provider);
    PendingAfter(s.calls, id, t.calls[id], profile);
    PendingMember(s.calls, id, profile);
    if t.log != s.log {
      LogSnoc(s.log, t.log[|s.log|], profile);
    }
  }

  /** A call that becomes admitted has charged its profile; one that was admitted deploys. */
  lemma AdvanceCharges(cfg: Config, s: State, id: nat, provider: Provider, profile: string)
    requires id in s.calls && profile in cfg.limits && Limited(cfg, profile) && cfg.limits[profile].admissions > 0
    ensures var t := Advance(cfg, s, id, provider);
            var mine := s.calls[id].input.profile == profile;
            var used, before := Used(t.usage, profile).admissions, Used(s.usage, profile).admissions;
            id in t.calls
            && used == before + (if mine && t.calls[id].pc == Admitted then 1 else 0)
            && (used != before ==> used <= cfg.limits[profile].admissions)
            && (s.calls[id].pc == Admitted ==> t.calls[id].pc != Admitted)
  {
  }

  lemma PendingMember(calls: map<nat, Call>, id: nat, profile: string)
    ensures id in Pending(calls, profile) <==> id in calls && calls[id].pc == Admitted && calls[id].input.profile == profile
  {
  }

  lemma StepKeepsQuota(cfg: Config, s: State, step: Step, profile: string)
    requires profile in cfg.limits && Limited(cfg, profile) && cfg.limits[profile].admissions > 0
    requires QuotaHolds(cfg, s, profile)
    ensures QuotaHolds(cfg, Next(cfg, s, step), profile)
  {
    hide Advance, Deploys, SinceRestart, Restarts, Pending;
    match step {
      case Begin(id, input) =>
        if id !in s.calls {
          PendingAfter(s.calls, id, Next(cfg, s, step).calls[id], profile);
          PendingMember(s.calls, id, profile);
        }
      case Proceed(id, provider) =>
        if id in s.calls {
          AdvanceKeepsQuota(cfg, s, id, provider, profile);
        }
      case Abandon(id) =>
        if id in s.calls {
          PendingAfter(s.calls, id, Dropped(s.calls[id]), profile);
        }
      case Reconcile(key) =>
      case Restart =>
        LogSnoc(s.log, Restarted, profile);
        NothingPending(s.calls, profile);
        RestartArithmetic(Restarts(s.log), cfg.limits[profile].admissions);
    }
  }

  lemma RestartArithmetic(n: nat, max: int)
    ensures (n + 1) * max == n * max + max
  {
  }

  lemma NothingPending(calls: map<nat, Call>, profile: string)
    ensures |Pending(map id | id in calls :: Dropped(calls[id]), profile)| == 0
  {
  }

  lemma {:induction false} RunKeepsQuota(cfg: Config, steps: seq<Step>, profile: string)
    requires profile in cfg.limits && Limited(cfg, profile) && cfg.limits[profile].admissions > 0
    ensures QuotaHolds(cfg, Run(cfg, START, steps), profile)
  {
    hide Next;
    if steps == [] {
      assert Pending(map[], profile) == {};
    } else {
      RunKeepsQuota(cfg, steps[..|steps| - 1], profile);
      StepKeepsQuota(cfg, Run(cfg, START, steps[..|steps| - 1]), steps[|steps| - 1], profile);
    }
  }

  /** Over any interleaving the provider is asked to deploy for a profile at most its admissions between
      restarts, and at most that many times the number of worker lives in all. */
  lemma DeploysStayWithinQuota(cfg: Config, steps: seq<Step>, profile: string)
    requires cfg.enforced && profile != "" && profile in cfg.limits && cfg.limits[profile].admissions > 0
    ensures var log := Run(cfg, START, steps).log;
            var max := cfg.limits[profile].admissions;
            SinceRestart(log, profile) <= max && Deploys(log, profile) <= (Restarts(log) + 1) * max
  {
    hide Next;
    RunKeepsQuota(cfg, steps, profile);
    RestartArithmetic(Restarts(Run(cfg, START, steps).log), cfg.limits[profile].admissions);
  }

  // ---- When a settled operation can run again ----

  /** The call holds a reservation it took while its operation was not settled. */
  predicate Holds(call: Call) {
    call.pc == Held || call.pc == Admitted
  }

  /** The log's recordings are the ledger's settlements, one a key, and a call that may still deploy
      reserved before its key was recorded. */
  ghost predicate LogTells(s: State) {
    (forall i :: 0 <= i < |s.log| && s.log[i].Recording? ==>
       IsSettled(s, s.log[i].key) && ReceiptOf(s, s.log[i].key) == s.log[i].receipt)
    && (forall i, j :: 0 <= i < j < |s.log| && s.log[i].Recording? && s.log[j].Recording? ==> s.log[i].key != s.log[j].key)
    && (forall id :: id in s.calls && Holds(s.calls[id]) ==>
          Reservation(id, s.calls[id].input.key) in s.log && BeforeRecording(s.log, id, s.calls[id].input.key))
  }

  ghost predicate BeforeRecording(log: seq<Event>, id: nat, key: string) {
    forall i :: 0 <= i < |log| && log[i].Recording? && log[i].key == key ==> Reservation(id, key) in log[..i]
  }

  /** Every deployment after a recording of its key was reserved before it. */
  ghost predicate RerunsWereHeld(log: seq<Event>) {
    forall i, j :: 0 <= i < j < |log| && log[i].Recording? && log[j].Deployment? && log[j].key == log[i].key ==>
      Reservation(log[j].id, log[j].key) in log[..i]
  }

  /** The calls that may still deploy are ones that could before, except a call that has just reserved. */
  ghost predicate HoldersWereHolders(s: State, t: State, e: Option<Event>) {
    forall id :: id in t.calls && Holds(t.calls[id]) ==>
      (id in s.calls && Holds(s.calls[id]) && s.calls[id].input == t.calls[id].input)
      || (e == Some(Reservation(id, t.calls[id].input.key)) && !IsSettled(s, t.calls[id].input.key))
  }

  lemma BeforeRecordingGrows(log: seq<Event>, e: Event, id: nat, key: string)
    requires BeforeRecording(log, id, key) && (e.Recording? && e.key == key ==> Reservation(id, key) in log)
    ensures BeforeRecording(log + [e], id, key)
  {
    forall i | 0 <= i < |log + [e]| && (log + [e])[i].Recording? && (log + [e])[i].key == key
      ensures Reservation(id, key) in (log + [e])[..i]
    {
      assert (log + [e])[..i] == log[..i];
      if i == |log| {
        assert log[..i] == log;
      }
    }
  }

  lemma AppendKeepsLog(s: State, t: State, e: Event)
    requires LogTells(s) && LedgerGrows(s, t) && t.log == s.log + [e] && HoldersWereHolders(s, t, Some(e))
    requires e.Recording? ==> !IsSettled(s, e.key) && IsSettled(t, e.key) && ReceiptOf(t, e.key) == e.receipt
    ensures LogTells(t)
  {
    forall id | id in t.calls && Holds(t.calls[id])
      ensures Reservation(id, t.calls[id].input.key) in t.log && BeforeRecording(t.log, id, t.calls[id].input.key)
    {
      BeforeRecordingGrows(s.log, e, id, t.calls[id].input.key);
    }
  }

  /** What a step of a call logs, and whether the call may deploy after it. */
  lemma AdvanceLogs(cfg: Config, s: State, id: nat, provider: Provider)
    requires id in s.calls
    ensures var t := Advance(cfg, s, id, provider);
            id in t.calls
            && (t.log == s.log || (|t.log| == |s.log| + 1 && t.log == s.log + [t.log[|s.log|]]))
            && (t.log == s.log && Holds(t.calls[id]) ==> Holds(s.calls[id]))
            && (t.log != s.log ==>
                  var e := t.log[|s.log|];
                  (Holds(t.calls[id]) ==> e == Reservation(id, s.calls[id].input.key) && !IsSettled(s, s.calls[id].input.key))
                  && (e.Recording? ==> !IsSettled(s, e.key) && IsSettled(t, e.key) && ReceiptOf(t, e.key) == e.receipt))
  {
    hide Admissible, Charged;
  }

  lemma AdvanceKeepsLog(cfg: Config, s: State, id: nat, provider: Provider)
    requires LogTells(s) && id in s.calls
    ensures LogTells(Advance(cfg, s, id, provider))
  {
    hide LogTells, Advance, IsSettled;
    var t := Advance(cfg, s, id, provider);
    AdvanceGrowsLedger(cfg, s, id, provider);
    AdvanceMovesOneCall(cfg, s, id, provider);
    AdvanceLogs(cfg, s, id, provider);
    if t.log == s.log {
      SameLogTells(s, t);
    } else {
      AppendKeepsLog(s, t, t.log[|s.log|]);
    }
  }

  lemma SameLogTells(s: State, t: State)
    requires LogTells(s) && t.log == s.log && LedgerGrows(s, t) && HoldersWereHolders(s, t, None)
    ensures LogTells(t)
  {
  }

  lemma StepKeepsLog(cfg: Config, s: State, step: Step)
    requires LogTells(s)
    ensures LogTells(Next(cfg, s, step))
  {
    hide Advance, LogTells;
    var t := Next(cfg, s, step);
    StepKeepsReceipts(cfg, s, step);
    if step.Proceed? && step.id in s.calls {
      AdvanceKeepsLog(cfg, s, step.id, step.provider);
    } else if step.Restart? {
      AppendKeepsLog(s, t, Restarted);
    } else {
      SameLogTells(s, t);
    }
  }

  /** The event a step logs, if any: a deployment is one of the admitted call that steps. */
  lemma StepLogs(cfg: Config, s: State, step: Step)
    ensures var t := Next(cfg, s, step);
            t.log == s.log
            || (|t.log| == |s.log| + 1 && t.log[..|s.log|] == s.log
                && (t.log[|s.log|].Deployment? ==>
                      var e := t.log[|s.log|];
                      e.id in s.calls && s.calls[e.id].pc == Admitted && s.calls[e.id].input.key == e.key))
  {
  }

  lemma {:induction false} RunKeepsLog(cfg: Config, steps: seq<Step>)
    ensures LogTells(Run(cfg, START, steps)) && RerunsWereHeld(Run(cfg, START, steps).log)
  {
    hide Next;
    if steps != [] {
      var s, step := Run(cfg, START, steps[..|steps| - 1]), steps[|steps| - 1];
      RunKeepsLog(cfg, steps[..|steps| - 1]);
      StepKeepsLog(cfg, s, step);
      StepLogs(cfg, s, step);
      StepKeepsReruns(s, Next(cfg, s, step).log);
    }
  }

  lemma StepKeepsReruns(s: State, log: seq<Event>)
    requires LogTells(s) && RerunsWereHeld(s.log)
    requires log == s.log
             || (|log| == |s.log| + 1 && log[..|s.log|] == s.log
                 && (log[|s.log|].Deployment? ==>
                       var e := log[|s.log|];
                       e.id in s.calls && s.calls[e.id].pc == Admitted && s.calls[e.id].input.key == e.key))
    ensures RerunsWereHeld(log)
  {
  }

  /** In every interleaving: the receipt recorded for a key is recorded once, and a deployment after it can
      only come from a call that had already reserved the key before it was recorded. */
  lemma LateDeploysReservedEarlier(cfg: Config, steps: seq<Step>, i: nat, j: nat)
    requires var log := Run(cfg, START, steps).log;
             i < j < |log| && log[i].Recording? && !log[j].Reservation? && !log[j].Restarted? && log[j].key == log[i].key
    ensures var log := Run(cfg, START, steps).log;
            log[j].Deployment? && Reservation(log[j].id, log[j].key) in log[..i]
  {
    hide Next;
    RunKeepsLog(cfg, steps);
  }
}
