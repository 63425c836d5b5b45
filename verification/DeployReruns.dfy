/** "At most once per key": when a settled operation can still run again, and when it cannot. */
module DeployReruns {
  import opened Options
  import opened Deploy
  import opened DeployProofs

  function KeyDeploys(log: seq<Event>, key: string): nat {
    if log == [] then 0
    else
      var last := log[|log| - 1];
      KeyDeploys(log[..|log| - 1], key) + if last.Deployment? && last.key == key then 1 else 0
  }

  /** Some call with this key has taken its quota, or holds the reservation and could take it now. */
  ghost predicate CanRerun(cfg: Config, s: State, key: string) {
    exists id :: id in s.calls && s.calls[id].input.key == key
              && (s.calls[id].pc == Admitted || (s.calls[id].pc == Held && Admissible(cfg, s.usage, s.calls[id].input.profile)))
  }

  ghost predicate CallIsSpent(cfg: Config, s: State, call: Call, key: string) {
    call.input.key == key ==>
      call.pc != Admitted && (call.pc == Held ==> !Admissible(cfg, s.usage, call.input.profile))
  }

  ghost predicate Spent(cfg: Config, s: State, key: string) {
    IsSettled(s, key) && forall id :: id in s.calls ==> CallIsSpent(cfg, s, s.calls[id], key)
  }

  lemma AdvanceKeepsSpent(cfg: Config, s: State, id: nat, provider: Provider, key: string)
    requires Spent(cfg, s, key) && id in s.calls
    ensures Spent(cfg, Advance(cfg, s, id, provider), key)
  {
    hide Advance, CallIsSpent;
    var t := Advance(cfg, s, id, provider);
    AdvanceGrowsLedger(cfg, s, id, provider);
    AdvanceMovesOneCall(cfg, s, id, provider);
    AdvanceSpends(cfg, s, id, provider, key);
    forall other | other in t.calls ensures CallIsSpent(cfg, t, t.calls[other], key) {
      if other != id {
        OthersStaySpent(cfg, s, id, provider, s.calls[other], key);
      }
    }
  }

  lemma AdvanceSpends(cfg: Config, s: State, id: nat, provider: Provider, key: string)
    requires IsSettled(s, key) && id in s.calls && CallIsSpent(cfg, s, s.calls[id], key)
    ensures var t := Advance(cfg, s, id, provider); id in t.calls && CallIsSpent(cfg, t, t.calls[id], key)
  {
    hide Admissible, Charged;
  }

  lemma OthersStaySpent(cfg: Config, s: State, id: nat, provider: Provider, call: Call, key: string)
    requires id in s.calls && CallIsSpent(cfg, s, call, key)
    ensures CallIsSpent(cfg, Advance(cfg, s, id, provider), call, key)
  {
  }

  lemma StepKeepsSpent(cfg: Config, s: State, step: Step, key: string)
    requires Spent(cfg, s, key)
    ensures Spent(cfg, Next(cfg, s, step), key)
    ensures KeyDeploys(Next(cfg, s, step).log, key) == KeyDeploys(s.log, key)
  {
    hide Advance, Admissible;
    if step.Proceed? && step.id in s.calls {
      AdvanceKeepsSpent(cfg, s, step.id, step.provider, key);
    }
    StepCountsNothing(cfg, s, step, key);
  }

  lemma StepCountsNothing(cfg: Config, s: State, step: Step, key: string)
    requires forall id :: id in s.calls ==> CallIsSpent(cfg, s, s.calls[id], key)
    ensures KeyDeploys(Next(cfg, s, step).log, key) == KeyDeploys(s.log, key)
  {
    hide Next;
    StepLogs(cfg, s, step);
  }

  lemma {:induction false} SpentStaysSpent(cfg: Config, s: State, steps: seq<Step>, key: string)
    requires Spent(cfg, s, key)
    ensures Spent(cfg, Run(cfg, s, steps), key) && KeyDeploys(Run(cfg, s, steps).log, key) == KeyDeploys(s.log, key)
  {
    hide Next, Spent;
    if steps != [] {
      SpentStaysSpent(cfg, s, steps[..|steps| - 1], key);
      StepKeepsSpent(cfg, Run(cfg, s, steps[..|steps| - 1]), steps[|steps| - 1], key);
    }
  }

  lemma RunOne(cfg: Config, s: State, step: Step)
    ensures Run(cfg, s, [step]) == Next(cfg, s, step)
  {
  }

  lemma AdmittedDeploys(cfg: Config, s: State, id: nat)
    requires id in s.calls && s.calls[id].pc == Admitted
    ensures KeyDeploys(Next(cfg, s, Proceed(id, Provider(None, false, false))).log, s.calls[id].input.key)
            == KeyDeploys(s.log, s.calls[id].input.key) + 1
  {
  }

  lemma RerunIsPossible(cfg: Config, s: State, key: string) returns (steps: seq<Step>)
    requires CanRerun(cfg, s, key)
    ensures KeyDeploys(Run(cfg, s, steps).log, key) > KeyDeploys(s.log, key)
  {
    var id :| id in s.calls && s.calls[id].input.key == key
           && (s.calls[id].pc == Admitted || (s.calls[id].pc == Held && Admissible(cfg, s.usage, s.calls[id].input.profile)));
    var go := Proceed(id, Provider(None, false, false));
    if s.calls[id].pc == Admitted {
      steps := [go];
      RunOne(cfg, s, go);
      AdmittedDeploys(cfg, s, id);
    } else {
      steps := [go] + [go];
      var t := Next(cfg, s, go);
      assert t.calls[id].pc == Admitted && t.log == s.log;
      RunAppends(cfg, s, [go], [go]);
      RunOne(cfg, s, go);
      RunOne(cfg, t, go);
      AdmittedDeploys(cfg, t, id);
    }
  }

  /** After its receipt is recorded, an operation's side effect can run again exactly when another call with
      the key was already past its reservation and can still be admitted. */
  lemma RerunsExactlyWhenHeld(cfg: Config, s: State, key: string)
    requires IsSettled(s, key)
    ensures (exists steps :: KeyDeploys(Run(cfg, s, steps).log, key) > KeyDeploys(s.log, key)) <==> CanRerun(cfg, s, key)
  {
    hide Next, Run;
    if CanRerun(cfg, s, key) {
      var steps := RerunIsPossible(cfg, s, key);
    } else {
      assert Spent(cfg, s, key);
      forall steps ensures KeyDeploys(Run(cfg, s, steps).log, key) == KeyDeploys(s.log, key) {
        SpentStaysSpent(cfg, s, steps, key);
      }
    }
  }

  // ---- One call per key at a time ----

  /** No two unfinished calls share a key. */
  ghost predicate OneCallPerKey(s: State) {
    forall a, b ::
      a in s.calls && b in s.calls && !s.calls[a].pc.Finished? && !s.calls[b].pc.Finished? && a != b ==>
        s.calls[a].input.key != s.calls[b].input.key
  }

  /** No deployment follows the recording of its key. */
  ghost predicate NothingAfterReceipt(log: seq<Event>) {
    forall i, j :: 0 <= i < j < |log| && log[i].Recording? && log[j].Deployment? ==> log[i].key != log[j].key
  }

  ghost predicate SettledIsQuiet(s: State) {
    forall id :: id in s.calls && Holds(s.calls[id]) ==> !IsSettled(s, s.calls[id].input.key)
  }

  lemma StepKeepsQuiet(cfg: Config, s: State, step: Step)
    requires SettledIsQuiet(s) && OneCallPerKey(s)
    ensures SettledIsQuiet(Next(cfg, s, step))
  {
    hide Advance;
    if step.Proceed? && step.id in s.calls {
      AdvanceKeepsQuiet(cfg, s, step.id, step.provider);
    }
  }

  lemma AdvanceKeepsQuiet(cfg: Config, s: State, id: nat, provider: Provider)
    requires SettledIsQuiet(s) && OneCallPerKey(s) && id in s.calls
    ensures SettledIsQuiet(Advance(cfg, s, id, provider))
  {
    hide Advance;
    var t := Advance(cfg, s, id, provider);
    AdvanceMovesOneCall(cfg, s, id, provider);
    AdvanceSettlesItsOwn(cfg, s, id, provider);
  }

  lemma AdvanceSettlesItsOwn(cfg: Config, s: State, id: nat, provider: Provider)
    requires id in s.calls && (Holds(s.calls[id]) ==> !IsSettled(s, s.calls[id].input.key))
    ensures var t := Advance(cfg, s, id, provider);
            id in t.calls
            && (Holds(t.calls[id]) ==> !IsSettled(t, s.calls[id].input.key))
            && (forall key :: IsSettled(t, key) && !IsSettled(s, key) ==> key == s.calls[id].input.key && s.calls[id].pc.Settled?)
  {
  }

  lemma QuietKeepsReceipts(s: State, log: seq<Event>)
    requires LogTells(s) && SettledIsQuiet(s) && NothingAfterReceipt(s.log)
    requires log == s.log
             || (|log| == |s.log| + 1 && log[..|s.log|] == s.log
                 && (log[|s.log|].Deployment? ==>
                       var e := log[|s.log|];
                       e.id in s.calls && s.calls[e.id].pc == Admitted && s.calls[e.id].input.key == e.key))
    ensures NothingAfterReceipt(log)
  {
  }

  /** Where a retry begins only after the previous attempt ended, no side effect ever runs again once its
      receipt is recorded - through crashes, restarts and any number of other keys. */
  lemma {:induction false} OneAtATimeNeverReruns(cfg: Config, steps: seq<Step>)
    requires forall n :: 0 <= n <= |steps| ==> OneCallPerKey(Run(cfg, START, steps[..n]))
    ensures NothingAfterReceipt(Run(cfg, START, steps).log) && SettledIsQuiet(Run(cfg, START, steps))
  {
    hide Next, OneCallPerKey, SettledIsQuiet, NothingAfterReceipt, LogTells;
    if steps == [] {
      StartIsQuiet();
    } else {
      var n := |steps| - 1;
      var init := steps[..n];
      forall m | 0 <= m <= |init| ensures OneCallPerKey(Run(cfg, START, init[..m])) {
        assert init[..m] == steps[..m];
      }
      OneAtATimeNeverReruns(cfg, init);
      var s := Run(cfg, START, init);
      StepKeepsQuiet(cfg, s, steps[n]);
      RunKeepsLog(cfg, init);
      StepLogs(cfg, s, steps[n]);
      QuietKeepsReceipts(s, Next(cfg, s, steps[n]).log);
    }
  }

  lemma StartIsQuiet()
    ensures NothingAfterReceipt(START.log) && SettledIsQuiet(START)
  {
  }

  // ---- Two calls with one key ----

  lemma Begins(cfg: Config, s: State, id: nat, input: Input)
    requires id !in s.calls && Refusal(cfg, s.usage, input).None?
    ensures Next(cfg, s, Begin(id, input)) == s.(calls := s.calls[id := Call(input, Ready)])
  {
  }

  /** A call that is not yet past its reservation holds it after one step, unless the key is settled. */
  lemma Reserves(cfg: Config, s: State, id: nat, provider: Provider)
    requires id in s.calls && s.calls[id].pc == Ready && !IsSettled(s, s.calls[id].input.key)
    ensures var call := s.calls[id];
            Next(cfg, s, Proceed(id, provider))
            == State(s.ledger[call.input.key := Reserved], s.usage, s.calls[id := call.(pc := Held)],
                     s.log + [Reservation(id, call.input.key)])
  {
  }

  /** A holder that is admitted deploys, passes its health check and records its receipt in four steps. */
  lemma HolderCompletes(cfg: Config, s: State, id: nat, provider: Provider)
    requires id in s.calls && s.calls[id].pc == Held && s.calls[id].input.key in s.ledger
    requires s.ledger[s.calls[id].input.key].Reserved?
    requires Admissible(cfg, s.usage, s.calls[id].input.profile) && provider.deployed.Some? && provider.healthy
    requires HealthURL(s.calls[id].input.request, provider.deployed.value) != ""
    ensures var call := s.calls[id];
            var receipt := Receipt(provider.deployed.value, true, false, DEPLOYED);
            var go := Proceed(id, provider);
            Run(cfg, s, [go, go, go, go])
            == State(s.ledger[call.input.key := Executed(receipt)], Charged(cfg, s.usage, call.input.profile),
                     s.calls[id := call.(pc := Finished(Answer(receipt)))],
                     s.log + [Deployment(id, call.input.key, call.input.profile), Recording(id, call.input.key, receipt)])
  {
    hide Admissible, Charged;
    var call, go := s.calls[id], Proceed(id, provider);
    var receipt := Receipt(provider.deployed.value, true, false, DEPLOYED);
    var deployed := s.log + [Deployment(id, call.input.key, call.input.profile)];
    FourSteps(cfg, s, [go, go, go, go]);
    var charged := s.(usage := Charged(cfg, s.usage, call.input.profile));
    assert Next(cfg, s, go) == charged.(calls := s.calls[id := call.(pc := Admitted)]);
    HolderGoesLive(cfg, charged, id, provider);
    var live := charged.(log := deployed, calls := s.calls[id := call.(pc := Live(provider.deployed.value))]);
    assert Next(cfg, live, go) == live.(calls := s.calls[id := call.(pc := Settled(receipt))]);
    SettledRecords(cfg, Next(cfg, live, go), id, provider);
    assert deployed + [Recording(id, call.input.key, receipt)]
        == s.log + [Deployment(id, call.input.key, call.input.profile), Recording(id, call.input.key, receipt)];
  }

  lemma HolderGoesLive(cfg: Config, s: State, id: nat, provider: Provider)
    requires id in s.calls && provider.deployed.Some?
    ensures var call := s.calls[id];
            Next(cfg, s.(calls := s.calls[id := call.(pc := Admitted)]), Proceed(id, provider))
            == s.(log := s.log + [Deployment(id, call.input.key, call.input.profile)],
                  calls := s.calls[id := call.(pc := Live(provider.deployed.value))])
  {
  }

  lemma SettledRecords(cfg: Config, s: State, id: nat, provider: Provider)
    requires id in s.calls && s.calls[id].pc.Settled? && s.calls[id].input.key in s.ledger
    requires s.ledger[s.calls[id].input.key].Reserved?
    ensures var call := s.calls[id];
            Next(cfg, s, Proceed(id, provider))
            == State(s.ledger[call.input.key := Executed(call.pc.receipt)], s.usage,
                     s.calls[id := call.(pc := Finished(Answer(call.pc.receipt)))],
                     s.log + [Recording(id, call.input.key, call.pc.receipt)])
  {
  }

  /** Two overlapping calls with one key that the checks let through: both reserve, the first completes and records its
      receipt, and from there the second can run the side effect again exactly when the quota has room for two. */
  lemma OverlappingCallsCanRunTwice(cfg: Config, input: Input, provider: Provider)
    requires Refusal(cfg, map[], input).None?
    requires provider.deployed.Some? && provider.healthy && HealthURL(input.request, provider.deployed.value) != ""
    ensures var go := Proceed(1, provider);
            var s := Run(cfg, START, [Begin(1, input), Begin(2, input), go, Proceed(2, provider)] + [go, go, go, go]);
            IsSettled(s, input.key)
            && (CanRerun(cfg, s, input.key) <==> Admissible(cfg, Charged(cfg, map[], input.profile), input.profile))
  {
    hide Next, Run, Admissible, Charged;
    var go := Proceed(1, provider);
    var opening := [Begin(1, input), Begin(2, input), go, Proceed(2, provider)];
    FourSteps(cfg, START, opening);
    Begins(cfg, START, 1, input);
    var s1 := START.(calls := map[1 := Call(input, Ready)]);
    Begins(cfg, s1, 2, input);
    var s2 := s1.(calls := s1.calls[2 := Call(input, Ready)]);
    Reserves(cfg, s2, 1, provider);
    var s3 := Next(cfg, s2, go);
    Reserves(cfg, s3, 2, provider);
    var s4 := Next(cfg, s3, Proceed(2, provider));
    RunAppends(cfg, START, opening, [go, go, go, go]);
    HolderCompletes(cfg, s4, 1, provider);
    var s8 := Run(cfg, s4, [go, go, go, go]);
    assert 2 in s8.calls && s8.calls[2] == Call(input, Held);
    assert forall id :: id in s8.calls ==> id == 1 || id == 2;
  }

  lemma FourSteps(cfg: Config, s: State, steps: seq<Step>)
    requires |steps| == 4
    ensures Run(cfg, s, steps) == Next(cfg, Next(cfg, Next(cfg, Next(cfg, s, steps[0]), steps[1]), steps[2]), steps[3])
  {
    hide Next;
    assert steps[..3][..2] == steps[..2] && steps[..2][..1] == steps[..1] && steps[..1][..0] == [];
    assert Run(cfg, s, steps[..1]) == Next(cfg, s, steps[0]);
    assert Run(cfg, s, steps[..2]) == Next(cfg, Run(cfg, s, steps[..1]), steps[1]);
    assert Run(cfg, s, steps[..3]) == Next(cfg, Run(cfg, s, steps[..2]), steps[2]);
  }
}
