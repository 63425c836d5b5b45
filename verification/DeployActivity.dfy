/** The deploy activity as it executes, uninterrupted, against the ledger and the quota objects. */
module DeployActivity {
  import opened Options
  import opened Quota
  import opened Deploy
  import opened DeployProofs

  /** The external-operation ledger (internal/ledger/extops/store.go): one row a key. */
  class OpLedger {
    var ops: map<string, Op>

    constructor ()
      ensures ops == map[]
    {
      ops := map[];
    }

    /** Inserts a reserved row, or returns the row that is there. */
    method Reserve(key: string) returns (op: Op)
      modifies this
      ensures op == if key in old(ops) then old(ops)[key] else Op.Reserved
      ensures ops == old(ops)[key := op]
    {
      if key !in ops {
        ops := ops[key := Op.Reserved];
      }
      op := ops[key];
    }

    /** Records the receipt of a reserved operation, and of no other. */
    method MarkExecuted(key: string, receipt: Receipt) returns (ok: bool)
      modifies this
      ensures ok == (key in old(ops) && old(ops)[key].Reserved?)
      ensures ops == if ok then old(ops)[key := Executed(receipt)] else old(ops)
    {
      ok := key in ops && ops[key].Reserved?;
      if ok {
        ops := ops[key := Executed(receipt)];
      }
    }

    /** Marks an executed operation reconciled; its receipt stays. */
    method MarkReconciled(key: string) returns (ok: bool)
      modifies this
      ensures ok == (key in old(ops) && old(ops)[key].Executed?)
      ensures ops == if ok then old(ops)[key := Reconciled(old(ops)[key].receipt)] else old(ops)
    {
      ok := key in ops && ops[key].Executed?;
      if ok {
        ops := ops[key := Reconciled(ops[key].receipt)];
      }
    }
  }

  /** One deploy under the health and rollback policy: a receipt exists exactly when the provider deployed and
      the result is healthy or rolled back, and it says which. */
  method Execute(request: Request, provider: Provider) returns (receipt: Option<Receipt>)
    ensures receipt.Some? <==>
              provider.deployed.Some?
              && (provider.rolledBack || (provider.healthy && HealthURL(request, provider.deployed.value) != ""))
    ensures receipt.Some? ==> Sound(receipt.value) && receipt.value.record == provider.deployed.value
    ensures receipt.Some? ==>
              (receipt.value.healthy <==> provider.healthy && HealthURL(request, provider.deployed.value) != "")
    ensures receipt == Executing(request, provider)
  {
    if provider.deployed.None? {
      return None;
    }
    var record := provider.deployed.value;
    var url := if request.healthURL == "" then record.url else request.healthURL;
    if url != "" && provider.healthy {
      return Some(Receipt(record, true, false, DEPLOYED));
    }
    if !provider.rolledBack {
      return None;
    }
    return Some(Receipt(record, false, true, UNHEALTHY_ROLLED_BACK));
  }

  function Executing(request: Request, provider: Provider): Option<Receipt> {
    if provider.deployed.None? then None
    else
      match Checked(request, provider.deployed.value, provider.healthy)
      case Settled(receipt) => Some(receipt)
      case _ =>
        match RolledBack(provider.deployed.value, provider.rolledBack)
        case Settled(receipt) => Some(receipt)
        case _ => None
  }

  function Rank(pc: Pc): nat {
    match pc
    case Ready => 6
    case Held => 5
    case Admitted => 4
    case Live(_) => 3
    case Unhealthy(_) => 2
    case Settled(_) => 1
    case Finished(_) => 0
  }

  lemma AdvanceDescends(cfg: Config, s: State, provider: Provider)
    requires 0 in s.calls && !s.calls[0].pc.Finished?
    ensures var t := Advance(cfg, s, 0, provider); 0 in t.calls && Rank(t.calls[0].pc) < Rank(s.calls[0].pc)
  {
  }

  /** Call 0 taken to its end with nothing in between. */
  ghost function Settle(cfg: Config, s: State, provider: Provider): State
    requires 0 in s.calls
    decreases Rank(s.calls[0].pc)
  {
    if s.calls[0].pc.Finished? then s
    else
      AdvanceDescends(cfg, s, provider);
      Settle(cfg, Advance(cfg, s, 0, provider), provider)
  }

  /** Taking a call to its end is one of the machine's runs, so what holds of every run holds of it. */
  lemma {:induction false} SettleIsARun(cfg: Config, s: State, provider: Provider) returns (steps: seq<Step>)
    requires 0 in s.calls
    ensures Run(cfg, s, steps) == Settle(cfg, s, provider)
    decreases Rank(s.calls[0].pc)
  {
    hide Advance;
    steps := [];
    if !s.calls[0].pc.Finished? {
      AdvanceDescends(cfg, s, provider);
      var rest := SettleIsARun(cfg, Advance(cfg, s, 0, provider), provider);
      steps := [Proceed(0, provider)] + rest;
      assert [Proceed(0, provider)][..0] == [];
      assert Run(cfg, s, [Proceed(0, provider)]) == Next(cfg, s, Proceed(0, provider));
      RunAppends(cfg, s, [Proceed(0, provider)], rest);
    }
  }

  ghost function Begun(cfg: Config, ops: map<string, Op>, usage: map<string, Usage>, input: Input): (s: State)
    ensures 0 in s.calls
  {
    Next(cfg, State(ops, usage, map[], []), Begin(0, input))
  }

  ghost predicate Ends(s: State, ops: map<string, Op>, usage: map<string, Usage>, outcome: Outcome) {
    s.ledger == ops && s.usage == usage && 0 in s.calls && s.calls[0].pc == Finished(outcome)
  }

  /** From the moment the call holds its reservation, the side effect and the record that follow. */
  lemma HeldEnds(cfg: Config, s: State, provider: Provider)
    requires 0 in s.calls && s.calls[0].pc == Held && s.calls[0].input.key in s.ledger
    requires s.ledger[s.calls[0].input.key].Reserved?
    ensures var input := s.calls[0].input;
            var receipt := Executing(input.request, provider);
            if !Admissible(cfg, s.usage, input.profile) then Ends(Settle(cfg, s, provider), s.ledger, s.usage, Failed)
            else if receipt.None? then Ends(Settle(cfg, s, provider), s.ledger, Charged(cfg, s.usage, input.profile), Failed)
            else Ends(Settle(cfg, s, provider), s.ledger[input.key := Executed(receipt.value)],
                      Charged(cfg, s.usage, input.profile), Answer(receipt.value))
  {
    hide Admissible, Charged;
    var s1 := Advance(cfg, s, 0, provider);
    assert Settle(cfg, s, provider) == Settle(cfg, s1, provider);
    if s1.calls[0].pc == Admitted {
      AdmittedEnds(cfg, s1, provider);
    }
  }

  lemma AdmittedEnds(cfg: Config, s: State, provider: Provider)
    requires 0 in s.calls && s.calls[0].pc == Admitted && s.calls[0].input.key in s.ledger
    requires s.ledger[s.calls[0].input.key].Reserved?
    ensures var input := s.calls[0].input;
            var receipt := Executing(input.request, provider);
            if receipt.None? then Ends(Settle(cfg, s, provider), s.ledger, s.usage, Failed)
            else Ends(Settle(cfg, s, provider), s.ledger[input.key := Executed(receipt.value)], s.usage, Answer(receipt.value))
  {
    var s1 := Advance(cfg, s, 0, provider);
    assert Settle(cfg, s, provider) == Settle(cfg, s1, provider);
    if provider.deployed.Some? {
      var s2 := Advance(cfg, s1, 0, provider);
      assert Settle(cfg, s1, provider) == Settle(cfg, s2, provider);
      if s2.calls[0].pc.Unhealthy? {
        var s3 := Advance(cfg, s2, 0, provider);
        assert Settle(cfg, s2, provider) == Settle(cfg, s3, provider);
        if s3.calls[0].pc.Settled? {
          SettledEnds(cfg, s3, provider);
        }
      } else {
        SettledEnds(cfg, s2, provider);
      }
    }
  }

  lemma SettledEnds(cfg: Config, s: State, provider: Provider)
    requires 0 in s.calls && s.calls[0].pc.Settled? && s.calls[0].input.key in s.ledger
    requires s.ledger[s.calls[0].input.key].Reserved?
    ensures Ends(Settle(cfg, s, provider), s.ledger[s.calls[0].input.key := Executed(s.calls[0].pc.receipt)], s.usage,
                 Answer(s.calls[0].pc.receipt))
  {
  }

  class DeployActivities {
    const ledger: OpLedger
    const quota: QuotaEnforcer
    const enforced: bool

    constructor (ledger: OpLedger, quota: QuotaEnforcer, enforced: bool)
      ensures this.ledger == ledger && this.quota == quota && this.enforced == enforced
    {
      this.ledger, this.quota, this.enforced := ledger, quota, enforced;
    }

    ghost function Cfg(): Config
    {
      Config(enforced, quota.limits)
    }

    /** The search loop of the granted environments. */
    static method EnvironmentGranted(env: string, granted: seq<string>) returns (ok: bool)
      ensures ok == (env in granted)
    {
      for i := 0 to |granted|
        invariant env !in granted[..i]
      {
        if granted[i] == env {
          return true;
        }
      }
      return false;
    }

    /** The operation wrapper around one deploy: a settled key answers with its receipt and touches nothing;
        otherwise the admission is taken, the deploy executed, and its receipt recorded. */
    method RunOperation(input: Input, provider: Provider) returns (outcome: Outcome)
      modifies ledger, quota
      ensures Ends(Settle(Cfg(), ReadyCall(old(ledger.ops), old(quota.usage), input), provider), ledger.ops, quota.usage, outcome)
    {
      hide Advance, Admissible, Charged;
      ghost var s := ReadyCall(ledger.ops, quota.usage, input);
      ReadySteps(Cfg(), s, provider);
      var op := ledger.Reserve(input.key);
      if !op.Reserved? {
        return Answer(op.receipt);
      }
      HeldEnds(Cfg(), Advance(Cfg(), s, 0, provider), provider);
      var admitted := Admit(input.profile);
      if !admitted {
        return Failed;
      }
      var receipt := Execute(input.request, provider);
      if receipt.None? {
        return Failed;
      }
      var marked := ledger.MarkExecuted(input.key, receipt.value);
      return Answer(receipt.value);
    }

    /** Takes one admission where a quota applies. */
    method Admit(profile: string) returns (ok: bool)
      modifies quota
      ensures ok == Admissible(Cfg(), old(quota.usage), profile)
      ensures quota.usage == if ok then Charged(Cfg(), old(quota.usage), profile) else old(quota.usage)
    {
      ok := true;
      if enforced && profile != "" {
        ok := quota.Acquire(profile, ONE_ADMISSION);
      }
    }

    /** The whole activity does exactly what an uninterrupted call of the machine does: to the ledger, to the
        quota and in what it answers. */
    method DeployProduct(input: Input, provider: Provider) returns (outcome: Outcome)
      modifies ledger, quota
      ensures Ends(Settle(Cfg(), Begun(Cfg(), old(ledger.ops), old(quota.usage), input), provider), ledger.ops, quota.usage, outcome)
    {
      hide Settle, Begun, ReadyCall, Ends;
      BegunIs(Cfg(), ledger.ops, quota.usage, input, provider);
      var granted := EnvironmentGranted(input.request.environment, input.granted);
      if !granted {
        return Refused(ENVIRONMENT_NOT_GRANTED);
      }
      if input.gate != Passed {
        return Refused(if input.gate == Command then GATE_COMMAND_PENDING else GATE_BLOCKED);
      }
      if enforced && input.profile != "" {
        var room := quota.CanAcquire(input.profile, ONE_ADMISSION);
        if !room {
          return Refused(QUOTA_EXHAUSTED);
        }
      }
      outcome := RunOperation(input, provider);
    }
  }

  ghost function ReadyCall(ops: map<string, Op>, usage: map<string, Usage>, input: Input): (s: State)
    ensures 0 in s.calls
  {
    State(ops, usage, map[0 := Call(input, Ready)], [])
  }

  /** A call that a check refuses ends there, changing nothing; any other is ready to reserve. */
  lemma BegunIs(cfg: Config, ops: map<string, Op>, usage: map<string, Usage>, input: Input, provider: Provider)
    ensures var s := Begun(cfg, ops, usage, input);
            var refusal := Refusal(cfg, usage, input);
            if refusal.Some? then Ends(Settle(cfg, s, provider), ops, usage, Refused(refusal.value))
            else s == ReadyCall(ops, usage, input)
  {
    hide Advance, Refusal;
  }

  lemma ReadySteps(cfg: Config, s: State, provider: Provider)
    requires 0 in s.calls && s.calls[0].pc == Ready
    ensures var t := Advance(cfg, s, 0, provider);
            var key := s.calls[0].input.key;
            0 in t.calls && t.calls[0].input == s.calls[0].input && t.usage == s.usage
            && Settle(cfg, s, provider) == Settle(cfg, t, provider)
            && if IsSettled(s, key) then Ends(t, s.ledger, s.usage, Answer(ReceiptOf(s, key))) && Settle(cfg, t, provider) == t
               else t.calls[0].pc == Held && t.ledger == s.ledger[key := Op.Reserved]
  {
  }
}
