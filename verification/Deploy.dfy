/** Interleaved production deploys: the activity (internal/kernel/deploy_activity.go), the external-operation
    wrapper (internal/kernel/externalop.go), the health and rollback policy (internal/deploy/extops.go), the
    operation ledger and the quota, as one step machine.

    Any number of calls run at once, each stopping between any two steps. A call may be abandoned anywhere
    (a crash, a timeout, a failed ledger write); a restart of the worker abandons every call and forgets the
    quota usage, which lives in memory. The ledger survives. */
module Deploy {
  import opened Options
  import opened Quota

  datatype Request = Request(product: string, environment: string, artifact: string, previousRef: string, healthURL: string)

  datatype Record = Record(ref: string, url: string)

  datatype Code =
    | DEPLOYED | UNHEALTHY_ROLLED_BACK | ROLLBACK_FAILED
    | GATE_BLOCKED | GATE_COMMAND_PENDING | ENVIRONMENT_NOT_GRANTED | QUOTA_EXHAUSTED

  datatype Receipt = Receipt(record: Record, healthy: bool, rolledBack: bool, code: Code)

  datatype Gate = Passed | Blocked | Command

  datatype Input = Input(key: string, profile: string, request: Request, granted: seq<string>, gate: Gate)

  datatype Op = Reserved | Executed(receipt: Receipt) | Reconciled(receipt: Receipt)

  datatype Outcome = Refused(code: Code) | Failed | Answer(receipt: Receipt)

  /** Where a call stands. `Held`: its operation is reserved and not settled; `Admitted`: it took its quota. */
  datatype Pc =
    | Ready | Held | Admitted | Live(record: Record) | Unhealthy(record: Record) | Settled(receipt: Receipt)
    | Finished(outcome: Outcome)

  datatype Call = Call(input: Input, pc: Pc)

  datatype Event =
    | Reservation(id: nat, key: string)
    | Deployment(id: nat, key: string, profile: string)
    | Recording(id: nat, key: string, receipt: Receipt)
    | Restarted

  datatype State = State(ledger: map<string, Op>, usage: map<string, Usage>, calls: map<nat, Call>, log: seq<Event>)

  datatype Config = Config(enforced: bool, limits: map<string, Limits>)

  const START := State(map[], map[], map[], [])

  /** What the provider answers when it is asked. */
  datatype Provider = Provider(deployed: Option<Record>, healthy: bool, rolledBack: bool)

  datatype Step =
    | Begin(id: nat, input: Input)
    | Proceed(id: nat, provider: Provider)
    | Abandon(id: nat)
    | Reconcile(key: string)
    | Restart

  predicate Limited(cfg: Config, profile: string) {
    cfg.enforced && profile != ""
  }

  predicate Admissible(cfg: Config, usage: map<string, Usage>, profile: string) {
    Limited(cfg, profile) ==> CanTake(cfg.limits, usage, profile, ONE_ADMISSION)
  }

  function Charged(cfg: Config, usage: map<string, Usage>, profile: string): map<string, Usage> {
    if Limited(cfg, profile) then usage[profile := Plus(Used(usage, profile), ONE_ADMISSION)] else usage
  }

  /** The checks before anything is reserved, in the order they are made. */
  function Refusal(cfg: Config, usage: map<string, Usage>, input: Input): Option<Code> {
    if input.request.environment !in input.granted then Some(ENVIRONMENT_NOT_GRANTED)
    else if input.gate == Command then Some(GATE_COMMAND_PENDING)
    else if input.gate == Blocked then Some(GATE_BLOCKED)
    else if !Admissible(cfg, usage, input.profile) then Some(QUOTA_EXHAUSTED)
    else None
  }

  function HealthURL(request: Request, record: Record): string {
    if request.healthURL != "" then request.healthURL else record.url
  }

  /** After the provider accepted a deploy: no URL to ask counts as unhealthy. */
  function Checked(request: Request, record: Record, healthy: bool): Pc {
    if HealthURL(request, record) != "" && healthy then Settled(Receipt(record, true, false, DEPLOYED)) else Unhealthy(record)
  }

  /** A failed rollback is an error: nothing is recorded for it. */
  function RolledBack(record: Record, ok: bool): Pc {
    if ok then Settled(Receipt(record, false, true, UNHEALTHY_ROLLED_BACK)) else Finished(Failed)
  }

  function SetPc(s: State, id: nat, pc: Pc): State
    requires id in s.calls
  {
    s.(calls := s.calls[id := s.calls[id].(pc := pc)])
  }

  /** Reserving a key that is taken returns the operation as it is. */
  function Reserve(s: State, id: nat): State
    requires id in s.calls
  {
    var key := s.calls[id].input.key;
    if key in s.ledger && !s.ledger[key].Reserved? then SetPc(s, id, Finished(Answer(s.ledger[key].receipt)))
    else SetPc(s.(ledger := s.ledger[key := Reserved], log := s.log + [Reservation(id, key)]), id, Held)
  }

  function Acquire(cfg: Config, s: State, id: nat): State
    requires id in s.calls
  {
    var profile := s.calls[id].input.profile;
    if Admissible(cfg, s.usage, profile) then SetPc(s.(usage := Charged(cfg, s.usage, profile)), id, Admitted)
    else SetPc(s, id, Finished(Failed))
  }

  function DeployNow(s: State, id: nat, answer: Option<Record>): State
    requires id in s.calls
  {
    var input := s.calls[id].input;
    SetPc(s.(log := s.log + [Deployment(id, input.key, input.profile)]), id,
          if answer.Some? then Live(answer.value) else Finished(Failed))
  }

  /** Only a reserved operation may be marked executed. */
  function Mark(s: State, id: nat, receipt: Receipt): State
    requires id in s.calls
  {
    var key := s.calls[id].input.key;
    if key in s.ledger && s.ledger[key].Reserved? then
      SetPc(s.(ledger := s.ledger[key := Executed(receipt)], log := s.log + [Recording(id, key, receipt)]),
            id, Finished(Answer(receipt)))
    else SetPc(s, id, Finished(Failed))
  }

  function Advance(cfg: Config, s: State, id: nat, provider: Provider): State
    requires id in s.calls
  {
    var call := s.calls[id];
    match call.pc
    case Ready => Reserve(s, id)
    case Held => Acquire(cfg, s, id)
    case Admitted => DeployNow(s, id, provider.deployed)
    case Live(record) => SetPc(s, id, Checked(call.input.request, record, provider.healthy))
    case Unhealthy(record) => SetPc(s, id, RolledBack(record, provider.rolledBack))
    case Settled(receipt) => Mark(s, id, receipt)
    case Finished(_) => s
  }

  function Dropped(call: Call): Call {
    if call.pc.Finished? then call else call.(pc := Finished(Failed))
  }

  function Next(cfg: Config, s: State, step: Step): State {
    match step
    case Begin(id, input) =>
      if id in s.calls then s
      else
        var refusal := Refusal(cfg, s.usage, input);
        s.(calls := s.calls[id := Call(input, if refusal.Some? then Finished(Refused(refusal.value)) else Ready)])
    case Proceed(id, provider) => if id in s.calls then Advance(cfg, s, id, provider) else s
    case Abandon(id) => if id in s.calls then s.(calls := s.calls[id := Dropped(s.calls[id])]) else s
    case Reconcile(key) =>
      if key in s.ledger && s.ledger[key].Executed? then s.(ledger := s.ledger[key := Reconciled(s.ledger[key].receipt)]) else s
    case Restart =>
      s.(usage := map[], calls := map id | id in s.calls :: Dropped(s.calls[id]), log := s.log + [Restarted])
  }

  function Run(cfg: Config, s: State, steps: seq<Step>): State {
    if steps == [] then s else Next(cfg, Run(cfg, s, steps[..|steps| - 1]), steps[|steps| - 1])
  }
}
