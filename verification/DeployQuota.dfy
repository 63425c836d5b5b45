/** How far the in-memory deploy quota reaches: it bounds one worker life, and no more. */
module DeployQuota {
  import opened Options
  import opened Quota
  import opened Deploy
  import opened DeployProofs
  import opened DeployReruns

  const FAULTY := Provider(None, false, false)

  /** One call that is admitted and asks the provider to deploy. */
  function DeploySteps(id: nat, input: Input): seq<Step> {
    [Begin(id, input), Proceed(id, FAULTY), Proceed(id, FAULTY), Proceed(id, FAULTY)]
  }

  /** Nothing but admissions of this profile is in use, `used` of them; the key is not settled and calls are
      numbered below `n`. */
  ghost predicate Counting(s: State, input: Input, n: nat, used: nat) {
    Used(s.usage, input.profile) == Usage(0, 0, used, 0)
    && !IsSettled(s, input.key)
    && forall id :: id in s.calls ==> id < n
  }

  predicate HasLimit(cfg: Config, input: Input) {
    cfg.enforced && input.profile != "" && input.profile in cfg.limits && cfg.limits[input.profile].admissions > 0 && Gated(input)
  }

  lemma RoomForOne(cfg: Config, usage: map<string, Usage>, input: Input, used: nat)
    requires HasLimit(cfg, input) && Used(usage, input.profile) == Usage(0, 0, used, 0)
    requires used < cfg.limits[input.profile].admissions
    ensures Admissible(cfg, usage, input.profile) && Refusal(cfg, usage, input).None?
    ensures Used(Charged(cfg, usage, input.profile), input.profile) == Usage(0, 0, used + 1, 0)
  {
    hide Refusal, Charged, Admissible, Used, Fits, Plus, Gated;
    RoomInLimits(cfg.limits[input.profile], used);
    ChargesOne(cfg, usage, input.profile);
    GatedIsNotRefused(cfg, usage, input);
  }

  lemma RoomInLimits(limits: Limits, used: nat)
    requires used < limits.admissions
    ensures Fits(limits, Plus(Usage(0, 0, used, 0), ONE_ADMISSION))
    ensures Plus(Usage(0, 0, used, 0), ONE_ADMISSION) == Usage(0, 0, used + 1, 0)
  {
  }

  lemma ChargesOne(cfg: Config, usage: map<string, Usage>, profile: string)
    requires Limited(cfg, profile) && profile in cfg.limits
    requires Fits(cfg.limits[profile], Plus(Used(usage, profile), ONE_ADMISSION))
    ensures Admissible(cfg, usage, profile)
    ensures Used(Charged(cfg, usage, profile), profile) == Plus(Used(usage, profile), ONE_ADMISSION)
  {
    hide Fits, Plus;
  }

  lemma GatedIsNotRefused(cfg: Config, usage: map<string, Usage>, input: Input)
    requires Gated(input) && Admissible(cfg, usage, input.profile)
    ensures Refusal(cfg, usage, input).None?
  {
    hide Admissible;
  }

  /** With room left, one more deploy happens. */
  lemma OneMoreDeploy(cfg: Config, s: State, input: Input, n: nat, used: nat) returns (t: State)
    requires HasLimit(cfg, input) && Counting(s, input, n, used) && used < cfg.limits[input.profile].admissions
    ensures t == Run(cfg, s, DeploySteps(n, input)) && Counting(t, input, n + 1, used + 1)
    ensures t.log == s.log + [Reservation(n, input.key), Deployment(n, input.key, input.profile)]
  {
    hide Next, Run, Refusal, Admissible, Charged;
    RoomForOne(cfg, s.usage, input, used);
    var go := Proceed(n, FAULTY);
    FourSteps(cfg, s, DeploySteps(n, input));
    Begins(cfg, s, n, input);
    var s1 := s.(calls := s.calls[n := Call(input, Ready)]);
    Reserves(cfg, s1, n, FAULTY);
    var s2 := Next(cfg, s1, go);
    Admits(cfg, s2, n, FAULTY);
    var s3 := Next(cfg, s2, go);
    AsksToDeploy(cfg, s3, n);
    t := Next(cfg, s3, go);
    assert s.log + [Reservation(n, input.key)] + [Deployment(n, input.key, input.profile)]
        == s.log + [Reservation(n, input.key), Deployment(n, input.key, input.profile)];
  }

  lemma Admits(cfg: Config, s: State, id: nat, provider: Provider)
    requires id in s.calls && s.calls[id].pc == Held && Admissible(cfg, s.usage, s.calls[id].input.profile)
    ensures Next(cfg, s, Proceed(id, provider))
            == s.(usage := Charged(cfg, s.usage, s.calls[id].input.profile), calls := s.calls[id := s.calls[id].(pc := Admitted)])
  {
    hide Admissible, Charged;
  }

  lemma AsksToDeploy(cfg: Config, s: State, id: nat)
    requires id in s.calls && s.calls[id].pc == Admitted
    ensures var input := s.calls[id].input;
            Next(cfg, s, Proceed(id, FAULTY))
            == s.(log := s.log + [Deployment(id, input.key, input.profile)], calls := s.calls[id := Call(input, Finished(Failed))])
  {
  }

  /** The counts after a life's worth of deploys. */
  ghost predicate Reaches(cfg: Config, input: Input, steps: seq<Step>, n: nat, used: nat, deploys: nat, restarts: nat) {
    var s := Run(cfg, START, steps);
    Counting(s, input, n, used) && Deploys(s.log, input.profile) == deploys && Restarts(s.log) == restarts
  }

  lemma {:induction false} UseUp(cfg: Config, input: Input, steps: seq<Step>, n: nat, used: nat, deploys: nat,
                                 restarts: nat)
      returns (more: seq<Step>, m: nat)
    requires HasLimit(cfg, input) && Reaches(cfg, input, steps, n, used, deploys, restarts)
    requires used <= cfg.limits[input.profile].admissions
    ensures Reaches(cfg, input, steps + more, m, cfg.limits[input.profile].admissions,
                    deploys + cfg.limits[input.profile].admissions - used, restarts)
    decreases cfg.limits[input.profile].admissions - used
  {
    hide Next, Counting, Deploys, Restarts;
    var s := Run(cfg, START, steps);
    if used == cfg.limits[input.profile].admissions {
      more, m := [], n;
      assert steps + more == steps;
    } else {
      var once := DeploySteps(n, input);
      var t := OneMoreDeploy(cfg, s, input, n, used);
      RunAppends(cfg, START, steps, once);
      CountOneDeploy(s.log, n, input);
      var rest;
      rest, m := UseUp(cfg, input, steps + once, n + 1, used + 1, deploys + 1, restarts);
      more := once + rest;
      assert steps + more == steps + once + rest;
    }
  }

  lemma CountOneDeploy(log: seq<Event>, id: nat, input: Input)
    ensures var longer := log + [Reservation(id, input.key), Deployment(id, input.key, input.profile)];
            Deploys(longer, input.profile) == Deploys(log, input.profile) + 1 && Restarts(longer) == Restarts(log)
  {
    LogSnoc(log, Reservation(id, input.key), input.profile);
    LogSnoc(log + [Reservation(id, input.key)], Deployment(id, input.key, input.profile), input.profile);
    assert log + [Reservation(id, input.key)] + [Deployment(id, input.key, input.profile)]
        == log + [Reservation(id, input.key), Deployment(id, input.key, input.profile)];
  }

  /** A restart forgets the usage and nothing else that counts. */
  lemma RestartForgets(cfg: Config, input: Input, steps: seq<Step>, n: nat, used: nat, deploys: nat, restarts: nat)
    requires Reaches(cfg, input, steps, n, used, deploys, restarts)
    ensures Reaches(cfg, input, steps + [Restart], n, 0, deploys, restarts + 1)
  {
    hide Deploys, Restarts, Advance;
    var s := Run(cfg, START, steps);
    var longer := steps + [Restart];
    assert longer[..|steps|] == steps;
    LogSnoc(s.log, Restarted, input.profile);
  }

  /** For every number of restarts some run uses up every worker life: the bound over all lives is attained. */
  lemma {:induction false} QuotaBoundIsAttained(cfg: Config, input: Input, restarts: nat)
      returns (steps: seq<Step>, n: nat)
    requires HasLimit(cfg, input)
    ensures Reaches(cfg, input, steps, n, cfg.limits[input.profile].admissions,
                    (restarts + 1) * cfg.limits[input.profile].admissions, restarts)
  {
    hide Reaches, Next;
    var max := cfg.limits[input.profile].admissions;
    if restarts == 0 {
      steps, n := [], 0;
      assert Reaches(cfg, input, [], 0, 0, 0, 0) by {
        NothingCounted(cfg, input);
      }
      var more;
      more, n := UseUp(cfg, input, steps, 0, 0, 0, 0);
      steps := steps + more;
    } else {
      steps, n := QuotaBoundIsAttained(cfg, input, restarts - 1);
      RestartForgets(cfg, input, steps, n, max, restarts * max, restarts - 1);
      steps := steps + [Restart];
      var more;
      more, n := UseUp(cfg, input, steps, n, 0, restarts * max, restarts);
      steps := steps + more;
      RestartArithmetic(restarts, max);
    }
  }

  lemma NothingCounted(cfg: Config, input: Input)
    ensures Reaches(cfg, input, [], 0, 0, 0, 0)
  {
  }

  /** The limit bounds the deploys of every run with a given number of restarts exactly when that number is zero. */
  lemma LimitHoldsExactlyWithoutRestart(cfg: Config, input: Input, restarts: nat)
    requires HasLimit(cfg, input)
    ensures (forall steps :: Restarts(Run(cfg, START, steps).log) == restarts ==>
               Deploys(Run(cfg, START, steps).log, input.profile) <= cfg.limits[input.profile].admissions)
            <==> restarts == 0
  {
    hide Next, Run, Deploys, Restarts;
    var max := cfg.limits[input.profile].admissions;
    if restarts == 0 {
      forall steps | Restarts(Run(cfg, START, steps).log) == restarts
        ensures Deploys(Run(cfg, START, steps).log, input.profile) <= max
      {
        DeploysStayWithinQuota(cfg, steps, input.profile);
      }
    } else {
      var steps, n := QuotaBoundIsAttained(cfg, input, restarts);
      RestartArithmetic(restarts, max);
      MoreThanOneLife(restarts, max);
      assert Restarts(Run(cfg, START, steps).log) == restarts;
    }
  }

  lemma MoreThanOneLife(restarts: nat, max: int)
    requires restarts > 0 && max > 0
    ensures restarts * max + max > max
  {
  }
}
