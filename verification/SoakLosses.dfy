/** Exactly when the soak simulation loses work, decided from its configuration alone. */
module SoakLosses {
  import opened Soak

  function Excess(x: int): nat {
    if x < 0 then 0 else x
  }

  /** Deliveries left over after tick `n - 1` when every worker is free at every tick. */
  function Backlog(cfg: Config, n: nat): nat {
    if n == 0 then 0 else Excess(Backlog(cfg, n - 1) + |ArrivalsAt(cfg, n - 1)| - cfg.workers)
  }

  /** Some delivery is waiting for a free worker at tick `t`. */
  predicate Waiting(cfg: Config, t: nat) {
    cfg.workers > 0 && Backlog(cfg, t) + |ArrivalsAt(cfg, t)| > 0
  }

  /** With every worker free, as many deliveries start as there are workers, and the rest stay queued. */
  lemma {:induction false} AssignToFree(slots: seq<Slot>, i: nat, queue: seq<int>, tick: int, duration: int)
    requires i <= |slots| && forall j :: i <= j < |slots| ==> slots[j].deliveryUntil == 0
    ensures var r := AssignFrom(slots, i, queue, tick, duration);
            |r.slots| == |slots| && |r.queue| == Excess(|queue| - (|slots| - i))
            && (r.starts != [] <==> i < |slots| && queue != [])
            && (forall j :: 0 <= j < i ==> r.slots[j] == slots[j])
            && (forall j :: i <= j < |slots| ==> r.slots[j].deliveryUntil == 0 || r.slots[j].deliveryUntil == tick + duration)
    decreases |slots| - i
  {
    if i < |slots| && queue != [] {
      AssignToFree(slots[i := slots[i].(deliveryUntil := tick + duration)], i + 1, queue[1..], tick, duration);
    }
  }

  /** Before tick `-duration` every slot's finish tick is past, and the queue is the backlog. */
  ghost predicate Unhindered(cfg: Config, n: nat) {
    var st := Run(cfg, n);
    |st.slots| == cfg.workers && |st.queue| == Backlog(cfg, n) && forall i :: 0 <= i < |st.slots| ==> st.slots[i].deliveryUntil <= 0
  }

  lemma FreedIsFree(slots: seq<Slot>, tick: nat)
    requires forall i :: 0 <= i < |slots| ==> slots[i].deliveryUntil <= 0
    ensures |FreeAll(slots, tick)| == |slots|
    ensures forall i :: 0 <= i < |slots| ==> FreeAll(slots, tick)[i].deliveryUntil == 0
  {
    FreeAllPointwise(slots, tick);
  }

  lemma {:induction false} UnhinderedUntil(cfg: Config, n: nat)
    requires n <= -cfg.duration
    ensures Unhindered(cfg, n)
  {
    hide AssignFrom, FreeAll, LearnFrom, LearningAdmitted, ArrivalsAt, Finished;
    if n > 0 {
      UnhinderedUntil(cfg, n - 1);
      var st := Run(cfg, n - 1);
      FreedIsFree(st.slots, n - 1);
      var freed, queue := FreeAll(st.slots, n - 1), st.queue + ArrivalsAt(cfg, n - 1);
      AssignToFree(freed, 0, queue, n - 1, cfg.duration);
      LearnOnlyLearns(AssignFrom(freed, 0, queue, n - 1, cfg.duration).slots, 0);
    }
  }

  ghost predicate StartsAt(cfg: Config, n: nat, t: int) {
    exists s :: s in Run(cfg, n).starts && s.at == t
  }

  /** A delivery starts at tick `-duration` exactly when one is waiting then. */
  lemma {:induction false} StartsWhenWaiting(cfg: Config, n: nat)
    requires cfg.duration <= 0 && n > -cfg.duration
    ensures StartsAt(cfg, n, -cfg.duration) <==> Waiting(cfg, -cfg.duration)
  {
    hide AssignFrom, FreeAll, LearnFrom, LearningAdmitted, ArrivalsAt, Finished, Lost, Busy, ArrivedOf;
    var t := -cfg.duration;
    var st := Run(cfg, n - 1);
    var freed, queue := FreeAll(st.slots, n - 1), st.queue + ArrivalsAt(cfg, n - 1);
    var r := AssignFrom(freed, 0, queue, n - 1, cfg.duration);
    AssignKeepsWork(freed, 0, queue, n - 1, cfg.duration);
    assert Run(cfg, n).starts == st.starts + r.starts;
    if n - 1 == t {
      UnhinderedUntil(cfg, t);
      FreedIsFree(st.slots, t);
      AssignToFree(freed, 0, queue, t, cfg.duration);
      StartsAreTimed(cfg, t);
      if r.starts != [] {
        assert r.starts[0] in Run(cfg, n).starts;
      }
    } else {
      StartsWhenWaiting(cfg, n - 1);
      assert StartsAt(cfg, n, t) <==> StartsAt(cfg, n - 1, t);
    }
  }

  /** For every configuration and number of ticks: arrivals equal completed plus in flight plus queued exactly when the
      duration is positive, tick `-duration` has not been reached, or nothing is waiting to start at that tick. */
  lemma ConservedIff(cfg: Config, n: nat)
    ensures Conserved(cfg, n) <==> cfg.duration > 0 || n <= -cfg.duration || !Waiting(cfg, -cfg.duration)
  {
    hide Run, Waiting;
    ConservedExactly(cfg, n);
    StartsAreTimed(cfg, n);
    if cfg.duration <= 0 && n > -cfg.duration {
      StartsWhenWaiting(cfg, n);
    }
  }

  /** One delivery that arrives at tick `t`. */
  function OneAt(t: nat): seq<int> {
    seq(t, _ => 0) + [1]
  }

  /** With workers at all, work is conserved whatever arrives exactly when the duration is positive or the simulation
      ends before tick `-duration`. */
  lemma ConservedWhateverArrivesIff(cfg: Config, n: nat)
    requires cfg.workers > 0
    ensures (forall arrivals :: Conserved(cfg.(arrivals := arrivals), n)) <==> cfg.duration > 0 || n <= -cfg.duration
  {
    hide Conserved;
    if cfg.duration > 0 || n <= -cfg.duration {
      forall arrivals ensures Conserved(cfg.(arrivals := arrivals), n) {
        ConservedIff(cfg.(arrivals := arrivals), n);
      }
    } else {
      var losing := cfg.(arrivals := OneAt(-cfg.duration));
      assert |ArrivalsAt(losing, -cfg.duration)| == 1;
      ConservedIff(losing, n);
    }
  }

  // ---- When a delivery waits beside an idle worker ----

  /** At tick `-duration` every started delivery is forgotten at once: all workers look idle and the backlog waits. */
  lemma ForgottenTick(cfg: Config, n: nat)
    requires n == -cfg.duration
    ensures var after := Run(cfg, n + 1);
            |after.slots| == cfg.workers && |after.queue| == Backlog(cfg, n + 1)
            && forall i :: 0 <= i < |after.slots| ==> after.slots[i].deliveryUntil == 0
  {
    hide AssignFrom, FreeAll, LearnFrom, LearningAdmitted, ArrivalsAt, Finished;
    UnhinderedUntil(cfg, n);
    var st := Run(cfg, n);
    FreedIsFree(st.slots, n);
    var freed, queue := FreeAll(st.slots, n), st.queue + ArrivalsAt(cfg, n);
    AssignToFree(freed, 0, queue, n, cfg.duration);
    LearnOnlyLearns(AssignFrom(freed, 0, queue, n, cfg.duration).slots, 0);
    assert Run(cfg, n + 1) == Tick(cfg, st, n);
  }

  /** For every configuration and tick: no delivery waits beside an idle worker after the tick exactly when it is not tick
      `-duration`, there are no workers, or nothing is left over at it. */
  lemma WorkConservingIff(cfg: Config, n: nat)
    ensures WorkConserving(Run(cfg, n + 1)) <==> n != -cfg.duration || cfg.workers == 0 || Backlog(cfg, n + 1) == 0
  {
    hide Run, Backlog;
    if n == -cfg.duration {
      ForgottenTick(cfg, n);
      if cfg.workers > 0 {
        assert Run(cfg, n + 1).slots[0].deliveryUntil == 0;
      }
    } else {
      DeliveryComesFirst(cfg, n);
    }
  }

  /** One delivery more than there are workers, at tick `t`. */
  function OneTooMany(workers: nat, t: nat): seq<int> {
    seq(t, _ => 0) + [workers + 1]
  }

  /** Every non-positive duration has its failing configuration: a delivery waits while every worker is idle. */
  lemma DeliveryWaitsBesideIdle(cfg: Config)
    requires cfg.workers > 0 && cfg.duration <= 0 && cfg.arrivals == OneTooMany(cfg.workers, -cfg.duration)
    ensures !WorkConserving(Run(cfg, -cfg.duration + 1))
  {
    var t := -cfg.duration;
    assert |ArrivalsAt(cfg, t)| == cfg.workers + 1;
    WorkConservingIff(cfg, t);
  }
}
