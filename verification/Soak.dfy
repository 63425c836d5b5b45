/** The delivery-versus-learning load simulation of internal/evolve/capacity.go. */
module Soak {

  datatype Slot = Slot(deliveryUntil: int, learning: bool)

  datatype Config = Config(
    workers: nat,
    ticks: int,
    arrivals: seq<int>,
    duration: int,
    learningSaturated: bool,
    headroomThreshold: real,
    budgetHeadroom: real)

  /** One delivery handed to a worker: when it arrived and when it started. */
  datatype Start = Start(arrived: int, at: int)

  datatype State = State(slots: seq<Slot>, queue: seq<int>, starts: seq<Start>, completed: nat, learned: nat)

  datatype SoakResult = SoakResult(deliveryP95: int, deliveryCompleted: nat, learningAdmitted: nat)

  // ---- One tick, as a function ----

  function FreeSlot(s: Slot, tick: int): Slot {
    Slot(if s.deliveryUntil != 0 && s.deliveryUntil <= tick then 0 else s.deliveryUntil, false)
  }

  function FreeAll(slots: seq<Slot>, tick: int): seq<Slot> {
    if slots == [] then [] else FreeAll(slots[..|slots| - 1], tick) + [FreeSlot(slots[|slots| - 1], tick)]
  }

  function Finished(slots: seq<Slot>, tick: int): nat {
    if slots == [] then 0
    else
      var last := slots[|slots| - 1];
      Finished(slots[..|slots| - 1], tick) + (if last.deliveryUntil != 0 && last.deliveryUntil <= tick then 1 else 0)
  }

  function Repeat(x: int, n: int): seq<int> {
    seq(if n < 0 then 0 else n, _ => x)
  }

  /** The deliveries that arrive at a tick; a negative entry adds none. */
  function ArrivalsAt(cfg: Config, tick: int): seq<int> {
    if 0 <= tick < |cfg.arrivals| then Repeat(tick, cfg.arrivals[tick]) else []
  }

  datatype Assigned = Assigned(slots: seq<Slot>, queue: seq<int>, starts: seq<Start>)

  /** Hands queued deliveries to free workers in worker order, from worker `i` on. */
  function AssignFrom(slots: seq<Slot>, i: nat, queue: seq<int>, tick: int, duration: int): Assigned
    requires i <= |slots|
    decreases |slots| - i
  {
    if i == |slots| || queue == [] then Assigned(slots, queue, [])
    else if slots[i].deliveryUntil == 0 then
      var r := AssignFrom(slots[i := slots[i].(deliveryUntil := tick + duration)], i + 1, queue[1..], tick, duration);
      Assigned(r.slots, r.queue, [Start(queue[0], tick)] + r.starts)
    else AssignFrom(slots, i + 1, queue, tick, duration)
  }

  function Busy(slots: seq<Slot>): nat {
    if slots == [] then 0
    else Busy(slots[..|slots| - 1]) + (if slots[|slots| - 1].deliveryUntil != 0 then 1 else 0)
  }

  /** LearningLane.Admit for a capacity signal without brownout, which is all the simulation sends. */
  predicate Admit(threshold: real, load: real, budgetHeadroom: real) {
    !(1.0 - load < threshold) && !(budgetHeadroom < threshold)
  }

  /** Delivery load; with no workers there is no idle slot to fill, so the value is irrelevant. */
  function Load(slots: seq<Slot>): real {
    if slots == [] then 0.0 else Busy(slots) as real / |slots| as real
  }

  predicate LearningAdmitted(cfg: Config, slots: seq<Slot>, queue: seq<int>) {
    cfg.learningSaturated && queue == [] && Admit(cfg.headroomThreshold, Load(slots), cfg.budgetHeadroom)
  }

  /** Fills the first idle worker at or after `i` with a one-tick learning task. */
  function LearnFrom(slots: seq<Slot>, i: nat): (seq<Slot>, nat)
    requires i <= |slots|
    decreases |slots| - i
  {
    if i == |slots| then (slots, 0)
    else if slots[i].deliveryUntil == 0 then (slots[i := slots[i].(learning := true)], 1)
    else LearnFrom(slots, i + 1)
  }

  function Tick(cfg: Config, st: State, tick: int): State {
    var freed := FreeAll(st.slots, tick);
    var a := AssignFrom(freed, 0, st.queue + ArrivalsAt(cfg, tick), tick, cfg.duration);
    var l := if LearningAdmitted(cfg, a.slots, a.queue) then LearnFrom(a.slots, 0) else (a.slots, 0);
    State(l.0, a.queue, st.starts + a.starts, st.completed + Finished(st.slots, tick), st.learned + l.1)
  }

  function Init(cfg: Config): State {
    State(seq(cfg.workers, _ => Slot(0, false)), [], [], 0, 0)
  }

  /** The simulation after `n` ticks. */
  function Run(cfg: Config, n: nat): State {
    if n == 0 then Init(cfg) else Tick(cfg, Run(cfg, n - 1), n - 1)
  }

  function Waits(starts: seq<Start>): seq<int> {
    if starts == [] then [] else Waits(starts[..|starts| - 1]) + [starts[|starts| - 1].at - starts[|starts| - 1].arrived]
  }

  // ---- Noninterference ----

  ghost predicate SameDelivery(a: State, b: State) {
    |a.slots| == |b.slots|
    && (forall i :: 0 <= i < |a.slots| ==> a.slots[i].deliveryUntil == b.slots[i].deliveryUntil)
    && a.queue == b.queue && a.starts == b.starts && a.completed == b.completed
  }

  lemma {:induction false} FreeAllPointwise(slots: seq<Slot>, tick: int)
    ensures |FreeAll(slots, tick)| == |slots|
    ensures forall i :: 0 <= i < |slots| ==> FreeAll(slots, tick)[i] == FreeSlot(slots[i], tick)
  {
    if slots != [] {
      FreeAllPointwise(slots[..|slots| - 1], tick);
    }
  }

  lemma {:induction false} FinishedIgnoresLearning(a: seq<Slot>, b: seq<Slot>, tick: int)
    requires |a| == |b| && forall i :: 0 <= i < |a| ==> a[i].deliveryUntil == b[i].deliveryUntil
    ensures Finished(a, tick) == Finished(b, tick)
  {
    if a != [] {
      FinishedIgnoresLearning(a[..|a| - 1], b[..|b| - 1], tick);
    }
  }

  lemma {:induction false} LearnOnlyLearns(slots: seq<Slot>, i: nat)
    requires i <= |slots|
    ensures var r := LearnFrom(slots, i);
            |r.0| == |slots| && r.1 <= 1
            && (forall j :: 0 <= j < |slots| ==> r.0[j].deliveryUntil == slots[j].deliveryUntil)
            && (r.1 == 1 <==> exists j :: i <= j < |slots| && slots[j].deliveryUntil == 0)
    decreases |slots| - i
  {
    if i < |slots| && slots[i].deliveryUntil != 0 {
      LearnOnlyLearns(slots, i + 1);
    }
  }

  /** Two simulations that agree on workers, arrivals and duration agree on every delivery at every tick,
      whatever learning load, headroom threshold and budget headroom each of them has. */
  lemma {:induction false} LearningNeverTouchesDelivery(a: Config, b: Config, n: nat)
    requires a.workers == b.workers && a.arrivals == b.arrivals && a.duration == b.duration
    ensures SameDelivery(Run(a, n), Run(b, n))
  {
    hide Tick;
    if n > 0 {
      LearningNeverTouchesDelivery(a, b, n - 1);
      TickKeepsSameDelivery(a, b, Run(a, n - 1), Run(b, n - 1), n - 1);
    }
  }

  lemma TickKeepsSameDelivery(a: Config, b: Config, s: State, t: State, tick: int)
    requires a.arrivals == b.arrivals && a.duration == b.duration && SameDelivery(s, t)
    ensures SameDelivery(Tick(a, s, tick), Tick(b, t, tick))
  {
    FreeAllPointwise(s.slots, tick);
    FreeAllPointwise(t.slots, tick);
    assert FreeAll(s.slots, tick) == FreeAll(t.slots, tick);
    FinishedIgnoresLearning(s.slots, t.slots, tick);
    var r := AssignFrom(FreeAll(s.slots, tick), 0, s.queue + ArrivalsAt(a, tick), tick, a.duration);
    LearnOnlyLearns(r.slots, 0);
  }

  // ---- Conservation, FIFO and exact occupancy ----

  /** Every delivery that has arrived in the first `n` ticks, in arrival order. */
  function AllArrivals(cfg: Config, n: nat): seq<int> {
    if n == 0 then [] else AllArrivals(cfg, n - 1) + ArrivalsAt(cfg, n - 1)
  }

  function ArrivedOf(starts: seq<Start>): seq<int> {
    if starts == [] then [] else ArrivedOf(starts[..|starts| - 1]) + [starts[|starts| - 1].arrived]
  }

  /** Deliveries whose computed finish tick is 0, which the slot encoding reads as "not delivering". */
  function Lost(starts: seq<Start>, duration: int): nat {
    if starts == [] then 0
    else Lost(starts[..|starts| - 1], duration) + (if starts[|starts| - 1].at + duration == 0 then 1 else 0)
  }

  lemma {:induction false} ArrivedOfSplit(a: seq<Start>, b: seq<Start>)
    ensures ArrivedOf(a + b) == ArrivedOf(a) + ArrivedOf(b)
  {
    if b == [] {
      assert a + b == a;
    } else {
      ArrivedOfSplit(a, b[..|b| - 1]);
      assert (a + b)[..|a + b| - 1] == a + b[..|b| - 1];
    }
  }

  lemma {:induction false} LostSplit(a: seq<Start>, b: seq<Start>, duration: int)
    ensures Lost(a + b, duration) == Lost(a, duration) + Lost(b, duration)
  {
    if b == [] {
      assert a + b == a;
    } else {
      LostSplit(a, b[..|b| - 1], duration);
      assert (a + b)[..|a + b| - 1] == a + b[..|b| - 1];
    }
  }

  lemma {:induction false} BusyUpdate(slots: seq<Slot>, i: nat, s: Slot)
    requires i < |slots|
    ensures Busy(slots[i := s]) + (if slots[i].deliveryUntil != 0 then 1 else 0)
         == Busy(slots) + (if s.deliveryUntil != 0 then 1 else 0)
  {
    var updated := slots[i := s];
    if i == |slots| - 1 {
      assert updated[..i] == slots[..i];
    } else {
      assert updated[..|slots| - 1] == slots[..|slots| - 1][i := s];
      BusyUpdate(slots[..|slots| - 1], i, s);
    }
  }

  /** Assignment is FIFO and loses no delivery but those whose finish tick is 0. */
  ghost predicate AssignmentAccounted(slots: seq<Slot>, queue: seq<int>, tick: int, duration: int, r: Assigned) {
    |r.slots| == |slots|
    && ArrivedOf(r.starts) + r.queue == queue
    && Busy(r.slots) + Lost(r.starts, duration) == Busy(slots) + |r.starts|
    && (forall s :: s in r.starts ==> s.at == tick && s.arrived in queue)
  }

  lemma {:induction false} AssignKeepsWork(slots: seq<Slot>, i: nat, queue: seq<int>, tick: int, duration: int)
    requires i <= |slots|
    ensures AssignmentAccounted(slots, queue, tick, duration, AssignFrom(slots, i, queue, tick, duration))
    decreases |slots| - i
  {
    if i < |slots| && queue != [] {
      if slots[i].deliveryUntil == 0 {
        var s := slots[i].(deliveryUntil := tick + duration);
        BusyUpdate(slots, i, s);
        AssignKeepsWork(slots[i := s], i + 1, queue[1..], tick, duration);
        AccountFirst(slots, i, queue, tick, duration, AssignFrom(slots[i := s], i + 1, queue[1..], tick, duration));
      } else {
        AssignKeepsWork(slots, i + 1, queue, tick, duration);
      }
    }
  }

  lemma AccountFirst(slots: seq<Slot>, i: nat, queue: seq<int>, tick: int, duration: int, r: Assigned)
    requires i < |slots| && queue != [] && slots[i].deliveryUntil == 0
    requires AssignmentAccounted(slots[i := slots[i].(deliveryUntil := tick + duration)], queue[1..], tick, duration, r)
    ensures AssignmentAccounted(slots, queue, tick, duration, Assigned(r.slots, r.queue, [Start(queue[0], tick)] + r.starts))
  {
    hide Busy;
    var s := slots[i].(deliveryUntil := tick + duration);
    BusyUpdate(slots, i, s);
    var first := [Start(queue[0], tick)];
    ArrivedOfSplit(first, r.starts);
    LostSplit(first, r.starts, duration);
    FirstStart(queue[0], tick, duration);
    assert queue == [queue[0]] + queue[1..];
  }

  lemma FirstStart(arrived: int, tick: int, duration: int)
    ensures ArrivedOf([Start(arrived, tick)]) == [arrived]
    ensures Lost([Start(arrived, tick)], duration) == if tick + duration == 0 then 1 else 0
  {
  }

  /** After assignment either nothing waits or nobody is free. */
  lemma {:induction false} AssignIsWorkConserving(slots: seq<Slot>, i: nat, queue: seq<int>, tick: int, duration: int)
    requires i <= |slots| && tick + duration != 0
    ensures var r := AssignFrom(slots, i, queue, tick, duration);
            |r.slots| == |slots|
            && (forall j :: 0 <= j < i ==> r.slots[j] == slots[j])
            && (r.queue != [] ==> forall j :: i <= j < |slots| ==> r.slots[j].deliveryUntil != 0)
    decreases |slots| - i
  {
    if i < |slots| && queue != [] {
      if slots[i].deliveryUntil == 0 {
        AssignIsWorkConserving(slots[i := slots[i].(deliveryUntil := tick + duration)], i + 1, queue[1..], tick, duration);
      } else {
        AssignIsWorkConserving(slots, i + 1, queue, tick, duration);
      }
    }
  }

  lemma {:induction false} FreeingCounts(slots: seq<Slot>, tick: int)
    ensures Busy(FreeAll(slots, tick)) + Finished(slots, tick) == Busy(slots)
  {
    if slots != [] {
      FreeingCounts(slots[..|slots| - 1], tick);
      var r := FreeAll(slots, tick);
      assert r[..|r| - 1] == FreeAll(slots[..|slots| - 1], tick) by { FreeAllPointwise(slots[..|slots| - 1], tick); }
    }
  }

  lemma {:induction false} BusyIgnoresLearning(a: seq<Slot>, b: seq<Slot>)
    requires |a| == |b| && forall i :: 0 <= i < |a| ==> a[i].deliveryUntil == b[i].deliveryUntil
    ensures Busy(a) == Busy(b)
  {
    if a != [] {
      BusyIgnoresLearning(a[..|a| - 1], b[..|b| - 1]);
    }
  }

  ghost predicate Accounted(cfg: Config, st: State, n: nat) {
    |st.slots| == cfg.workers
    && ArrivedOf(st.starts) + st.queue == AllArrivals(cfg, n)
    && |st.starts| == st.completed + Busy(st.slots) + Lost(st.starts, cfg.duration)
  }

  lemma TickAccounts(cfg: Config, st: State, n: nat)
    requires Accounted(cfg, st, n)
    ensures Accounted(cfg, Tick(cfg, st, n), n + 1)
  {
    hide Busy, Lost, ArrivedOf, FreeAll, AssignFrom, LearnFrom, Finished, ArrivalsAt, LearningAdmitted;
    var freed := FreeAll(st.slots, n);
    var queue := st.queue + ArrivalsAt(cfg, n);
    FreeAllPointwise(st.slots, n);
    FreeingCounts(st.slots, n);
    AssignKeepsWork(freed, 0, queue, n, cfg.duration);
    var r := AssignFrom(freed, 0, queue, n, cfg.duration);
    LearnOnlyLearns(r.slots, 0);
    BusyIgnoresLearning(r.slots, LearnFrom(r.slots, 0).0);
    ArrivedOfSplit(st.starts, r.starts);
    LostSplit(st.starts, r.starts, cfg.duration);
    assert ArrivedOf(st.starts + r.starts) + r.queue == ArrivedOf(st.starts) + (ArrivedOf(r.starts) + r.queue);
    assert ArrivedOf(st.starts) + queue == AllArrivals(cfg, n) + ArrivalsAt(cfg, n);
  }

  /** For every configuration: arrivals are served first-in first-out, and every arrival is completed,
      in flight, queued, or one of the deliveries the zero finish tick loses. */
  lemma {:induction false} WorkIsAccountedFor(cfg: Config, n: nat)
    ensures var st := Run(cfg, n);
            Accounted(cfg, st, n)
            && |AllArrivals(cfg, n)| == st.completed + Busy(st.slots) + |st.queue| + Lost(st.starts, cfg.duration)
  {
    hide Tick, ArrivedOf, Lost, Busy, AllArrivals;
    ArrivedOfLength(Run(cfg, n).starts);
    if n == 0 {
      StartAccounted(cfg);
    } else {
      WorkIsAccountedFor(cfg, n - 1);
      TickAccounts(cfg, Run(cfg, n - 1), n - 1);
    }
  }

  lemma StartAccounted(cfg: Config)
    ensures Accounted(cfg, Init(cfg), 0)
  {
    BusyInit(cfg.workers);
  }

  lemma {:induction false} ArrivedOfLength(starts: seq<Start>)
    ensures |ArrivedOf(starts)| == |starts|
  {
    if starts != [] {
      ArrivedOfLength(starts[..|starts| - 1]);
    }
  }

  lemma {:induction false} BusyInit(workers: nat)
    ensures Busy(seq(workers, _ => Slot(0, false))) == 0
  {
    if workers > 0 {
      BusyInit(workers - 1);
      var all := seq(workers, _ => Slot(0, false));
      assert all[..workers - 1] == seq(workers - 1, _ => Slot(0, false));
    }
  }

  // ---- When nothing is lost ----

  ghost predicate Conserved(cfg: Config, n: nat) {
    var st := Run(cfg, n);
    |AllArrivals(cfg, n)| == st.completed + Busy(st.slots) + |st.queue|
  }

  lemma {:induction false} LostIsZero(starts: seq<Start>, duration: int)
    ensures Lost(starts, duration) == 0 <==> forall s :: s in starts ==> s.at + duration != 0
  {
    if starts != [] {
      var init, last := starts[..|starts| - 1], starts[|starts| - 1];
      assert starts == init + [last];
      LostIsZero(init, duration);
    }
  }

  /** Work is conserved exactly when no delivery was started at tick `-duration`. */
  lemma ConservedExactly(cfg: Config, n: nat)
    ensures Conserved(cfg, n) <==> forall s :: s in Run(cfg, n).starts ==> s.at != -cfg.duration
  {
    hide Run, Lost, Busy, AllArrivals;
    WorkIsAccountedFor(cfg, n);
    LostIsZero(Run(cfg, n).starts, cfg.duration);
  }

  /** Starts happen in simulated time, after the arrival they serve. */
  ghost predicate TimedStarts(st: State, n: nat) {
    (forall s :: s in st.starts ==> 0 <= s.arrived <= s.at < n)
    && (forall q :: q in st.queue ==> 0 <= q < n)
    && (forall i, j :: 0 <= i < j < |st.starts| ==> st.starts[i].at <= st.starts[j].at)
  }

  lemma {:induction false} StartsAreTimed(cfg: Config, n: nat)
    ensures TimedStarts(Run(cfg, n), n)
  {
    hide Tick;
    if n > 0 {
      StartsAreTimed(cfg, n - 1);
      TickTimesStarts(cfg, Run(cfg, n - 1), n - 1);
    }
  }

  lemma TickTimesStarts(cfg: Config, st: State, n: nat)
    requires TimedStarts(st, n)
    ensures TimedStarts(Tick(cfg, st, n), n + 1)
  {
    hide Busy, Lost, ArrivedOf, FreeAll, AssignFrom, LearnFrom, Finished, LearningAdmitted;
    var queue := st.queue + ArrivalsAt(cfg, n);
    AssignKeepsWork(FreeAll(st.slots, n), 0, queue, n, cfg.duration);
    var r := AssignFrom(FreeAll(st.slots, n), 0, queue, n, cfg.duration);
    forall q | q in r.queue ensures q in queue {
      assert q in ArrivedOf(r.starts) + r.queue;
    }
  }

  /** With a positive duration nothing is lost: arrivals = completed + in flight + queued at every tick. */
  lemma PositiveDurationConserves(cfg: Config, n: nat)
    requires cfg.duration > 0
    ensures Conserved(cfg, n)
  {
    ConservedExactly(cfg, n);
    StartsAreTimed(cfg, n);
  }

  /** With a zero duration the simulation forgets the first tick's deliveries as soon as it starts them. */
  lemma ZeroDurationLoses(cfg: Config, n: nat)
    requires cfg.duration == 0 && cfg.workers > 0 && |cfg.arrivals| > 0 && cfg.arrivals[0] > 0 && n > 0
    ensures !Conserved(cfg, n)
  {
    ConservedExactly(cfg, n);
    FirstStartStays(cfg, n);
  }

  lemma {:induction false} FirstStartStays(cfg: Config, n: nat)
    requires cfg.workers > 0 && |cfg.arrivals| > 0 && cfg.arrivals[0] > 0 && n > 0
    ensures |Run(cfg, n).starts| > 0 && Run(cfg, n).starts[0] == Start(0, 0)
  {
    if n == 1 {
      FreeAllPointwise(Init(cfg).slots, 0);
      assert Run(cfg, 0) == Init(cfg);
      assert Init(cfg).queue + ArrivalsAt(cfg, 0) == ArrivalsAt(cfg, 0);
    } else {
      FirstStartStays(cfg, n - 1);
    }
  }

  // ---- Every delivery occupies one worker for exactly its duration ----

  function UntilCount(slots: seq<Slot>, u: int): nat {
    if slots == [] then 0
    else UntilCount(slots[..|slots| - 1], u) + (if slots[|slots| - 1].deliveryUntil == u then 1 else 0)
  }

  function FinishCount(starts: seq<Start>, duration: int, u: int): nat {
    if starts == [] then 0
    else FinishCount(starts[..|starts| - 1], duration, u) + (if starts[|starts| - 1].at + duration == u then 1 else 0)
  }

  function DoneBy(starts: seq<Start>, duration: int, t: int): nat {
    if starts == [] then 0
    else DoneBy(starts[..|starts| - 1], duration, t) + (if starts[|starts| - 1].at + duration <= t then 1 else 0)
  }

  lemma {:induction false} UntilCountUpdate(slots: seq<Slot>, i: nat, s: Slot, u: int)
    requires i < |slots|
    ensures UntilCount(slots[i := s], u) + (if slots[i].deliveryUntil == u then 1 else 0)
         == UntilCount(slots, u) + (if s.deliveryUntil == u then 1 else 0)
  {
    var updated := slots[i := s];
    if i == |slots| - 1 {
      assert updated[..i] == slots[..i];
    } else {
      assert updated[..|slots| - 1] == slots[..|slots| - 1][i := s];
      UntilCountUpdate(slots[..|slots| - 1], i, s, u);
    }
  }

  lemma {:induction false} UntilCountIgnoresLearning(a: seq<Slot>, b: seq<Slot>, u: int)
    requires |a| == |b| && forall i :: 0 <= i < |a| ==> a[i].deliveryUntil == b[i].deliveryUntil
    ensures UntilCount(a, u) == UntilCount(b, u)
  {
    if a != [] {
      UntilCountIgnoresLearning(a[..|a| - 1], b[..|b| - 1], u);
    }
  }

  lemma {:induction false} FinishCountSplit(a: seq<Start>, b: seq<Start>, duration: int, u: int)
    ensures FinishCount(a + b, duration, u) == FinishCount(a, duration, u) + FinishCount(b, duration, u)
    ensures DoneBy(a + b, duration, u) == DoneBy(a, duration, u) + DoneBy(b, duration, u)
  {
    if b == [] {
      assert a + b == a;
    } else {
      FinishCountSplit(a, b[..|b| - 1], duration, u);
      assert (a + b)[..|a + b| - 1] == a + b[..|b| - 1];
    }
  }

  lemma {:induction false} DoneByNext(starts: seq<Start>, duration: int, t: int)
    ensures DoneBy(starts, duration, t) == DoneBy(starts, duration, t - 1) + FinishCount(starts, duration, t)
  {
    if starts != [] {
      DoneByNext(starts[..|starts| - 1], duration, t);
    }
  }

  lemma {:induction false} FreeingByFinish(slots: seq<Slot>, t: int, u: int)
    requires forall i :: 0 <= i < |slots| ==> slots[i].deliveryUntil == 0 || slots[i].deliveryUntil >= t
    requires u > t >= 0
    ensures UntilCount(FreeAll(slots, t), u) == UntilCount(slots, u)
    ensures t > 0 ==> Finished(slots, t) == UntilCount(slots, t)
    ensures t == 0 ==> Finished(slots, t) == 0
  {
    if slots != [] {
      FreeingByFinish(slots[..|slots| - 1], t, u);
      var r := FreeAll(slots, t);
      assert r[..|r| - 1] == FreeAll(slots[..|slots| - 1], t) by { FreeAllPointwise(slots[..|slots| - 1], t); }
    }
  }

  lemma {:induction false} AssignedFinish(slots: seq<Slot>, i: nat, queue: seq<int>, tick: int, duration: int, u: int)
    requires i <= |slots| && u != 0
    ensures var r := AssignFrom(slots, i, queue, tick, duration);
            UntilCount(r.slots, u) == UntilCount(slots, u) + FinishCount(r.starts, duration, u)
    decreases |slots| - i
  {
    if i < |slots| && queue != [] {
      if slots[i].deliveryUntil == 0 {
        var s := slots[i].(deliveryUntil := tick + duration);
        UntilCountUpdate(slots, i, s, u);
        AssignedFinish(slots[i := s], i + 1, queue[1..], tick, duration, u);
        var first := [Start(queue[0], tick)];
        FinishCountSplit(first, AssignFrom(slots[i := s], i + 1, queue[1..], tick, duration).starts, duration, u);
        OneFinish(queue[0], tick, duration, u);
      } else {
        AssignedFinish(slots, i + 1, queue, tick, duration, u);
      }
    }
  }

  lemma OneFinish(arrived: int, tick: int, duration: int, u: int)
    ensures FinishCount([Start(arrived, tick)], duration, u) == if tick + duration == u then 1 else 0
  {
  }

  lemma {:induction false} NotDoneYet(starts: seq<Start>, duration: int, t: int)
    requires forall s :: s in starts ==> s.at + duration > t
    ensures DoneBy(starts, duration, t) == 0
  {
    if starts != [] {
      NotDoneYet(starts[..|starts| - 1], duration, t);
    }
  }

  lemma {:induction false} AssignedUntil(slots: seq<Slot>, i: nat, queue: seq<int>, tick: int, duration: int)
    requires i <= |slots|
    ensures var r := AssignFrom(slots, i, queue, tick, duration);
            |r.slots| == |slots|
            && forall j :: 0 <= j < |slots| ==>
                 r.slots[j].deliveryUntil == slots[j].deliveryUntil || r.slots[j].deliveryUntil == tick + duration
    decreases |slots| - i
  {
    if i < |slots| && queue != [] {
      if slots[i].deliveryUntil == 0 {
        AssignedUntil(slots[i := slots[i].(deliveryUntil := tick + duration)], i + 1, queue[1..], tick, duration);
      } else {
        AssignedUntil(slots, i + 1, queue, tick, duration);
      }
    }
  }

  /** After `n` ticks the busy workers are exactly those holding a started, unfinished delivery,
      and the completed count is exactly the number of deliveries whose duration has elapsed. */
  ghost predicate ExactOccupancy(cfg: Config, st: State, n: nat) {
    (forall i :: 0 <= i < |st.slots| ==> st.slots[i].deliveryUntil == 0 || st.slots[i].deliveryUntil >= n)
    && (forall u :: u >= n && u > 0 ==> UntilCount(st.slots, u) == FinishCount(st.starts, cfg.duration, u))
    && st.completed == DoneBy(st.starts, cfg.duration, n - 1)
    && (forall s :: s in st.starts ==> s.at >= 0)
  }

  lemma TickKeepsOccupancy(cfg: Config, st: State, n: nat)
    requires cfg.duration > 0 && ExactOccupancy(cfg, st, n)
    ensures ExactOccupancy(cfg, Tick(cfg, st, n), n + 1)
  {
    hide UntilCount, FinishCount, DoneBy, FreeAll, AssignFrom, LearnFrom, Finished, ArrivalsAt, LearningAdmitted,
         Busy, ArrivedOf, Lost;
    var freed := FreeAll(st.slots, n);
    var queue := st.queue + ArrivalsAt(cfg, n);
    FreeAllPointwise(st.slots, n);
    AssignKeepsWork(freed, 0, queue, n, cfg.duration);
    AssignedUntil(freed, 0, queue, n, cfg.duration);
    var r := AssignFrom(freed, 0, queue, n, cfg.duration);
    LearnOnlyLearns(r.slots, 0);
    var after := Tick(cfg, st, n);
    forall u | u > n ensures UntilCount(after.slots, u) == FinishCount(after.starts, cfg.duration, u) {
      FreeingByFinish(st.slots, n, u);
      AssignedFinish(freed, 0, queue, n, cfg.duration, u);
      UntilCountIgnoresLearning(r.slots, after.slots, u);
      FinishCountSplit(st.starts, r.starts, cfg.duration, u);
    }
    FreeingByFinish(st.slots, n, n + 1);
    FinishCountSplit(st.starts, r.starts, cfg.duration, n);
    NotDoneYet(r.starts, cfg.duration, n);
    DoneByNext(st.starts, cfg.duration, n);
    if n == 0 {
      NoFinishAtZero(st.starts, cfg.duration);
    }
  }

  lemma {:induction false} NoFinishAtZero(starts: seq<Start>, duration: int)
    requires duration > 0 && forall s :: s in starts ==> s.at >= 0
    ensures FinishCount(starts, duration, 0) == 0
  {
    if starts != [] {
      NoFinishAtZero(starts[..|starts| - 1], duration);
    }
  }

  lemma {:induction false} DeliveriesTakeTheirDuration(cfg: Config, n: nat)
    requires cfg.duration > 0
    ensures ExactOccupancy(cfg, Run(cfg, n), n)
  {
    hide Tick, ExactOccupancy;
    if n == 0 {
      StartsIdle(cfg);
    } else {
      DeliveriesTakeTheirDuration(cfg, n - 1);
      TickKeepsOccupancy(cfg, Run(cfg, n - 1), n - 1);
    }
  }

  lemma StartsIdle(cfg: Config)
    ensures ExactOccupancy(cfg, Init(cfg), 0)
  {
    forall u | u > 0 ensures UntilCount(Init(cfg).slots, u) == 0 { IdleUntilCount(cfg.workers, u); }
  }

  lemma {:induction false} IdleUntilCount(workers: nat, u: int)
    requires u > 0
    ensures UntilCount(seq(workers, _ => Slot(0, false)), u) == 0
  {
    if workers > 0 {
      IdleUntilCount(workers - 1, u);
      var all := seq(workers, _ => Slot(0, false));
      assert all[..workers - 1] == seq(workers - 1, _ => Slot(0, false));
    }
  }

  // ---- Who gets capacity ----

  ghost predicate WorkConserving(st: State) {
    st.queue != [] ==> forall i :: 0 <= i < |st.slots| ==> st.slots[i].deliveryUntil != 0
  }

  /** For every configuration: after any tick but `-duration`, no delivery waits or every worker is delivering; learning
      is admitted at most once per tick, only with an empty queue, an idle worker and admitted headroom. */
  lemma DeliveryComesFirst(cfg: Config, n: nat)
    ensures var before, after := Run(cfg, n), Run(cfg, n + 1);
            (n != -cfg.duration ==> WorkConserving(after))
            && before.learned <= after.learned <= before.learned + 1
            && (after.learned > before.learned ==>
                  cfg.learningSaturated && after.queue == []
                  && (exists i :: 0 <= i < |after.slots| && after.slots[i].deliveryUntil == 0)
                  && Admit(cfg.headroomThreshold, Load(after.slots), cfg.budgetHeadroom))
  {
    hide FreeAll, AssignFrom, LearnFrom, Finished, ArrivalsAt, Busy;
    var st := Run(cfg, n);
    var freed := FreeAll(st.slots, n);
    if n != -cfg.duration {
      AssignIsWorkConserving(freed, 0, st.queue + ArrivalsAt(cfg, n), n, cfg.duration);
    }
    var r := AssignFrom(freed, 0, st.queue + ArrivalsAt(cfg, n), n, cfg.duration);
    LearnOnlyLearns(r.slots, 0);
    BusyIgnoresLearning(r.slots, LearnFrom(r.slots, 0).0);
    assert Run(cfg, n + 1) == Tick(cfg, st, n);
  }

  // ---- p95 ----

  ghost predicate SortedInts(s: seq<int>) {
    forall i, j :: 0 <= i < j < |s| ==> s[i] <= s[j]
  }

  function InsertInt(x: int, s: seq<int>): (r: seq<int>)
    ensures multiset(r) == multiset(s) + multiset{x}
  {
    if s == [] || x <= s[0] then [x] + s
    else
      assert s == [s[0]] + s[1..];
      [s[0]] + InsertInt(x, s[1..])
  }

  lemma {:induction false} InsertIntSorts(x: int, s: seq<int>)
    requires SortedInts(s)
    ensures SortedInts(InsertInt(x, s))
  {
    if s != [] && x > s[0] {
      InsertIntSorts(x, s[1..]);
      var r := InsertInt(x, s[1..]);
      forall j | 0 <= j < |r| ensures s[0] <= r[j] {
        assert r[j] in multiset(r);
      }
    }
  }

  function SortInts(s: seq<int>): (r: seq<int>)
    ensures multiset(r) == multiset(s) && |r| == |s|
  {
    if s == [] then []
    else
      assert s == [s[0]] + s[1..];
      var r := InsertInt(s[0], SortInts(s[1..]));
      assert |multiset(r)| == |multiset(s)|;
      r
  }

  lemma {:induction false} SortIntsSorts(s: seq<int>)
    ensures SortedInts(SortInts(s))
  {
    if s != [] {
      SortIntsSorts(s[1..]);
      InsertIntSorts(s[0], SortInts(s[1..]));
    }
  }

  function P95(xs: seq<int>): int {
    if xs == [] then 0
    else
      var idx := |xs| * 95 / 100;
      SortInts(xs)[if idx >= |xs| then |xs| - 1 else idx]
  }

  function CountBelow(xs: seq<int>, x: int, inclusive: bool): nat {
    if xs == [] then 0
    else
      CountBelow(xs[1..], x, inclusive) + (if xs[0] < x || (inclusive && xs[0] == x) then 1 else 0)
  }

  lemma {:induction false} CountBelowInsert(x: int, s: seq<int>, bound: int, inclusive: bool)
    ensures CountBelow(InsertInt(x, s), bound, inclusive) == CountBelow([x] + s, bound, inclusive)
  {
    if s != [] && x > s[0] {
      CountBelowInsert(x, s[1..], bound, inclusive);
      assert ([x] + s)[1..] == s && ([x] + s[1..])[1..] == s[1..];
      assert ([s[0]] + InsertInt(x, s[1..]))[1..] == InsertInt(x, s[1..]);
    }
  }

  lemma {:induction false} CountBelowSort(s: seq<int>, bound: int, inclusive: bool)
    ensures CountBelow(SortInts(s), bound, inclusive) == CountBelow(s, bound, inclusive)
  {
    if s != [] {
      CountBelowSort(s[1..], bound, inclusive);
      CountBelowInsert(s[0], SortInts(s[1..]), bound, inclusive);
      assert ([s[0]] + SortInts(s[1..]))[1..] == SortInts(s[1..]);
    }
  }

  lemma {:induction false} CountBelowSorted(s: seq<int>, k: nat, x: int)
    requires SortedInts(s) && k < |s| && s[k] == x
    ensures CountBelow(s, x, true) >= k + 1
    ensures CountBelow(s, x, false) <= k
  {
    if k > 0 {
      CountBelowSorted(s[1..], k - 1, x);
    } else {
      NoneBelow(s, x);
    }
  }

  lemma {:induction false} NoneBelow(s: seq<int>, x: int)
    requires forall i :: 0 <= i < |s| ==> s[i] >= x
    ensures CountBelow(s, x, false) == 0
  {
    if s != [] {
      NoneBelow(s[1..], x);
    }
  }

  /** The reported latency is a 95th percentile: more than 95% of the waits are at most it, at most 95% are below it. */
  lemma P95IsPercentile(xs: seq<int>)
    requires xs != []
    ensures P95(xs) in xs
    ensures CountBelow(xs, P95(xs), true) * 100 > |xs| * 95
    ensures CountBelow(xs, P95(xs), false) * 100 <= |xs| * 95
  {
    hide CountBelow, SortInts;
    var k := |xs| * 95 / 100;
    SortIntsSorts(xs);
    CountBelowSorted(SortInts(xs), k, P95(xs));
    CountBelowSort(xs, P95(xs), true);
    CountBelowSort(xs, P95(xs), false);
    assert P95(xs) in multiset(SortInts(xs));
  }

  // ---- RunSoak ----

  /** Phase 1: free the workers whose delivery finished and count them. */
  method FreeWorkers(workers: array<Slot>, tick: int) returns (finished: nat)
    modifies workers
    ensures workers[..] == FreeAll(old(workers[..]), tick)
    ensures finished == Finished(old(workers[..]), tick)
  {
    finished := 0;
    ghost var before := workers[..];
    FreeAllPointwise(before, tick);
    for i := 0 to workers.Length
      invariant finished == Finished(before[..i], tick)
      invariant forall j :: 0 <= j < i ==> workers[j] == FreeSlot(before[j], tick)
      invariant forall j :: i <= j < workers.Length ==> workers[j] == before[j]
    {
      assert before[..i + 1][..i] == before[..i];
      if workers[i].deliveryUntil != 0 && workers[i].deliveryUntil <= tick {
        workers[i] := workers[i].(deliveryUntil := 0);
        finished := finished + 1;
      }
      workers[i] := workers[i].(learning := false);
    }
    assert before[..|before|] == before;
  }

  /** Phase 2: the tick's arrivals join the queue. */
  method EnqueueArrivals(cfg: Config, queue0: seq<int>, tick: int) returns (queue: seq<int>)
    requires tick >= 0
    ensures queue == queue0 + ArrivalsAt(cfg, tick)
  {
    queue := queue0;
    if tick < |cfg.arrivals| {
      var j := 0;
      while j < cfg.arrivals[tick]
        invariant 0 <= j && (j <= cfg.arrivals[tick] || j == 0)
        invariant queue == queue0 + Repeat(tick, j)
      {
        queue := queue + [tick];
        assert Repeat(tick, j + 1) == Repeat(tick, j) + [tick];
        j := j + 1;
      }
      assert Repeat(tick, j) == Repeat(tick, cfg.arrivals[tick]);
    }
  }

  /** Phase 3: hand the queue to free workers, recording each wait. */
  method AssignWorkers(workers: array<Slot>, queue0: seq<int>, tick: int, duration: int)
    returns (queue: seq<int>, latencies: seq<int>)
    modifies workers
    ensures var r := AssignFrom(old(workers[..]), 0, queue0, tick, duration);
            workers[..] == r.slots && queue == r.queue && latencies == Waits(r.starts)
  {
    hide Waits;
    queue, latencies := queue0, [];
    ghost var total := AssignFrom(workers[..], 0, queue0, tick, duration);
    ghost var starts: seq<Start> := [];
    NoWaits();
    var i := 0;
    while i < workers.Length && queue != []
      invariant 0 <= i <= workers.Length
      invariant latencies == Waits(starts)
      invariant Continues(starts, AssignFrom(workers[..], i, queue, tick, duration), total)
    {
      if workers[i].deliveryUntil == 0 {
        ghost var start := Start(queue[0], tick);
        ghost var slots := workers[..];
        ContinueWithStart(slots, i, queue, tick, duration, starts, total);
        WaitsSnoc(starts, start);
        latencies := latencies + [tick - queue[0]];
        queue := queue[1..];
        workers[i] := workers[i].(deliveryUntil := tick + duration);
        assert workers[..] == slots[i := slots[i].(deliveryUntil := tick + duration)];
        starts := starts + [start];
      }
      i := i + 1;
    }
    assert starts == total.starts;
  }

  /** What is still to be assigned, put behind the starts made so far, is the whole assignment. */
  ghost predicate Continues(starts: seq<Start>, rest: Assigned, total: Assigned) {
    rest.slots == total.slots && rest.queue == total.queue && starts + rest.starts == total.starts
  }

  lemma ContinueWithStart(slots: seq<Slot>, i: nat, queue: seq<int>, tick: int, duration: int,
                          starts: seq<Start>, total: Assigned)
    requires i < |slots| && queue != [] && slots[i].deliveryUntil == 0
    requires Continues(starts, AssignFrom(slots, i, queue, tick, duration), total)
    ensures Continues(starts + [Start(queue[0], tick)],
                      AssignFrom(slots[i := slots[i].(deliveryUntil := tick + duration)], i + 1, queue[1..], tick, duration),
                      total)
  {
  }

  lemma WaitsSnoc(starts: seq<Start>, start: Start)
    ensures Waits(starts + [start]) == Waits(starts) + [start.at - start.arrived]
  {
  }

  /** Phase 4: the fraction of workers busy on delivery. */
  method DeliveryLoad(workers: array<Slot>) returns (load: real)
    ensures load == Load(workers[..])
  {
    var busy := 0;
    for i := 0 to workers.Length
      invariant busy == Busy(workers[..i])
    {
      assert workers[..i + 1][..i] == workers[..i];
      if workers[i].deliveryUntil != 0 {
        busy := busy + 1;
      }
    }
    assert workers[..workers.Length] == workers[..];
    load := if workers.Length == 0 then 0.0 else busy as real / workers.Length as real;
  }

  /** Phase 5: one learning task on the first idle worker. */
  method AdmitLearning(workers: array<Slot>) returns (admitted: nat)
    modifies workers
    ensures (workers[..], admitted) == LearnFrom(old(workers[..]), 0)
  {
    admitted := 0;
    for i := 0 to workers.Length
      invariant workers[..] == old(workers[..])
      invariant LearnFrom(workers[..], i) == LearnFrom(old(workers[..]), 0)
    {
      if workers[i].deliveryUntil == 0 {
        ghost var filled := workers[..][i := workers[i].(learning := true)];
        workers[i] := workers[i].(learning := true);
        assert workers[..] == filled;
        admitted := 1;
        return;
      }
    }
  }

  lemma {:induction false} WaitsSplit(a: seq<Start>, b: seq<Start>)
    ensures Waits(a + b) == Waits(a) + Waits(b)
  {
    if b == [] {
      assert a + b == a;
    } else {
      WaitsSplit(a, b[..|b| - 1]);
      assert (a + b)[..|a + b| - 1] == a + b[..|b| - 1];
    }
  }

  function Report(st: State): SoakResult {
    SoakResult(P95(Waits(st.starts)), st.completed, st.learned)
  }

  /** The simulation itself, proved to report exactly what the tick function computes. */
  method RunSoak(cfg: Config) returns (r: SoakResult)
    ensures r == Report(Run(cfg, if cfg.ticks < 0 then 0 else cfg.ticks))
  {
    hide Busy, FreeAll, AssignFrom, LearnFrom, Finished, ArrivalsAt, Waits, P95, Load;
    var workers := new Slot[cfg.workers](_ => Slot(0, false));
    assert workers[..] == Init(cfg).slots;
    var queue: seq<int> := [];
    var latencies: seq<int> := [];
    var learned, completions := 0, 0;
    NoWaits();
    var tick := 0;
    while tick < cfg.ticks
      invariant 0 <= tick && (tick <= cfg.ticks || tick == 0)
      invariant var st := Run(cfg, tick);
                workers[..] == st.slots && queue == st.queue && latencies == Waits(st.starts)
                && completions == st.completed && learned == st.learned
    {
      ghost var st := Run(cfg, tick);
      var finished := FreeWorkers(workers, tick);
      completions := completions + finished;
      queue := EnqueueArrivals(cfg, queue, tick);
      ghost var a := AssignFrom(FreeAll(st.slots, tick), 0, st.queue + ArrivalsAt(cfg, tick), tick, cfg.duration);
      var waits;
      queue, waits := AssignWorkers(workers, queue, tick, cfg.duration);
      WaitsSplit(st.starts, a.starts);
      latencies := latencies + waits;
      var load := DeliveryLoad(workers);
      if cfg.learningSaturated && queue == [] {
        if Admit(cfg.headroomThreshold, load, cfg.budgetHeadroom) {
          var admitted := AdmitLearning(workers);
          learned := learned + admitted;
        }
      }
      assert Run(cfg, tick + 1) == Tick(cfg, st, tick);
      tick := tick + 1;
    }
    r := SoakResult(P95(latencies), completions, learned);
  }

  lemma NoWaits()
    ensures Waits([]) == []
  {
  }

  /** The acceptance promise: saturating the learning lane changes neither p95 nor completions. */
  lemma SoakReportsSameDelivery(a: Config, b: Config, n: nat)
    requires a.workers == b.workers && a.arrivals == b.arrivals && a.duration == b.duration
    ensures Report(Run(a, n)).deliveryP95 == Report(Run(b, n)).deliveryP95
    ensures Report(Run(a, n)).deliveryCompleted == Report(Run(b, n)).deliveryCompleted
  {
    LearningNeverTouchesDelivery(a, b, n);
  }
}
