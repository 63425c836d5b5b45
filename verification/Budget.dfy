/** The 30-day change budget: thresholds, the rolling window and the durable reservation log
    (internal/evolve/budget.go, internal/evolve/skill_package_budget_store.go). */
module Budget {
  import opened Options
  import opened Packages

  datatype Condition = BudgetExceeded | QualityRegressionFreeze | CostSpike | SecurityClassChange | RollbackChainDepth

  datatype Limits = Limits(
    maxPromotions: int, maxFilesChanged: int, maxRoutingWeightDelta: real, maxCostDeltaUSD: real,
    maxQualityRegression: real, maxRollbackDepth: int, maxHumanCheckpointInterval: int)

  const DAY := 86400
  /** The trailing window: 30 days in seconds. */
  const WINDOW := 30 * DAY

  const DEFAULT_LIMITS := Limits(5, 50, 0.1, 100.0, 0.05, 2, 7 * DAY)

  /** An all-zero configuration falls back to the conservative defaults. */
  function EffectiveLimits(l: Limits): Limits {
    if l.maxPromotions == 0 && l.maxFilesChanged == 0 && l.maxRollbackDepth == 0 then DEFAULT_LIMITS else l
  }

  datatype Window = Window(
    promotions: int, filesChanged: int, routingWeightDelta: real, costDeltaUSD: real,
    qualityDelta: real, rollbackChainDepth: int, securityClassChanged: bool, sinceCheckpoint: int)

  const EMPTY_WINDOW := Window(0, 0, 0.0, 0.0, 0.0, 0, false, 0)

  function Breaches(w: Window, l: Limits): seq<Condition> {
    (if (l.maxPromotions > 0 && w.promotions > l.maxPromotions)
        || (l.maxFilesChanged > 0 && w.filesChanged > l.maxFilesChanged)
        || (l.maxRoutingWeightDelta > 0.0 && w.routingWeightDelta > l.maxRoutingWeightDelta)
     then [BudgetExceeded] else [])
    + (if l.maxCostDeltaUSD > 0.0 && w.costDeltaUSD > l.maxCostDeltaUSD then [CostSpike] else [])
    + (if l.maxQualityRegression > 0.0 && w.qualityDelta < 0.0 && -w.qualityDelta > l.maxQualityRegression
       then [QualityRegressionFreeze] else [])
    + (if w.securityClassChanged then [SecurityClassChange] else [])
    + (if l.maxRollbackDepth > 0 && w.rollbackChainDepth > l.maxRollbackDepth then [RollbackChainDepth] else [])
    + (if l.maxHumanCheckpointInterval > 0 && w.sinceCheckpoint > l.maxHumanCheckpointInterval
       then [BudgetExceeded] else [])
  }

  lemma TooManyPromotionsBreach(w: Window, l: Limits)
    requires l.maxPromotions > 0 && w.promotions > l.maxPromotions
    ensures Breaches(w, l) != []
  {
  }

  // ---- The reservation log ----

  /** One durable reservation; `key` names the operation it pays for. */
  datatype Event = Event(seqNo: nat, at: int, key: OpKey, action: Action, filesChanged: int)

  function Apply(w: Window, e: Event): Window {
    var charged := w.(filesChanged := w.filesChanged + e.filesChanged);
    if e.action == Promote then charged.(promotions := w.promotions + 1, rollbackChainDepth := 0)
    else charged.(rollbackChainDepth := w.rollbackChainDepth + 1)
  }

  /** The window a reload folds from the log: every event after the cutoff, oldest first. */
  function WindowOf(events: seq<Event>, cutoff: int): Window {
    if events == [] then EMPTY_WINDOW
    else
      var last := events[|events| - 1];
      var w := WindowOf(events[..|events| - 1], cutoff);
      if last.at > cutoff then Apply(w, last) else w
  }

  /** Promotions reserved strictly after `cutoff` and no later than `until`. */
  function PromotesIn(events: seq<Event>, cutoff: int, until: int): nat {
    if events == [] then 0
    else
      var last := events[|events| - 1];
      PromotesIn(events[..|events| - 1], cutoff, until)
      + (if last.action == Promote && cutoff < last.at <= until then 1 else 0)
  }

  function Keys(events: seq<Event>): (r: set<OpKey>) {
    set e | e in events :: e.key
  }

  datatype Reservation =
    | Malformed
    | TimeWentBackwards
    | AlreadyReserved
    | Breached(condition: Condition)
    | Accepted(events: seq<Event>, window: Window, breach: Option<Condition>)

  /** reserveDurableBudget: same key, no second charge; a breaching promotion is refused, a breaching rollback is
      not. */
  function Reserve(events: seq<Event>, window: Window, limits: Limits, at: int, key: OpKey, action: Action,
                   files: int): Reservation {
    if files <= 0 || action == EvaluateOnly then Malformed
    else if events != [] && at < events[|events| - 1].at then TimeWentBackwards
    else if key in Keys(events) then AlreadyReserved
    else
      var e := Event(|events| + 1, at, key, action, files);
      var projected := Apply(window, e);
      var breaches := Breaches(projected, limits);
      if breaches != [] && action != Rollback then Breached(breaches[0])
      else Accepted(events + [e], projected, if breaches == [] then None else Some(breaches[0]))
  }

  /** What a reload accepts. */
  ghost predicate WellFormedEvents(events: seq<Event>, now: int) {
    (forall i :: 0 <= i < |events| ==>
       events[i].seqNo == i + 1 && events[i].at <= now && events[i].filesChanged > 0 && events[i].action != EvaluateOnly)
    && (forall i, j :: 0 <= i < j < |events| ==> events[i].at <= events[j].at && events[i].key != events[j].key)
  }

  function LastAt(events: seq<Event>): int {
    if events == [] then 0 else events[|events| - 1].at
  }

  /** A reload at `now` finds no reservation of the future. */
  predicate Loads(events: seq<Event>, now: int) {
    events == [] || events[|events| - 1].at <= now
  }

  /** A log that is well formed as of its last event is accepted by a reload exactly when that event is not of the future. */
  lemma ReloadAcceptsIff(events: seq<Event>, now: int)
    requires WellFormedEvents(events, LastAt(events))
    ensures WellFormedEvents(events, now) <==> Loads(events, now)
  {
  }

  lemma {:induction false} WindowCountsPromotes(events: seq<Event>, cutoff: int, until: int)
    requires forall e :: e in events ==> e.at <= until
    ensures WindowOf(events, cutoff).promotions == PromotesIn(events, cutoff, until)
  {
    if events != [] {
      WindowCountsPromotes(events[..|events| - 1], cutoff, until);
    }
  }

  /** A later cutoff or an earlier end can only count fewer promotions. */
  lemma {:induction false} PromotesMonotone(events: seq<Event>, c1: int, u1: int, c2: int, u2: int)
    requires c1 <= c2 && u2 <= u1
    ensures PromotesIn(events, c2, u2) <= PromotesIn(events, c1, u1)
  {
    if events != [] {
      PromotesMonotone(events[..|events| - 1], c1, u1, c2, u2);
    }
  }

  lemma WindowSnoc(events: seq<Event>, cutoff: int, e: Event)
    ensures WindowOf(events + [e], cutoff) == if e.at > cutoff then Apply(WindowOf(events, cutoff), e) else WindowOf(events, cutoff)
  {
    assert (events + [e])[..|events|] == events;
  }

  /** A retried operation finds its own reservation and is not charged again. */
  lemma RetryIsNotCharged(events: seq<Event>, window: Window, limits: Limits, at: int, key: OpKey, action: Action,
                          files: int,
                             later: int, window': Window)
    requires Reserve(events, window, limits, at, key, action, files).Accepted?
    requires later >= at
    ensures var after := Reserve(events, window, limits, at, key, action, files).events;
            Reserve(after, window', limits, later, key, action, files) == AlreadyReserved
  {
  }

  // ---- The bound ----

  /** Each accepted promotion had room when it was accepted. */
  ghost predicate RoomAtEachPromotion(events: seq<Event>, max: int) {
    events == []
    || (var last := events[|events| - 1];
        RoomAtEachPromotion(events[..|events| - 1], max)
        && (last.action == Promote ==> PromotesIn(events, last.at - WINDOW, last.at) <= max))
  }

  ghost predicate Ordered(events: seq<Event>) {
    forall i, j :: 0 <= i < j < |events| ==> events[i].at <= events[j].at
  }

  /** Accepting a reservation against a window loaded at `loadedAt` keeps every promotion within its limit. */
  lemma AcceptKeepsRoom(events: seq<Event>, loadedAt: int, limits: Limits, at: int, key: OpKey, action: Action,
                        files: int)
    requires limits.maxPromotions > 0 && loadedAt <= at
    requires Ordered(events) && RoomAtEachPromotion(events, limits.maxPromotions)
    requires Reserve(events, WindowOf(events, loadedAt - WINDOW), limits, at, key, action, files).Accepted?
    ensures var after := Reserve(events, WindowOf(events, loadedAt - WINDOW), limits, at, key, action, files).events;
            Ordered(after) && RoomAtEachPromotion(after, limits.maxPromotions)
  {
    hide Breaches, Reserve, WindowOf, Apply, PromotesIn;
    var e := Event(|events| + 1, at, key, action, files);
    AcceptedAppends(events, WindowOf(events, loadedAt - WINDOW), limits, at, key, action, files);
    assert (events + [e])[..|events|] == events;
    if action == Promote {
      forall x | x in events ensures x.at <= at {}
      PromotionHadRoom(events, loadedAt, limits, e);
    }
  }

  /** What acceptance means: one more event, no earlier than the last, and no breach if it is a promotion. */
  lemma AcceptedAppends(events: seq<Event>, window: Window, limits: Limits, at: int, key: OpKey, action: Action,
                        files: int)
    requires Reserve(events, window, limits, at, key, action, files).Accepted?
    ensures var e := Event(|events| + 1, at, key, action, files);
            Reserve(events, window, limits, at, key, action, files).events == events + [e]
            && (events != [] ==> events[|events| - 1].at <= at)
            && (action == Promote ==> Breaches(Apply(window, e), limits) == [])
  {
    hide Breaches, Apply;
  }

  lemma PromotionHadRoom(events: seq<Event>, loadedAt: int, limits: Limits, e: Event)
    requires limits.maxPromotions > 0 && loadedAt <= e.at && e.action == Promote
    requires forall x :: x in events ==> x.at <= e.at
    requires Breaches(Apply(WindowOf(events, loadedAt - WINDOW), e), limits) == []
    ensures PromotesIn(events + [e], e.at - WINDOW, e.at) <= limits.maxPromotions
  {
    hide Breaches;
    var w := WindowOf(events, loadedAt - WINDOW);
    if Apply(w, e).promotions > limits.maxPromotions {
      TooManyPromotionsBreach(Apply(w, e), limits);
    }
    WindowCountsPromotes(events, loadedAt - WINDOW, e.at);
    PromotesMonotone(events, loadedAt - WINDOW, e.at, e.at - WINDOW, e.at);
    assert (events + [e])[..|events|] == events;
  }

  /** Whenever each promotion had room, no trailing window anywhere holds more than the limit. */
  lemma {:induction false} EveryWindowIsBounded(events: seq<Event>, max: nat, t: int)
    requires Ordered(events) && RoomAtEachPromotion(events, max)
    ensures PromotesIn(events, t - WINDOW, t) <= max
  {
    if events != [] {
      var n := |events| - 1;
      var init, last := events[..n], events[n];
      if last.action == Promote && t - WINDOW < last.at <= t {
        assert PromotesIn(events, last.at - WINDOW, last.at) <= max;
        PromotesCutShort(events, t - WINDOW, t, last.at);
        PromotesMonotone(events, last.at - WINDOW, last.at, t - WINDOW, last.at);
      } else {
        EveryWindowIsBounded(init, max, t);
      }
    }
  }

  /** Nothing in the log lies after its last event. */
  lemma {:induction false} PromotesCutShort(events: seq<Event>, cutoff: int, until: int, latest: int)
    requires latest <= until && forall e :: e in events ==> e.at <= latest
    ensures PromotesIn(events, cutoff, until) == PromotesIn(events, cutoff, latest)
  {
    if events != [] {
      PromotesCutShort(events[..|events| - 1], cutoff, until, latest);
    }
  }

  // ---- The store ----

  lemma NoEventsAreWellFormed(now: int)
    ensures WellFormedEvents([], now)
  {
  }

  /** What one more record has to satisfy. */
  lemma WellFormedSnoc(events: seq<Event>, e: Event, now: int)
    ensures WellFormedEvents(events + [e], now) <==>
              WellFormedEvents(events, now)
              && e.seqNo == |events| + 1 && e.at <= now && e.filesChanged > 0 && e.action != EvaluateOnly
              && (events != [] ==> events[|events| - 1].at <= e.at) && e.key !in Keys(events)
  {
    var longer := events + [e];
    if WellFormedEvents(longer, now) {
      forall i | 0 <= i < |events| ensures events[i] == longer[i] {}
      assert longer[|events|] == e;
      if events != [] {
        assert longer[|events| - 1].at <= longer[|events|].at;
      }
      forall x | x in events ensures x.key != e.key {
        var i :| 0 <= i < |events| && events[i] == x;
        assert longer[i].key != longer[|events|].key;
      }
    }
    if WellFormedEvents(events, now) && e.key !in Keys(events) {
      forall i | 0 <= i < |events| ensures events[i].key != e.key {
        assert events[i] in events;
      }
    }
  }

  lemma WellFormedPrefix(events: seq<Event>, n: nat, now: int)
    requires n <= |events|
    ensures WellFormedEvents(events, now) ==> WellFormedEvents(events[..n], now)
  {
  }

  /** Some event is inside the window that opens at `c1` and outside the one that opens at `c2`. */
  ghost predicate AgesOut(events: seq<Event>, c1: int, c2: int) {
    exists i :: 0 <= i < |events| && c1 < events[i].at <= c2
  }

  lemma {:induction false} WindowsDifferByAge(events: seq<Event>, c1: int, c2: int)
    requires c1 <= c2 && forall i :: 0 <= i < |events| ==> events[i].filesChanged > 0
    ensures WindowOf(events, c2).filesChanged <= WindowOf(events, c1).filesChanged
    ensures AgesOut(events, c1, c2) ==> WindowOf(events, c2).filesChanged < WindowOf(events, c1).filesChanged
    ensures !AgesOut(events, c1, c2) ==> WindowOf(events, c2) == WindowOf(events, c1)
  {
    if events != [] {
      var n := |events| - 1;
      var init := events[..n];
      WindowsDifferByAge(init, c1, c2);
      if AgesOut(events, c1, c2) {
        var i :| 0 <= i < |events| && c1 < events[i].at <= c2;
        assert i < n ==> init[i] == events[i];
      } else {
        assert forall i :: 0 <= i < n ==> init[i] == events[i];
        assert !(c1 < events[n].at <= c2);
      }
    }
  }

  /** After an accepted reservation a reload accepts the log, and the window kept in memory is the one the reload folds
      exactly when no event lies between the two cutoffs - of the load and of the reservation, whichever is earlier. */
  lemma ReservedWindowIsReloaded(events: seq<Event>, loadedAt: int, limits: Limits, at: int, key: OpKey, action: Action,
                                 files: int)
    requires WellFormedEvents(events, loadedAt)
    requires Reserve(events, WindowOf(events, loadedAt - WINDOW), limits, at, key, action, files).Accepted?
    ensures var r := Reserve(events, WindowOf(events, loadedAt - WINDOW), limits, at, key, action, files);
            var first, last := if loadedAt <= at then loadedAt else at, if loadedAt <= at then at else loadedAt;
            WellFormedEvents(r.events, at)
            && (r.window == WindowOf(r.events, at - WINDOW) <==> !AgesOut(events, first - WINDOW, last - WINDOW))
  {
    hide Breaches, WindowOf, Keys;
    var e := Event(|events| + 1, at, key, action, files);
    assert WellFormedEvents(events, at);
    WellFormedSnoc(events, e, at);
    WindowSnoc(events, at - WINDOW, e);
    if loadedAt <= at {
      WindowsDifferByAge(events, loadedAt - WINDOW, at - WINDOW);
    } else {
      WindowsDifferByAge(events, at - WINDOW, loadedAt - WINDOW);
    }
  }

  datatype Loaded = Invalid | Loaded(events: seq<Event>, window: Window)

  /** The durable budget directory: one immutable file per reservation, read back in order. */
  class BudgetStore {
    var events: seq<Event>

    constructor ()
      ensures events == []
    {
      events := [];
    }

    /** loadDurableBudget: one pass that validates every record and folds the recent ones. */
    method Load(now: int) returns (r: Loaded)
      ensures r.Loaded? <==> WellFormedEvents(events, now)
      ensures r.Loaded? ==> r.events == events && r.window == WindowOf(events, now - WINDOW)
    {
      hide Apply, WellFormedEvents;
      var window := EMPTY_WINDOW;
      var seen: set<OpKey> := {};
      var lastAt := 0;
      NoEventsAreWellFormed(now);
      for i := 0 to |events|
        invariant WellFormedEvents(events[..i], now)
        invariant seen == Keys(events[..i])
        invariant i > 0 ==> lastAt == events[i - 1].at
        invariant window == WindowOf(events[..i], now - WINDOW)
      {
        var e := events[i];
        assert events[..i + 1] == events[..i] + [e];
        assert events[..i + 1][..i] == events[..i];
        WellFormedSnoc(events[..i], e, now);
        if e.seqNo != i + 1 || e.at > now || (i > 0 && e.at < lastAt) || e.filesChanged <= 0
           || e.action == EvaluateOnly || e.key in seen {
          WellFormedPrefix(events, i + 1, now);
          return Invalid;
        }
        seen := seen + {e.key};
        lastAt := e.at;
        if e.at > now - WINDOW {
          window := Apply(window, e);
        }
      }
      assert events[..|events|] == events;
      r := Loaded(events, window);
    }

    /** reserveDurableBudget: the search for the key, the projected window, the breach test and the append. */
    method ReserveOne(window: Window, limits: Limits, at: int, key: OpKey, action: Action, files: int)
        returns (r: Reservation)
      modifies this
      ensures r == Reserve(old(events), window, limits, at, key, action, files)
      ensures events == if r.Accepted? then r.events else old(events)
    {
      hide Breaches, Apply;
      if files <= 0 || action == EvaluateOnly {
        return Malformed;
      }
      if events != [] && at < events[|events| - 1].at {
        return TimeWentBackwards;
      }
      for i := 0 to |events|
        invariant forall k :: 0 <= k < i ==> events[k].key != key
        invariant events == old(events)
      {
        if events[i].key == key {
          assert events[i] in events;
          return AlreadyReserved;
        }
      }
      var e := Event(|events| + 1, at, key, action, files);
      var projected := Apply(window, e);
      var breach: Option<Condition> := None;
      var breaches := Breaches(projected, limits);
      if |breaches| != 0 {
        breach := Some(breaches[0]);
        if action != Rollback {
          return Breached(breaches[0]);
        }
      }
      events := events + [e];
      r := Accepted(events, projected, breach);
    }
  }
}
