/** The freeze latch of one process (internal/evolve/budget.go) and the durable freeze rows with the promotion
    guard (internal/evolve/freeze_store.go), as the objects whose steps the activation protocol interleaves. */
module Freezes {
  import opened Options
  import opened Packages
  import opened Budget
  import opened Activation

  // ---- The latch ----

  /** The process-wide latch; the read-write lock around it is the protocol's `reading`. */
  class ProcessLatch {
    var frozen: bool
    var source: LatchSource
    var reason: Option<Condition>

    ghost function View(): Latch
      reads this
    {
      Latch(frozen, source)
    }

    /** A latch is frozen exactly when it has a source and a reason. */
    ghost predicate Valid()
      reads this
    {
      frozen == (source != NoLatch) && frozen == reason.Some?
    }

    constructor ()
      ensures Valid() && View() == THAWED
    {
      frozen, source, reason := false, NoLatch, None;
    }

    method Freeze(why: Condition)
      requires Valid()
      modifies this
      ensures Valid() && View() == FreezeLocally(old(View())) && reason == Some(why)
    {
      frozen := true;
      reason, source := Some(why), LocalLatch;
    }

    /** A direct local freeze keeps its reason too. */
    method MirrorDurableFreeze(why: Condition)
      requires Valid()
      modifies this
      ensures Valid() && View() == MirrorDurable(old(View()))
      ensures reason == if old(source) == LocalLatch then old(reason) else Some(why)
    {
      if source == LocalLatch {
        return;
      }
      frozen := true;
      reason, source := Some(why), MirrorLatch;
    }

    method ClearDurableFreezeMirror()
      requires Valid()
      modifies this
      ensures Valid() && View() == ClearMirror(old(View()))
      ensures reason == if old(source) == MirrorLatch then None else old(reason)
    {
      if source != MirrorLatch {
        return;
      }
      frozen := false;
      reason, source := None, NoLatch;
    }

    method Unfreeze()
      requires Valid()
      modifies this
      ensures Valid() && View() == THAWED
    {
      frozen := false;
      reason, source := None, NoLatch;
    }
  }

  datatype LatchCall = CallFreeze | CallMirror | CallClear | CallUnfreeze

  function LatchAfter(calls: seq<LatchCall>): Latch {
    if calls == [] then THAWED
    else
      var before := LatchAfter(calls[..|calls| - 1]);
      match calls[|calls| - 1]
      case CallFreeze => FreezeLocally(before)
      case CallMirror => MirrorDurable(before)
      case CallClear => ClearMirror(before)
      case CallUnfreeze => THAWED
  }

  /** A call of kind `c` that no call in `undone` follows. */
  ghost predicate Stands(calls: seq<LatchCall>, c: LatchCall, undone: set<LatchCall>) {
    exists i :: 0 <= i < |calls| && calls[i] == c && forall j :: i < j < |calls| ==> calls[j] !in undone
  }

  lemma StandsSnoc(calls: seq<LatchCall>, last: LatchCall, c: LatchCall, undone: set<LatchCall>)
    requires c !in undone
    ensures Stands(calls + [last], c, undone) <==> last == c || (last !in undone && Stands(calls, c, undone))
  {
    var longer := calls + [last];
    if last == c {
      assert longer[|calls|] == c;
    } else if last !in undone && Stands(calls, c, undone) {
      var i :| 0 <= i < |calls| && calls[i] == c && forall j :: i < j < |calls| ==> calls[j] !in undone;
      assert longer[i] == c;
    }
    if last != c && Stands(longer, c, undone) {
      var i :| 0 <= i < |longer| && longer[i] == c && forall j :: i < j < |longer| ==> longer[j] !in undone;
      assert calls[i] == c && longer[|calls|] == last;
      forall j | i < j < |calls| ensures calls[j] !in undone {
        assert calls[j] == longer[j];
      }
    }
  }

  /** Over any sequence of calls: the latch is frozen exactly when a local freeze has not been thawed since, or a
      mirrored one has been neither thawed nor cleared since - so no durable refresh ever undoes a local freeze. */
  lemma {:induction false} LatchRemembers(calls: seq<LatchCall>)
    ensures var l := LatchAfter(calls);
            var locally := Stands(calls, CallFreeze, {CallUnfreeze});
            var mirrored := Stands(calls, CallMirror, {CallUnfreeze, CallClear});
            (l.source == LocalLatch <==> locally) && (l.source == MirrorLatch <==> !locally && mirrored)
            && (l.frozen <==> locally || mirrored)
  {
    if calls != [] {
      var init, last := calls[..|calls| - 1], calls[|calls| - 1];
      assert calls == init + [last];
      LatchRemembers(init);
      StandsSnoc(init, last, CallFreeze, {CallUnfreeze});
      StandsSnoc(init, last, CallMirror, {CallUnfreeze, CallClear});
    }
  }

  // ---- The durable rows ----

  const GLOBAL_SCOPE := "global"

  function Normalized(scope: string): string {
    if scope == "" then GLOBAL_SCOPE else scope
  }

  datatype Thaw = Waits | Thawed(existed: bool)

  /** The freeze table and the scopes whose advisory lock an open guard holds. */
  class FreezeStore {
    var rows: map<string, Condition>
    var locked: set<string>

    constructor ()
      ensures rows == map[] && locked == {}
    {
      rows, locked := map[], {};
    }

    /** Takes the scope's lock for the length of the write, so it waits while a guard holds it. */
    method Freeze(scope: string, reason: Condition) returns (done: bool)
      modifies this`rows
      ensures done == (Normalized(scope) !in locked)
      ensures rows == if done then old(rows)[Normalized(scope) := reason] else old(rows)
    {
      done := Normalized(scope) !in locked;
      if done {
        rows := rows[Normalized(scope) := reason];
      }
    }

    method Unfreeze(scope: string) returns (r: Thaw)
      modifies this`rows
      ensures r.Waits? <==> Normalized(scope) in locked
      ensures r.Waits? ==> rows == old(rows)
      ensures r.Thawed? ==> rows == old(rows) - {Normalized(scope)} && r.existed == (Normalized(scope) in old(rows))
    {
      var key := Normalized(scope);
      if key in locked {
        return Waits;
      }
      r := Thawed(key in rows);
      rows := rows - {key};
    }

    /** Takes the lock, then reads the row under it: thawed keeps the lock in a guard, frozen releases it. Waits while
        another guard holds the scope. */
    method AcquirePromotionGuard(scope: string) returns (r: Acquisition)
      modifies this`locked
      ensures r.Queued? <==> Normalized(scope) in old(locked)
      ensures r.Frozen? <==> Normalized(scope) !in old(locked) && Normalized(scope) in rows
      ensures r.Frozen? ==> r.reason == rows[Normalized(scope)]
      ensures r.Guarded? ==> fresh(r.guard) && r.guard.Holds() && r.guard.store == this && r.guard.scope == Normalized(scope)
      ensures locked == if r.Guarded? then old(locked) + {Normalized(scope)} else old(locked)
    {
      var key := Normalized(scope);
      if key in locked {
        return Queued;
      }
      locked := locked + {key};
      if key !in rows {
        var g := new PromotionGuard(this, key);
        return Guarded(g);
      }
      locked := locked - {key};
      return Frozen(rows[key]);
    }
  }

  datatype Acquisition = Queued | Frozen(reason: Condition) | Guarded(guard: PromotionGuard)

  /** Keeps the freeze decision stable until it is released, once. */
  class PromotionGuard {
    const store: FreezeStore
    const scope: string
    var done: bool

    ghost predicate Holds()
      reads this, store
    {
      !done && scope in store.locked
    }

    constructor (store: FreezeStore, scope: string)
      requires scope in store.locked
      ensures this.store == store && this.scope == scope && Holds()
    {
      this.store, this.scope, done := store, scope, false;
    }

    /** Commit and Rollback both release; a second release is a no-op even if the scope is locked again by then. */
    method Release()
      modifies this, store`locked
      ensures done
      ensures store.locked == if old(done) then old(store.locked) else old(store.locked) - {scope}
    {
      if !done {
        store.locked := store.locked - {scope};
      }
      done := true;
    }
  }
}
