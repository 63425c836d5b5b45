/** The authoritative activation log and its reconciliation
    (internal/evolve/skill_package_record_store.go). */
module RecordLog {
  import opened Options
  import opened Packages

  datatype RecordState = Prepared | Committed | RecoveredCommitted | Aborted | Recorded

  datatype Record = Record(
    seqNo: int, action: Action, state: RecordState, skill: string, personal: bool,
    from: int, to: int, pin: Option<Pin>, proposed: Option<Digest>, reason: string, at: int)

  /** What a terminal row settles: the action, the skill and the version it leads to - not one prepared row. */
  datatype Identity = Identity(action: Action, skill: string, to: int)

  function IdentityOf(r: Record): Identity {
    Identity(r.action, r.skill, r.to)
  }

  /** validateSkillPackageRecord, without the character patterns of names, digests and reasons. */
  predicate ValidRecord(r: Record) {
    r.seqNo >= 1 && r.from >= 1 && r.to >= 1
    && match r.action
       case EvaluateOnly =>
         r.state == Recorded && r.from == r.to && r.pin == None && r.reason != "" && r.proposed.Some?
       case _ =>
         r.state != Recorded && r.to == r.from + 1 && r.pin.Some? && r.proposed == None && r.reason == ""
         && r.pin.value.source == Source(r.skill, r.to)
         && (r.action == Rollback ==> r.personal)
  }

  ghost predicate Contiguous(log: seq<Record>) {
    forall i :: 0 <= i < |log| ==> log[i].seqNo == i + 1
  }

  ghost predicate AllValid(log: seq<Record>) {
    forall i :: 0 <= i < |log| ==> ValidRecord(log[i])
  }

  function NextSequence(log: seq<Record>): int {
    if log == [] then 1 else log[|log| - 1].seqNo + 1
  }

  function Appended(log: seq<Record>, r: Record): seq<Record> {
    log + [r.(seqNo := NextSequence(log))]
  }

  ghost predicate Settled(log: seq<Record>, id: Identity) {
    exists i :: 0 <= i < |log| && log[i].state != Prepared && IdentityOf(log[i]) == id
  }

  /** Row `i` was prepared and nothing has settled its identity. */
  ghost predicate OpenAt(log: seq<Record>, i: int)
    requires 0 <= i < |log|
  {
    log[i].state == Prepared && !Settled(log, IdentityOf(log[i]))
  }

  ghost predicate NothingOpen(log: seq<Record>) {
    forall i :: 0 <= i < |log| ==> !OpenAt(log, i)
  }

  ghost predicate OnlyLastOpen(log: seq<Record>) {
    forall i :: 0 <= i < |log| - 1 ==> !OpenAt(log, i)
  }

  // ---- Reconciliation ----

  function Terminals(log: seq<Record>): (ids: set<Identity>)
    ensures forall id :: id in ids <==> Settled(log, id)
  {
    set r | r in log && r.state != Prepared :: IdentityOf(r)
  }

  /** The terminal row recovery writes: committed exactly when the catalog already points at the prepared pin. */
  function Recovered(r: Record, pins: map<string, Pin>, now: int): Record {
    r.(state := if r.skill in pins && Some(pins[r.skill]) == r.pin then RecoveredCommitted else Aborted, at := now)
  }

  /** The second loop of reconcilePreparedRecords from row `i` of the snapshot on. */
  function RecoverFrom(snapshot: seq<Record>, terminal: set<Identity>, i: nat, log: seq<Record>, pins: map<string,
                       Pin>, now: int): seq<Record>
    requires i <= |snapshot|
    decreases |snapshot| - i
  {
    if i == |snapshot| then log
    else if snapshot[i].state == Prepared && IdentityOf(snapshot[i]) !in terminal then
      RecoverFrom(snapshot, terminal, i + 1, Appended(log, Recovered(snapshot[i], pins, now)), pins, now)
    else RecoverFrom(snapshot, terminal, i + 1, log, pins, now)
  }

  function Reconciled(log: seq<Record>, pins: map<string, Pin>, now: int): seq<Record> {
    RecoverFrom(log, Terminals(log), 0, log, pins, now)
  }

  /** Row `r` is what recovery writes for some open row of the snapshot. */
  ghost predicate SettlesOpenRow(snapshot: seq<Record>, pins: map<string, Pin>, r: Record) {
    exists i :: 0 <= i < |snapshot| && OpenAt(snapshot, i)
      && IdentityOf(r) == IdentityOf(snapshot[i]) && r.pin == snapshot[i].pin
      && r.state == (if snapshot[i].skill in pins && Some(pins[snapshot[i].skill]) == snapshot[i].pin
                     then RecoveredCommitted else Aborted)
  }

  ghost predicate Extends(log: seq<Record>, longer: seq<Record>) {
    |log| <= |longer| && longer[..|log|] == log
  }

  lemma AppendedIsContiguous(log: seq<Record>, r: Record)
    requires Contiguous(log)
    ensures Contiguous(Appended(log, r)) && Extends(log, Appended(log, r))
    ensures AllValid(log) && ValidRecord(r.(seqNo := NextSequence(log))) ==> AllValid(Appended(log, r))
  {
  }

  lemma SettledIsStable(log: seq<Record>, longer: seq<Record>, id: Identity)
    requires Extends(log, longer) && Settled(log, id)
    ensures Settled(longer, id)
  {
  }

  lemma ExtendsTransitive(a: seq<Record>, b: seq<Record>, c: seq<Record>)
    requires Extends(a, b) && Extends(b, c)
    ensures Extends(a, c)
  {
  }

  /** Recovery only appends, and what it appends is valid and numbered on. */
  lemma {:induction false} RecoverKeepsShape(snapshot: seq<Record>, i: nat, log: seq<Record>, pins: map<string, Pin>,
                                             now: int)
    requires i <= |snapshot| && Contiguous(log) && AllValid(log) && AllValid(snapshot)
    ensures var r := RecoverFrom(snapshot, Terminals(snapshot), i, log, pins, now);
            Contiguous(r) && AllValid(r) && Extends(log, r)
    decreases |snapshot| - i
  {
    hide ValidRecord;
    if i < |snapshot| {
      var row := snapshot[i];
      if row.state == Prepared && IdentityOf(row) !in Terminals(snapshot) {
        hide Contiguous;
        var rec := Recovered(row, pins, now);
        ContiguousNext(log);
        RecoveredIsValid(row, pins, now, NextSequence(log));
        AppendedIsContiguous(log, rec);
        RecoverKeepsShape(snapshot, i + 1, Appended(log, rec), pins, now);
        ExtendsTransitive(log, Appended(log, rec), RecoverFrom(snapshot, Terminals(snapshot), i + 1, Appended(log, rec), pins, now));
      } else {
        RecoverKeepsShape(snapshot, i + 1, log, pins, now);
      }
    }
  }

  lemma ContiguousNext(log: seq<Record>)
    requires Contiguous(log)
    ensures NextSequence(log) == |log| + 1
  {
  }

  ghost predicate NewRowsSettle(snapshot: seq<Record>, pins: map<string, Pin>, from: nat, r: seq<Record>) {
    forall j :: from <= j < |r| ==> r[j].state != Prepared && SettlesOpenRow(snapshot, pins, r[j])
  }

  /** Recovery appends only rows that settle an open row of the snapshot. */
  lemma {:induction false} RecoverAppendsSettling(snapshot: seq<Record>, i: nat, log: seq<Record>, from: nat,
                                                  pins: map<string, Pin>, now: int)
    requires i <= |snapshot| && NewRowsSettle(snapshot, pins, from, log)
    ensures NewRowsSettle(snapshot, pins, from, RecoverFrom(snapshot, Terminals(snapshot), i, log, pins, now))
    decreases |snapshot| - i
  {
    if i < |snapshot| {
      var row := snapshot[i];
      if row.state == Prepared && IdentityOf(row) !in Terminals(snapshot) {
        assert OpenAt(snapshot, i);
        var rec := Recovered(row, pins, now).(seqNo := NextSequence(log));
        assert SettlesOpenRow(snapshot, pins, rec);
        hide SettlesOpenRow;
        RecoverAppendsSettling(snapshot, i + 1, log + [rec], from, pins, now);
      } else {
        RecoverAppendsSettling(snapshot, i + 1, log, from, pins, now);
      }
    }
  }

  /** After recovery every prepared row of the snapshot from `i` on is settled. */
  lemma {:induction false} RecoverSettles(snapshot: seq<Record>, i: nat, log: seq<Record>, pins: map<string, Pin>,
                                          now: int, j: nat)
    requires i <= j < |snapshot| && Contiguous(log) && AllValid(log) && AllValid(snapshot) && Extends(snapshot, log)
    requires snapshot[j].state == Prepared
    ensures Settled(RecoverFrom(snapshot, Terminals(snapshot), i, log, pins, now), IdentityOf(snapshot[j]))
    decreases |snapshot| - i
  {
    hide ValidRecord, Contiguous;
    var row, id := snapshot[i], IdentityOf(snapshot[j]);
    if row.state == Prepared && IdentityOf(row) !in Terminals(snapshot) {
      var rec := Recovered(row, pins, now);
      var log' := Appended(log, rec);
      ContiguousNext(log);
      RecoveredIsValid(row, pins, now, NextSequence(log));
      AppendedIsContiguous(log, rec);
      ExtendsTransitive(snapshot, log, log');
      if i < j {
        RecoverSettles(snapshot, i + 1, log', pins, now, j);
      } else {
        RecoverKeepsShape(snapshot, i + 1, log', pins, now);
        assert log'[|log|].state != Prepared && IdentityOf(log'[|log|]) == id;
        SettledIsStable(log', RecoverFrom(snapshot, Terminals(snapshot), i + 1, log', pins, now), id);
      }
    } else if i < j {
      RecoverSettles(snapshot, i + 1, log, pins, now, j);
    } else {
      RecoverKeepsShape(snapshot, i + 1, log, pins, now);
      SettledIsStable(snapshot, log, id);
      SettledIsStable(log, RecoverFrom(snapshot, Terminals(snapshot), i + 1, log, pins, now), id);
    }
  }

  lemma RecoveredIsValid(r: Record, pins: map<string, Pin>, now: int, seqNo: int)
    requires ValidRecord(r) && r.state == Prepared && seqNo >= 1
    ensures ValidRecord(Recovered(r, pins, now).(seqNo := seqNo))
  {
  }

  /** Reconciliation settles every prepared row of any log, appends nothing else and keeps the sequence gapless. */
  lemma ReconcileSettlesEverything(log: seq<Record>, pins: map<string, Pin>, now: int)
    requires Contiguous(log) && AllValid(log)
    ensures var r := Reconciled(log, pins, now);
            NothingOpen(r) && Contiguous(r) && AllValid(r) && Extends(log, r)
            && (forall j :: |log| <= j < |r| ==> r[j].state != Prepared && SettlesOpenRow(log, pins, r[j]))
  {
    RecoverKeepsShape(log, 0, log, pins, now);
    RecoverAppendsSettling(log, 0, log, |log|, pins, now);
    var r := Reconciled(log, pins, now);
    forall i | 0 <= i < |r| ensures !OpenAt(r, i) {
      if i < |log| {
        assert r[i] == r[..|log|][i];
        if log[i].state == Prepared {
          RecoverSettles(log, 0, log, pins, now, i);
        }
      }
    }
  }

  lemma {:induction false} NothingToRecover(snapshot: seq<Record>, i: nat, log: seq<Record>, pins: map<string, Pin>,
                                            now: int)
    requires i <= |snapshot|
    requires forall j :: i <= j < |snapshot| ==> !OpenAt(snapshot, j)
    ensures RecoverFrom(snapshot, Terminals(snapshot), i, log, pins, now) == log
    decreases |snapshot| - i
  {
    if i < |snapshot| {
      assert !OpenAt(snapshot, i);
      NothingToRecover(snapshot, i + 1, log, pins, now);
    }
  }

  /** A second reconciliation - at any later time and for any catalog - appends nothing. */
  lemma SecondReconcileIsNoOp(log: seq<Record>, pins: map<string, Pin>, now: int, pins': map<string, Pin>, later: int)
    requires Contiguous(log) && AllValid(log)
    ensures var r := Reconciled(log, pins, now);
            Reconciled(r, pins', later) == r
  {
    ReconcileSettlesEverything(log, pins, now);
    var r := Reconciled(log, pins, now);
    NothingToRecover(r, 0, r, pins', later);
  }

  lemma {:induction false} RecoverLast(snapshot: seq<Record>, i: nat, log: seq<Record>, pins: map<string, Pin>,
                                       now: int)
    requires i < |snapshot| && OnlyLastOpen(snapshot) && OpenAt(snapshot, |snapshot| - 1)
    ensures RecoverFrom(snapshot, Terminals(snapshot), i, log, pins, now)
         == Appended(log, Recovered(snapshot[|snapshot| - 1], pins, now))
    decreases |snapshot| - i
  {
    if i < |snapshot| - 1 {
      assert !OpenAt(snapshot, i);
      RecoverLast(snapshot, i + 1, log, pins, now);
    }
  }

  /** When only the newest row can be open, reconciliation writes at most one row. */
  lemma ReconcileWritesAtMostOne(log: seq<Record>, pins: map<string, Pin>, now: int)
    requires OnlyLastOpen(log)
    ensures Reconciled(log, pins, now) ==
              if log != [] && OpenAt(log, |log| - 1) then Appended(log, Recovered(log[|log| - 1], pins, now)) else log
  {
    if log != [] && OpenAt(log, |log| - 1) {
      RecoverLast(log, 0, log, pins, now);
    } else {
      NothingToRecover(log, 0, log, pins, now);
    }
  }

  // ---- The store ----

  /** The records directory: one immutable file per row. */
  class RecordStore {
    var records: seq<Record>

    ghost predicate Valid()
      reads this
    {
      Contiguous(records) && AllValid(records)
    }

    constructor ()
      ensures Valid() && records == []
    {
      records := [];
    }

    /** appendAuthoritativeRecord: numbers the row after the last one and refuses an invalid row. */
    method Append(r: Record) returns (ok: bool)
      requires Valid()
      modifies this
      ensures Valid()
      ensures ok <==> ValidRecord(r.(seqNo := |old(records)| + 1))
      ensures records == if ok then Appended(old(records), r) else old(records)
    {
      var seqNo := 1;
      if |records| > 0 {
        seqNo := records[|records| - 1].seqNo + 1;
      }
      var numbered := r.(seqNo := seqNo);
      if !ValidRecord(numbered) {
        return false;
      }
      records := records + [numbered];
      ok := true;
    }

    /** reconcilePreparedRecords: collect the terminal identities, then append one row per open prepared row. */
    method Reconcile(pins: map<string, Pin>, now: int)
      requires Valid()
      modifies this
      ensures Valid()
      ensures records == Reconciled(old(records), pins, now)
      ensures NothingOpen(records)
    {
      hide ValidRecord;
      var snapshot := records;
      var terminal: set<Identity> := {};
      for i := 0 to |snapshot|
        invariant terminal == Terminals(snapshot[..i])
        invariant records == snapshot == old(records)
      {
        assert snapshot[..i + 1] == snapshot[..i] + [snapshot[i]];
        if snapshot[i].state != Prepared {
          terminal := terminal + {IdentityOf(snapshot[i])};
        }
      }
      assert snapshot[..|snapshot|] == snapshot;
      for i := 0 to |snapshot|
        invariant Valid()
        invariant RecoverFrom(snapshot, terminal, i, records, pins, now) == Reconciled(snapshot, pins, now)
      {
        var row := snapshot[i];
        if row.state == Prepared && IdentityOf(row) !in terminal {
          RecoveredIsValid(row, pins, now, |records| + 1);
          var ok := Append(Recovered(row, pins, now));
        }
      }
      ReconcileSettlesEverything(snapshot, pins, now);
    }
  }
}
