/** MemStore (internal/intake/store.go): runs and their write-once stage records, updated in place. */
module IntakeStore {
  import opened Options
  import opened Intake

  class MemStore {
    var runs: map<string, Run>
    var stages: map<string, map<Stage, StageRecord>>

    /** Every run has its record map and is filed under its own identifier. */
    ghost predicate Valid() reads this {
      runs.Keys == stages.Keys && forall id :: id in runs ==> runs[id].id == id
    }

    ghost function View(id: string): Stored
      requires Valid() && id in runs
      reads this
    {
      Stored(runs[id], stages[id])
    }

    constructor ()
      ensures Valid() && runs == map[] && stages == map[]
    {
      runs, stages := map[], map[];
    }

    /** Refuses an identifier that is taken. */
    method CreateRun(run: Run) returns (ok: bool)
      requires Valid()
      modifies this
      ensures Valid() && ok == (run.id !in old(runs))
      ensures runs == if ok then old(runs)[run.id := run] else old(runs)
      ensures stages == if ok then old(stages)[run.id := map[]] else old(stages)
    {
      ok := run.id !in runs;
      if ok {
        runs, stages := runs[run.id := run], stages[run.id := map[]];
      }
    }

    method GetRun(id: string) returns (found: Option<Run>)
      requires Valid()
      ensures found == if id in runs then Some(runs[id]) else None
    {
      found := if id in runs then Some(runs[id]) else None;
    }

    method UpdateRun(run: Run) returns (ok: bool)
      requires Valid()
      modifies this`runs
      ensures Valid() && ok == (run.id in old(runs))
      ensures runs == if ok then old(runs)[run.id := run] else old(runs)
    {
      ok := run.id in runs;
      if ok {
        runs := runs[run.id := run];
      }
    }

    /** The first record of a stage stays; a second is silently dropped. */
    method RecordStage(id: string, stage: Stage, rec: StageRecord) returns (ok: bool)
      requires Valid()
      modifies this`stages
      ensures Valid() && ok == (id in old(stages))
      ensures stages == if ok then old(stages)[id := Recorded(old(stages)[id], stage, rec)] else old(stages)
    {
      ok := id in stages;
      if ok && stage !in stages[id] {
        stages := stages[id := stages[id][stage := rec]];
      }
    }

    /** None when the run is unknown, Some(None) when the stage has no record. */
    method GetStage(id: string, stage: Stage) returns (found: Option<Option<StageRecord>>)
      requires Valid()
      ensures found.Some? == (id in stages)
      ensures found.Some? ==> found.value == if stage in stages[id] then Some(stages[id][stage]) else None
    {
      if id !in stages {
        found := None;
      } else {
        found := Some(if stage in stages[id] then Some(stages[id][stage]) else None);
      }
    }
  }
}
