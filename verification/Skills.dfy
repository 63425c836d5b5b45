/** Skill versions, the authority they carry, and the L1 gates (internal/evolve/skills.go). */
module Skills {
  import opened Budget

  /** One version of a skill. `permissions` and `dataClasses` are lists whose order is kept. */
  datatype SkillVersion = SkillVersion(
    skill: string, version: int, prompt: string,
    permissions: seq<string>, dataClasses: seq<string>, budgetUSD: real)

  /** `a` carries no authority that `b` lacks. */
  ghost predicate Within(a: SkillVersion, b: SkillVersion) {
    (forall p :: p in a.permissions ==> p in b.permissions)
    && (forall c :: c in a.dataClasses ==> c in b.dataClasses)
    && a.budgetUSD <= b.budgetUSD
  }

  lemma WithinTransitive(a: SkillVersion, b: SkillVersion, c: SkillVersion)
    requires Within(a, b) && Within(b, c)
    ensures Within(a, c)
  {
  }

  /** subset: collects `b`, then looks up every element of `a`. */
  method Subset(a: seq<string>, b: seq<string>) returns (ok: bool)
    ensures ok <==> forall x :: x in a ==> x in b
  {
    var members: set<string> := {};
    for i := 0 to |b|
      invariant members == set x | x in b[..i]
    {
      members := members + {b[i]};
    }
    assert b[..|b|] == b;
    for i := 0 to |a|
      invariant forall k :: 0 <= k < i ==> a[k] in b
    {
      if a[i] !in members {
        ok := false;
        return;
      }
    }
    ok := true;
  }

  predicate SubsetOf(a: seq<string>, b: seq<string>) {
    forall x | x in a :: x in b
  }

  datatype L1Failure = L1OK | NotReversible | NewPermission | NewDataClass | BudgetIncrease | QualityRegression

  function CheckL1(base: SkillVersion, proposed: SkillVersion): L1Failure {
    if base.skill == "" || base.version == 0 then NotReversible
    else if !SubsetOf(proposed.permissions, base.permissions) then NewPermission
    else if !SubsetOf(proposed.dataClasses, base.dataClasses) then NewDataClass
    else if proposed.budgetUSD > base.budgetUSD then BudgetIncrease
    else L1OK
  }

  /** CheckL1Conditions, gate by gate. */
  method CheckL1Conditions(base: SkillVersion, proposed: SkillVersion) returns (f: L1Failure)
    ensures f == CheckL1(base, proposed)
    ensures f == L1OK <==> base.skill != "" && base.version != 0 && Within(proposed, base)
  {
    if base.skill == "" || base.version == 0 {
      return NotReversible;
    }
    var permissionsOK := Subset(proposed.permissions, base.permissions);
    if !permissionsOK {
      return NewPermission;
    }
    var classesOK := Subset(proposed.dataClasses, base.dataClasses);
    if !classesOK {
      return NewDataClass;
    }
    if proposed.budgetUSD > base.budgetUSD {
      return BudgetIncrease;
    }
    return L1OK;
  }

  /** A proposed evolution with the evidence gathered about it. */
  datatype Candidate = Candidate(
    base: SkillVersion, proposed: SkillVersion, personal: bool,
    baseScore: real, proposedScore: real, shadowPass: bool, canaryPass: bool)

  datatype Stage = Rejected | Quarantined | Reverted | Proposed | Promoted

  datatype Outcome = Outcome(stage: Stage, failure: L1Failure, applied: bool)

  /** evaluate with the process latch ignored, as the bridge calls it. */
  function Evaluate(c: Candidate, window: Window, limits: Limits): Outcome {
    var failure := CheckL1(c.base, c.proposed);
    if failure != L1OK then Outcome(Rejected, failure, false)
    else if c.proposedScore < c.baseScore then Outcome(Rejected, QualityRegression, false)
    else if !c.shadowPass then Outcome(Quarantined, L1OK, false)
    else if !c.canaryPass then Outcome(Reverted, L1OK, false)
    else if Breaches(window.(promotions := window.promotions + 1), limits) != [] then Outcome(Quarantined, L1OK, false)
    else if !c.personal then Outcome(Proposed, L1OK, false)
    else Outcome(Promoted, L1OK, true)
  }

  /** Only a personal candidate that clears every gate and stays inside its base's authority is applied. */
  lemma AppliedMeansEveryGate(c: Candidate, window: Window, limits: Limits)
    ensures Evaluate(c, window, limits).applied <==>
              c.base.skill != "" && c.base.version != 0 && Within(c.proposed, c.base)
              && c.proposedScore >= c.baseScore && c.shadowPass && c.canaryPass && c.personal
              && Breaches(window.(promotions := window.promotions + 1), limits) == []
  {
  }

  // ---- The in-memory registry ----

  /** A history numbers its versions consecutively and belongs to one skill. */
  ghost predicate GoodHistory(skill: string, h: seq<SkillVersion>) {
    h != [] && forall i :: 0 <= i < |h| ==> h[i].skill == skill && h[i].version == h[0].version + i
  }

  function Renumbered(v: SkillVersion, skill: string, version: int): SkillVersion {
    v.(skill := skill, version := version)
  }

  /** SkillRegistry: append-only version histories. */
  class SkillRegistry {
    var versions: map<string, seq<SkillVersion>>

    ghost predicate Valid()
      reads this
    {
      forall s :: s in versions ==> GoodHistory(s, versions[s])
    }

    constructor ()
      ensures Valid() && versions == map[]
    {
      versions := map[];
    }

    method Register(v: SkillVersion)
      requires Valid()
      modifies this
      ensures Valid()
      ensures versions == old(versions)[v.skill := [v.(version := if v.version == 0 then 1 else v.version)]]
    {
      versions := versions[v.skill := [v.(version := if v.version == 0 then 1 else v.version)]];
    }

    method Promote(skill: string, proposed: SkillVersion) returns (v: SkillVersion)
      requires Valid() && skill in versions
      modifies this
      ensures Valid()
      ensures versions == old(versions)[skill := old(versions[skill]) + [v]]
      ensures v == Renumbered(proposed, skill, old(versions[skill])[0].version + |old(versions[skill])|)
    {
      var h := versions[skill];
      v := Renumbered(proposed, skill, h[|h| - 1].version + 1);
      versions := versions[skill := h + [v]];
    }

    /** Rollback appends a copy of the previous version; it fails without one and then changes nothing. */
    method Rollback(skill: string) returns (ok: bool, v: SkillVersion)
      requires Valid()
      modifies this
      ensures Valid()
      ensures ok <==> skill in old(versions) && |old(versions[skill])| >= 2
      ensures !ok ==> versions == old(versions)
      ensures ok ==>
                var h := old(versions[skill]);
                versions == old(versions)[skill := RolledBack(skill, h)] && v == RolledBack(skill, h)[|h|]
    {
      if skill !in versions || |versions[skill]| < 2 {
        ok, v := false, SkillVersion("", 0, "", [], [], 0.0);
        return;
      }
      var h := versions[skill];
      v := Renumbered(h[|h| - 2], skill, h[|h| - 1].version + 1);
      versions := versions[skill := h + [v]];
      ok := true;
    }
  }

  function RolledBack(skill: string, h: seq<SkillVersion>): (r: seq<SkillVersion>)
    requires |h| >= 2
    ensures GoodHistory(skill, h) ==> GoodHistory(skill, r)
    ensures |r| == |h| + 1 && r[..|h|] == h
  {
    h + [Renumbered(h[|h| - 2], skill, h[|h| - 1].version + 1)]
  }

  /** Rolling back twice restores the version rolled back from, under a new number. */
  lemma TwoRollbacksRestore(skill: string, h: seq<SkillVersion>)
    requires GoodHistory(skill, h) && |h| >= 2
    ensures var r := RolledBack(skill, RolledBack(skill, h));
            r[|r| - 1] == h[|h| - 1].(version := h[|h| - 1].version + 2)
  {
  }
}
