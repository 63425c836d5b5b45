/** Per-profile quotas (internal/deploy/quota.go). A limit of zero or less means unlimited. */
module Quota {

  datatype Limits = Limits(workflows: int, runners: int, admissions: int, missions: int)

  datatype Usage = Usage(workflows: int, runners: int, admissions: int, missions: int)

  const NOTHING := Usage(0, 0, 0, 0)
  const ONE_ADMISSION := Usage(0, 0, 1, 0)

  predicate Within(limit: int, used: int) {
    limit > 0 ==> used <= limit
  }

  predicate Fits(limits: Limits, used: Usage) {
    Within(limits.workflows, used.workflows) && Within(limits.runners, used.runners)
    && Within(limits.admissions, used.admissions) && Within(limits.missions, used.missions)
  }

  function Plus(a: Usage, b: Usage): Usage {
    Usage(a.workflows + b.workflows, a.runners + b.runners, a.admissions + b.admissions, a.missions + b.missions)
  }

  function Clamp(x: int): (r: int)
    ensures r >= 0 && r >= x && (r == x || r == 0)
  {
    if x < 0 then 0 else x
  }

  function MinusClamped(a: Usage, b: Usage): Usage {
    Usage(Clamp(a.workflows - b.workflows), Clamp(a.runners - b.runners),
          Clamp(a.admissions - b.admissions), Clamp(a.missions - b.missions))
  }

  function Used(usage: map<string, Usage>, profile: string): Usage {
    if profile in usage then usage[profile] else NOTHING
  }

  predicate CanTake(limits: map<string, Limits>, usage: map<string, Usage>, profile: string, delta: Usage) {
    profile in limits && Fits(limits[profile], Plus(Used(usage, profile), delta))
  }

  class QuotaEnforcer {
    const limits: map<string, Limits>
    var usage: map<string, Usage>

    constructor (limits: map<string, Limits>)
      ensures this.limits == limits && usage == map[]
    {
      this.limits, usage := limits, map[];
    }

    /** The check without the effect: unknown profiles are refused. */
    method CanAcquire(profile: string, delta: Usage) returns (ok: bool)
      ensures ok == CanTake(limits, usage, profile, delta)
    {
      if profile !in limits {
        return false;
      }
      var limit, want := limits[profile], Plus(Used(usage, profile), delta);
      if limit.workflows > 0 && want.workflows > limit.workflows {
        return false;
      }
      if limit.runners > 0 && want.runners > limit.runners {
        return false;
      }
      if limit.admissions > 0 && want.admissions > limit.admissions {
        return false;
      }
      if limit.missions > 0 && want.missions > limit.missions {
        return false;
      }
      return true;
    }

    /** Takes all of the delta or none of it; what is taken fits, and no other profile is touched. */
    method Acquire(profile: string, delta: Usage) returns (ok: bool)
      modifies this
      ensures ok == CanTake(limits, old(usage), profile, delta)
      ensures usage == if ok then old(usage)[profile := Plus(Used(old(usage), profile), delta)] else old(usage)
      ensures ok ==> Fits(limits[profile], Used(usage, profile))
    {
      ok := CanAcquire(profile, delta);
      if ok {
        usage := usage[profile := Plus(Used(usage, profile), delta)];
      }
    }

    /** Gives back, never below zero; it asks nothing of the profile. */
    method Release(profile: string, delta: Usage)
      modifies this
      ensures usage == old(usage)[profile := MinusClamped(Used(old(usage), profile), delta)]
    {
      usage := usage[profile := MinusClamped(Used(usage, profile), delta)];
    }
  }

  // ---- Acquire and Release as an account ----

  datatype QuotaStep = Take(profile: string, delta: Usage) | Give(profile: string, delta: Usage)

  function Account(limits: map<string, Limits>, usage: map<string, Usage>, steps: seq<QuotaStep>): map<string, Usage> {
    if steps == [] then usage
    else
      var before := Account(limits, usage, steps[..|steps| - 1]);
      match steps[|steps| - 1]
      case Take(p, delta) => if CanTake(limits, before, p, delta) then before[p := Plus(Used(before, p), delta)] else before
      case Give(p, delta) => before[p := MinusClamped(Used(before, p), delta)]
  }

  predicate NonNegative(u: Usage) {
    u.workflows >= 0 && u.runners >= 0 && u.admissions >= 0 && u.missions >= 0
  }

  /** Whatever is taken and given back, in any order and however often, a known profile stays within its
      limits as long as nobody takes or gives a negative amount. */
  lemma {:induction false} NeverOverLimit(limits: map<string, Limits>, steps: seq<QuotaStep>, profile: string)
    requires profile in limits && forall k :: 0 <= k < |steps| ==> NonNegative(steps[k].delta)
    ensures var used := Used(Account(limits, map[], steps), profile); NonNegative(used) && Fits(limits[profile], used)
  {
    if steps != [] {
      NeverOverLimit(limits, steps[..|steps| - 1], profile);
    }
  }

  /** Giving back exactly undoes taking when the usage was not negative before. */
  lemma TakeThenGiveRestores(limits: map<string, Limits>, usage: map<string, Usage>, profile: string, delta: Usage)
    requires profile in usage && CanTake(limits, usage, profile, delta)
    ensures Account(limits, usage, [Take(profile, delta), Give(profile, delta)]) == usage <==> NonNegative(usage[profile])
  {
    var steps := [Take(profile, delta), Give(profile, delta)];
    assert steps[..1][..0] == [];
    assert steps[..1] == [Take(profile, delta)];
    assert Account(limits, usage, steps[..1]) == usage[profile := Plus(usage[profile], delta)];
  }
}
