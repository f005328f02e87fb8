/** The in-process holder of the org's model access policy: one snapshot and a
    generation that every write bumps (backend/src/gatekey/services/model_policy.py). */
module PolicyCache {

  datatype Mode = Unconfigured | Allowlist | Denylist

  datatype Snapshot = Snapshot(mode: Mode, models: set<string>)

  const UNCONFIGURED := Snapshot(Unconfigured, {})

  datatype CacheValue = CacheValue(snapshot: Snapshot, generation: nat)

  class ModelPolicyCache {
    var snapshot: Snapshot
    var generation: nat

    constructor ()
      ensures Value() == CacheValue(UNCONFIGURED, 0)
    {
      snapshot, generation := UNCONFIGURED, 0;
    }

    ghost function Value(): CacheValue
      reads this
    {
      CacheValue(snapshot, generation)
    }

    method GetGeneration() returns (g: nat)
      ensures g == generation
    {
      g := generation;
    }

    /** Unconditional: an admin write always wins, and is visible as a new generation. */
    method Set(s: Snapshot) returns (g: nat)
      modifies this
      ensures Value() == CacheValue(s, old(generation) + 1)
      ensures g == generation
    {
      snapshot := s;
      generation := generation + 1;
      g := generation;
    }

    /** Compare-and-set: writes exactly when nobody has written since `expected` was captured. */
    method SetIfCurrent(s: Snapshot, expected: nat) returns (applied: bool)
      modifies this
      ensures applied <==> old(generation) == expected
      ensures Value() == if applied then CacheValue(s, old(generation) + 1) else old(Value())
    {
      if generation != expected {
        return false;
      }
      snapshot := s;
      generation := generation + 1;
      return true;
    }
  }
}
