/** The `CONNECTION_COUNTS` store: one map from a key to a `u32` count. The
    keys are channel identifiers and the literal `callback_counter`; both
    kinds share the one map. */
module Store {
  import opened Binary

  type Counts = map<string, nat>

  /** The key under which both callback paths count (`CALLBACK_COUNTER`). */
  const CALLBACK_COUNTER: string := "callback_counter"

  /** Every stored count is a `u32`. */
  predicate FitsU32(m: Counts) {
    forall k :: k in m ==> m[k] <= U32_MAX
  }

  /** `may_load(key).unwrap_or_default()`: an absent key reads as 0. */
  function Load(m: Counts, k: string): (v: nat)
    ensures FitsU32(m) ==> v <= U32_MAX
  {
    if k in m then m[k] else 0
  }

  /** `update(key, |c| c.unwrap_or_default() + 1)`. */
  function Incremented(m: Counts, k: string): (m': Counts)
    requires Load(m, k) < U32_MAX
    ensures Load(m', k) == Load(m, k) + 1
    ensures forall j :: j != k ==> Load(m', j) == Load(m, j)
    ensures m'.Keys == m.Keys + {k}
    ensures FitsU32(m) ==> FitsU32(m')
  {
    m[k := Load(m, k) + 1]
  }

  /** Incrementing two keys commutes: the order in which two entry points
      touch the store does not matter to the final counts. */
  lemma IncrementsCommute(m: Counts, a: string, b: string)
    requires Load(m, a) < U32_MAX && Load(m, b) < U32_MAX
    requires a == b ==> Load(m, a) + 1 < U32_MAX
    ensures Load(Incremented(m, a), b) < U32_MAX && Load(Incremented(m, b), a) < U32_MAX
    ensures Incremented(Incremented(m, a), b) == Incremented(Incremented(m, b), a)
  {
  }
}
