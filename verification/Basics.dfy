/** Definitions shared by the other modules. */
module Basics {
  datatype Option<+T> = None | Some(value: T)

  // A word memory: word index to 32-bit word. Words outside the map are never relied on.
  type Memory = map<nat, nat>

  function Load(m: Memory, a: nat): nat
  {
    if a in m then m[a] else 0
  }

  lemma StoreLoad(m: Memory, a: nat, w: nat)
    ensures forall x: nat | x != a :: Load(m[a := w], x) == Load(m, x)
    ensures Load(m[a := w], a) == w
  {
  }

  predicate Distinct(s: seq<nat>)
  {
    forall i, j | 0 <= i < j < |s| :: s[i] != s[j]
  }

  // n zero words from lo on (memset).
  function Zeros(lo: nat, n: nat): (z: Memory)
    ensures forall a: nat :: a in z <==> lo <= a < lo + n
    ensures forall a: nat | a in z :: z[a] == 0
  {
    if n == 0 then map[] else Zeros(lo, n - 1)[lo + n - 1 := 0]
  }
}
