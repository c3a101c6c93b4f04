/** Shared vocabulary: optional values, instants in whole seconds, identifiers. */
module Common {

  datatype Option<+T> = None | Some(value: T)

  /** A UTC instant, or a duration, in whole seconds. */
  type Time = int

  type UserId = nat
  type AccountId = nat
  type ChannelId = nat

  const HOUR: Time := 3600
  const DAY: Time := 86400

  function Get<K, V>(m: map<K, V>, k: K): Option<V> {
    if k in m then Some(m[k]) else None
  }

  function MaxTime(a: Option<Time>, b: Time): Time {
    if a.None? || b > a.value then b else a.value
  }

  function Pow2(n: nat): (r: nat)
    ensures 1 <= r
  {
    if n == 0 then 1 else 2 * Pow2(n - 1)
  }

  lemma {:induction false} Pow2Monotone(m: nat, n: nat)
    requires m <= n
    ensures Pow2(m) <= Pow2(n)
    decreases n
  {
    if m < n {
      Pow2Monotone(m, n - 1);
    }
  }

  ghost predicate Distinct<T>(s: seq<T>) {
    forall i, j :: 0 <= i < j < |s| ==> s[i] != s[j]
  }

  function Elements<T>(s: seq<T>): set<T> {
    set x | x in s
  }
}
