/** The Redis retry counter, keyed by SQS message id, with `INCR` semantics. */
module RetryCounter {

  type Counters = map<string, int>

  /** Redis integers are signed 64-bit; `INCR` past this value is an error. */
  const MaxCounter: int := 0x7FFF_FFFF_FFFF_FFFF

  datatype Incremented = Incremented(value: int, counters: Counters) | IncrFailed

  /** The stored value; a missing key counts as 0. */
  function Current(c: Counters, key: string): int {
    if key in c then c[key] else 0
  }

  /** `INCR key`: one more than the stored value, stored back; other keys are untouched. */
  function Incr(c: Counters, key: string): (r: Incremented)
    ensures r.Incremented? <==> Current(c, key) < MaxCounter
    ensures r.Incremented? ==> r.value == Current(c, key) + 1 && Current(r.counters, key) == r.value
    ensures r.Incremented? ==> r.counters.Keys == c.Keys + {key}
    ensures r.Incremented? ==> forall k | k in c && k != key :: r.counters[k] == c[k]
  {
    var v := Current(c, key);
    if v < MaxCounter then Incremented(v + 1, c[key := v + 1]) else IncrFailed
  }

  /** The first increment of a fresh key returns 1. */
  lemma FreshKeyCountsOne(c: Counters, key: string)
    requires key !in c
    ensures Incr(c, key) == Incremented(1, c[key := 1])
  {
  }

  /** Each later increment returns a strictly larger value than the one before. */
  lemma IncrStrictlyIncreases(c: Counters, key: string)
    requires Incr(c, key).Incremented?
    ensures var c1 := Incr(c, key).counters;
      Incr(c1, key).Incremented? ==> Incr(c1, key).value > Incr(c, key).value
  {
  }

  /** `n` successive increments of one key. */
  function IncrTimes(c: Counters, key: string, n: nat): Incremented {
    if n == 0 then Incremented(Current(c, key), c)
    else
      match IncrTimes(c, key, n - 1)
      case IncrFailed => IncrFailed
      case Incremented(_, c1) => Incr(c1, key)
  }

  /** Starting from a fresh key, the n-th delivery of a message reads n: no
      increment is lost or doubled. */
  lemma {:induction false} IncrTimesCounts(c: Counters, key: string, n: nat)
    requires key !in c
    requires n <= MaxCounter
    ensures IncrTimes(c, key, n).Incremented?
    ensures IncrTimes(c, key, n).value == n
    ensures Current(IncrTimes(c, key, n).counters, key) == n
  {
    if n > 0 {
      IncrTimesCounts(c, key, n - 1);
    }
  }
}
