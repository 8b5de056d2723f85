/** Shared vocabulary of the four components: optional references, opaque
    handles for the objects the components only pass around, and the demand
    arithmetic of reactor.core.support.BackpressureUtils. */
module Support {

  /** A Java reference that may be null. */
  datatype Option<T> = None | Some(value: T)

  /** An exception object; only its identity matters to the components. */
  datatype Throwable = Throwable(id: nat)

  /** A reactor.fn.timer.Timer instance; only its identity matters. */
  datatype Timer = Timer(id: nat)

  /** Long.MAX_VALUE, which reactive streams use as "unbounded" demand. */
  const LONG_MAX: int := 0x7fff_ffff_ffff_ffff

  /** A non-negative Java long: a demand or a pending-request count. */
  type Demand = n: int | 0 <= n <= LONG_MAX

  function Min(a: int, b: int): (r: int)
    ensures r <= a && r <= b && (r == a || r == b)
  {
    if a <= b then a else b
  }

  /** BackpressureUtils.addOrLongMax: the sum of two demands, clamped at
      Long.MAX_VALUE instead of wrapping to a negative long. */
  function AddOrLongMax(a: Demand, b: Demand): (r: Demand)
    ensures r == Min(a + b, LONG_MAX)
    ensures a <= r && b <= r
  {
    if a + b > LONG_MAX then LONG_MAX else a + b
  }

  function Sum(ns: seq<Demand>): int
  {
    if ns == [] then 0 else ns[0] + Sum(ns[1..])
  }

  /** Adding demands one at a time with AddOrLongMax, starting from `p`,
      yields the clamped total: saturation loses nothing but the excess. */
  function AddAllOrLongMax(p: Demand, ns: seq<Demand>): Demand
    decreases |ns|
  {
    if ns == [] then p else AddAllOrLongMax(AddOrLongMax(p, ns[0]), ns[1..])
  }

  lemma {:induction false} AddAllOrLongMaxIsClampedSum(p: Demand, ns: seq<Demand>)
    ensures Sum(ns) >= 0
    ensures AddAllOrLongMax(p, ns) == Min(p + Sum(ns), LONG_MAX)
    decreases |ns|
  {
    if ns != [] {
      AddAllOrLongMaxIsClampedSum(AddOrLongMax(p, ns[0]), ns[1..]);
    }
  }
}
