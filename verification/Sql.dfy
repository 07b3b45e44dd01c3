/** SQL values and three-valued logic, as PostgreSQL evaluates WHERE and CHECK. */
module Sql {

  datatype Option<+T> = None | Some(value: T)

  datatype Result<+T, +E> = Ok(value: T) | Err(error: E)

  /** UUIDs compare as 128-bit unsigned integers. */
  type Uuid = nat

  /** Instants; only their order and differences in seconds matter. */
  type Time = int

  datatype Bool3 = True3 | False3 | Null3

  function And(a: Bool3, b: Bool3): Bool3 {
    if a == False3 || b == False3 then False3
    else if a == True3 && b == True3 then True3
    else Null3
  }

  function Or(a: Bool3, b: Bool3): Bool3 {
    if a == True3 || b == True3 then True3
    else if a == False3 && b == False3 then False3
    else Null3
  }

  function Lift(b: bool): Bool3 {
    if b then True3 else False3
  }

  function IsNull<T>(a: Option<T>): Bool3 {
    Lift(a.None?)
  }

  function NotNull<T>(a: Option<T>): Bool3 {
    Lift(a.Some?)
  }

  /** `a = b` with a possibly NULL left side. */
  function Eq<T(==)>(a: Option<T>, b: T): Bool3 {
    if a.None? then Null3 else Lift(a.value == b)
  }

  /** `a <> b` with a possibly NULL left side. */
  function Neq<T(==)>(a: Option<T>, b: T): Bool3 {
    if a.None? then Null3 else Lift(a.value != b)
  }

  /** `a < b` between possibly NULL instants. */
  function Earlier(a: Option<Time>, b: Option<Time>): Bool3 {
    if a.None? || b.None? then Null3 else Lift(a.value < b.value)
  }

  /** A WHERE clause selects a row only when it evaluates to TRUE. */
  predicate Selects(b: Bool3) {
    b == True3
  }

  /** A CHECK constraint refuses a row only when it evaluates to FALSE. */
  predicate Passes(b: Bool3) {
    b != False3
  }

  /** IS DISTINCT FROM: a comparison that is never NULL, for which two NULLs are alike. */
  function IsDistinct<T(==)>(a: Option<T>, b: Option<T>): bool {
    if a.None? || b.None? then a.Some? || b.Some? else a.value != b.value
  }

  /** A comparison with NULL is NULL, and neither selects a row nor refuses one. */
  lemma NullComparisons<T>(b: T, t: Option<Time>)
    ensures Eq(None, b) == Null3 && Neq(None, b) == Null3
    ensures Earlier(None, t) == Null3 && Earlier(t, None) == Null3
    ensures !Selects(Null3) && Passes(Null3)
  {}
}
