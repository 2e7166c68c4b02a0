/** Types and constants shared by every component. */
module Common {
  datatype Option<+T> = None | Some(value: T)

  const MAX_U64: nat := 0xFFFF_FFFF_FFFF_FFFF
  const MAX_I64: nat := 0x7FFF_FFFF_FFFF_FFFF

  /** An opaque string, such as a UUID or a path made from one: only its identity and
      whether it is empty matter. */
  datatype Name = Empty | Name(uuid: nat)
  type Id = Name
  type Path = Name
  /** A point on the database clock. */
  type Time = int

  function Min(a: int, b: int): int { if a <= b then a else b }
  function Max(a: int, b: int): int { if a <= b then b else a }
}
