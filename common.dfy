/** Small value types shared by every component of the quiz application. */
module Common {

  datatype Option<+T> = None | Some(value: T) {
    /** The wrapped value, or `default` when there is none (JavaScript's `x || default`
        for values that are never falsy). */
    function GetOr(default: T): T {
      match this
      case Some(v) => v
      case None => default
    }
  }

  /** The content of one local-storage key: missing, present but not parseable as JSON,
      or present with a parsed value. */
  datatype Stored<+T> = Absent | Corrupt | Present(value: T)

  /** The three difficulty tiers ("facil", "medio", "dificil"). */
  datatype Difficulty = Facil | Medio | Dificil

  /** The two game modes ("single", "multi"). */
  datatype Mode = Single | Multi

  function Min(a: int, b: int): int { if a <= b then a else b }
  function Max(a: int, b: int): int { if a >= b then a else b }
}
