/** The game's transport types, as far as the modelled code distinguishes them. */
module Transport {

  /** Game.Prefabs.TransportType. `OtherType` stands for every member the mod never
      names (taxi, post, ...), carrying the member's numeric value. */
  datatype TransportType = Bus | Tram | Subway | Train | Ship | Airplane | Ferry | OtherType(code: int)

  /** `(int)TransportType`. The numeric values come from the game's enum (Bus 0, Train 1,
      Tram 3, Ship 4, Airplane 7, Subway 8, Ferry 12); the proofs only use that the four
      values keyed in the rule-name table are distinct and lie in 0..50. */
  function Code(t: TransportType): int {
    match t
    case Bus => 0
    case Train => 1
    case Tram => 3
    case Ship => 4
    case Airplane => 7
    case Subway => 8
    case Ferry => 12
    case OtherType(c) => c
  }

  /** `TransportType.ToString()`. */
  function Name(t: TransportType): string {
    match t
    case Bus => "Bus"
    case Tram => "Tram"
    case Subway => "Subway"
    case Train => "Train"
    case Ship => "Ship"
    case Airplane => "Airplane"
    case Ferry => "Ferry"
    case OtherType(_) => "Other"
  }
}
