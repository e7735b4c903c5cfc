/**
 * The pure parts of the reaction test: the points a round earns for its
 * reaction time, and the name submitted when the player typed none.
 */
module Scoring {

  /** Number of rounds in one game. */
  const RoundsPerGame: int := 5
  /** Points for an instant reaction. */
  const MaxPoints: int := 100
  /** Milliseconds of reaction time that cost one point. */
  const MsPerPoint: int := 10
  /** Name stored for a player who left the name field empty. */
  const Placeholder: string := "Unbekannt"

  /**
   * Swift's `Int(ms / 10)` for a whole number of milliseconds: the number
   * of tens rounded toward zero (Dafny's `/` rounds down instead).
   */
  function WholeTens(ms: int): (q: int)
    ensures 0 <= ms ==> 0 <= MsPerPoint * q <= ms < MsPerPoint * q + MsPerPoint
    ensures ms < 0 ==> MsPerPoint * q - MsPerPoint < ms <= MsPerPoint * q <= 0
  {
    if ms >= 0 then ms / MsPerPoint else -((-ms) / MsPerPoint)
  }

  /**
   * Points awarded for a reaction time of `elapsedMs` milliseconds:
   * `max(0, 100 - Int(elapsedMs / 10))`.
   */
  function Points(elapsedMs: int): (p: int)
    ensures 0 <= p
    ensures 0 <= elapsedMs ==> p <= MaxPoints
    ensures 0 <= elapsedMs < MsPerPoint ==> p == MaxPoints
    ensures MaxPoints * MsPerPoint <= elapsedMs ==> p == 0
  {
    var q := WholeTens(elapsedMs);
    if MaxPoints - q < 0 then 0 else MaxPoints - q
  }

  /**
   * For a non-negative reaction time the points are 100 minus the number
   * of whole tens of milliseconds, clamped at zero: below one second a
   * score of `p` means the reaction took between `10 * (100 - p)` and
   * `10 * (100 - p) + 9` milliseconds.
   */
  lemma PointsBand(elapsedMs: nat)
    ensures elapsedMs < MaxPoints * MsPerPoint ==>
      0 < Points(elapsedMs) &&
      MsPerPoint * (MaxPoints - Points(elapsedMs)) <= elapsedMs < MsPerPoint * (MaxPoints - Points(elapsedMs)) + MsPerPoint
    ensures Points(elapsedMs) == if elapsedMs / MsPerPoint > MaxPoints then 0 else MaxPoints - elapsedMs / MsPerPoint
  {
  }

  /** A slower reaction never earns more points. */
  lemma PointsAntitone(fast: nat, slow: nat)
    requires fast <= slow
    ensures Points(slow) <= Points(fast)
  {
  }

  /** The name handed to the score store: the typed name, or the placeholder if it is empty. */
  function DefaultName(playerName: string): (name: string)
    ensures name != []
    ensures playerName != [] ==> name == playerName
    ensures playerName == [] ==> name == Placeholder
  {
    if playerName == [] then Placeholder else playerName
  }
}
