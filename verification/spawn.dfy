/**
 * The power-up spawn roll of a destroyed block (game.js:956-985): one
 * Math.random value r decides whether a power-up drops and of which type.
 * The per-type chances of each difficulty (game.js:126-147) are summed into
 * POWERUP_SPAWN_CHANCE (game.js:148-151, 177-179); a drop happens when r is
 * below that total, and the type is the first one whose cumulative chance
 * reaches the value the selection loop compares against.
 *
 * As written, that value is `r * (POWERUP_SPAWN_CHANCE / r)`, which is the
 * total chance itself, so the loop only stops at the last entry: every drop
 * is a Big paddle. RollAsWritten models that, and is the roll the source
 * feeds to the ball sweep; SpawnRoll compares r itself, which gives each type
 * the band of width equal to its own chance.
 */
module Spawning {
  import opened Entities

  /** The chances of one difficulty, in declaration order (game.js:126-147). */
  datatype Chances = Chances(blasters: real, small: real, big: real)

  function SpawnChances(d: Difficulty): Chances
  {
    match d
    case Easy => Chances(0.05, 0.03, 0.05)
    case Medium => Chances(0.03, 0.02, 0.03)
    case Hard => Chances(0.01, 0.02, 0.01)
    case Master => Chances(0.005, 0.01, 0.005)
  }

  /** POWERUP_SPAWN_CHANCE, the sum of the three chances in declaration order. */
  function TotalChance(c: Chances): real
  {
    c.blasters + c.small + c.big
  }

  /** `Object.entries` of one difficulty's chances: the order the loop visits. */
  function Entries(c: Chances): seq<(PowerupType, real)>
  {
    [(Blasters, c.blasters), (Small, c.small), (Big, c.big)]
  }

  /** The selection loop (game.js:967-974) from a running cumulative chance:
      the first entry whose cumulative chance reaches v, if any. */
  function Select(entries: seq<(PowerupType, real)>, cumulative: real, v: real): Option<PowerupType>
    decreases |entries|
  {
    if |entries| == 0 then None
    else if v <= cumulative + entries[0].1 then Some(entries[0].0)
    else Select(entries[1..], cumulative + entries[0].1, v)
  }

  /** The selection loop as the source runs it, stopping at the first type
      whose cumulative chance reaches v. It stands alone: the rolls above are
      stated with Select, the function this loop is proved to compute. */
  method PickType(c: Chances, v: real) returns (selected: Option<PowerupType>)
    requires 0.0 <= c.blasters && 0.0 <= c.small && 0.0 <= c.big
    ensures selected == Select(Entries(c), 0.0, v)
    ensures selected.None? <==> v > TotalChance(c)
  {
    var entries := Entries(c);
    var cumulative := 0.0;
    var i := 0;
    while i < |entries|
      invariant 0 <= i <= |entries|
      invariant cumulative == if i == 0 then 0.0 else if i == 1 then c.blasters
                              else if i == 2 then c.blasters + c.small else TotalChance(c)
      invariant v > cumulative || i == 0
      invariant Select(entries, 0.0, v) == Select(entries[i..], cumulative, v)
    {
      assert entries[i..][1..] == entries[i + 1..];
      cumulative := cumulative + entries[i].1;
      if v <= cumulative {
        return Some(entries[i].0);
      }
      i := i + 1;
    }
    return None;
  }

  /** The spawn roll as written (game.js:957-974), given Math.random's value r.
      For r = 0 the normalised value is 0 * (total / 0), which is NaN, and no
      comparison with NaN holds, so nothing is selected. */
  function RollAsWritten(d: Difficulty, r: real): Option<PowerupType>
  {
    var c := SpawnChances(d);
    var total := TotalChance(c);
    if r < total then
      if r == 0.0 then None else Select(Entries(c), 0.0, r * (total / r))
    else None
  }

  /** The spawn roll as evidently intended: r itself is compared with the
      cumulative chances. */
  function SpawnRoll(d: Difficulty, r: real): Option<PowerupType>
  {
    var c := SpawnChances(d);
    if r < TotalChance(c) then Select(Entries(c), 0.0, r) else None
  }

  /** Every difficulty gives every type a positive chance, and the total stays
      between 2% and 13%. */
  lemma ChancesPositive(d: Difficulty)
    ensures var c := SpawnChances(d);
            && 0.0 < c.blasters && 0.0 < c.small && 0.0 < c.big
            && 0.02 <= TotalChance(c) <= 0.13
  {
  }

  /** As written, a roll never yields blasters or a small paddle, and every
      positive r under the total chance yields a big paddle. On medium, for
      r = 0.01 the source drops a big paddle where blasters were meant. */
  lemma RollAsWrittenOnlyBig(d: Difficulty, r: real)
    ensures RollAsWritten(d, r) != Some(Blasters) && RollAsWritten(d, r) != Some(Small)
    ensures 0.0 < r < TotalChance(SpawnChances(d)) ==> RollAsWritten(d, r) == Some(Big)
    ensures RollAsWritten(Medium, 0.01) == Some(Big) && SpawnRoll(Medium, 0.01) == Some(Blasters)
  {
    var c := SpawnChances(d);
    var total := TotalChance(c);
    ChancesPositive(d);
    if 0.0 < r < total {
      assert r * (total / r) == total;
    }
    assert 0.01 * (TotalChance(SpawnChances(Medium)) / 0.01) == TotalChance(SpawnChances(Medium));
  }

  /** The intended roll splits [0, total) into one band per type, in
      declaration order, each as wide as that type's chance; from the total
      up nothing drops. */
  lemma SpawnRollBands(d: Difficulty, r: real)
    requires 0.0 <= r
    ensures var c := SpawnChances(d);
            && (SpawnRoll(d, r) == Some(Blasters) <==> r <= c.blasters)
            && (SpawnRoll(d, r) == Some(Small) <==> c.blasters < r <= c.blasters + c.small)
            && (SpawnRoll(d, r) == Some(Big) <==> c.blasters + c.small < r < TotalChance(c))
            && (SpawnRoll(d, r) == None <==> TotalChance(c) <= r)
  {
    ChancesPositive(d);
  }
}
