/**
 * Progression policy of the sequence memory game: how the level and the
 * chosen difficulty decide the grid side, the palette of tiles and the
 * reveal timing. Everything here is a pure function of (level, difficulty).
 */
module Progression {

  /** The difficulty state; Unset is the empty string the game starts with. */
  datatype Difficulty = Unset | Easy | Medium | Hard | Hardest

  /** The string the game keeps for each difficulty. */
  function Name(d: Difficulty): string
  {
    match d
    case Unset => ""
    case Easy => "easy"
    case Medium => "medium"
    case Hard => "hard"
    case Hardest => "hardest"
  }

  /** Position of a selectable difficulty from easiest (0) to hardest (3). */
  function Rank(d: Difficulty): nat
    requires d != Unset
  {
    match d
    case Easy => 0
    case Medium => 1
    case Hard => 2
    case Hardest => 3
  }

  // ---------------------------------------------------------------------
  // Grid side
  // ---------------------------------------------------------------------

  /** Side of the square grid shown at `level` for difficulty `d`. */
  function GridLevel(level: nat, d: Difficulty): (g: nat)
    ensures 2 <= g <= 5
    ensures g == 5 ==> d != Unset && level > 10
  {
    if d == Hardest && level > 10 then 5
    else if d == Hard && level > 15 then 5
    else if (d == Medium || d == Easy) && level > 17 then 5
    else if level > 7 then 4
    else if level > 3 then 3
    else 2
  }

  /** First level that shows the 5x5 grid for a selectable difficulty. */
  function FirstFiveByFive(d: Difficulty): (l: nat)
    requires d != Unset
    ensures 11 <= l <= 18
  {
    match d
    case Hardest => 11
    case Hard => 16
    case Medium => 18
    case Easy => 18
  }

  /** The grid bands: 2x2 up to level 3, 3x3 for 4..7, 4x4 from 8 until the
      difficulty's 5x5 level, 5x5 from then on; no 5x5 without a difficulty. */
  lemma GridBands(level: nat, d: Difficulty)
    ensures level <= 3 ==> GridLevel(level, d) == 2
    ensures 4 <= level <= 7 ==> GridLevel(level, d) == 3
    ensures 8 <= level && (d == Unset || level < FirstFiveByFive(d)) ==> GridLevel(level, d) == 4
    ensures d != Unset && level >= FirstFiveByFive(d) ==> GridLevel(level, d) == 5
  {
  }

  /** For a fixed difficulty the grid never shrinks as the level rises. */
  lemma GridMonotone(l1: nat, l2: nat, d: Difficulty)
    requires l1 <= l2
    ensures GridLevel(l1, d) <= GridLevel(l2, d)
  {
  }

  /** At any level a harder difficulty shows a grid at least as large, so it
      never unlocks 5x5 later than an easier one. */
  lemma HarderGridNotSmaller(level: nat, easier: Difficulty, harder: Difficulty)
    requires easier != Unset && harder != Unset
    requires Rank(easier) <= Rank(harder)
    ensures GridLevel(level, easier) <= GridLevel(level, harder)
    ensures FirstFiveByFive(harder) <= FirstFiveByFive(easier)
  {
  }

  /** Without a difficulty the grid is never larger than with any difficulty. */
  lemma UnsetGridSmallest(level: nat, d: Difficulty)
    ensures GridLevel(level, Unset) <= GridLevel(level, d)
    ensures GridLevel(level, Unset) <= 4
  {
  }

  /** The grid grows from `level` to `level + 1` exactly at the three
      announced upgrades: to 3x3 at 4, to 4x4 at 8, to 5x5 at the
      difficulty's threshold. */
  lemma UpgradeLevels(level: nat, d: Difficulty)
    ensures GridLevel(level + 1, d) > GridLevel(level, d) <==>
      (level + 1 == 4 || level + 1 == 8 || (d != Unset && level + 1 == FirstFiveByFive(d)))
  {
  }

  // ---------------------------------------------------------------------
  // Palettes
  // ---------------------------------------------------------------------

  // Tile ids of the four palettes; names and colour codes are display only.
  const Colors2x2: seq<nat> := [0, 1, 2, 3]
  const Colors3x3: seq<nat> := [0, 1, 2, 3, 4, 5, 6, 7, 8]
  const Colors4x4: seq<nat> := [0, 1, 2, 3, 4, 5, 6, 7, 8, 9, 10, 11, 12, 13, 14, 15]
  const Colors5x5: seq<nat> :=
    [0, 1, 2, 3, 4, 5, 6, 7, 8, 9, 10, 11, 12, 13, 14, 15, 16, 17, 18, 19, 20, 21, 22, 23, 24]

  /** The palette rendered for grid side `g`; any other side falls back to 2x2. */
  function Palette(g: nat): (tiles: seq<nat>)
    ensures 2 <= g <= 5 ==> |tiles| == g * g
    ensures !(3 <= g <= 5) ==> |tiles| == 4
    ensures forall i :: 0 <= i < |tiles| ==> tiles[i] == i
  {
    if g == 5 then Colors5x5
    else if g == 4 then Colors4x4
    else if g == 3 then Colors3x3
    else Colors2x2
  }

  /** The number of ids a new sequence draws from, chosen from the new grid side. */
  function MaxColors(g: nat): (n: nat)
    ensures 4 <= n <= 25
  {
    if g == 5 then 25 else if g == 4 then 16 else if g == 3 then 9 else 4
  }

  /** The draw bound agrees with the palette on screen for every grid side,
      so every drawn id names a rendered tile. */
  lemma MaxColorsIsPaletteSize(g: nat)
    ensures MaxColors(g) == |Palette(g)|
    ensures forall id :: 0 <= id < MaxColors(g) ==> Palette(g)[id] == id
  {
  }

  /** Level 1 draws from the four tiles of the 2x2 grid, whatever the difficulty. */
  lemma FirstLevelDrawsFromFour(d: Difficulty)
    ensures MaxColors(GridLevel(1, d)) == 4
    ensures GridLevel(1, d) == 2
  {
  }

  // ---------------------------------------------------------------------
  // Reveal timing
  // ---------------------------------------------------------------------

  /** Reveal durations in milliseconds. `doubleBefore` is twice the pause
      before each tile lights (the source halves the speed, which can leave
      half a millisecond); `active` is how long the tile stays lit. */
  datatype Timing = Timing(doubleBefore: nat, active: nat)

  /** Lowest speed the slow tiers can reach. */
  const SpeedFloor: int := 125

  /** Lit duration for the slow tiers: the base speed up to level 10, then
      50 ms faster at once and 50 ms more every five levels, but never
      under the floor. */
  function CalculateSpeed(base: int, level: nat): (speed: int)
    ensures level <= 10 ==> speed == base
    ensures level > 10 ==> speed >= SpeedFloor
    ensures level > 10 ==> speed <= base - 50 || speed == SpeedFloor
    ensures base >= SpeedFloor ==> speed <= base
  {
    if level <= 10 then base
    else
      var reductions := (level - 10) / 5 + 1;
      var reduced := base - reductions * 50;
      if reduced > SpeedFloor then reduced else SpeedFloor
  }

  /** Past level 10 every five more levels take another 50 ms off, floored. */
  lemma SpeedDropsEveryFiveLevels(base: int, level: nat)
    requires level > 10
    ensures CalculateSpeed(base, level + 5) ==
      if CalculateSpeed(base, level) - 50 > SpeedFloor then CalculateSpeed(base, level) - 50
      else SpeedFloor
  {
  }

  /** The first drop comes at level 11 and lasts through level 14. */
  lemma SpeedFirstDrop(base: int, level: nat)
    requires 11 <= level <= 14
    ensures CalculateSpeed(base, level) == if base - 50 > SpeedFloor then base - 50 else SpeedFloor
  {
  }

  /** The second drop comes at level 15 and lasts through level 19. */
  lemma SpeedSecondDrop(base: int, level: nat)
    requires 15 <= level <= 19
    ensures CalculateSpeed(base, level) == if base - 100 > SpeedFloor then base - 100 else SpeedFloor
  {
  }

  /** With a base at or above the floor the speed never rises with the level. */
  lemma SpeedNonIncreasing(base: int, l1: nat, l2: nat)
    requires base >= SpeedFloor
    requires l1 <= l2
    ensures CalculateSpeed(base, l2) <= CalculateSpeed(base, l1)
  {
    if l1 > 10 {
      assert (l1 - 10) / 5 <= (l2 - 10) / 5;
    }
  }

  /** Reveal timing for a level: easy and medium slow down from 400 and 250 ms
      with CalculateSpeed, hard is fixed at 100 ms, and hardest, or no
      difficulty at all, at 75 ms with a 37 ms pause. */
  function RevealTiming(level: nat, d: Difficulty): (t: Timing)
    ensures t.active <= 400
    ensures d != Unset && d != Hardest ==> t.doubleBefore == t.active
    ensures d == Unset || d == Hardest ==> t == Timing(74, 75)
    ensures d == Hard ==> t.active == 100
    ensures d == Easy ==> t.active == CalculateSpeed(400, level)
    ensures d == Medium ==> t.active == CalculateSpeed(250, level)
  {
    match d
    case Easy =>
      var speed := CalculateSpeed(400, level);
      Timing(speed, speed)
    case Medium =>
      var speed := CalculateSpeed(250, level);
      Timing(speed, speed)
    case Hard => Timing(100, 100)
    case Hardest => Timing(74, 75)
    case Unset => Timing(74, 75)
  }

  /** The lit duration of each difficulty stays in its band at every level. */
  lemma TimingBands(level: nat)
    ensures SpeedFloor <= RevealTiming(level, Easy).active <= 400
    ensures SpeedFloor <= RevealTiming(level, Medium).active <= 250
    ensures level <= 10 ==> RevealTiming(level, Easy).active == 400
    ensures level <= 10 ==> RevealTiming(level, Medium).active == 250
    ensures RevealTiming(level, Hard) == Timing(100, 100)
  {
  }

  /** At a fixed level a harder difficulty never lights tiles longer. */
  lemma HarderIsFaster(level: nat, easier: Difficulty, harder: Difficulty)
    requires easier != Unset && harder != Unset
    requires Rank(easier) <= Rank(harder)
    ensures RevealTiming(level, harder).active <= RevealTiming(level, easier).active
  {
    if level > 10 {
      assert CalculateSpeed(250, level) <= CalculateSpeed(400, level);
    }
  }

  /** For a fixed difficulty the reveal never slows down as the level rises. */
  lemma TimingNonIncreasing(l1: nat, l2: nat, d: Difficulty)
    requires l1 <= l2
    ensures RevealTiming(l2, d).active <= RevealTiming(l1, d).active
    ensures RevealTiming(l2, d).doubleBefore <= RevealTiming(l1, d).doubleBefore
  {
    SpeedNonIncreasing(400, l1, l2);
    SpeedNonIncreasing(250, l1, l2);
  }
}
