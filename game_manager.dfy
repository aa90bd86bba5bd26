/**
 * The obstacle field and the game manager of game_manager.py: difficulty
 * selection, map generation from a random source, the scroll offset, the
 * score, the step time and the collision test.
 */
module Game {

  /** Number of lanes (cells per row). */
  const Width := 5
  const Obstacle := 'X'
  const Empty := ' '

  predicate IsCell(ch: char) {
    ch == Obstacle || ch == Empty
  }

  /** Every row has exactly `Width` cells. */
  predicate Rectangular(rows: seq<seq<char>>) {
    forall r :: 0 <= r < |rows| ==> |rows[r]| == Width
  }

  predicate WellFormedRow(row: seq<char>) {
    |row| == Width && forall c :: 0 <= c < Width ==> IsCell(row[c])
  }

  /** Every row has `Width` cells and every cell is an obstacle or empty. */
  predicate WellFormed(rows: seq<seq<char>>) {
    forall r :: 0 <= r < |rows| ==> WellFormedRow(rows[r])
  }

  predicate AllObstacle(row: seq<char>) {
    forall c :: 0 <= c < |row| ==> row[c] == Obstacle
  }

  /**
   * The obstacle field of one level. It is shared by the game loop and the
   * skills, which overwrite single cells in place.
   */
  class Grid {
    var rows: seq<seq<char>>

    constructor (rows: seq<seq<char>>)
      ensures this.rows == rows
    {
      this.rows := rows;
    }
  }

  datatype Difficulty = Difficulty(name: string, speed: string, density: string)

  const Difficulties: seq<Difficulty> := [
    Difficulty("Easy", "Slow", "+--"),
    Difficulty("Medium", "Medium", "++-"),
    Difficulty("Hard", "Fast", "+++")
  ]

  /**
   * The two kinds of Python value that map generation compares with `==`:
   * a string literal and a difficulty dictionary. Values of different kinds
   * are never equal.
   */
  datatype PyValue = PyStr(s: string) | PyDict(d: Difficulty)

  /** Row count, obstacle probability and step time of a generated map. */
  datatype Profile = Profile(rows: int, prob: real, stepTime: real)

  /**
   * The branch of map generation that a difficulty selects. The difficulty
   * dictionary is compared with the strings "easy" and "medium", which it
   * can never equal, so every difficulty gets the last branch.
   */
  function SelectProfile(d: Difficulty): (p: Profile)
    ensures p == Profile(40, 0.3, 1.5)
  {
    if PyDict(d) == PyStr("easy") then Profile(20, 0.1, 2.5)
    else if PyDict(d) == PyStr("medium") then Profile(30, 0.15, 2.0)
    else Profile(40, 0.3, 1.5)
  }

  /** The cells drawn for one row before the repair: obstacle iff the draw is below `prob`. */
  function RawRow(cellDraws: seq<real>, prob: real): seq<char>
    requires |cellDraws| == Width
  {
    seq(Width, c requires 0 <= c < Width => if cellDraws[c] < prob then Obstacle else Empty)
  }

  /**
   * One generated row: the raw row, with the cell `pick` emptied when every
   * cell came out an obstacle.
   */
  function GenRow(cellDraws: seq<real>, pick: int, prob: real): (row: seq<char>)
    requires |cellDraws| == Width && 0 <= pick < Width
    ensures WellFormedRow(row) && !AllObstacle(row)
    ensures forall c :: 0 <= c < Width && c != pick ==> (row[c] == Obstacle <==> cellDraws[c] < prob)
    ensures row[pick] == Obstacle <==>
              cellDraws[pick] < prob && !(forall c :: 0 <= c < Width ==> cellDraws[c] < prob)
  {
    var raw := RawRow(cellDraws, prob);
    if AllObstacle(raw) then
      var repaired := raw[pick := Empty];
      assert repaired[pick] != Obstacle;
      repaired
    else raw
  }

  /** The five draws that decide the cells of row `r`. */
  function RowDraws(draws: seq<real>, r: nat): seq<real>
    requires Width * r + Width <= |draws|
  {
    draws[Width * r .. Width * r + Width]
  }

  predicate PicksInRange(picks: seq<int>) {
    forall i :: 0 <= i < |picks| ==> 0 <= picks[i] < Width
  }

  /** The map of `rows` rows that the draws and the repair picks produce. */
  function BuildGrid(rows: nat, prob: real, draws: seq<real>, picks: seq<int>): (g: seq<seq<char>>)
    requires Width * rows <= |draws| && rows <= |picks| && PicksInRange(picks)
    ensures |g| == rows && WellFormed(g)
    ensures forall r :: 0 <= r < rows ==> !AllObstacle(g[r])
  {
    seq(rows, r requires 0 <= r < rows => GenRow(RowDraws(draws, r), picks[r], prob))
  }

  /**
   * The collision test: the player sits on the last visible row,
   * `offset + 4`. A row outside the map or a lane outside [0, 4] never
   * collides; otherwise the player collides iff that cell is an obstacle.
   */
  function CheckCollision(grid: seq<seq<char>>, offset: int, playerCol: int): (hit: bool)
    requires Rectangular(grid)
    ensures !(0 <= offset + 4 < |grid|) ==> !hit
    ensures !(0 <= playerCol < Width) ==> !hit
    ensures hit <==> 0 <= offset + 4 < |grid| && 0 <= playerCol < Width && grid[offset + 4][playerCol] == Obstacle
  {
    var playerRow := offset + 4;
    if playerRow < 0 || playerRow >= |grid| then false
    else if playerCol < 0 || playerCol > 4 then false
    else grid[playerRow][playerCol] == Obstacle
  }

  /** The grid after the cell (r, c) is emptied. */
  function ClearCell(grid: seq<seq<char>>, r: int, c: int): seq<seq<char>>
    requires 0 <= r < |grid| && 0 <= c < |grid[r]|
  {
    grid[r := grid[r][c := Empty]]
  }

  /** A hit consumes its obstacle: the same cell never collides twice. */
  lemma HitConsumesObstacle(grid: seq<seq<char>>, offset: int, playerCol: int)
    requires Rectangular(grid) && CheckCollision(grid, offset, playerCol)
    ensures Rectangular(ClearCell(grid, offset + 4, playerCol))
    ensures !CheckCollision(ClearCell(grid, offset + 4, playerCol), offset, playerCol)
    ensures WellFormed(grid) ==> WellFormed(ClearCell(grid, offset + 4, playerCol))
  {
  }

  /** The difficulty index after a turn of `delta` detents; Python's `%` agrees with Dafny's for a positive modulus. */
  function NextDifficultyIndex(i: int, delta: int): (j: int)
    ensures 0 <= j < |Difficulties|
    ensures (j - i - delta) % |Difficulties| == 0
  {
    (i + delta) % |Difficulties|
  }

  /** Three single steps cycle through every difficulty back to the first. */
  lemma DifficultyCycle(i: int)
    requires 0 <= i < |Difficulties|
    ensures NextDifficultyIndex(i, 1) != i
    ensures NextDifficultyIndex(NextDifficultyIndex(NextDifficultyIndex(i, 1), 1), 1) == i
  {
  }

  class GameManager {
    var currentDiffIdx: int
    var stepTime: real
    var offset: int
    var score: int

    ghost predicate Valid()
      reads this
    {
      0 <= currentDiffIdx < |Difficulties|
    }

    constructor ()
      ensures Valid()
      ensures currentDiffIdx == 0 && stepTime == 2.5 && offset == 40 && score == 0
    {
      currentDiffIdx := 0;
      stepTime := 2.5;
      offset := 40;
      score := 0;
    }

    function CurrentDifficulty(): (d: Difficulty)
      requires Valid()
      reads this
      ensures d in Difficulties
    {
      Difficulties[currentDiffIdx]
    }

    method NextDifficulty(delta: int := 1)
      modifies this`currentDiffIdx
      ensures Valid()
      ensures currentDiffIdx == NextDifficultyIndex(old(currentDiffIdx), delta)
    {
      currentDiffIdx := (currentDiffIdx + delta) % |Difficulties|;
    }

    method SetStepTime(t: real)
      modifies this`stepTime
      ensures stepTime == t
    {
      stepTime := t;
    }

    method UpdateOffset(uo: int)
      modifies this`offset
      ensures offset == old(offset) - uo
    {
      offset := offset - uo;
    }

    method UpdateScore(s: int)
      modifies this`score
      ensures score == old(score) + s
    {
      score := score + s;
    }

    /**
     * Generates a fresh map. `draws[Width * r + c]` is the `random.random()`
     * draw for cell c of row r; `picks[r]` is the `random.randint(0, 4)` that
     * repairs row r when all of its cells came out obstacles.
     */
    method GenerateMap(draws: seq<real>, picks: seq<int>) returns (grid: Grid)
      requires Valid()
      requires Width * SelectProfile(CurrentDifficulty()).rows <= |draws|
      requires SelectProfile(CurrentDifficulty()).rows <= |picks| && PicksInRange(picks)
      modifies this`offset, this`stepTime
      ensures fresh(grid)
      ensures grid.rows == BuildGrid(40, 0.3, draws, picks)
      ensures offset == |grid.rows| == 40
      ensures stepTime == 1.5
    {
      var difficulty := Difficulties[currentDiffIdx];
      var profile := SelectProfile(difficulty);
      stepTime := profile.stepTime;
      var prob := profile.prob;
      var rows: seq<seq<char>> := [];
      var r := 0;
      while r < profile.rows
        invariant 0 <= r <= profile.rows
        invariant |rows| == r
        invariant forall i :: 0 <= i < r ==> rows[i] == GenRow(RowDraws(draws, i), picks[i], prob)
        invariant r > 0 ==> offset == r
        invariant stepTime == profile.stepTime
      {
        var row: seq<char> := [];
        var c := 0;
        while c < Width
          invariant 0 <= c <= Width
          invariant row == RawRow(RowDraws(draws, r), prob)[..c]
        {
          if draws[Width * r + c] < prob {
            row := row + [Obstacle];
          } else {
            row := row + [Empty];
          }
          c := c + 1;
        }
        if AllObstacle(row) {
          row := row[picks[r] := Empty];
        }
        rows := rows + [row];
        offset := |rows|;
        r := r + 1;
      }
      grid := new Grid(rows);
    }
  }
}
