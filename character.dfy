/**
 * The character roster, the charge meter and the five skills of
 * character.py. Two skills overwrite cells of the grid in place, the other
 * three change fields of the game manager.
 */
module Characters {
  import opened Game

  datatype Character = Character(name: string, skill: string, shape: string, color: (int, int, int))

  const Roster: seq<Character> := [
    Character("Homura", "Time Slow", "diamond", (150, 0, 220)),
    Character("Madoka", "Full Screen Purify", "circle", (200, 50, 70)),
    Character("Mami", "Long-range Attack", "flower", (230, 160, 10)),
    Character("Sayaka", "Self Heal", "square", (60, 140, 255)),
    Character("Kyouko", "Fast Dash", "triangle", (230, 10, 10))
  ]

  /** Rows cleared by Madoka, and by Mami, counted from the offset. */
  const PurifyRows := 6
  const LanceRows := 10

  /** The full charge meter: a skill fires only at this charge. */
  const MaxCharge := 100

  const BlankRow: seq<char> := [Empty, Empty, Empty, Empty, Empty]

  /** The grid after Madoka's skill: every row in [offset, min(|rows|, offset + 6)) is blank. */
  function Purified(rows: seq<seq<char>>, offset: int): seq<seq<char>>
  {
    seq(|rows|, i requires 0 <= i < |rows| =>
      if offset <= i < offset + PurifyRows then BlankRow else rows[i])
  }

  /** The grid after Mami's skill: column `col` is empty in rows [offset, min(|rows|, offset + 10)). */
  function Lanced(rows: seq<seq<char>>, offset: int, col: int): seq<seq<char>>
    requires Rectangular(rows) && 0 <= col < Width
  {
    seq(|rows|, i requires 0 <= i < |rows| =>
      if offset <= i < offset + LanceRows then rows[i][col := Empty] else rows[i])
  }

  /**
   * Madoka's skill keeps the map well formed and clears the player's row for
   * every offset whose player row lies in the purified window: no lane can
   * collide there.
   */
  lemma PurifyClearsPath(rows: seq<seq<char>>, offset: int, o: int, col: int)
    requires WellFormed(rows)
    requires offset <= o + 4 < offset + PurifyRows
    ensures WellFormed(Purified(rows, offset))
    ensures !CheckCollision(Purified(rows, offset), o, col)
  {
  }

  /**
   * Mami's skill keeps the map well formed and clears the lane `col` for
   * every offset whose player row lies in the ten-row window; other lanes
   * keep their cells.
   */
  lemma LanceClearsLane(rows: seq<seq<char>>, offset: int, o: int, col: int, other: int)
    requires WellFormed(rows) && 0 <= col < Width
    requires offset <= o + 4 < offset + LanceRows
    ensures WellFormed(Lanced(rows, offset, col))
    ensures !CheckCollision(Lanced(rows, offset, col), o, col)
    ensures other != col ==> CheckCollision(Lanced(rows, offset, col), o, other) == CheckCollision(rows, o, other)
  {
  }

  /** Character selection wraps around the roster in both directions. */
  function NextIndex(i: int): (j: int)
    ensures 0 <= j < |Roster|
  {
    (i + 1) % |Roster|
  }

  function PrevIndex(i: int): (j: int)
    ensures 0 <= j < |Roster|
  {
    (i - 1) % |Roster|
  }

  lemma PrevUndoesNext(i: int)
    requires 0 <= i < |Roster|
    ensures PrevIndex(NextIndex(i)) == i && NextIndex(PrevIndex(i)) == i
  {
  }

  function Min(a: int, b: int): int {
    if a <= b then a else b
  }

  class CharacterManager {
    var index: int
    var charge: int
    const maxCharge: int

    ghost predicate Valid()
      reads this
    {
      0 <= index < |Roster| && charge <= maxCharge == MaxCharge
    }

    constructor ()
      ensures Valid() && index == 0 && charge == 0
    {
      index := 0;
      charge := 0;
      maxCharge := MaxCharge;
    }

    function Current(): (c: Character)
      requires Valid()
      reads this
      ensures c in Roster
    {
      Roster[index]
    }

    method Next()
      modifies this`index
      ensures index == NextIndex(old(index))
    {
      index := (index + 1) % |Roster|;
    }

    method Prev()
      modifies this`index
      ensures index == PrevIndex(old(index))
    {
      index := (index - 1) % |Roster|;
    }

    /** The meter fills by `amount` and saturates at `maxCharge`. */
    method AddCharge(amount: int)
      modifies this`charge
      ensures charge == Min(maxCharge, old(charge) + amount)
      ensures charge <= maxCharge
    {
      charge := Min(maxCharge, charge + amount);
    }

    /**
     * Fires the selected character's skill when the meter is full. Below a
     * full meter nothing changes; otherwise the meter is emptied and exactly
     * the skill chosen by `index` is applied.
     */
    method TryUseSkill(gm: GameManager, grid: Grid, offset: int, playerCol: int)
      requires Rectangular(grid.rows)
      requires index == 1 || index == 2 ==> 0 <= offset
      requires index == 2 ==> 0 <= playerCol < Width
      modifies this`charge, gm, grid
      ensures index == old(index)
      ensures old(charge) < maxCharge ==> charge == old(charge) && unchanged(gm) && unchanged(grid)
      ensures old(charge) >= maxCharge ==> charge == 0
      ensures old(charge) >= maxCharge ==>
        gm.currentDiffIdx == old(gm.currentDiffIdx) &&
        gm.stepTime == (if index == 0 then 4.0 else old(gm.stepTime)) &&
        gm.score == (if index == 3 then old(gm.score) + 200 else old(gm.score)) &&
        gm.offset == (if index == 4 then old(gm.offset) - 3 else old(gm.offset)) &&
        grid.rows == (if index == 1 then Purified(old(grid.rows), offset)
                      else if index == 2 then Lanced(old(grid.rows), offset, playerCol)
                      else old(grid.rows))
    {
      if charge < maxCharge {
        return;
      }
      charge := 0;
      if index == 0 {
        SkillHomura(gm);
      } else if index == 1 {
        SkillMadoka(grid, offset);
      } else if index == 2 {
        SkillMami(grid, offset, playerCol);
      } else if index == 3 {
        SkillSayaka(gm);
      } else if index == 4 {
        SkillKyoko(gm);
      }
    }

    /** Madoka: blanks every cell of the rows offset .. offset + 5 that exist. */
    method SkillMadoka(grid: Grid, offset: int)
      requires Rectangular(grid.rows) && 0 <= offset
      modifies grid
      ensures grid.rows == Purified(old(grid.rows), offset)
    {
      var upTo := Min(|grid.rows|, offset + PurifyRows);
      var r := offset;
      while r < upTo
        invariant |grid.rows| == |old(grid.rows)| && Rectangular(grid.rows)
        invariant offset <= r && (offset <= upTo ==> r <= upTo)
        invariant forall i :: 0 <= i < |grid.rows| ==>
          grid.rows[i] == if offset <= i < r then BlankRow else old(grid.rows[i])
      {
        ghost var before := grid.rows;
        var c := 0;
        while c < Width
          invariant 0 <= c <= Width
          invariant |grid.rows| == |before| && |grid.rows[r]| == Width
          invariant forall j :: 0 <= j < Width ==> grid.rows[r][j] == if j < c then Empty else before[r][j]
          invariant forall i :: 0 <= i < |grid.rows| && i != r ==> grid.rows[i] == before[i]
        {
          grid.rows := grid.rows[r := grid.rows[r][c := Empty]];
          c := c + 1;
        }
        assert grid.rows[r] == BlankRow;
        r := r + 1;
      }
    }

    /** Homura: the step time becomes 4 seconds for the rest of the level. */
    method SkillHomura(gm: GameManager)
      modifies gm`stepTime
      ensures gm.stepTime == 4.0
    {
      gm.SetStepTime(4.0);
    }

    /** Sayaka: 200 points. */
    method SkillSayaka(gm: GameManager)
      modifies gm`score
      ensures gm.score == old(gm.score) + 200
    {
      gm.UpdateScore(200);
    }

    /** Mami: empties lane `playerCol` in the rows offset .. offset + 9 that exist. */
    method SkillMami(grid: Grid, offset: int, playerCol: int)
      requires Rectangular(grid.rows) && 0 <= offset && 0 <= playerCol < Width
      modifies grid
      ensures grid.rows == Lanced(old(grid.rows), offset, playerCol)
    {
      var upTo := Min(|grid.rows|, offset + LanceRows);
      var r := offset;
      while r < upTo
        invariant |grid.rows| == |old(grid.rows)| && Rectangular(grid.rows)
        invariant offset <= r && (offset <= upTo ==> r <= upTo)
        invariant forall i :: 0 <= i < |grid.rows| ==>
          grid.rows[i] == if offset <= i < r then old(grid.rows[i])[playerCol := Empty] else old(grid.rows[i])
      {
        grid.rows := grid.rows[r := grid.rows[r][playerCol := Empty]];
        r := r + 1;
      }
    }

    /** Kyouko: a dash of three rows; the offset is not clamped at 0. */
    method SkillKyoko(gm: GameManager)
      modifies gm`offset
      ensures gm.offset == old(gm.offset) - 3
    {
      gm.UpdateOffset(3);
    }
  }
}
