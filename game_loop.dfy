/**
 * The level loop of code.py's `game_loop`: every tick the map may scroll
 * one row, the tilt sensor may move the player one lane, a shake may fire
 * the selected character's skill, and a collision costs 50 points and
 * empties the hit cell. A level is passed when the scrolled offset is
 * exactly 0; ten levels are played, and every level that ends with a
 * negative running score costs one of three hit points.
 *
 * The method `PlayLevel` follows the source statement by statement on the
 * shared objects; the function `Step` is its specification, one tick at a
 * time, and `RunLevel` folds it over a run of ticks.
 */
module GameLoop {
  import opened Wrappers
  import opened Game
  import opened Characters
  import opened Inputs
  import opened Renderer

  const Levels := 10
  const InitialHp := 3
  /** Lane of the player at the start of every level. */
  const StartCol := 2

  /** What one pass of the loop reads: the loop clock, one accelerometer sample and the sensor's own clock. */
  datatype Tick = Tick(now: real, sample: Vec3, sensorNow: real)

  /** The random draws for the map, the clock at the level's start and the ticks of the level. */
  datatype LevelInput = LevelInput(draws: seq<real>, picks: seq<int>, start: real, ticks: seq<Tick>)

  /**
   * `Running`: the level goes on. `Crashed`: `draw_map` raised an
   * IndexError. `InputExhausted`: the finite run of ticks ended first.
   */
  datatype Status = Running | Passed | Crashed | InputExhausted

  datatype GameEnd = Win | Lose | Halted

  /** Everything one tick reads and writes: the game manager's fields, the charge, the map, the loop's locals and the sensor state. */
  datatype World = World(offset: int, stepTime: real, score: int, charge: int, rows: seq<seq<char>>,
                         col: int, lastMove: real, motion: MotionState)

  predicate Playable(w: World) {
    Rectangular(w.rows) && 0 <= w.col < Width
  }

  function Max(a: int, b: int): int {
    if a >= b then a else b
  }

  /** The map scrolls when at least `stepTime` seconds passed since the last scroll. */
  predicate ScrollDue(now: real, lastMove: real, stepTime: real) {
    now - lastMove >= stepTime
  }

  /** Left, then right, each clamped to the lanes 0 .. 4. */
  function MoveLane(col: int, left: bool, right: bool): (c: int)
    ensures 0 <= col < Width ==> 0 <= c < Width
    ensures 0 <= col < Width ==> -1 <= c - col <= 1
    ensures !left && !right ==> c == col
    ensures left && !right ==> c == Max(0, col - 1)
    ensures right && !left ==> c == Min(Width - 1, col + 1)
    ensures left && right ==> c == Min(Width - 1, Max(0, col - 1) + 1)
  {
    var c1 := if left then Max(0, col - 1) else col;
    if right then Min(4, c1 + 1) else c1
  }

  /** A due scroll: one row forward, 10 points, 5 charge (capped), and the scroll clock restarts. */
  function Scroll(w: World, now: real): World
  {
    if ScrollDue(now, w.lastMove, w.stepTime) then
      w.(offset := w.offset - 1, score := w.score + 10, charge := Min(MaxCharge, w.charge + 5), lastMove := now)
    else w
  }

  /** `try_use_skill` on a world: nothing below a full meter, else the meter empties and skill `index` acts at `offset`. */
  function Skill(index: int, w: World, offset: int): (r: World)
    requires Playable(w)
    ensures Playable(r) && |r.rows| == |w.rows| && r.col == w.col
    ensures r.lastMove == w.lastMove && r.motion == w.motion
    ensures w.charge < MaxCharge ==> r == w
    ensures w.charge >= MaxCharge ==> r.charge == 0
    ensures index != 4 ==> r.offset == w.offset
    ensures index == 4 && w.charge >= MaxCharge ==> r.offset == w.offset - 3
  {
    if w.charge < MaxCharge then w
    else
      var w0 := w.(charge := 0);
      if index == 0 then w0.(stepTime := 4.0)
      else if index == 1 then w0.(rows := Purified(w.rows, offset))
      else if index == 2 then w0.(rows := Lanced(w.rows, offset, w.col))
      else if index == 3 then w0.(score := w.score + 200)
      else if index == 4 then w0.(offset := w.offset - 3)
      else w0
  }

  /** A collision at the player's cell costs 50 points and empties that cell. */
  function Collide(w: World, offset: int): (r: World)
    requires Playable(w)
    ensures Playable(r) && |r.rows| == |w.rows| && r.col == w.col && r.offset == w.offset
    ensures CheckCollision(w.rows, offset, w.col) ==>
      r.score == w.score - 50 && !CheckCollision(r.rows, offset, w.col)
    ensures CheckCollision(w.rows, offset, w.col) ==>
      r.rows == ClearCell(w.rows, offset + 4, w.col) && r.charge == w.charge && r.stepTime == w.stepTime &&
      r.lastMove == w.lastMove && r.motion == w.motion
    ensures !CheckCollision(w.rows, offset, w.col) ==> r == w
  {
    if CheckCollision(w.rows, offset, w.col) then
      HitConsumesObstacle(w.rows, offset, w.col);
      w.(score := w.score - 50, rows := ClearCell(w.rows, offset + 4, w.col))
    else w
  }

  /** The offset every test of the tick uses: the one after a due scroll. */
  function TickOffset(w: World, t: Tick): int {
    if ScrollDue(t.now, w.lastMove, w.stepTime) then w.offset - 1 else w.offset
  }

  /**
   * One pass of the level loop for the character `index` and the sensor
   * configuration `cfg`. The offset the skill, the collision test, the
   * drawing and the level-end test use is the one read after the scroll;
   * a dash changes only the game manager's offset.
   */
  function Step(index: int, cfg: MotionConfig, w: World, t: Tick): (r: (World, Status))
    requires Playable(w)
    ensures Playable(r.0) && |r.0.rows| == |w.rows|
    ensures r.1 != InputExhausted
  {
    var (w2, tilt) := Advance(cfg, w, t);
    Resolve(index, w2, TickOffset(w, t), tilt.shake)
  }

  /** The first half of a tick: the due scroll, the sensor update and the lane move. */
  function Advance(cfg: MotionConfig, w: World, t: Tick): (r: (World, Tilt))
    requires Playable(w)
    ensures Playable(r.0) && r.0.rows == w.rows && r.0.offset == TickOffset(w, t)
    ensures r.0.stepTime == w.stepTime
    ensures ScrollDue(t.now, w.lastMove, w.stepTime) ==>
      r.0.score == w.score + 10 && r.0.charge == Min(MaxCharge, w.charge + 5) && r.0.lastMove == t.now
    ensures !ScrollDue(t.now, w.lastMove, w.stepTime) ==>
      r.0.score == w.score && r.0.charge == w.charge && r.0.lastMove == w.lastMove
    ensures (r.0.motion, r.1) == MotionStep(cfg, w.motion, t.sample, t.sensorNow)
    ensures r.0.col == MoveLane(w.col, r.1.left, r.1.right)
  {
    var w1 := Scroll(w, t.now);
    var (motion, tilt) := MotionStep(cfg, w.motion, t.sample, t.sensorNow);
    (w1.(motion := motion, col := MoveLane(w.col, tilt.left, tilt.right)), tilt)
  }

  /** The second half of a tick at the scrolled `offset`: the skill on a shake, the collision, the drawing and the level-end test. */
  function Resolve(index: int, w2: World, offset: int, shake: bool): (r: (World, Status))
    requires Playable(w2)
    ensures Playable(r.0) && |r.0.rows| == |w2.rows|
    ensures r.1 != InputExhausted
  {
    var w3 := if shake then Skill(index, w2, offset) else w2;
    if shake && DrawMap(w3.rows, w3.col, offset).None? then (w3, Crashed)
    else
      var w4 := Collide(w3, offset);
      if DrawMap(w4.rows, w4.col, offset).None? then (w4, Crashed)
      else if offset == 0 then (w4, Passed)
      else (w4, Running)
  }

  /** The ticks of one level folded through `Step` until the level stops. */
  function RunLevel(index: int, cfg: MotionConfig, w: World, ticks: seq<Tick>): (r: (World, Status))
    requires Playable(w)
    ensures Playable(r.0) && |r.0.rows| == |w.rows|
    ensures r.1 != Running
    decreases |ticks|
  {
    if ticks == [] then (w, InputExhausted)
    else
      var s := Step(index, cfg, w, ticks[0]);
      if s.1 == Running then RunLevel(index, cfg, s.0, ticks[1..]) else s
  }

  /**
   * A tick passes the level exactly when its scrolled offset is 0; it
   * crashes only when that offset lies more than the map's length before
   * the first row. The game manager's offset never grows.
   */
  lemma StepOutcome(index: int, cfg: MotionConfig, w: World, t: Tick)
    requires Playable(w)
    ensures Step(index, cfg, w, t).1 == Passed <==> TickOffset(w, t) == 0
    ensures Step(index, cfg, w, t).1 == Crashed <==> TickOffset(w, t) < -|w.rows|
    ensures Step(index, cfg, w, t).0.offset <= TickOffset(w, t)
    ensures index != 4 ==> Step(index, cfg, w, t).0.offset == TickOffset(w, t)
  {
    var (w2, tilt) := Advance(cfg, w, t);
    var offset := TickOffset(w, t);
    var w3 := if tilt.shake then Skill(index, w2, offset) else w2;
    DrawMapLines(w3.rows, w3.col, offset, 0, 0);
    var w4 := Collide(w3, offset);
    DrawMapLines(w4.rows, w4.col, offset, 0, 0);
  }

  /**
   * A tick without a shake: a due scroll earns 10 points and 5 charge
   * (capped), a hit at the moved lane costs 50, and the offset is the
   * scrolled one.
   */
  lemma QuietTick(index: int, cfg: MotionConfig, w: World, t: Tick)
    requires Playable(w) && !MotionStep(cfg, w.motion, t.sample, t.sensorNow).1.shake
    ensures var due := ScrollDue(t.now, w.lastMove, w.stepTime);
      var col := Advance(cfg, w, t).0.col;
      var r := Step(index, cfg, w, t).0;
      r.score == w.score + (if due then 10 else 0) - (if CheckCollision(w.rows, TickOffset(w, t), col) then 50 else 0) &&
      r.charge == (if due then Min(MaxCharge, w.charge + 5) else w.charge) &&
      r.offset == TickOffset(w, t) && r.col == col
  {
    var (w2, tilt) := Advance(cfg, w, t);
    assert !tilt.shake;
    var c := Collide(w2, TickOffset(w, t));
  }

  /**
   * The level ends only at an offset of exactly 0: once the game manager's
   * offset is below 0 (a dash overshot it), no later tick passes the level.
   */
  lemma {:induction false} OvershootNeverPasses(index: int, cfg: MotionConfig, w: World, ticks: seq<Tick>)
    requires Playable(w) && w.offset < 0
    ensures RunLevel(index, cfg, w, ticks).1 != Passed
    decreases |ticks|
  {
    if ticks != [] {
      StepOutcome(index, cfg, w, ticks[0]);
      var s := Step(index, cfg, w, ticks[0]);
      if s.1 == Running {
        OvershootNeverPasses(index, cfg, s.0, ticks[1..]);
      }
    }
  }

  /**
   * Without the dash the offset only moves by single scrolls, so a level
   * started at a positive offset never reaches the IndexError of
   * `draw_map`, and it ends with the offset at exactly 0 when it is passed.
   */
  lemma {:induction false} NoDashNoCrash(index: int, cfg: MotionConfig, w: World, ticks: seq<Tick>)
    requires Playable(w) && index != 4 && w.offset >= 1
    ensures RunLevel(index, cfg, w, ticks).1 != Crashed
    ensures RunLevel(index, cfg, w, ticks).1 == Passed ==> RunLevel(index, cfg, w, ticks).0.offset == 0
    ensures RunLevel(index, cfg, w, ticks).1 == InputExhausted ==> RunLevel(index, cfg, w, ticks).0.offset >= 1
    decreases |ticks|
  {
    if ticks != [] {
      StepOutcome(index, cfg, w, ticks[0]);
      var s := Step(index, cfg, w, ticks[0]);
      if s.1 == Running {
        NoDashNoCrash(index, cfg, s.0, ticks[1..]);
      }
    }
  }

  /** The player stays in the lanes 0 .. 4 on every tick. */
  lemma {:induction false} LaneStaysOnBoard(index: int, cfg: MotionConfig, w: World, ticks: seq<Tick>)
    requires Playable(w)
    ensures 0 <= RunLevel(index, cfg, w, ticks).0.col < Width
    ensures WellFormed(w.rows) ==> WellFormed(RunLevel(index, cfg, w, ticks).0.rows)
    decreases |ticks|
  {
    if ticks != [] {
      StepKeepsCells(index, cfg, w, ticks[0]);
      var s := Step(index, cfg, w, ticks[0]);
      if s.1 == Running {
        LaneStaysOnBoard(index, cfg, s.0, ticks[1..]);
      }
    }
  }

  /** A tick writes only obstacle or empty cells into the map. */
  lemma StepKeepsCells(index: int, cfg: MotionConfig, w: World, t: Tick)
    requires Playable(w)
    ensures WellFormed(w.rows) ==> WellFormed(Step(index, cfg, w, t).0.rows)
  {
    if WellFormed(w.rows) {
      var (w2, tilt) := Advance(cfg, w, t);
      var offset := TickOffset(w, t);
      var w3 := if tilt.shake then Skill(index, w2, offset) else w2;
      if tilt.shake && w2.charge >= MaxCharge {
        if index == 1 {
          assert WellFormed(Purified(w2.rows, offset));
        } else if index == 2 {
          LanceClearsLane(w2.rows, offset, offset, w2.col, w2.col);
        }
      }
      assert WellFormed(w3.rows);
      if CheckCollision(w3.rows, offset, w3.col) {
        HitConsumesObstacle(w3.rows, offset, w3.col);
      }
    }
  }

  /** The state of the shared objects and of the loop's locals, as a world. */
  ghost function Snapshot(gm: GameManager, cm: CharacterManager, grid: Grid, acc: Accelerator,
                          col: int, lastMove: real): World
    reads gm, cm, grid, acc
  {
    World(gm.offset, gm.stepTime, gm.score, cm.charge, grid.rows, col, lastMove, acc.State())
  }

  /** Map size and scroll data the level's random source must supply. */
  predicate Supplies(input: LevelInput) {
    Width * 40 <= |input.draws| && 40 <= |input.picks| && PicksInRange(input.picks)
  }

  /**
   * The world a level starts in, after `generate_map`: a fresh map, the
   * player in lane 2, and the score, charge and sensor state carried over.
   */
  function LevelStart(score: int, charge: int, motion: MotionState, input: LevelInput): World
    requires Supplies(input)
  {
    World(40, 1.5, score, charge, BuildGrid(40, 0.3, input.draws, input.picks), StartCol, input.start, motion)
  }

  /** The world a level starts in, read from the shared objects. */
  function StartWorld(gm: GameManager, cm: CharacterManager, acc: Accelerator, input: LevelInput): World
    requires Supplies(input)
    reads gm, cm, acc
  {
    LevelStart(gm.score, cm.charge, acc.State(), input)
  }

  /**
   * One pass of the level loop on the shared objects; `playerCol` and
   * `lastMove` are the loop's locals. The new state and the outcome are the
   * ones `Step` gives.
   */
  method PlayTick(gm: GameManager, cm: CharacterManager, acc: Accelerator, grid: Grid,
                  playerCol: int, lastMove: real, t: Tick)
    returns (status: Status, col: int, moved: real)
    requires gm.Valid() && cm.Valid() && Rectangular(grid.rows) && 0 <= playerCol < Width
    requires cm.index != 4 ==> gm.offset >= 1
    modifies gm, cm`charge, acc, grid
    ensures gm.Valid() && cm.Valid() && gm.currentDiffIdx == old(gm.currentDiffIdx)
    ensures (Snapshot(gm, cm, grid, acc, col, moved), status) ==
            Step(cm.index, acc.Config(), old(Snapshot(gm, cm, grid, acc, playerCol, lastMove)), t)
  {
    var offset, shake;
    offset, col, moved, shake := AdvanceTick(gm, cm, acc, grid, playerCol, lastMove, t);
    status := ResolveTick(gm, cm, grid, offset, col, shake, moved, acc.State());
  }

  /** The scroll, the sensor update and the lane move of one pass; `offset` is the offset read after the scroll. */
  method AdvanceTick(gm: GameManager, cm: CharacterManager, acc: Accelerator, grid: Grid,
                     playerCol: int, lastMove: real, t: Tick)
    returns (offset: int, col: int, moved: real, shake: bool)
    requires gm.Valid() && cm.Valid() && Rectangular(grid.rows) && 0 <= playerCol < Width
    modifies gm`offset, gm`score, cm`charge, acc
    ensures gm.Valid() && cm.Valid() && offset == gm.offset
    ensures var w := old(Snapshot(gm, cm, grid, acc, playerCol, lastMove));
      offset == TickOffset(w, t) &&
      (Snapshot(gm, cm, grid, acc, col, moved), shake) == (Advance(acc.Config(), w, t).0, Advance(acc.Config(), w, t).1.shake)
  {
    ghost var w := Snapshot(gm, cm, grid, acc, playerCol, lastMove);
    col, moved := playerCol, lastMove;
    offset := gm.offset;
    if t.now - moved >= gm.stepTime {
      gm.UpdateOffset(1);
      moved := t.now;
      gm.UpdateScore(10);
      cm.AddCharge(5);
      offset := gm.offset;
    }
    assert Snapshot(gm, cm, grid, acc, col, moved) == Scroll(w, t.now);
    var left, right;
    left, right, shake := acc.Update(t.sample, t.sensorNow);
    if left {
      col := Max(0, col - 1);
    }
    if right {
      col := Min(4, col + 1);
    }
    assert col == MoveLane(playerCol, left, right);
  }

  /**
   * The skill on a shake, the collision penalty, the drawing and the
   * level-end test of one pass; `moved` and `motion` are the parts of the
   * world it leaves alone.
   */
  method ResolveTick(gm: GameManager, cm: CharacterManager, grid: Grid, offset: int, col: int, shake: bool,
                     ghost moved: real, ghost motion: MotionState)
    returns (status: Status)
    requires gm.Valid() && cm.Valid() && Rectangular(grid.rows) && 0 <= col < Width
    requires cm.index != 4 ==> offset >= 0
    modifies gm, cm`charge, grid
    ensures gm.Valid() && cm.Valid() && gm.currentDiffIdx == old(gm.currentDiffIdx)
    ensures (World(gm.offset, gm.stepTime, gm.score, cm.charge, grid.rows, col, moved, motion), status) ==
            Resolve(cm.index, old(World(gm.offset, gm.stepTime, gm.score, cm.charge, grid.rows, col, moved, motion)),
                    offset, shake)
  {
    if shake {
      SkillTick(gm, cm, grid, offset, col, moved, motion);
      var shown := DrawMap(grid.rows, col, offset);
      if shown.None? {
        return Crashed;
      }
    }
    if CheckCollision(grid.rows, offset, col) {
      gm.UpdateScore(-50);
      grid.rows := grid.rows[offset + 4 := grid.rows[offset + 4][col := Empty]];
    }
    var shown := DrawMap(grid.rows, col, offset);
    if shown.None? {
      return Crashed;
    }
    status := if offset == 0 then Passed else Running;
  }

  /** `try_use_skill` on the shared objects, as `Skill` gives it. */
  method SkillTick(gm: GameManager, cm: CharacterManager, grid: Grid, offset: int, col: int,
                   ghost moved: real, ghost motion: MotionState)
    requires gm.Valid() && cm.Valid() && Rectangular(grid.rows) && 0 <= col < Width
    requires cm.index != 4 ==> offset >= 0
    modifies gm, cm`charge, grid
    ensures gm.Valid() && cm.Valid() && gm.currentDiffIdx == old(gm.currentDiffIdx)
    ensures World(gm.offset, gm.stepTime, gm.score, cm.charge, grid.rows, col, moved, motion) ==
            Skill(cm.index, old(World(gm.offset, gm.stepTime, gm.score, cm.charge, grid.rows, col, moved, motion)), offset)
  {
    cm.TryUseSkill(gm, grid, offset, col);
  }

  /**
   * One level: the map is generated, the player starts in lane 2, and the
   * ticks are processed in order until the level is passed, `draw_map`
   * raises, or the ticks run out. The shared objects end in the state
   * `RunLevel` gives.
   */
  method PlayLevel(gm: GameManager, cm: CharacterManager, acc: Accelerator, input: LevelInput)
    returns (status: Status, grid: Grid)
    requires gm.Valid() && cm.Valid() && Supplies(input)
    modifies gm, cm`charge, acc
    ensures gm.Valid() && cm.Valid() && gm.currentDiffIdx == old(gm.currentDiffIdx)
    ensures fresh(grid)
    ensures var r := RunLevel(cm.index, acc.Config(), old(StartWorld(gm, cm, acc, input)), input.ticks);
      status == r.1 && gm.offset == r.0.offset && gm.stepTime == r.0.stepTime && gm.score == r.0.score &&
      cm.charge == r.0.charge && grid.rows == r.0.rows && acc.State() == r.0.motion
  {
    ghost var w0 := StartWorld(gm, cm, acc, input);
    ghost var index := cm.index;
    ghost var cfg := acc.Config();
    grid := gm.GenerateMap(input.draws, input.picks);
    var playerCol := StartCol;
    var lastMove := input.start;
    var ticks := input.ticks;
    var k := 0;
    assert Snapshot(gm, cm, grid, acc, playerCol, lastMove) == w0;
    while k < |ticks|
      invariant 0 <= k <= |ticks|
      invariant gm.Valid() && cm.Valid() && gm.currentDiffIdx == old(gm.currentDiffIdx)
      invariant cm.index == index && |grid.rows| == 40 && Rectangular(grid.rows)
      invariant 0 <= playerCol < Width
      invariant cm.index != 4 ==> gm.offset >= 1
      invariant RunLevel(index, cfg, Snapshot(gm, cm, grid, acc, playerCol, lastMove), ticks[k..]) ==
                RunLevel(index, cfg, w0, ticks)
    {
      ghost var w := Snapshot(gm, cm, grid, acc, playerCol, lastMove);
      assert ticks[k..][0] == ticks[k] && ticks[k..][1..] == ticks[k + 1..];
      status, playerCol, lastMove := PlayTick(gm, cm, acc, grid, playerCol, lastMove, ticks[k]);
      StepOutcome(index, cfg, w, ticks[k]);
      if status != Running {
        return;
      }
      k := k + 1;
    }
    status := InputExhausted;
  }

  /** Number of negative entries: each negative level-end score costs a hit point. */
  function CountNeg(ends: seq<int>): (n: nat)
    ensures n <= |ends|
  {
    if ends == [] then 0 else (if ends[0] < 0 then 1 else 0) + CountNeg(ends[1..])
  }

  function Sum(ends: seq<int>): int {
    if ends == [] then 0 else ends[0] + Sum(ends[1..])
  }

  lemma {:induction false} CountNegAppend(ends: seq<int>, s: int)
    ensures CountNeg(ends + [s]) == CountNeg(ends) + if s < 0 then 1 else 0
    ensures Sum(ends + [s]) == Sum(ends) + s
  {
    if ends != [] {
      assert (ends + [s])[1..] == ends[1..] + [s];
      CountNegAppend(ends[1..], s);
    }
  }

  /**
   * The levels played in order with `hp` hit points left, each from the
   * score, charge and sensor state the previous one left: the outcome and
   * the level-end scores. The game halts at the first level that stops
   * without being passed, is lost at the level end that takes the last hit
   * point, and is won when the levels run out.
   */
  function RunGame(index: int, cfg: MotionConfig, score: int, charge: int, motion: MotionState,
                   levels: seq<LevelInput>, hp: int): (GameEnd, seq<int>)
    requires forall l :: 0 <= l < |levels| ==> Supplies(levels[l])
    decreases |levels|
  {
    if levels == [] then (Win, [])
    else
      var (w, status) := RunLevel(index, cfg, LevelStart(score, charge, motion, levels[0]), levels[0].ticks);
      if status != Passed then (Halted, [])
      else
        var left := if w.score < 0 then hp - 1 else hp;
        if left == 0 then (Lose, [w.score])
        else
          var rest := RunGame(index, cfg, w.score, w.charge, w.motion, levels[1..], left);
          (rest.0, [w.score] + rest.1)
  }

  /** One level of `RunGame`, for the world `w` and status `status` the first level ends in. */
  lemma RunGameStep(index: int, cfg: MotionConfig, start: World, w: World, status: Status,
                    levels: seq<LevelInput>, hp: int)
    requires forall l :: 0 <= l < |levels| ==> Supplies(levels[l])
    requires levels != [] && start == LevelStart(start.score, start.charge, start.motion, levels[0])
    requires (w, status) == RunLevel(index, cfg, start, levels[0].ticks)
    ensures var game := RunGame(index, cfg, start.score, start.charge, start.motion, levels, hp);
      var left := if w.score < 0 then hp - 1 else hp;
      if status != Passed then game == (Halted, [])
      else if left == 0 then game == (Lose, [w.score])
      else
        var rest := RunGame(index, cfg, w.score, w.charge, w.motion, levels[1..], left);
        game == (rest.0, [w.score] + rest.1)
  {
  }

  /**
   * The hit-point bookkeeping of a game over `n` levels with `hp` points:
   * it is lost exactly when `hp` level ends are negative, the last of them
   * at the end; it is won only after every level, and halted only before
   * the last one.
   */
  predicate Bookkeeping(result: GameEnd, ends: seq<int>, hp: int, n: int) {
    |ends| <= n &&
    (result == Lose <==> CountNeg(ends) == hp) &&
    (result == Lose ==> ends != [] && ends[|ends| - 1] < 0 && CountNeg(ends[..|ends| - 1]) == hp - 1) &&
    (result == Win ==> |ends| == n && CountNeg(ends) < hp) &&
    (result == Halted ==> |ends| < n && CountNeg(ends) < hp)
  }

  /** Every game `RunGame` plays keeps the hit-point bookkeeping. */
  lemma {:induction false} RunGameOutcome(index: int, cfg: MotionConfig, score: int, charge: int,
                                          motion: MotionState, levels: seq<LevelInput>, hp: int)
    requires forall l :: 0 <= l < |levels| ==> Supplies(levels[l])
    requires hp >= 1
    ensures var game := RunGame(index, cfg, score, charge, motion, levels, hp);
      Bookkeeping(game.0, game.1, hp, |levels|)
    decreases |levels|
  {
    if levels != [] {
      var (w, status) := RunLevel(index, cfg, LevelStart(score, charge, motion, levels[0]), levels[0].ticks);
      if status == Passed {
        var left := if w.score < 0 then hp - 1 else hp;
        if left != 0 {
          var rest := RunGame(index, cfg, w.score, w.charge, w.motion, levels[1..], left);
          RunGameOutcome(index, cfg, w.score, w.charge, w.motion, levels[1..], left);
          var ends := [w.score] + rest.1;
          assert ends[1..] == rest.1;
          assert CountNeg(ends) == (if w.score < 0 then 1 else 0) + CountNeg(rest.1);
          if rest.0 == Lose {
            assert ends[..|ends| - 1] == [w.score] + rest.1[..|rest.1| - 1];
            assert ends[..|ends| - 1][1..] == rest.1[..|rest.1| - 1];
          }
        }
      }
    }
  }

  lemma AppendAssoc(a: seq<int>, x: int, b: seq<int>)
    ensures a + ([x] + b) == (a + [x]) + b
  {
  }

  /**
   * One pass of the level loop of the game: the level `input`, the first
   * of `rest`, is played from the shared objects' state, and a negative
   * level-end score costs a hit point. `game` is the outcome still owed
   * after the level-end scores `ends`; the new state owes the rest of it.
   */
  method PlayStage(gm: GameManager, cm: CharacterManager, acc: Accelerator, input: LevelInput,
                   ghost rest: seq<LevelInput>, hp: int, ghost ends: seq<int>, ghost game: (GameEnd, seq<int>))
    returns (status: Status, score: int, left: int)
    requires gm.Valid() && cm.Valid() && rest != [] && rest[0] == input
    requires forall l :: 0 <= l < |rest| ==> Supplies(rest[l])
    requires var r := RunGame(cm.index, acc.Config(), gm.score, cm.charge, acc.State(), rest, hp);
      game == (r.0, ends + r.1)
    modifies gm, cm`charge, acc
    ensures gm.Valid() && cm.Valid() && score == gm.score
    ensures left == if score < 0 then hp - 1 else hp
    ensures status != Passed ==> game == (Halted, ends)
    ensures status == Passed && left == 0 ==> game == (Lose, ends + [score])
    ensures status == Passed && left != 0 ==>
      var r := RunGame(cm.index, acc.Config(), gm.score, cm.charge, acc.State(), rest[1..], left);
      game == (r.0, (ends + [score]) + r.1)
  {
    ghost var start := LevelStart(gm.score, cm.charge, acc.State(), input);
    var grid;
    status, grid := PlayLevel(gm, cm, acc, input);
    ghost var run := RunLevel(cm.index, acc.Config(), start, input.ticks);
    assert status == run.1 && gm.score == run.0.score && cm.charge == run.0.charge && acc.State() == run.0.motion;
    RunGameStep(cm.index, acc.Config(), start, run.0, run.1, rest, hp);
    score := gm.score;
    left := hp;
    if score < 0 {
      left := hp - 1;
    }
    if status != Passed {
      assert ends + [] == ends;
    } else if left != 0 {
      AppendAssoc(ends, score, RunGame(cm.index, acc.Config(), gm.score, cm.charge, acc.State(), rest[1..], left).1);
    }
  }

  /**
   * The whole game: at most ten levels. The running score is never reset,
   * so every level-end score in `ends` is the game manager's score at that
   * moment and the total is their sum. The outcome and the level-end
   * scores are the ones `RunGame` gives for the state the game starts in,
   * so they keep the hit-point bookkeeping.
   */
  method PlayGame(gm: GameManager, cm: CharacterManager, acc: Accelerator, levels: seq<LevelInput>)
    returns (result: GameEnd, total: int, ghost ends: seq<int>)
    requires gm.Valid() && cm.Valid() && |levels| == Levels
    requires forall l :: 0 <= l < |levels| ==> Supplies(levels[l])
    modifies gm, cm`charge, acc
    ensures (result, ends) ==
            RunGame(cm.index, acc.Config(), old(gm.score), old(cm.charge), old(acc.State()), levels, InitialHp)
    ensures total == Sum(ends) && Bookkeeping(result, ends, InitialHp, Levels)
  {
    RunGameOutcome(cm.index, acc.Config(), gm.score, cm.charge, acc.State(), levels, InitialHp);
    result, total, ends := PlayLevels(gm, cm, acc, levels);
  }

  /** The level loop of the game: levels are played in order until the game is won, lost or halted. */
  method PlayLevels(gm: GameManager, cm: CharacterManager, acc: Accelerator, levels: seq<LevelInput>)
    returns (result: GameEnd, total: int, ghost ends: seq<int>)
    requires gm.Valid() && cm.Valid() && |levels| == Levels
    requires forall l :: 0 <= l < |levels| ==> Supplies(levels[l])
    modifies gm, cm`charge, acc
    ensures (result, ends) ==
            RunGame(cm.index, acc.Config(), old(gm.score), old(cm.charge), old(acc.State()), levels, InitialHp)
    ensures total == Sum(ends)
  {
    ghost var index := cm.index;
    ghost var cfg := acc.Config();
    ghost var game := RunGame(index, cfg, gm.score, cm.charge, acc.State(), levels, InitialHp);
    total := 0;
    var hp := InitialHp;
    ends := [];
    var level := 1;
    assert levels[level - 1..] == levels && ends + game.1 == game.1;
    while level <= Levels
      invariant 1 <= level <= Levels + 1 && hp >= 1
      invariant gm.Valid() && cm.Valid() && cm.index == index && total == Sum(ends)
      invariant var r := RunGame(index, cfg, gm.score, cm.charge, acc.State(), levels[level - 1..], hp);
        game == (r.0, ends + r.1)
    {
      var status, score;
      status, score, hp := PlayStage(gm, cm, acc, levels[level - 1], levels[level - 1..], hp, ends, game);
      if status != Passed {
        result := Halted;
        return;
      }
      CountNegAppend(ends, score);
      ends := ends + [score];
      total := total + score;
      if hp == 0 {
        result := Lose;
        return;
      }
      assert levels[level - 1..][1..] == levels[level..];
      level := level + 1;
    }
    assert levels[level - 1..] == [] && ends + [] == ends;
    result := Win;
  }
}
