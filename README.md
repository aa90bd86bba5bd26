# Lane runner on a microcontroller — a Dafny model of its core

The game is a five-lane obstacle runner for a small board with an OLED
screen, a rotary knob and an accelerometer. A map of rows of obstacle
(`X`) and empty (` `) cells scrolls one row per step time; the player tilts
the board to change lanes and shakes it to fire a character's skill once
the charge meter is full. Hitting an obstacle costs 50 points and clears
the cell. A level ends when the scroll offset reaches exactly 0; ten levels
are played, and a level that ends with a negative running score costs one
of three hit points. Scores are kept as `name,score` lines in a text file,
of which the best three are kept.

The model has one module per source file:

- `Game` (`game_manager.dfy`, game_manager.py). The difficulty list is a
  constant and the game manager is a class with `modifies` clauses on its
  setters. `GenerateMap` builds the obstacle field with nested loops from
  a supplied sequence of random draws. It is proved equal to the function
  `BuildGrid`, and every generated row is proved to hold at least one free
  lane. The collision test is a function.
- `Characters` (`character.dfy`, character.py). The character manager is
  a class with selection, a saturating charge meter and the skill gate.
  Madoka's and Mami's skills are loops that overwrite grid cells in place.
  They are proved against `Purified` and `Lanced`, and those are proved to
  clear the player's path.
- `Inputs` (`input_manager.dfy`, input_manager.py):
  - the knob and button debouncer as a class, proved against the step
    function `KnobStep`;
  - the baseline calibration loop, proved against `MeanOf`;
  - the accelerometer classifier as a class, proved against `MotionStep`,
    with lemmas over whole runs of samples: lane changes are separated by
    more than the cooldown, and a shake fires exactly on `shakeFrames`
    consecutive strong movements.
- `Renderer` (`oled_renderer.dfy`, oled_renderer.py). It covers:
  - the five text lines of `draw_map`, including Python's negative index
    wrap and its IndexError;
  - the high-score board lines;
  - the text placement loop of `draw_text_block`.
- `Scores` (`score_manager.dfy`, score_manager.py). Loading and saving
  work on the file's lines. The model includes `strip`, `split(",")`,
  `int` and `str` as CircuitPython defines them; whitespace is the six
  ASCII characters space, tab, line feed, vertical tab, form feed and
  carriage return. It proves a save/load round trip and models the
  descending sort as an insertion sort that keeps entries of equal score
  in their order. Separate lemmas state what holds for every order of tied
  entries: the saved scores at each rank, and when the new entry is
  certainly on or off the board.
- `GameLoop` (`game_loop.dfy`, code.py's `game_loop`). One tick is
  specified by the function `Step` and a level by `RunLevel`. The methods
  `PlayTick` and `PlayLevel` run the source's statements on the shared
  objects and are proved to end in the state `Step` and `RunLevel` give.
  The whole game is the function `RunGame`, which plays the levels in order
  and carries the score, the charge and the sensor state from one level to
  the next. `PlayGame` is proved to end with the outcome and level-end
  scores `RunGame` gives, and every game `RunGame` plays is proved to keep
  the hit-point bookkeeping of `CountNeg`.
- `Wrappers`: `Option` and `Result`.

Behaviour of the code that the model reproduces as written:

- The difficulty menu offers Easy, Medium and Hard, but `generate_map`
  compares the selected difficulty, a dictionary, with the strings `"easy"`
  and `"medium"`. Those comparisons are always false, so every level uses
  the hard profile: 40 rows, probability 0.3, step time 1.5 s.
- Homura's skill, named "Time Slow", sets the step time to 4 s. A longer
  step time means fewer scrolls per second, so the map slows down.
- A level ends on `offset == 0` only. Kyouko's dash can drive the offset
  below 0, and then the level never ends. It runs until `draw_map` raises
  or the input ends (`OvershootNeverPasses`).
- A blank line in the score file is reported and then fails to unpack. It
  is not skipped (`BlankLineFails`).

## Model

| member | source | states |
|---|---|---|
| Game.SelectProfile | game_manager.py:47-61 | the difficulty value is a dictionary, so both string comparisons fail and the profile is always 40 rows, probability 0.3, step time 1.5 |
| Game.GenRow | game_manager.py:66-81 | a generated row has five obstacle or empty cells and never five obstacles; a cell other than the repaired one is an obstacle iff its draw is below the probability, and the repaired cell is an obstacle iff its draw is below it and not all draws are |
| Game.BuildGrid | game_manager.py:63-84 | the map has the profile's number of rows, all well formed, none fully blocked |
| Game.CheckCollision | game_manager.py:86-99 | a hit iff the player row offset+4 lies inside the map, the lane lies in 0..4 and that cell is an obstacle |
| Game.HitConsumesObstacle | code.py:219-223 | clearing the hit cell keeps the map well formed, and the same position no longer collides |
| Game.NextDifficultyIndex | game_manager.py:23-24 | the new index is in range and congruent to old index + delta modulo 3 |
| Game.DifficultyCycle | game_manager.py:23-24 | one step always changes the difficulty and three steps return to it |
| Game.GameManager.constructor | game_manager.py:4-17 | starts at difficulty 0, step time 2.5, offset 40, score 0 |
| Game.GameManager.CurrentDifficulty | game_manager.py:20-21 | the current difficulty is one of the three defined |
| Game.GameManager.NextDifficulty | game_manager.py:23-24 | the index moves by delta modulo 3 and stays valid |
| Game.GameManager.SetStepTime | game_manager.py:26-27 | only the step time changes, to t |
| Game.GameManager.UpdateOffset | game_manager.py:32-33 | only the offset changes, decreased by uo |
| Game.GameManager.UpdateScore | game_manager.py:38-39 | only the score changes, increased by the amount |
| Game.GameManager.GenerateMap | game_manager.py:45-84 | returns a fresh grid equal to BuildGrid of the hard profile over the draws, sets the offset to its 40 rows and the step time to 1.5 |
| Characters.PurifyClearsPath | character.py:88-93 | after Madoka's skill the map stays well formed and no lane collides while the player row lies in the six cleared rows |
| Characters.LanceClearsLane | character.py:103-107 | after Mami's skill the player's lane never collides in the ten cleared rows, and every other lane collides exactly as before |
| Characters.NextIndex | character.py:45-46 | the next character index is always in range |
| Characters.PrevIndex | character.py:48-49 | the previous character index is always in range (Python's modulo of -1) |
| Characters.PrevUndoesNext | character.py:45-49 | prev undoes next and next undoes prev |
| Characters.CharacterManager.constructor | character.py:36-40 | starts at character 0 with no charge and a maximum of 100 |
| Characters.CharacterManager.Current | character.py:42-43 | the current character is one of the roster |
| Characters.CharacterManager.Next | character.py:45-46 | the index advances cyclically |
| Characters.CharacterManager.Prev | character.py:48-49 | the index retreats cyclically |
| Characters.CharacterManager.AddCharge | character.py:57-58 | the charge grows by the amount and saturates at the maximum |
| Characters.CharacterManager.TryUseSkill | character.py:60-83 | below a full meter nothing changes; at a full meter the charge empties and exactly the selected skill's effect on step time, score, offset or grid is applied |
| Characters.CharacterManager.SkillMadoka | character.py:89-93 | every cell of the rows offset..offset+5 that exist becomes empty, other rows unchanged |
| Characters.CharacterManager.SkillHomura | character.py:96-97 | the step time becomes 4 |
| Characters.CharacterManager.SkillSayaka | character.py:100-101 | the score grows by 200 |
| Characters.CharacterManager.SkillMami | character.py:104-107 | the player's lane becomes empty in rows offset..offset+9 that exist, all else unchanged |
| Characters.CharacterManager.SkillKyoko | character.py:110-111 | the offset drops by 3, with no clamping |
| Inputs.KnobStep | input_manager.py:29-60 | a turn iff the encoder changed after its cooldown with a non-zero delta, signed by the delta; otherwise the button edge is recorded and a press iff the button is held down longer than its cooldown |
| Inputs.PressRepeatsWhileHeld | input_manager.py:49-58 | the poll that sees the button go down reports no press; a later poll with it still down after the cooldown reports a press and leaves the state as it was, so presses repeat while the button is held |
| Inputs.KnobController.constructor | input_manager.py:11-27 | both cooldown clocks start at 0, the button level is the one read, both cooldowns are 0.3 by default |
| Inputs.KnobController.Check | input_manager.py:29-60 | the new state and the event are those of KnobStep |
| Inputs.Calibrate | input_manager.py:98-106 | the baseline is the mean of the samples |
| Inputs.MeanOfConstant | input_manager.py:98-106 | a board at rest with constant readings calibrates to that reading |
| Inputs.MeanWithinReadings | input_manager.py:98-106 | the baseline's x value lies between the smallest and the largest x sample |
| Inputs.MotionStep | input_manager.py:111-173 | at most one of left, right and shake; shake iff the run of strong movements reaches shakeFrames, which resets it; without a shake, a lane change is reported iff the filtered x is beyond the threshold and the cooldown has passed, right taking precedence over left; a lane change restarts the lane clock |
| Inputs.LaneEventsSeparated | input_manager.py:163-171 | on any run of samples, two lane changes are more than the lane cooldown apart |
| Inputs.ShakeNeedsConsecutiveFrames | input_manager.py:139-156 | a shake is reported only after shakeFrames consecutive strong movements |
| Inputs.ConsecutiveFramesShake | input_manager.py:139-156 | shakeFrames consecutive strong movements always produce a shake among them |
| Inputs.Accelerator.constructor | input_manager.py:65-93 | filters and counter start at 0, the lane clock at the construction time, the baseline at the mean of the calibration samples |
| Inputs.Accelerator.Update | input_manager.py:111-173 | the new state and the three flags are those of MotionStep |
| Renderer.FrameLineAt | oled_renderer.py:298-300 | a line of n cells has 4n-1 characters, cell j at position 4j+1, a bar at every position 3 mod 4 and spaces elsewhere |
| Renderer.DrawMapLines | oled_renderer.py:280-303 | draw_map raises iff the window starts more than the map's length before row 0; otherwise it gives five lines of 19 characters showing the rows offset..offset+4 with negative indices wrapping and rows past the end blank |
| Renderer.PlayerOnlyOnLastLine | oled_renderer.py:294-296 | on a well-formed map the player mark appears exactly at the player's lane of the fifth line |
| Renderer.HighScoreBoard | oled_renderer.py:306-319 | four lines: the title, then the first three scores padded with "-----" |
| Renderer.CenterIsExact | oled_renderer.py:44-46 | a centred line has equal margins on the 128-pixel screen |
| Renderer.StartYCentres | oled_renderer.py:33-35 | without a start position the block is centred on row 32 to within one pixel |
| Renderer.TextLayout | oled_renderer.py:25-56 | line k is drawn at start y + k times the spacing, at the start x when left aligned and at the centred x for any other alignment |
| Scores.Strip | score_manager.py:26 | the stripped line neither starts nor ends with whitespace |
| Scores.StripSlice | score_manager.py:26 | the stripped line is a contiguous middle of the line, everything dropped before and after it is whitespace, and the middle starts and ends with non-whitespace |
| Scores.Split | score_manager.py:30 | at least one piece, no piece contains a comma |
| Scores.SplitJoin | score_manager.py:30 | joining the pieces with commas gives the line back |
| Scores.IntToStringParses | score_manager.py:31-41 | parsing the written score gives the score back |
| Scores.SaveScores | score_manager.py:38-41 | one line per entry |
| Scores.LoadScores | score_manager.py:21-36 | a successful load gives one entry per line |
| Scores.BlankLineFails | score_manager.py:26-31 | a blank line makes loading fail |
| Scores.ParseFormatLine | score_manager.py:29-41 | a saved line reads back as the same entry |
| Scores.LoadSaveRoundTrip | score_manager.py:21-41 | entries whose names hold no comma and start with no whitespace load back unchanged after saving |
| Scores.LoadEach | score_manager.py:21-36 | lines that each parse load as the sequence of their entries, in order |
| Scores.LoadedNamesValid | score_manager.py:24-31 | every loaded name saves back faithfully |
| Scores.Insert | score_manager.py:57 | inserting adds exactly that entry |
| Scores.SortDesc | score_manager.py:57 | the sorted entries are in non-increasing score order and a permutation of the input |
| Scores.SortAppend | score_manager.py:54-57 | sorting with a new entry appended places it behind every entry of equal or higher score |
| Scores.InsertLastSplits | score_manager.py:54-57 | the new entry lands at the position counted by the entries scoring at least as much |
| Scores.CountSort | score_manager.py:57 | sorting keeps the number of entries at or above any score |
| Scores.Take | score_manager.py:61-65 | the slice [:3] is a prefix of length min(3, size) |
| Scores.AddScoreSaves | score_manager.py:47-69 | add_score saves at most three entries in non-increasing order: the old ones sorted with the new one placed behind equal scores, and they load back as such |
| Scores.NewHighScoreIff | score_manager.py:59-62 | the result is true iff fewer than three old entries score at least as much, or an identical entry is already in the old top three |
| Scores.SortedPermScores | score_manager.py:57 | any two orderings of the same entries by descending score have the same score at every position, so a sort can differ only among tied entries |
| Scores.AnySortSavesScores | score_manager.py:47-69 | for every order of tied entries, the table add_score saves has the same size and the same score at each rank as the modelled one |
| Scores.NewEntryRank | score_manager.py:54-62 | for every order of tied entries, the new entry is in the top three when fewer than three old entries score at least as much, and out of it when three old entries score more |
| Scores.SortKeepsSorted | score_manager.py:91 | sorting a table already in descending score order leaves it unchanged |
| Scores.BoardAfterAddScore | score_manager.py:47-102 | after add_score, the board lists the saved top entries in their saved order, ranked from 1, with "-----" after fewer than three |
| Scores.HighscoreDisplay | score_manager.py:71-102 | fails iff loading fails; "-----" alone for an empty table; otherwise one "rank name score" line per entry in the modelled descending score order, then "-----" when fewer than three |
| Scores.DisplayLines | score_manager.py:82-102 | "-----" alone for no entries; else one "rank name score" line per entry in sorted order, then "-----" when fewer than three |
| GameLoop.MoveLane | code.py:197-205 | the lane stays in 0..4 and moves by at most one; left alone gives max(0, lane-1), right alone min(4, lane+1), both apply left then right, neither keeps the lane |
| GameLoop.Skill | code.py:208-210 | the skill step leaves the lane and the map size alone, changes nothing below a full meter and empties it otherwise; only the dash changes the offset, by 3 |
| GameLoop.Collide | code.py:219-223 | a hit costs 50 points and empties exactly the hit cell, which cannot hit again, leaving charge, step time, scroll clock and sensor state alone; no hit changes nothing |
| GameLoop.Step | code.py:181-244 | one pass keeps the lane on the board and the map rectangular with the same number of rows |
| GameLoop.Advance | code.py:183-205 | a due scroll takes one row off the offset, adds 10 points and 5 charge capped at 100, and restarts the scroll clock; otherwise none of these change; the map and step time stay; the sensor state and events are MotionStep's and the lane is MoveLane of those events |
| GameLoop.QuietTick | code.py:183-223 | a tick without a shake changes the score by +10 for a due scroll and -50 for a hit at the moved lane, the charge only by the capped +5 of a due scroll, and sets the offset to the scrolled one |
| GameLoop.Resolve | code.py:208-244 | the skill, collision and level-end half keeps the map rectangular with the same number of rows |
| GameLoop.RunLevel | code.py:181-244 | a level stops passed, crashed or out of input, never running |
| GameLoop.StepOutcome | code.py:234-244 | a pass ends the level iff its scrolled offset is exactly 0; it crashes iff that offset is more than the map's length below 0; the offset never grows, and without the dash it is the scrolled one |
| GameLoop.OvershootNeverPasses | code.py:234-244 | once the offset is below 0 the level is never passed |
| GameLoop.NoDashNoCrash | code.py:181-244 | without Kyouko's dash a level never crashes, ends at offset 0 when passed, and keeps a positive offset while running |
| GameLoop.LaneStaysOnBoard | code.py:175-205 | after any run of ticks the lane is in 0..4 and the map still holds only obstacle and empty cells |
| GameLoop.StepKeepsCells | code.py:208-223 | skills and collisions write only empty cells |
| GameLoop.PlayTick | code.py:181-244 | one pass on the shared objects ends in the state and outcome Step gives |
| GameLoop.AdvanceTick | code.py:183-205 | the due scroll, the sensor update and the lane move, as Advance gives them |
| GameLoop.SkillTick | code.py:209-210 | try_use_skill on the shared objects gives the world Skill gives |
| GameLoop.ResolveTick | code.py:208-244 | the skill, the collision penalty and the drawing, as Resolve gives them |
| GameLoop.PlayLevel | code.py:170-244 | a level starts on a fresh map in lane 2 and ends in the state and status RunLevel gives |
| GameLoop.CountNegAppend | code.py:246-250 | one more level adds its score to the total and costs a hit point iff it is negative |
| GameLoop.RunGameOutcome | code.py:165-266 | in every game: at most one level-end score per level; lost iff as many level ends are negative as there were hit points, the last of them ending the game; won only after every level; halted only before the last level |
| GameLoop.PlayStage | code.py:172-262 | one level on the shared objects: a level that stops unpassed halts the game, a negative end score costs a hit point, and the last hit point loses it; otherwise the rest of the game is RunGame from the new state |
| GameLoop.PlayLevels | code.py:165-266 | the outcome and the level-end scores are those RunGame gives from the starting score, charge and sensor state, and the total is their sum |
| GameLoop.PlayGame | code.py:159-266 | the outcome and level-end scores are RunGame's, the total is their sum, and the hit-point bookkeeping of RunGameOutcome holds |

## Left out

- Drawing, the LEDs, audio, sleeps and `print`: the display groups, `HP_show`, `play_melody` and the status line of the game screen are output only.
- Hardware reads and clocks (`time.monotonic`, the accelerometer, the encoder and button pins) are parameters: a tick carries the loop clock, a sample and the sensor clock.
- The rotary encoder driver's own pulse counting is not modelled; `Check` receives its `changed` flag and delta.
- `random.random` and `random.randint` are a supplied sequence of draws and one repair lane per row, instead of one interleaved random stream.
- The score file is a sequence of lines; opening, creating and rewriting the file (`_file_exists`, `_init_empty_file`) is left out.
- A name containing a line break would split its line in the real file; the line model does not capture this.
- Scores.ParseInt: `int` may accept further spellings, such as underscores between digits; the model accepts surrounding whitespace, an optional sign and ASCII digits only.
- Scores.SortDesc: `list.sort` on CircuitPython is a quicksort, which is not stable; the model sorts stably, so among entries of equal score the model fixes one order where the device may produce another. Scores.SortedPermScores, Scores.AnySortSavesScores and Scores.NewEntryRank state what holds for every order.
- Scores.SortAppend: places the new entry behind equal scores, which is the stable sort's order and not necessarily the device's.
- Scores.AddScoreSaves: pins which of several tied entries are saved, and in which order, to the stable sort's choice.
- Scores.NewHighScoreIff: when the new score ties the third-best score, the answer depends on the tie order; the statement holds for the stable sort.
- Scores.BoardAfterAddScore: the board order among tied entries is the stable sort's.
- Scores.HighscoreDisplay: tied entries are listed in the stable sort's order.
- Floating-point arithmetic is modelled as exact real arithmetic: the filter, the baseline and the clocks.
- Characters.CharacterManager.TryUseSkill: requires a non-negative offset for Madoka and Mami, where Python would wrap a negative row index. The game loop never calls them with one, because only Kyouko's dash drives the offset below 0.
- Characters.CharacterManager.SkillMadoka: requires a non-negative offset, for the same reason.
- Characters.CharacterManager.SkillMami: requires a non-negative offset, for the same reason.
- GameLoop.PlayLevel: the level loop runs over a finite sequence of ticks, and running out of them ends it with `InputExhausted`; the source loops until the level ends.
- GameLoop.PlayGame: a level that crashes or runs out of ticks ends the game as `Halted`; in the source an IndexError ends the program.
- The top-level screen loop of code.py, the character and difficulty selection screens and `play_ending` only sequence calls.
- `draw_text_block` and `draw_title` creating labels: only their position arithmetic is modelled.
- Character colours and shapes are data only; `get_color` and the shape drawing are left out.
