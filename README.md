# Snakes and Ladders simulator — a Dafny model

This project models the core of a small C Monte-Carlo simulator for
Snakes and Ladders. It has three parts:

- **Configuration parser** (`libs/config_manager.c`). It reads a text file of
  `KEY=value` lines and `start:end` transition lines into a `Config`:
  iterations, step limit, rows, columns, die sides and the overshoot rule.
  It also fills two tables of at most 100 snakes and 100 ladders. Each
  transition is checked against the board size, its orientation and every
  transition accepted so far.
- **Board builder** (`libs/game_board.c`). It turns the configuration into
  one node per field. A field is SNAKE, LADDER or DEFAULT. A snake or
  ladder field has one successor, its end. A DEFAULT field has one
  successor per die face.
- **Simulation loop** (`libs/sim.c`). It plays `iterations` games from
  off-board index -1 up to the goal index `rows*cols - 1`. It counts
  overshoot wins, all rolls, and how often each snake and ladder is used.

## Modules

- `wrappers.dfy`, module `Wrappers`: `Option`, and `Count(n)`, the number of
  times a C loop `for (j = 0; j < n; j++)` runs.
- `text.dfy`, module `Text`: the C library behaviour the parser depends on.
  - `strchr` truncation (`CutAt`), `isspace` trimming (`TrimLeft`) and
    `strncmp` prefix tests (`StartsWith`).
  - A `%d`/`atoi` reader (`ScanInt`, `Atoi`, `ScanPair`). Its partner is the
    renderer `ShowInt`, proved to be its inverse.
- `config_manager.dfy`, module `ConfigManager`: the `Config` object and the
  parser.
  - `Config` is a class with the fields and two 100-entry arrays. Its
    abstract value is `ConfigValue`.
  - `check_for_existence` is a method over those arrays. It is proved to
    return 1 iff the proposed pair clashes with an accepted entry.
  - `parse_config_file` is a method that updates the `Config` in place. It
    is proved equal to a functional reading, `Parsed`, built from:
    - `Classify`, which dispatches a line to a `Directive`;
    - `Apply`, the effect of a directive;
    - `AddTransition`, the rules for a `start:end` line;
    - `ParseLines`, the loop.
- `config_properties.dfy`, module `ConfigProperties`: what the parser
  guarantees.
  - The defaults.
  - Comments, newlines, blank lines and indentation are ignored.
  - The meaning of each key, for every possible value.
  - The invariant `Sound`, which holds after every line. Part of it: no two
    accepted transitions share a field, snakes go down and ladders go up,
    at least one iteration, step, row and column, and a die of at least two
    sides.
- `game_board.dfy`, module `Board`: `GameBoard` (a class with a node array)
  and `create_game_board`.
  - The builder is a method whose nested loops are proved to produce,
    field by field, the node described by the function `BoardNode`.
  - `BoardNode`'s contract says which kind each field gets and what its
    successors are.
- `sim.dfy`, module `Simulation`: `roll_dice` and `run_sim`.
  - `run_sim` is a method with the C loops: the results tables are local
    arrays updated in place, and the iteration loop wraps the roll loop.
    One pass of the roll loop is the method `PlayPass`. The C `continue`
    (a retried roll) is an early `return` from it, and the C `break` (the
    iteration ends) is its `ended` result, on which the roll loop stops.
  - The method is proved equal to `Simulate`, a functional reading built
    from one pass of the roll loop (`Step`) and the sequence of passes
    (`Run`).
- `sim_properties.dfy`, module `SimProperties`: what `run_sim` promises.
  - Where the piece can be.
  - What an overshoot and a retried roll do.
  - Which usage counter a landing bumps, and that the transition does not
    move the piece.
  - When an iteration ends.
  - There are at most `iterations` overshoot wins.
  - Every roll is counted, and the rolls used are exactly a prefix of the
    random values.
  - With overshooting allowed, `iterations * min(rows*cols, maxSimulationSteps + 1)`
    rolls always suffice for the run to return.

### I/O, randomness and the caller's memory

- The configuration file is its sequence of lines (`Option<seq<string>>`).
  `None` means `fopen` failed. Each line ends in `'\n'` as `fgets` gives
  it, or not.
- `rand()` becomes a parameter `draws: seq<nat>`, its successive values.
  The loop runs over these draws, so a run that would need more draws than
  there are has no result (`None`). Each roll uses one draw, as
  `draw % diceSides + 1`.
- `srand(time(NULL))` is not modelled: the seed only chooses the draws.
- `main.c` passes an uninitialised `malloc`ed `Config`. The parser never
  gives `num_snakes` or `num_ladders` a default: only a `SNAKES=` or
  `LADDERS=` line writes them. It never writes table entries past the
  accepted ones. The model therefore starts from an arbitrary caller value
  `c0`.
  - `ParsedCountsAreCallers` proves that without a header line the count
    keeps `c0`'s value.
  - `Sound` (via `ParsedSound`) proves that the table slots past the
    accepted entries keep `c0`'s contents.

### Where the code and its documentation differ (the model follows the code)

- `config_manager.h` declares `parse_config_file` as `void`, terminating on
  error. The code returns 0 or 1. A fatal line is one of:
  - `ITERATIONS` or `MAXSIMSTEPS` at most 0;
  - `SNAKES` or `LADDERS` below 0.
- `sim.h` declares a different `SimResults`. It has `shortest_num_of_rolls`,
  `aborted_iterations`, `shortest_roll_sequence` and `elapsed_time`, and
  no `num_snakes`/`num_ladders`. It also returns a pointer. The model
  follows what `sim.c` builds:
  - `avg_rolls`;
  - `overshots`;
  - `shortest_num_rolls = -1`;
  - `num_ladders`, `num_snakes`;
  - the two tables, with fields the initializer does not name
    zero-filled.
- `game_board.h` names the successor array `possible_destinations` and the
  parameter type `GameConfig`. The model follows `game_board.c`
  (`successors`, `Config`).
- `run_sim` counts every roll in `num_of_rolls`. That includes rolls
  retried because of the overshoot rule, and rolls of iterations cut off
  by the step limit. `avg_rolls` is `num_of_rolls / iterations` in integer
  division.
- Landing on a snake or ladder field bumps that transition's usage counter
  but leaves `current_idx` unchanged. Only the local pointer `current`
  follows the successor, and it is overwritten on the next pass. The model
  keeps this behaviour (`SimProperties.RegularMove`).
- A die successor past the goal points back to the field itself.
- If `SNAKES=` appears twice, the second count applies to entries already
  stored. The guard `snake_idx < num_snakes` then compares the running
  index with the new count, as the code does.
  - So `snake_idx <= min(num_snakes, MAX_SNAKES)` does not hold in general.
    After the lines `SNAKES=2`, `5:3`, `SNAKES=0` the index is 1 and the
    count is 0 (`SnakeIndexCanExceedCount`).
  - What does hold: `snake_idx <= MAX_SNAKES` after every line
    (`WellFormed`). Each entry is stored only while `snake_idx` is below the
    count in force at that moment (`HasRoom`, in `AddTransition`'s
    contract). The same holds for ladders.

## Model

| member | source | states |
|---|---|---|
| Text.CutAt | libs/config_manager.c:66-70 | The result is the longest prefix without `ch`, and it stops exactly at the first `ch` or at the end of the line. |
| Text.CutAtAppend | libs/config_manager.c:66-70 | Cutting `a + b` cuts inside `a` when `a` holds `ch`, and otherwise keeps all of `a`. |
| Text.TrimLeft | libs/config_manager.c:76 | The result is a suffix; every dropped character is `isspace` whitespace; the result is empty or starts with a non-space. |
| Text.TrimLeftSkipsSpaces | libs/config_manager.c:76 | Any run of leading whitespace is skipped completely. |
| Text.LeadingDigits | libs/config_manager.c:138 | The counted prefix is all digits and is followed by a non-digit or the end. |
| Text.ScanUnsignedOf | libs/config_manager.c:138 | A digit string followed by a non-digit is read as its decimal value, with the rest left over. |
| Text.ScanNegativeOf | libs/config_manager.c:138 | A `-` followed by digits and then a non-digit is read as the negated value. |
| Text.ScanShowInt | libs/config_manager.c:138 | The `%d` reader recovers any rendered integer, negatives included, and leaves the following text untouched. |
| Text.AtoiShowInt | libs/config_manager.c:79 | `atoi` inverts the decimal rendering of every integer. |
| Text.ScanPairShow | libs/config_manager.c:138 | `sscanf("%d:%d")` reads back both numbers of any rendered `a:b` pair. |
| ConfigManager.Config.constructor | libs/config_manager.h:13-27 | A configuration whose scalar fields are zero and whose two tables are 100 zero entries. |
| ConfigManager.CheckForExistence | libs/config_manager.c:20-38 | Returns 0 or 1. The result is 1 iff some snake among the first `snakeIdx`, or some ladder among the first `ladderIdx`, shares a start or end with the proposed pair in one of the four ways. |
| ConfigManager.AddKeepsDisjoint | libs/config_manager.c:139-163 | A non-self-loop pair that passed the conflict check keeps the tables free of shared fields when added to either table. |
| ConfigManager.StripLine | libs/config_manager.c:66-70 | The result is a prefix of the line with no `#` or newline in it, ending where the first of them was. |
| ConfigManager.AddTransition | libs/config_manager.c:136-166 | The only possible change is to the current section's table. The line is stored iff all rules hold and the declared count and the 100-entry limit both leave room. If stored, it is written as `(a, b, 0)` at the running index, and that index grows by one. |
| ConfigManager.Apply | libs/config_manager.c:78-166 | A directive gives None (the early `return 1`) exactly when it is fatal: `ITERATIONS` or `MAXSIMSTEPS` at most 0, `SNAKES` or `LADDERS` below 0. Otherwise the state stays well formed. Only a pair moves the table indices, and only its own header changes a declared count. |
| ConfigManager.ProcessLine | libs/config_manager.c:64-166 | A line gives None exactly when it is read as a fatal directive. Otherwise the state stays well formed. |
| ConfigManager.StoreTransition | libs/config_manager.c:139-163 | Writing into the config's arrays has exactly the effect of AddTransition. |
| ConfigManager.ApplyDirective | libs/config_manager.c:78-166 | Updating the config in place has exactly the effect of Apply. Fatal directives change nothing and report failure. The tables stay the same arrays. |
| ConfigManager.ParseConfigFile | libs/config_manager.c:40-171 | The status and the config afterwards are those of Parsed: defaults first, 1 if the file is missing, otherwise the lines in order until the first fatal line (status 1) or the end (status 0). |
| ConfigProperties.DefaultsBeforeAnyLine | libs/config_manager.c:47-58 | With no file, or an empty one: iterations 100, rows 10, cols 10, steps 1000, overshoot allowed, die of 6. Counts and tables are left as the caller had them. The status is 1 with no file and 0 otherwise. |
| ConfigProperties.CommentIgnored | libs/config_manager.c:66-67 | Appending `#` and any comment text to a line does not change its effect. |
| ConfigProperties.NewlineIgnored | libs/config_manager.c:69-70 | A trailing newline does not change a line's effect. |
| ConfigProperties.BlankLineIgnored | libs/config_manager.c:73-76 | A line that is blank or whitespace-only once comments are removed leaves the state unchanged. |
| ConfigProperties.IndentationIgnored | libs/config_manager.c:76 | Leading whitespace (other than a newline) before any line does not change its effect. |
| ConfigProperties.IterationsLine | libs/config_manager.c:78-84 | `ITERATIONS=n` is fatal for n <= 0 and otherwise sets iterations to n, for every integer n. |
| ConfigProperties.MaxSimStepsLine | libs/config_manager.c:85-91 | `MAXSIMSTEPS=n` is fatal for n <= 0 and otherwise sets the step limit to n. |
| ConfigProperties.RowsLine | libs/config_manager.c:92-99 | `ROWS=n` sets rows to n, or to 10 when n <= 0. |
| ConfigProperties.ColsLine | libs/config_manager.c:100-107 | `COLS=n` sets cols to n, or to 10 when n <= 0. |
| ConfigProperties.DiceLine | libs/config_manager.c:108-115 | `DICE=n` sets the die to n sides, or to 6 when n <= 1. |
| ConfigProperties.OvershootLine | libs/config_manager.c:116-117 | `ALLOW_OVERSHOOT=v` allows overshooting exactly when v begins with `true`. |
| ConfigProperties.SnakesHeaderLine | libs/config_manager.c:118-126 | `SNAKES=n` is fatal for n < 0. Otherwise it sets the declared snake count and sends the following pairs to the snake table. |
| ConfigProperties.LaddersHeaderLine | libs/config_manager.c:127-135 | `LADDERS=n` is fatal for n < 0. Otherwise it sets the declared ladder count and sends the following pairs to the ladder table. |
| ConfigProperties.PairLine | libs/config_manager.c:136-138 | A rendered `a:b` line is handed to the transition rules with exactly a and b. |
| ConfigProperties.AddTransitionSound | libs/config_manager.c:139-163 | The transition rules preserve Sound: no shared fields, correct orientation, zero usage, and untouched slots past the accepted entries. |
| ConfigProperties.ApplySound | libs/config_manager.c:78-166 | Every non-fatal directive preserves Sound, including the numeric lower bounds. |
| ConfigProperties.ParseLinesSound | libs/config_manager.c:64-167 | Any sequence of lines preserves Sound, whether or not parsing stops at a fatal line. |
| ConfigProperties.ParsedSound | libs/config_manager.c:40-171 | For every file, missing ones included, the parsed configuration satisfies Sound. |
| ConfigProperties.CountsOnlyFromHeaders | libs/config_manager.c:118-135 | Over any lines without a `SNAKES=` (`LADDERS=`) header, the declared snake (ladder) count keeps its value. |
| ConfigProperties.ParsedCountsAreCallers | libs/config_manager.c:40-58 | For any file without such a header, missing files included, the parsed count is the caller's. |
| ConfigProperties.SnakeIndexCanExceedCount | libs/config_manager.c:118-157 | The file `SNAKES=2`, `5:3`, `SNAKES=0` parses with status 0 and leaves one stored snake under a declared count of 0. |
| Board.GameBoard.constructor | libs/game_board.c:6-21 | A board of `rows*cols` fields, all DEFAULT. |
| Board.LastStart | libs/game_board.c:27-44 | Finds the last entry starting at the field (the one whose write survives the loop), or None iff no entry starts there. |
| Board.BoardNode | libs/game_board.c:25-57 | Which kind a field gets: LADDER iff a declared ladder starts there; SNAKE iff a declared snake and no ladder starts there; DEFAULT otherwise. A snake or ladder field has the single successor `end - 1` of the last matching entry. A DEFAULT field has one successor per die face, `i + j + 1` or the field itself past the goal. When matching ends lie on the board, all successors are on the board. |
| Board.MarkStarts | libs/game_board.c:27-44 | The marking loop leaves node i as its last matching entry makes it (or unchanged) and touches no other node. |
| Board.BuildDiceSuccessors | libs/game_board.c:48-55 | One successor per die face: the field `i + j + 1` while on the board, else the field itself. |
| Board.BuildField | libs/game_board.c:25-57 | Builds node i as BoardNode says and leaves every other node unchanged. |
| Board.CreateGameBoard | libs/game_board.c:5-59 | A fresh board with the config's rows and cols whose every node is the one BoardNode describes. |
| Simulation.RollDice | libs/sim.c:12-14 | The roll lies in 1..diceSides; every face is reached, since a value below diceSides rolls itself plus one. |
| Simulation.InitialTable | libs/sim.c:21-34 | A results table of 100 entries: the config's first `count` entries, then zero entries. |
| Simulation.FirstStart | libs/sim.c:60-73 | The first of the first `count` entries starting at the field; None iff there is none. |
| Simulation.BumpFirst | libs/sim.c:59-75 | Only the first matching entry's usage counter goes up, by one; every other entry and field is unchanged. |
| Simulation.LandingField | libs/sim.c:46-56 | The landing index is on the board. It is the goal on an overshoot and `current_idx + roll` otherwise. |
| Simulation.Step | libs/sim.c:41-81 | One pass counts exactly one roll, keeps the state usable for the next pass, and ends at most one iteration. |
| Simulation.PlayPass | libs/sim.c:41-81 | One pass of the in-place loop body, updating the usage tables in the arrays, has exactly the effect of Step on the old state; a retry returns early with the piece unmoved. |
| Simulation.CopyTable | libs/sim.c:29-34 | The copied results table is InitialTable of the config's table. |
| Simulation.IncrementFirstUse | libs/sim.c:60-73 | The usage loop with `break` has exactly the effect of BumpFirst. |
| Simulation.RunSim | libs/sim.c:16-85 | The results are those of Simulate for the same random values: None if they run out first, otherwise the counters and tables after `iterations` games and `avg_rolls = num_of_rolls / iterations`. |
| SimProperties.StartInRange | libs/sim.c:21-39 | The run starts off the board with tables equal to the config's first `num_snakes`/`num_ladders` entries, `times_used` included. |
| SimProperties.StepInRange | libs/sim.c:39-80 | Between passes `current_idx` stays in [-1, numFields - 2], so `board->start[current_idx]` is always in bounds. |
| SimProperties.OvershootWins | libs/sim.c:46-79 | With overshooting allowed, an over-long roll lands exactly on the goal, adds one overshoot win and one roll, and ends the iteration. |
| SimProperties.RetryKeepsPosition | libs/sim.c:42-53 | With overshooting disallowed, an over-long roll changes only the pass and roll counters; the end check is skipped. |
| SimProperties.RegularMove | libs/sim.c:55-75 | A roll that stays on the board moves the piece by exactly the roll. A snake or ladder there is counted with BumpFirst, and the piece is not moved by it. No overshoot is counted. |
| SimProperties.IterationEnds | libs/sim.c:77-80 | An iteration ends iff a pass that is not retried lands on the goal or exceeds the step limit; a new iteration starts off the board with no steps. |
| SimProperties.BumpFirstKeepsStarts | libs/sim.c:59-75 | Usage counting never changes where an entry starts. |
| SimProperties.StartMatches | libs/sim.c:29-34 | The copied results tables start where the configuration's declared entries start. |
| SimProperties.StepKeepsMatch | libs/sim.c:59-75 | A pass keeps that agreement: counting a use never moves an entry. |
| SimProperties.RunKeepsMatch | libs/sim.c:37-82 | The agreement holds in every state up to the end of the run. |
| SimProperties.StepCountsLanding | libs/sim.c:57-75 | On a board built from the configuration, a pass landing on a SNAKE or LADDER field finds its first matching entry and adds one use to it. |
| SimProperties.LandingIsCounted | libs/game_board.c:25-44 | On a board built from the same configuration, every SNAKE or LADDER field has a table entry for run_sim to count. |
| SimProperties.StepOvershots | libs/sim.c:46-80 | A pass adds an overshoot win only when it ends the iteration. |
| SimProperties.RunOvershots | libs/sim.c:37-82 | A finished run stops exactly at `iterations` and adds at most one overshoot win per iteration. |
| SimProperties.SimulateOvershots | libs/sim.c:37-82 | The overshoot count of the results is between 0 and `iterations`. |
| SimProperties.RunConsumes | libs/sim.c:44 | A finished run used exactly its first `numOfRolls` random values; further values change nothing. |
| SimProperties.SimulateAverage | libs/sim.c:44-83 | `avg_rolls` is the rolls made, retried ones included, divided by `iterations`; the run used exactly that many random values, and `avg_rolls * iterations` is at most their number. |
| SimProperties.StepNeed | libs/sim.c:41-81 | With overshooting allowed, every pass moves the piece forward within an iteration and uses up one of the passes left. |
| SimProperties.RunCompletes | libs/sim.c:37-82 | With overshooting allowed, a run returns whenever it has at least Need random values. |
| SimProperties.SimulateCompletes | libs/sim.c:37-82 | With overshooting allowed, `iterations * min(rows*cols, maxSimulationSteps + 1)` random values always suffice for run_sim to return. |

## Left out

- `print_config`, `print_game_board` and `print_sim_results`: console output only. The results printer's float percentages are not modelled.
- `free_game_board`, `malloc`/`free`, and the successor arrays leaked when several transitions start on the same field (`libs/game_board.c:31,41`): the model has no manual memory.
- `logm` and the logger: output only.
- `fopen`/`fgets`/`fclose`: the file is its sequence of lines. Splitting lines longer than `MAX_LINE_LENGTH` (256) into several `fgets` reads is not modelled. Neither is a NUL byte inside a line.
- The pointer drift of `line++` in `libs/config_manager.c:76`: the next `fgets` then writes into a shorter buffer. The model treats every line as read into the full buffer.
- The NULL-`config` check (`libs/config_manager.c:41-44`): Dafny references are never null.
- Text.ScanInt: not bit-exact with `atoi`/`sscanf` for out-of-range values or odd prefixes. 32-bit overflow is not modelled.
- Integer overflow in general: all C `int` arithmetic (`rows * cols`, `num_of_rolls`, `times_used`, `sim_steps`) is unbounded here.
- `rand()`, `srand(time(NULL))`: see above; the random values are a parameter.
- Simulation.RunSim: `avg_rolls` is a C `float`. The model keeps the integer quotient it is assigned from, so rounding for quotients above 2^24 is not modelled.
- Simulation.RunSim: the dead store `current = current->successors[0]` (`libs/sim.c:66,74`) is not modelled, since it never affects the run.
- Simulation.RunSim: a run that loops forever (overshooting disallowed and every draw overshooting) is modelled only as running out of draws.
- Simulation.RunSim requires what `SimConfig` states: at least one die side, a non-empty board and `iterations != 0`. Without a die side `rand() % dice_sides` divides by zero. The C would also accept a negative side count, and its `%` would still give a roll, but the parser never produces one. The final division needs `iterations != 0`. It also needs the declared counts to be at most 100. The parser accepts a larger `SNAKES=`/`LADDERS=` count, for which the copy loops of `libs/sim.c:29-34` write past the 100-entry results tables.
- Board.CreateGameBoard requires every declared transition that starts on the board to end on it, and requires the declared counts to fit the 100-entry tables. Otherwise the C reads out of bounds. The parser alone does not guarantee this, because a later `ROWS=`/`COLS=` line can shrink the board, and declared entries beyond the accepted ones are whatever the caller left in the table.
- `aborted_iterations`, `shortest_roll_sequence`, `elapsed_time` (`libs/sim.h`): `sim.c` never computes them.
- `main.c` and `pfusch.c`: drivers and scratch code outside the core.
