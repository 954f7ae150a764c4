/**
 * The simulator: `iterations` games on a built board, each starting off
 * the board (index -1) and rolling until the goal (index numFields - 1) is
 * reached or the step limit is exceeded, counting overshoot wins and how
 * often each snake and ladder is used.
 *
 * rand() is not modelled: the values it returns are a parameter `draws`,
 * consumed one per roll. A run that needs more rolls than there are draws
 * has no result (None).
 */
module Simulation {
  import opened Wrappers
  import opened ConfigManager
  import opened Board

  /** roll_dice: a die face from one value of rand(). */
  function RollDice(draw: nat, diceSides: int): (roll: int)
    requires diceSides >= 1
    ensures 1 <= roll <= diceSides
    ensures draw < diceSides ==> roll == draw + 1
  {
    draw % diceSides + 1
  }

  /** The statistics run_sim returns. */
  datatype SimResults = SimResults(
    avgRolls: int,
    overshots: int,
    shortestNumRolls: int,
    numLadders: int,
    numSnakes: int,
    snakes: seq<Transition>,
    ladders: seq<Transition>)

  /** The simulator's variables between two passes of the roll loop. */
  datatype SimState = SimState(
    iter: int,
    currentIdx: int,
    simSteps: int,
    numOfRolls: int,
    overshots: int,
    snakes: seq<Transition>,
    ladders: seq<Transition>)

  const EMPTY_TRANSITION := Transition(0, 0, 0)

  /** A results table: the first `count` entries of `ts`, zero entries after them. */
  function InitialTable(ts: seq<Transition>, count: int, size: nat): (r: seq<Transition>)
    requires Count(count) <= |ts| && Count(count) <= size
    ensures |r| == size
    ensures r[..Count(count)] == ts[..Count(count)]
    ensures forall k :: Count(count) <= k < size ==> r[k] == EMPTY_TRANSITION
  {
    seq(size, k requires 0 <= k < size => if k < Count(count) then ts[k] else EMPTY_TRANSITION)
  }

  /** The first of the first `count` entries of `ts` whose start is the field with index idx. */
  function FirstStart(ts: seq<Transition>, count: int, idx: int): (r: Option<nat>)
    requires Count(count) <= |ts|
    ensures r.Some? ==> r.value < Count(count) && ts[r.value].start - 1 == idx
    ensures r.Some? ==> forall k :: 0 <= k < r.value ==> ts[k].start - 1 != idx
    ensures r.None? <==> forall k :: 0 <= k < Count(count) ==> ts[k].start - 1 != idx
    decreases Count(count)
  {
    if count <= 0 then None
    else match FirstStart(ts, count - 1, idx)
      case Some(j) => Some(j)
      case None => if ts[count - 1].start - 1 == idx then Some(count - 1) else None
  }

  /** The usage counting of run_sim: only the first matching entry gets one more use. */
  function BumpFirst(ts: seq<Transition>, count: int, idx: int): (r: seq<Transition>)
    requires Count(count) <= |ts|
    ensures |r| == |ts|
    ensures FirstStart(ts, count, idx).None? ==> r == ts
    ensures FirstStart(ts, count, idx).Some? ==>
      var j := FirstStart(ts, count, idx).value;
      r[j] == Transition(ts[j].start, ts[j].end, ts[j].timesUsed + 1) &&
      forall k :: 0 <= k < |ts| && k != j ==> r[k] == ts[k]
  {
    match FirstStart(ts, count, idx)
    case None => ts
    case Some(j) => ts[j := ts[j].(timesUsed := ts[j].timesUsed + 1)]
  }

  /** What a pass may assume: a die, a board, a position not left of the start, tables as large as the counts. */
  predicate Pre(c: ConfigValue, nodes: seq<Node>, s: SimState)
  {
    c.diceSides >= 1 && |nodes| >= 1 && -1 <= s.currentIdx &&
    Count(c.numSnakes) <= |s.snakes| && Count(c.numLadders) <= |s.ladders|
  }

  /** The roll overshoots the goal and overshooting is not allowed: the pass is retried. */
  predicate Retry(c: ConfigValue, nodes: seq<Node>, s: SimState, roll: int)
  {
    s.currentIdx + roll >= |nodes| && !c.allowOvershoot
  }

  /** The index the piece lands on when the pass is not retried (clamped to the goal on an overshoot). */
  function LandingField(nodes: seq<Node>, s: SimState, roll: int): (idx: int)
    requires |nodes| >= 1 && -1 <= s.currentIdx && roll >= 1
    ensures s.currentIdx < idx < |nodes|
      || (s.currentIdx >= |nodes| - 1 && idx == |nodes| - 1)
    ensures 0 <= idx < |nodes|
    ensures s.currentIdx + roll >= |nodes| ==> idx == |nodes| - 1
    ensures s.currentIdx + roll < |nodes| ==> idx == s.currentIdx + roll
  {
    if s.currentIdx + roll >= |nodes| then |nodes| - 1 else s.currentIdx + roll
  }

  /** The pass has moved the piece to `idx`: count the transition there and end the iteration if due. */
  function FinishPass(c: ConfigValue, nodes: seq<Node>, s: SimState, idx: int, overshot: bool): (r: SimState)
    requires Pre(c, nodes, s) && 0 <= idx < |nodes|
    ensures Pre(c, nodes, r)
    ensures |r.snakes| == |s.snakes| && |r.ladders| == |s.ladders|
  {
    var steps := s.simSteps + 1;
    var overshots := if overshot then s.overshots + 1 else s.overshots;
    var snakes := if nodes[idx].ft == Snake then BumpFirst(s.snakes, c.numSnakes, idx) else s.snakes;
    var ladders := if nodes[idx].ft == Ladder then BumpFirst(s.ladders, c.numLadders, idx) else s.ladders;
    if idx == |nodes| - 1 || steps > c.maxSimulationSteps then
      SimState(s.iter + 1, -1, 0, s.numOfRolls + 1, overshots, snakes, ladders)
    else
      SimState(s.iter, idx, steps, s.numOfRolls + 1, overshots, snakes, ladders)
  }

  /** One pass of run_sim's roll loop, rolling the die with `draw`. */
  function Step(c: ConfigValue, nodes: seq<Node>, s: SimState, draw: nat): (r: SimState)
    requires Pre(c, nodes, s)
    ensures Pre(c, nodes, r)
    ensures |r.snakes| == |s.snakes| && |r.ladders| == |s.ladders|
    ensures r.numOfRolls == s.numOfRolls + 1
    ensures r.iter == s.iter || r.iter == s.iter + 1
  {
    var roll := RollDice(draw, c.diceSides);
    if Retry(c, nodes, s, roll) then
      s.(simSteps := s.simSteps + 1, numOfRolls := s.numOfRolls + 1)
    else
      FinishPass(c, nodes, s, LandingField(nodes, s, roll), s.currentIdx + roll >= |nodes|)
  }

  /** The remaining iterations of run_sim from `s`, or None if the draws run out first. */
  function Run(c: ConfigValue, nodes: seq<Node>, s: SimState, draws: seq<nat>): Option<SimState>
    requires Pre(c, nodes, s)
    decreases |draws|
  {
    if s.iter >= c.iterations then Some(s)
    else if draws == [] then None
    else Run(c, nodes, Step(c, nodes, s, draws[0]), draws[1..])
  }

  /** What run_sim reads of the configuration, as the results tables need it. */
  predicate SimConfig(c: ConfigValue, nodes: seq<Node>)
  {
    c.diceSides >= 1 && |nodes| >= 1 && c.iterations != 0 &&
    Count(c.numSnakes) <= MAX_SNAKES && Count(c.numLadders) <= MAX_LADDERS &&
    Count(c.numSnakes) <= |c.snakes| && Count(c.numLadders) <= |c.ladders|
  }

  /** The state before the first iteration: results tables copied from the configuration. */
  function Start(c: ConfigValue, nodes: seq<Node>): (s: SimState)
    requires SimConfig(c, nodes)
    ensures Pre(c, nodes, s)
  {
    SimState(0, -1, 0, 0, 0,
      InitialTable(c.snakes, c.numSnakes, MAX_SNAKES),
      InitialTable(c.ladders, c.numLadders, MAX_SNAKES))
  }

  /** run_sim: the results of all iterations, or None if the draws run out. */
  function Simulate(c: ConfigValue, nodes: seq<Node>, draws: seq<nat>): Option<SimResults>
    requires SimConfig(c, nodes)
  {
    match Run(c, nodes, Start(c, nodes), draws)
    case None => None
    case Some(t) => Some(SimResults(t.numOfRolls / c.iterations, t.overshots, -1,
      c.numLadders, c.numSnakes, t.snakes, t.ladders))
  }

  /** The table copy at the start of run_sim. */
  method CopyTable(src: array<Transition>, count: int) returns (table: array<Transition>)
    requires Count(count) <= src.Length && Count(count) <= MAX_SNAKES
    ensures fresh(table)
    ensures table[..] == InitialTable(src[..], count, MAX_SNAKES)
  {
    table := new Transition[MAX_SNAKES](_ => EMPTY_TRANSITION);
    var i := 0;
    while i < count
      invariant 0 <= i <= Count(count)
      invariant forall k :: 0 <= k < MAX_SNAKES ==> table[k] == if k < i then src[k] else EMPTY_TRANSITION
    {
      table[i] := src[i];
      i := i + 1;
    }
  }

  /** The usage counting loop of run_sim: increments the first entry starting at idx and stops. */
  method IncrementFirstUse(table: array<Transition>, count: int, idx: int)
    requires Count(count) <= table.Length
    modifies table
    ensures table[..] == BumpFirst(old(table[..]), count, idx)
  {
    var j := 0;
    while j < count
      invariant 0 <= j <= Count(count)
      invariant forall k :: 0 <= k < j ==> table[k].start - 1 != idx
      invariant table[..] == old(table[..])
    {
      if table[j].start - 1 == idx {
        table[j] := table[j].(timesUsed := table[j].timesUsed + 1);
        return;
      }
      j := j + 1;
    }
  }

  /**
   * One pass of run_sim's `do { ... } while (1)` body, rolling with `draw`:
   * `ended` is the `break` that ends the iteration; a retried roll returns
   * early, as the `continue` does.
   */
  method PlayPass(board: GameBoard, config: Config, snakes: array<Transition>, ladders: array<Transition>,
                  ghost iter: int, currentIdx: int, simSteps: int, numOfRolls: int, overshots: int, draw: nat)
    returns (currentIdx': int, simSteps': int, numOfRolls': int, overshots': int, ended: bool)
    requires board.Valid() && config.Valid() && snakes != ladders
    requires snakes.Length == MAX_SNAKES && ladders.Length == MAX_SNAKES
    requires Pre(config.Value(), board.fields[..],
      SimState(iter, currentIdx, simSteps, numOfRolls, overshots, snakes[..], ladders[..]))
    modifies snakes, ladders
    ensures Step(old(config.Value()), board.fields[..],
        SimState(iter, currentIdx, simSteps, numOfRolls, overshots, old(snakes[..]), old(ladders[..])), draw)
      == if ended then SimState(iter + 1, -1, 0, numOfRolls', overshots', snakes[..], ladders[..])
         else SimState(iter, currentIdx', simSteps', numOfRolls', overshots', snakes[..], ladders[..])
  {
    var numFields := board.rows * board.cols;
    currentIdx', simSteps', numOfRolls', overshots', ended := currentIdx, simSteps, numOfRolls, overshots, false;
    simSteps' := simSteps' + 1;
    var roll := RollDice(draw, config.diceSides);
    numOfRolls' := numOfRolls' + 1;
    if currentIdx' + roll >= numFields && config.allowOvershoot {
      // Clamp the roll so the piece lands exactly on the goal.
      roll := numFields - 1 - currentIdx';
      overshots' := overshots' + 1;
    } else if currentIdx' + roll >= numFields && !config.allowOvershoot {
      return;
    }
    currentIdx' := currentIdx' + roll;
    var current := board.fields[currentIdx'];
    if current.ft == Snake {
      IncrementFirstUse(snakes, config.numSnakes, currentIdx');
    } else if current.ft == Ladder {
      IncrementFirstUse(ladders, config.numLadders, currentIdx');
    }
    if currentIdx' == numFields - 1 || simSteps' > config.maxSimulationSteps {
      ended := true;
    }
  }

  lemma RunUnfold(c: ConfigValue, nodes: seq<Node>, s: SimState, draws: seq<nat>)
    requires Pre(c, nodes, s) && s.iter < c.iterations && draws != []
    ensures Run(c, nodes, s, draws) == Run(c, nodes, Step(c, nodes, s, draws[0]), draws[1..])
  {
  }

  /**
   * run_sim, with the values of rand() given as `draws`: None if they run
   * out before the last iteration ends, else the results of Simulate.
   */
  method RunSim(board: GameBoard, config: Config, draws: seq<nat>) returns (r: Option<SimResults>)
    requires board.Valid() && config.Valid()
    requires SimConfig(config.Value(), board.fields[..])
    ensures r == Simulate(config.Value(), board.fields[..], draws)
  {
    ghost var c := config.Value();
    ghost var nodes := board.fields[..];
    ghost var total := Run(c, nodes, Start(c, nodes), draws);
    var numOfRolls := 0;
    var overshots := 0;
    var snakes := CopyTable(config.snakes, config.numSnakes);
    var ladders := CopyTable(config.ladders, config.numLadders);
    var k := 0;
    var i := 0;
    while i < config.iterations
      invariant fresh(snakes) && fresh(ladders)
      invariant 0 <= k <= |draws| && numOfRolls == k
      invariant snakes.Length == MAX_SNAKES && ladders.Length == MAX_SNAKES
      invariant total == Run(c, nodes, SimState(i, -1, 0, numOfRolls, overshots, snakes[..], ladders[..]), draws[k..])
    {
      var currentIdx := -1;
      var simSteps := 0;
      while true
        invariant fresh(snakes) && fresh(ladders)
        invariant 0 <= k <= |draws| && numOfRolls == k
        invariant Pre(c, nodes, SimState(i, currentIdx, simSteps, numOfRolls, overshots, snakes[..], ladders[..]))
        invariant total == Run(c, nodes, SimState(i, currentIdx, simSteps, numOfRolls, overshots, snakes[..], ladders[..]), draws[k..])
        decreases |draws| - k
      {
        ghost var before := SimState(i, currentIdx, simSteps, numOfRolls, overshots, snakes[..], ladders[..]);
        if k == |draws| {
          // rand() has no more values to give.
          return None;
        }
        var draw := draws[k];
        assert draws[k..][1..] == draws[k + 1..];
        RunUnfold(c, nodes, before, draws[k..]);
        k := k + 1;
        var ended;
        currentIdx, simSteps, numOfRolls, overshots, ended :=
          PlayPass(board, config, snakes, ladders, i, currentIdx, simSteps, numOfRolls, overshots, draw);
        if ended {
          break;
        }
      }
      i := i + 1;
    }
    r := Some(SimResults(numOfRolls / config.iterations, overshots, -1,
      config.numLadders, config.numSnakes, snakes[..], ladders[..]));
  }
}
