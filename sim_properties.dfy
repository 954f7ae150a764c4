/**
 * What run_sim promises: where the piece can be, what an overshoot and a
 * retried roll do, which usage counter a landing bumps, when an iteration
 * ends, how many overshoot wins and rolls there can be, and that a run
 * with overshooting allowed always finishes within a known number of rolls.
 */
module SimProperties {
  import opened Wrappers
  import opened ConfigManager
  import opened Board
  import opened Simulation

  function Min(a: int, b: int): int
  {
    if a <= b then a else b
  }

  /** Between two passes the piece is off the board or on a field before the goal. */
  predicate InRange(nodes: seq<Node>, s: SimState)
  {
    -1 <= s.currentIdx <= |nodes| - 2
  }

  lemma StartInRange(c: ConfigValue, nodes: seq<Node>)
    requires SimConfig(c, nodes)
    ensures InRange(nodes, Start(c, nodes))
    ensures Start(c, nodes).snakes[..Count(c.numSnakes)] == c.snakes[..Count(c.numSnakes)]
    ensures Start(c, nodes).ladders[..Count(c.numLadders)] == c.ladders[..Count(c.numLadders)]
  {
  }

  /** A pass keeps the piece in range, so the board access of the next pass is in bounds. */
  lemma StepInRange(c: ConfigValue, nodes: seq<Node>, s: SimState, draw: nat)
    requires Pre(c, nodes, s) && InRange(nodes, s)
    ensures InRange(nodes, Step(c, nodes, s, draw))
  {
  }

  /** With overshooting allowed, an over-long roll lands exactly on the goal, counts one overshoot win and ends the iteration. */
  lemma OvershootWins(c: ConfigValue, nodes: seq<Node>, s: SimState, draw: nat)
    requires Pre(c, nodes, s) && c.allowOvershoot
    requires s.currentIdx + RollDice(draw, c.diceSides) >= |nodes|
    ensures LandingField(nodes, s, RollDice(draw, c.diceSides)) == |nodes| - 1
    ensures var r := Step(c, nodes, s, draw);
      r.iter == s.iter + 1 && r.currentIdx == -1 && r.simSteps == 0 &&
      r.overshots == s.overshots + 1 && r.numOfRolls == s.numOfRolls + 1
  {
  }

  /** With overshooting disallowed, an over-long roll leaves the piece where it is; only the pass and roll counters move. */
  lemma RetryKeepsPosition(c: ConfigValue, nodes: seq<Node>, s: SimState, draw: nat)
    requires Pre(c, nodes, s) && !c.allowOvershoot
    requires s.currentIdx + RollDice(draw, c.diceSides) >= |nodes|
    ensures Step(c, nodes, s, draw) == s.(simSteps := s.simSteps + 1, numOfRolls := s.numOfRolls + 1)
  {
  }

  /**
   * A roll that stays on the board moves the piece by exactly the roll; a
   * snake or ladder there is counted but does not move the piece; no
   * overshoot is counted.
   */
  lemma RegularMove(c: ConfigValue, nodes: seq<Node>, s: SimState, draw: nat)
    requires Pre(c, nodes, s)
    requires s.currentIdx + RollDice(draw, c.diceSides) < |nodes|
    ensures var idx := s.currentIdx + RollDice(draw, c.diceSides);
      var r := Step(c, nodes, s, draw);
      r.overshots == s.overshots &&
      r.snakes == (if nodes[idx].ft == Snake then BumpFirst(s.snakes, c.numSnakes, idx) else s.snakes) &&
      r.ladders == (if nodes[idx].ft == Ladder then BumpFirst(s.ladders, c.numLadders, idx) else s.ladders) &&
      (r.iter == s.iter ==> r.currentIdx == idx && r.simSteps == s.simSteps + 1)
  {
  }

  /** An iteration ends exactly when a pass that is not retried reaches the goal or exceeds the step limit. */
  lemma IterationEnds(c: ConfigValue, nodes: seq<Node>, s: SimState, draw: nat)
    requires Pre(c, nodes, s)
    ensures var roll := RollDice(draw, c.diceSides);
      var r := Step(c, nodes, s, draw);
      (r.iter == s.iter + 1 <==>
        !Retry(c, nodes, s, roll) &&
        (LandingField(nodes, s, roll) == |nodes| - 1 || s.simSteps + 1 > c.maxSimulationSteps)) &&
      (r.iter == s.iter + 1 ==> r.currentIdx == -1 && r.simSteps == 0)
  {
  }

  /** The start fields of the first `count` entries of two tables agree. */
  predicate SameStarts(ts: seq<Transition>, us: seq<Transition>, count: nat)
    requires count <= |ts| && count <= |us|
  {
    forall k :: 0 <= k < count ==> ts[k].start == us[k].start
  }

  lemma BumpFirstKeepsStarts(ts: seq<Transition>, count: int, idx: int, us: seq<Transition>)
    requires Count(count) <= |ts| && Count(count) <= |us|
    requires SameStarts(ts, us, Count(count))
    ensures SameStarts(BumpFirst(ts, count, idx), us, Count(count))
  {
  }

  /**
   * On a board built from the same configuration, every landing on a SNAKE
   * or LADDER field finds a table entry to count.
   */
  lemma LandingIsCounted(c: ConfigValue, i: int, snakes: seq<Transition>, ladders: seq<Transition>)
    requires DeclaredFit(c) && 0 <= i < c.rows * c.cols
    requires Count(c.numSnakes) <= |snakes| && SameStarts(snakes, c.snakes, Count(c.numSnakes))
    requires Count(c.numLadders) <= |ladders| && SameStarts(ladders, c.ladders, Count(c.numLadders))
    ensures BoardNode(c, i).ft == Snake ==> FirstStart(snakes, c.numSnakes, i).Some?
    ensures BoardNode(c, i).ft == Ladder ==> FirstStart(ladders, c.numLadders, i).Some?
  {
    if BoardNode(c, i).ft == Snake {
      var j :| 0 <= j < |DeclaredSnakes(c)| && DeclaredSnakes(c)[j].start - 1 == i;
      assert snakes[j].start - 1 == i;
    }
    if BoardNode(c, i).ft == Ladder {
      var j :| 0 <= j < |DeclaredLadders(c)| && DeclaredLadders(c)[j].start - 1 == i;
      assert ladders[j].start - 1 == i;
    }
  }

  /** The results tables still start where the configuration's declared entries start. */
  predicate TablesMatch(c: ConfigValue, s: SimState)
  {
    Count(c.numSnakes) <= |s.snakes| && Count(c.numSnakes) <= |c.snakes| &&
    Count(c.numLadders) <= |s.ladders| && Count(c.numLadders) <= |c.ladders| &&
    SameStarts(s.snakes, c.snakes, Count(c.numSnakes)) &&
    SameStarts(s.ladders, c.ladders, Count(c.numLadders))
  }

  lemma StartMatches(c: ConfigValue, nodes: seq<Node>)
    requires SimConfig(c, nodes)
    ensures TablesMatch(c, Start(c, nodes))
  {
    StartInRange(c, nodes);
  }

  /** Usage counting during a pass never moves where an entry starts. */
  lemma StepKeepsMatch(c: ConfigValue, nodes: seq<Node>, s: SimState, draw: nat)
    requires Pre(c, nodes, s) && TablesMatch(c, s)
    ensures TablesMatch(c, Step(c, nodes, s, draw))
  {
    BumpFirstKeepsStarts(s.snakes, c.numSnakes, LandingField(nodes, s, RollDice(draw, c.diceSides)), c.snakes);
    BumpFirstKeepsStarts(s.ladders, c.numLadders, LandingField(nodes, s, RollDice(draw, c.diceSides)), c.ladders);
  }

  /** The tables match the configuration in every state the simulation reaches, the final one included. */
  lemma {:induction false} RunKeepsMatch(c: ConfigValue, nodes: seq<Node>, s: SimState, draws: seq<nat>)
    requires Pre(c, nodes, s) && TablesMatch(c, s)
    requires Run(c, nodes, s, draws).Some?
    ensures TablesMatch(c, Run(c, nodes, s, draws).value)
    decreases |draws|
  {
    if s.iter < c.iterations {
      StepKeepsMatch(c, nodes, s, draws[0]);
      RunKeepsMatch(c, nodes, Step(c, nodes, s, draws[0]), draws[1..]);
    }
  }

  /** The board run_sim plays on was built from the same configuration. */
  predicate BuiltFrom(c: ConfigValue, nodes: seq<Node>)
  {
    DeclaredFit(c) && |nodes| == c.rows * c.cols &&
    forall i :: 0 <= i < |nodes| ==> nodes[i] == BoardNode(c, i)
  }

  /**
   * On a board built from the configuration, a pass that lands on a SNAKE
   * or LADDER field adds one use to the first table entry starting there.
   */
  lemma StepCountsLanding(c: ConfigValue, nodes: seq<Node>, s: SimState, draw: nat)
    requires Pre(c, nodes, s) && TablesMatch(c, s) && BuiltFrom(c, nodes)
    requires !Retry(c, nodes, s, RollDice(draw, c.diceSides))
    ensures var idx := LandingField(nodes, s, RollDice(draw, c.diceSides));
      nodes[idx].ft == Snake ==> FirstStart(s.snakes, c.numSnakes, idx).Some?
    ensures var idx := LandingField(nodes, s, RollDice(draw, c.diceSides));
      nodes[idx].ft == Ladder ==> FirstStart(s.ladders, c.numLadders, idx).Some?
    ensures var idx := LandingField(nodes, s, RollDice(draw, c.diceSides));
      var r := Step(c, nodes, s, draw);
      forall j :: FirstStart(s.snakes, c.numSnakes, idx) == Some(j) && nodes[idx].ft == Snake ==>
        r.snakes[j].timesUsed == s.snakes[j].timesUsed + 1
    ensures var idx := LandingField(nodes, s, RollDice(draw, c.diceSides));
      var r := Step(c, nodes, s, draw);
      forall j :: FirstStart(s.ladders, c.numLadders, idx) == Some(j) && nodes[idx].ft == Ladder ==>
        r.ladders[j].timesUsed == s.ladders[j].timesUsed + 1
  {
    var idx := LandingField(nodes, s, RollDice(draw, c.diceSides));
    LandingIsCounted(c, idx, s.snakes, s.ladders);
  }

  /** A pass counts an overshoot win only when it ends the iteration. */
  lemma StepOvershots(c: ConfigValue, nodes: seq<Node>, s: SimState, draw: nat)
    requires Pre(c, nodes, s)
    ensures var r := Step(c, nodes, s, draw);
      s.overshots <= r.overshots && r.overshots - s.overshots <= r.iter - s.iter
  {
  }

  /** A finished run stops right at the last iteration and has at most one overshoot win per iteration. */
  lemma {:induction false} RunOvershots(c: ConfigValue, nodes: seq<Node>, s: SimState, draws: seq<nat>)
    requires Pre(c, nodes, s)
    requires Run(c, nodes, s, draws).Some?
    ensures var t := Run(c, nodes, s, draws).value;
      t.iter == (if s.iter >= c.iterations then s.iter else c.iterations) &&
      s.overshots <= t.overshots && t.overshots - s.overshots <= t.iter - s.iter
    decreases |draws|
  {
    if s.iter < c.iterations {
      StepOvershots(c, nodes, s, draws[0]);
      RunOvershots(c, nodes, Step(c, nodes, s, draws[0]), draws[1..]);
    }
  }

  /** run_sim counts between zero and `iterations` overshoot wins. */
  lemma SimulateOvershots(c: ConfigValue, nodes: seq<Node>, draws: seq<nat>)
    requires SimConfig(c, nodes)
    requires Simulate(c, nodes, draws).Some?
    ensures 0 <= Simulate(c, nodes, draws).value.overshots <= Count(c.iterations)
  {
    RunOvershots(c, nodes, Start(c, nodes), draws);
  }

  /**
   * Every pass rolls once: a finished run has used exactly its first
   * `numOfRolls` draws, and extra draws after them change nothing.
   */
  lemma {:induction false} RunConsumes(c: ConfigValue, nodes: seq<Node>, s: SimState, draws: seq<nat>, more: seq<nat>)
    requires Pre(c, nodes, s)
    requires Run(c, nodes, s, draws).Some?
    ensures var t := Run(c, nodes, s, draws).value;
      s.numOfRolls <= t.numOfRolls <= s.numOfRolls + |draws| &&
      Run(c, nodes, s, draws[..t.numOfRolls - s.numOfRolls]) == Some(t) &&
      Run(c, nodes, s, draws + more) == Some(t)
    decreases |draws|
  {
    if s.iter < c.iterations {
      var s' := Step(c, nodes, s, draws[0]);
      RunConsumes(c, nodes, s', draws[1..], more);
      var t := Run(c, nodes, s, draws).value;
      var k := t.numOfRolls - s.numOfRolls;
      assert draws[..k][0] == draws[0];
      assert draws[..k][1..] == draws[1..][..k - 1];
      assert (draws + more)[0] == draws[0];
      assert (draws + more)[1..] == draws[1..] + more;
    }
  }

  /** avg_rolls is the number of rolls made, retried ones included, divided by the iterations. */
  lemma SimulateAverage(c: ConfigValue, nodes: seq<Node>, draws: seq<nat>)
    requires SimConfig(c, nodes) && c.iterations >= 1
    requires Simulate(c, nodes, draws).Some?
    ensures var res := Simulate(c, nodes, draws).value;
      var t := Run(c, nodes, Start(c, nodes), draws).value;
      0 <= t.numOfRolls <= |draws| && res.avgRolls == t.numOfRolls / c.iterations &&
      Simulate(c, nodes, draws[..t.numOfRolls]) == Some(res) &&
      0 <= res.avgRolls * c.iterations <= |draws|
  {
    RunConsumes(c, nodes, Start(c, nodes), draws, []);
    var t := Run(c, nodes, Start(c, nodes), draws).value;
    DivTimes(t.numOfRolls, c.iterations);
  }

  lemma DivTimes(a: int, b: int)
    requires a >= 0 && b >= 1
    ensures 0 <= (a / b) * b <= a
  {
    assert a == (a / b) * b + a % b;
  }

  lemma NeedPositive(c: ConfigValue, nodes: seq<Node>, s: SimState)
    requires InGame(c, nodes, s) && s.iter < c.iterations && |nodes| >= 1
    ensures Need(c, nodes, s) >= 1
  {
    var left := c.iterations - s.iter - 1;
    var m := PerIteration(c, nodes);
    assert left * m >= 0 by {
      assert left >= 0;
      assert m >= 1;
    }
  }

  /** The state of a game in progress when overshooting is allowed and the step limit is not negative. */
  predicate InGame(c: ConfigValue, nodes: seq<Node>, s: SimState)
  {
    InRange(nodes, s) && 0 <= s.simSteps <= c.maxSimulationSteps
  }

  /** The most passes one iteration takes: it ends on the goal or past the step limit. */
  function PerIteration(c: ConfigValue, nodes: seq<Node>): int
  {
    Min(|nodes|, c.maxSimulationSteps + 1)
  }

  /** The most passes left before the current iteration ends. */
  function Budget(c: ConfigValue, nodes: seq<Node>, s: SimState): int
  {
    Min(|nodes| - 1 - s.currentIdx, c.maxSimulationSteps + 1 - s.simSteps)
  }

  /** The most passes left before the run ends. */
  function Need(c: ConfigValue, nodes: seq<Node>, s: SimState): int
  {
    if s.iter >= c.iterations then 0
    else Budget(c, nodes, s) + (c.iterations - s.iter - 1) * PerIteration(c, nodes)
  }

  /** With overshooting allowed a pass always moves the piece forward, so it uses up one of the passes left. */
  lemma StepNeed(c: ConfigValue, nodes: seq<Node>, s: SimState, draw: nat)
    requires Pre(c, nodes, s) && c.allowOvershoot && c.maxSimulationSteps >= 0
    requires InGame(c, nodes, s) && s.iter < c.iterations
    ensures var r := Step(c, nodes, s, draw);
      InGame(c, nodes, r) && (r.iter == s.iter ==> r.currentIdx > s.currentIdx) &&
      Need(c, nodes, r) <= Need(c, nodes, s) - 1
  {
    var r := Step(c, nodes, s, draw);
    var m := PerIteration(c, nodes);
    var left := c.iterations - s.iter - 1;
    if r.iter == s.iter + 1 && r.iter < c.iterations {
      assert Budget(c, nodes, r) == m;
      assert (left - 1) * m + m == left * m;
    }
  }

  lemma {:induction false} RunCompletes(c: ConfigValue, nodes: seq<Node>, s: SimState, draws: seq<nat>)
    requires Pre(c, nodes, s) && c.allowOvershoot && c.maxSimulationSteps >= 0
    requires InGame(c, nodes, s)
    requires |draws| >= Need(c, nodes, s)
    ensures Run(c, nodes, s, draws).Some?
    decreases |draws|
  {
    if s.iter < c.iterations {
      NeedPositive(c, nodes, s);
      StepNeed(c, nodes, s, draws[0]);
      RunCompletes(c, nodes, Step(c, nodes, s, draws[0]), draws[1..]);
    }
  }

  /**
   * With overshooting allowed, each iteration takes at most
   * min(numFields, maxSimulationSteps + 1) rolls, so that many rolls per
   * iteration always suffice for run_sim to return.
   */
  lemma SimulateCompletes(c: ConfigValue, nodes: seq<Node>, draws: seq<nat>)
    requires SimConfig(c, nodes) && c.allowOvershoot && c.maxSimulationSteps >= 0 && c.iterations >= 1
    requires |draws| >= c.iterations * PerIteration(c, nodes)
    ensures Simulate(c, nodes, draws).Some?
  {
    var m := PerIteration(c, nodes);
    assert (c.iterations - 1) * m + m == c.iterations * m;
    RunCompletes(c, nodes, Start(c, nodes), draws);
  }
}
