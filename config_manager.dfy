/**
 * Configuration of the simulator: the transition tables, the endpoint
 * conflict check, and the line-by-line interpreter of the `KEY=value`
 * configuration file.
 *
 * The file is given as its sequence of lines (each as `fgets` returns it,
 * possibly ending in '\n'), or None when it cannot be opened.
 */
module ConfigManager {
  import opened Wrappers
  import opened Text

  const MAX_SNAKES: nat := 100
  const MAX_LADDERS: nat := 100

  /** A snake or ladder: 1-based start and end fields plus a usage counter. */
  datatype Transition = Transition(start: int, end: int, timesUsed: int)

  /** The abstract value of a Config object; the tables are the whole arrays. */
  datatype ConfigValue = ConfigValue(
    iterations: int,
    maxSimulationSteps: int,
    rows: int,
    cols: int,
    diceSides: int,
    allowOvershoot: bool,
    numSnakes: int,
    snakes: seq<Transition>,
    numLadders: int,
    ladders: seq<Transition>)

  class Config {
    var iterations: int
    var maxSimulationSteps: int
    var rows: int
    var cols: int
    var diceSides: int
    var allowOvershoot: bool
    /** Declared (not accepted) number of snakes. */
    var numSnakes: int
    var snakes: array<Transition>
    /** Declared (not accepted) number of ladders. */
    var numLadders: int
    var ladders: array<Transition>

    ghost predicate Valid()
      reads this
    {
      snakes.Length == MAX_SNAKES && ladders.Length == MAX_LADDERS && snakes != ladders
    }

    ghost function Value(): ConfigValue
      reads this, snakes, ladders
    {
      ConfigValue(iterations, maxSimulationSteps, rows, cols, diceSides, allowOvershoot,
                  numSnakes, snakes[..], numLadders, ladders[..])
    }

    /** A zero-filled configuration, as left by a zeroing allocator. */
    constructor ()
      ensures Valid() && fresh(snakes) && fresh(ladders)
      ensures Value() == ConfigValue(0, 0, 0, 0, 0, false, 0, seq(MAX_SNAKES, _ => Transition(0, 0, 0)),
                                     0, seq(MAX_LADDERS, _ => Transition(0, 0, 0)))
    {
      iterations, maxSimulationSteps, rows, cols, diceSides := 0, 0, 0, 0, 0;
      allowOvershoot := false;
      numSnakes, numLadders := 0, 0;
      snakes := new Transition[MAX_SNAKES](_ => Transition(0, 0, 0));
      ladders := new Transition[MAX_LADDERS](_ => Transition(0, 0, 0));
    }
  }

  // ---------------------------------------------------------------------
  // Endpoint conflicts
  // ---------------------------------------------------------------------

  /** `t` shares an endpoint with the proposed pair in one of the four ways the source checks. */
  predicate Clashes(t: Transition, start: int, end: int)
  {
    t.start == start || t.end == end || t.start == end || t.end == start
  }

  /** Some accepted snake or ladder clashes with the proposed pair. */
  predicate Conflicts(start: int, end: int, snakes: seq<Transition>, ladders: seq<Transition>)
  {
    (exists i :: 0 <= i < |snakes| && Clashes(snakes[i], start, end)) ||
    (exists i :: 0 <= i < |ladders| && Clashes(ladders[i], start, end))
  }

  /** Two transitions share no start or end field. */
  predicate Apart(t: Transition, u: Transition)
  {
    !Clashes(u, t.start, t.end)
  }

  /** Within a table: no self-loops and no two entries touching the same field. */
  predicate DisjointTable(ts: seq<Transition>)
  {
    (forall i :: 0 <= i < |ts| ==> ts[i].start != ts[i].end) &&
    (forall i, j :: 0 <= i < j < |ts| ==> Apart(ts[i], ts[j]))
  }

  /** No field is the start or end of more than one transition, over both tables. */
  predicate DisjointTables(snakes: seq<Transition>, ladders: seq<Transition>)
  {
    DisjointTable(snakes) && DisjointTable(ladders) &&
    forall i, j :: 0 <= i < |snakes| && 0 <= j < |ladders| ==> Apart(snakes[i], ladders[j])
  }

  /**
   * check_for_existence: scans the first `snakeIdx` snakes, then the first
   * `ladderIdx` ladders, returning 1 on the first clash and 0 otherwise.
   */
  method CheckForExistence(start: int, end: int, snakeIdx: nat, ladderIdx: nat, config: Config) returns (r: int)
    requires config.Valid()
    requires snakeIdx <= MAX_SNAKES && ladderIdx <= MAX_LADDERS
    ensures r == 0 || r == 1
    ensures r == 1 <==> Conflicts(start, end, config.snakes[..snakeIdx], config.ladders[..ladderIdx])
  {
    for i := 0 to snakeIdx
      invariant forall k :: 0 <= k < i ==> !Clashes(config.snakes[k], start, end)
    {
      var t := config.snakes[i];
      if t.start == start || t.end == end || t.start == end || t.end == start {
        assert config.snakes[..snakeIdx][i] == t;
        return 1;
      }
    }
    for i := 0 to ladderIdx
      invariant forall k :: 0 <= k < i ==> !Clashes(config.ladders[k], start, end)
    {
      var t := config.ladders[i];
      if t.start == start || t.end == end || t.start == end || t.end == start {
        assert config.ladders[..ladderIdx][i] == t;
        return 1;
      }
    }
    return 0;
  }

  /** A transition that passes the conflict check keeps the tables disjoint when added to either. */
  lemma {:induction false} AddKeepsDisjoint(snakes: seq<Transition>, ladders: seq<Transition>, t: Transition, toSnakes: bool)
    requires DisjointTables(snakes, ladders)
    requires t.start != t.end
    requires !Conflicts(t.start, t.end, snakes, ladders)
    ensures toSnakes ==> DisjointTables(snakes + [t], ladders)
    ensures !toSnakes ==> DisjointTables(snakes, ladders + [t])
  {
    forall i | 0 <= i < |snakes| ensures Apart(snakes[i], t) {
      assert !Clashes(snakes[i], t.start, t.end);
    }
    forall i | 0 <= i < |ladders| ensures Apart(ladders[i], t) && Apart(t, ladders[i]) {
      assert !Clashes(ladders[i], t.start, t.end);
    }
    if toSnakes {
      var s := snakes + [t];
      forall i, j | 0 <= i < j < |s| ensures Apart(s[i], s[j]) {
        if j == |snakes| {
          assert !Clashes(snakes[i], t.start, t.end);
        }
      }
      forall i, j | 0 <= i < |s| && 0 <= j < |ladders| ensures Apart(s[i], ladders[j]) {
        if i == |snakes| {
          assert !Clashes(ladders[j], t.start, t.end);
        }
      }
    } else {
      var l := ladders + [t];
      forall i, j | 0 <= i < j < |l| ensures Apart(l[i], l[j]) {
        if j == |ladders| {
          assert !Clashes(ladders[i], t.start, t.end);
        }
      }
    }
  }

  // ---------------------------------------------------------------------
  // The line interpreter, as functions
  // ---------------------------------------------------------------------

  /** Which table `a:b` lines currently go to (the parsing_snakes / parsing_ladders flags). */
  datatype Section = NoSection | SnakeSection | LadderSection

  /** The configuration plus the parser's running locals. */
  datatype ParseState = ParseState(cfg: ConfigValue, section: Section, snakeIdx: nat, ladderIdx: nat)

  /** The final status (0 success, 1 error) and the state the parser stopped in. */
  datatype ParseOutcome = ParseOutcome(status: int, st: ParseState)

  predicate WellFormed(st: ParseState)
  {
    |st.cfg.snakes| == MAX_SNAKES && |st.cfg.ladders| == MAX_LADDERS &&
    st.snakeIdx <= MAX_SNAKES && st.ladderIdx <= MAX_LADDERS
  }

  function StoredSnakes(st: ParseState): seq<Transition>
    requires WellFormed(st)
  {
    st.cfg.snakes[..st.snakeIdx]
  }

  function StoredLadders(st: ParseState): seq<Transition>
    requires WellFormed(st)
  {
    st.cfg.ladders[..st.ladderIdx]
  }

  /** The defaults written before the file is opened; the tables and counts are left as they were. */
  function WithDefaults(c: ConfigValue): ConfigValue
  {
    c.(iterations := 100, rows := 10, cols := 10, maxSimulationSteps := 1000,
       allowOvershoot := true, diceSides := 6)
  }

  /** Comments and the newline removed. */
  function StripLine(line: string): (r: string)
    ensures |r| <= |line| && line[..|r|] == r
    ensures '#' !in r && '\n' !in r
    ensures r == line || line[|r|] == '#' || line[|r|] == '\n'
  {
    CutAt(CutAt(line, '#'), '\n')
  }

  /** The side conditions an `a:b` line must meet to be stored, in the current state. */
  predicate Acceptable(st: ParseState, a: int, b: int)
    requires WellFormed(st)
  {
    var n := st.cfg.cols * st.cfg.rows;
    a != b && a != n &&
    !Conflicts(a, b, StoredSnakes(st), StoredLadders(st)) &&
    1 <= a <= n && 1 <= b <= n &&
    (st.section == SnakeSection ==> a > b) &&
    (st.section == LadderSection ==> a < b)
  }

  /** The table of the current section still has room for one more entry. */
  predicate HasRoom(st: ParseState)
  {
    match st.section
    case NoSection => false
    case SnakeSection => st.snakeIdx < st.cfg.numSnakes && st.snakeIdx < MAX_SNAKES
    case LadderSection => st.ladderIdx < st.cfg.numLadders && st.ladderIdx < MAX_LADDERS
  }

  /** The rules for an `a:b` line, tried in the source's order. */
  function AddTransition(st: ParseState, a: int, b: int): (r: ParseState)
    requires WellFormed(st)
    ensures WellFormed(r)
    ensures r.section == st.section
    ensures r.cfg.(snakes := st.cfg.snakes, ladders := st.cfg.ladders) == st.cfg
    ensures r != st <==> Acceptable(st, a, b) && HasRoom(st)
    ensures r != st && st.section == SnakeSection ==>
      r.snakeIdx == st.snakeIdx + 1 && r.ladderIdx == st.ladderIdx && r.cfg.ladders == st.cfg.ladders &&
      r.cfg.snakes == st.cfg.snakes[st.snakeIdx := Transition(a, b, 0)]
    ensures r != st && st.section == LadderSection ==>
      r.ladderIdx == st.ladderIdx + 1 && r.snakeIdx == st.snakeIdx && r.cfg.snakes == st.cfg.snakes &&
      r.cfg.ladders == st.cfg.ladders[st.ladderIdx := Transition(a, b, 0)]
  {
    var c := st.cfg;
    var n := c.cols * c.rows;
    if a == b then st
    else if a == n then st
    else if Conflicts(a, b, StoredSnakes(st), StoredLadders(st)) then st
    else if a <= 0 || a > n || b <= 0 || b > n then st
    else if st.section == SnakeSection && a < b then st
    else if st.section == LadderSection && a > b then st
    else if st.section == SnakeSection && st.snakeIdx < c.numSnakes && st.snakeIdx < MAX_SNAKES then
      st.(cfg := c.(snakes := c.snakes[st.snakeIdx := Transition(a, b, 0)]), snakeIdx := st.snakeIdx + 1)
    else if st.section == LadderSection && st.ladderIdx < c.numLadders && st.ladderIdx < MAX_LADDERS then
      st.(cfg := c.(ladders := c.ladders[st.ladderIdx := Transition(a, b, 0)]), ladderIdx := st.ladderIdx + 1)
    else st
  }

  /** What a line asks for, once comments, the newline and leading whitespace are gone. */
  datatype Directive =
    | Iterations(v: int)
    | MaxSimSteps(v: int)
    | Rows(v: int)
    | Cols(v: int)
    | Dice(v: int)
    | AllowOvershoot(on: bool)
    | SnakesHeader(v: int)
    | LaddersHeader(v: int)
    | Pair(a: int, b: int)
    | Ignored

  /** Comments, the newline and (for non-empty lines) leading whitespace removed, then dispatched. */
  function Classify(line: string): Directive
  {
    var stripped := StripLine(line);
    if stripped == [] then Ignored else ClassifyText(TrimLeft(stripped))
  }

  /** The `strncmp` chain that dispatches on the key, then `sscanf("%d:%d")`. */
  function ClassifyText(text: string): Directive
  {
    if StartsWith(text, "ITERATIONS=") then Iterations(Atoi(text[11..]))
    else if StartsWith(text, "MAXSIMSTEPS=") then MaxSimSteps(Atoi(text[12..]))
    else if StartsWith(text, "ROWS=") then Rows(Atoi(text[5..]))
    else if StartsWith(text, "COLS=") then Cols(Atoi(text[5..]))
    else if StartsWith(text, "DICE=") then Dice(Atoi(text[5..]))
    else if StartsWith(text, "ALLOW_OVERSHOOT=") then AllowOvershoot(StartsWith(text[16..], "true"))
    else if StartsWith(text, "SNAKES=") then SnakesHeader(Atoi(text[7..]))
    else if StartsWith(text, "LADDERS=") then LaddersHeader(Atoi(text[8..]))
    else
      match ScanPair(text)
      case None => Ignored
      case Some((a, b)) => Pair(a, b)
  }

  /**
   * The directives that make parse_config_file return 1: a non-positive
   * iteration count or step limit, a negative snake or ladder count.
   */
  predicate Fatal(d: Directive)
  {
    (d.Iterations? && d.v <= 0) || (d.MaxSimSteps? && d.v <= 0) ||
    (d.SnakesHeader? && d.v < 0) || (d.LaddersHeader? && d.v < 0)
  }

  /** The effect of one directive; None is the early `return 1`. */
  function Apply(st: ParseState, d: Directive): (r: Option<ParseState>)
    requires WellFormed(st)
    ensures r.None? <==> Fatal(d)
    ensures r.Some? ==> WellFormed(r.value)
    ensures r.Some? && !d.Pair? ==> r.value.snakeIdx == st.snakeIdx && r.value.ladderIdx == st.ladderIdx
    ensures r.Some? && !d.SnakesHeader? ==> r.value.cfg.numSnakes == st.cfg.numSnakes
    ensures r.Some? && !d.LaddersHeader? ==> r.value.cfg.numLadders == st.cfg.numLadders
  {
    var c := st.cfg;
    match d
    case Iterations(v) => if v <= 0 then None else Some(st.(cfg := c.(iterations := v)))
    case MaxSimSteps(v) => if v <= 0 then None else Some(st.(cfg := c.(maxSimulationSteps := v)))
    case Rows(v) => Some(st.(cfg := c.(rows := if v <= 0 then 10 else v)))
    case Cols(v) => Some(st.(cfg := c.(cols := if v <= 0 then 10 else v)))
    case Dice(v) => Some(st.(cfg := c.(diceSides := if v <= 1 then 6 else v)))
    case AllowOvershoot(on) => Some(st.(cfg := c.(allowOvershoot := on)))
    case SnakesHeader(v) => if v < 0 then None else Some(st.(cfg := c.(numSnakes := v), section := SnakeSection))
    case LaddersHeader(v) => if v < 0 then None else Some(st.(cfg := c.(numLadders := v), section := LadderSection))
    case Pair(a, b) => Some(AddTransition(st, a, b))
    case Ignored => Some(st)
  }

  /** One line of the file; None is the early `return 1`. */
  function ProcessLine(st: ParseState, line: string): (r: Option<ParseState>)
    requires WellFormed(st)
    ensures r.None? <==> Fatal(Classify(line))
    ensures r.Some? ==> WellFormed(r.value)
  {
    Apply(st, Classify(line))
  }

  /** The `while (fgets(...))` loop: lines in order until the end or the first error. */
  function ParseLines(st: ParseState, lines: seq<string>): ParseOutcome
    requires WellFormed(st)
    decreases |lines|
  {
    if lines == [] then ParseOutcome(0, st)
    else
      match ProcessLine(st, lines[0])
      case None => ParseOutcome(1, st)
      case Some(next) => ParseLines(next, lines[1..])
  }

  function InitialState(c0: ConfigValue): ParseState
  {
    ParseState(WithDefaults(c0), NoSection, 0, 0)
  }

  /** parse_config_file, starting from the caller's configuration `c0`. */
  function Parsed(file: Option<seq<string>>, c0: ConfigValue): ParseOutcome
    requires |c0.snakes| == MAX_SNAKES && |c0.ladders| == MAX_LADDERS
  {
    match file
    case None => ParseOutcome(1, InitialState(c0))
    case Some(lines) => ParseLines(InitialState(c0), lines)
  }

  // ---------------------------------------------------------------------
  // The line interpreter, as the in-place method
  // ---------------------------------------------------------------------

  /** The body of the loop for one `a:b` pair, writing into the config's arrays. */
  method StoreTransition(config: Config, section: Section, snakeIdx: nat, ladderIdx: nat, start: int, end: int)
    returns (snakeIdx': nat, ladderIdx': nat)
    requires config.Valid() && snakeIdx <= MAX_SNAKES && ladderIdx <= MAX_LADDERS
    modifies config.snakes, config.ladders
    ensures var st := AddTransition(ParseState(old(config.Value()), section, snakeIdx, ladderIdx), start, end);
      config.Value() == st.cfg && snakeIdx' == st.snakeIdx && ladderIdx' == st.ladderIdx
  {
    ghost var st := ParseState(config.Value(), section, snakeIdx, ladderIdx);
    snakeIdx', ladderIdx' := snakeIdx, ladderIdx;
    var n := config.cols * config.rows;
    if start == end {
    } else if start == n {
    } else {
      var conflict := CheckForExistence(start, end, snakeIdx, ladderIdx, config);
      if conflict == 1 {
      } else if start <= 0 || start > n || end <= 0 || end > n {
      } else if section == SnakeSection && start < end {
      } else if section == LadderSection && start > end {
      } else if section == SnakeSection && snakeIdx < config.numSnakes && snakeIdx < MAX_SNAKES {
        config.snakes[snakeIdx] := Transition(start, end, 0);
        snakeIdx' := snakeIdx + 1;
      } else if section == LadderSection && ladderIdx < config.numLadders && ladderIdx < MAX_LADDERS {
        config.ladders[ladderIdx] := Transition(start, end, 0);
        ladderIdx' := ladderIdx + 1;
      }
    }
  }

  /** One pass of the loop, for the line's directive; `ok` is false for the early `return 1`. */
  method ApplyDirective(config: Config, section: Section, snakeIdx: nat, ladderIdx: nat, d: Directive)
    returns (ok: bool, section': Section, snakeIdx': nat, ladderIdx': nat)
    requires config.Valid() && snakeIdx <= MAX_SNAKES && ladderIdx <= MAX_LADDERS
    modifies config, config.snakes, config.ladders
    ensures config.Valid() && config.snakes == old(config.snakes) && config.ladders == old(config.ladders)
    ensures var r := Apply(ParseState(old(config.Value()), section, snakeIdx, ladderIdx), d);
      ok == r.Some? &&
      (ok ==> ParseState(config.Value(), section', snakeIdx', ladderIdx') == r.value) &&
      (!ok ==> config.Value() == old(config.Value()))
  {
    section', snakeIdx', ladderIdx' := section, snakeIdx, ladderIdx;
    ok := true;
    match d
    case Iterations(iterations) =>
      if iterations <= 0 {
        ok := false;
      } else {
        config.iterations := iterations;
      }
    case MaxSimSteps(maxSimulationSteps) =>
      if maxSimulationSteps <= 0 {
        ok := false;
      } else {
        config.maxSimulationSteps := maxSimulationSteps;
      }
    case Rows(rows) =>
      config.rows := if rows <= 0 then 10 else rows;
    case Cols(cols) =>
      config.cols := if cols <= 0 then 10 else cols;
    case Dice(diceSides) =>
      config.diceSides := if diceSides <= 1 then 6 else diceSides;
    case AllowOvershoot(on) =>
      config.allowOvershoot := on;
    case SnakesHeader(numSnakes) =>
      if numSnakes < 0 {
        ok := false;
      } else {
        config.numSnakes := numSnakes;
        section' := SnakeSection;
      }
    case LaddersHeader(numLadders) =>
      if numLadders < 0 {
        ok := false;
      } else {
        config.numLadders := numLadders;
        section' := LadderSection;
      }
    case Pair(start, end) =>
      snakeIdx', ladderIdx' := StoreTransition(config, section, snakeIdx, ladderIdx, start, end);
    case Ignored =>
  }

  /**
   * parse_config_file: writes the defaults, then interprets the lines in
   * order; returns 1 if the file is missing or a line is fatal, else 0.
   */
  method ParseConfigFile(file: Option<seq<string>>, config: Config) returns (status: int)
    requires config.Valid()
    modifies config, config.snakes, config.ladders
    ensures config.Valid() && config.snakes == old(config.snakes) && config.ladders == old(config.ladders)
    ensures var o := Parsed(file, old(config.Value()));
      status == o.status && config.Value() == o.st.cfg
  {
    config.iterations := 100;
    config.rows := 10;
    config.cols := 10;
    config.maxSimulationSteps := 1000;
    config.allowOvershoot := true;
    config.diceSides := 6;
    if file.None? {
      return 1;
    }
    var lines := file.value;
    var section := NoSection;
    var snakeIdx: nat, ladderIdx: nat := 0, 0;
    var k := 0;
    while k < |lines|
      invariant k <= |lines|
      invariant config.Valid() && config.snakes == old(config.snakes) && config.ladders == old(config.ladders)
      invariant snakeIdx <= MAX_SNAKES && ladderIdx <= MAX_LADDERS
      invariant Parsed(file, old(config.Value())) ==
        ParseLines(ParseState(config.Value(), section, snakeIdx, ladderIdx), lines[k..])
    {
      assert lines[k..][1..] == lines[k + 1..];
      var ok;
      ok, section, snakeIdx, ladderIdx := ApplyDirective(config, section, snakeIdx, ladderIdx, Classify(lines[k]));
      if !ok {
        return 1;
      }
      k := k + 1;
    }
    return 0;
  }
}
