/**
 * What the configuration parser guarantees: the defaults, how comments,
 * newlines and indentation are treated, the meaning of each key, and the
 * invariants every accepted transition table satisfies.
 */
module ConfigProperties {
  import opened Wrappers
  import opened Text
  import opened ConfigManager

  // ---------------------------------------------------------------------
  // Defaults
  // ---------------------------------------------------------------------

  /** With no lines (or no file) the configuration holds exactly the defaults. */
  lemma DefaultsBeforeAnyLine(c0: ConfigValue, file: Option<seq<string>>)
    requires |c0.snakes| == MAX_SNAKES && |c0.ladders| == MAX_LADDERS
    requires file == None || file == Some([])
    ensures var o := Parsed(file, c0);
      o.status == (if file == None then 1 else 0) &&
      o.st.cfg.iterations == 100 && o.st.cfg.rows == 10 && o.st.cfg.cols == 10 &&
      o.st.cfg.maxSimulationSteps == 1000 && o.st.cfg.allowOvershoot && o.st.cfg.diceSides == 6 &&
      o.st.cfg.numSnakes == c0.numSnakes && o.st.cfg.numLadders == c0.numLadders &&
      o.st.cfg.snakes == c0.snakes && o.st.cfg.ladders == c0.ladders &&
      o.st.snakeIdx == 0 && o.st.ladderIdx == 0
  {
  }

  // ---------------------------------------------------------------------
  // Comments, newlines, indentation
  // ---------------------------------------------------------------------

  lemma StripComment(line: string, comment: string)
    ensures StripLine(line + "#" + comment) == StripLine(line)
  {
    assert line + "#" + comment == line + ("#" + comment);
    CutAtAppend(line, "#" + comment, '#');
    if '#' !in line {
      CutAtAbsent(line, '#');
    }
  }

  lemma StripNewline(line: string)
    ensures StripLine(line + "\n") == StripLine(line)
  {
    CutAtAppend(line, "\n", '#');
    if '#' !in line {
      CutAtAppend(line, "\n", '\n');
      CutAtAbsent(line, '#');
      if '\n' !in line {
        assert line + [] == line;
        CutAtAbsent(line, '\n');
      }
    }
  }

  /** What a line is read as depends only on what is left of it once comments and the newline are gone. */
  lemma SameStripSameDirective(l1: string, l2: string)
    requires StripLine(l1) == StripLine(l2)
    ensures Classify(l1) == Classify(l2)
  {
  }

  /** Everything from the first `#` on is ignored. */
  lemma CommentIgnored(st: ParseState, line: string, comment: string)
    requires WellFormed(st)
    ensures ProcessLine(st, line + "#" + comment) == ProcessLine(st, line)
  {
    StripComment(line, comment);
    SameStripSameDirective(line + "#" + comment, line);
    ProcessSameDirective(st, line + "#" + comment, line);
  }

  /** A trailing newline is ignored. */
  lemma NewlineIgnored(st: ParseState, line: string)
    requires WellFormed(st)
    ensures ProcessLine(st, line + "\n") == ProcessLine(st, line)
  {
    StripNewline(line);
    SameStripSameDirective(line + "\n", line);
    ProcessSameDirective(st, line + "\n", line);
  }

  /** A line is processed as the directive it is read as. */
  lemma ProcessClassified(st: ParseState, line: string, d: Directive)
    requires WellFormed(st) && Classify(line) == d
    ensures ProcessLine(st, line) == Apply(st, d)
  {
  }

  /** Two lines read as the same directive have the same effect. */
  lemma ProcessSameDirective(st: ParseState, l1: string, l2: string)
    requires WellFormed(st) && Classify(l1) == Classify(l2)
    ensures ProcessLine(st, l1) == ProcessLine(st, l2)
  {
    ProcessClassified(st, l1, Classify(l1));
    ProcessClassified(st, l2, Classify(l2));
  }

  /** A line that is blank once comments are gone changes nothing. */
  lemma BlankLineIgnored(st: ParseState, line: string)
    requires WellFormed(st)
    requires TrimLeft(StripLine(line)) == []
    ensures ProcessLine(st, line) == Some(st)
  {
    ClassifyBlank(line);
    ProcessClassified(st, line, Ignored);
    IgnoredKeepsState(st);
  }

  lemma IgnoredKeepsState(st: ParseState)
    requires WellFormed(st)
    ensures Apply(st, Ignored) == Some(st)
  {
  }

  lemma ClassifyBlank(line: string)
    requires TrimLeft(StripLine(line)) == []
    ensures Classify(line) == Ignored
  {
    ClassifyTextEmpty();
  }

  /** Nothing is left to dispatch: no key matches and no pair converts. */
  lemma ClassifyTextEmpty()
    ensures ClassifyText([]) == Ignored
  {
    assert ScanPair([]) == None;
  }

  lemma StripIndented(indent: string, line: string)
    requires forall k :: 0 <= k < |indent| ==> IsSpace(indent[k]) && indent[k] != '\n'
    ensures StripLine(indent + line) == indent + StripLine(line)
  {
    assert '#' !in indent && '\n' !in indent;
    CutAtAppend(indent, line, '#');
    CutAtAppend(indent, CutAt(line, '#'), '\n');
  }

  /** Indentation before a line that is blank once stripped leaves it to be ignored. */
  lemma ClassifyIndentedBlank(indent: string, line: string)
    requires forall k :: 0 <= k < |indent| ==> IsSpace(indent[k]) && indent[k] != '\n'
    requires StripLine(line) == []
    ensures Classify(indent + line) == Ignored && Classify(line) == Ignored
  {
    StripIndented(indent, line);
    assert StripLine(indent + line) == indent;
    TrimLeftSkipsSpaces(indent, []);
    assert indent + [] == indent;
    ClassifyTextEmpty();
  }

  /** Stripping and trimming an indented line gives the text the line alone gives. */
  lemma TrimIndented(indent: string, line: string)
    requires forall k :: 0 <= k < |indent| ==> IsSpace(indent[k]) && indent[k] != '\n'
    ensures StripLine(indent + line) == [] ==> StripLine(line) == []
    ensures TrimLeft(StripLine(indent + line)) == TrimLeft(StripLine(line))
  {
    StripIndented(indent, line);
    TrimLeftSkipsSpaces(indent, StripLine(line));
  }

  lemma ClassifyIndented(indent: string, line: string)
    requires forall k :: 0 <= k < |indent| ==> IsSpace(indent[k]) && indent[k] != '\n'
    ensures Classify(indent + line) == Classify(line)
  {
    if StripLine(line) == [] {
      ClassifyIndentedBlank(indent, line);
    } else {
      TrimIndented(indent, line);
    }
  }

  /** Indentation (whitespace other than the newline) before a key or pair is ignored. */
  lemma IndentationIgnored(st: ParseState, indent: string, line: string)
    requires WellFormed(st)
    requires forall k :: 0 <= k < |indent| ==> IsSpace(indent[k]) && indent[k] != '\n'
    ensures ProcessLine(st, indent + line) == ProcessLine(st, line)
  {
    ClassifyIndented(indent, line);
    ProcessSameDirective(st, indent + line, line);
  }

  // ---------------------------------------------------------------------
  // The keys
  // ---------------------------------------------------------------------

  /** A text whose first character differs from the key's does not start with the key. */
  lemma NotKey(text: string, key: string)
    requires text != [] && key != [] && text[0] != key[0]
    ensures !StartsWith(text, key)
  {
    if |key| <= |text| {
      assert text[..|key|][0] == text[0];
    }
  }

  /** A line without comment or newline whose first character is not blank is dispatched as it stands. */
  lemma CleanLine(line: string)
    requires line != [] && !IsSpace(line[0]) && '#' !in line && '\n' !in line
    ensures Classify(line) == ClassifyText(line)
  {
    CutAtAbsent(line, '#');
    CutAtAbsent(line, '\n');
  }

  /** A `KEY=<n>` line is read as exactly that key followed by the rendered number. */
  lemma KeyLine(key: string, n: int)
    requires key != [] && !IsSpace(key[0]) && '#' !in key && '\n' !in key
    ensures var line := key + ShowInt(n);
      Classify(line) == ClassifyText(line) && line[0] == key[0] &&
      StartsWith(line, key) && Atoi(line[|key|..]) == n
  {
    var line := key + ShowInt(n);
    assert forall k :: 0 <= k < |ShowInt(n)| ==> ShowInt(n)[k] != '#' && ShowInt(n)[k] != '\n';
    assert '#' !in line && '\n' !in line;
    assert line[0] == key[0];
    CleanLine(line);
    assert line[..|key|] == key;
    assert line[|key|..] == ShowInt(n);
    AtoiShowInt(n);
  }

  lemma ClassifyIterations(n: int)
    ensures Classify("ITERATIONS=" + ShowInt(n)) == Iterations(n)
  {
    var line := "ITERATIONS=" + ShowInt(n);
    KeyLine("ITERATIONS=", n);
  }

  lemma IterationsApply(st: ParseState, n: int)
    requires WellFormed(st)
    ensures Apply(st, Iterations(n)) == if n <= 0 then None else Some(st.(cfg := st.cfg.(iterations := n)))
  {
  }

  /** `ITERATIONS=n`: a positive n is stored; zero or negative is a fatal error. */
  lemma IterationsLine(st: ParseState, n: int)
    requires WellFormed(st)
    ensures ProcessLine(st, "ITERATIONS=" + ShowInt(n)) ==
      if n <= 0 then None else Some(st.(cfg := st.cfg.(iterations := n)))
  {
    ClassifyIterations(n);
    ProcessClassified(st, "ITERATIONS=" + ShowInt(n), Iterations(n));
    IterationsApply(st, n);
  }

  lemma ClassifyMaxSimSteps(n: int)
    ensures Classify("MAXSIMSTEPS=" + ShowInt(n)) == MaxSimSteps(n)
  {
    var line := "MAXSIMSTEPS=" + ShowInt(n);
    KeyLine("MAXSIMSTEPS=", n);
    NotKey(line, "ITERATIONS=");
  }

  lemma MaxSimStepsApply(st: ParseState, n: int)
    requires WellFormed(st)
    ensures Apply(st, MaxSimSteps(n)) == if n <= 0 then None else Some(st.(cfg := st.cfg.(maxSimulationSteps := n)))
  {
  }

  /** `MAXSIMSTEPS=n`: a positive n is stored; zero or negative is a fatal error. */
  lemma MaxSimStepsLine(st: ParseState, n: int)
    requires WellFormed(st)
    ensures ProcessLine(st, "MAXSIMSTEPS=" + ShowInt(n)) ==
      if n <= 0 then None else Some(st.(cfg := st.cfg.(maxSimulationSteps := n)))
  {
    ClassifyMaxSimSteps(n);
    ProcessClassified(st, "MAXSIMSTEPS=" + ShowInt(n), MaxSimSteps(n));
    MaxSimStepsApply(st, n);
  }

  lemma ClassifyRows(n: int)
    ensures Classify("ROWS=" + ShowInt(n)) == Rows(n)
  {
    var line := "ROWS=" + ShowInt(n);
    KeyLine("ROWS=", n);
    NotKey(line, "ITERATIONS=");
    NotKey(line, "MAXSIMSTEPS=");
  }

  /** `ROWS=n`: a positive n is stored; otherwise the board falls back to 10 rows. */
  lemma RowsLine(st: ParseState, n: int)
    requires WellFormed(st)
    ensures ProcessLine(st, "ROWS=" + ShowInt(n)) ==
      Some(st.(cfg := st.cfg.(rows := if n <= 0 then 10 else n)))
  {
    ClassifyRows(n);
    ProcessClassified(st, "ROWS=" + ShowInt(n), Rows(n));
  }

  lemma ClassifyCols(n: int)
    ensures Classify("COLS=" + ShowInt(n)) == Cols(n)
  {
    var line := "COLS=" + ShowInt(n);
    KeyLine("COLS=", n);
    NotKey(line, "ITERATIONS=");
    NotKey(line, "MAXSIMSTEPS=");
    NotKey(line, "ROWS=");
  }

  /** `COLS=n`: a positive n is stored; otherwise the board falls back to 10 columns. */
  lemma ColsLine(st: ParseState, n: int)
    requires WellFormed(st)
    ensures ProcessLine(st, "COLS=" + ShowInt(n)) ==
      Some(st.(cfg := st.cfg.(cols := if n <= 0 then 10 else n)))
  {
    ClassifyCols(n);
    ProcessClassified(st, "COLS=" + ShowInt(n), Cols(n));
  }

  lemma ClassifyDice(n: int)
    ensures Classify("DICE=" + ShowInt(n)) == Dice(n)
  {
    var line := "DICE=" + ShowInt(n);
    KeyLine("DICE=", n);
    NotKey(line, "ITERATIONS=");
    NotKey(line, "MAXSIMSTEPS=");
    NotKey(line, "ROWS=");
    NotKey(line, "COLS=");
  }

  /** `DICE=n`: n of at least 2 is stored; otherwise the die falls back to 6 sides. */
  lemma DiceLine(st: ParseState, n: int)
    requires WellFormed(st)
    ensures ProcessLine(st, "DICE=" + ShowInt(n)) ==
      Some(st.(cfg := st.cfg.(diceSides := if n <= 1 then 6 else n)))
  {
    ClassifyDice(n);
    ProcessClassified(st, "DICE=" + ShowInt(n), Dice(n));
  }

  lemma ClassifyOvershoot(v: string)
    requires '#' !in v && '\n' !in v
    ensures Classify("ALLOW_OVERSHOOT=" + v) == AllowOvershoot(StartsWith(v, "true"))
  {
    var line := "ALLOW_OVERSHOOT=" + v;
    assert '#' !in line && '\n' !in line;
    assert line[0] == 'A';
    CleanLine(line);
    NotKey(line, "ITERATIONS=");
    NotKey(line, "MAXSIMSTEPS=");
    NotKey(line, "ROWS=");
    NotKey(line, "COLS=");
    NotKey(line, "DICE=");
    assert line[..16] == "ALLOW_OVERSHOOT=";
    assert line[16..] == v;
  }

  /** `ALLOW_OVERSHOOT=v`: overshoot is allowed exactly when v begins with `true`. */
  lemma OvershootLine(st: ParseState, v: string)
    requires WellFormed(st)
    requires '#' !in v && '\n' !in v
    ensures ProcessLine(st, "ALLOW_OVERSHOOT=" + v) ==
      Some(st.(cfg := st.cfg.(allowOvershoot := StartsWith(v, "true"))))
  {
    ClassifyOvershoot(v);
    ProcessClassified(st, "ALLOW_OVERSHOOT=" + v, AllowOvershoot(StartsWith(v, "true")));
  }

  lemma ClassifySnakes(n: int)
    ensures Classify("SNAKES=" + ShowInt(n)) == SnakesHeader(n)
  {
    var line := "SNAKES=" + ShowInt(n);
    KeyLine("SNAKES=", n);
    NotKey(line, "ITERATIONS=");
    NotKey(line, "MAXSIMSTEPS=");
    NotKey(line, "ROWS=");
    NotKey(line, "COLS=");
    NotKey(line, "DICE=");
    NotKey(line, "ALLOW_OVERSHOOT=");
  }

  lemma SnakesHeaderApply(st: ParseState, n: int)
    requires WellFormed(st)
    ensures Apply(st, SnakesHeader(n)) == if n < 0 then None else Some(st.(cfg := st.cfg.(numSnakes := n), section := SnakeSection))
  {
  }

  /** `SNAKES=n`: the declared count is stored and later pairs go to the snake table. */
  lemma SnakesHeaderLine(st: ParseState, n: int)
    requires WellFormed(st)
    ensures ProcessLine(st, "SNAKES=" + ShowInt(n)) ==
      if n < 0 then None else Some(st.(cfg := st.cfg.(numSnakes := n), section := SnakeSection))
  {
    ClassifySnakes(n);
    ProcessClassified(st, "SNAKES=" + ShowInt(n), SnakesHeader(n));
    SnakesHeaderApply(st, n);
  }

  lemma ClassifyLadders(n: int)
    ensures Classify("LADDERS=" + ShowInt(n)) == LaddersHeader(n)
  {
    var line := "LADDERS=" + ShowInt(n);
    KeyLine("LADDERS=", n);
    NotKey(line, "ITERATIONS=");
    NotKey(line, "MAXSIMSTEPS=");
    NotKey(line, "ROWS=");
    NotKey(line, "COLS=");
    NotKey(line, "DICE=");
    NotKey(line, "ALLOW_OVERSHOOT=");
    NotKey(line, "SNAKES=");
  }

  lemma LaddersHeaderApply(st: ParseState, n: int)
    requires WellFormed(st)
    ensures Apply(st, LaddersHeader(n)) == if n < 0 then None else Some(st.(cfg := st.cfg.(numLadders := n), section := LadderSection))
  {
  }

  /** `LADDERS=n`: the declared count is stored and later pairs go to the ladder table. */
  lemma LaddersHeaderLine(st: ParseState, n: int)
    requires WellFormed(st)
    ensures ProcessLine(st, "LADDERS=" + ShowInt(n)) ==
      if n < 0 then None else Some(st.(cfg := st.cfg.(numLadders := n), section := LadderSection))
  {
    ClassifyLadders(n);
    ProcessClassified(st, "LADDERS=" + ShowInt(n), LaddersHeader(n));
    LaddersHeaderApply(st, n);
  }

  lemma ClassifyPair(a: int, b: int)
    ensures Classify(ShowInt(a) + ":" + ShowInt(b)) == Pair(a, b)
  {
    var rest := ":" + ShowInt(b);
    var line := ShowInt(a) + rest;
    assert ShowInt(a) + ":" + ShowInt(b) == line;
    assert forall k :: 0 <= k < |line| ==> line[k] != '#' && line[k] != '\n';
    assert line[0] == ShowInt(a)[0];
    CleanLine(line);
    NotKey(line, "ITERATIONS=");
    NotKey(line, "MAXSIMSTEPS=");
    NotKey(line, "ROWS=");
    NotKey(line, "COLS=");
    NotKey(line, "DICE=");
    NotKey(line, "ALLOW_OVERSHOOT=");
    NotKey(line, "SNAKES=");
    NotKey(line, "LADDERS=");
    ScanPairShow(a, b);
  }

  lemma PairApply(st: ParseState, a: int, b: int)
    requires WellFormed(st)
    ensures Apply(st, Pair(a, b)) == Some(AddTransition(st, a, b))
  {
  }

  /** An `a:b` line is handed to the transition rules. */
  lemma PairLine(st: ParseState, a: int, b: int)
    requires WellFormed(st)
    ensures ProcessLine(st, ShowInt(a) + ":" + ShowInt(b)) == Some(AddTransition(st, a, b))
  {
    ClassifyPair(a, b);
    ProcessClassified(st, ShowInt(a) + ":" + ShowInt(b), Pair(a, b));
    PairApply(st, a, b);
  }

  // ---------------------------------------------------------------------
  // Invariants of the parse
  // ---------------------------------------------------------------------

  predicate ValidSnake(t: Transition)
  {
    1 <= t.end < t.start && t.timesUsed == 0
  }

  predicate ValidLadder(t: Transition)
  {
    1 <= t.start < t.end && t.timesUsed == 0
  }

  /**
   * What holds after every line: sane numeric settings, accepted snakes go
   * down and ladders go up, no two accepted transitions touch the same
   * field, and table slots past the accepted ones still hold the caller's
   * entries.
   */
  ghost predicate Sound(st: ParseState, c0: ConfigValue)
  {
    WellFormed(st) && |c0.snakes| == MAX_SNAKES && |c0.ladders| == MAX_LADDERS &&
    st.cfg.iterations >= 1 && st.cfg.maxSimulationSteps >= 1 &&
    st.cfg.rows >= 1 && st.cfg.cols >= 1 && st.cfg.diceSides >= 2 &&
    DisjointTables(StoredSnakes(st), StoredLadders(st)) &&
    (forall k :: 0 <= k < st.snakeIdx ==> ValidSnake(st.cfg.snakes[k])) &&
    (forall k :: 0 <= k < st.ladderIdx ==> ValidLadder(st.cfg.ladders[k])) &&
    st.cfg.snakes[st.snakeIdx..] == c0.snakes[st.snakeIdx..] &&
    st.cfg.ladders[st.ladderIdx..] == c0.ladders[st.ladderIdx..]
  }

  lemma SliceUpdate(s: seq<Transition>, i: nat, t: Transition)
    requires i < |s|
    ensures s[i := t][..i + 1] == s[..i] + [t]
    ensures s[i := t][i + 1..] == s[i + 1..]
  {
  }

  lemma AddTransitionSound(st: ParseState, a: int, b: int, c0: ConfigValue)
    requires Sound(st, c0)
    ensures Sound(AddTransition(st, a, b), c0)
  {
    var r := AddTransition(st, a, b);
    if r != st {
      var t := Transition(a, b, 0);
      if st.section == SnakeSection {
        SliceUpdate(st.cfg.snakes, st.snakeIdx, t);
        assert StoredSnakes(r) == StoredSnakes(st) + [t];
        AddKeepsDisjoint(StoredSnakes(st), StoredLadders(st), t, true);
        assert c0.snakes[st.snakeIdx..][1..] == c0.snakes[r.snakeIdx..];
      } else {
        SliceUpdate(st.cfg.ladders, st.ladderIdx, t);
        assert StoredLadders(r) == StoredLadders(st) + [t];
        AddKeepsDisjoint(StoredSnakes(st), StoredLadders(st), t, false);
        assert c0.ladders[st.ladderIdx..][1..] == c0.ladders[r.ladderIdx..];
      }
    }
  }

  lemma ApplySound(st: ParseState, d: Directive, c0: ConfigValue)
    requires Sound(st, c0)
    ensures Apply(st, d).Some? ==> Sound(Apply(st, d).value, c0)
  {
    if d.Pair? {
      AddTransitionSound(st, d.a, d.b, c0);
    }
  }

  lemma {:induction false} ParseLinesSound(st: ParseState, lines: seq<string>, c0: ConfigValue)
    requires Sound(st, c0)
    ensures Sound(ParseLines(st, lines).st, c0)
    decreases |lines|
  {
    if lines != [] {
      ApplySound(st, Classify(lines[0]), c0);
      if ProcessLine(st, lines[0]).Some? {
        ParseLinesSound(ProcessLine(st, lines[0]).value, lines[1..], c0);
      }
    }
  }

  /** A line the parser does not read as a `SNAKES=` header. */
  predicate NoSnakesHeader(lines: seq<string>)
  {
    forall k :: 0 <= k < |lines| ==> !Classify(lines[k]).SnakesHeader?
  }

  predicate NoLaddersHeader(lines: seq<string>)
  {
    forall k :: 0 <= k < |lines| ==> !Classify(lines[k]).LaddersHeader?
  }

  /**
   * The declared counts have no default: only a `SNAKES=`/`LADDERS=` line
   * writes them, so without such a line they keep the value they had.
   */
  lemma {:induction false} CountsOnlyFromHeaders(st: ParseState, lines: seq<string>)
    requires WellFormed(st)
    ensures NoSnakesHeader(lines) ==> ParseLines(st, lines).st.cfg.numSnakes == st.cfg.numSnakes
    ensures NoLaddersHeader(lines) ==> ParseLines(st, lines).st.cfg.numLadders == st.cfg.numLadders
    decreases |lines|
  {
    if lines != [] {
      var r := ProcessLine(st, lines[0]);
      if r.Some? {
        assert NoSnakesHeader(lines) ==> NoSnakesHeader(lines[1..]) && !Classify(lines[0]).SnakesHeader?;
        assert NoLaddersHeader(lines) ==> NoLaddersHeader(lines[1..]) && !Classify(lines[0]).LaddersHeader?;
        CountsOnlyFromHeaders(r.value, lines[1..]);
      }
    }
  }

  /** For a whole file: without a header line the counts are the caller's. */
  lemma ParsedCountsAreCallers(file: Option<seq<string>>, c0: ConfigValue)
    requires |c0.snakes| == MAX_SNAKES && |c0.ladders| == MAX_LADDERS
    ensures (file == None || NoSnakesHeader(file.value)) ==> Parsed(file, c0).st.cfg.numSnakes == c0.numSnakes
    ensures (file == None || NoLaddersHeader(file.value)) ==> Parsed(file, c0).st.cfg.numLadders == c0.numLadders
  {
    if file.Some? {
      CountsOnlyFromHeaders(InitialState(c0), file.value);
    }
  }

  lemma ShowSmall(d: nat)
    requires d < 10
    ensures ShowInt(d) == [DigitChar(d)]
  {
  }

  lemma SnakesTwoLine(st: ParseState)
    requires WellFormed(st)
    ensures ProcessLine(st, "SNAKES=2") == Some(st.(cfg := st.cfg.(numSnakes := 2), section := SnakeSection))
  {
    ShowSmall(2);
    assert "SNAKES=2" == "SNAKES=" + ShowInt(2);
    SnakesHeaderLine(st, 2);
  }

  lemma SnakesZeroLine(st: ParseState)
    requires WellFormed(st)
    ensures ProcessLine(st, "SNAKES=0") == Some(st.(cfg := st.cfg.(numSnakes := 0), section := SnakeSection))
  {
    ShowSmall(0);
    assert "SNAKES=0" == "SNAKES=" + ShowInt(0);
    SnakesHeaderLine(st, 0);
  }

  /** On the default 10x10 board, the snake 5:3 is the first one stored. */
  lemma FirstSnakeStored(st: ParseState)
    requires WellFormed(st) && st.section == SnakeSection
    requires st.snakeIdx == 0 && st.ladderIdx == 0 && st.cfg.numSnakes == 2
    requires st.cfg.rows == 10 && st.cfg.cols == 10
    ensures ProcessLine(st, "5:3") == Some(AddTransition(st, 5, 3))
    ensures AddTransition(st, 5, 3).snakeIdx == 1
  {
    ShowSmall(5);
    ShowSmall(3);
    assert "5:3" == ShowInt(5) + ":" + ShowInt(3);
    PairLine(st, 5, 3);
    assert StoredSnakes(st) == [] && StoredLadders(st) == [];
    assert Acceptable(st, 5, 3) && HasRoom(st);
  }

  /** A line that is not fatal hands its state on to the rest of the file. */
  lemma ParseLinesCons(st: ParseState, lines: seq<string>, next: ParseState)
    requires WellFormed(st) && lines != [] && ProcessLine(st, lines[0]) == Some(next)
    ensures ParseLines(st, lines) == ParseLines(next, lines[1..])
  {
  }

  /**
   * The snake index is bounded by MAX_SNAKES only, not by the declared
   * count: a second `SNAKES=` line can lower the count below the entries
   * already stored.
   */
  lemma SnakeIndexCanExceedCount(c0: ConfigValue)
    requires |c0.snakes| == MAX_SNAKES && |c0.ladders| == MAX_LADDERS
    ensures var o := Parsed(Some(["SNAKES=2", "5:3", "SNAKES=0"]), c0);
      o.status == 0 && o.st.snakeIdx == 1 && o.st.cfg.numSnakes == 0
  {
    var st0 := InitialState(c0);
    SnakesTwoLine(st0);
    var st1 := st0.(cfg := st0.cfg.(numSnakes := 2), section := SnakeSection);
    FirstSnakeStored(st1);
    var st2 := AddTransition(st1, 5, 3);
    SnakesZeroLine(st2);
    var st3 := st2.(cfg := st2.cfg.(numSnakes := 0), section := SnakeSection);
    var lines := ["SNAKES=2", "5:3", "SNAKES=0"];
    assert lines[0] == "SNAKES=2" && lines[1..][0] == "5:3" && lines[1..][1..][0] == "SNAKES=0";
    ParseLinesCons(st0, lines, st1);
    ParseLinesCons(st1, lines[1..], st2);
    ParseLinesCons(st2, lines[1..][1..], st3);
    assert lines[1..][1..][1..] == [];
  }

  /**
   * Whatever the file holds, and whether or not parsing fails part way,
   * the resulting configuration is sound: at least one iteration and one
   * step, at least one row and column, a die of at least two sides, and
   * disjoint, correctly oriented transition tables with zero usage.
   */
  lemma ParsedSound(file: Option<seq<string>>, c0: ConfigValue)
    requires |c0.snakes| == MAX_SNAKES && |c0.ladders| == MAX_LADDERS
    ensures Sound(Parsed(file, c0).st, c0)
  {
    var st := InitialState(c0);
    assert StoredSnakes(st) == [] && StoredLadders(st) == [];
    if file.Some? {
      ParseLinesSound(st, file.value, c0);
    }
  }
}
