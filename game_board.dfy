/**
 * The board builder: one node per field, each tagged SNAKE, LADDER or
 * DEFAULT, with its successors given as indices into the node array
 * (0-based, so field p is index p - 1).
 */
module Board {
  import opened Wrappers
  import opened ConfigManager

  datatype FieldType = Snake | Ladder | Default

  /** A field: its kind and the indices of the fields it leads to. */
  datatype Node = Node(ft: FieldType, successors: seq<int>)

  class GameBoard {
    var rows: int
    var cols: int
    /** The node of field p is `fields[p - 1]`. */
    var fields: array<Node>

    ghost predicate Valid()
      reads this
    {
      fields.Length == rows * cols
    }

    /** The board with every field DEFAULT and no successors yet. */
    constructor (rows: int, cols: int)
      requires rows * cols >= 0
      ensures Valid() && fresh(fields)
      ensures this.rows == rows && this.cols == cols
      ensures forall i :: 0 <= i < fields.Length ==> fields[i] == Node(Default, [])
    {
      this.rows := rows;
      this.cols := cols;
      fields := new Node[rows * cols](_ => Node(Default, []));
    }
  }

  /** The declared counts fit the tables (what the builder's loops read). */
  predicate DeclaredFit(c: ConfigValue)
  {
    Count(c.numSnakes) <= |c.snakes| && Count(c.numLadders) <= |c.ladders|
  }

  function DeclaredSnakes(c: ConfigValue): seq<Transition>
    requires DeclaredFit(c)
  {
    c.snakes[..Count(c.numSnakes)]
  }

  function DeclaredLadders(c: ConfigValue): seq<Transition>
    requires DeclaredFit(c)
  {
    c.ladders[..Count(c.numLadders)]
  }

  /** Some entry of `ts` starts at the field with index i. */
  predicate StartsAt(ts: seq<Transition>, i: int)
  {
    exists j :: 0 <= j < |ts| && ts[j].start - 1 == i
  }

  /** The last entry of `ts` whose start is the field with index i. */
  function LastStart(ts: seq<Transition>, i: int): (r: Option<nat>)
    ensures r.Some? ==> r.value < |ts| && ts[r.value].start - 1 == i
    ensures r.Some? ==> forall k :: r.value < k < |ts| ==> ts[k].start - 1 != i
    ensures r.None? <==> !StartsAt(ts, i)
  {
    if ts == [] then None
    else if ts[|ts| - 1].start - 1 == i then Some(|ts| - 1)
    else LastStart(ts[..|ts| - 1], i)
  }

  /** Every transition that starts on the board also ends on it (so `gb[end - 1]` is in bounds). */
  predicate EndsInBoard(ts: seq<Transition>, numFields: int)
  {
    forall j :: 0 <= j < |ts| && 1 <= ts[j].start <= numFields ==> 1 <= ts[j].end <= numFields
  }

  predicate TransitionsInBoard(c: ConfigValue)
    requires DeclaredFit(c)
  {
    EndsInBoard(DeclaredSnakes(c), c.rows * c.cols) && EndsInBoard(DeclaredLadders(c), c.rows * c.cols)
  }

  /** The successors of a DEFAULT field: one per die face, staying put when a face would leave the board. */
  function DiceSuccessors(i: int, numFields: int, diceSides: int): seq<int>
  {
    seq(Count(diceSides), j => if i + j + 1 < numFields then i + j + 1 else i)
  }

  /**
   * The node create_game_board builds for the field with index i: a ladder
   * starting there wins over a snake, the last declared match of a kind
   * wins, and a field no transition starts on keeps its die successors.
   */
  function BoardNode(c: ConfigValue, i: int): (r: Node)
    requires DeclaredFit(c)
    requires 0 <= i < c.rows * c.cols
    ensures r.ft == Ladder <==> StartsAt(DeclaredLadders(c), i)
    ensures r.ft == Snake <==> StartsAt(DeclaredSnakes(c), i) && !StartsAt(DeclaredLadders(c), i)
    ensures r.ft == Default <==> !StartsAt(DeclaredSnakes(c), i) && !StartsAt(DeclaredLadders(c), i)
    ensures r.ft != Default ==> |r.successors| == 1
    ensures r.ft == Ladder ==> r.successors[0] == DeclaredLadders(c)[LastStart(DeclaredLadders(c), i).value].end - 1
    ensures r.ft == Snake ==> r.successors[0] == DeclaredSnakes(c)[LastStart(DeclaredSnakes(c), i).value].end - 1
    ensures r.ft == Default ==> |r.successors| == Count(c.diceSides)
    ensures r.ft == Default ==> forall j :: 0 <= j < |r.successors| ==>
      r.successors[j] == if i + j + 1 < c.rows * c.cols then i + j + 1 else i
    ensures TransitionsInBoard(c) ==> forall k :: 0 <= k < |r.successors| ==> 0 <= r.successors[k] < c.rows * c.cols
  {
    var n := c.rows * c.cols;
    match LastStart(DeclaredLadders(c), i)
    case Some(j) => Node(Ladder, [DeclaredLadders(c)[j].end - 1])
    case None =>
      match LastStart(DeclaredSnakes(c), i)
      case Some(j) => Node(Snake, [DeclaredSnakes(c)[j].end - 1])
      case None => Node(Default, DiceSuccessors(i, n, c.diceSides))
  }

  /** The node after a marking loop over `ts` for field i, starting from `base`. */
  function Marked(ts: seq<Transition>, kind: FieldType, base: Node, i: int): Node
  {
    match LastStart(ts, i)
    case Some(k) => Node(kind, [ts[k].end - 1])
    case None => base
  }

  lemma LastStartExtend(ts: seq<Transition>, j: nat, i: int)
    requires j < |ts|
    ensures LastStart(ts[..j + 1], i) == if ts[j].start - 1 == i then Some(j) else LastStart(ts[..j], i)
  {
    assert ts[..j + 1][..j] == ts[..j];
  }

  /**
   * One of the two inner loops of create_game_board: every entry among the
   * first `count` of `ts` that starts at field i overwrites node i with
   * `kind` and the single successor `end - 1`.
   */
  method MarkStarts(gb: array<Node>, ts: array<Transition>, count: int, kind: FieldType, i: nat)
    requires i < gb.Length && Count(count) <= ts.Length
    requires EndsInBoard(ts[..Count(count)], gb.Length)
    modifies gb
    ensures gb[i] == Marked(ts[..Count(count)], kind, old(gb[i]), i)
    ensures forall k :: 0 <= k < gb.Length && k != i ==> gb[k] == old(gb[k])
  {
    var j := 0;
    while j < count
      invariant 0 <= j <= Count(count)
      invariant gb[i] == Marked(ts[..j], kind, old(gb[i]), i)
      invariant forall k :: 0 <= k < gb.Length && k != i ==> gb[k] == old(gb[k])
    {
      LastStartExtend(ts[..], j, i);
      assert ts[..j + 1] == ts[..][..j + 1];
      assert ts[..j] == ts[..][..j];
      if ts[j].start - 1 == i {
        assert 0 <= ts[j].end - 1 < gb.Length by {
          assert ts[..Count(count)][j] == ts[j];
        }
        gb[i] := Node(kind, [ts[j].end - 1]);
      }
      j := j + 1;
    }
  }

  /** The innermost loop of create_game_board: the die successors of a DEFAULT field. */
  method BuildDiceSuccessors(i: int, numFields: int, diceSides: int) returns (successors: seq<int>)
    ensures |successors| == Count(diceSides)
    ensures forall j :: 0 <= j < |successors| ==>
      (i + j + 1 < numFields ==> successors[j] == i + j + 1) &&
      (i + j + 1 >= numFields ==> successors[j] == i)
  {
    successors := [];
    var j := 0;
    while j < diceSides
      invariant 0 <= j <= Count(diceSides)
      invariant |successors| == j
      invariant forall k :: 0 <= k < j ==> successors[k] == if i + k + 1 < numFields then i + k + 1 else i
    {
      if i + j + 1 < numFields {
        successors := successors + [i + j + 1];
      } else {
        successors := successors + [i];
      }
      j := j + 1;
    }
  }

  /** Running the snake loop and then the ladder loop on a fresh DEFAULT node gives BoardNode, up to the die successors. */
  lemma MarkedThenLadders(c: ConfigValue, i: int)
    requires DeclaredFit(c) && 0 <= i < c.rows * c.cols
    ensures var l := Marked(DeclaredLadders(c), Ladder, Marked(DeclaredSnakes(c), Snake, Node(Default, []), i), i);
      if l.ft == Default then BoardNode(c, i) == Node(Default, DiceSuccessors(i, c.rows * c.cols, c.diceSides))
      else BoardNode(c, i) == l
  {
  }

  /** The body of create_game_board's field loop: builds node i in place. */
  method BuildField(gb: array<Node>, config: Config, i: nat)
    requires config.Valid()
    requires config.numSnakes <= MAX_SNAKES && config.numLadders <= MAX_LADDERS
    requires gb.Length == config.rows * config.cols && i < gb.Length
    requires TransitionsInBoard(config.Value())
    requires gb[i] == Node(Default, [])
    modifies gb
    ensures gb[i] == BoardNode(config.Value(), i)
    ensures forall k :: 0 <= k < gb.Length && k != i ==> gb[k] == old(gb[k])
  {
    ghost var c := config.Value();
    assert config.snakes[..Count(config.numSnakes)] == DeclaredSnakes(c);
    assert config.ladders[..Count(config.numLadders)] == DeclaredLadders(c);
    // Snakes starting here, then ladders, each in declaration order.
    MarkStarts(gb, config.snakes, config.numSnakes, Snake, i);
    MarkStarts(gb, config.ladders, config.numLadders, Ladder, i);
    MarkedThenLadders(c, i);
    // A field that is still DEFAULT gets one successor per die face.
    if gb[i].ft == Default {
      var successors := BuildDiceSuccessors(i, gb.Length, config.diceSides);
      assert successors == DiceSuccessors(i, gb.Length, config.diceSides);
      gb[i] := Node(Default, successors);
    }
  }

  /** create_game_board: allocates the fields, then builds each node in place. */
  method CreateGameBoard(config: Config) returns (board: GameBoard)
    requires config.Valid()
    requires config.numSnakes <= MAX_SNAKES && config.numLadders <= MAX_LADDERS
    requires config.rows * config.cols >= 0
    requires TransitionsInBoard(config.Value())
    ensures fresh(board) && fresh(board.fields) && board.Valid()
    ensures board.rows == config.rows && board.cols == config.cols
    ensures forall i :: 0 <= i < board.fields.Length ==> board.fields[i] == BoardNode(config.Value(), i)
  {
    var numFields := config.rows * config.cols;
    board := new GameBoard(config.rows, config.cols);
    var gb := board.fields;
    for i := 0 to numFields
      invariant board.fields == gb && board.rows == config.rows && board.cols == config.cols
      invariant forall k :: 0 <= k < i ==> gb[k] == BoardNode(config.Value(), k)
      invariant forall k :: i <= k < numFields ==> gb[k] == Node(Default, [])
    {
      BuildField(gb, config, i);
    }
  }
}
