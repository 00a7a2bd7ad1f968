/**
 * The 3x3 board: cells, players, the eight winning lines, and the Game class
 * holding a nine-cell array and the active player.
 */
module Board {
  import opened Protocol

  /** A cell; its ordinal (0, 1, 2) is the byte sent in a board update. */
  datatype Cell = Empty | X | O

  /** The two players; player id 1 is P1 and id 2 is P2. */
  datatype Player = P1 | P2

  const CELLS: nat := 9

  /** The wire value of a cell (static_cast<uint8_t> of the enum). */
  function Ordinal(c: Cell): byte {
    match c
    case Empty => 0
    case X => 1
    case O => 2
  }

  /** static_cast<Cell> of a byte, for the three values that name a cell. */
  function CellOf(b: byte): (c: Cell)
    requires b <= 2
    ensures Ordinal(c) == b
  {
    if b == 0 then Empty else if b == 1 then X else O
  }

  /** The mark a player's move places: X for P1, O for P2. */
  function MarkOf(p: Player): Cell {
    if p == P1 then X else O
  }

  /** The player id carried in WELCOME, TURN and WIN payloads. */
  function IdOf(p: Player): int {
    if p == P1 then 1 else 2
  }

  /** The other player (switchPlayer). */
  function Other(p: Player): (q: Player)
    ensures q != p && MarkOf(q) != MarkOf(p) && IdOf(q) == 3 - IdOf(p)
  {
    if p == P1 then P2 else P1
  }

  lemma OtherInvolution(p: Player)
    ensures Other(Other(p)) == p
  {
  }

  /** The eight winning triples: three rows, three columns, two diagonals (WIN_COMBOS). */
  const WIN_COMBOS: seq<seq<nat>> := [
    [0, 1, 2], [3, 4, 5], [6, 7, 8],
    [0, 3, 6], [1, 4, 7], [2, 5, 8],
    [0, 4, 8], [2, 4, 6]
  ]

  /** Every cell of combo `k` holds `c`. */
  predicate LineOf(b: seq<Cell>, k: nat, c: Cell)
    requires |b| == CELLS && k < |WIN_COMBOS|
  {
    b[WIN_COMBOS[k][0]] == c && b[WIN_COMBOS[k][1]] == c && b[WIN_COMBOS[k][2]] == c
  }

  /** Some winning triple is entirely `c`. */
  predicate HasLine(b: seq<Cell>, c: Cell)
    requires |b| == CELLS
  {
    exists k :: 0 <= k < |WIN_COMBOS| && LineOf(b, k, c)
  }

  /** The checkWin loop from combo `k` on, returning at the first full line. */
  function ScanCombos(b: seq<Cell>, c: Cell, k: nat): (r: bool)
    requires |b| == CELLS && k <= |WIN_COMBOS|
    ensures r <==> exists j :: k <= j < |WIN_COMBOS| && LineOf(b, j, c)
    decreases |WIN_COMBOS| - k
  {
    if k == |WIN_COMBOS| then false
    else if LineOf(b, k, c) then true
    else ScanCombos(b, c, k + 1)
  }

  /** The isDraw loop from index `i` on: false at the first empty cell. */
  function NoEmptyFrom(b: seq<Cell>, i: nat): (r: bool)
    requires i <= |b|
    ensures r <==> forall j :: i <= j < |b| ==> b[j] != Empty
    decreases |b| - i
  {
    if i == |b| then true
    else if b[i] == Empty then false
    else NoEmptyFrom(b, i + 1)
  }

  /** No cell is empty. */
  predicate Full(b: seq<Cell>) {
    forall i :: 0 <= i < |b| ==> b[i] != Empty
  }

  /** isValidMove on a board value. */
  predicate ValidMove(b: seq<Cell>, pos: int) {
    0 <= pos < |b| && b[pos] == Empty
  }

  /** The number of cells holding `c`. */
  function Count(b: seq<Cell>, c: Cell): (n: nat)
    ensures n <= |b|
  {
    if b == [] then 0 else Count(b[..|b| - 1], c) + (if b[|b| - 1] == c then 1 else 0)
  }

  /** The empty board. */
  function EmptyBoard(): (b: seq<Cell>)
    ensures |b| == CELLS && forall i :: 0 <= i < CELLS ==> b[i] == Empty
  {
    seq(CELLS, _ => Empty)
  }

  /** The BOARD_UPDATE payload for a board: each cell's ordinal, in index order. */
  function BoardBytes(b: seq<Cell>): (pl: seq<byte>)
    ensures |pl| == |b| && forall i :: 0 <= i < |b| ==> pl[i] == Ordinal(b[i])
  {
    seq(|b|, i requires 0 <= i < |b| => Ordinal(b[i]))
  }

  /** Every byte is the ordinal of some cell. */
  predicate CellBytes(pl: seq<byte>) {
    forall i :: 0 <= i < |pl| ==> pl[i] <= 2
  }

  /** The board a client rebuilds from BOARD_UPDATE payload bytes. */
  function BoardOf(pl: seq<byte>): (b: seq<Cell>)
    requires CellBytes(pl)
    ensures |b| == |pl| && forall i :: 0 <= i < |pl| ==> b[i] == CellOf(pl[i])
  {
    seq(|pl|, i requires 0 <= i < |pl| => CellOf(pl[i]))
  }

  /** A board survives being sent as a BOARD_UPDATE payload and read back. */
  lemma BoardBytesRoundTrip(b: seq<Cell>)
    ensures CellBytes(BoardBytes(b)) && BoardOf(BoardBytes(b)) == b
  {
    var pl := BoardBytes(b);
    assert CellBytes(pl) by {
      forall i | 0 <= i < |pl| ensures pl[i] <= 2 {
        assert pl[i] == Ordinal(b[i]);
      }
    }
    forall i | 0 <= i < |b| ensures BoardOf(pl)[i] == b[i] {
      assert Ordinal(CellOf(pl[i])) == Ordinal(b[i]);
    }
  }

  /** Row `r` of the grid (cells r*3+0, r*3+1, r*3+2) is entirely `c`. */
  predicate RowOf(b: seq<Cell>, c: Cell, r: nat)
    requires |b| == CELLS && r < 3
  {
    b[3 * r] == c && b[3 * r + 1] == c && b[3 * r + 2] == c
  }

  /** Column `col` of the grid (cells 0*3+col, 1*3+col, 2*3+col) is entirely `c`. */
  predicate ColumnOf(b: seq<Cell>, c: Cell, col: nat)
    requires |b| == CELLS && col < 3
  {
    b[col] == c && b[3 + col] == c && b[6 + col] == c
  }

  /** A row, a column, or one of the two diagonals is entirely `c`. */
  predicate GeometricLine(b: seq<Cell>, c: Cell)
    requires |b| == CELLS
  {
    RowOf(b, c, 0) || RowOf(b, c, 1) || RowOf(b, c, 2) ||
    ColumnOf(b, c, 0) || ColumnOf(b, c, 1) || ColumnOf(b, c, 2) ||
    (b[0] == c && b[4] == c && b[8] == c) ||
    (b[2] == c && b[4] == c && b[6] == c)
  }

  /** The combo table lists exactly the rows, columns and diagonals of the grid. */
  lemma HasLineGeometry(b: seq<Cell>, c: Cell)
    requires |b| == CELLS
    ensures HasLine(b, c) <==> GeometricLine(b, c)
  {
    if HasLine(b, c) {
      var k :| 0 <= k < |WIN_COMBOS| && LineOf(b, k, c);
      LineIsGeometric(b, c, k);
    }
    if GeometricLine(b, c) {
      GeometricIsLine(b, c);
    }
  }

  lemma LineIsGeometric(b: seq<Cell>, c: Cell, k: nat)
    requires |b| == CELLS && k < |WIN_COMBOS| && LineOf(b, k, c)
    ensures GeometricLine(b, c)
  {
    if k < 3 {
      assert WIN_COMBOS[k] == [3 * k, 3 * k + 1, 3 * k + 2];
      assert RowOf(b, c, k);
    } else if k < 6 {
      assert WIN_COMBOS[k] == [k - 3, k, k + 3];
      assert ColumnOf(b, c, k - 3);
    } else if k == 6 {
      assert WIN_COMBOS[k] == [0, 4, 8];
    } else {
      assert WIN_COMBOS[k] == [2, 4, 6];
    }
  }

  lemma GeometricIsLine(b: seq<Cell>, c: Cell)
    requires |b| == CELLS && GeometricLine(b, c)
    ensures HasLine(b, c)
  {
    var k: nat :=
      if RowOf(b, c, 0) then 0 else if RowOf(b, c, 1) then 1 else if RowOf(b, c, 2) then 2
      else if ColumnOf(b, c, 0) then 3 else if ColumnOf(b, c, 1) then 4
      else if ColumnOf(b, c, 2) then 5 else if b[0] == c && b[4] == c && b[8] == c then 6
      else 7;
    assert LineOf(b, k, c);
  }

  /** Placing `c` on an empty cell adds one `c`, removes one Empty, and keeps every other count. */
  lemma {:induction false} CountPlace(b: seq<Cell>, pos: nat, c: Cell, d: Cell)
    requires pos < |b| && b[pos] == Empty && c != Empty
    ensures Count(b[pos := c], d) ==
      Count(b, d) + (if d == c then 1 else 0) - (if d == Empty then 1 else 0)
  {
    var n := |b|;
    var b' := b[pos := c];
    if pos == n - 1 {
      assert b'[..n - 1] == b[..n - 1];
    } else {
      assert b'[..n - 1] == b[..n - 1][pos := c];
      CountPlace(b[..n - 1], pos, c, d);
    }
  }

  /** Count is at least the number of cells known to hold `c`. */
  lemma {:induction false} CountAtLeast(b: seq<Cell>, c: Cell, s: set<nat>)
    requires forall i :: i in s ==> i < |b| && b[i] == c
    ensures Count(b, c) >= |s|
  {
    if b != [] {
      var n := |b|;
      var s' := s - {n - 1};
      CountAtLeast(b[..n - 1], c, s');
      if n - 1 in s {
        assert |s'| == |s| - 1;
      } else {
        assert s' == s;
      }
    } else {
      assert s == {};
    }
  }

  /** The cells holding `c` are exactly those of combo `k`. */
  predicate OnlyLine(b: seq<Cell>, c: Cell, k: nat)
    requires |b| == CELLS && k < |WIN_COMBOS|
  {
    forall i :: 0 <= i < CELLS ==> (b[i] == c <==> i in WIN_COMBOS[k])
  }

  /**
   * With at most three marks of its kind on the board, a line for `c` means
   * the `c` cells are exactly one winning triple: no other configuration of
   * three or fewer marks wins.
   */
  lemma ThreeMarksWinOnlyOnLine(b: seq<Cell>, c: Cell)
    requires |b| == CELLS && Count(b, c) <= 3 && HasLine(b, c)
    ensures exists k :: 0 <= k < |WIN_COMBOS| && OnlyLine(b, c, k)
  {
    var k :| 0 <= k < |WIN_COMBOS| && LineOf(b, k, c);
    var line := WIN_COMBOS[k];
    forall i | 0 <= i < CELLS ensures b[i] == c <==> i in line {
      if b[i] == c && i !in line {
        var s := {line[0], line[1], line[2], i};
        assert |{line[0], line[1], line[2]}| == 3;
        assert |s| == 4;
        CountAtLeast(b, c, s);
      }
    }
    assert OnlyLine(b, c, k);
  }

  /** A board is full exactly when no move is valid on it. */
  lemma FullIffNoValidMove(b: seq<Cell>)
    ensures Full(b) <==> forall pos :: !ValidMove(b, pos)
  {
    if !Full(b) {
      var i :| 0 <= i < |b| && b[i] == Empty;
      assert ValidMove(b, i);
    }
  }

  /** A mark that appears nowhere counts zero. */
  lemma {:induction false} CountMissing(b: seq<Cell>, c: Cell)
    requires forall i :: 0 <= i < |b| ==> b[i] != c
    ensures Count(b, c) == 0
  {
    if b != [] {
      CountMissing(b[..|b| - 1], c);
    }
  }

  /**
   * The game: a nine-cell board and the active player. Like the C++ class,
   * it hands out its board array, so a caller may overwrite cells directly.
   */
  class Game {
    const cells: array<Cell>  // m_board
    var current: Player       // m_current

    ghost predicate Valid()
      reads this
    {
      cells.Length == CELLS
    }

    /** The board as a value. */
    function Board(): (b: seq<Cell>)
      reads this, cells
      requires Valid()
      ensures |b| == CELLS
    {
      cells[..]
    }

    /** Game(): a new game is reset. */
    constructor ()
      ensures Valid() && fresh(cells)
      ensures Board() == EmptyBoard() && current == P1
    {
      cells := new Cell[CELLS](_ => Empty);
      current := P1;
    }

    /**
     * reset: every cell empty, P1 to move. The new state does not depend on
     * the old one, so resetting twice is the same as resetting once.
     */
    method Reset()
      requires Valid()
      modifies this, cells
      ensures Valid()
      ensures Board() == EmptyBoard() && current == P1
    {
      var i := 0;
      while i < CELLS
        invariant 0 <= i <= CELLS
        invariant forall j :: 0 <= j < i ==> cells[j] == Empty
      {
        cells[i] := Empty;
        i := i + 1;
      }
      current := P1;
    }

    /** isValidMove: `pos` is a cell index and that cell is empty. */
    predicate IsValidMove(pos: int): (r: bool)
      reads this, cells
      requires Valid()
      ensures r <==> 0 <= pos < CELLS && cells[pos] == Empty
    {
      ValidMove(Board(), pos)
    }

    /**
     * move: when the move is valid, puts `p`'s mark at `pos` and nothing
     * else; otherwise changes nothing. Never touches the active player.
     */
    method Move(pos: int, p: Player) returns (ok: bool)
      requires Valid()
      modifies cells
      ensures ok == old(IsValidMove(pos))
      ensures ok ==> Board() == old(Board())[pos := MarkOf(p)]
      ensures !ok ==> Board() == old(Board())
    {
      if !IsValidMove(pos) {
        return false;
      }
      var c := if p == P1 then X else O;
      cells[pos] := c;
      return true;
    }

    /** checkWin: one of the eight triples holds only `p`'s mark. */
    function CheckWin(p: Player): (r: bool)
      reads this, cells
      requires Valid()
      ensures r <==> HasLine(Board(), MarkOf(p))
    {
      ScanCombos(Board(), MarkOf(p), 0)
    }

    /** isDraw: nobody has a line and no cell is empty. */
    function IsDraw(): (r: bool)
      reads this, cells
      requires Valid()
      ensures r <==> !HasLine(Board(), X) && !HasLine(Board(), O) && Full(Board())
    {
      if CheckWin(P1) || CheckWin(P2) then false
      else NoEmptyFrom(Board(), 0)
    }

    /** activePlayer. */
    function ActivePlayer(): (p: Player)
      reads this
      ensures p == current && IdOf(p) in {1, 2}
    {
      current
    }

    /** switchPlayer: P1 becomes P2 and P2 becomes P1; the board is untouched. */
    method SwitchPlayer()
      modifies this
      ensures current == Other(old(current))
    {
      if current == P1 {
        current := P2;
      } else {
        current := P1;
      }
    }
  }
}
