/**
 * Whole sessions run through the model: two players join, the start
 * sequence goes out, a move travels from a typed line over the wire into
 * the server, and a game is played to a win.
 */
module Scenarios {
  import opened Wrappers
  import opened Protocol
  import opened Board
  import opened Server
  import opened Client

  const FD1: nat := 10
  const FD2: nat := 11

  /** What both players receive once the second one has joined. */
  function OpeningOutbox(): seq<Outgoing> {
    [Outgoing(FD1, Message(WELCOME, [1])), Outgoing(FD2, Message(WELCOME, [2])),
     Outgoing(FD1, BoardMsg(EmptyBoard())), Outgoing(FD2, BoardMsg(EmptyBoard())),
     Outgoing(FD1, TurnMsg(P1)), Outgoing(FD2, TurnMsg(P1))]
  }

  /** Socket 10 connects first and becomes player 1; its handler sends WELCOME 1. */
  method FirstJoins() returns (s: Server)
    ensures fresh(s) && fresh(s.game) && fresh(s.game.cells) && s.Valid() && !s.halted
    ensures s.slots == [Some(FD1), None] && s.running == {1} && s.starting == {} && s.connections == 1
    ensures s.State() == GameState(EmptyBoard(), P1)
    ensures s.outbox == OpeningOutbox()[..1]
  {
    s := new Server();
    var a := s.Accept(FD1);
    assert a == 1;
    s.Greet(1);
  }

  /**
   * Socket 11 becomes player 2; its handler sends WELCOME 2 and then, with
   * both slots filled, the empty board and TURN 1 to both players.
   */
  method SecondJoins(s: Server)
    requires s.Valid() && !s.halted
    requires s.slots == [Some(FD1), None] && s.running == {1} && s.starting == {} && s.connections == 1
    requires s.State() == GameState(EmptyBoard(), P1) && s.outbox == OpeningOutbox()[..1]
    modifies s
    ensures s.Valid() && !s.halted
    ensures s.slots == [Some(FD1), Some(FD2)] && s.running == {1, 2} && s.starting == {} && s.connections == 2
    ensures s.State() == GameState(EmptyBoard(), P1)
    ensures s.outbox == OpeningOutbox()
  {
    var b := s.Accept(FD2);
    assert b == 2;
    s.Greet(2);
    assert GreetSequence(s.slots, GameState(EmptyBoard(), P1), 2) == OpeningOutbox()[1..];
  }

  /** A third connection while two are open is refused and changes nothing. */
  method ThirdRefused(s: Server) returns (id: int)
    requires s.Valid() && !s.halted && s.connections == 2
    modifies s
    ensures id == 0 && s.Valid()
    ensures s.slots == old(s.slots) && s.outbox == old(s.outbox) && s.connections == 2
  {
    id := s.Accept(12);
  }

  /** The opening as one outbox: welcomes, the empty board to both, TURN 1 to both. */
  method Opening() returns (out: seq<Outgoing>, refused: int)
    ensures out == OpeningOutbox() && refused == 0
    ensures forall o :: o in out ==> Deliverable(o.msg)
  {
    var s := FirstJoins();
    SecondJoins(s);
    refused := ThirdRefused(s);
    out := s.outbox;
  }

  /** The board after player 1 takes the centre. */
  function CentreTaken(): seq<Cell> {
    EmptyBoard()[4 := X]
  }

  /**
   * Player 1 answers TURN 1 with an empty line, a word and then "5": the
   * first two are rejected, the third is sent as MOVE_REQUEST 4, framed,
   * read back by the server and applied. Both players get the new board
   * and TURN 2.
   */
  method FirstMove(s: Server) returns (used: nat)
    requires s.Valid() && !s.halted && s.slots == [Some(FD1), Some(FD2)] && s.running == {1, 2}
    requires s.State() == GameState(EmptyBoard(), P1)
    modifies s, s.game, s.game.cells
    ensures s.Valid() && !s.halted && s.slots == old(s.slots) && s.running == {1, 2}
    ensures s.State() == GameState(CentreTaken(), P2)
    ensures s.outbox == old(s.outbox) +
      [Outgoing(FD1, MoveResultMsg(true)), Outgoing(FD1, BoardMsg(CentreTaken())), Outgoing(FD2, BoardMsg(CentreTaken())),
       Outgoing(FD1, TurnMsg(P2)), Outgoing(FD2, TurnMsg(P2))]
    ensures used == 3
  {
    var lines := ["", "abc", "5"];
    assert !IsDigit("abc"[0]);
    assert "5"[..0] == "";
    assert Value("5") == 5;
    var msgs, end;
    used, msgs, end := PromptLoop(lines);
    assert Classify(lines[2]) == Move(4);
    var m := msgs[0];
    assert m == Message(MOVE_REQUEST, [4]);
    var err, frame := Serialize(m.kind, Some(m.payload), |m.payload|, []);
    var err2, hdr, pl := Deserialize(frame, MsgHeader(0, 0), []);
    assert hdr.kind == MOVE_REQUEST && pl == [4];
    HasLineGeometry(CentreTaken(), X);
    assert CentreTaken()[0] == Empty;
    var outcome := s.Step(1, hdr.kind, pl);
  }

  /** The final board: X on the 2-4-6 diagonal, O on cells 0 and 1. */
  function DiagonalWon(): seq<Cell> {
    CentreTaken()[0 := O][2 := X][1 := O][6 := X]
  }

  /**
   * The active player takes an empty cell and the game goes on: the mover
   * gets MOVE_RESULT 0, both get the board and then the other player's TURN.
   */
  method OpenMove(s: Server, pos: nat)
    requires s.Valid() && !s.halted && s.slots == [Some(FD1), Some(FD2)] && s.running == {1, 2}
    requires pos < CELLS && s.State().board[pos] == Empty
    requires var g := s.State(); var b := g.board[pos := MarkOf(g.active)];
      !HasLine(b, MarkOf(g.active)) && !Full(b)
    modifies s, s.game, s.game.cells
    ensures s.Valid() && !s.halted && s.slots == old(s.slots) && s.running == {1, 2}
    ensures var g := old(s.State()); var b := g.board[pos := MarkOf(g.active)];
      s.State() == GameState(b, Other(g.active)) &&
      s.outbox == old(s.outbox) + [Outgoing(s.slots[IdOf(g.active) - 1].value, MoveResultMsg(true))] +
        ToBoth(s.slots, BoardMsg(b)) + ToBoth(s.slots, TurnMsg(Other(g.active)))
  {
    ghost var g := s.State();
    var b := g.board[pos := MarkOf(g.active)];
    HasLineGeometry(b, MarkOf(Other(g.active)));
    assert s.State().active == P1 || s.State().active == P2;
    var id := if s.State().active == P1 then 1 else 2;
    var outcome := s.Step(id, MOVE_REQUEST, [pos as byte]);
  }

  /** The board before player 1's winning move. */
  function BeforeWin(): seq<Cell> {
    CentreTaken()[0 := O][2 := X][1 := O]
  }

  /** A move of the middle game: `before` with `p` to move becomes `after` with the other to move. */
  method MidMove(s: Server, pos: nat, before: seq<Cell>, p: Player, after: seq<Cell>)
    requires s.Valid() && !s.halted && s.slots == [Some(FD1), Some(FD2)] && s.running == {1, 2}
    requires s.State() == GameState(before, p) && pos < CELLS && before[pos] == Empty
    requires after == before[pos := MarkOf(p)] && after[8] == Empty && !GeometricLine(after, MarkOf(p))
    modifies s, s.game, s.game.cells
    ensures s.Valid() && !s.halted && s.slots == old(s.slots) && s.running == {1, 2}
    ensures s.State() == GameState(after, Other(p))
  {
    HasLineGeometry(after, MarkOf(p));
    OpenMove(s, pos);
  }

  /** Player 2 takes 0, player 1 takes 2, player 2 takes 1; nobody has a line yet. */
  method MiddleGame(s: Server)
    requires s.Valid() && !s.halted && s.slots == [Some(FD1), Some(FD2)] && s.running == {1, 2}
    requires s.State() == GameState(CentreTaken(), P2)
    modifies s, s.game, s.game.cells
    ensures s.Valid() && !s.halted && s.slots == old(s.slots) && s.running == {1, 2}
    ensures s.State() == GameState(BeforeWin(), P1)
  {
    var b1 := CentreTaken()[0 := O];
    MidMove(s, 0, CentreTaken(), P2, b1);
    var b2 := b1[2 := X];
    MidMove(s, 2, b1, P1, b2);
    MidMove(s, 1, b2, P2, BeforeWin());
  }

  /**
   * Player 1 takes 6 and completes the 2-4-6 diagonal: after the move
   * result and the board, both players get WIN 1 and the winner's handler ends.
   */
  method WinningMove(s: Server) returns (outcome: Outcome)
    requires s.Valid() && !s.halted && s.slots == [Some(FD1), Some(FD2)] && s.running == {1, 2}
    requires s.State() == GameState(BeforeWin(), P1)
    modifies s, s.game, s.game.cells
    ensures s.Valid() && !s.halted && s.slots == old(s.slots)
    ensures outcome == HandlerEnds && s.running == {2}
    ensures s.State() == GameState(DiagonalWon(), P1) && HasLine(DiagonalWon(), X)
    ensures s.outbox == old(s.outbox) +
      [Outgoing(FD1, MoveResultMsg(true)), Outgoing(FD1, BoardMsg(DiagonalWon())), Outgoing(FD2, BoardMsg(DiagonalWon())),
       Outgoing(FD1, Message(WIN, [1])), Outgoing(FD2, Message(WIN, [1]))]
  {
    assert LineOf(DiagonalWon(), 7, X);
    outcome := s.Step(1, MOVE_REQUEST, [6]);
  }

  /**
   * After player 1 has won, the loser's handler still runs. Its next move
   * request is answered with "Not your turn", since the winner stays the
   * active player, and nothing else changes.
   */
  method LoserMovesAfterWin(s: Server) returns (outcome: Outcome)
    requires s.Valid() && !s.halted && s.slots == [Some(FD1), Some(FD2)] && s.running == {2}
    requires s.State() == GameState(DiagonalWon(), P1)
    modifies s, s.game, s.game.cells
    ensures outcome == Continue && s.State() == old(s.State()) && s.running == {2}
    ensures s.outbox == old(s.outbox) + [Outgoing(FD2, ErrorMsg(NOT_YOUR_TURN))]
  {
    outcome := s.Step(2, MOVE_REQUEST, [3]);
  }

  /**
   * Player 1's client over the opening: WELCOME 1 sets its id, the empty
   * board is loaded, and TURN 1 prompts; the typed "5" goes out as
   * MOVE_REQUEST 4, the request the server applies in FirstMove. A later
   * WIN 1 ends the session as a win.
   */
  method ClientSession() returns (c: Client)
    ensures c.Valid() && c.localId == 1 && c.game.Board() == EmptyBoard()
    ensures c.sent == [Message(MOVE_REQUEST, [4])] && c.input == []
    ensures c.status == Won
  {
    assert "5"[..0] == "";
    assert Value("5") == 5;
    c := new Client(["5"]);
    c.Receive(WELCOME, [1]);
    BoardBytesRoundTrip(EmptyBoard());
    c.Receive(BOARD_UPDATE, BoardBytes(EmptyBoard()));
    assert BoardBytes(EmptyBoard())[..CELLS] == BoardBytes(EmptyBoard());
    assert Classify("5") == Move(4);
    assert Answered(["5"], 1, [Message(MOVE_REQUEST, [4])], Listening);
    c.Receive(TURN, [1]);
    ghost var used: nat, msgs: seq<Message> :| Answered(["5"], used, msgs, c.status) &&
      used <= 1 && c.input == ["5"][used..] && c.sent == [] + msgs;
    AnsweredUnique(["5"], 1, [Message(MOVE_REQUEST, [4])], Listening, used, msgs, c.status);
    c.Receive(WIN, [1]);
  }

  /**
   * A whole game from a fresh server: both players join, player 1's typed
   * "5" takes the centre, the middle game follows, player 1 completes the
   * 2-4-6 diagonal, and the loser's later move is refused.
   */
  method WholeGame() returns (winning: Outcome, late: Outcome)
    ensures winning == HandlerEnds && late == Continue
  {
    var s := FirstJoins();
    SecondJoins(s);
    var used := FirstMove(s);
    MiddleGame(s);
    winning := WinningMove(s);
    late := LoserMovesAfterWin(s);
  }
}
