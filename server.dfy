/**
 * The server: admission of at most two players into a two-entry slot table,
 * the greeting each handler sends, and the per-message turn logic run under
 * the game mutex. Each handled message is one atomic step; every send is an
 * entry appended to an outbox.
 */
module Server {
  import opened Wrappers
  import opened Protocol
  import opened Board

  /** A message handed to send_all on socket `fd`. */
  datatype Outgoing = Outgoing(fd: nat, msg: Message)

  /** The shared game as a value: board and active player. */
  datatype GameState = GameState(board: seq<Cell>, active: Player)

  /** How a handler goes on after one message. */
  datatype Outcome =
    | Continue     // back to reading the next message
    | HandlerEnds  // the loop breaks after a win or a draw; the socket is closed
    | Halt         // a quit request shuts the whole server down

  /** The effect of one message: the new game, the sends in order, the outcome. */
  datatype Reaction = Reaction(game: GameState, sent: seq<Outgoing>, outcome: Outcome)

  const MALFORMED_MOVE: string := "ERR: MALFORMED MOVE REQUEST"
  const NOT_YOUR_TURN: string := "Not your turn"
  const UNEXPECTED_TYPE: string := "Unexpected message type"

  /** The bytes of a std::string; the three texts above are plain ASCII. */
  function TextBytes(s: string): (pl: seq<byte>)
    ensures |pl| == |s|
  {
    seq(|s|, i requires 0 <= i < |s| => (s[i] as int % 256) as byte)
  }

  function ErrorMsg(text: string): Message {
    Message(ERROR, TextBytes(text))
  }

  function BoardMsg(b: seq<Cell>): Message {
    Message(BOARD_UPDATE, BoardBytes(b))
  }

  function TurnMsg(p: Player): Message {
    Message(TURN, [IdOf(p) as byte])
  }

  function MoveResultMsg(applied: bool): Message {
    Message(MOVE_RESULT, [if applied then 0 else 1])
  }

  /** A send to `player_socket[i]`: nothing goes out on an empty (-1) slot. */
  function ToSlot(slots: seq<Option<nat>>, i: nat, m: Message): (out: seq<Outgoing>)
    requires i < |slots|
    ensures |out| <= 1 && forall o :: o in out ==> o.msg == m
  {
    if slots[i].Some? then [Outgoing(slots[i].value, m)] else []
  }

  /** The same message to slot 0, then to slot 1. */
  function ToBoth(slots: seq<Option<nat>>, m: Message): (out: seq<Outgoing>)
    requires |slots| == 2
    ensures forall o :: o in out ==> o.msg == m
  {
    ToSlot(slots, 0, m) + ToSlot(slots, 1, m)
  }

  /** The start sequence: the board to slot 0 then slot 1, then the turn to both. */
  function StartSequence(slots: seq<Option<nat>>, g: GameState): seq<Outgoing>
    requires |slots| == 2
  {
    ToBoth(slots, BoardMsg(g.board)) + ToBoth(slots, TurnMsg(g.active))
  }

  /**
   * The prologue of one handler: WELCOME with the player's own id, then the
   * start sequence, in player 2's handler only and only when both slots are filled.
   */
  function GreetSequence(slots: seq<Option<nat>>, g: GameState, id: int): (sent: seq<Outgoing>)
    requires |slots| == 2 && (id == 1 || id == 2) && slots[id - 1].Some?
    ensures |sent| >= 1 && sent[0] == Outgoing(slots[id - 1].value, Message(WELCOME, [id as byte]))
    ensures (id == 2 && slots[0].Some?) <==> sent[1..] == StartSequence(slots, g)
  {
    [Outgoing(slots[id - 1].value, Message(WELCOME, [id as byte]))] +
    (if id == 2 && slots[0].Some? && slots[1].Some? then StartSequence(slots, g) else [])
  }

  /** State in which player `id`'s handler can process a message. */
  predicate Ready(g: GameState, slots: seq<Option<nat>>, id: int) {
    |g.board| == CELLS && |slots| == 2 && (id == 1 || id == 2) && slots[id - 1].Some?
  }

  /** The active player has a line or the board is full: the game is over. */
  predicate Terminal(g: GameState)
    requires |g.board| == CELLS
  {
    HasLine(g.board, MarkOf(g.active)) || Full(g.board)
  }

  /**
   * What the message `kind`/`payload` from player `id` does to the game and
   * which replies it sends, following the dispatch in handle_client.
   */
  function Dispatch(g: GameState, slots: seq<Option<nat>>, id: int, kind: byte, payload: seq<byte>): (r: Reaction)
    requires Ready(g, slots, id)
    ensures r.sent == [] <==> r.outcome == Halt
    ensures |r.game.board| == CELLS
    ensures r.game.board == g.board ||
      (|payload| >= MOVE_REQUEST_SIZE && ValidMove(g.board, payload[0] as int) &&
       r.game.board == g.board[payload[0] as int := MarkOf(g.active)])
  {
    var sender := slots[id - 1].value;
    if kind == MOVE_REQUEST then
      if |payload| < MOVE_REQUEST_SIZE then
        Reaction(g, [Outgoing(sender, ErrorMsg(MALFORMED_MOVE))], Continue)
      else if id != IdOf(g.active) then
        Reaction(g, [Outgoing(sender, ErrorMsg(NOT_YOUR_TURN))], Continue)
      else
        var pos := payload[0] as int;
        var p := if id == 1 then P1 else P2;
        if !ValidMove(g.board, pos) then
          Reaction(g, ToSlot(slots, id - 1, MoveResultMsg(false)), Continue)
        else
          var b := g.board[pos := MarkOf(p)];
          var sent := ToSlot(slots, id - 1, MoveResultMsg(true)) + ToBoth(slots, BoardMsg(b));
          if HasLine(b, MarkOf(p)) then
            Reaction(GameState(b, g.active), sent + ToBoth(slots, Message(WIN, [id as byte])), HandlerEnds)
          else if !HasLine(b, X) && !HasLine(b, O) && Full(b) then
            Reaction(GameState(b, g.active), sent + ToBoth(slots, Message(DRAW, [])), HandlerEnds)
          else
            Reaction(GameState(b, Other(g.active)), sent + ToBoth(slots, TurnMsg(Other(g.active))), Continue)
    else if kind == QUIT_REQUEST then
      Reaction(g, [], Halt)
    else
      Reaction(g, [Outgoing(sender, ErrorMsg(UNEXPECTED_TYPE))], Continue)
  }

  /**
   * The turn-alternation invariant. Outside a finished game the non-active
   * player has no line and the number of X marks equals the number of O marks
   * when P1 is to move and exceeds it by one when P2 is. Once the game is over
   * the last mover stays active with its slot taken and its handler gone.
   * `alive` holds the ids whose handlers are still running.
   */
  ghost predicate TurnInvariant(g: GameState, slots: seq<Option<nat>>, alive: set<int>)
    requires |g.board| == CELLS && |slots| == 2
  {
    var xs, os := Count(g.board, X), Count(g.board, O);
    if Terminal(g) then
      slots[IdOf(g.active) - 1].Some? && IdOf(g.active) !in alive &&
      (if g.active == P1 then xs == os + 1 else xs == os)
    else
      !HasLine(g.board, MarkOf(Other(g.active))) &&
      (if g.active == P1 then xs == os else xs == os + 1)
  }

  /** The balance every reachable board satisfies. */
  lemma TurnInvariantBalanced(g: GameState, slots: seq<Option<nat>>, alive: set<int>)
    requires |g.board| == CELLS && |slots| == 2 && TurnInvariant(g, slots, alive)
    ensures Count(g.board, X) == Count(g.board, O) || Count(g.board, X) == Count(g.board, O) + 1
  {
  }

  /** Putting mark `m` on an empty cell creates no line of another mark. */
  lemma PlaceKeepsOtherLines(b: seq<Cell>, pos: nat, m: Cell, c: Cell)
    requires |b| == CELLS && pos < CELLS && m != c
    requires !HasLine(b, c)
    ensures !HasLine(b[pos := m], c)
  {
    var b' := b[pos := m];
    forall k | 0 <= k < |WIN_COMBOS| ensures !LineOf(b', k, c) {
      if LineOf(b', k, c) {
        assert LineOf(b, k, c);
      }
    }
  }

  /** Every message keeps the turn invariant (for the handlers still alive after it). */
  lemma DispatchKeepsTurnInvariant(g: GameState, slots: seq<Option<nat>>, alive: set<int>,
                                   id: int, kind: byte, payload: seq<byte>)
    requires Ready(g, slots, id) && id in alive && TurnInvariant(g, slots, alive)
    ensures var r := Dispatch(g, slots, id, kind, payload);
      |r.game.board| == CELLS &&
      TurnInvariant(r.game, slots, if r.outcome == HandlerEnds then alive - {id} else alive)
  {
    var r := Dispatch(g, slots, id, kind, payload);
    if kind == MOVE_REQUEST && |payload| >= MOVE_REQUEST_SIZE && id == IdOf(g.active) {
      var pos := payload[0] as int;
      var p := g.active;
      if ValidMove(g.board, pos) {
        var b := g.board[pos := MarkOf(p)];
        assert !Full(g.board) by {
          assert g.board[pos] == Empty;
        }
        CountPlace(g.board, pos, MarkOf(p), X);
        CountPlace(g.board, pos, MarkOf(p), O);
        PlaceKeepsOtherLines(g.board, pos, MarkOf(p), MarkOf(Other(p)));
        if !HasLine(b, MarkOf(p)) && !Full(b) {
          assert r.game == GameState(b, Other(p));
          OtherInvolution(p);
        }
      }
    }
  }

  /**
   * Only the active player's valid move changes the board, and it changes
   * exactly the requested cell to that player's mark.
   */
  lemma OnlyActiveValidMoveChangesBoard(g: GameState, slots: seq<Option<nat>>, id: int,
                                        kind: byte, payload: seq<byte>)
    requires Ready(g, slots, id)
    ensures var r := Dispatch(g, slots, id, kind, payload);
      r.game.board != g.board <==>
        kind == MOVE_REQUEST && |payload| >= MOVE_REQUEST_SIZE && id == IdOf(g.active) &&
        ValidMove(g.board, payload[0] as int)
    ensures var r := Dispatch(g, slots, id, kind, payload);
      r.game.board != g.board ==> r.game.board == g.board[payload[0] as int := MarkOf(g.active)]
  {
    if kind == MOVE_REQUEST && |payload| >= MOVE_REQUEST_SIZE && id == IdOf(g.active) {
      var pos := payload[0] as int;
      if ValidMove(g.board, pos) {
        assert g.board[pos := MarkOf(g.active)][pos] != g.board[pos];
      }
    }
  }

  /**
   * The turn passes exactly on a valid move that neither wins nor draws, and
   * then it passes to the other player.
   */
  lemma TurnPassesOnlyAfterOpenMove(g: GameState, slots: seq<Option<nat>>, id: int,
                                   kind: byte, payload: seq<byte>)
    requires Ready(g, slots, id)
    ensures var r := Dispatch(g, slots, id, kind, payload);
      r.game.active != g.active ==>
        r.game.active == Other(g.active) && r.game.board != g.board && r.outcome == Continue &&
        !HasLine(r.game.board, MarkOf(g.active))
  {
    var r := Dispatch(g, slots, id, kind, payload);
    if r.game.active != g.active {
      var pos := payload[0] as int;
      assert g.board[pos := MarkOf(g.active)][pos] != g.board[pos];
    }
  }

  /**
   * A request from the player who is not active changes nothing and draws a
   * single "Not your turn" error to the sender.
   */
  lemma TurnGating(g: GameState, slots: seq<Option<nat>>, id: int, payload: seq<byte>)
    requires Ready(g, slots, id) && |payload| >= MOVE_REQUEST_SIZE && id != IdOf(g.active)
    ensures Dispatch(g, slots, id, MOVE_REQUEST, payload) ==
      Reaction(g, [Outgoing(slots[id - 1].value, ErrorMsg(NOT_YOUR_TURN))], Continue)
  {
  }

  /**
   * The active player's request is always answered first with MOVE_RESULT to
   * its own socket: status 0 when the move applied, 1 when it was rejected;
   * a rejected move changes nothing and that player stays active.
   */
  lemma ActivePlayerGetsMoveResult(g: GameState, slots: seq<Option<nat>>, id: int, payload: seq<byte>)
    requires Ready(g, slots, id) && |payload| >= MOVE_REQUEST_SIZE && id == IdOf(g.active)
    ensures var r := Dispatch(g, slots, id, MOVE_REQUEST, payload);
      var applied := ValidMove(g.board, payload[0] as int);
      |r.sent| >= 1 && r.sent[0] == Outgoing(slots[id - 1].value, MoveResultMsg(applied)) &&
      (!applied ==> r == Reaction(g, r.sent, Continue) && |r.sent| == 1)
  {
  }

  /**
   * After a valid move the mover's result goes to the mover's slot and the
   * board to slot 0 then slot 1; then a winning move announces the winner
   * (even on a full board, so a win is never reported as a draw), a full
   * board without a line a draw, and otherwise the other player's turn, to
   * both slots. Only a win or a full board ends the handler; otherwise the
   * turn passes. Sends to an empty slot are dropped, so this holds also
   * before the second player has joined.
   */
  lemma ValidMoveAnnouncements(g: GameState, slots: seq<Option<nat>>, id: int, payload: seq<byte>)
    requires Ready(g, slots, id)
    requires |payload| >= MOVE_REQUEST_SIZE && id == IdOf(g.active) && ValidMove(g.board, payload[0] as int)
    requires !HasLine(g.board, MarkOf(Other(g.active)))
    ensures var r := Dispatch(g, slots, id, MOVE_REQUEST, payload);
      var b := g.board[payload[0] as int := MarkOf(g.active)];
      var over := HasLine(b, MarkOf(g.active)) || Full(b);
      var last := if HasLine(b, MarkOf(g.active)) then Message(WIN, [id as byte])
                  else if Full(b) then Message(DRAW, [])
                  else TurnMsg(Other(g.active));
      r.sent == ToSlot(slots, id - 1, MoveResultMsg(true)) + ToBoth(slots, BoardMsg(b)) + ToBoth(slots, last) &&
      r.game == GameState(b, if over then g.active else Other(g.active)) &&
      (r.outcome == HandlerEnds <==> over) && (r.outcome == Continue <==> !over)
  {
    PlaceKeepsOtherLines(g.board, payload[0] as int, MarkOf(g.active), MarkOf(Other(g.active)));
  }

  /** With both players joined, a valid move produces exactly five messages. */
  lemma ValidMoveFiveMessages(g: GameState, slots: seq<Option<nat>>, id: int, payload: seq<byte>)
    requires Ready(g, slots, id) && slots[0].Some? && slots[1].Some?
    requires |payload| >= MOVE_REQUEST_SIZE && id == IdOf(g.active) && ValidMove(g.board, payload[0] as int)
    requires !HasLine(g.board, MarkOf(Other(g.active)))
    ensures var r := Dispatch(g, slots, id, MOVE_REQUEST, payload);
      var b := r.game.board;
      var f0, f1 := slots[0].value, slots[1].value;
      |r.sent| == 5 &&
      r.sent[..3] == [Outgoing(slots[id - 1].value, MoveResultMsg(true)),
                      Outgoing(f0, BoardMsg(b)), Outgoing(f1, BoardMsg(b))] &&
      r.sent[3].msg == r.sent[4].msg && r.sent[3].fd == f0 && r.sent[4].fd == f1
  {
    ValidMoveAnnouncements(g, slots, id, payload);
  }

  /** A move request without its position byte draws the malformed-request error to the sender and changes nothing. */
  lemma MalformedMove(g: GameState, slots: seq<Option<nat>>, id: int)
    requires Ready(g, slots, id)
    ensures Dispatch(g, slots, id, MOVE_REQUEST, []) ==
      Reaction(g, [Outgoing(slots[id - 1].value, ErrorMsg(MALFORMED_MOVE))], Continue)
  {
  }

  /** A quit request halts the server and nothing else does. */
  lemma OnlyQuitHalts(g: GameState, slots: seq<Option<nat>>, id: int, kind: byte, payload: seq<byte>)
    requires Ready(g, slots, id)
    ensures var r := Dispatch(g, slots, id, kind, payload);
      (r.outcome == Halt <==> kind == QUIT_REQUEST) &&
      (r.outcome == Halt ==> r.game == g && r.sent == [])
  {
  }

  /** A message that is neither a move nor a quit draws an error to the sender and changes nothing. */
  lemma UnexpectedTypeIgnored(g: GameState, slots: seq<Option<nat>>, id: int, kind: byte, payload: seq<byte>)
    requires Ready(g, slots, id) && kind != MOVE_REQUEST && kind != QUIT_REQUEST
    ensures Dispatch(g, slots, id, kind, payload) ==
      Reaction(g, [Outgoing(slots[id - 1].value, ErrorMsg(UNEXPECTED_TYPE))], Continue)
  {
  }

  /** A message a client can read: it fits a frame, carries its struct's bytes, and board bytes name cells. */
  predicate Deliverable(m: Message) {
    Encodable(m) && |m.payload| >= MinPayload(m.kind) &&
    (m.kind == BOARD_UPDATE ==> CellBytes(m.payload))
  }

  ghost predicate AllDeliverable(out: seq<Outgoing>) {
    forall o :: o in out ==> Deliverable(o.msg)
  }

  lemma BoardMsgDeliverable(b: seq<Cell>)
    requires |b| == CELLS
    ensures Deliverable(BoardMsg(b))
  {
    BoardBytesRoundTrip(b);
  }

  /** Everything the server sends fits a frame, so serialize never fails on it. */
  lemma DispatchSendsDeliverable(g: GameState, slots: seq<Option<nat>>, id: int, kind: byte, payload: seq<byte>)
    requires Ready(g, slots, id)
    ensures forall o :: o in Dispatch(g, slots, id, kind, payload).sent ==> Deliverable(o.msg)
  {
    if kind == MOVE_REQUEST && |payload| >= MOVE_REQUEST_SIZE && id == IdOf(g.active) &&
       ValidMove(g.board, payload[0] as int) {
      BoardMsgDeliverable(g.board[payload[0] as int := MarkOf(g.active)]);
    }
  }

  /** The number of filled slots. */
  function Filled(slots: seq<Option<nat>>): (n: nat)
    requires |slots| == 2
    ensures n <= 2
  {
    (if slots[0].Some? then 1 else 0) + (if slots[1].Some? then 1 else 0)
  }

  /**
   * Only two ids exist and each live handler owns its slot, so there are
   * never more live handlers than filled slots: the connection-count check
   * never refuses a connection that the slot check would have admitted.
   */
  lemma AliveAtMostFilled(slots: seq<Option<nat>>, alive: set<int>)
    requires |slots| == 2
    requires forall i :: i in alive ==> (i == 1 || i == 2) && slots[i - 1].Some?
    ensures |alive| <= Filled(slots)
  {
    SubsetOfPairCard(alive, slots[0].Some?, slots[1].Some?);
  }

  lemma SubsetOfPairCard(a: set<int>, one: bool, two: bool)
    requires forall i :: i in a ==> (i == 1 && one) || (i == 2 && two)
    ensures |a| <= (if one then 1 else 0) + (if two then 1 else 0)
  {
    if 1 in a && 2 in a {
      assert forall i :: i in a <==> i in {1, 2};
      assert a == {1, 2};
    } else if 1 in a {
      assert forall i :: i in a <==> i in {1};
      assert a == {1};
    } else if 2 in a {
      assert forall i :: i in a <==> i in {2};
      assert a == {2};
    } else {
      assert forall i :: i !in a;
      assert a == {};
    }
  }

  /**
   * The turn invariant survives admitting or retiring handlers: filled slots
   * stay filled and only ids whose slot was free join the live set.
   */
  lemma TurnInvariantFrame(g: GameState, slots: seq<Option<nat>>, slots': seq<Option<nat>>,
                           alive: set<int>, alive': set<int>)
    requires |g.board| == CELLS && |slots| == 2 && |slots'| == 2
    requires TurnInvariant(g, slots, alive)
    requires slots[0].Some? ==> slots'[0].Some?
    requires slots[1].Some? ==> slots'[1].Some?
    requires forall i :: i in alive' && i !in alive ==> (i == 1 || i == 2) && slots[i - 1].None?
    ensures TurnInvariant(g, slots', alive')
  {
    if Terminal(g) {
      assert IdOf(g.active) !in alive';
    }
  }

  /**
   * Slots fill in order (slot 1 only after slot 0); a handler's id is 1 or 2
   * and owns a filled slot; no handler is both starting and running; the
   * connection counter counts the live handlers.
   */
  ghost predicate SlotsInv(slots: seq<Option<nat>>, starting: set<int>, running: set<int>, connections: nat) {
    |slots| == 2 &&
    (slots[1].Some? ==> slots[0].Some?) &&
    starting !! running &&
    (forall i :: i in starting + running ==> (i == 1 || i == 2) && slots[i - 1].Some?) &&
    connections == |starting + running|
  }

  /** The server invariant on values: slots, the turn invariant, and a readable outbox. */
  ghost predicate ServerInv(g: GameState, slots: seq<Option<nat>>, starting: set<int>, running: set<int>,
                            connections: nat, outbox: seq<Outgoing>) {
    |g.board| == CELLS && SlotsInv(slots, starting, running, connections) &&
    TurnInvariant(g, slots, starting + running) && AllDeliverable(outbox)
  }

  lemma AdmitKeepsInv(g: GameState, slots: seq<Option<nat>>, starting: set<int>, running: set<int>,
                      connections: nat, outbox: seq<Outgoing>, id: int, fd: nat)
    requires ServerInv(g, slots, starting, running, connections, outbox)
    requires (id == 1 && slots[0].None?) || (id == 2 && slots[0].Some? && slots[1].None?)
    ensures ServerInv(g, slots[id - 1 := Some(fd)], starting + {id}, running, connections + 1, outbox)
  {
    var slots' := slots[id - 1 := Some(fd)];
    var alive := starting + running;
    assert id !in alive;
    assert starting + {id} + running == alive + {id};
    TurnInvariantFrame(g, slots, slots', alive, alive + {id});
  }

  lemma GreetKeepsInv(g: GameState, slots: seq<Option<nat>>, starting: set<int>, running: set<int>,
                      connections: nat, outbox: seq<Outgoing>, id: int, sent: seq<Outgoing>)
    requires ServerInv(g, slots, starting, running, connections, outbox)
    requires id in starting && AllDeliverable(sent)
    ensures ServerInv(g, slots, starting - {id}, running + {id}, connections, outbox + sent)
  {
    assert (starting - {id}) + (running + {id}) == starting + running;
  }

  lemma RetireKeepsInv(g: GameState, slots: seq<Option<nat>>, starting: set<int>, running: set<int>,
                       connections: nat, outbox: seq<Outgoing>, id: int, sent: seq<Outgoing>)
    requires |g.board| == CELLS && SlotsInv(slots, starting, running, connections)
    requires id in running && TurnInvariant(g, slots, starting + running - {id})
    requires AllDeliverable(outbox) && AllDeliverable(sent)
    ensures connections >= 1
    ensures ServerInv(g, slots, starting, running - {id}, connections - 1, outbox + sent)
  {
    assert starting + (running - {id}) == starting + running - {id};
  }

  lemma StepKeepsInv(g: GameState, slots: seq<Option<nat>>, starting: set<int>, running: set<int>,
                     connections: nat, outbox: seq<Outgoing>, id: int, kind: byte, payload: seq<byte>)
    requires ServerInv(g, slots, starting, running, connections, outbox) && id in running
    ensures Ready(g, slots, id)
    ensures var r := Dispatch(g, slots, id, kind, payload);
      var ends := r.outcome == HandlerEnds;
      (ends ==> connections >= 1) &&
      ServerInv(r.game, slots, starting, if ends then running - {id} else running,
                if ends then connections - 1 else connections, outbox + r.sent)
  {
    var alive := starting + running;
    DispatchKeepsTurnInvariant(g, slots, alive, id, kind, payload);
    DispatchSendsDeliverable(g, slots, id, kind, payload);
    var r := Dispatch(g, slots, id, kind, payload);
    if r.outcome == HandlerEnds {
      RetireKeepsInv(r.game, slots, starting, running, connections, outbox, id, r.sent);
    }
  }

  /**
   * The server process: the shared game, the player_socket table, the
   * connection counter, and the sends made so far. The ghost sets record
   * which handler threads are still in their prologue and which are in their
   * message loop.
   */
  class Server {
    const game: Game
    var slots: seq<Option<nat>>   // player_socket; None is -1
    var connections: nat          // current_connections
    var outbox: seq<Outgoing>
    var halted: bool
    ghost var starting: set<int>  // admitted, greeting not yet sent
    ghost var running: set<int>   // in the message loop

    function State(): GameState
      reads game, game.cells
      requires game.Valid()
    {
      GameState(game.Board(), game.current)
    }

    ghost predicate Valid()
      reads this, game, game.cells
    {
      game.Valid() && ServerInv(State(), slots, starting, running, connections, outbox)
    }

    /** Server start: a fresh game, both slots empty, nothing sent. */
    constructor ()
      ensures Valid() && fresh(game) && fresh(game.cells)
      ensures State() == GameState(EmptyBoard(), P1)
      ensures slots == [None, None] && connections == 0 && outbox == [] && !halted
      ensures starting == {} && running == {}
    {
      game := new Game();
      slots := [None, None];
      connections := 0;
      outbox := [];
      halted := false;
      starting := {};
      running := {};
      new;
      CountMissing(EmptyBoard(), X);
      CountMissing(EmptyBoard(), O);
      assert !LineOf(EmptyBoard(), 0, X);
      assert !HasLine(EmptyBoard(), X) && !HasLine(EmptyBoard(), O);
    }

    /**
     * The accept loop's admission of connection `fd`: refused (id 0, nothing
     * changes) when two connections are open or both slots are taken;
     * otherwise the first free slot, in order 0 then 1, takes `fd` and the
     * player id is the slot index plus one.
     */
    method Accept(fd: nat) returns (id: int)
      requires Valid() && !halted
      modifies this
      ensures Valid()
      ensures id in {0, 1, 2}
      ensures old(connections) >= 2 || (old(slots)[0].Some? && old(slots)[1].Some?) <==> id == 0
      ensures id == 0 ==> slots == old(slots) && connections == old(connections) && starting == old(starting)
      ensures id == 1 <==> old(connections) < 2 && old(slots)[0].None?
      ensures id != 0 ==> old(slots)[id - 1].None? && slots == old(slots)[id - 1 := Some(fd)]
      ensures id != 0 ==> connections == old(connections) + 1 && starting == old(starting) + {id}
      ensures running == old(running) && outbox == old(outbox) && halted == old(halted)
    {
      if connections >= 2 {
        AliveAtMostFilled(slots, starting + running);
        return 0;
      }
      if slots[0].None? {
        id := 1;
      } else if slots[1].None? {
        id := 2;
      } else {
        return 0;
      }
      AdmitKeepsInv(State(), slots, starting, running, connections, outbox, id, fd);
      slots := slots[id - 1 := Some(fd)];
      starting := starting + {id};
      connections := connections + 1;
    }

    /**
     * The prologue of handle_client: WELCOME with the player's own id, then,
     * in player 2's handler only and only when both slots are filled, the
     * start sequence with the current board and active player.
     */
    method Greet(id: int)
      requires Valid() && !halted && id in starting
      modifies this
      ensures Valid()
      ensures starting == old(starting) - {id} && running == old(running) + {id}
      ensures slots == old(slots) && connections == old(connections) && halted == old(halted)
      ensures slots[id - 1].Some?
      ensures outbox == old(outbox) + GreetSequence(slots, State(), id)
    {
      var sent := GreetMessages(id);
      GreetKeepsInv(State(), slots, starting, running, connections, outbox, id, sent);
      outbox := outbox + sent;
      starting := starting - {id};
      running := running + {id};
    }

    /** What handle_client sends before its receive loop, computed without changing anything. */
    method GreetMessages(id: int) returns (sent: seq<Outgoing>)
      requires game.Valid() && |slots| == 2 && (id == 1 || id == 2) && slots[id - 1].Some?
      ensures sent == GreetSequence(slots, State(), id) && AllDeliverable(sent)
    {
      sent := [Outgoing(slots[id - 1].value, Message(WELCOME, [id as byte]))];
      if slots[0].Some? && slots[1].Some? && id == 2 {
        var start := StartMessages();
        sent := sent + start;
      }
    }

    /**
     * The start sequence under the mutex: send_board to slot 0 and slot 1,
     * then TURN with the active player's id to both.
     */
    method StartMessages() returns (sent: seq<Outgoing>)
      requires game.Valid() && |slots| == 2
      ensures sent == StartSequence(slots, State()) && AllDeliverable(sent)
    {
      var pl := EncodeBoard();
      var active: byte := if game.ActivePlayer() == P1 then 1 else 2;
      sent := ToBoth(slots, Message(BOARD_UPDATE, pl)) + ToBoth(slots, Message(TURN, [active]));
      BoardMsgDeliverable(State().board);
    }

    /** send_board's loop: the ordinal of each cell in index order. */
    method EncodeBoard() returns (pl: seq<byte>)
      requires game.Valid()
      ensures pl == BoardBytes(game.Board())
    {
      pl := [];
      var i := 0;
      while i < CELLS
        invariant 0 <= i <= CELLS
        invariant pl == BoardBytes(game.Board()[..i])
      {
        assert game.Board()[..i + 1] == game.Board()[..i] + [game.cells[i]];
        pl := pl + [Ordinal(game.cells[i])];
        i := i + 1;
      }
      assert game.Board()[..CELLS] == game.Board();
    }

    /**
     * One message from player `id`, handled as one atomic step: the new
     * game, the sends and the outcome are those of Dispatch. A handler that
     * ends leaves its slot taken; a quit request halts the server.
     */
    method Step(id: int, kind: byte, payload: seq<byte>) returns (outcome: Outcome)
      requires Valid() && !halted && id in running && |payload| <= MAX_PAYLOAD
      modifies this, game, game.cells
      ensures Valid()
      ensures Ready(old(State()), old(slots), id)
      ensures var r := Dispatch(old(State()), old(slots), id, kind, payload);
        State() == r.game && outbox == old(outbox) + r.sent && outcome == r.outcome
      ensures slots == old(slots) && starting == old(starting) && halted == (outcome == Halt)
      ensures running == if outcome == HandlerEnds then old(running) - {id} else old(running)
      ensures connections == if outcome == HandlerEnds then old(connections) - 1 else old(connections)
    {
      StepKeepsInv(State(), slots, starting, running, connections, outbox, id, kind, payload);
      var sent;
      outcome, sent := Handle(id, kind, payload);
      outbox := outbox + sent;
      if outcome == HandlerEnds {
        running := running - {id};
        connections := connections - 1;
      } else if outcome == Halt {
        halted := true;
      }
    }

    /**
     * The body of the message loop for one message: the calls on the shared
     * game and the messages sent, in the order handle_client makes them.
     */
    method Handle(id: int, kind: byte, payload: seq<byte>) returns (outcome: Outcome, sent: seq<Outgoing>)
      requires game.Valid() && Ready(State(), slots, id)
      modifies game, game.cells
      ensures game.Valid()
      ensures var r := Dispatch(old(State()), slots, id, kind, payload);
        State() == r.game && sent == r.sent && outcome == r.outcome
    {
      var fd := slots[id - 1].value;
      if kind == MOVE_REQUEST {
        if |payload| < MOVE_REQUEST_SIZE {
          return Continue, [Outgoing(fd, ErrorMsg(MALFORMED_MOVE))];
        }
        var pos := payload[0] as int;
        var active := if game.ActivePlayer() == P1 then 1 else 2;
        if id != active {
          return Continue, [Outgoing(fd, ErrorMsg(NOT_YOUR_TURN))];
        }
        var p := if id == 1 then P1 else P2;
        var valid := game.Move(pos, p);
        sent := ToSlot(slots, id - 1, MoveResultMsg(valid));
        if !valid {
          return Continue, sent;
        }
        var pl := EncodeBoard();
        sent := sent + ToBoth(slots, Message(BOARD_UPDATE, pl));
        if game.CheckWin(p) {
          return HandlerEnds, sent + ToBoth(slots, Message(WIN, [id as byte]));
        }
        if game.IsDraw() {
          return HandlerEnds, sent + ToBoth(slots, Message(DRAW, []));
        }
        game.SwitchPlayer();
        var next: byte := if game.ActivePlayer() == P1 then 1 else 2;
        return Continue, sent + ToBoth(slots, Message(TURN, [next]));
      } else if kind == QUIT_REQUEST {
        return Halt, [];
      } else {
        return Continue, [Outgoing(fd, ErrorMsg(UNEXPECTED_TYPE))];
      }
    }

    /**
     * A failed read ends player `id`'s handler: the socket is closed and the
     * counter drops, but the slot is not cleared.
     */
    method Disconnect(id: int)
      requires Valid() && !halted && id in running
      modifies this
      ensures Valid()
      ensures running == old(running) - {id} && connections == old(connections) - 1
      ensures slots == old(slots) && starting == old(starting) && outbox == old(outbox) && halted == old(halted)
    {
      assert TurnInvariant(State(), slots, starting + running - {id}) by {
        TurnInvariantFrame(State(), slots, slots, starting + running, starting + running - {id});
      }
      RetireKeepsInv(State(), slots, starting, running, connections, outbox, id, []);
      assert outbox + [] == outbox;
      running := running - {id};
      connections := connections - 1;
    }
  }
}
