# Socket tic-tac-toe in Dafny

This project models a two-player tic-tac-toe game played over TCP. A
server holds one shared game and two player slots. Each client reads the
player's typed moves and draws the board. Both sides speak a small binary
protocol: a frame is a type byte, a size byte, then up to 255 payload bytes.

The model has five modules.

- `Protocol` (`protocol.dfy`) models the message types, the error codes,
  and `serialize`/`deserialize` over byte sequences. Lemmas cover the frame
  layout and that frames decode uniquely, plus the encode-then-decode
  round trip with trailing bytes.
- `Board` (`board.dfy`) models the `Game` class: a nine-cell `array`, the
  active player, and `reset`, `move`, `isValidMove`, `checkWin` (a scan
  over the eight winning triples), `isDraw` and `switchPlayer`. It also
  holds the board values these are specified against, with lemmas about
  lines, marks and full boards.
- `Server` (`server.dfy`) models the server in two layers:
  - `Dispatch` is a pure function giving the reply to one message in
    `handle_client`;
  - class `Server` holds the slot table, the connection counter and an
    outbox of sent messages. Its methods `Accept` (admission in `main`),
    `Greet` (the handler prologue), `Step` (one message) and `Disconnect`
    (a failed receive) keep a server invariant.

  The invariant includes the turn-alternation invariant: the mark counts
  are balanced, and the player waiting for a move has no line.
- `Client` (`client.dfy`) models handle_input as `Classify` and the prompt
  loop as `PromptLoop`. Class `Client` holds the client's id, its local
  board, the remaining typed lines and what it has sent.
- `Scenarios` (`scenarios.dfy`) holds end-to-end runs:
  - two players join and a third connection is refused;
  - a typed "5" travels over the wire and is applied;
  - a game is played to a diagonal win, chained from a fresh server in
    `WholeGame`;
  - the loser moves after the game is over;
  - a client session runs from WELCOME to WIN.

I/O is modelled as follows:

- Sockets become file-descriptor numbers.
- A send is an `Outgoing(fd, msg)` entry appended to the outbox. A send to
  an empty slot (socket -1) appends nothing.
- A receive is a whole message handed to `Step` or `Receive`.
- The console becomes a sequence of lines that the client consumes.

This model follows the code as written, including these behaviours:

- A slot is never cleared when its handler ends, although the comment at
  src/server.cpp:236-239 says "clear socket slot"; only the socket is closed.
- Moves are accepted before the second player has joined; sends to the
  empty slot are dropped.
- A QUIT_REQUEST shuts the whole server down (`Halt`), because the handler
  calls `handle_quit`, which exits the process (src/server.cpp:225-227, 76-81).
- After a win or a draw, the active player stays the last mover. The
  losing player's handler keeps running, so its MOVE_REQUEST gets "Not
  your turn" (`Scenarios.LoserMovesAfterWin`).

## Model

| member | source | states |
|---|---|---|
| Protocol.Frame | src/protocol.cpp:20-36 | a frame is the type byte, the size byte, then exactly the payload; its length is 2 + size, between 2 and 257 |
| Protocol.Serialize | src/protocol.cpp:6-40 | size > 255 gives INVALID_SIZE; a null payload with a nonzero size gives NULL_PAYLOAD; on any error the output buffer is untouched; otherwise OK, and the buffer is replaced by the frame of the first `size` payload bytes; INVALID_TYPE is never returned |
| Protocol.Deserialize | src/protocol.cpp:42-64 | fewer than 2 bytes gives BUFFER_TOO_SMALL with both outputs untouched; otherwise the header is bytes 0 and 1; fewer than 2 + size bytes gives SIZE_MISMATCH with the payload untouched; otherwise OK with the payload being exactly bytes 2 .. 2+size, and trailing bytes ignored |
| Protocol.SerializeThenDeserialize | src/test_protocol.cpp:9-28 | for every type and every payload up to 255 bytes, with any trailing bytes, serialize then deserialize both return OK and give back the type, the size and the payload |
| Protocol.FrameUnique | src/protocol.cpp:42-64 | a frame followed by extra bytes equals another frame only when types, payloads agree and there are no extra bytes: a frame boundary is determined by its header |
| Board.CellOf | src/client.cpp:188-190 | decoding a cell byte 0..2 inverts the cell's ordinal |
| Board.Other | src/game.cpp:67-73 | the other player differs, has the other mark and the id 3 - id |
| Board.ScanCombos | src/game.cpp:40-46 | scanning combos from k on finds a line of `c` exactly when some combo j >= k is all `c` |
| Board.NoEmptyFrom | src/game.cpp:53-58 | scanning cells from i on finds no empty cell exactly when every cell from i on is taken |
| Board.BoardBytesRoundTrip | src/server.cpp:57-62 | the board bytes the server sends are all 0..2 and the client's decoding rebuilds the same board |
| Board.HasLineGeometry | src/game.cpp:4-15 | the eight triples are exactly the three rows, three columns and two diagonals of the 3x3 grid |
| Board.CountPlace | src/game.cpp:24-31 | placing a mark on an empty cell adds one to that mark's count, removes one empty cell, and leaves the other mark's count unchanged |
| Board.ThreeMarksWinOnlyOnLine | src/game.cpp:37-47 | with at most three marks of `c`, a detected line means the cells holding `c` are exactly one winning triple |
| Board.FullIffNoValidMove | src/game.cpp:33-35 | the board is full exactly when no position is a valid move |
| Board.Game.constructor | src/game.cpp:17 | a new game has nine empty cells and P1 to move |
| Board.Game.Reset | src/game.cpp:19-22 | all nine cells become empty and P1 is to move |
| Board.Game.Move | src/game.cpp:24-31 | succeeds exactly when the position is valid; on success only that cell changes, to the player's mark; on failure the board is unchanged |
| Board.Game.IsValidMove | src/game.cpp:33-35 | true exactly when the position is in 0..8 and that cell is empty |
| Board.Game.ActivePlayer | src/game.cpp:65 | returns the player whose turn it is, whose id is 1 or 2 |
| Board.Game.CheckWin | src/game.cpp:37-47 | true exactly when one of the eight triples holds the player's mark |
| Board.Game.IsDraw | src/game.cpp:49-59 | true exactly when neither player has a line and no cell is empty |
| Board.Game.SwitchPlayer | src/game.cpp:67-73 | the active player becomes the other player; the board is unchanged |
| Server.Dispatch | src/server.cpp:145-233 | the reply to one message: nothing is sent exactly when the server halts, and the board either stays the same or gains the active player's mark on a valid, empty position |
| Server.GreetSequence | src/server.cpp:92-116 | the prologue starts with WELCOME carrying the player's id; the start sequence follows exactly in player 2's handler when both slots are filled |
| Server.TurnInvariantBalanced | src/server.cpp:161-223 | on every board the server reaches, X has as many marks as O or one more |
| Server.PlaceKeepsOtherLines | src/server.cpp:174-175 | a move by one player never creates a line for the other |
| Server.DispatchKeepsTurnInvariant | src/server.cpp:145-233 | every message keeps the turn invariant: balanced counts and no line for the waiting player while the game is open; once it is over, the last mover stays active and its handler has ended |
| Server.OnlyActiveValidMoveChangesBoard | src/server.cpp:161-184 | the board changes exactly on a well-formed request from the active player naming an empty cell, and then only that cell changes, to the mover's mark |
| Server.TurnPassesOnlyAfterOpenMove | src/server.cpp:194-223 | the active player changes only after an applied move that does not win; it goes to the other player and the handler continues |
| Server.TurnGating | src/server.cpp:163-171 | a move request from the non-active player changes nothing and sends exactly one "Not your turn" error to the sender |
| Server.ActivePlayerGetsMoveResult | src/server.cpp:173-184 | the active player's request is first answered by MOVE_RESULT to its own socket, 0 if applied and 1 if not; a rejected move changes nothing else |
| Server.ValidMoveAnnouncements | src/server.cpp:173-223 | after an applied move, with one or both players joined: MOVE_RESULT 0 to the mover's slot, the board to slot 0 then slot 1, then WIN with the mover's id, else DRAW on a full board, else TURN for the other player, to both slots; the new board has the mover's mark at the position; the mover stays active and the handler ends exactly on a win or a full board, otherwise the turn passes to the other player and the handler continues |
| Server.ValidMoveFiveMessages | src/server.cpp:173-223 | with both players joined, an applied move sends exactly five messages: the result to the mover, the board to socket 0 and socket 1, and the same announcement to socket 0 and socket 1 |
| Server.MalformedMove | src/server.cpp:148-155 | a move request without its position byte sends one "ERR: MALFORMED MOVE REQUEST" error to the sender and changes nothing |
| Server.OnlyQuitHalts | src/server.cpp:225-227 | the server halts exactly on QUIT_REQUEST, sending nothing and changing nothing |
| Server.UnexpectedTypeIgnored | src/server.cpp:228-233 | any type other than a move or a quit sends one "Unexpected message type" error to the sender and changes nothing |
| Server.DispatchSendsDeliverable | src/server.cpp:145-233 | every message the server sends fits a frame and carries at least its struct's bytes, with board bytes in 0..2, so its serialize calls cannot fail |
| Server.AliveAtMostFilled | src/server.cpp:296-317 | there are never more live handlers than filled slots |
| Server.TurnInvariantFrame | src/server.cpp:303-323 | admitting a player into a free slot or retiring a handler keeps the turn invariant |
| Server.AdmitKeepsInv | src/server.cpp:303-319 | assigning a free slot and counting the connection keeps the server invariant |
| Server.GreetKeepsInv | src/server.cpp:92-116 | the prologue keeps the server invariant |
| Server.RetireKeepsInv | src/server.cpp:127-140 | a handler ending and the connection count dropping keep the server invariant |
| Server.StepKeepsInv | src/server.cpp:145-233 | every dispatched message keeps the server invariant, ending the handler where the dispatch says so |
| Server.Server.constructor | src/server.cpp:18-27 | the server starts with an empty board, P1 to move, both slots empty, no connections and nothing sent |
| Server.Server.Accept | src/server.cpp:296-319 | refuses (id 0, nothing changes) when two connections are open or both slots are taken; otherwise player 1 takes slot 0 if it is free, else player 2 takes slot 1, with the socket stored and the counter increased |
| Server.Server.Greet | src/server.cpp:92-116 | sends WELCOME with the player's id; in player 2's handler with both slots filled it then sends the board to both and TURN for the active player to both |
| Server.Server.GreetMessages | src/server.cpp:92-116 | computes exactly the handler's prologue, and every message in it can be delivered |
| Server.Server.StartMessages | src/server.cpp:104-115 | the start sequence is the current board to slot 0 and slot 1, then TURN for the active player to both, and every message in it can be delivered |
| Server.Server.EncodeBoard | src/server.cpp:57-62 | the payload is the ordinal of each cell in index order |
| Server.Server.Step | src/server.cpp:121-233 | the new game state, the sent messages and the outcome are exactly those of Dispatch; the handler count drops when the handler ends and the server halts on a quit |
| Server.Server.Handle | src/server.cpp:145-233 | the sequence of Game calls and sends produces exactly Dispatch's new state, messages and outcome |
| Server.Server.Disconnect | src/server.cpp:127-140 | a failed receive ends the handler and decrements the connection counter, leaving slots, game and outbox unchanged |
| Client.Value | src/client.cpp:83 | the decimal value std::stoi reads from a digit string; a string of k digits denotes less than 10^k |
| Client.Classify | src/client.cpp:60-89 | "q" and only "q" is Quit; a Move comes exactly from a nonempty all-digit line whose value is 1..9, with the cell being value - 1 |
| Client.Code | src/client.cpp:46-51 | handle_input returns 0 exactly for a move, 1 exactly for a quit, 2 otherwise |
| Client.Request | src/client.cpp:62-94 | a quit is sent as QUIT_REQUEST with no payload and a move as MOVE_REQUEST carrying the cell as its one byte, and both fit a frame |
| Client.LeadingZero | src/client.cpp:77-83 | a leading zero does not change a digit string's value |
| Client.LeadingZeroSameMove | src/client.cpp:77-89 | "05" and "5" are classified alike |
| Client.EveryCellSelectable | src/client.cpp:83-95 | every cell 0..8 can be chosen by typing the digit for cell + 1 |
| Client.OutOfRangeRejected | src/client.cpp:85-89 | "0" and "10" are rejected as out of range |
| Client.PromptLoop | src/client.cpp:202-208 | lines are read until the first that is not invalid; every earlier line was invalid; a move or quit sends exactly its request; if the lines run out, all were invalid and nothing was sent |
| Client.AnsweredUnique | src/client.cpp:219-225 | a prompt loop over given lines can end in only one way |
| Client.Client.constructor | src/client.cpp:135-138 | the client starts with id 0 and an empty local board |
| Client.Client.Prompt | src/client.cpp:202-208 | consumes the lines up to the first move or quit and sends its request; a quit ends the session |
| Client.Client.LoadBoard | src/client.cpp:182-190 | the nine local cells become the decoded payload bytes |
| Client.Client.Receive | src/client.cpp:167-262 | WELCOME sets the id from byte 0; BOARD_UPDATE overwrites the board; TURN for this player or a MOVE_RESULT with nonzero status prompts; WIN ends as won or lost by comparing the id; DRAW ends the session; anything else changes nothing |
| Scenarios.Opening | src/server.cpp:92-116 | two joins produce WELCOME 1, WELCOME 2, the empty board to both and TURN 1 to both, and a third connection is refused |
| Scenarios.FirstMove | src/client.cpp:60-95 | "", "abc", "5" typed at the prompt put X in the centre and pass the turn to player 2 |
| Scenarios.WinningMove | src/server.cpp:194-201 | completing the 2-4-6 diagonal sends WIN 1 to both players and ends the winner's handler |
| Scenarios.LoserMovesAfterWin | src/server.cpp:163-171 | after the win, the loser's move is answered with "Not your turn" |
| Scenarios.WholeGame | src/server.cpp:92-233 | from a fresh server, both joins, the typed first move, the middle game and the diagonal win chain together; the winning move ends its handler and the loser's later move is answered and the loop continues |
| Scenarios.ClientSession | src/client.cpp:167-243 | a client taking WELCOME 1, the board, TURN 1 and then WIN 1, with "5" typed, sends MOVE_REQUEST 4 and ends as a win |

## Left out

- Sockets, `recv_all`/`send_all`, `accept`, `connect` and `close` are I/O and are left out. A receive is a whole message. A send is an outbox entry, even to a socket its handler has already closed.
- Threads and `game_mutex` are left out. Each `Step` is atomic. `Greet` is atomic too, although the WELCOME send runs outside the lock (src/server.cpp:92-97).
- Signal handlers and `exit` are left out. A QUIT_REQUEST is the server's `Halt` outcome. The client's SIGINT path (src/client.cpp:99-108) is not modelled.
- Printing, colours and `displayBoard` are left out, as is `fatal_error` (src/utils.cpp, output only).
- Client.Classify: requires that `std::stoi` does not overflow (an all-digit value of at most 2^31 - 1). The exception path is not modelled.
- Client.PromptLoop: requires every given line to satisfy that stoi bound, including lines after the one that ends the loop.
- Server.TextBytes maps each character to its code mod 256. The error texts are ASCII, so this matches `std::string::data()`.
- The byte layout of the `memcpy` structs is taken as one byte per field, in declaration order.
- Serialize return values that the callers ignore are not modelled as failures. `DispatchSendsDeliverable` and `StartMessages` show that every message the server builds fits a frame.
- Client.Receive: requires the payload to be at least as long as the struct it copies. Shorter payloads are undefined behaviour in the code. A BOARD_UPDATE also needs cell bytes 0..2 (an out-of-range `Cell` value is not modelled).
- Game::board() is not modelled as a separate member. Its non-const reference is the client writing `game.cells` directly in `LoadBoard`.
- The SERVER_FULL message type exists but is never sent. A refused connection is only `Accept` returning 0.
