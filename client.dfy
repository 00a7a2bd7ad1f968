/**
 * The client: handle_input's classification of a typed line, the prompt
 * loop around it, and the main loop's reaction to each message type.
 * Console lines are a parameter (the lines the player will type, in
 * order); what the client sends is recorded as messages in `sent`.
 */
module Client {
  import opened Protocol
  import opened Board

  /** What handle_input makes of one line. */
  datatype Input = Quit | Invalid | Move(pos: nat)

  /** The decimal digits '0'..'9' that std::isdigit accepts. */
  predicate IsDigit(c: char) {
    '0' <= c <= '9'
  }

  predicate AllDigits(s: string) {
    forall i :: 0 <= i < |s| ==> IsDigit(s[i])
  }

  function DigitValue(c: char): (d: nat)
    requires IsDigit(c)
    ensures d <= 9
  {
    (c as int) - ('0' as int)
  }

  /** 10 to the power k. */
  function Pow10(k: nat): (p: nat)
    ensures p >= 1
  {
    if k == 0 then 1 else 10 * Pow10(k - 1)
  }

  /**
   * The decimal value of a digit string, most significant digit first, as
   * std::stoi reads it; a string of k digits denotes less than 10^k.
   */
  function Value(s: string): (n: nat)
    requires AllDigits(s)
    ensures n < Pow10(|s|)
  {
    if |s| == 0 then 0 else 10 * Value(s[..|s| - 1]) + DigitValue(s[|s| - 1])
  }

  const INT_MAX: int := 0x7FFF_FFFF

  /**
   * std::stoi returns normally: the line is not a nonempty digit string
   * whose value exceeds the range of int.
   */
  predicate StoiDefined(line: string) {
    line == "q" || line == "" || !AllDigits(line) || Value(line) <= INT_MAX
  }

  /**
   * handle_input without the console: "q" quits; an empty line or one with
   * a non-digit is invalid; otherwise the value minus one is the cell and
   * must lie in 0..8.
   */
  function Classify(line: string): (r: Input)
    requires StoiDefined(line)
    ensures r == Quit <==> line == "q"
    ensures r.Move? <==> line != "q" && line != "" && AllDigits(line) && 1 <= Value(line) <= 9
    ensures r.Move? ==> r.pos == Value(line) - 1 && r.pos < CELLS
  {
    if line == "q" then Quit
    else if line == "" then Invalid
    else if !AllDigits(line) then Invalid
    else
      var pos := Value(line) - 1;
      if pos < 0 || pos > 8 then Invalid else Move(pos)
  }

  /** handle_input's return value: 0 sent a move, 1 quit, 2 try again. */
  function Code(i: Input): (c: nat)
    ensures c <= 2
    ensures c == 0 <==> i.Move?
    ensures c == 1 <==> i == Quit
  {
    match i
    case Move(_) => 0
    case Quit => 1
    case Invalid => 2
  }

  /**
   * The message handle_input sends for an input it accepts: QUIT_REQUEST
   * with no payload, or MOVE_REQUEST with the cell index as its one byte.
   */
  function Request(i: Input): (m: Message)
    requires i != Invalid && (i.Move? ==> i.pos < CELLS)
    ensures Encodable(m) && |m.payload| >= MinPayload(m.kind)
    ensures m.kind == QUIT_REQUEST <==> i == Quit
    ensures i.Move? ==> m.kind == MOVE_REQUEST && m.payload == [i.pos as byte]
  {
    match i
    case Quit => Message(QUIT_REQUEST, [])
    case Move(pos) => Message(MOVE_REQUEST, [pos as byte])
  }

  /** Leading zeros do not change the value of a digit string. */
  lemma {:induction false} LeadingZero(s: string)
    requires AllDigits(s)
    ensures AllDigits("0" + s) && Value("0" + s) == Value(s)
  {
    var t := "0" + s;
    assert AllDigits(t) by {
      forall i | 0 <= i < |t| ensures IsDigit(t[i]) {
        if i > 0 { assert t[i] == s[i - 1]; }
      }
    }
    if |s| > 0 {
      var s' := s[..|s| - 1];
      assert t[..|t| - 1] == "0" + s';
      assert t[|t| - 1] == s[|s| - 1];
      LeadingZero(s');
    }
  }

  /** A line with leading zeros is read as the same cell ("05" is "5"). */
  lemma LeadingZeroSameMove(s: string)
    requires s != "" && AllDigits(s) && Value(s) <= INT_MAX
    ensures StoiDefined("0" + s) && Classify("0" + s) == Classify(s)
  {
    LeadingZero(s);
  }

  /** The digit character for 1..9. */
  function DigitChar(d: nat): (c: char)
    requires 1 <= d <= 9
    ensures IsDigit(c) && DigitValue(c) == d
  {
    (('0' as int) + d) as char
  }

  /** Every cell can be chosen: the digit for pos + 1 classifies as Move(pos). */
  lemma EveryCellSelectable(pos: nat)
    requires pos < CELLS
    ensures StoiDefined([DigitChar(pos + 1)]) && Classify([DigitChar(pos + 1)]) == Move(pos)
  {
    var s := [DigitChar(pos + 1)];
    assert s[..0] == [];
    assert Value(s) == pos + 1;
  }

  /** "0" and "10" name no cell: the accepted values are exactly 1..9. */
  lemma OutOfRangeRejected()
    ensures StoiDefined("0") && Classify("0") == Invalid
    ensures StoiDefined("10") && Classify("10") == Invalid
  {
    assert "10"[..1] == "1";
    assert "1"[..0] == "";
    assert Value("10") == 10;
    assert "0"[..0] == "";
  }

  /** How one prompt loop ends. */
  datatype PromptEnd = Moved(pos: nat) | Quitted | Exhausted

  /**
   * The prompt loop of the TURN and MOVE_RESULT cases: call handle_input on
   * successive lines until one is a move (0) or a quit (1). `used` is the
   * number of lines read; Exhausted means the lines ran out while the
   * client still waits for a valid line.
   */
  method PromptLoop(lines: seq<string>) returns (used: nat, sent: seq<Message>, end: PromptEnd)
    requires forall i :: 0 <= i < |lines| ==> StoiDefined(lines[i])
    ensures used <= |lines|
    ensures forall i :: 0 <= i < |lines| && i < used - 1 ==> Classify(lines[i]) == Invalid
    ensures end == Exhausted <==> used == |lines| && (used == 0 || Classify(lines[used - 1]) == Invalid)
    ensures end == Exhausted ==> sent == [] && forall i :: 0 <= i < |lines| ==> Classify(lines[i]) == Invalid
    ensures end != Exhausted ==>
      used >= 1 && Classify(lines[used - 1]) != Invalid && sent == [Request(Classify(lines[used - 1]))]
    ensures end == Quitted <==> used >= 1 && lines[used - 1] == "q"
    ensures end.Moved? ==> end.pos < CELLS && Classify(lines[used - 1]) == Move(end.pos)
  {
    used := 0;
    while used < |lines|
      invariant used <= |lines|
      invariant forall i :: 0 <= i < used ==> Classify(lines[i]) == Invalid
    {
      var r := Classify(lines[used]);
      used := used + 1;
      if Code(r) == 0 {
        sent := [Request(r)];
        end := Moved(r.pos);
        return;
      } else if Code(r) == 1 {
        sent := [Request(r)];
        end := Quitted;
        return;
      }
    }
    sent := [];
    end := Exhausted;
  }

  /**
   * Where the client session stands: still reading messages, or over
   * because the game ended (won, lost, drawn), the player quit, or the
   * console lines ran out at a prompt.
   */
  datatype Status = Listening | Won | Lost | Drawn | UserQuit | AwaitingInput

  /**
   * A prompt loop over `lines` read `used` of them, sent `msgs` and left the
   * session in `st`: every line but the last read was invalid, and the last
   * was a move (still listening), "q" (quit), or there was none left.
   */
  ghost predicate Answered(lines: seq<string>, used: nat, msgs: seq<Message>, st: Status)
    requires forall i :: 0 <= i < |lines| ==> StoiDefined(lines[i])
  {
    used <= |lines| &&
    (forall i :: 0 <= i < |lines| && i < used - 1 ==> Classify(lines[i]) == Invalid) &&
    match st
    case AwaitingInput =>
      used == |lines| && msgs == [] && forall i :: 0 <= i < |lines| ==> Classify(lines[i]) == Invalid
    case UserQuit =>
      used >= 1 && lines[used - 1] == "q" && msgs == [Message(QUIT_REQUEST, [])]
    case Listening =>
      used >= 1 && Classify(lines[used - 1]).Move? && msgs == [Request(Classify(lines[used - 1]))]
    case _ => false
  }

  /**
   * A prompt loop has only one way to end on given lines: it stops at the
   * first line that is not invalid, or reads them all.
   */
  lemma AnsweredUnique(lines: seq<string>, u1: nat, m1: seq<Message>, s1: Status,
                       u2: nat, m2: seq<Message>, s2: Status)
    requires forall i :: 0 <= i < |lines| ==> StoiDefined(lines[i])
    requires Answered(lines, u1, m1, s1) && Answered(lines, u2, m2, s2)
    ensures u1 == u2 && m1 == m2 && s1 == s2
  {
  }

  /** The cases of the main loop that call handle_input until it returns 0 or 1. */
  predicate ShouldPrompt(kind: byte, payload: seq<byte>, localId: int)
    requires |payload| >= MinPayload(kind)
  {
    (kind == TURN && payload[0] as int == localId) || (kind == MOVE_RESULT && payload[0] != 0)
  }

  class Client {
    const game: Game            // local_game
    var localId: int            // local_id
    var status: Status
    var input: seq<string>      // lines the player has still to type
    var sent: seq<Message>      // what the client has sent to the server

    ghost predicate Valid()
      reads this, game
    {
      game.Valid() && forall i :: 0 <= i < |input| ==> StoiDefined(input[i])
    }

    /** main's start: no id yet, an empty local board. */
    constructor (lines: seq<string>)
      requires forall i :: 0 <= i < |lines| ==> StoiDefined(lines[i])
      ensures Valid() && fresh(game) && fresh(game.cells)
      ensures localId == 0 && status == Listening && input == lines && sent == []
      ensures game.Board() == EmptyBoard()
    {
      game := new Game();
      localId := 0;
      status := Listening;
      input := lines;
      sent := [];
    }

    /** Repeated handle_input: consume lines until a move or a quit. */
    method Prompt()
      requires Valid() && status == Listening
      modifies this
      ensures Valid() && localId == old(localId)
      ensures exists used: nat, msgs: seq<Message> ::
        Answered(old(input), used, msgs, status) && used <= |old(input)| &&
        input == old(input)[used..] && sent == old(sent) + msgs
    {
      var used, msgs, end := PromptLoop(input);
      ghost var lines := input;
      input := input[used..];
      sent := sent + msgs;
      match end
      case Moved(pos) =>
      case Quitted =>
        status := UserQuit;
      case Exhausted =>
        status := AwaitingInput;
      assert Answered(lines, used, msgs, status);
    }

    /** Overwrite the 9 local cells from a BOARD_UPDATE payload. */
    method LoadBoard(pl: seq<byte>)
      requires game.Valid() && |pl| >= CELLS && CellBytes(pl[..CELLS])
      modifies game.cells
      ensures game.Board() == BoardOf(pl[..CELLS])
    {
      var i := 0;
      while i < CELLS
        invariant 0 <= i <= CELLS
        invariant forall j :: 0 <= j < i ==> game.cells[j] == CellOf(pl[j])
      {
        game.cells[i] := CellOf(pl[i]);
        i := i + 1;
      }
    }

    /**
     * One pass of main's loop body after a whole message has arrived: the
     * switch on its type. The payload is at least as long as the
     * fixed-size struct the case copies out of it.
     */
    method Receive(kind: byte, payload: seq<byte>)
      requires Valid() && status == Listening
      requires |payload| >= MinPayload(kind)
      requires kind == BOARD_UPDATE ==> CellBytes(payload[..CELLS])
      modifies this, game.cells
      ensures Valid()
      ensures kind == WELCOME ==> localId == payload[0] as int
      ensures kind != WELCOME ==> localId == old(localId)
      ensures kind == BOARD_UPDATE ==> game.Board() == BoardOf(payload[..CELLS])
      ensures kind != BOARD_UPDATE ==> game.Board() == old(game.Board())
      ensures kind == WIN ==> status == (if payload[0] as int == localId then Won else Lost)
      ensures kind == DRAW ==> status == Drawn
      ensures ShouldPrompt(kind, payload, old(localId)) ==>
        exists used: nat, msgs: seq<Message> ::
          Answered(old(input), used, msgs, status) && used <= |old(input)| &&
          input == old(input)[used..] && sent == old(sent) + msgs
      ensures !ShouldPrompt(kind, payload, old(localId)) ==> input == old(input) && sent == old(sent)
      ensures !ShouldPrompt(kind, payload, old(localId)) && kind != WIN && kind != DRAW ==> status == Listening
    {
      if kind == WELCOME {
        localId := payload[0] as int;
      } else if kind == BOARD_UPDATE {
        LoadBoard(payload);
      } else if kind == TURN {
        if payload[0] as int == localId {
          Prompt();
        }
      } else if kind == MOVE_RESULT {
        if payload[0] != 0 {
          Prompt();
        }
      } else if kind == WIN {
        status := if payload[0] as int == localId then Won else Lost;
      } else if kind == DRAW {
        status := Drawn;
      }
    }
  }
}
