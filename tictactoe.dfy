/**
 The client: the state of the `App` component and the handlers that change it.
 Each React state variable is a field; a handler that calls several setters is
 one method, and when it sets the same variable twice the later value is the
 one that stays. What the client emits on its socket is appended to `sent`;
 an `alert` is returned as a `ClickOutcome`.
 */
module TicTacToe {
  import opened Wrappers
  import opened Protocol
  import opened Board

  /** What `handleClick` alerts, if anything. */
  datatype ClickOutcome =
    | Rejected                        // not this player's turn, or the cell is taken
    | Continue                        // the move was made and the game goes on
    | Win(winnerName: Option<string>) // the move completed a line
    | Draw                            // the move filled the board without a winner

  /**
   The own name the `gamestart` handler records, as written: it keys the
   choice on whose turn it is rather than on which player this client is.
   */
  function NameAsWritten(myId: string, player1: PlayerInfo, player2: PlayerInfo, currentTurn: string): (name: Option<string>)
  {
    if currentTurn == myId then player1.name else player2.name
  }

  /**
   player1 whose opponent moves first records its opponent's name as its own,
   whenever the two names differ.
   */
  lemma NameAsWrittenTakesOpponentsName(myId: string, player1: PlayerInfo, player2: PlayerInfo)
    requires myId == player1.id && player1.id != player2.id && player1.name != player2.name
    ensures NameAsWritten(myId, player1, player2, player2.id) == player2.name
    ensures NameAsWritten(myId, player1, player2, player2.id) != player1.name
  {
  }

  /** The counterexample in concrete terms: Alice is told her name is Bob. */
  lemma NameAsWrittenCounterexample()
    ensures NameAsWritten("a", PlayerInfo("a", Some("Alice")), PlayerInfo("b", Some("Bob")), "b") == Some("Bob")
  {
  }

  /**
   The own name a client is evidently meant to record: the name paired with its
   own id in the `gamestart` event, whoever moves first.
   */
  function OwnName(myId: string, player1: PlayerInfo, player2: PlayerInfo): (name: Option<string>)
    ensures myId == player1.id ==> name == player1.name
    ensures myId == player2.id && myId != player1.id ==> name == player2.name
  {
    if myId == player1.id then player1.name else player2.name
  }

  /**
   Between two players with different ids and names, the name recorded as
   written agrees with the client's own exactly when player1 moves first.
   */
  lemma NameAsWrittenRightIffPlayer1Starts(me: string, p1: PlayerInfo, p2: PlayerInfo, turn: string)
    requires p1.id != p2.id && p1.name != p2.name
    requires me == p1.id || me == p2.id
    requires turn == p1.id || turn == p2.id
    ensures NameAsWritten(me, p1, p2, turn) == OwnName(me, p1, p2) <==> turn == p1.id
  {
  }

  class App {
    /** `newSocket.id`. */
    var myId: string
    /** `socket` is set (the effect that opens the connection has run). */
    var connected: bool
    var gameStart: bool
    var formSubmitted: bool
    var player: PlayerInfo
    var currentTurn: string
    var cells: seq<int>
    var player1: PlayerInfo
    var player2: PlayerInfo
    /** Every event this client has emitted, in order. */
    var sent: seq<ClientMsg>

    ghost predicate Valid()
      reads this
    {
      |cells| == 9
    }

    /** The initial values of the component's state. */
    constructor ()
      ensures Valid()
      ensures !connected && !gameStart && !formSubmitted
      ensures player == PlayerInfo("", Some("")) && currentTurn == ""
      ensures cells == EmptyBoard()
      ensures player1 == PlayerInfo("", Some("")) && player2 == PlayerInfo("", Some(""))
      ensures sent == []
    {
      myId := "";
      connected := false;
      gameStart := false;
      formSubmitted := false;
      player := PlayerInfo("", Some(""));
      currentTurn := "";
      cells := EmptyBoard();
      player1 := PlayerInfo("", Some(""));
      player2 := PlayerInfo("", Some(""));
      sent := [];
    }

    /** The mount effect: the socket exists, under the id the server gave it. */
    method Connect(id: string)
      requires Valid()
      modifies this
      ensures Valid()
      ensures connected && myId == id
      ensures gameStart == old(gameStart) && formSubmitted == old(formSubmitted)
      ensures player == old(player) && currentTurn == old(currentTurn) && cells == old(cells)
      ensures player1 == old(player1) && player2 == old(player2) && sent == old(sent)
    {
      connected := true;
      myId := id;
    }

    /**
     `resetGame`: an empty board, back to the form. The turn and the players
     are left as they were.
     */
    method ResetGame()
      requires Valid()
      modifies this
      ensures Valid()
      ensures cells == EmptyBoard() && !gameStart && !formSubmitted
      ensures myId == old(myId) && connected == old(connected)
      ensures player == old(player) && currentTurn == old(currentTurn)
      ensures player1 == old(player1) && player2 == old(player2) && sent == old(sent)
    {
      cells := EmptyBoard();
      gameStart := false;
      formSubmitted := false;
    }

    /**
     The `gamestart` handler: the game begins with the announced players and
     first turn. The own name is chosen by whose turn it is (`NameAsWritten`),
     which is not always this client's own name (`OwnName`).
     */
    method OnGameStart(p1: PlayerInfo, p2: PlayerInfo, turn: string)
      requires Valid()
      modifies this
      ensures Valid()
      ensures gameStart && !formSubmitted
      ensures player == PlayerInfo(myId, NameAsWritten(myId, p1, p2, turn))
      ensures player1 == p1 && player2 == p2 && currentTurn == turn
      ensures myId == old(myId) && connected == old(connected)
      ensures cells == old(cells) && sent == old(sent)
    {
      gameStart := true;
      player := PlayerInfo(myId, NameAsWritten(myId, p1, p2, turn));
      player1 := p1;
      player2 := p2;
      currentTurn := turn;
      formSubmitted := false;
    }

    /** The `move` handler: board and turn are replaced by the payload's. */
    method OnMove(payload: MovePayload)
      requires Valid() && |payload.cells| == 9
      modifies this
      ensures Valid()
      ensures cells == payload.cells && currentTurn == payload.currentTurn
      ensures myId == old(myId) && connected == old(connected)
      ensures gameStart == old(gameStart) && formSubmitted == old(formSubmitted)
      ensures player == old(player) && player1 == old(player1) && player2 == old(player2)
      ensures sent == old(sent)
    {
      cells := payload.cells;
      currentTurn := payload.currentTurn;
    }

    /** The `opponentExit` handler: the game is reset. */
    method OnOpponentExit()
      requires Valid()
      modifies this
      ensures Valid()
      ensures cells == EmptyBoard() && !gameStart && !formSubmitted
      ensures myId == old(myId) && connected == old(connected)
      ensures player == old(player) && currentTurn == old(currentTurn)
      ensures player1 == old(player1) && player2 == old(player2) && sent == old(sent)
    {
      ResetGame();
    }

    /**
     `handleClick`: accepted only on this player's turn and on an empty cell.
     An accepted click writes this player's mark (0 for player1, 1 otherwise)
     into that one cell, passes the turn to the other player, emits the new
     board and turn, and resets the game when the move wins or fills the board.
     */
    method HandleClick(cell: int) returns (outcome: ClickOutcome)
      requires Valid()
      modifies this
      ensures Valid()
      ensures outcome.Rejected? <==>
        !(old(player.id) == old(currentTurn) && 0 <= cell < 9 && old(cells)[cell] == Empty)
      ensures outcome.Rejected? ==>
        && cells == old(cells) && currentTurn == old(currentTurn) && sent == old(sent)
        && gameStart == old(gameStart) && formSubmitted == old(formSubmitted)
      ensures !outcome.Rejected? ==>
        var isPlayer1 := player.id == player1.id;
        var board := Mark(old(cells), cell, if isPlayer1 then 0 else 1);
        var turn := if isPlayer1 then player2.id else player1.id;
        && currentTurn == turn
        && sent == old(sent) + (if connected then [Move(MovePayload(board, turn))] else [])
        && (outcome.Win? <==> Winner(board) != Empty)
        && (outcome.Win? ==> outcome.winnerName == if Winner(board) == 0 then player1.name else player2.name)
        && (outcome.Draw? <==> Winner(board) == Empty && Full(board))
        && (outcome.Continue? ==> cells == board && gameStart == old(gameStart) && formSubmitted == old(formSubmitted))
        && (!outcome.Continue? ==> cells == EmptyBoard() && !gameStart && !formSubmitted)
      ensures myId == old(myId) && connected == old(connected)
      ensures player == old(player) && player1 == old(player1) && player2 == old(player2)
    {
      if player.id == currentTurn && 0 <= cell < |cells| && cells[cell] == Empty {
        var newCells := Mark(cells, cell, if player.id == player1.id then 0 else 1);
        cells := newCells;
        var newTurn := if player.id == player1.id then player2.id else player1.id;
        currentTurn := newTurn;
        if connected {
          sent := sent + [Move(MovePayload(newCells, newTurn))];
        }
        var winner := CheckWinner(newCells);
        if winner != Empty {
          outcome := Win(if winner == 0 then player1.name else player2.name);
          ResetGame();
        } else if Full(newCells) {
          outcome := Draw;
          ResetGame();
        } else {
          outcome := Continue;
        }
      } else {
        outcome := Rejected;
      }
    }

    /**
     `handleSubmit`: leaves the form and, when the socket exists and the name
     is non-empty, asks the server to join under that name.
     */
    method HandleSubmit()
      requires Valid()
      modifies this
      ensures Valid()
      ensures formSubmitted
      ensures sent == old(sent) + if connected && player.name.Some? && player.name.value != ""
                                  then [Join(player.name.value)] else []
      ensures myId == old(myId) && connected == old(connected) && gameStart == old(gameStart)
      ensures player == old(player) && currentTurn == old(currentTurn) && cells == old(cells)
      ensures player1 == old(player1) && player2 == old(player2)
    {
      formSubmitted := true;
      if connected && player.name.Some? && player.name.value != "" {
        sent := sent + [Join(player.name.value)];
      }
    }

    /** `handleExit`: tells the server (when the socket exists) and resets the game. */
    method HandleExit()
      requires Valid()
      modifies this
      ensures Valid()
      ensures sent == old(sent) + if connected then [Exit] else []
      ensures cells == EmptyBoard() && !gameStart && !formSubmitted
      ensures myId == old(myId) && connected == old(connected)
      ensures player == old(player) && currentTurn == old(currentTurn)
      ensures player1 == old(player1) && player2 == old(player2)
    {
      if connected {
        sent := sent + [Exit];
      }
      ResetGame();
    }
  }

  /**
   Two clients in one game: player1 moves first and marks the centre; once the
   server has relayed that move, player2's client shows the same board, with
   player1's mark in the centre, and it is now player2's turn.
   */
  method OpeningMoveReachesOpponent(id1: string, name1: string, id2: string, name2: string)
    returns (outcome: ClickOutcome, board1: seq<int>, board2: seq<int>, turn2: string, me2: string)
    requires id1 != id2
    ensures outcome == Continue
    ensures board1 == board2 && board2 == EmptyBoard()[4 := 0]
    ensures turn2 == me2 == id2
  {
    var p1 := PlayerInfo(id1, Some(name1));
    var p2 := PlayerInfo(id2, Some(name2));
    var a := new App();
    var b := new App();
    a.Connect(id1);
    b.Connect(id2);
    a.OnGameStart(p1, p2, id1);
    b.OnGameStart(p1, p2, id1);
    outcome := a.HandleClick(4);
    assert Winner(a.cells) == Empty by {
      forall k | 0 <= k < |Lines|
        ensures !LineWins(a.cells, Lines[k])
      {
        assert a.cells[Lines[k].a] == Empty;
      }
    }
    assert !Full(a.cells) by {
      assert a.cells[0] == Empty;
    }
    var payload := a.sent[|a.sent| - 1].payload;
    b.OnMove(payload);
    board1, board2, turn2, me2 := a.cells, b.cells, b.currentTurn, b.player.id;
  }

  /**
   player1 whose opponent moved first leaves the game and submits the form
   again: it asks to join under its opponent's name.
   */
  method RejoinSendsOpponentsName(id1: string, name1: string, id2: string, name2: string)
    returns (sent: seq<ClientMsg>)
    requires id1 != id2 && name2 != ""
    ensures sent == [Exit, Join(name2)]
  {
    var a := new App();
    a.Connect(id1);
    a.OnGameStart(PlayerInfo(id1, Some(name1)), PlayerInfo(id2, Some(name2)), id2);
    a.HandleExit();
    a.HandleSubmit();
    sent := a.sent;
  }
}
