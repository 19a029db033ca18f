/**
 * The tic-tac-toe game entity: two players, a nine-character board, whose
 * turn it is, and the winner with the pattern that produced the win. An
 * accepted move writes the mover's mark, runs win detection for that mark,
 * flips the turn and pushes the entity to both players' channels.
 *
 * The realtime database is not modelled; every write the entity makes to its
 * "channels" node is recorded, in order, in a ghost log.
 */
module Games {
  import opened Optional
  import opened JavaStrings
  import opened WinPatterns

  /** One write to the "channels" node: the entity stored under a key, or the key cleared. */
  datatype ChannelWrite = Update(key: string) | Clear(key: string)

  /** "true" or "false", as Boolean.toString gives them. */
  function BooleanText(b: bool): string {
    if b then "true" else "false"
  }

  /** The entity's winner is a real user name: non-null and non-empty. */
  predicate HasWinner(winner: NullableString) {
    winner.Str? && winner.value != ""
  }

  /** userO as the message carries it: null becomes the empty string. */
  function Blank(user: NullableString): NullableString {
    if user.Null? then Str("") else user
  }

  /** Copies a string into a fresh character array, as String.toCharArray does. */
  method ToCharArray(s: string) returns (a: array<char>)
    ensures fresh(a) && a[..] == s
  {
    a := new char[|s|](i => if 0 <= i < |s| then s[i] else ' ');
  }

  class Game {
    var id: string
    var userX: NullableString
    var userO: NullableString
    var board: string
    var moveX: bool
    var winner: NullableString
    var winningBoard: NullableString
    /** Every write made to the "channels" node, oldest first. */
    ghost var channelLog: seq<ChannelWrite>

    /** A new game; `id` stands for the random UUID the entity draws for itself. */
    constructor (id: string, userX: NullableString, userO: NullableString, board: string, moveX: bool)
      ensures this.id == id && this.userX == userX && this.userO == userO
      ensures this.board == board && this.moveX == moveX
      ensures winner == Null && winningBoard == Null && channelLog == []
    {
      this.id := id;
      this.userX := userX;
      this.userO := userO;
      this.board := board;
      this.moveX := moveX;
      winner := Null;
      winningBoard := Null;
      channelLog := [];
    }

    /** The player whose turn it is. */
    function CurrentPlayer(): NullableString
      reads this
    {
      if moveX then userX else userO
    }

    /**
     * The channel address of a user in this game: the user's name followed by
     * the game id (a null user renders as "null").
     */
    function GetChannelKey(user: NullableString): (key: string)
      reads this
      ensures |key| == |Render(user)| + |id|
      ensures key[..|Render(user)|] == Render(user) && key[|Render(user)|..] == id
    {
      Render(user) + id
    }

    /**
     * The update message as a map from field names to values. userO is sent as
     * "" when null; winningBoard is present only once there is a real winner.
     */
    function GetMessageString(): (m: map<string, NullableString>)
      reads this
      ensures m.Keys == {"userX", "userO", "board", "moveX", "winner"} +
        (if HasWinner(winner) then {"winningBoard"} else {})
      ensures m["userX"] == userX && m["userO"] == Blank(userO) && m["board"] == Str(board)
      ensures m["moveX"] == Str(BooleanText(moveX)) && m["winner"] == winner
      ensures HasWinner(winner) ==> m["winningBoard"] == winningBoard
    {
      var state := map["userX" := userX, "userO" := Blank(userO), "board" := Str(board),
                       "moveX" := Str(BooleanText(moveX)), "winner" := winner];
      if HasWinner(winner) then state["winningBoard" := winningBoard] else state
    }

    /** The writes sendUpdateToUser makes for `user`: none for a null user. */
    function UpdatesFor(user: NullableString): seq<ChannelWrite>
      reads this
    {
      if user.Str? then [Update(GetChannelKey(user))] else []
    }

    /** deleteChannel: clears the user's channel; nothing for a null user. */
    method DeleteChannel(user: NullableString)
      modifies this`channelLog
      ensures channelLog == old(channelLog) + (if user.Str? then [Clear(GetChannelKey(user))] else [])
    {
      if user.Str? {
        var channelKey := GetChannelKey(user);
        channelLog := channelLog + [Clear(channelKey)];
      }
    }

    /** sendUpdateToUser: stores the entity under the user's channel key; nothing for a null user. */
    method SendUpdateToUser(user: NullableString)
      modifies this`channelLog
      ensures channelLog == old(channelLog) + UpdatesFor(user)
    {
      if user.Str? {
        var channelKey := GetChannelKey(user);
        channelLog := channelLog + [Update(channelKey)];
      }
    }

    /** sendUpdateToClients: X's channel first, then O's, skipping a null player. */
    method SendUpdateToClients()
      modifies this`channelLog
      ensures channelLog == old(channelLog) + UpdatesFor(userX) + UpdatesFor(userO)
    {
      SendUpdateToUser(userX);
      SendUpdateToUser(userO);
    }

    /**
     * checkWin: tries every pattern of the side that has just moved against
     * the board; each match sets the winner to that side's player and the
     * winning board to the pattern text, so the last match is what remains.
     * Without a match nothing changes.
     */
    method CheckWin()
      modifies this`winner, this`winningBoard
      ensures match LastMatch(Patterns(moveX), board)
        case None => winner == old(winner) && winningBoard == old(winningBoard)
        case Some(k) => winner == CurrentPlayer() && winningBoard == Str(Patterns(moveX)[k])
    {
      var wins: seq<string>;
      if moveX {
        wins := XWins;
      } else {
        wins := OWins;
      }
      for i := 0 to |wins|
        invariant wins == Patterns(moveX)
        invariant match LastMatch(wins[..i], board)
          case None => winner == old(winner) && winningBoard == old(winningBoard)
          case Some(k) => k < i && winner == CurrentPlayer() && winningBoard == Str(wins[k])
      {
        assert wins[..i + 1][..i] == wins[..i];
        if Matches(wins[i], board) {
          if moveX {
            winner := userX;
          } else {
            winner := userO;
          }
          winningBoard := Str(wins[i]);
        }
      }
      assert wins[..|wins|] == wins;
    }

    /**
     * makeMove: accepted exactly when `user` is the player whose turn it is.
     * An accepted move overwrites the cell with the mover's mark (occupied or
     * not, game over or not), runs win detection for that mark on the new
     * board, flips the turn and sends the entity to both players. A rejected
     * move changes nothing.
     */
    method MakeMove(position: int, user: NullableString) returns (accepted: bool)
      requires CurrentPlayer().Str?
      requires user == CurrentPlayer() ==> 0 <= position < |board|
      modifies this`board, this`moveX, this`winner, this`winningBoard, this`channelLog
      ensures accepted <==> user == old(CurrentPlayer())
      ensures !accepted ==>
        board == old(board) && moveX == old(moveX) && winner == old(winner) &&
        winningBoard == old(winningBoard) && channelLog == old(channelLog)
      ensures accepted ==> board == old(board)[position := MarkOf(old(moveX))]
      ensures accepted ==> moveX == !old(moveX)
      ensures accepted ==> match LastMatch(Patterns(old(moveX)), board)
        case None => winner == old(winner) && winningBoard == old(winningBoard)
        case Some(k) => winner == old(CurrentPlayer()) && winningBoard == Str(Patterns(old(moveX))[k])
      ensures accepted ==> channelLog == old(channelLog) + UpdatesFor(userX) + UpdatesFor(userO)
    {
      var currentMovePlayer: NullableString;
      var value: char;
      if moveX {
        value := 'X';
        currentMovePlayer := userX;
      } else {
        value := 'O';
        currentMovePlayer := userO;
      }

      if currentMovePlayer == user {
        var boardBytes := ToCharArray(board);
        boardBytes[position] := value;
        board := boardBytes[..];
        CheckWin();
        moveX := !moveX;
        SendUpdateToClients();
        return true;
      }

      return false;
    }
  }

  /** Distinct players of one game get distinct channel addresses. */
  lemma ChannelKeysSeparatePlayers(g: Game, u1: NullableString, u2: NullableString)
    requires u1.Str? && u2.Str?
    ensures g.GetChannelKey(u1) == g.GetChannelKey(u2) <==> u1 == u2
  {
  }

  /**
   * Reading the message back recovers userX, the board, the turn, the winner,
   * userO up to null-versus-empty, and the winning board whenever there is a
   * winner: two entities send the same message exactly when they agree on these.
   */
  lemma MessageDeterminesState(g1: Game, g2: Game)
    ensures g1.GetMessageString() == g2.GetMessageString() <==>
      g1.userX == g2.userX && Blank(g1.userO) == Blank(g2.userO) && g1.board == g2.board &&
      g1.moveX == g2.moveX && g1.winner == g2.winner &&
      (HasWinner(g1.winner) ==> g1.winningBoard == g2.winningBoard)
  {
  }

  /**
   * Scaffolding for the scenarios below: on a board of blanks and marks with
   * none of the mover's lines complete, win detection finds nothing. A
   * corollary of LastMatchIsLastCompleteLine.
   */
  lemma NoWinFor(moveX: bool, board: string)
    requires |board| == 9 && forall i :: 0 <= i < 9 ==> board[i] in {' ', 'X', 'O'}
    requires forall k :: 0 <= k < 8 ==> !Completes(board, k, MarkOf(moveX))
    ensures LastMatch(Patterns(moveX), board) == None
  {
    LastMatchIsLastCompleteLine(moveX, board);
  }

  /**
   * Scaffolding for the scenarios below: on a board of blanks and marks whose
   * last complete line of the mover is k, win detection reports k. A
   * corollary of LastMatchIsLastCompleteLine.
   */
  lemma WinFor(moveX: bool, board: string, k: nat)
    requires k < 8
    requires |board| == 9 && forall i :: 0 <= i < 9 ==> board[i] in {' ', 'X', 'O'}
    requires Completes(board, k, MarkOf(moveX))
    requires forall j :: k < j < 8 ==> !Completes(board, j, MarkOf(moveX))
    ensures LastMatch(Patterns(moveX), board) == Some(k)
  {
    LastMatchIsLastCompleteLine(moveX, board);
  }

  // Verified scenarios, with no counterpart in the entity: single moves
  // played through the class as written.

  /** O's move onto the cell X holds is accepted and overwrites it. */
  method PlayOverwritesOccupiedCell()
  {
    var alice, bob := Str("alice"), Str("bob");
    var g := new Game("g1", alice, bob, "X        ", false);
    var ok := g.MakeMove(0, bob);
    assert g.board == "O        ";
    NoWinFor(false, g.board);
    assert ok && g.moveX && g.winner == Null;
  }

  /** X moving again while it is O's turn is refused and changes nothing. */
  method PlayRefusesOutOfTurn()
  {
    var alice, bob := Str("alice"), Str("bob");
    var g := new Game("g3", alice, bob, "X        ", false);
    var ok := g.MakeMove(5, alice);
    assert !ok && g.board == "X        " && !g.moveX && g.winner == Null && g.channelLog == [];
  }

  /** A game X has won still accepts O's move, and O's win replaces X's. */
  method PlayContinuesAfterWin()
  {
    var alice, bob := Str("alice"), Str("bob");
    var g := new Game("g2", alice, bob, "XXXOO    ", false);
    g.winner, g.winningBoard := alice, Str("XXX......");
    var ok := g.MakeMove(5, bob);
    assert g.board == "XXXOOO   ";
    WinFor(false, g.board, 1);
    assert ok && g.winner == bob && g.winningBoard == Str("...OOO...");
  }
}
