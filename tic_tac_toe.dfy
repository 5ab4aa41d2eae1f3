/**
 * The server-side `TicTacToe` board of the mediator demo: a 3×3 grid of
 * characters, moves that only fill empty cells, and the win and full-board
 * checks.
 */
module TicTacToe {
  const EmptyCell: char := ' '
  const Draw: char := 'D'

  class TicTacToe {
    const board: array2<char>

    predicate Valid()
      reads this
    {
      board.Length0 == 3 && board.Length1 == 3
    }

    /** Row `i` holds `player` in all three cells. */
    predicate RowOf(i: int, player: char)
      requires Valid() && 0 <= i < 3
      reads this, board
    {
      board[i, 0] == player && board[i, 1] == player && board[i, 2] == player
    }

    /** Column `j` holds `player` in all three cells. */
    predicate ColumnOf(j: int, player: char)
      requires Valid() && 0 <= j < 3
      reads this, board
    {
      board[0, j] == player && board[1, j] == player && board[2, j] == player
    }

    /** Some row, some column or one of the two diagonals belongs to `player`. */
    predicate HasLine(player: char)
      requires Valid()
      reads this, board
    {
      || (exists i :: 0 <= i < 3 && RowOf(i, player))
      || (exists j :: 0 <= j < 3 && ColumnOf(j, player))
      || (board[0, 0] == player && board[1, 1] == player && board[2, 2] == player)
      || (board[0, 2] == player && board[1, 1] == player && board[2, 0] == player)
    }

    /** No cell is empty. */
    predicate Full()
      requires Valid()
      reads this, board
    {
      forall i, j :: 0 <= i < 3 && 0 <= j < 3 ==> board[i, j] != EmptyCell
    }

    /** A new game: every cell is empty. */
    constructor()
      ensures Valid() && fresh(board)
      ensures forall i, j :: 0 <= i < 3 && 0 <= j < 3 ==> board[i, j] == EmptyCell
    {
      var b := new char[3, 3];
      for i := 0 to 3
        invariant forall r, c :: 0 <= r < i && 0 <= c < 3 ==> b[r, c] == EmptyCell
      {
        for j := 0 to 3
          invariant forall r, c :: 0 <= r < i && 0 <= c < 3 ==> b[r, c] == EmptyCell
          invariant forall c :: 0 <= c < j ==> b[i, c] == EmptyCell
        {
          b[i, j] := EmptyCell;
        }
      }
      board := b;
    }

    /** `GetBoard`: a fresh copy of the grid, so later changes to it leave the game alone. */
    method GetBoard() returns (copy: array2<char>)
      requires Valid()
      ensures fresh(copy)
      ensures copy.Length0 == 3 && copy.Length1 == 3
      ensures forall i, j :: 0 <= i < 3 && 0 <= j < 3 ==> copy[i, j] == board[i, j]
    {
      copy := new char[3, 3];
      for i := 0 to 3
        invariant forall r, c :: 0 <= r < i && 0 <= c < 3 ==> copy[r, c] == board[r, c]
      {
        for j := 0 to 3
          invariant forall r, c :: 0 <= r < i && 0 <= c < 3 ==> copy[r, c] == board[r, c]
          invariant forall c :: 0 <= c < j ==> copy[i, c] == board[i, c]
        {
          copy[i, j] := board[i, j];
        }
      }
    }

    /**
     * Places `player` at (`row`, `col`) when that is a cell of the grid and
     * it is empty; otherwise refuses and leaves the board as it was.
     */
    method MakeMove(row: int, col: int, player: char) returns (accepted: bool)
      requires Valid()
      modifies board
      ensures accepted <==> 0 <= row < 3 && 0 <= col < 3 && old(board[row, col]) == EmptyCell
      ensures accepted ==> board[row, col] == player
      ensures forall i, j :: 0 <= i < 3 && 0 <= j < 3 && (i, j) != (row, col) ==> board[i, j] == old(board[i, j])
      ensures !accepted ==> forall i, j :: 0 <= i < 3 && 0 <= j < 3 ==> board[i, j] == old(board[i, j])
      ensures forall i, j :: 0 <= i < 3 && 0 <= j < 3 && old(board[i, j]) != EmptyCell ==> board[i, j] == old(board[i, j])
    {
      if row < 0 || row > 2 || col < 0 || col > 2 || board[row, col] != EmptyCell {
        return false;
      }
      board[row, col] := player;
      return true;
    }

    /** `CheckWin`: rows first, then columns, then the two diagonals. */
    method CheckWin(player: char) returns (won: bool)
      requires Valid()
      ensures won <==> HasLine(player)
    {
      for i := 0 to 3
        invariant forall r :: 0 <= r < i ==> !RowOf(r, player)
      {
        if board[i, 0] == player && board[i, 1] == player && board[i, 2] == player {
          assert RowOf(i, player);
          return true;
        }
      }
      for i := 0 to 3
        invariant forall c :: 0 <= c < i ==> !ColumnOf(c, player)
      {
        if board[0, i] == player && board[1, i] == player && board[2, i] == player {
          assert ColumnOf(i, player);
          return true;
        }
      }
      if board[0, 0] == player && board[1, 1] == player && board[2, 2] == player {
        return true;
      }
      if board[0, 2] == player && board[1, 1] == player && board[2, 0] == player {
        return true;
      }
      return false;
    }

    method IsBoardFull() returns (full: bool)
      requires Valid()
      ensures full <==> Full()
    {
      for i := 0 to 3
        invariant forall r, c :: 0 <= r < i && 0 <= c < 3 ==> board[r, c] != EmptyCell
      {
        for j := 0 to 3
          invariant forall c :: 0 <= c < j ==> board[i, c] != EmptyCell
        {
          if board[i, j] == EmptyCell {
            return false;
          }
        }
      }
      return true;
    }
  }

  /** A line a player has completed stays complete whatever move is made next. */
  method MoveKeepsLines(game: TicTacToe, row: int, col: int, mover: char, player: char) returns (accepted: bool)
    requires game.Valid() && player != EmptyCell && game.HasLine(player)
    modifies game.board
    ensures game.HasLine(player)
  {
    if i :| 0 <= i < 3 && game.RowOf(i, player) {
      accepted := game.MakeMove(row, col, mover);
      assert game.RowOf(i, player);
    } else if j :| 0 <= j < 3 && game.ColumnOf(j, player) {
      accepted := game.MakeMove(row, col, mover);
      assert game.ColumnOf(j, player);
    } else {
      accepted := game.MakeMove(row, col, mover);
    }
  }

  /** The board after X has taken the top row and O the centre and the bottom-right corner. */
  predicate TopRowPosition(game: TicTacToe)
    requires game.Valid()
    reads game, game.board
  {
    && game.board[0, 0] == 'X' && game.board[0, 1] == 'X' && game.board[0, 2] == 'X'
    && game.board[1, 0] == EmptyCell && game.board[1, 1] == 'O' && game.board[1, 2] == EmptyCell
    && game.board[2, 0] == EmptyCell && game.board[2, 1] == EmptyCell && game.board[2, 2] == 'O'
  }

  /** The `InvalidMove` test's board moves: X takes the corner, and O's move onto it is refused. */
  method Opening(game: TicTacToe) returns (first: bool, retaken: bool)
    requires game.Valid()
    requires forall i, j :: 0 <= i < 3 && 0 <= j < 3 ==> game.board[i, j] == EmptyCell
    modifies game.board
    ensures first && !retaken
    ensures game.board[0, 0] == 'X'
    ensures forall i, j :: 0 <= i < 3 && 0 <= j < 3 && (i, j) != (0, 0) ==> game.board[i, j] == EmptyCell
  {
    first := game.MakeMove(0, 0, 'X');
    retaken := game.MakeMove(0, 0, 'O');
  }

  /** The playthrough's later moves: X completes the top row while O takes the centre and a corner. */
  method TopRowGame(game: TicTacToe)
    requires game.Valid() && game.board[0, 0] == 'X'
    requires forall i, j :: 0 <= i < 3 && 0 <= j < 3 && (i, j) != (0, 0) ==> game.board[i, j] == EmptyCell
    modifies game.board
    ensures TopRowPosition(game)
  {
    var _ := game.MakeMove(1, 1, 'O');
    var _ := game.MakeMove(0, 1, 'X');
    assert forall i, j :: 0 <= i < 3 && 0 <= j < 3 && (i, j) !in {(0, 0), (0, 1), (1, 1)} ==> game.board[i, j] == EmptyCell;
    var _ := game.MakeMove(2, 2, 'O');
    var _ := game.MakeMove(0, 2, 'X');
  }

  /** In the playthrough's final position X has a line, O has none, and the board is not full. */
  method GameOutcome(game: TicTacToe) returns (xWins: bool, oWins: bool, full: bool)
    requires game.Valid() && TopRowPosition(game)
    ensures xWins && !oWins && !full
  {
    assert game.RowOf(0, 'X');
    xWins := game.CheckWin('X');
    assert !game.RowOf(0, 'O') && !game.RowOf(1, 'O') && !game.RowOf(2, 'O');
    assert !game.ColumnOf(0, 'O') && !game.ColumnOf(1, 'O') && !game.ColumnOf(2, 'O');
    oWins := game.CheckWin('O');
    full := game.IsBoardFull();
  }

  /** The `GamePlaythrough` and `InvalidMove` tests' board moves: the retaken cell is refused, and the top row wins for X. */
  method GameScenario() returns (first: bool, retaken: bool, xWins: bool, oWins: bool, full: bool)
    ensures first && !retaken && xWins && !oWins && !full
  {
    var game := new TicTacToe();
    first, retaken := Opening(game);
    TopRowGame(game);
    xWins, oWins, full := GameOutcome(game);
  }

  /**
   * The `Draw` test's final board:
   *   X O X
   *   O X X
   *   O X O
   */
  predicate DrawPosition(game: TicTacToe)
    requires game.Valid()
    reads game, game.board
  {
    && game.board[0, 0] == 'X' && game.board[0, 1] == 'O' && game.board[0, 2] == 'X'
    && game.board[1, 0] == 'O' && game.board[1, 1] == 'X' && game.board[1, 2] == 'X'
    && game.board[2, 0] == 'O' && game.board[2, 1] == 'X' && game.board[2, 2] == 'O'
  }

  /** The `Draw` test's first five moves, all accepted, on a fresh board. */
  method DrawOpening(game: TicTacToe) returns (accepted: bool)
    requires game.Valid()
    requires forall i, j :: 0 <= i < 3 && 0 <= j < 3 ==> game.board[i, j] == EmptyCell
    modifies game.board
    ensures accepted
    ensures game.board[0, 0] == 'X' && game.board[0, 1] == 'O' && game.board[0, 2] == 'X'
    ensures game.board[1, 0] == 'O' && game.board[1, 1] == 'X'
    ensures game.board[1, 2] == EmptyCell && game.board[2, 0] == EmptyCell
    ensures game.board[2, 1] == EmptyCell && game.board[2, 2] == EmptyCell
  {
    var a := game.MakeMove(0, 0, 'X');
    var b := game.MakeMove(0, 1, 'O');
    var c := game.MakeMove(0, 2, 'X');
    var d := game.MakeMove(1, 0, 'O');
    var e := game.MakeMove(1, 1, 'X');
    accepted := a && b && c && d && e;
  }

  /** The `Draw` test's last four moves, all accepted, fill the board. */
  method DrawEnding(game: TicTacToe) returns (accepted: bool)
    requires game.Valid()
    requires game.board[0, 0] == 'X' && game.board[0, 1] == 'O' && game.board[0, 2] == 'X'
    requires game.board[1, 0] == 'O' && game.board[1, 1] == 'X'
    requires game.board[1, 2] == EmptyCell && game.board[2, 0] == EmptyCell
    requires game.board[2, 1] == EmptyCell && game.board[2, 2] == EmptyCell
    modifies game.board
    ensures accepted && DrawPosition(game)
  {
    var f := game.MakeMove(2, 0, 'O');
    var g := game.MakeMove(1, 2, 'X');
    var h := game.MakeMove(2, 2, 'O');
    var k := game.MakeMove(2, 1, 'X');
    accepted := f && g && h && k;
  }

  /** In the `Draw` test's final position nobody has a line and the board is full. */
  method DrawOutcome(game: TicTacToe) returns (xWins: bool, oWins: bool, full: bool)
    requires game.Valid() && DrawPosition(game)
    ensures !xWins && !oWins && full
  {
    assert !game.RowOf(0, 'X') && !game.RowOf(1, 'X') && !game.RowOf(2, 'X');
    assert !game.ColumnOf(0, 'X') && !game.ColumnOf(1, 'X') && !game.ColumnOf(2, 'X');
    xWins := game.CheckWin('X');
    assert !game.RowOf(0, 'O') && !game.RowOf(1, 'O') && !game.RowOf(2, 'O');
    assert !game.ColumnOf(0, 'O') && !game.ColumnOf(1, 'O') && !game.ColumnOf(2, 'O');
    oWins := game.CheckWin('O');
    full := game.IsBoardFull();
  }

  /**
   * The `Draw` test's board moves: all nine are accepted, neither player
   * wins and the board is full, the two facts from which the game server
   * declares a draw.
   */
  method DrawScenario() returns (accepted: bool, xWins: bool, oWins: bool, full: bool)
    ensures accepted && !xWins && !oWins && full
  {
    var game := new TicTacToe();
    var opening := DrawOpening(game);
    var ending := DrawEnding(game);
    accepted := opening && ending;
    xWins, oWins, full := DrawOutcome(game);
  }
}
