/** The `GameState` object: a 5x5 array of piece ids, the turn token and the
    move history, updated in place by `Move`. Every method is proved against
    the pure rules in rules.dfy. */
module Engine {
  import opened Rules

  class GameState {
    var board: array2<Option<Piece>>
    var currentTurn: Player
    var moveHistory: seq<string>

    ghost predicate Valid()
      reads this
    {
      board.Length0 == Size && board.Length1 == Size
    }

    /** The contents of a 5x5 array as a board value. */
    static function GridOf(b: array2<Option<Piece>>): (g: Grid)
      requires b.Length0 == Size && b.Length1 == Size
      reads b
      ensures WellFormed(g)
      ensures forall q :: OnGrid(q) ==> At(g, q) == b[q.row, q.col]
    {
      seq(Size, r requires 0 <= r < Size reads b =>
        seq(Size, c requires 0 <= c < Size reads b => b[r, c]))
    }

    /** The whole state as a value. */
    function Snapshot(): State
      requires Valid()
      reads this, board
    {
      State(GridOf(board), currentTurn, moveHistory)
    }

    /** Player A moves first; both sides start on their home rows. */
    constructor ()
      ensures Valid() && fresh(board)
      ensures Snapshot() == Initial()
    {
      var b := GameState.InitializeBoard();
      board := b;
      currentTurn := A;
      moveHistory := [];
    }

    /** `initializeBoard`: an empty 5x5 array with the six pieces placed. */
    static method InitializeBoard() returns (b: array2<Option<Piece>>)
      ensures fresh(b) && b.Length0 == Size && b.Length1 == Size
      ensures GridOf(b) == InitialGrid()
    {
      b := new Option<Piece>[Size, Size]((r, c) => None);
      b[4, 0] := Some(PA1);
      b[4, 1] := Some(HA1);
      b[4, 2] := Some(HA2);
      b[0, 0] := Some(PB1);
      b[0, 1] := Some(HB1);
      b[0, 2] := Some(HB2);
      forall q | OnGrid(q)
        ensures b[q.row, q.col] == At(InitialGrid(), q)
      {
        assert q.row in {0, 1, 2, 3, 4} && q.col in {0, 1, 2, 3, 4};
      }
      GridExt(GridOf(b), InitialGrid());
    }

    /** `findCharacterPosition`: a row-major scan for `x`. */
    method FindCharacterPosition(x: Piece) returns (pos: Option<Pos>)
      requires Valid()
      ensures pos == Find(GridOf(board), x)
    {
      var row := 0;
      while row < Size
        invariant 0 <= row <= Size
        invariant forall q :: OnGrid(q) && q.row < row ==> board[q.row, q.col] != Some(x)
      {
        var col := 0;
        while col < Size
          invariant 0 <= col <= Size
          invariant forall q :: OnGrid(q) && Before(q, Pos(row, col)) ==> board[q.row, q.col] != Some(x)
        {
          if board[row, col] == Some(x) {
            FirstAtIsFind(GridOf(board), x, Pos(row, col));
            return Some(Pos(row, col));
          }
          col := col + 1;
        }
        row := row + 1;
      }
      return None;
    }

    /** `captureCharacter`: empty one cell. */
    method CaptureCharacter(row: int, col: int)
      requires Valid() && IsValidMove(row, col)
      modifies board
      ensures GridOf(board) == SetCell(old(GridOf(board)), Pos(row, col), None)
    {
      board[row, col] := None;
      GridExt(GridOf(board), SetCell(old(GridOf(board)), Pos(row, col), None));
    }

    /** `switchTurn`: hand the turn to the other player. */
    method SwitchTurn()
      modifies this
      ensures currentTurn == old(currentTurn).Other()
      ensures board == old(board) && moveHistory == old(moveHistory)
    {
      currentTurn := if currentTurn == A then B else A;
    }

    /** `move(playerId, character, direction)`: validate, then capture,
        relocate, log, switch turn and report a win. */
    method Move(playerId: string, character: string, direction: string) returns (outcome: Outcome)
      requires Valid()
      modifies this, board
      ensures Valid() && board == old(board)
      ensures Snapshot() == Step(old(Snapshot()), playerId, character, direction).next
      ensures outcome == Step(old(Snapshot()), playerId, character, direction).outcome
    {
      if playerId != currentTurn.Code() {
        return Error(NotYourTurn);
      }
      var owned := Owned(currentTurn, character);
      if owned.None? {
        return Error(NotYourPiece);
      }
      var x := owned.value;
      var pos := FindCharacterPosition(x);
      if pos.None? {
        return Error(NotOnBoard);
      }
      outcome := MoveFrom(x, pos.value, playerId, character, direction);
    }

    /** Lines 42-64 of `move`, once the piece is found: decode the
        direction, check the board's edge and the per-piece rule, then
        commit. */
    method MoveFrom(x: Piece, from: Pos, playerId: string, character: string, direction: string)
      returns (outcome: Outcome)
      requires Valid() && playerId == currentTurn.Code()
      requires Owned(currentTurn, character) == Some(x) && Find(GridOf(board), x) == Some(from)
      modifies this, board
      ensures Valid() && board == old(board)
      ensures Snapshot() == Step(old(Snapshot()), playerId, character, direction).next
      ensures outcome == Step(old(Snapshot()), playerId, character, direction).outcome
    {
      var dir := ParseDir(direction);
      if dir.None? {
        return Error(InvalidDirection);
      }
      var to := Destination(from, dir.value, currentTurn);
      if !IsValidMove(to.row, to.col) {
        return Error(OutOfBounds);
      }
      var verdict := IsValidCharacterMove(x, dir.value, from, to);
      if verdict == Throw {
        return Crash;
      } else if verdict == Fail {
        return Error(InvalidCharacterMove);
      }

      assert Step(old(Snapshot()), playerId, character, direction)
          == Apply(old(Snapshot()), x, from, to, playerId, character, direction);
      outcome := Commit(x, from, to, playerId, character, direction);
    }

    /** Lines 66-81 of `move`, once every check has passed: capture,
        relocation, log entry, turn switch and the win check. */
    method Commit(x: Piece, from: Pos, to: Pos, playerId: string, character: string, direction: string)
      returns (outcome: Outcome)
      requires Valid() && OnGrid(from) && OnGrid(to)
      modifies this, board
      ensures Valid() && board == old(board)
      ensures Snapshot() == Apply(old(Snapshot()), x, from, to, playerId, character, direction).next
      ensures outcome == Apply(old(Snapshot()), x, from, to, playerId, character, direction).outcome
    {
      ghost var t := Apply(Snapshot(), x, from, to, playerId, character, direction);
      ghost var g0 := GridOf(board);
      var target := board[to.row, to.col];
      if target.Some? && target.value.OwnerTag() != playerId {
        CaptureCharacter(to.row, to.col);
      }
      ghost var g1 := GridOf(board);
      board[from.row, from.col] := None;
      assert GridOf(board) == SetCell(g1, from, None) by {
        GridExt(GridOf(board), SetCell(g1, from, None));
      }
      ghost var g2 := GridOf(board);
      board[to.row, to.col] := Some(x);
      assert GridOf(board) == SetCell(g2, to, Some(x)) by {
        GridExt(GridOf(board), SetCell(g2, to, Some(x)));
      }
      ghost var g3 := GridOf(board);
      assert g3 == Relocate(g0, x, from, to, playerId) == t.next.grid;

      moveHistory := moveHistory + [LogEntry(playerId, character, direction)];
      SwitchTurn();
      assert GridOf(board) == g3 by {
        GridExt(GridOf(board), g3);
      }
      assert Snapshot() == t.next;

      if IsGameOver(GridOf(board)) {
        return GameOver(if currentTurn == A then B else A);
      }
      return Success;
    }
  }
}
