/** The rules of the 5x5 two-player game as pure functions: the pieces, the
    board as a value, the row-major scan, the bounds and per-piece checks,
    win detection, and `Step`, the effect of one `move` call on a snapshot
    of the game state. The class in game_state.dfy is proved to behave as
    `Step` says. */
module Rules {

  datatype Option<T> = None | Some(value: T)

  /** The turn token: `'A'` or `'B'`. */
  datatype Player = A | B {
    /** The token as the wire string. */
    function Code(): string {
      match this
      case A => "A"
      case B => "B"
    }

    function Other(): Player {
      match this
      case A => B
      case B => A
    }
  }

  /** The six piece ids of the fixed rosters. */
  datatype Piece = PA1 | HA1 | HA2 | PB1 | HB1 | HB2 {
    function Id(): string {
      match this
      case PA1 => "PA1"
      case HA1 => "HA1"
      case HA2 => "HA2"
      case PB1 => "PB1"
      case HB1 => "HB1"
      case HB2 => "HB2"
    }

    /** `character.substring(0, 2)`: the key of the direction table. */
    function TypeTag(): string {
      Id()[..2]
    }

    /** `target.charAt(1)`, as a one-character string. */
    function OwnerTag(): string {
      [Id()[1]]
    }
  }

  /** The eight direction codes a move may name. */
  datatype Dir = Left | Right | Forward | Back | ForwardLeft | ForwardRight | BackLeft | BackRight {
    function Code(): string {
      match this
      case Left => "L"
      case Right => "R"
      case Forward => "F"
      case Back => "B"
      case ForwardLeft => "FL"
      case ForwardRight => "FR"
      case BackLeft => "BL"
      case BackRight => "BR"
    }
  }

  /** The `switch (direction)` labels; any other string is not a direction. */
  function ParseDir(direction: string): (d: Option<Dir>)
    ensures d.Some? ==> d.value.Code() == direction
  {
    if direction == "L" then Some(Left)
    else if direction == "R" then Some(Right)
    else if direction == "F" then Some(Forward)
    else if direction == "B" then Some(Back)
    else if direction == "FL" then Some(ForwardLeft)
    else if direction == "FR" then Some(ForwardRight)
    else if direction == "BL" then Some(BackLeft)
    else if direction == "BR" then Some(BackRight)
    else None
  }

  /** `players[p]`: the roster of each side, fixed for the whole game. */
  function Roster(p: Player): seq<Piece> {
    match p
    case A => [PA1, HA1, HA2]
    case B => [PB1, HB1, HB2]
  }

  /** `players[p].includes(character)`: the roster entry whose id is `character`. */
  function Owned(p: Player, character: string): (r: Option<Piece>)
    ensures r.Some? ==> r.value in Roster(p) && r.value.Id() == character
    ensures r.None? ==> forall q :: q in Roster(p) ==> q.Id() != character
  {
    var roster := Roster(p);
    if roster[0].Id() == character then Some(roster[0])
    else if roster[1].Id() == character then Some(roster[1])
    else if roster[2].Id() == character then Some(roster[2])
    else None
  }

  // ---------------------------------------------------------------- board

  /** A cell coordinate; either part may be off the board after a step. */
  datatype Pos = Pos(row: int, col: int)

  /** The board as a value: five rows of five cells. */
  type Grid = seq<seq<Option<Piece>>>

  const Size: int := 5

  predicate WellFormed(g: Grid) {
    |g| == Size && forall r :: 0 <= r < |g| ==> |g[r]| == Size
  }

  /** `isValidMove(row, col)`: both coordinates lie in 0..4. */
  predicate IsValidMove(row: int, col: int) {
    0 <= row < Size && 0 <= col < Size
  }

  predicate OnGrid(p: Pos) {
    IsValidMove(p.row, p.col)
  }

  function At(g: Grid, p: Pos): Option<Piece>
    requires WellFormed(g) && OnGrid(p)
  {
    g[p.row][p.col]
  }

  /** `p` comes strictly before `q` in row-major order. */
  predicate Before(p: Pos, q: Pos) {
    p.row < q.row || (p.row == q.row && p.col < q.col)
  }

  /** `p` holds `x` and no earlier cell does. */
  ghost predicate FirstAt(g: Grid, x: Piece, p: Pos)
    requires WellFormed(g)
  {
    OnGrid(p) && At(g, p) == Some(x) &&
    forall q :: OnGrid(q) && Before(q, p) ==> At(g, q) != Some(x)
  }

  /** Scan for `x` from cell (row, col) onwards in row-major order. */
  function FindFrom(g: Grid, x: Piece, row: int, col: int): (r: Option<Pos>)
    requires WellFormed(g) && 0 <= row <= Size && 0 <= col <= Size
    decreases Size - row, Size - col
    ensures r.Some? ==> OnGrid(r.value) && At(g, r.value) == Some(x) && !Before(r.value, Pos(row, col))
    ensures r.Some? ==> forall q :: OnGrid(q) && !Before(q, Pos(row, col)) && Before(q, r.value) ==> At(g, q) != Some(x)
    ensures r.None? ==> forall q :: OnGrid(q) && !Before(q, Pos(row, col)) ==> At(g, q) != Some(x)
  {
    if row == Size then None
    else if col == Size then FindFrom(g, x, row + 1, 0)
    else if g[row][col] == Some(x) then Some(Pos(row, col))
    else FindFrom(g, x, row, col + 1)
  }

  /** `findCharacterPosition`: the first cell in row-major order that holds
      `x`, or `None` when no cell does. */
  function Find(g: Grid, x: Piece): (r: Option<Pos>)
    requires WellFormed(g)
    ensures r.Some? ==> FirstAt(g, x, r.value)
    ensures r.None? <==> forall q :: OnGrid(q) ==> At(g, q) != Some(x)
  {
    FindFrom(g, x, 0, 0)
  }

  /** The first match is unique, so any first match is what `Find` returns. */
  lemma FirstAtIsFind(g: Grid, x: Piece, p: Pos)
    requires WellFormed(g) && FirstAt(g, x, p)
    ensures Find(g, x) == Some(p)
  {
    var r := Find(g, x);
    assert r.Some? by {
      assert OnGrid(p) && At(g, p) == Some(x);
    }
    assert FirstAt(g, x, r.value);
    assert !Before(r.value, p) && !Before(p, r.value);
  }

  /** Two boards that agree on every cell are the same board. */
  lemma GridExt(g: Grid, h: Grid)
    requires WellFormed(g) && WellFormed(h)
    requires forall q :: OnGrid(q) ==> At(g, q) == At(h, q)
    ensures g == h
  {
    forall r | 0 <= r < Size
      ensures g[r] == h[r]
    {
      forall c | 0 <= c < Size
        ensures g[r][c] == h[r][c]
      {
        assert At(g, Pos(r, c)) == At(h, Pos(r, c));
      }
    }
  }

  predicate OnBoard(g: Grid, x: Piece)
    requires WellFormed(g)
  {
    Find(g, x).Some?
  }

  /** `players[p].some(char => findCharacterPosition(char) !== null)`. */
  predicate HasPieces(g: Grid, p: Player)
    requires WellFormed(g)
  {
    var roster := Roster(p);
    OnBoard(g, roster[0]) || OnBoard(g, roster[1]) || OnBoard(g, roster[2])
  }

  /** `isGameOver`: some roster has no id left on the board. */
  predicate IsGameOver(g: Grid)
    requires WellFormed(g)
  {
    !HasPieces(g, A) || !HasPieces(g, B)
  }

  /** The board with cell `p` replaced by `v`. */
  function SetCell(g: Grid, p: Pos, v: Option<Piece>): (h: Grid)
    requires WellFormed(g) && OnGrid(p)
    ensures WellFormed(h)
    ensures At(h, p) == v
    ensures forall q :: OnGrid(q) && q != p ==> At(h, q) == At(g, q)
  {
    g[p.row := g[p.row][p.col := v]]
  }

  /** `initializeBoard`: A's pawn and heroes on row 4, B's on row 0, in
      columns 0, 1 and 2; every other cell empty. */
  function InitialGrid(): (g: Grid)
    ensures WellFormed(g)
  {
    [[Some(PB1), Some(HB1), Some(HB2), None, None],
     [None, None, None, None, None],
     [None, None, None, None, None],
     [None, None, None, None, None],
     [Some(PA1), Some(HA1), Some(HA2), None, None]]
  }

  // ---------------------------------------------------------------- moves

  /** The destination computed by the `switch (direction)`: forward is
      towards row 0 for the mover `A` and towards row 4 otherwise. */
  function Destination(from: Pos, d: Dir, mover: Player): Pos {
    var fwd := if mover == A then -1 else 1;
    match d
    case Left => Pos(from.row, from.col - 1)
    case Right => Pos(from.row, from.col + 1)
    case Forward => Pos(from.row + fwd, from.col)
    case Back => Pos(from.row - fwd, from.col)
    case ForwardLeft => Pos(from.row + fwd, from.col - 1)
    case ForwardRight => Pos(from.row + fwd, from.col + 1)
    case BackLeft => Pos(from.row - fwd, from.col - 1)
    case BackRight => Pos(from.row - fwd, from.col + 1)
  }

  /** The `directionMap` table keyed by type tag; a missing key is `None`. */
  function DirectionMap(typeTag: string): Option<seq<Dir>> {
    if typeTag == "PA" || typeTag == "HA" || typeTag == "HB" then Some([Left, Right, Forward, Back])
    else if typeTag == "H2" then Some([ForwardLeft, ForwardRight, BackLeft, BackRight])
    else None
  }

  /** What `isValidCharacterMove` does: accept, reject, or throw (reading
      `includes` of an undefined table entry). */
  datatype Verdict = Pass | Fail | Throw

  function Abs(n: int): nat {
    if n < 0 then -n else n
  }

  /** `isValidCharacterMove(character, direction, row, col, newRow, newCol)`. */
  function IsValidCharacterMove(x: Piece, d: Dir, from: Pos, to: Pos): Verdict {
    var tag := x.TypeTag();
    match DirectionMap(tag)
    case None => Throw
    case Some(allowed) =>
      if d !in allowed then Fail
      else if (tag == "HA" || tag == "HB") && (d == Forward || d == Back)
              && (to.row != from.row + (if d == Forward then -2 else 2) || from.col != to.col) then Fail
      else if tag == "H2" && (Abs(to.row - from.row) != 2 || Abs(to.col - from.col) != 2) then Fail
      else Pass
  }

  // ---------------------------------------------------------------- one move

  /** The error returns of `move`, by the check that produced them. */
  datatype ErrorKind = NotYourTurn | NotYourPiece | NotOnBoard | InvalidDirection | OutOfBounds | InvalidCharacterMove

  /** What `move` returns; `Crash` is the TypeError thrown for `PB1`. */
  datatype Outcome = Error(kind: ErrorKind) | Success | GameOver(winner: Player) | Crash {
    predicate Accepted() {
      Success? || GameOver?
    }
  }

  /** A snapshot of the game state; the rosters are the constant `Roster`. */
  datatype State = State(grid: Grid, turn: Player, history: seq<string>)

  datatype Transition = Transition(next: State, outcome: Outcome)

  /** The line `move` appends to the history. */
  function LogEntry(playerId: string, character: string, direction: string): string {
    playerId + "'s " + character + " moved " + direction
  }

  function Initial(): State {
    State(InitialGrid(), A, [])
  }

  /** The board after `x` leaves `from` for `to`, including the capture of
      an opposing piece standing on `to`. */
  function Relocate(g: Grid, x: Piece, from: Pos, to: Pos, playerId: string): (h: Grid)
    requires WellFormed(g) && OnGrid(from) && OnGrid(to)
    ensures WellFormed(h)
  {
    var target := At(g, to);
    var g1 := if target.Some? && target.value.OwnerTag() != playerId then SetCell(g, to, None) else g;
    SetCell(SetCell(g1, from, None), to, Some(x))
  }

  /** One call `move(playerId, character, direction)` on state `s`: the
      checks in the source's order, then capture, relocation, log entry,
      turn switch and the win check. */
  function Step(s: State, playerId: string, character: string, direction: string): (t: Transition)
    requires WellFormed(s.grid)
    ensures WellFormed(t.next.grid)
  {
    if playerId != s.turn.Code() then Transition(s, Error(NotYourTurn))
    else match Owned(s.turn, character)
    case None => Transition(s, Error(NotYourPiece))
    case Some(x) =>
      match Find(s.grid, x)
      case None => Transition(s, Error(NotOnBoard))
      case Some(from) =>
        match ParseDir(direction)
        case None => Transition(s, Error(InvalidDirection))
        case Some(d) =>
          var to := Destination(from, d, s.turn);
          if !IsValidMove(to.row, to.col) then Transition(s, Error(OutOfBounds))
          else match IsValidCharacterMove(x, d, from, to)
          case Throw => Transition(s, Crash)
          case Fail => Transition(s, Error(InvalidCharacterMove))
          case Pass => Apply(s, x, from, to, playerId, character, direction)
  }

  /** The part of `move` after every check has passed: capture and
      relocation, the log entry, the turn switch and the win check. */
  function Apply(s: State, x: Piece, from: Pos, to: Pos, playerId: string, character: string, direction: string): (t: Transition)
    requires WellFormed(s.grid) && OnGrid(from) && OnGrid(to)
    ensures WellFormed(t.next.grid)
  {
    var g := Relocate(s.grid, x, from, to, playerId);
    var next := State(g, s.turn.Other(), s.history + [LogEntry(playerId, character, direction)]);
    if IsGameOver(g) then Transition(next, GameOver(if next.turn == A then B else A))
    else Transition(next, Success)
  }
}
