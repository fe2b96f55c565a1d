/** What the rules guarantee about one move and about a whole game: the
    starting position, which calls are rejected and that they change
    nothing, the shape of every accepted move, its exact effect on the
    board, history and turn, the occupancy invariants, and who is reported
    as the winner. */
module Properties {
  import opened Rules

  // ---------------------------------------------------------------- helpers

  /** No piece id stands on two cells. */
  ghost predicate AtMostOnce(g: Grid)
    requires WellFormed(g)
  {
    forall p, q :: OnGrid(p) && OnGrid(q) && At(g, p).Some? && At(g, p) == At(g, q) ==> p == q
  }

  function Occupancy(v: Option<Piece>): nat {
    if v.Some? then 1 else 0
  }

  function CountRow(row: seq<Option<Piece>>): nat {
    if row == [] then 0 else Occupancy(row[0]) + CountRow(row[1..])
  }

  function CountRows(rows: seq<seq<Option<Piece>>>): nat {
    if rows == [] then 0 else CountRow(rows[0]) + CountRows(rows[1..])
  }

  /** The number of occupied cells. */
  function Occupied(g: Grid): nat {
    CountRows(g)
  }

  lemma {:induction false} CountRowUpdate(row: seq<Option<Piece>>, c: nat, v: Option<Piece>)
    requires c < |row|
    ensures CountRow(row[c := v]) + Occupancy(row[c]) == CountRow(row) + Occupancy(v)
  {
    if c > 0 {
      assert row[c := v][1..] == row[1..][c - 1 := v];
      CountRowUpdate(row[1..], c - 1, v);
    } else {
      assert row[c := v][1..] == row[1..];
    }
  }

  lemma {:induction false} CountRowsUpdate(rows: seq<seq<Option<Piece>>>, r: nat, row: seq<Option<Piece>>)
    requires r < |rows|
    ensures CountRows(rows[r := row]) + CountRow(rows[r]) == CountRows(rows) + CountRow(row)
  {
    if r > 0 {
      assert rows[r := row][1..] == rows[1..][r - 1 := row];
      CountRowsUpdate(rows[1..], r - 1, row);
    } else {
      assert rows[r := row][1..] == rows[1..];
    }
  }

  /** Writing one cell changes the count by what left and what arrived. */
  lemma OccupiedSetCell(g: Grid, p: Pos, v: Option<Piece>)
    requires WellFormed(g) && OnGrid(p)
    ensures Occupied(SetCell(g, p, v)) + Occupancy(At(g, p)) == Occupied(g) + Occupancy(v)
  {
    CountRowUpdate(g[p.row], p.col, v);
    CountRowsUpdate(g, p.row, g[p.row][p.col := v]);
  }

  lemma IdInjective(x: Piece, y: Piece)
    ensures x.Id() == y.Id() <==> x == y
  {
    if x.Id() == y.Id() {
      assert x.Id()[0] == y.Id()[0] && x.Id()[2] == y.Id()[2];
    }
  }

  /** `h` is `g` after piece `x` moved from `from` to `to`: only those two
      cells differ. */
  ghost predicate MovedOnGrid(g: Grid, h: Grid, x: Piece, from: Pos, to: Pos)
    requires WellFormed(g) && WellFormed(h)
  {
    OnGrid(from) && OnGrid(to) && from != to &&
    At(g, from) == Some(x) && At(h, from) == None && At(h, to) == Some(x) &&
    forall q :: OnGrid(q) && q != from && q != to ==> At(h, q) == At(g, q)
  }

  lemma MovePreservesAtMostOnce(g: Grid, h: Grid, x: Piece, from: Pos, to: Pos)
    requires WellFormed(g) && WellFormed(h) && MovedOnGrid(g, h, x, from, to)
    requires AtMostOnce(g)
    ensures AtMostOnce(h)
  {
    forall p, q | OnGrid(p) && OnGrid(q) && At(h, p).Some? && At(h, p) == At(h, q)
      ensures p == q
    {
      // each occupied cell of `h` holds what its preimage held in `g`
      var p0 := if p == to then from else p;
      var q0 := if q == to then from else q;
      assert At(g, p0) == At(h, p) && At(g, q0) == At(h, q);
    }
  }

  lemma MoveDisplaces(g: Grid, h: Grid, x: Piece, from: Pos, to: Pos)
    requires WellFormed(g) && WellFormed(h) && MovedOnGrid(g, h, x, from, to)
    requires AtMostOnce(g) && At(g, to).Some?
    ensures At(g, to).value != x && !OnBoard(h, At(g, to).value)
  {
    var y := At(g, to).value;
    forall q | OnGrid(q)
      ensures At(h, q) != Some(y)
    {
      if q != from && q != to {
        assert At(h, q) == At(g, q);
      }
    }
  }

  /** A first match can be read off row by row. */
  lemma FirstAtByRows(g: Grid, x: Piece, p: Pos)
    requires WellFormed(g) && OnGrid(p) && At(g, p) == Some(x)
    requires forall r :: 0 <= r < p.row ==> Some(x) !in g[r]
    requires Some(x) !in g[p.row][..p.col]
    ensures Find(g, x) == Some(p)
  {
    forall q | OnGrid(q) && Before(q, p)
      ensures At(g, q) != Some(x)
    {
      if q.row == p.row {
        assert g[q.row][q.col] == g[p.row][..p.col][q.col];
      } else {
        assert g[q.row][q.col] in g[q.row];
      }
    }
    FirstAtIsFind(g, x, p);
  }

  /** Every fact about a move that got past all checks. */
  lemma AcceptedPath(s: State, playerId: string, character: string, direction: string)
    requires WellFormed(s.grid)
    requires Step(s, playerId, character, direction).outcome.Accepted()
    ensures playerId == s.turn.Code()
    ensures Owned(s.turn, character).Some?
    ensures Find(s.grid, Owned(s.turn, character).value).Some?
    ensures ParseDir(direction).Some?
    ensures var x := Owned(s.turn, character).value;
            var from := Find(s.grid, x).value;
            var d := ParseDir(direction).value;
            var to := Destination(from, d, s.turn);
            OnGrid(from) && OnGrid(to) &&
            IsValidCharacterMove(x, d, from, to) == Pass &&
            Step(s, playerId, character, direction) == Apply(s, x, from, to, playerId, character, direction)
  {
  }

  /** A call that passes every check is carried out by `Apply`. */
  lemma ChecksPassed(s: State, playerId: string, character: string, direction: string, x: Piece, from: Pos, d: Dir)
    requires WellFormed(s.grid) && playerId == s.turn.Code()
    requires Owned(s.turn, character) == Some(x) && Find(s.grid, x) == Some(from) && ParseDir(direction) == Some(d)
    requires OnGrid(from) && OnGrid(Destination(from, d, s.turn))
    requires IsValidCharacterMove(x, d, from, Destination(from, d, s.turn)) == Pass
    ensures Step(s, playerId, character, direction) == Apply(s, x, from, Destination(from, d, s.turn), playerId, character, direction)
  {
  }

  /** A move that passes every check but the per-piece rule is refused
      with `InvalidCharacterMove`. */
  lemma CharacterMoveRefused(s: State, playerId: string, character: string, direction: string, x: Piece, from: Pos, d: Dir)
    requires WellFormed(s.grid) && playerId == s.turn.Code()
    requires Owned(s.turn, character) == Some(x) && Find(s.grid, x) == Some(from) && ParseDir(direction) == Some(d)
    requires OnGrid(Destination(from, d, s.turn))
    requires IsValidCharacterMove(x, d, from, Destination(from, d, s.turn)) == Fail
    ensures Step(s, playerId, character, direction) == Transition(s, Error(InvalidCharacterMove))
  {
  }

  // ---------------------------------------------------------------- inputs

  /** The eight codes decode to their directions and nothing else decodes. */
  lemma ParseDirRoundTrip(direction: string, d: Dir)
    ensures ParseDir(d.Code()) == Some(d)
    ensures ParseDir(direction) == Some(d) <==> direction == d.Code()
  {
  }

  /** `includes` holds exactly for the ids of the mover's roster. */
  lemma OwnedIff(p: Player, character: string, x: Piece)
    ensures Owned(p, character) == Some(x) <==> x in Roster(p) && x.Id() == character
  {
    if x in Roster(p) && x.Id() == character {
      var r := Owned(p, character);
      assert r.Some?;
      IdInjective(r.value, x);
    }
  }

  // ---------------------------------------------------------------- start

  /** The starting position: A to move, no history, and each id found on
      its own starting cell. */
  lemma InitialPlacement()
    ensures Initial().turn == A && Initial().history == []
    ensures Find(InitialGrid(), PA1) == Some(Pos(4, 0))
    ensures Find(InitialGrid(), HA1) == Some(Pos(4, 1))
    ensures Find(InitialGrid(), HA2) == Some(Pos(4, 2))
    ensures Find(InitialGrid(), PB1) == Some(Pos(0, 0))
    ensures Find(InitialGrid(), HB1) == Some(Pos(0, 1))
    ensures Find(InitialGrid(), HB2) == Some(Pos(0, 2))
    ensures !IsGameOver(InitialGrid())
  {
    InitialRowA();
    InitialRowB();
  }

  /** A's three ids start on the bottom row, left to right. */
  lemma InitialRowA()
    ensures Find(InitialGrid(), PA1) == Some(Pos(4, 0))
    ensures Find(InitialGrid(), HA1) == Some(Pos(4, 1))
    ensures Find(InitialGrid(), HA2) == Some(Pos(4, 2))
  {
    var g := InitialGrid();
    FirstAtByRows(g, PA1, Pos(4, 0));
    FirstAtByRows(g, HA1, Pos(4, 1));
    FirstAtByRows(g, HA2, Pos(4, 2));
  }

  /** B's three ids start on the top row, left to right. */
  lemma InitialRowB()
    ensures Find(InitialGrid(), PB1) == Some(Pos(0, 0))
    ensures Find(InitialGrid(), HB1) == Some(Pos(0, 1))
    ensures Find(InitialGrid(), HB2) == Some(Pos(0, 2))
  {
    var g := InitialGrid();
    FirstAtByRows(g, PB1, Pos(0, 0));
    FirstAtByRows(g, HB1, Pos(0, 1));
    FirstAtByRows(g, HB2, Pos(0, 2));
  }

  lemma CountRowFive(row: seq<Option<Piece>>)
    requires |row| == 5
    ensures CountRow(row) == Occupancy(row[0]) + Occupancy(row[1]) + Occupancy(row[2]) + Occupancy(row[3]) + Occupancy(row[4])
  {
    assert CountRow(row) == Occupancy(row[0]) + CountRow(row[1..]);
    assert CountRow(row[1..]) == Occupancy(row[1]) + CountRow(row[2..]) by {
      assert row[1..][1..] == row[2..];
    }
    assert CountRow(row[2..]) == Occupancy(row[2]) + CountRow(row[3..]) by {
      assert row[2..][1..] == row[3..];
    }
    assert CountRow(row[3..]) == Occupancy(row[3]) + CountRow(row[4..]) by {
      assert row[3..][1..] == row[4..];
    }
    assert CountRow(row[4..]) == Occupancy(row[4]) by {
      assert row[4..][1..] == [];
    }
  }

  /** The starting board holds exactly six pieces, each on one cell, and
      every cell outside columns 0-2 of rows 0 and 4 is empty. */
  lemma InitialOccupancy()
    ensures forall q :: OnGrid(q) && !((q.row == 0 || q.row == 4) && q.col < 3) ==> At(InitialGrid(), q) == None
    ensures AtMostOnce(InitialGrid())
    ensures Occupied(InitialGrid()) == 6
  {
    var g := InitialGrid();
    CountRowFive(g[0]);
    CountRowFive(g[1]);
    CountRowFive(g[2]);
    CountRowFive(g[3]);
    CountRowFive(g[4]);
    assert g[1..][1..][1..][1..][1..] == [];
  }

  // ---------------------------------------------------------------- rejections

  /** Every rejection and the crash leave the state as it was; every
      accepted move adds exactly one history entry. */
  lemma RejectionChangesNothing(s: State, playerId: string, character: string, direction: string)
    requires WellFormed(s.grid)
    ensures var t := Step(s, playerId, character, direction);
            (!t.outcome.Accepted() ==> t.next == s) &&
            (t.outcome.Accepted() <==> |t.next.history| == |s.history| + 1)
  {
    var t := Step(s, playerId, character, direction);
    if t.outcome.Accepted() {
      AcceptedPath(s, playerId, character, direction);
    }
  }

  /** The first three checks, in the order the code runs them: the turn,
      then the roster, then the board. */
  lemma CheckOrderOwner(s: State, playerId: string, character: string, direction: string)
    requires WellFormed(s.grid)
    ensures var t := Step(s, playerId, character, direction);
            (t.outcome == Error(NotYourTurn) <==> playerId != s.turn.Code()) &&
            (t.outcome == Error(NotYourPiece) <==>
               playerId == s.turn.Code() && forall x :: x in Roster(s.turn) ==> x.Id() != character) &&
            (t.outcome == Error(NotOnBoard) <==>
               playerId == s.turn.Code() && Owned(s.turn, character).Some? &&
               !OnBoard(s.grid, Owned(s.turn, character).value))
  {
    if Owned(s.turn, character).None? {
      forall x | x in Roster(s.turn) ensures x.Id() != character {
        OwnedIff(s.turn, character, x);
      }
    }
  }

  /** The next two checks: the direction code, then the board's edge. */
  lemma CheckOrderDirection(s: State, playerId: string, character: string, direction: string)
    requires WellFormed(s.grid)
    ensures var t := Step(s, playerId, character, direction);
            (t.outcome == Error(InvalidDirection) <==>
               playerId == s.turn.Code() && Owned(s.turn, character).Some? &&
               OnBoard(s.grid, Owned(s.turn, character).value) &&
               forall d: Dir :: d.Code() != direction) &&
            (t.outcome == Error(OutOfBounds) <==>
               playerId == s.turn.Code() && Owned(s.turn, character).Some? &&
               OnBoard(s.grid, Owned(s.turn, character).value) && ParseDir(direction).Some? &&
               var to := Destination(Find(s.grid, Owned(s.turn, character).value).value, ParseDir(direction).value, s.turn);
               !IsValidMove(to.row, to.col))
  {
    if ParseDir(direction).Some? {
      ParseDirRoundTrip(direction, ParseDir(direction).value);
    }
  }

  // ---------------------------------------------------------------- the rule

  /** The per-piece rule as the code has it: `PB1` has no table entry and
      always throws; no piece may move diagonally; heroes may move only L
      or R; the pawn `PA1` may move L, R, F or B. */
  lemma PieceRule(x: Piece, d: Dir, from: Pos, mover: Player)
    ensures var v := IsValidCharacterMove(x, d, from, Destination(from, d, mover));
            (v == Throw <==> x == PB1) &&
            (v == Pass <==> x != PB1 && (d == Left || d == Right || (x == PA1 && (d == Forward || d == Back))))
  {
    var tag := x.TypeTag();
    match x
    case PA1 => assert tag == "PA";
    case HA1 => assert tag == "HA";
    case HA2 => assert tag == "HA";
    case PB1 => assert tag == "PB";
    case HB1 => assert tag == "HB";
    case HB2 => assert tag == "HB";
  }

  /** `PB1` crashes the engine whenever B gets as far as the rule check. */
  lemma PawnBCrashes(s: State, direction: string)
    requires WellFormed(s.grid) && s.turn == B && OnBoard(s.grid, PB1) && ParseDir(direction).Some?
    requires var to := Destination(Find(s.grid, PB1).value, ParseDir(direction).value, B);
             IsValidMove(to.row, to.col)
    ensures Step(s, "B", "PB1", direction) == Transition(s, Crash)
  {
    assert Owned(B, "PB1") == Some(PB1);
    var from := Find(s.grid, PB1).value;
    var d := ParseDir(direction).value;
    PieceRule(PB1, d, from, B);
  }

  /** Every accepted move takes one of the mover's pieces exactly one cell
      left, right, forward or back; only the pawn `PA1` moves forward or back. */
  lemma AcceptedMoveShape(s: State, playerId: string, character: string, direction: string)
    requires WellFormed(s.grid)
    requires Step(s, playerId, character, direction).outcome.Accepted()
    ensures var x := Owned(s.turn, character).value;
            var from := Find(s.grid, x).value;
            var d := ParseDir(direction).value;
            var to := Destination(from, d, s.turn);
            x in Roster(s.turn) && x != PB1 &&
            d in {Left, Right, Forward, Back} &&
            (d in {Forward, Back} ==> x == PA1) &&
            Abs(to.row - from.row) + Abs(to.col - from.col) == 1
  {
    AcceptedPath(s, playerId, character, direction);
    var x := Owned(s.turn, character).value;
    var from := Find(s.grid, x).value;
    var d := ParseDir(direction).value;
    PieceRule(x, d, from, s.turn);
  }

  // ---------------------------------------------------------------- the effect

  /** An accepted move empties the source cell, puts the piece on the
      destination, leaves every other cell alone, appends one history line
      and hands the turn over. */
  lemma AcceptedEffect(s: State, playerId: string, character: string, direction: string)
    requires WellFormed(s.grid)
    requires Step(s, playerId, character, direction).outcome.Accepted()
    ensures var t := Step(s, playerId, character, direction);
            var x := Owned(s.turn, character).value;
            var from := Find(s.grid, x).value;
            var to := Destination(from, ParseDir(direction).value, s.turn);
            from != to && At(s.grid, from) == Some(x) &&
            At(t.next.grid, from) == None && At(t.next.grid, to) == Some(x) &&
            (forall q :: OnGrid(q) && q != from && q != to ==> At(t.next.grid, q) == At(s.grid, q)) &&
            t.next.history == s.history + [playerId + "'s " + character + " moved " + direction] &&
            t.next.turn == s.turn.Other() && t.next.turn != s.turn
  {
    AcceptedPath(s, playerId, character, direction);
    var x := Owned(s.turn, character).value;
    var from := Find(s.grid, x).value;
    var d := ParseDir(direction).value;
    PieceRule(x, d, from, s.turn);
  }

  /** Whatever stood on the destination, the opponent's piece or the
      mover's own, is no longer on the board afterwards. */
  lemma DisplacedPieceLeavesBoard(s: State, playerId: string, character: string, direction: string)
    requires WellFormed(s.grid) && AtMostOnce(s.grid)
    requires Step(s, playerId, character, direction).outcome.Accepted()
    ensures var t := Step(s, playerId, character, direction);
            var x := Owned(s.turn, character).value;
            var to := Destination(Find(s.grid, x).value, ParseDir(direction).value, s.turn);
            At(s.grid, to).Some? ==> At(s.grid, to).value != x && !OnBoard(t.next.grid, At(s.grid, to).value)
  {
    var t := Step(s, playerId, character, direction);
    AcceptedEffect(s, playerId, character, direction);
    var x := Owned(s.turn, character).value;
    var from := Find(s.grid, x).value;
    var to := Destination(from, ParseDir(direction).value, s.turn);
    if At(s.grid, to).Some? {
      MoveDisplaces(s.grid, t.next.grid, x, from, to);
    }
  }

  /** An accepted move never adds an occupied cell, and removes one exactly
      when the destination was taken, by either side. */
  lemma OccupancyCount(s: State, playerId: string, character: string, direction: string)
    requires WellFormed(s.grid)
    ensures var t := Step(s, playerId, character, direction);
            (t.outcome.Accepted() ==>
               var to := Destination(Find(s.grid, Owned(s.turn, character).value).value, ParseDir(direction).value, s.turn);
               Occupied(t.next.grid) + Occupancy(At(s.grid, to)) == Occupied(s.grid)) &&
            Occupied(t.next.grid) <= Occupied(s.grid)
  {
    var t := Step(s, playerId, character, direction);
    if t.outcome.Accepted() {
      AcceptedPath(s, playerId, character, direction);
      var x := Owned(s.turn, character).value;
      var from := Find(s.grid, x).value;
      var d := ParseDir(direction).value;
      var to := Destination(from, d, s.turn);
      PieceRule(x, d, from, s.turn);
      var g := s.grid;
      var target := At(g, to);
      var g1 := if target.Some? && target.value.OwnerTag() != playerId then SetCell(g, to, None) else g;
      var g2 := SetCell(g1, from, None);
      OccupiedSetCell(g, to, None);
      OccupiedSetCell(g1, from, None);
      OccupiedSetCell(g2, to, Some(x));
      assert t.next.grid == SetCell(g2, to, Some(x));
      assert At(g1, from) == Some(x);
    }
  }

  /** No id ever stands on two cells: a move keeps that so. */
  lemma AtMostOncePreserved(s: State, playerId: string, character: string, direction: string)
    requires WellFormed(s.grid) && AtMostOnce(s.grid)
    ensures AtMostOnce(Step(s, playerId, character, direction).next.grid)
  {
    var t := Step(s, playerId, character, direction);
    if t.outcome.Accepted() {
      AcceptedEffect(s, playerId, character, direction);
      var x := Owned(s.turn, character).value;
      var from := Find(s.grid, x).value;
      var to := Destination(from, ParseDir(direction).value, s.turn);
      MovePreservesAtMostOnce(s.grid, t.next.grid, x, from, to);
    } else {
      RejectionChangesNothing(s, playerId, character, direction);
    }
  }

  // ---------------------------------------------------------------- winning

  /** After an accepted move the game is reported over exactly when some
      roster has left the board; the mover always keeps a piece on the
      board, so the reported winner is always the mover. */
  lemma WinnerIsMover(s: State, playerId: string, character: string, direction: string)
    requires WellFormed(s.grid)
    requires Step(s, playerId, character, direction).outcome.Accepted()
    ensures var t := Step(s, playerId, character, direction);
            (t.outcome.GameOver? <==> !HasPieces(t.next.grid, A) || !HasPieces(t.next.grid, B)) &&
            HasPieces(t.next.grid, s.turn) &&
            (t.outcome.GameOver? ==> t.outcome.winner == s.turn && !HasPieces(t.next.grid, s.turn.Other()))
  {
    var t := Step(s, playerId, character, direction);
    AcceptedPath(s, playerId, character, direction);
    AcceptedEffect(s, playerId, character, direction);
    var x := Owned(s.turn, character).value;
    var from := Find(s.grid, x).value;
    var to := Destination(from, ParseDir(direction).value, s.turn);
    assert OnBoard(t.next.grid, x) by {
      assert At(t.next.grid, to) == Some(x);
    }
    assert x in Roster(s.turn);
  }

  // ---------------------------------------------------------------- a game

  /** One request as the transport layer hands it to `move`. */
  datatype Request = Request(playerId: string, character: string, direction: string)

  /** The state after feeding `reqs` to `move` in order. */
  function Run(s: State, reqs: seq<Request>): (r: State)
    requires WellFormed(s.grid)
    ensures WellFormed(r.grid)
    decreases |reqs|
  {
    if reqs == [] then s
    else Run(Step(s, reqs[0].playerId, reqs[0].character, reqs[0].direction).next, reqs[1..])
  }

  /** How many of `reqs` were accepted. */
  function AcceptedCount(s: State, reqs: seq<Request>): nat
    requires WellFormed(s.grid)
    decreases |reqs|
  {
    if reqs == [] then 0
    else
      var t := Step(s, reqs[0].playerId, reqs[0].character, reqs[0].direction);
      (if t.outcome.Accepted() then 1 else 0) + AcceptedCount(t.next, reqs[1..])
  }

  /** What one call does to the history and the turn. */
  lemma StepCounts(s: State, q: Request)
    requires WellFormed(s.grid)
    ensures var t := Step(s, q.playerId, q.character, q.direction);
            |t.next.history| == |s.history| + (if t.outcome.Accepted() then 1 else 0) &&
            t.next.turn == (if t.outcome.Accepted() then s.turn.Other() else s.turn)
  {
    RejectionChangesNothing(s, q.playerId, q.character, q.direction);
    if Step(s, q.playerId, q.character, q.direction).outcome.Accepted() {
      AcceptedEffect(s, q.playerId, q.character, q.direction);
    }
  }

  /** What one call does to the board: no id is doubled and no cell is
      filled. */
  lemma StepBoard(s: State, q: Request)
    requires WellFormed(s.grid) && AtMostOnce(s.grid)
    ensures var t := Step(s, q.playerId, q.character, q.direction);
            AtMostOnce(t.next.grid) && Occupied(t.next.grid) <= Occupied(s.grid)
  {
    OccupancyCount(s, q.playerId, q.character, q.direction);
    AtMostOncePreserved(s, q.playerId, q.character, q.direction);
  }

  /** The turn after `k` then `n` more accepted moves, for `k` at most one. */
  lemma TurnParity(before: Player, mid: Player, k: nat, n: nat, after: Player)
    requires k <= 1 && mid == (if k == 1 then before.Other() else before)
    requires after == (if n % 2 == 0 then mid else mid.Other())
    ensures after == (if (k + n) % 2 == 0 then before else before.Other())
  {
    assert before.Other().Other() == before;
  }

  /** Over any sequence of requests: the history has one line per accepted
      move and the turn alternates with each accepted move. */
  lemma {:induction false} RunCounts(s: State, reqs: seq<Request>)
    requires WellFormed(s.grid)
    ensures var r := Run(s, reqs);
            |r.history| == |s.history| + AcceptedCount(s, reqs) &&
            r.turn == (if AcceptedCount(s, reqs) % 2 == 0 then s.turn else s.turn.Other())
    decreases |reqs|
  {
    if reqs != [] {
      var t := Step(s, reqs[0].playerId, reqs[0].character, reqs[0].direction);
      StepCounts(s, reqs[0]);
      RunCounts(t.next, reqs[1..]);
      var k := if t.outcome.Accepted() then 1 else 0;
      var n := AcceptedCount(t.next, reqs[1..]);
      assert AcceptedCount(s, reqs) == k + n;
      TurnParity(s.turn, t.next.turn, k, n, Run(s, reqs).turn);
    }
  }

  /** Over any sequence of requests: no id is ever on two cells and the
      number of occupied cells never grows. */
  lemma {:induction false} RunBoard(s: State, reqs: seq<Request>)
    requires WellFormed(s.grid) && AtMostOnce(s.grid)
    ensures AtMostOnce(Run(s, reqs).grid) && Occupied(Run(s, reqs).grid) <= Occupied(s.grid)
    decreases |reqs|
  {
    if reqs != [] {
      StepBoard(s, reqs[0]);
      RunBoard(Step(s, reqs[0].playerId, reqs[0].character, reqs[0].direction).next, reqs[1..]);
    }
  }

  /** From the starting position: the history length is the number of
      accepted moves and A is to move exactly after an even number of them. */
  lemma GameInvariants(reqs: seq<Request>)
    ensures var r := Run(Initial(), reqs);
            |r.history| == AcceptedCount(Initial(), reqs) &&
            (r.turn == A <==> AcceptedCount(Initial(), reqs) % 2 == 0) &&
            AtMostOnce(r.grid) && Occupied(r.grid) <= 6
  {
    InitialOccupancy();
    RunCounts(Initial(), reqs);
    RunBoard(Initial(), reqs);
  }

  // ---------------------------------------------------------------- openings

  /** The board after A's opening pawn step from (4,0) to (3,0). */
  function AfterPawnForward(): (g: Grid)
    ensures WellFormed(g)
  {
    [[Some(PB1), Some(HB1), Some(HB2), None, None],
     [None, None, None, None, None],
     [None, None, None, None, None],
     [Some(PA1), None, None, None, None],
     [None, Some(HA1), Some(HA2), None, None]]
  }

  /** The board facts of the opening pawn step. */
  lemma PawnForwardBoard()
    ensures Relocate(InitialGrid(), PA1, Pos(4, 0), Pos(3, 0), "A") == AfterPawnForward()
    ensures Find(AfterPawnForward(), PA1) == Some(Pos(3, 0))
    ensures Find(AfterPawnForward(), PB1) == Some(Pos(0, 0))
    ensures !IsGameOver(AfterPawnForward())
  {
    var g := AfterPawnForward();
    var h := Relocate(InitialGrid(), PA1, Pos(4, 0), Pos(3, 0), "A");
    assert h == SetCell(SetCell(InitialGrid(), Pos(4, 0), None), Pos(3, 0), Some(PA1));
    assert h[0] == g[0] && h[1] == g[1] && h[2] == g[2] && h[3] == g[3] && h[4] == g[4];
    FirstAtByRows(g, PA1, Pos(3, 0));
    FirstAtByRows(g, PB1, Pos(0, 0));
  }

  /** The history line of the opening pawn step. */
  lemma PawnForwardLogLine()
    ensures LogEntry("A", "PA1", "F") == "A's PA1 moved F"
  {
  }

  /** How the opening calls' wire strings decode, and where their steps
      land for player A. */
  lemma OpeningInputs()
    ensures Owned(A, "PA1") == Some(PA1) && Owned(A, "HA1") == Some(HA1) && Owned(A, "HA2") == Some(HA2)
    ensures Owned(A, "PB1") == None
    ensures ParseDir("F") == Some(Forward) && ParseDir("B") == Some(Back)
    ensures ParseDir("FL") == Some(ForwardLeft) && ParseDir("X") == None
    ensures Destination(Pos(4, 0), Forward, A) == Pos(3, 0) && Destination(Pos(4, 0), Back, A) == Pos(5, 0)
    ensures Destination(Pos(4, 1), Forward, A) == Pos(3, 1) && Destination(Pos(4, 2), ForwardLeft, A) == Pos(3, 1)
  {
  }

  /** The opening pawn step passes every check. */
  lemma PawnForwardChecks(s: State)
    requires s == Initial()
    ensures Step(s, "A", "PA1", "F") == Apply(s, PA1, Pos(4, 0), Pos(3, 0), "A", "PA1", "F")
  {
    InitialPlacement();
    OpeningInputs();
    PieceRule(PA1, Forward, Pos(4, 0), A);
    ChecksPassed(s, "A", "PA1", "F", PA1, Pos(4, 0), Forward);
  }

  /** A's pawn steps forward from (4,0) to (3,0); B is to move and the
      history holds one line. */
  lemma OpeningPawnForward(s: State)
    requires s == Initial()
    ensures Step(s, "A", "PA1", "F") == Transition(State(AfterPawnForward(), B, ["A's PA1 moved F"]), Success)
  {
    PawnForwardChecks(s);
    PawnForwardBoard();
    PawnForwardLogLine();
  }

  /** B's pawn crashes the engine on its first move. */
  lemma PawnBFirstMoveCrashes(s: State)
    requires s == Step(Initial(), "A", "PA1", "F").next
    ensures Step(s, "B", "PB1", "F") == Transition(s, Crash)
  {
    OpeningPawnForward(Initial());
    PawnForwardBoard();
    OpeningInputs();
    PawnBCrashes(s, "F");
  }

  /** Opening calls that fail on turn or ownership. */
  lemma OpeningWrongSide(s: State)
    requires s == Initial()
    ensures Step(s, "B", "PB1", "F").outcome == Error(NotYourTurn)
    ensures Step(s, "A", "PB1", "F").outcome == Error(NotYourPiece)
  {
    OpeningInputs();
  }

  /** A hero cannot go forward: the rule demands two rows but the move is
      one. */
  lemma OpeningHeroForward(s: State)
    requires s == Initial()
    ensures Step(s, "A", "HA1", "F") == Transition(s, Error(InvalidCharacterMove))
  {
    InitialPlacement();
    OpeningInputs();
    PieceRule(HA1, Forward, Pos(4, 1), A);
    CharacterMoveRefused(s, "A", "HA1", "F", HA1, Pos(4, 1), Forward);
  }

  /** No piece moves diagonally. */
  lemma OpeningHeroDiagonal(s: State)
    requires s == Initial()
    ensures Step(s, "A", "HA2", "FL") == Transition(s, Error(InvalidCharacterMove))
  {
    InitialPlacement();
    OpeningInputs();
    PieceRule(HA2, ForwardLeft, Pos(4, 2), A);
    CharacterMoveRefused(s, "A", "HA2", "FL", HA2, Pos(4, 2), ForwardLeft);
  }

  /** An unknown direction code is refused. */
  lemma OpeningUnknownDirection(s: State)
    requires s == Initial()
    ensures Step(s, "A", "PA1", "X").outcome == Error(InvalidDirection)
  {
    InitialPlacement();
    OpeningInputs();
  }

  /** A step off the board is refused. */
  lemma OpeningOffBoard(s: State)
    requires s == Initial()
    ensures Step(s, "A", "PA1", "B").outcome == Error(OutOfBounds)
  {
    InitialPlacement();
    OpeningInputs();
  }

}
