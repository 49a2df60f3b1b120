/** The board object: a 3x3 grid updated in place by move attempts, the
    player expected next, the winner, the mate counters and the error of the
    last attempt, and the key/value record it is serialised from. */
module Game {
  import opened Rules
  import opened Transitions

  /** A value in the serialised record. */
  datatype Value = Cells(cells: Grid) | Number(n: int) | Text(s: string) | Counters(m: map<int, int>)

  /** The keys the record may hold, in the order the record lists them; they
      are written as "board", "next", "err", "msg", "winner" and "mate". */
  datatype Key = BoardKey | NextKey | ErrKey | MsgKey | WinnerKey | MateKey

  datatype Entry = Entry(key: Key, value: Value)

  function Keys(r: seq<Entry>): seq<Key> {
    seq(|r|, i requires 0 <= i < |r| => r[i].key)
  }

  /** The inner loop of the rescan: walks row `x` and column `x` together,
      noting whether the row is full and the signed counts of both lines
      from the mover's and from the next player's side. */
  method ScanRow(g: Grid, player: int, next: int, x: int)
    returns (rowFilled: bool, cntRowPlayer: int, cntColPlayer: int, cntRowNext: int, cntColNext: int)
    requires WellFormed(g) && IsPlayer(player) && IsPlayer(next) && 0 <= x < 3
    ensures rowFilled <==> RowFilled(g, x, 3)
    ensures cntRowPlayer == LineSum(g, player, Row(x)) && cntColPlayer == LineSum(g, player, Col(x))
    ensures cntRowNext == LineSum(g, next, Row(x)) && cntColNext == LineSum(g, next, Col(x))
  {
    cntRowPlayer, cntRowNext := 0, 0;
    cntColPlayer, cntColNext := 0, 0;
    rowFilled := true;

    var y := 0;
    while y < 3
      invariant 0 <= y <= 3
      invariant rowFilled <==> RowFilled(g, x, y)
      invariant cntRowPlayer == RowSum(g, player, x, y)
      invariant cntColPlayer == ColSum(g, player, x, y)
      invariant cntRowNext == RowSum(g, next, x, y)
      invariant cntColNext == ColSum(g, next, x, y)
    {
      if g[x][y] == 0 {
        rowFilled := false;
      }
      cntRowPlayer := cntRowPlayer + CheckSquare(g, player, x, y);
      cntColPlayer := cntColPlayer + CheckSquare(g, player, y, x);
      cntRowNext := cntRowNext + CheckSquare(g, next, x, y);
      cntColNext := cntColNext + CheckSquare(g, next, y, x);
      y := y + 1;
    }
  }

  /** Scores a pair of lines scanned together from their signed counts: the
      mover's counts `sa`, `sb` and the next player's `ta`, `tb`. A count of
      3 for the mover is a win; otherwise a count of 2 for the mover raises
      the mate counter, and independently a count of 2 for the next player
      lowers it. */
  method ScorePair(sa: int, sb: int, ta: int, tb: int, won: bool, mate: int) returns (won': bool, mate': int)
    ensures won' <==> won || sa == 3 || sb == 3
    ensures mate' == mate + MateStep(sa, sb, ta, tb)
  {
    won', mate' := won, mate;
    if sa == 3 || sb == 3 {
      won' := true;
    } else if sa == 2 || sb == 2 {
      mate' := mate' + 1;
    }

    // The next player can already complete one of the two lines.
    if ta == 2 || tb == 2 {
      mate' := mate' - 1;
    }
  }

  /** The outer loop of the rescan: for each index `x`, scores row `x`
      together with column `x`, notes whether every row so far is full, and
      accumulates the signed counts of both diagonals. */
  method ScanLines(g: Grid, player: int, next: int)
    returns (won: bool, mateNext: int, possibleDraw: bool,
             cntDiagLrPlayer: int, cntDiagRlPlayer: int, cntDiagLrNext: int, cntDiagRlNext: int)
    requires WellFormed(g) && IsPlayer(player) && next == OtherPlayer(player)
    ensures won == WinScan(g, player, 3) && mateNext == MateScan(g, player, 3)
    ensures possibleDraw == RowsFilled(g, 3)
    ensures cntDiagLrPlayer == LineSum(g, player, DiagLr) && cntDiagRlPlayer == LineSum(g, player, DiagRl)
    ensures cntDiagLrNext == LineSum(g, next, DiagLr) && cntDiagRlNext == LineSum(g, next, DiagRl)
  {
    won, mateNext, possibleDraw := false, 0, true;
    cntDiagLrPlayer, cntDiagLrNext := 0, 0;
    cntDiagRlPlayer, cntDiagRlNext := 0, 0;
    var x := 0;
    while x < 3
      invariant 0 <= x <= 3
      invariant possibleDraw <==> RowsFilled(g, x)
      invariant won == WinScan(g, player, x)
      invariant mateNext == MateScan(g, player, x)
      invariant cntDiagLrPlayer == DiagLrSum(g, player, x)
      invariant cntDiagLrNext == DiagLrSum(g, next, x)
      invariant cntDiagRlPlayer == DiagRlSum(g, player, x)
      invariant cntDiagRlNext == DiagRlSum(g, next, x)
    {
      var rowFilled, cntRowPlayer, cntColPlayer, cntRowNext, cntColNext := ScanRow(g, player, next, x);
      possibleDraw := possibleDraw && rowFilled;

      won, mateNext := ScorePair(cntRowPlayer, cntColPlayer, cntRowNext, cntColNext, won, mateNext);

      cntDiagLrPlayer := cntDiagLrPlayer + CheckSquare(g, player, x, x);
      cntDiagRlPlayer := cntDiagRlPlayer + CheckSquare(g, player, x, 2 - x);
      cntDiagLrNext := cntDiagLrNext + CheckSquare(g, next, x, x);
      cntDiagRlNext := cntDiagRlNext + CheckSquare(g, next, x, 2 - x);
      x := x + 1;
    }
  }

  lemma KeysAppend(a: seq<Entry>, b: seq<Entry>)
    ensures Keys(a + b) == Keys(a) + Keys(b)
  {
  }

  /** The record a board in state `s` is serialised from: the grid and the
      next player always, then the error code and its message after a
      rejected move, the winner once the game is over, and the mate
      counters when they sum to more than zero, each key once and in that
      order, each holding its field. */
  function Render(s: BoardState): (r: seq<Entry>)
    ensures |r| >= 2 && r[0] == Entry(BoardKey, Cells(s.status)) && r[1] == Entry(NextKey, Number(s.next))
    ensures Keys(r) == [BoardKey, NextKey] + (if s.err > 0 then [ErrKey, MsgKey] else [])
      + (if s.winner != 0 then [WinnerKey] else []) + (if MateTotal(s.mate) > 0 then [MateKey] else [])
    ensures forall e :: e in r && e.key == ErrKey ==> e.value == Number(s.err)
    ensures forall e :: e in r && e.key == MsgKey ==> e.value == Text(s.msg)
    ensures forall e :: e in r && e.key == WinnerKey ==> e.value == Number(s.winner)
    ensures forall e :: e in r && e.key == MateKey ==> e.value == Counters(s.mate)
  {
    var base := [Entry(BoardKey, Cells(s.status)), Entry(NextKey, Number(s.next))];
    var errPart := if s.err > 0 then [Entry(ErrKey, Number(s.err)), Entry(MsgKey, Text(s.msg))] else [];
    var winnerPart := if s.winner != 0 then [Entry(WinnerKey, Number(s.winner))] else [];
    var matePart := if MateTotal(s.mate) > 0 then [Entry(MateKey, Counters(s.mate))] else [];
    KeysAppend(base, errPart);
    KeysAppend(base + errPart, winnerPart);
    KeysAppend(base + errPart + winnerPart, matePart);
    var r := base + errPart + winnerPart + matePart;
    assert forall e :: e in r <==> e in base || e in errPart || e in winnerPart || e in matePart;
    r
  }

  class Board {
    var status: Grid
    var next: int
    var winner: int
    var mate: map<int, int>
    var err: int
    var msg: string

    /** The fields as a value. */
    function Snapshot(): BoardState
      reads this
    {
      BoardState(status, next, winner, mate, err, msg)
    }

    ghost predicate Valid()
      reads this
    {
      Reachable(Snapshot())
    }

    constructor ()
      ensures Snapshot() == Initial() && Valid()
    {
      status := [];
      next := 1;
      winner := 0;
      mate := map[];
      err := 0;
      msg := "";
      new;
      InitStatus();
      InitialReachable();
    }

    /** Fills the grid with empty cells, row by row. */
    method InitStatus()
      modifies this
      ensures status == EmptyGrid()
      ensures next == old(next) && winner == old(winner) && mate == old(mate)
      ensures err == old(err) && msg == old(msg)
    {
      status := [];
      var i := 0;
      while i <= 2
        invariant 0 <= i <= 3
        invariant status == EmptyGrid()[..i]
        invariant next == old(next) && winner == old(winner) && mate == old(mate)
        invariant err == old(err) && msg == old(msg)
      {
        var row := [];
        var j := 0;
        while j <= 2
          invariant 0 <= j <= 3
          invariant row == EmptyGrid()[i][..j]
        {
          row := row + [0];
          j := j + 1;
        }
        assert row == EmptyGrid()[i];
        assert EmptyGrid()[..i + 1] == EmptyGrid()[..i] + [EmptyGrid()[i]];
        status := status + [row];
        i := i + 1;
      }
    }

    /** Attempts a move of `player` onto cell (x, y); the result tells
        whether it was accepted. */
    method Move(player: int, x: int, y: int) returns (ok: bool)
      requires Valid()
      modifies this
      ensures Snapshot() == Step(old(Snapshot()), player, x, y)
      ensures ok <==> err == 0
      ensures Valid()
    {
      ghost var before := Snapshot();
      StepReachable(before, player, x, y);
      var valid := IsValid(player, x, y);
      if !valid {
        return false;
      }
      SetMove(player, x, y);
      CalcStatus(player);
      return true;
    }

    /** Clears the error, then records the first check the move fails. */
    method IsValid(player: int, x: int, y: int) returns (valid: bool)
      requires WellFormed(status)
      modifies this
      ensures status == old(status) && next == old(next) && winner == old(winner) && mate == old(mate)
      ensures err == ErrorCode(winner, next, status, player, x, y) && msg == ErrorMessage(err)
      ensures valid <==> err == 0
    {
      err := 0;
      msg := "";

      if winner != 0 {
        err := 2;
        msg := "Game already terminated";
        return false;
      }

      if player != next {
        err := 3;
        msg := "Unexpected player";
        return false;
      }

      if x < 0 || x > 2 || y < 0 || y > 2 {
        err := 4;
        msg := "Illegal move";
        return false;
      }

      if status[x][y] != 0 {
        err := 5;
        msg := "Position already taken";
        return false;
      }

      return true;
    }

    /** Writes `player` into cell (x, y). */
    method SetMove(player: int, x: int, y: int)
      requires WellFormed(status) && InRange(x, y) && IsPlayer(player)
      modifies this
      ensures status == Place(old(status), x, y, player)
      ensures next == old(next) && winner == old(winner) && mate == old(mate)
      ensures err == old(err) && msg == old(msg)
    {
      PlaceIsUpdate(status, x, y, player);
      status := status[x := status[x][y := player]];
    }

    /** Rescans the whole grid after `player` moved: flips the turn, detects
        a win of the mover or a draw with signed per-line counts, and
        recomputes the next player's mate counter. */
    method CalcStatus(player: int)
      requires WellFormed(status) && IsPlayer(player)
      modifies this
      ensures status == old(status) && err == old(err) && msg == old(msg)
      ensures next == OtherPlayer(player)
      ensures winner == Outcome(status, player)
      ensures mate == MateMap(player, MateValue(status, player))
    {
      next := OtherPlayer(player);

      // The source writes the winner and the next player's mate counter as
      // the scan goes; nothing reads either before the scan ends, so the
      // scan returns them and they are stored once, at the end.
      var won, mateNext, possibleDraw, cntDiagLrPlayer, cntDiagRlPlayer, cntDiagLrNext, cntDiagRlNext :=
        ScanLines(status, player, next);
      won, mateNext := ScorePair(cntDiagLrPlayer, cntDiagRlPlayer, cntDiagLrNext, cntDiagRlNext, won, mateNext);

      WinScanMeaning(status, player);
      MateScanMeaning(status, player);
      RowsFilledFull(status);
      winner := if won then player else if possibleDraw then -1 else 0;
      mate := MateMap(player, mateNext);
    }

    /** The record the board is serialised from. */
    function Output(): (r: seq<Entry>)
      reads this
      ensures |r| >= 2 && r[0] == Entry(BoardKey, Cells(status)) && r[1] == Entry(NextKey, Number(next))
      ensures Keys(r) == [BoardKey, NextKey] + (if err > 0 then [ErrKey, MsgKey] else [])
        + (if winner != 0 then [WinnerKey] else []) + (if MateTotal(mate) > 0 then [MateKey] else [])
      ensures forall e :: e in r && e.key == ErrKey ==> e.value == Number(err)
      ensures forall e :: e in r && e.key == MsgKey ==> e.value == Text(msg)
      ensures forall e :: e in r && e.key == WinnerKey ==> e.value == Number(winner)
      ensures forall e :: e in r && e.key == MateKey ==> e.value == Counters(mate)
    {
      Render(Snapshot())
    }
  }

  /** With no error, no winner and no positive mate counter the record holds
      the grid and the next player only. */
  lemma PlainRecord(b: Board)
    requires b.err == 0 && b.winner == 0 && MateTotal(b.mate) <= 0
    ensures b.Output() == [Entry(BoardKey, Cells(b.status)), Entry(NextKey, Number(b.next))]
  {
  }
}
