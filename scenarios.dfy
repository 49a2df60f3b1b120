/** The command-line runner's loop, which plays a fixed list of moves on one
    board, and the games it ships with: a win of player 1, a win of player 2
    followed by a refused move, and a draw; then a move by the wrong player
    and the first move the controller test makes. */
module Scenarios {
  import opened Rules
  import opened Transitions
  import opened Game

  /** Attempts each (player, x, y) triple of `moves` in order on `b`,
      whatever the outcome of the earlier ones. */
  method Run(b: Board, moves: seq<(int, int, int)>)
    requires b.Valid()
    modifies b
    ensures b.Valid()
    ensures b.Snapshot() == Play(old(b.Snapshot()), moves, |moves|)
  {
    ghost var start := b.Snapshot();
    var i := 0;
    while i < |moves|
      invariant 0 <= i <= |moves|
      invariant b.Valid()
      invariant b.Snapshot() == Play(start, moves, i)
    {
      var m := moves[i];
      var _ := b.Move(m.0, m.1, m.2);
      i := i + 1;
    }
  }

  /** `s` holds grid `g`, expects `next`, has winner `winner` and no error. */
  predicate At(s: BoardState, g: Grid, next: int, winner: int) {
    s.status == g && s.next == next && s.winner == winner && s.err == 0
  }

  /** The first move of the controller test: player 1 takes the centre of
      a new board; the move is accepted and the record then holds exactly
      the grid and the next player. */
  method FirstMoveOk() returns (ok: bool, record: seq<Entry>)
    ensures ok && record == [Entry(BoardKey, Cells([[0, 0, 0], [0, 1, 0], [0, 0, 0]])), Entry(NextKey, Number(2))]
  {
    var b := new Board();
    CentreOpening(b.Snapshot());
    ok := b.Move(1, 1, 1);
    PlainRecord(b);
    record := b.Output();
  }

  /** Player 1 opening in the centre: accepted, and no line of two for
      either player, so the mate counters sum to zero. */
  lemma CentreOpening(s: BoardState)
    requires At(s, [[0, 0, 0], [0, 0, 0], [0, 0, 0]], 1, 0)
    ensures var t := Step(s, 1, 1, 1);
      At(t, [[0, 0, 0], [0, 1, 0], [0, 0, 0]], 2, 0) && MateTotal(t.mate) == 0
  {
  }

  /** On a new board player 2 may not open: the attempt is refused with
      code 3 and the board stays empty. */
  lemma WrongPlayerFirst()
    ensures var t := Step(Initial(), 2, 0, 0);
      t.err == 3 && t.msg == "Unexpected player" && t.status == EmptyGrid() && t.next == 1 && t.winner == 0
  {
  }

  // Win by 1: player 1 completes the bottom row with the seventh move.

  lemma WinByOneMove1(s: BoardState)
    requires At(s, [[0, 0, 0], [0, 0, 0], [0, 0, 0]], 1, 0)
    ensures At(Step(s, 1, 0, 0), [[1, 0, 0], [0, 0, 0], [0, 0, 0]], 2, 0)
  {
  }

  lemma WinByOneMove2(s: BoardState)
    requires At(s, [[1, 0, 0], [0, 0, 0], [0, 0, 0]], 2, 0)
    ensures At(Step(s, 2, 1, 1), [[1, 0, 0], [0, 2, 0], [0, 0, 0]], 1, 0)
  {
  }

  lemma WinByOneMove3(s: BoardState)
    requires At(s, [[1, 0, 0], [0, 2, 0], [0, 0, 0]], 1, 0)
    ensures At(Step(s, 1, 2, 2), [[1, 0, 0], [0, 2, 0], [0, 0, 1]], 2, 0)
  {
  }

  lemma WinByOneMove4(s: BoardState)
    requires At(s, [[1, 0, 0], [0, 2, 0], [0, 0, 1]], 2, 0)
    ensures At(Step(s, 2, 0, 2), [[1, 0, 2], [0, 2, 0], [0, 0, 1]], 1, 0)
  {
  }

  lemma WinByOneMove5(s: BoardState)
    requires At(s, [[1, 0, 2], [0, 2, 0], [0, 0, 1]], 1, 0)
    ensures At(Step(s, 1, 2, 0), [[1, 0, 2], [0, 2, 0], [1, 0, 1]], 2, 0)
  {
  }

  lemma WinByOneMove6(s: BoardState)
    requires At(s, [[1, 0, 2], [0, 2, 0], [1, 0, 1]], 2, 0)
    ensures At(Step(s, 2, 1, 0), [[1, 0, 2], [2, 2, 0], [1, 0, 1]], 1, 0)
  {
  }

  lemma WinByOneMove7(s: BoardState)
    requires At(s, [[1, 0, 2], [2, 2, 0], [1, 0, 1]], 1, 0)
    ensures At(Step(s, 1, 2, 1), [[1, 0, 2], [2, 2, 0], [1, 1, 1]], 2, 1)
  {
  }

  lemma WinByOneGame()
    ensures var s0 := Initial();
      var s1 := Step(s0, 1, 0, 0);
      var s2 := Step(s1, 2, 1, 1);
      var s3 := Step(s2, 1, 2, 2);
      var s4 := Step(s3, 2, 0, 2);
      var s5 := Step(s4, 1, 2, 0);
      var s6 := Step(s5, 2, 1, 0);
      var s7 := Step(s6, 1, 2, 1);
      At(s7, [[1, 0, 2], [2, 2, 0], [1, 1, 1]], 2, 1)
  {
    var s0 := Initial();
    WinByOneMove1(s0);
    var s1 := Step(s0, 1, 0, 0);
    WinByOneMove2(s1);
    var s2 := Step(s1, 2, 1, 1);
    WinByOneMove3(s2);
    var s3 := Step(s2, 1, 2, 2);
    WinByOneMove4(s3);
    var s4 := Step(s3, 2, 0, 2);
    WinByOneMove5(s4);
    var s5 := Step(s4, 1, 2, 0);
    WinByOneMove6(s5);
    var s6 := Step(s5, 2, 1, 0);
    WinByOneMove7(s6);
    var s7 := Step(s6, 1, 2, 1);
  }

  // Win by 2: player 2 completes the right column with the sixth move;
  // the seventh move is refused because the game is over.

  lemma WinByTwoMove1(s: BoardState)
    requires At(s, [[0, 0, 0], [0, 0, 0], [0, 0, 0]], 1, 0)
    ensures At(Step(s, 1, 0, 0), [[1, 0, 0], [0, 0, 0], [0, 0, 0]], 2, 0)
  {
  }

  lemma WinByTwoMove2(s: BoardState)
    requires At(s, [[1, 0, 0], [0, 0, 0], [0, 0, 0]], 2, 0)
    ensures At(Step(s, 2, 0, 2), [[1, 0, 2], [0, 0, 0], [0, 0, 0]], 1, 0)
  {
  }

  lemma WinByTwoMove3(s: BoardState)
    requires At(s, [[1, 0, 2], [0, 0, 0], [0, 0, 0]], 1, 0)
    ensures At(Step(s, 1, 1, 1), [[1, 0, 2], [0, 1, 0], [0, 0, 0]], 2, 0)
  {
  }

  lemma WinByTwoMove4(s: BoardState)
    requires At(s, [[1, 0, 2], [0, 1, 0], [0, 0, 0]], 2, 0)
    ensures At(Step(s, 2, 1, 2), [[1, 0, 2], [0, 1, 2], [0, 0, 0]], 1, 0)
  {
  }

  lemma WinByTwoMove5(s: BoardState)
    requires At(s, [[1, 0, 2], [0, 1, 2], [0, 0, 0]], 1, 0)
    ensures At(Step(s, 1, 2, 0), [[1, 0, 2], [0, 1, 2], [1, 0, 0]], 2, 0)
  {
  }

  lemma WinByTwoMove6(s: BoardState)
    requires At(s, [[1, 0, 2], [0, 1, 2], [1, 0, 0]], 2, 0)
    ensures At(Step(s, 2, 2, 2), [[1, 0, 2], [0, 1, 2], [1, 0, 2]], 1, 2)
  {
  }

  lemma WinByTwoGame()
    ensures var s0 := Initial();
      var s1 := Step(s0, 1, 0, 0);
      var s2 := Step(s1, 2, 0, 2);
      var s3 := Step(s2, 1, 1, 1);
      var s4 := Step(s3, 2, 1, 2);
      var s5 := Step(s4, 1, 2, 0);
      var s6 := Step(s5, 2, 2, 2);
      var s7 := Step(s6, 1, 0, 1);
      At(s6, [[1, 0, 2], [0, 1, 2], [1, 0, 2]], 1, 2) &&
      s7.err == 2 && s7.msg == "Game already terminated" && s7.status == s6.status && s7.winner == 2
  {
    var s0 := Initial();
    WinByTwoMove1(s0);
    var s1 := Step(s0, 1, 0, 0);
    WinByTwoMove2(s1);
    var s2 := Step(s1, 2, 0, 2);
    WinByTwoMove3(s2);
    var s3 := Step(s2, 1, 1, 1);
    WinByTwoMove4(s3);
    var s4 := Step(s3, 2, 1, 2);
    WinByTwoMove5(s4);
    var s5 := Step(s4, 1, 2, 0);
    WinByTwoMove6(s5);
    var s6 := Step(s5, 2, 2, 2);
    TerminalAbsorbs(s6, 1, 0, 1);
  }

  // Draw: the ninth move fills the grid and nobody holds a line.

  lemma DrawMove1(s: BoardState)
    requires At(s, [[0, 0, 0], [0, 0, 0], [0, 0, 0]], 1, 0)
    ensures At(Step(s, 1, 0, 0), [[1, 0, 0], [0, 0, 0], [0, 0, 0]], 2, 0)
  {
  }

  lemma DrawMove2(s: BoardState)
    requires At(s, [[1, 0, 0], [0, 0, 0], [0, 0, 0]], 2, 0)
    ensures At(Step(s, 2, 0, 2), [[1, 0, 2], [0, 0, 0], [0, 0, 0]], 1, 0)
  {
  }

  lemma DrawMove3(s: BoardState)
    requires At(s, [[1, 0, 2], [0, 0, 0], [0, 0, 0]], 1, 0)
    ensures At(Step(s, 1, 2, 0), [[1, 0, 2], [0, 0, 0], [1, 0, 0]], 2, 0)
  {
  }

  lemma DrawMove4(s: BoardState)
    requires At(s, [[1, 0, 2], [0, 0, 0], [1, 0, 0]], 2, 0)
    ensures At(Step(s, 2, 1, 0), [[1, 0, 2], [2, 0, 0], [1, 0, 0]], 1, 0)
  {
  }

  lemma DrawMove5(s: BoardState)
    requires At(s, [[1, 0, 2], [2, 0, 0], [1, 0, 0]], 1, 0)
    ensures At(Step(s, 1, 2, 2), [[1, 0, 2], [2, 0, 0], [1, 0, 1]], 2, 0)
  {
  }

  lemma DrawMove6(s: BoardState)
    requires At(s, [[1, 0, 2], [2, 0, 0], [1, 0, 1]], 2, 0)
    ensures At(Step(s, 2, 1, 1), [[1, 0, 2], [2, 2, 0], [1, 0, 1]], 1, 0)
  {
  }

  lemma DrawMove7(s: BoardState)
    requires At(s, [[1, 0, 2], [2, 2, 0], [1, 0, 1]], 1, 0)
    ensures At(Step(s, 1, 1, 2), [[1, 0, 2], [2, 2, 1], [1, 0, 1]], 2, 0)
  {
  }

  lemma DrawMove8(s: BoardState)
    requires At(s, [[1, 0, 2], [2, 2, 1], [1, 0, 1]], 2, 0)
    ensures At(Step(s, 2, 2, 1), [[1, 0, 2], [2, 2, 1], [1, 2, 1]], 1, 0)
  {
  }

  lemma DrawMove9(s: BoardState)
    requires At(s, [[1, 0, 2], [2, 2, 1], [1, 2, 1]], 1, 0)
    ensures At(Step(s, 1, 0, 1), [[1, 1, 2], [2, 2, 1], [1, 2, 1]], 2, -1)
  {
  }

  lemma DrawGame()
    ensures var s0 := Initial();
      var s1 := Step(s0, 1, 0, 0);
      var s2 := Step(s1, 2, 0, 2);
      var s3 := Step(s2, 1, 2, 0);
      var s4 := Step(s3, 2, 1, 0);
      var s5 := Step(s4, 1, 2, 2);
      var s6 := Step(s5, 2, 1, 1);
      var s7 := Step(s6, 1, 1, 2);
      var s8 := Step(s7, 2, 2, 1);
      var s9 := Step(s8, 1, 0, 1);
      At(s9, [[1, 1, 2], [2, 2, 1], [1, 2, 1]], 2, -1)
  {
    var s0 := Initial();
    DrawMove1(s0);
    var s1 := Step(s0, 1, 0, 0);
    DrawMove2(s1);
    var s2 := Step(s1, 2, 0, 2);
    DrawMove3(s2);
    var s3 := Step(s2, 1, 2, 0);
    DrawMove4(s3);
    var s4 := Step(s3, 2, 1, 0);
    DrawMove5(s4);
    var s5 := Step(s4, 1, 2, 2);
    DrawMove6(s5);
    var s6 := Step(s5, 2, 1, 1);
    DrawMove7(s6);
    var s7 := Step(s6, 1, 1, 2);
    DrawMove8(s7);
    var s8 := Step(s7, 2, 2, 1);
    DrawMove9(s8);
    var s9 := Step(s8, 1, 0, 1);
  }

}
