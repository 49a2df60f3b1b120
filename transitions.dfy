/** The board as a state machine on values: the state a new board starts in,
    the state a move attempt leads to, the states reachable from a new board,
    and the properties every move attempt keeps. */
module Transitions {
  import opened Rules

  /** The fields of a board. */
  datatype BoardState = BoardState(
    status: Grid, next: int, winner: int, mate: map<int, int>, err: int, msg: string)

  /** A new board: an empty grid, player 1 to move, no winner, no mate
      counters, no error. */
  function Initial(): BoardState {
    BoardState(EmptyGrid(), 1, 0, map[], 0, "")
  }

  /** The mate counters after `p` moved: none for `p`, `m` for the other
      player. */
  function MateMap(p: int, m: int): map<int, int>
    requires IsPlayer(p)
  {
    map[p := 0, OtherPlayer(p) := m]
  }

  /** The sum of the mate counters, over the two players. */
  function MateTotal(m: map<int, int>): int {
    (if 1 in m then m[1] else 0) + (if 2 in m then m[2] else 0)
  }

  /** The counters are keyed by exactly the two players, and their sum is
      the other player's counter. */
  lemma MateMapEntries(p: int, m: int)
    requires IsPlayer(p)
    ensures MateMap(p, m).Keys == {1, 2}
    ensures MateMap(p, m)[p] == 0 && MateMap(p, m)[OtherPlayer(p)] == m
    ensures MateTotal(MateMap(p, m)) == m
  {
  }

  /** The state after `player` attempts cell (x, y): a failed check records
      its code and message and changes nothing else; an accepted move writes
      the cell, clears the error, hands the turn over and recomputes the
      winner and the mate counters. */
  function Step(s: BoardState, player: int, x: int, y: int): (t: BoardState)
    requires WellFormed(s.status) && IsPlayer(s.next)
    ensures WellFormed(t.status) && IsPlayer(t.next)
  {
    var code := ErrorCode(s.winner, s.next, s.status, player, x, y);
    if code != 0 then
      s.(err := code, msg := ErrorMessage(code))
    else
      var g := Place(s.status, x, y, player);
      BoardState(g, OtherPlayer(player), Outcome(g, player), MateMap(player, MateValue(g, player)), 0, "")
  }

  /** What holds of every state reachable from a new board: the grid is well
      formed, the marks alternate starting with player 1, the player about
      to move holds no line, the winner agrees with the grid, the message
      belongs to the error code, and the mate counters are those of the last
      accepted move. */
  predicate Reachable(s: BoardState) {
    WellFormed(s.status) && IsPlayer(s.next) &&
    Count(s.status, 1) == Count(s.status, 2) + (if s.next == 2 then 1 else 0) &&
    !LineOf(s.status, s.next) &&
    (s.winner == 0 ==> !LineOf(s.status, OtherPlayer(s.next)) && !Full(s.status)) &&
    (s.winner == -1 ==> !LineOf(s.status, OtherPlayer(s.next)) && Full(s.status)) &&
    (s.winner != 0 && s.winner != -1 ==> s.winner == OtherPlayer(s.next) && LineOf(s.status, s.winner)) &&
    (s.err == 0 || s.err == 2 || s.err == 3 || s.err == 4 || s.err == 5) && s.msg == ErrorMessage(s.err) &&
    (s.mate == map[] || s.mate == MateMap(OtherPlayer(s.next), MateValue(s.status, OtherPlayer(s.next))))
  }

  lemma InitialReachable()
    ensures Reachable(Initial())
  {
    CountZeros(EmptyGrid(), 1);
    CountZeros(EmptyGrid(), 2);
  }

  /** Every move attempt leads from a reachable state to a reachable one. */
  lemma StepReachable(s: BoardState, player: int, x: int, y: int)
    requires Reachable(s)
    ensures Reachable(Step(s, player, x, y))
  {
    if ErrorCode(s.winner, s.next, s.status, player, x, y) == 0 {
      var t := Step(s, player, x, y);
      PlaceCounts(s.status, x, y, player, 1);
      PlaceCounts(s.status, x, y, player, 2);
      LineOfAfterPlace(s.status, x, y, player, t.next);
      OtherPlayerInvolutive(player);
    }
  }

  /** A rejected attempt changes the error code and its message and nothing
      else. */
  lemma RejectedKeepsBoard(s: BoardState, player: int, x: int, y: int)
    requires WellFormed(s.status) && IsPlayer(s.next)
    requires ErrorCode(s.winner, s.next, s.status, player, x, y) != 0
    ensures var t := Step(s, player, x, y);
      t.status == s.status && t.next == s.next && t.winner == s.winner && t.mate == s.mate &&
      t.err == ErrorCode(s.winner, s.next, s.status, player, x, y) && t.msg == ErrorMessage(t.err)
  {
  }

  /** An accepted move fills exactly the free cell (x, y), with the mover's
      mark, and hands the turn to the other player. */
  lemma AcceptedWritesOneCell(s: BoardState, player: int, x: int, y: int)
    requires WellFormed(s.status) && IsPlayer(s.next)
    requires ErrorCode(s.winner, s.next, s.status, player, x, y) == 0
    ensures var t := Step(s, player, x, y);
      s.status[x][y] == 0 && t.status[x][y] == player && IsPlayer(player) &&
      (forall i, j :: 0 <= i < 3 && 0 <= j < 3 && (i != x || j != y) ==> t.status[i][j] == s.status[i][j]) &&
      t.next == OtherPlayer(s.next) && t.err == 0 && t.msg == ""
  {
  }

  /** After an accepted move the winner is the mover exactly when the mover
      holds a line, -1 exactly when the grid is full and the mover holds no
      line, and 0 otherwise. */
  lemma AcceptedWinner(s: BoardState, player: int, x: int, y: int)
    requires WellFormed(s.status) && IsPlayer(s.next)
    requires ErrorCode(s.winner, s.next, s.status, player, x, y) == 0
    ensures var t := Step(s, player, x, y);
      (t.winner == player <==> LineOf(t.status, player)) &&
      (t.winner == -1 <==> Full(t.status) && !LineOf(t.status, player)) &&
      (t.winner == 0 <==> !Full(t.status) && !LineOf(t.status, player))
  {
  }

  /** A taken cell keeps its mark through any attempt. */
  lemma StepKeepsMarks(s: BoardState, player: int, x: int, y: int, i: int, j: int)
    requires WellFormed(s.status) && IsPlayer(s.next)
    requires 0 <= i < 3 && 0 <= j < 3 && s.status[i][j] != 0
    ensures Step(s, player, x, y).status[i][j] == s.status[i][j]
  {
  }

  /** Only the player who moved can become the winner. */
  lemma OnlyMoverWins(s: BoardState, player: int, x: int, y: int)
    requires Reachable(s)
    ensures var t := Step(s, player, x, y);
      t.winner != s.winner ==> t.winner == player || t.winner == -1
  {
  }

  /** Once the game is over, every attempt is refused with code 2 and the
      board stays as it is. */
  lemma TerminalAbsorbs(s: BoardState, player: int, x: int, y: int)
    requires WellFormed(s.status) && IsPlayer(s.next) && s.winner != 0
    ensures var t := Step(s, player, x, y);
      t.err == 2 && t.msg == "Game already terminated" &&
      t.status == s.status && t.next == s.next && t.winner == s.winner && t.mate == s.mate
  {
  }

  /** In a reachable state the mover has no mate counter and the player to
      move has one in [-4, 4]. */
  lemma MateBounds(s: BoardState)
    requires Reachable(s) && s.mate != map[]
    ensures s.mate.Keys == {1, 2}
    ensures s.mate[OtherPlayer(s.next)] == 0
    ensures -4 <= s.mate[s.next] <= 4
  {
    var p := OtherPlayer(s.next);
    OtherPlayerInvolutive(s.next);
    MateMapEntries(p, MateValue(s.status, p));
  }

  // ---------------------------------------------------------------------
  // Sequences of attempts

  /** The state after attempting the first `n` of `moves` in order, each a
      (player, x, y) triple. */
  function Play(s: BoardState, moves: seq<(int, int, int)>, n: int): (t: BoardState)
    requires WellFormed(s.status) && IsPlayer(s.next) && 0 <= n <= |moves|
    ensures WellFormed(t.status) && IsPlayer(t.next)
    decreases n
  {
    if n == 0 then s
    else Step(Play(s, moves, n - 1), moves[n - 1].0, moves[n - 1].1, moves[n - 1].2)
  }

  /** Every state a new board can reach satisfies Reachable. */
  lemma {:induction false} PlayReachable(s: BoardState, moves: seq<(int, int, int)>, n: int)
    requires Reachable(s) && 0 <= n <= |moves|
    ensures Reachable(Play(s, moves, n))
    decreases n
  {
    if n > 0 {
      PlayReachable(s, moves, n - 1);
      StepReachable(Play(s, moves, n - 1), moves[n - 1].0, moves[n - 1].1, moves[n - 1].2);
    }
  }

  /** A mark, once written, stays. */
  lemma {:induction false} PlayKeepsMarks(s: BoardState, moves: seq<(int, int, int)>, n: int, i: int, j: int)
    requires WellFormed(s.status) && IsPlayer(s.next) && 0 <= n <= |moves|
    requires 0 <= i < 3 && 0 <= j < 3 && s.status[i][j] != 0
    ensures Play(s, moves, n).status[i][j] == s.status[i][j]
    decreases n
  {
    if n > 0 {
      PlayKeepsMarks(s, moves, n - 1, i, j);
      StepKeepsMarks(Play(s, moves, n - 1), moves[n - 1].0, moves[n - 1].1, moves[n - 1].2, i, j);
    }
  }

  /** A finished game stays finished whatever is attempted afterwards, and
      every later attempt is refused with code 2. */
  lemma {:induction false} PlayAfterEnd(s: BoardState, moves: seq<(int, int, int)>, n: int)
    requires WellFormed(s.status) && IsPlayer(s.next) && s.winner != 0 && 0 <= n <= |moves|
    ensures var t := Play(s, moves, n);
      t.status == s.status && t.next == s.next && t.winner == s.winner && t.mate == s.mate
    ensures n > 0 ==> Play(s, moves, n).err == 2
    decreases n
  {
    if n > 0 {
      PlayAfterEnd(s, moves, n - 1);
      TerminalAbsorbs(Play(s, moves, n - 1), moves[n - 1].0, moves[n - 1].1, moves[n - 1].2);
    }
  }
}
