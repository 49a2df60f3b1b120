/** The pure side of the tic-tac-toe board: the grid, its eight lines, the
    signed per-line counts the board rescans after every move, the mate
    heuristic, and the validation order of a move attempt. */
module Rules {

  /** A board: `g[x][y]` is the cell in row `x`, column `y`. */
  type Grid = seq<seq<int>>

  /** 3 rows of 3 cells, each 0 (empty), 1 or 2. */
  predicate WellFormed(g: Grid) {
    |g| == 3 &&
    forall i :: 0 <= i < 3 ==> |g[i]| == 3 && forall j :: 0 <= j < 3 ==> 0 <= g[i][j] <= 2
  }

  predicate IsPlayer(p: int) {
    p == 1 || p == 2
  }

  predicate InRange(x: int, y: int) {
    0 <= x <= 2 && 0 <= y <= 2
  }

  /** The board a new game starts from. */
  function EmptyGrid(): Grid {
    [[0, 0, 0], [0, 0, 0], [0, 0, 0]]
  }

  /** The opponent of a player. */
  function OtherPlayer(p: int): (q: int)
    requires IsPlayer(p)
    ensures IsPlayer(q) && q != p
  {
    if p == 1 then 2 else 1
  }

  lemma OtherPlayerInvolutive(p: int)
    requires IsPlayer(p)
    ensures OtherPlayer(OtherPlayer(p)) == p
  {
  }

  /** The ownership of cell (x, y) seen from player `p`: 1 if `p` owns it,
      -1 if the opponent does, 0 if it is free. */
  function CheckSquare(g: Grid, p: int, x: int, y: int): (r: int)
    requires WellFormed(g) && IsPlayer(p) && InRange(x, y)
    ensures r == 1 <==> g[x][y] == p
    ensures r == -1 <==> g[x][y] == OtherPlayer(p)
    ensures r == 0 <==> g[x][y] == 0
  {
    var other := OtherPlayer(p);
    if g[x][y] == p then 1 else if g[x][y] == other then -1 else 0
  }

  /** The result of writing `p` into cell (x, y). */
  function Place(g: Grid, x: int, y: int, p: int): (r: Grid)
    requires WellFormed(g) && InRange(x, y) && 0 <= p <= 2
    ensures WellFormed(r)
    ensures forall i, j :: 0 <= i < 3 && 0 <= j < 3 ==>
      r[i][j] == if i == x && j == y then p else g[i][j]
  {
    [PlaceRow(g, 0, x, y, p), PlaceRow(g, 1, x, y, p), PlaceRow(g, 2, x, y, p)]
  }

  /** Row `i` of Place(g, x, y, p). */
  function PlaceRow(g: Grid, i: int, x: int, y: int, p: int): seq<int>
    requires WellFormed(g) && 0 <= i < 3
  {
    [if i == x && y == 0 then p else g[i][0],
     if i == x && y == 1 then p else g[i][1],
     if i == x && y == 2 then p else g[i][2]]
  }

  /** Place is the in-place update of row `x` at column `y`. */
  lemma PlaceIsUpdate(g: Grid, x: int, y: int, p: int)
    requires WellFormed(g) && InRange(x, y) && 0 <= p <= 2
    ensures Place(g, x, y, p) == g[x := g[x][y := p]]
  {
    var r, u := Place(g, x, y, p), g[x := g[x][y := p]];
    forall i | 0 <= i < 3
      ensures r[i] == u[i]
    {
      assert r[i][0] == u[i][0] && r[i][1] == u[i][1] && r[i][2] == u[i][2];
    }
  }

  // ---------------------------------------------------------------------
  // Lines

  /** The eight winning lines: three rows, three columns, the diagonal from
      top-left to bottom-right and the one from top-right to bottom-left. */
  datatype Line = Row(i: int) | Col(j: int) | DiagLr | DiagRl

  predicate ValidLine(l: Line) {
    match l
    case Row(i) => 0 <= i < 3
    case Col(j) => 0 <= j < 3
    case _ => true
  }

  /** The coordinates of the `k`-th cell of line `l`. */
  function Square(l: Line, k: int): (c: (int, int))
    requires ValidLine(l) && 0 <= k < 3
    ensures InRange(c.0, c.1)
  {
    match l
    case Row(i) => (i, k)
    case Col(j) => (k, j)
    case DiagLr => (k, k)
    case DiagRl => (k, 2 - k)
  }

  /** The three cells of line `l`, in order. */
  function LineCells(g: Grid, l: Line): (int, int, int)
    requires WellFormed(g) && ValidLine(l)
  {
    match l
    case Row(i) => (g[i][0], g[i][1], g[i][2])
    case Col(j) => (g[0][j], g[1][j], g[2][j])
    case DiagLr => (g[0][0], g[1][1], g[2][2])
    case DiagRl => (g[0][2], g[1][1], g[2][0])
  }

  /** All three cells of `l` hold `p`. */
  predicate Complete(g: Grid, p: int, l: Line)
    requires WellFormed(g) && ValidLine(l)
  {
    var c := LineCells(g, l);
    c.0 == p && c.1 == p && c.2 == p
  }

  /** Two cells of `l` hold `p` and the third is empty. */
  predicate Threat(g: Grid, p: int, l: Line)
    requires WellFormed(g) && ValidLine(l)
  {
    var c := LineCells(g, l);
    (c.0 == p && c.1 == p && c.2 == 0) || (c.0 == p && c.1 == 0 && c.2 == p) || (c.0 == 0 && c.1 == p && c.2 == p)
  }

  /** Some row, column or diagonal holds three marks of `p`. */
  predicate LineOf(g: Grid, p: int)
    requires WellFormed(g)
  {
    Complete(g, p, Row(0)) || Complete(g, p, Row(1)) || Complete(g, p, Row(2)) ||
    Complete(g, p, Col(0)) || Complete(g, p, Col(1)) || Complete(g, p, Col(2)) ||
    Complete(g, p, DiagLr) || Complete(g, p, DiagRl)
  }

  lemma LineOfSomeLine(g: Grid, p: int)
    requires WellFormed(g)
    ensures LineOf(g, p) <==> exists l :: ValidLine(l) && Complete(g, p, l)
  {
    if l :| ValidLine(l) && Complete(g, p, l) {
      match l
      case Row(i) => assert i == 0 || i == 1 || i == 2;
      case Col(j) => assert j == 0 || j == 1 || j == 2;
      case _ =>
    }
  }

  /** Every cell is taken. */
  predicate Full(g: Grid)
    requires WellFormed(g)
  {
    forall i, j :: 0 <= i < 3 && 0 <= j < 3 ==> g[i][j] != 0
  }

  /** The winner field after `p` has moved onto `g`: `p` if it holds a line,
      otherwise -1 (draw) on a full grid, otherwise 0 (in progress). */
  function Outcome(g: Grid, p: int): int
    requires WellFormed(g)
  {
    if LineOf(g, p) then p else if Full(g) then -1 else 0
  }

  /** A cell written by `p` cannot complete a line of another player. */
  lemma LineOfAfterPlace(g: Grid, x: int, y: int, p: int, q: int)
    requires WellFormed(g) && InRange(x, y) && IsPlayer(p) && q != p
    ensures LineOf(Place(g, x, y, p), q) ==> LineOf(g, q)
  {
    var r := Place(g, x, y, p);
    forall l | ValidLine(l) && Complete(r, q, l)
      ensures Complete(g, q, l)
    {
      assert LineCells(r, l) == LineCells(g, l);
    }
  }

  // ---------------------------------------------------------------------
  // Signed counts

  /** CheckSquare from the opponent's side is the negation. */
  lemma CheckSquareOpposite(g: Grid, p: int, x: int, y: int)
    requires WellFormed(g) && IsPlayer(p) && InRange(x, y)
    ensures CheckSquare(g, OtherPlayer(p), x, y) == -CheckSquare(g, p, x, y)
  {
    OtherPlayerInvolutive(p);
  }

  /** The sum of CheckSquare over the first `n` cells of row `x`. */
  function RowSum(g: Grid, p: int, x: int, n: int): (s: int)
    requires WellFormed(g) && IsPlayer(p) && 0 <= x < 3 && 0 <= n <= 3
    ensures -n <= s <= n
  {
    if n == 0 then 0 else RowSum(g, p, x, n - 1) + CheckSquare(g, p, x, n - 1)
  }

  /** The sum of CheckSquare over the first `n` cells of column `y`. */
  function ColSum(g: Grid, p: int, y: int, n: int): (s: int)
    requires WellFormed(g) && IsPlayer(p) && 0 <= y < 3 && 0 <= n <= 3
    ensures -n <= s <= n
  {
    if n == 0 then 0 else ColSum(g, p, y, n - 1) + CheckSquare(g, p, n - 1, y)
  }

  /** The sum of CheckSquare over the first `n` cells of the diagonal
      (0, 0), (1, 1), (2, 2). */
  function DiagLrSum(g: Grid, p: int, n: int): (s: int)
    requires WellFormed(g) && IsPlayer(p) && 0 <= n <= 3
    ensures -n <= s <= n
  {
    if n == 0 then 0 else DiagLrSum(g, p, n - 1) + CheckSquare(g, p, n - 1, n - 1)
  }

  /** The sum of CheckSquare over the first `n` cells of the diagonal
      (0, 2), (1, 1), (2, 0). */
  function DiagRlSum(g: Grid, p: int, n: int): (s: int)
    requires WellFormed(g) && IsPlayer(p) && 0 <= n <= 3
    ensures -n <= s <= n
  {
    if n == 0 then 0 else DiagRlSum(g, p, n - 1) + CheckSquare(g, p, n - 1, 3 - n)
  }

  /** The signed count of a whole line from `p`'s side. */
  function LineSum(g: Grid, p: int, l: Line): int
    requires WellFormed(g) && IsPlayer(p) && ValidLine(l)
  {
    match l
    case Row(i) => RowSum(g, p, i, 3)
    case Col(j) => ColSum(g, p, j, 3)
    case DiagLr => DiagLrSum(g, p, 3)
    case DiagRl => DiagRlSum(g, p, 3)
  }

  /** A line's signed count is the sum of CheckSquare over its three cells. */
  lemma LineSumCells(g: Grid, p: int, l: Line)
    requires WellFormed(g) && IsPlayer(p) && ValidLine(l)
    ensures LineSum(g, p, l) ==
      CheckSquare(g, p, Square(l, 0).0, Square(l, 0).1) +
      CheckSquare(g, p, Square(l, 1).0, Square(l, 1).1) +
      CheckSquare(g, p, Square(l, 2).0, Square(l, 2).1)
  {
    match l
    case Row(i) => assert RowSum(g, p, i, 2) == RowSum(g, p, i, 1) + CheckSquare(g, p, i, 1);
    case Col(j) => assert ColSum(g, p, j, 2) == ColSum(g, p, j, 1) + CheckSquare(g, p, 1, j);
    case DiagLr => assert DiagLrSum(g, p, 2) == DiagLrSum(g, p, 1) + CheckSquare(g, p, 1, 1);
    case DiagRl => assert DiagRlSum(g, p, 2) == DiagRlSum(g, p, 1) + CheckSquare(g, p, 1, 1);
  }

  /** A full signed count of 3 is a completed line, one of 2 is a threat. */
  lemma SumMeaning(g: Grid, p: int, l: Line)
    requires WellFormed(g) && IsPlayer(p) && ValidLine(l)
    ensures LineSum(g, p, l) == 3 <==> Complete(g, p, l)
    ensures LineSum(g, p, l) == 2 <==> Threat(g, p, l)
  {
    LineSumCells(g, p, l);
  }

  /** The counts of the two players on a line are opposite. */
  lemma SignedCountsOpposite(g: Grid, p: int, l: Line)
    requires WellFormed(g) && IsPlayer(p) && ValidLine(l)
    ensures LineSum(g, OtherPlayer(p), l) == -LineSum(g, p, l)
  {
    LineSumCells(g, p, l);
    LineSumCells(g, OtherPlayer(p), l);
    CheckSquareOpposite(g, p, Square(l, 0).0, Square(l, 0).1);
    CheckSquareOpposite(g, p, Square(l, 1).0, Square(l, 1).1);
    CheckSquareOpposite(g, p, Square(l, 2).0, Square(l, 2).1);
  }

  // ---------------------------------------------------------------------
  // Filled cells

  /** The first `n` cells of row `x` are taken. */
  predicate RowFilled(g: Grid, x: int, n: int)
    requires WellFormed(g) && 0 <= x < 3 && 0 <= n <= 3
  {
    n == 0 || (RowFilled(g, x, n - 1) && g[x][n - 1] != 0)
  }

  /** The first `n` rows are taken. */
  predicate RowsFilled(g: Grid, n: int)
    requires WellFormed(g) && 0 <= n <= 3
  {
    n == 0 || (RowsFilled(g, n - 1) && RowFilled(g, n - 1, 3))
  }

  /** Row by row, the scan for a free cell decides Full. */
  lemma RowsFilledFull(g: Grid)
    requires WellFormed(g)
    ensures RowsFilled(g, 3) <==> Full(g)
  {
    assert RowsFilled(g, 1) <==> RowFilled(g, 0, 3);
    assert RowsFilled(g, 2) <==> RowsFilled(g, 1) && RowFilled(g, 1, 3);
    forall i | 0 <= i < 3
      ensures RowFilled(g, i, 3) <==> g[i][0] != 0 && g[i][1] != 0 && g[i][2] != 0
    {
      assert RowFilled(g, i, 1) <==> g[i][0] != 0;
      assert RowFilled(g, i, 2) <==> RowFilled(g, i, 1) && g[i][1] != 0;
    }
  }

  // ---------------------------------------------------------------------
  // Mate heuristic

  /** What one pair of lines scanned together contributes to the next
      player's mate counter: +1 if the mover threatens one of them without
      having completed either, -1 if the next player threatens one. */
  function MateTerm(g: Grid, p: int, a: Line, b: Line): (t: int)
    requires WellFormed(g) && IsPlayer(p) && ValidLine(a) && ValidLine(b)
    ensures -1 <= t <= 1
    ensures (Complete(g, p, a) || Complete(g, p, b)) ==> t <= 0
  {
    var q := OtherPlayer(p);
    (if Complete(g, p, a) || Complete(g, p, b) then 0
     else if Threat(g, p, a) || Threat(g, p, b) then 1
     else 0)
    - (if Threat(g, q, a) || Threat(g, q, b) then 1 else 0)
  }

  /** The next player's mate counter after `p` moved onto `g`: the rows and
      columns with the same index are paired, and so are the two diagonals. */
  function MateValue(g: Grid, p: int): (m: int)
    requires WellFormed(g) && IsPlayer(p)
    ensures -4 <= m <= 4
  {
    MateTerm(g, p, Row(0), Col(0)) + MateTerm(g, p, Row(1), Col(1)) +
    MateTerm(g, p, Row(2), Col(2)) + MateTerm(g, p, DiagLr, DiagRl)
  }

  // ---------------------------------------------------------------------
  // The rescan, in terms of signed counts

  /** The rescan has met a count of 3 for `p` in a row or column below `n`. */
  predicate WinScan(g: Grid, p: int, n: int)
    requires WellFormed(g) && IsPlayer(p) && 0 <= n <= 3
  {
    n > 0 &&
    (WinScan(g, p, n - 1) || RowSum(g, p, n - 1, 3) == 3 || ColSum(g, p, n - 1, 3) == 3)
  }

  /** The change to the mate counter for a pair of lines with the mover's
      counts `sa`, `sb` and the next player's counts `ta`, `tb`. */
  function MateStep(sa: int, sb: int, ta: int, tb: int): int {
    (if sa == 3 || sb == 3 then 0 else if sa == 2 || sb == 2 then 1 else 0)
    - (if ta == 2 || tb == 2 then 1 else 0)
  }

  function MateStepOf(g: Grid, p: int, a: Line, b: Line): int
    requires WellFormed(g) && IsPlayer(p) && ValidLine(a) && ValidLine(b)
  {
    var q := OtherPlayer(p);
    MateStep(LineSum(g, p, a), LineSum(g, p, b), LineSum(g, q, a), LineSum(g, q, b))
  }

  /** The mate counter after the rescan has passed rows and columns below `n`. */
  function MateScan(g: Grid, p: int, n: int): int
    requires WellFormed(g) && IsPlayer(p) && 0 <= n <= 3
  {
    if n == 0 then 0 else MateScan(g, p, n - 1) + MateStepOf(g, p, Row(n - 1), Col(n - 1))
  }

  /** The rescan finds a count of 3 exactly when the mover holds a line. */
  lemma WinScanMeaning(g: Grid, p: int)
    requires WellFormed(g) && IsPlayer(p)
    ensures WinScan(g, p, 3) || DiagLrSum(g, p, 3) == 3 || DiagRlSum(g, p, 3) == 3
      <==> LineOf(g, p)
  {
    assert WinScan(g, p, 1) <==> RowSum(g, p, 0, 3) == 3 || ColSum(g, p, 0, 3) == 3;
    assert WinScan(g, p, 2) <==>
      WinScan(g, p, 1) || RowSum(g, p, 1, 3) == 3 || ColSum(g, p, 1, 3) == 3;
    SumMeaning(g, p, Row(0)); SumMeaning(g, p, Row(1)); SumMeaning(g, p, Row(2));
    SumMeaning(g, p, Col(0)); SumMeaning(g, p, Col(1)); SumMeaning(g, p, Col(2));
    SumMeaning(g, p, DiagLr); SumMeaning(g, p, DiagRl);
  }

  /** One pass of the count arithmetic is the declarative mate term. */
  lemma MateStepMeaning(g: Grid, p: int, a: Line, b: Line)
    requires WellFormed(g) && IsPlayer(p) && ValidLine(a) && ValidLine(b)
    ensures MateStepOf(g, p, a, b) == MateTerm(g, p, a, b)
  {
    var q := OtherPlayer(p);
    SumMeaning(g, p, a); SumMeaning(g, p, b);
    SumMeaning(g, q, a); SumMeaning(g, q, b);
  }

  /** The counter the rescan computes is MateValue. */
  lemma MateScanMeaning(g: Grid, p: int)
    requires WellFormed(g) && IsPlayer(p)
    ensures MateScan(g, p, 3) + MateStepOf(g, p, DiagLr, DiagRl) == MateValue(g, p)
  {
    MateStepMeaning(g, p, Row(0), Col(0));
    MateStepMeaning(g, p, Row(1), Col(1));
    MateStepMeaning(g, p, Row(2), Col(2));
    MateStepMeaning(g, p, DiagLr, DiagRl);
    assert MateScan(g, p, 1) == MateStepOf(g, p, Row(0), Col(0));
    assert MateScan(g, p, 2) == MateScan(g, p, 1) + MateStepOf(g, p, Row(1), Col(1));
  }

  // ---------------------------------------------------------------------
  // Marks on the board

  function CountIn(s: seq<int>, v: int): nat {
    if s == [] then 0 else (if s[0] == v then 1 else 0) + CountIn(s[1..], v)
  }

  /** The number of cells holding `v`. */
  function Count(g: Grid, v: int): nat {
    if g == [] then 0 else CountIn(g[0], v) + Count(g[1..], v)
  }

  lemma {:induction false} CountInUpdate(s: seq<int>, k: int, w: int, v: int)
    requires 0 <= k < |s|
    ensures CountIn(s[k := w], v) == CountIn(s, v) - (if s[k] == v then 1 else 0) + (if w == v then 1 else 0)
  {
    if k == 0 {
      assert s[k := w][1..] == s[1..];
    } else {
      assert s[k := w][1..] == s[1..][k - 1 := w];
      CountInUpdate(s[1..], k - 1, w, v);
    }
  }

  lemma {:induction false} CountUpdate(g: Grid, k: int, row: seq<int>, v: int)
    requires 0 <= k < |g|
    ensures Count(g[k := row], v) == Count(g, v) - CountIn(g[k], v) + CountIn(row, v)
  {
    if k == 0 {
      assert g[k := row][1..] == g[1..];
    } else {
      assert g[k := row][1..] == g[1..][k - 1 := row];
      CountUpdate(g[1..], k - 1, row, v);
    }
  }

  /** Writing `p` into an empty cell adds one mark of `p` and leaves the
      number of marks of every other value unchanged. */
  lemma PlaceCounts(g: Grid, x: int, y: int, p: int, v: int)
    requires WellFormed(g) && InRange(x, y) && g[x][y] == 0 && IsPlayer(p) && v != 0
    ensures Count(Place(g, x, y, p), v) == Count(g, v) + (if v == p then 1 else 0)
  {
    PlaceIsUpdate(g, x, y, p);
    CountInUpdate(g[x], y, p, v);
    CountUpdate(g, x, g[x][y := p], v);
  }

  lemma {:induction false} CountInZeros(s: seq<int>, v: int)
    requires v != 0 && forall k :: 0 <= k < |s| ==> s[k] == 0
    ensures CountIn(s, v) == 0
  {
    if s != [] {
      CountInZeros(s[1..], v);
    }
  }

  /** A board of empty cells holds no marks. */
  lemma {:induction false} CountZeros(g: Grid, v: int)
    requires v != 0 && forall i, k :: 0 <= i < |g| && 0 <= k < |g[i]| ==> g[i][k] == 0
    ensures Count(g, v) == 0
  {
    if g != [] {
      CountInZeros(g[0], v);
      CountZeros(g[1..], v);
    }
  }

  // ---------------------------------------------------------------------
  // Move validation

  /** A move the board accepts: the game is running, it is `player`'s turn,
      the cell is on the board and free. */
  predicate Legal(winner: int, next: int, g: Grid, player: int, x: int, y: int)
    requires WellFormed(g)
  {
    winner == 0 && player == next && InRange(x, y) && g[x][y] == 0
  }

  /** The error code of a move attempt: the first failing check in the order
      terminated game (2), wrong player (3), off the board (4), cell taken (5);
      0 when the move is accepted. */
  function ErrorCode(winner: int, next: int, g: Grid, player: int, x: int, y: int): (code: int)
    requires WellFormed(g)
    ensures code == 0 <==> Legal(winner, next, g, player, x, y)
    ensures code == 2 <==> winner != 0
    ensures code == 3 <==> winner == 0 && player != next
    ensures code == 4 <==> winner == 0 && player == next && !InRange(x, y)
    ensures code == 5 <==> winner == 0 && player == next && InRange(x, y) && g[x][y] != 0
  {
    if winner != 0 then 2
    else if player != next then 3
    else if x < 0 || x > 2 || y < 0 || y > 2 then 4
    else if g[x][y] != 0 then 5
    else 0
  }

  function ErrorMessage(code: int): string {
    if code == 2 then "Game already terminated"
    else if code == 3 then "Unexpected player"
    else if code == 4 then "Illegal move"
    else if code == 5 then "Position already taken"
    else ""
  }
}
