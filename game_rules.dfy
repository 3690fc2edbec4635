/**
 * The end of the game, logic/game_rules.py: `is_game_over` names a winner
 * when exactly one player still has a Main general; otherwise the game goes
 * on until round 500, and after that the larger total army wins, then the
 * larger number of cells, then the larger coin, and player 0 on a full tie.
 * `tiebreak_now` asks for that last verdict at once.
 */
module GameRules {
  import opened GameData
  import opened Gamestate

  /** The last round that is played out before the tiebreak decides. */
  const RoundCap: int := 500

  /** Some listed Main general belongs to `player` (lines 16-19). */
  predicate MainAlive(gs: seq<General>, player: int)
  {
    exists k :: 0 <= k < |gs| && gs[k].kind == MainGeneral && gs[k].player == player
  }

  /** The army on the cells of `player` in one row. */
  function RowArmy(r: seq<Cell>, player: int): nat
  {
    if |r| == 0 then 0
    else RowArmy(r[..|r| - 1], player) + (if r[|r| - 1].owner == player then r[|r| - 1].army else 0)
  }

  /** The number of cells of `player` in one row. */
  function RowCells(r: seq<Cell>, player: int): nat
  {
    if |r| == 0 then 0
    else RowCells(r[..|r| - 1], player) + (if r[|r| - 1].owner == player then 1 else 0)
  }

  /** The army on the cells of `player` on the whole board (lines 28-38). */
  function Army(b: Board, player: int): nat
  {
    if |b| == 0 then 0 else Army(b[..|b| - 1], player) + RowArmy(b[|b| - 1], player)
  }

  /** The number of cells `player` owns on the whole board (lines 28-38). */
  function Cells(b: Board, player: int): nat
  {
    if |b| == 0 then 0 else Cells(b[..|b| - 1], player) + RowCells(b[|b| - 1], player)
  }

  /** The tiebreak (lines 40-46): army, then cells, then coin; player 0 when all three tie. */
  function Tiebreak(w: World): int
  {
    var a0, a1 := Army(w.board, 0), Army(w.board, 1);
    var c0, c1 := Cells(w.board, 0), Cells(w.board, 1);
    if a0 != a1 then (if a0 > a1 then 0 else 1)
    else if c0 != c1 then (if c0 > c1 then 0 else 1)
    else if w.coin[0] != w.coin[1] then (if w.coin[0] > w.coin[1] then 0 else 1)
    else 0
  }

  /** `is_game_over`: the winner, or -1 while the game goes on. */
  function Winner(w: World): int
  {
    var m0, m1 := MainAlive(w.generals, 0), MainAlive(w.generals, 1);
    if !m0 && m1 then 1
    else if !m1 && m0 then 0
    else if w.round <= RoundCap then -1
    else Tiebreak(w)
  }

  // ---------------------------------------------------------------------
  // What the verdict means

  /**
   * The verdict is -1, 0 or 1. It is -1 exactly when no player alone has
   * lost every Main general and the round cap is not passed; a player whose
   * opponent alone has no Main general left wins whatever the round; past
   * the cap the game is always decided.
   */
  lemma WinnerCases(w: World)
    ensures -1 <= Winner(w) <= 1
    ensures Winner(w) == -1 <==>
      w.round <= RoundCap && MainAlive(w.generals, 0) == MainAlive(w.generals, 1)
    ensures forall p :: 0 <= p <= 1 && MainAlive(w.generals, p) && !MainAlive(w.generals, 1 - p) ==> Winner(w) == p
    ensures w.round > RoundCap ==> Winner(w) != -1
  {
  }

  /** The cells of a player are counted only once per cell: no player holds more cells than the board has. */
  lemma {:induction false} CellsBounded(b: Board)
    ensures Cells(b, 0) + Cells(b, 1) <= Size(b)
  {
    if |b| > 0 {
      CellsBounded(b[..|b| - 1]);
      RowCellsBounded(b[|b| - 1]);
    }
  }

  /** The number of cells on a board. */
  function Size(b: Board): nat
  {
    if |b| == 0 then 0 else Size(b[..|b| - 1]) + |b[|b| - 1]|
  }

  lemma {:induction false} RowCellsBounded(r: seq<Cell>)
    ensures RowCells(r, 0) + RowCells(r, 1) <= |r|
  {
    if |r| > 0 {
      RowCellsBounded(r[..|r| - 1]);
    }
  }

  // ---------------------------------------------------------------------
  // The verdict does not favour a player, except in the full tie

  /** The other player; a neutral owner stays neutral. */
  function Other(p: int): int
  {
    if p == 0 then 1 else if p == 1 then 0 else p
  }

  /** A row with the two players' cells exchanged. */
  function MirrorRow(r: seq<Cell>): (m: seq<Cell>)
    ensures |m| == |r|
  {
    if |r| == 0 then [] else MirrorRow(r[..|r| - 1]) + [r[|r| - 1].(owner := Other(r[|r| - 1].owner))]
  }

  /** A board with the two players' cells exchanged. */
  function MirrorBoard(b: Board): (m: Board)
    ensures |m| == |b|
  {
    if |b| == 0 then [] else MirrorBoard(b[..|b| - 1]) + [MirrorRow(b[|b| - 1])]
  }

  /** The generals with their sides exchanged. */
  function MirrorGenerals(gs: seq<General>): (m: seq<General>)
    ensures |m| == |gs|
    ensures forall k :: 0 <= k < |gs| ==> m[k] == gs[k].(player := Other(gs[k].player))
  {
    seq(|gs|, k requires 0 <= k < |gs| => gs[k].(player := Other(gs[k].player)))
  }

  /** The same game with the two players' roles exchanged. */
  function Mirror(w: World): World
  {
    w.(board := MirrorBoard(w.board), generals := MirrorGenerals(w.generals), coin := [w.coin[1], w.coin[0]])
  }

  /** Exchanging the players of a row exchanges their army and cell counts. */
  lemma {:induction false} MirrorRowCounts(r: seq<Cell>, p: int)
    requires 0 <= p <= 1
    ensures RowArmy(MirrorRow(r), p) == RowArmy(r, 1 - p)
    ensures RowCells(MirrorRow(r), p) == RowCells(r, 1 - p)
  {
    if |r| > 0 {
      var m := MirrorRow(r);
      MirrorRowCounts(r[..|r| - 1], p);
      assert m[..|m| - 1] == MirrorRow(r[..|r| - 1]);
    }
  }

  /** Exchanging the players of a board exchanges their army and cell counts. */
  lemma {:induction false} MirrorCounts(b: Board, p: int)
    requires 0 <= p <= 1
    ensures Army(MirrorBoard(b), p) == Army(b, 1 - p)
    ensures Cells(MirrorBoard(b), p) == Cells(b, 1 - p)
  {
    if |b| > 0 {
      var m := MirrorBoard(b);
      MirrorCounts(b[..|b| - 1], p);
      assert m[..|m| - 1] == MirrorBoard(b[..|b| - 1]);
      MirrorRowCounts(b[|b| - 1], p);
    }
  }

  /** Exchanging sides exchanges which player still has a Main general. */
  lemma MirrorAlive(gs: seq<General>, p: int)
    requires 0 <= p <= 1
    ensures MainAlive(MirrorGenerals(gs), p) == MainAlive(gs, 1 - p)
  {
    var m := MirrorGenerals(gs);
    if MainAlive(gs, 1 - p) {
      var k :| 0 <= k < |gs| && gs[k].kind == MainGeneral && gs[k].player == 1 - p;
      assert m[k].kind == MainGeneral && m[k].player == p;
    }
    if MainAlive(m, p) {
      var k :| 0 <= k < |m| && m[k].kind == MainGeneral && m[k].player == p;
      assert gs[k].player == 1 - p;
    }
  }

  /**
   * Exchanging the players exchanges the verdict: the game goes on in the
   * one exactly when it goes on in the other, and otherwise the other
   * player wins, except when army, cells and coin all tie past the cap and
   * both players still have a Main general (or neither has), where player 0
   * wins both games.
   */
  lemma MirrorWinner(w: World)
    ensures var tie := w.round > RoundCap && MainAlive(w.generals, 0) == MainAlive(w.generals, 1) &&
                       Army(w.board, 0) == Army(w.board, 1) && Cells(w.board, 0) == Cells(w.board, 1) &&
                       w.coin[0] == w.coin[1];
      Winner(Mirror(w)) == if Winner(w) == -1 then -1 else if tie then 0 else 1 - Winner(w)
  {
    MirrorCounts(w.board, 0);
    MirrorCounts(w.board, 1);
    MirrorAlive(w.generals, 0);
    MirrorAlive(w.generals, 1);
  }

  // ---------------------------------------------------------------------
  // The operations on the state

  /** The scan of the general list for Main generals (lines 16-19). */
  method MainScan(gs: seq<General>) returns (alive0: bool, alive1: bool)
    ensures alive0 == MainAlive(gs, 0) && alive1 == MainAlive(gs, 1)
  {
    alive0, alive1 := false, false;
    var k := 0;
    while k < |gs|
      invariant 0 <= k <= |gs|
      invariant alive0 == MainAlive(gs[..k], 0) && alive1 == MainAlive(gs[..k], 1)
    {
      if gs[k].kind == MainGeneral {
        if gs[k].player == 0 {
          alive0 := true;
        } else if gs[k].player == 1 {
          alive1 := true;
        }
      }
      assert gs[..k + 1] == gs[..k] + [gs[k]];
      k := k + 1;
    }
    assert gs[..k] == gs;
  }

  /** One row of the tiebreak's board scan (lines 31-38). */
  method RowScan(r: seq<Cell>) returns (a0: nat, a1: nat, c0: nat, c1: nat)
    ensures a0 == RowArmy(r, 0) && a1 == RowArmy(r, 1) && c0 == RowCells(r, 0) && c1 == RowCells(r, 1)
  {
    a0, a1, c0, c1 := 0, 0, 0, 0;
    var j := 0;
    while j < |r|
      invariant 0 <= j <= |r|
      invariant a0 == RowArmy(r[..j], 0) && a1 == RowArmy(r[..j], 1)
      invariant c0 == RowCells(r[..j], 0) && c1 == RowCells(r[..j], 1)
    {
      assert r[..j + 1][..j] == r[..j];
      var cell := r[j];
      if cell.owner == 0 {
        a0 := a0 + cell.army;
        c0 := c0 + 1;
      } else if cell.owner == 1 {
        a1 := a1 + cell.army;
        c1 := c1 + 1;
      }
      j := j + 1;
    }
    assert r[..j] == r;
  }

  /** The board scan (lines 28-38): army and cells per player. */
  method BoardScan(s: GameState) returns (a0: nat, a1: nat, c0: nat, c1: nat)
    requires s.Valid()
    ensures a0 == Army(s.board, 0) && a1 == Army(s.board, 1) && c0 == Cells(s.board, 0) && c1 == Cells(s.board, 1)
  {
    a0, a1, c0, c1 := 0, 0, 0, 0;
    var i := 0;
    while i < s.cfg.rows
      invariant 0 <= i <= s.cfg.rows == |s.board|
      invariant a0 == Army(s.board[..i], 0) && a1 == Army(s.board[..i], 1)
      invariant c0 == Cells(s.board[..i], 0) && c1 == Cells(s.board[..i], 1)
    {
      assert s.board[..i + 1][..i] == s.board[..i];
      var r0, r1, n0, n1 := RowScan(s.board[i]);
      a0, a1, c0, c1 := a0 + r0, a1 + r1, c0 + n0, c1 + n1;
      i := i + 1;
    }
    assert s.board[..i] == s.board;
  }

  /** `is_game_over` on the state; it reads the state and changes nothing. */
  method IsGameOver(s: GameState) returns (winner: int)
    requires s.Valid()
    ensures winner == Winner(s.Model())
  {
    var alive0, alive1 := MainScan(s.generals);
    if !alive0 && alive1 {
      return 1;
    }
    if !alive1 && alive0 {
      return 0;
    }
    if s.round <= RoundCap {
      return -1;
    }
    var a0, a1, c0, c1 := BoardScan(s);
    if a0 != a1 {
      return if a0 > a1 then 0 else 1;
    }
    if c0 != c1 {
      return if c0 > c1 then 0 else 1;
    }
    if s.coin[0] != s.coin[1] {
      return if s.coin[0] > s.coin[1] then 0 else 1;
    }
    return 0;
  }

  /**
   * `tiebreak_now`: the verdict as if the round were 501, which always
   * names a winner; the round is put back, so the state is as before.
   */
  method TiebreakNow(s: GameState) returns (winner: int)
    requires s.Valid()
    modifies s
    ensures s.Model() == old(s.Model()) && s.Valid()
    ensures winner == Winner(old(s.Model()).(round := RoundCap + 1)) && 0 <= winner <= 1
  {
    var current := s.round;
    s.round := RoundCap + 1;
    winner := IsGameOver(s);
    s.round := current;
    WinnerCases(old(s.Model()).(round := RoundCap + 1));
  }
}
