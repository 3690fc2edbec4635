/**
 * Army and general movement, logic/movement.py: the neighbour of a cell in a
 * direction, an army move with its three-way combat result, the relocation
 * of a general, and the breadth-first check that a general can reach its
 * destination within its remaining mobility.
 */
module Movement {
  import opened GameData
  import opened Gamestate
  import opened Computation

  // ---------------------------------------------------------------------
  // Neighbours (logic/movement.py:11-34)

  /** The orthogonal neighbour of `p` in direction `d`: UP lowers the row, LEFT lowers the column. */
  function Step(p: Pos, d: Direction): Pos
  {
    match d
    case Up => Pos(p.x - 1, p.y)
    case Down => Pos(p.x + 1, p.y)
    case Left => Pos(p.x, p.y - 1)
    case Right => Pos(p.x, p.y + 1)
  }

  /** The marker `calculate_new_pos` returns for a neighbour off the board. */
  const OffBoard: Pos := Pos(-1, -1)

  /** `calculate_new_pos`: the neighbour, or (-1, -1) when it is off the board (`outrange`). */
  function CalculateNewPos(cfg: Config, p: Pos, d: Direction): Pos
  {
    if InBounds(cfg, Step(p, d)) then Step(p, d) else OffBoard
  }

  /**
   * The result is either the off-board marker or an on-board cell one
   * orthogonal step away; the marker is exactly the case of a neighbour off
   * the board, and its negative row is what the callers test.
   */
  lemma NewPosIsNeighbour(cfg: Config, p: Pos, d: Direction)
    ensures var r := CalculateNewPos(cfg, p, d);
      (r == OffBoard <==> !InBounds(cfg, Step(p, d))) &&
      (r.x < 0 <==> r == OffBoard) &&
      (r != OffBoard ==> InBounds(cfg, r) && Manhattan(p, r) == 1)
  {
  }

  /** Every on-board cell one step away is reached by exactly one direction. */
  lemma NewPosCoversNeighbours(cfg: Config, p: Pos, q: Pos)
    requires InBounds(cfg, q) && Manhattan(p, q) == 1
    ensures exists d :: CalculateNewPos(cfg, p, d) == q
    ensures forall d1, d2 :: CalculateNewPos(cfg, p, d1) == q && CalculateNewPos(cfg, p, d2) == q ==> d1 == d2
  {
    if q.x < p.x {
      assert CalculateNewPos(cfg, p, Up) == q;
    } else if q.x > p.x {
      assert CalculateNewPos(cfg, p, Down) == q;
    } else if q.y < p.y {
      assert CalculateNewPos(cfg, p, Left) == q;
    } else {
      assert CalculateNewPos(cfg, p, Right) == q;
    }
  }

  // ---------------------------------------------------------------------
  // Combat (logic/movement.py:95-112)

  /** `math.ceil` on an exact rational. */
  function Ceil(r: real): (c: int)
    ensures c as real >= r && (c - 1) as real < r
  {
    -((-r).Floor)
  }

  /** What a hostile destination becomes: taken with survivors, held with survivors, or emptied. */
  datatype Battle = Captured(survivors: nat) | Held(survivors: nat) | Neutralised

  /**
   * The fight of `n` attackers with attack factor `atk` against `defenders`
   * with defence factor `def`: `vs` is the attackers' strength minus the
   * defenders'; the side ahead keeps `ceil` of its surplus in its own units.
   */
  function Fight(n: nat, defenders: nat, atk: real, def: real): Battle
    requires atk > 0.0 && def > 0.0
  {
    var vs := n as real * atk - defenders as real * def;
    if vs > 0.0 then
      PositiveQuotient(vs, atk);
      Captured(Ceil(vs / atk))
    else if vs < 0.0 then
      PositiveQuotient(-vs, def);
      Held(Ceil(-vs / def))
    else Neutralised
  }

  lemma PositiveQuotient(a: real, b: real)
    requires a > 0.0 && b > 0.0
    ensures a / b > 0.0
  {
  }

  /** The quotient `(n * atk - x) / atk` is `n - x / atk`. */
  lemma Surplus(n: real, atk: real, x: real)
    requires atk > 0.0
    ensures (n * atk - x) / atk == n - x / atk
  {
  }

  /**
   * The winner keeps at least one unit and never more than it brought: a
   * capture leaves between 1 and `n` attackers, a hold between 1 and the
   * defenders there were; a draw means both strengths were equal.
   */
  lemma FightBounds(n: nat, defenders: nat, atk: real, def: real)
    requires atk > 0.0 && def > 0.0
    ensures Fight(n, defenders, atk, def).Captured? ==> 1 <= Fight(n, defenders, atk, def).survivors <= n
    ensures Fight(n, defenders, atk, def).Held? ==> 1 <= Fight(n, defenders, atk, def).survivors <= defenders
    ensures Fight(n, defenders, atk, def).Neutralised? <==> n as real * atk == defenders as real * def
  {
    var vs := n as real * atk - defenders as real * def;
    if vs > 0.0 {
      CaptureBounds(n, defenders, atk, def);
    } else if vs < 0.0 {
      HoldBounds(n, defenders, atk, def);
    }
  }

  /** A capture keeps between 1 and all of the attackers. */
  lemma CaptureBounds(n: nat, defenders: nat, atk: real, def: real)
    requires atk > 0.0 && def > 0.0 && n as real * atk - defenders as real * def > 0.0
    ensures Fight(n, defenders, atk, def) == Captured(Ceil((n as real * atk - defenders as real * def) / atk))
    ensures 1 <= Fight(n, defenders, atk, def).survivors <= n
  {
    Surplus(n as real, atk, defenders as real * def);
    PositiveQuotient(defenders as real * def + 1.0, atk);
    NonNegativeQuotient(defenders as real * def, atk);
  }

  /** A hold keeps between 1 and all of the defenders. */
  lemma HoldBounds(n: nat, defenders: nat, atk: real, def: real)
    requires atk > 0.0 && def > 0.0 && n as real * atk - defenders as real * def < 0.0
    ensures Fight(n, defenders, atk, def) == Held(Ceil((defenders as real * def - n as real * atk) / def))
    ensures 1 <= Fight(n, defenders, atk, def).survivors <= defenders
  {
    var vs := n as real * atk - defenders as real * def;
    assert -vs == defenders as real * def - n as real * atk;
    Surplus(defenders as real, def, n as real * atk);
    NonNegativeQuotient(n as real * atk, def);
    var c := Ceil(-vs / def);
    assert Fight(n, defenders, atk, def) == Held(c);
    assert (c - 1) as real < defenders as real;
  }

  lemma NonNegativeQuotient(a: real, b: real)
    requires a >= 0.0 && b > 0.0
    ensures a / b >= 0.0
  {
  }

  /**
   * The rounding cases of tests/logic_sdk/test_skill_rounding.py: five units with attack 1.5 leave four to move
   * against one defender of factor 1; the surplus 5 is 3.33 attackers, so 4
   * take the cell. Three plain attackers take an empty neutral cell with all 3.
   */
  lemma FightWorked()
    ensures Fight(4, 1, 1.5, 1.0) == Captured(4)
    ensures Fight(3, 0, 1.0, 1.0) == Captured(3)
  {
    assert (4.0 * 1.5 - 1.0 * 1.0) / 1.5 == 10.0 / 3.0;
    assert Ceil(10.0 / 3.0) == 4;
    assert (3.0 * 1.0 - 0.0 * 1.0) / 1.0 == 3.0;
  }

  // ---------------------------------------------------------------------
  // army_move (logic/movement.py:37-121)

  /** The general behind `gen` switched to `player`, when the id is listed. */
  function Flip(gs: seq<General>, gen: Option<nat>, player: int): (r: seq<General>)
    ensures |r| == |gs|
  {
    if gen.Some? && GeneralIndex(gs, gen.value) >= 0 then
      var k := GeneralIndex(gs, gen.value);
      gs[k := gs[k].(player := player)]
    else gs
  }

  /**
   * The state after `n` units leave `p` for the neighbour `q`, given the
   * outcome `b` a fight there would have: a friendly destination adds the
   * units; an enemy or neutral one takes the fight's result; the move is
   * spent in every case.
   */
  function Arrive(w: World, p: Pos, q: Pos, player: int, n: nat, b: Battle): World
    requires 0 <= p.x < |w.board| && 0 <= p.y < |w.board[p.x]| && 0 <= q.x < |w.board| && 0 <= q.y < |w.board[q.x]|
    requires 0 <= player <= 1 && n < w.board[p.x][p.y].army
  {
    var src := w.board[p.x][p.y];
    var dst := w.board[q.x][q.y];
    var left := SetCell(w.board, p, src.(army := src.army - n));
    var steps := w.restMoveStep[player := w.restMoveStep[player] - 1];
    if dst.owner == player then
      w.(board := SetCell(left, q, dst.(army := dst.army + n)), restMoveStep := steps)
    else if dst.owner == 1 - player || dst.owner == -1 then
      match b
      case Captured(a) =>
        w.(board := SetCell(left, q, dst.(owner := player, army := a)),
           generals := Flip(w.generals, dst.gen, player), restMoveStep := steps)
      case Held(a) =>
        w.(board := SetCell(left, q, dst.(army := a)), restMoveStep := steps)
      case Neutralised =>
        w.(board := SetCell(left, q, dst.(owner := if dst.gen.None? then -1 else dst.owner, army := 0)),
           restMoveStep := steps)
    else
      w.(restMoveStep := steps)
  }

  /**
   * The fight `n` units from `p` would have on `q`, with the factors of
   * `compute_attack` and `compute_defence`. The winning side never keeps
   * more units than it had, and keeps at least one.
   */
  ghost function Clash(cfg: Config, w: World, p: Pos, q: Pos, n: nat): (b: Battle)
    requires WorldOk(cfg, w) && InBounds(cfg, p) && InBounds(cfg, q)
    ensures b.Captured? ==> 1 <= b.survivors <= n
    ensures b.Held? ==> 1 <= b.survivors <= w.board[q.x][q.y].army
  {
    FactorsPositive(cfg, w, p);
    FactorsPositive(cfg, w, q);
    FightBounds(n, w.board[q.x][q.y].army, Attack(cfg, w, p), Defence(cfg, w, q));
    Fight(n, w.board[q.x][q.y].army, Attack(cfg, w, p), Defence(cfg, w, q))
  }

  /** The number of units that actually move: `num`, capped so that one stays behind. */
  function Moving(army: int, num: int): int
  {
    if num >= army - 1 then army - 1 else num
  }

  /**
   * `army_move`: the checks in the order of the source, then the move. Stun
   * is checked at the origin only; the destination may be anything on the
   * board except a mountain the mover cannot climb.
   */
  ghost function ArmyMoveOutcome(cfg: Config, w: World, p: Pos, player: int, d: Direction, num: int): Outcome
    requires WorldOk(cfg, w)
  {
    if !InBounds(cfg, p) || (player != 0 && player != 1) then Outcome(false, w)
    else if w.board[p.x][p.y].owner != player then Outcome(false, w)
    else if w.restMoveStep[player] == 0 then Outcome(false, w)
    else if w.board[p.x][p.y].army <= 1 then Outcome(false, w)
    else if num <= 0 then Outcome(false, w)
    else if Stunned(w.weapons, p, player) then Outcome(false, w)
    else
      var q := CalculateNewPos(cfg, p, d);
      if q.x < 0 then Outcome(false, w)
      else if w.board[q.x][q.y].terrain == Mountain && w.tech[player][1] == 0 then Outcome(false, w)
      else
        var n := Moving(w.board[p.x][p.y].army, num);
        Outcome(true, Arrive(w, p, q, player, n, Clash(cfg, w, p, q, n)))
  }

  /** The conditions under which `army_move` goes ahead, all of them. */
  predicate ArmyMoveAllowed(cfg: Config, w: World, p: Pos, player: int, d: Direction, num: int)
    requires WorldOk(cfg, w)
  {
    InBounds(cfg, p) && (player == 0 || player == 1) && w.board[p.x][p.y].owner == player &&
    w.restMoveStep[player] != 0 && w.board[p.x][p.y].army > 1 && num > 0 &&
    !Stunned(w.weapons, p, player) && InBounds(cfg, Step(p, d)) &&
    !(w.board[Step(p, d).x][Step(p, d).y].terrain == Mountain && w.tech[player][1] == 0)
  }

  /**
   * The move succeeds exactly when none of the rejections applies: origin off
   * the board, a player other than 0 or 1, an origin the player does not own,
   * no army moves left this round, at most one unit on the origin, a
   * non-positive `num`, a stunned origin, a destination off the board, or an
   * unclimbable mountain there. A rejected move changes nothing; an accepted
   * one moves `Moving(army, num)` units, between 1 and `num`, one step in
   * direction `d`.
   */
  lemma ArmyMoveChecks(cfg: Config, w: World, p: Pos, player: int, d: Direction, num: int)
    requires WorldOk(cfg, w)
    ensures ArmyMoveOutcome(cfg, w, p, player, d, num).ok <==> ArmyMoveAllowed(cfg, w, p, player, d, num)
    ensures !ArmyMoveOutcome(cfg, w, p, player, d, num).ok ==> ArmyMoveOutcome(cfg, w, p, player, d, num).world == w
    ensures ArmyMoveOutcome(cfg, w, p, player, d, num).ok ==>
      var n := Moving(w.board[p.x][p.y].army, num);
      1 <= n <= num && n < w.board[p.x][p.y].army &&
      ArmyMoveOutcome(cfg, w, p, player, d, num).world == Arrive(w, p, Step(p, d), player, n, Clash(cfg, w, p, Step(p, d), n))
  {
  }

  /**
   * The origin keeps its owner and at least one unit; one army move of the
   * player is used up, and the other player's moves, the coins, the weapons,
   * the tech and the round are untouched.
   */
  lemma ArriveOrigin(w: World, p: Pos, q: Pos, player: int, n: nat, b: Battle)
    requires 0 <= p.x < |w.board| && 0 <= p.y < |w.board[p.x]| && 0 <= q.x < |w.board| && 0 <= q.y < |w.board[q.x]|
    requires 0 <= player <= 1 && n < w.board[p.x][p.y].army && p != q && -1 <= w.board[q.x][q.y].owner <= 1
    ensures |Arrive(w, p, q, player, n, b).board| == |w.board|
    ensures forall i :: 0 <= i < |w.board| ==> |Arrive(w, p, q, player, n, b).board[i]| == |w.board[i]|
    ensures Arrive(w, p, q, player, n, b).board[p.x][p.y] == w.board[p.x][p.y].(army := w.board[p.x][p.y].army - n)
    ensures Arrive(w, p, q, player, n, b).board[p.x][p.y].army >= 1
    ensures Arrive(w, p, q, player, n, b).restMoveStep[player] == w.restMoveStep[player] - 1
    ensures Arrive(w, p, q, player, n, b).restMoveStep[1 - player] == w.restMoveStep[1 - player]
    ensures var w' := Arrive(w, p, q, player, n, b);
      w'.coin == w.coin && w'.weapons == w.weapons && w'.tech == w.tech && w'.round == w.round &&
      w'.nextId == w.nextId && w'.unlocked == w.unlocked && w'.weaponCd == w.weaponCd
  {
  }

  /** Cells other than the origin and the destination are untouched. */
  lemma ArriveElsewhere(w: World, p: Pos, q: Pos, player: int, n: nat, b: Battle, r: Pos)
    requires 0 <= p.x < |w.board| && 0 <= p.y < |w.board[p.x]| && 0 <= q.x < |w.board| && 0 <= q.y < |w.board[q.x]|
    requires 0 <= player <= 1 && n < w.board[p.x][p.y].army
    requires 0 <= r.x < |w.board| && 0 <= r.y < |w.board[r.x]| && r != p && r != q
    ensures var w' := Arrive(w, p, q, player, n, b);
      0 <= r.x < |w'.board| && 0 <= r.y < |w'.board[r.x]| && w'.board[r.x][r.y] == w.board[r.x][r.y]
  {
  }

  /** Onto a friendly cell the units are added: the two cells together keep their army. */
  lemma ArriveFriendly(w: World, p: Pos, q: Pos, player: int, n: nat, b: Battle)
    requires 0 <= p.x < |w.board| && 0 <= p.y < |w.board[p.x]| && 0 <= q.x < |w.board| && 0 <= q.y < |w.board[q.x]|
    requires 0 <= player <= 1 && n < w.board[p.x][p.y].army && p != q
    requires w.board[q.x][q.y].owner == player
    ensures var w' := Arrive(w, p, q, player, n, b);
      0 <= q.x < |w'.board| && 0 <= q.y < |w'.board[q.x]| &&
      w'.board[q.x][q.y] == w.board[q.x][q.y].(army := w.board[q.x][q.y].army + n) &&
      w'.board[p.x][p.y].army + w'.board[q.x][q.y].army == w.board[p.x][p.y].army + w.board[q.x][q.y].army &&
      w'.generals == w.generals
  {
  }

  /**
   * Onto an enemy or neutral cell the fight decides: a capture gives the cell
   * to the mover with the survivors and turns any general there to the
   * mover's side; a hold leaves the defender the survivors; a draw empties the
   * cell, which turns neutral unless a general stands on it.
   */
  lemma ArriveHostile(w: World, p: Pos, q: Pos, player: int, n: nat, b: Battle)
    requires 0 <= p.x < |w.board| && 0 <= p.y < |w.board[p.x]| && 0 <= q.x < |w.board| && 0 <= q.y < |w.board[q.x]|
    requires 0 <= player <= 1 && n < w.board[p.x][p.y].army && p != q
    requires w.board[q.x][q.y].owner == 1 - player || w.board[q.x][q.y].owner == -1
    ensures var w' := Arrive(w, p, q, player, n, b);
      var dst := w.board[q.x][q.y];
      0 <= q.x < |w'.board| && 0 <= q.y < |w'.board[q.x]| &&
      (b.Captured? ==>
        w'.board[q.x][q.y] == dst.(owner := player, army := b.survivors) &&
        w'.generals == Flip(w.generals, dst.gen, player)) &&
      (b.Held? ==> w'.board[q.x][q.y] == dst.(army := b.survivors) && w'.generals == w.generals) &&
      (b.Neutralised? ==>
        w'.board[q.x][q.y] == dst.(owner := if dst.gen.None? then -1 else dst.owner, army := 0) &&
        w'.generals == w.generals)
  {
  }

  /** A captured general is the one on the cell, now on the mover's side; no other general changes. */
  lemma FlipEffect(cfg: Config, w: World, q: Pos, player: int)
    requires WorldOk(cfg, w) && InBounds(cfg, q) && w.board[q.x][q.y].gen.Some?
    ensures var gs := Flip(w.generals, w.board[q.x][q.y].gen, player);
      var k := GeneralIndex(w.generals, w.board[q.x][q.y].gen.value);
      0 <= k < |w.generals| && w.generals[k].pos == q &&
      gs == w.generals[k := w.generals[k].(player := player)]
  {
  }

  /** Writing one cell with an owner in range keeps the board's shape and owners. */
  lemma SetCellFrame(cfg: Config, b: Board, p: Pos, c: Cell)
    requires Shaped(cfg, b) && OwnersOk(b) && InBounds(cfg, p) && -1 <= c.owner <= 1
    ensures Shaped(cfg, SetCell(b, p, c)) && OwnersOk(SetCell(b, p, c))
    ensures forall i, j :: 0 <= i < |b| && 0 <= j < |b[i]| ==>
      SetCell(b, p, c)[i][j] == if i == p.x && j == p.y then c else b[i][j]
  {
  }

  /** The board an army move leaves: shaped, owners in range, every general reference in place. */
  lemma ArriveBoardOk(cfg: Config, w: World, p: Pos, q: Pos, player: int, n: nat, b: Battle)
    requires WorldOk(cfg, w) && InBounds(cfg, p) && InBounds(cfg, q)
    requires 0 <= player <= 1 && n < w.board[p.x][p.y].army
    ensures var w' := Arrive(w, p, q, player, n, b);
      Shaped(cfg, w'.board) && OwnersOk(w'.board) &&
      forall i, j :: 0 <= i < |w.board| && 0 <= j < |w.board[i]| ==> w'.board[i][j].gen == w.board[i][j].gen
  {
    var src := w.board[p.x][p.y];
    var dst := w.board[q.x][q.y];
    var left := SetCell(w.board, p, src.(army := src.army - n));
    SetCellFrame(cfg, w.board, p, src.(army := src.army - n));
    var c: Cell;
    if dst.owner == player {
      c := dst.(army := dst.army + n);
    } else {
      match b
      case Captured(a) => c := dst.(owner := player, army := a);
      case Held(a) => c := dst.(army := a);
      case Neutralised => c := dst.(owner := if dst.gen.None? then -1 else dst.owner, army := 0);
    }
    SetCellFrame(cfg, left, q, c);
    assert Arrive(w, p, q, player, n, b).board == SetCell(left, q, c);
  }

  /** Handing a general to `player` keeps its id and cell and leaves it admissible. */
  lemma FlipGeneralsOk(cfg: Config, gs: seq<General>, gen: Option<nat>, player: int, nextId: nat)
    requires 0 <= player <= 1 && forall k :: 0 <= k < |gs| ==> GeneralOk(cfg, gs[k], nextId)
    ensures var gs' := Flip(gs, gen, player);
      forall k :: 0 <= k < |gs| ==>
        gs'[k].id == gs[k].id && gs'[k].pos == gs[k].pos && GeneralOk(cfg, gs'[k], nextId)
  {
    if gen.Some? && GeneralIndex(gs, gen.value) >= 0 {
      var i := GeneralIndex(gs, gen.value);
      assert Flip(gs, gen, player) == gs[i := gs[i].(player := player)];
    }
  }

  /** The generals an army move leaves: the same ids and places, the captured one on the mover's side. */
  lemma ArriveGeneralsOk(cfg: Config, w: World, p: Pos, q: Pos, player: int, n: nat, b: Battle)
    requires WorldOk(cfg, w) && InBounds(cfg, p) && InBounds(cfg, q)
    requires 0 <= player <= 1 && n < w.board[p.x][p.y].army
    ensures var w' := Arrive(w, p, q, player, n, b);
      |w'.generals| == |w.generals| && w'.nextId == w.nextId && w'.weapons == w.weapons &&
      forall k :: 0 <= k < |w.generals| ==>
        w'.generals[k].id == w.generals[k].id && w'.generals[k].pos == w.generals[k].pos &&
        GeneralOk(cfg, w'.generals[k], w'.nextId)
  {
    var gen := w.board[q.x][q.y].gen;
    assert forall k :: 0 <= k < |w.generals| ==> GeneralOk(cfg, w.generals[k], w.nextId);
    FlipGeneralsOk(cfg, w.generals, gen, player, w.nextId);
    var w' := Arrive(w, p, q, player, n, b);
    assert w'.generals == w.generals || w'.generals == Flip(w.generals, gen, player);
  }

  /** An army move keeps the invariant, whatever the fight's outcome. */
  lemma ArriveKeepsInvariant(cfg: Config, w: World, p: Pos, q: Pos, player: int, n: nat, b: Battle)
    requires WorldOk(cfg, w) && InBounds(cfg, p) && InBounds(cfg, q)
    requires 0 <= player <= 1 && n < w.board[p.x][p.y].army
    ensures WorldOk(cfg, Arrive(w, p, q, player, n, b))
  {
    ArriveBoardOk(cfg, w, p, q, player, n, b);
    ArriveGeneralsOk(cfg, w, p, q, player, n, b);
    WorldOkFrame(cfg, w, Arrive(w, p, q, player, n, b));
  }

  // ---------------------------------------------------------------------
  // The imperative army_move

  /**
   * The weapon scan that every rule acting from a cell repeats: stop at the
   * first unexpired TRANSMISSION of the player on the cell or TIME_STOP of
   * another player next to it.
   */
  method IsStunned(ws: seq<Weapon>, p: Pos, player: int) returns (stunned: bool)
    ensures stunned == Stunned(ws, p, player)
  {
    var k := 0;
    while k < |ws|
      invariant 0 <= k <= |ws|
      invariant forall m :: 0 <= m < k ==> !StunnedBy(ws[m], p, player)
    {
      var sw := ws[k];
      if sw.pos == p && sw.rest != 0 && sw.kind == Transmission && sw.player == player {
        return true;
      }
      if Abs(sw.pos.x - p.x) <= 1 && Abs(sw.pos.y - p.y) <= 1 && sw.rest != 0 && sw.kind == TimeStop &&
         sw.player != player {
        return true;
      }
      k := k + 1;
    }
    return false;
  }

  /** The fight of lines 95-112: both factors are read before anything is written. */
  method ResolveBattle(s: GameState, p: Pos, q: Pos, n: nat) returns (b: Battle)
    requires s.Valid() && InBounds(s.cfg, p) && InBounds(s.cfg, q)
    ensures b == Clash(s.cfg, s.Model(), p, q, n)
  {
    var attack := ComputeAttack(s, p);
    var defence := ComputeDefence(s, q);
    b := Fight(n, s.board[q.x][q.y].army, attack, defence);
  }

  /** The cell and general writes of lines 87-112, on the board and the list of generals. */
  method Arrival(ghost w: World, board: Board, generals: seq<General>, p: Pos, q: Pos, player: int, n: nat, b: Battle)
    returns (board': Board, generals': seq<General>)
    requires board == w.board && generals == w.generals
    requires 0 <= p.x < |board| && 0 <= p.y < |board[p.x]| && 0 <= q.x < |board| && 0 <= q.y < |board[q.x]|
    requires 0 <= player <= 1 && n < board[p.x][p.y].army
    ensures board' == Arrive(w, p, q, player, n, b).board && generals' == Arrive(w, p, q, player, n, b).generals
  {
    var src := board[p.x][p.y];
    var dst := board[q.x][q.y];
    board' := SetCell(board, p, src.(army := src.army - n));
    generals' := generals;
    if dst.owner == player {
      board' := SetCell(board', q, dst.(army := dst.army + n));
    } else if dst.owner == 1 - player || dst.owner == -1 {
      match b
      case Captured(a) =>
        board' := SetCell(board', q, dst.(owner := player, army := a));
        if dst.gen.Some? {
          var k := GeneralIndex(generals, dst.gen.value);
          if k >= 0 {
            generals' := generals[k := generals[k].(player := player)];
          }
        }
      case Held(a) =>
        board' := SetCell(board', q, dst.(army := a));
      case Neutralised =>
        var owner := if dst.gen.None? then -1 else dst.owner;
        board' := SetCell(board', q, dst.(owner := owner, army := 0));
    } else {
      board' := board;
    }
  }

  /** The writes of lines 87-113: destination, origin, the captured general, the move counter. */
  method Land(s: GameState, p: Pos, q: Pos, player: int, n: nat, b: Battle)
    requires s.Valid() && InBounds(s.cfg, p) && InBounds(s.cfg, q)
    requires 0 <= player <= 1 && n < s.board[p.x][p.y].army
    modifies s
    ensures s.Valid() && s.Model() == Arrive(old(s.Model()), p, q, player, n, b)
  {
    ghost var w := s.Model();
    var board, generals := Arrival(w, s.board, s.generals, p, q, player, n, b);
    s.board, s.generals := board, generals;
    s.restMoveStep := s.restMoveStep[player := s.restMoveStep[player] - 1];
    assert s.Model() == Arrive(w, p, q, player, n, b);
    ArriveKeepsInvariant(s.cfg, w, p, q, player, n, b);
  }

  /** The rejections of lines 45-85, in their order, and the number of units that move. */
  method ArmyMoveCheck(s: GameState, p: Pos, player: int, d: Direction, num: int) returns (ok: bool, q: Pos, n: nat)
    requires s.Valid()
    ensures ok == ArmyMoveAllowed(s.cfg, s.Model(), p, player, d, num)
    ensures ok ==> q == Step(p, d) && n == Moving(s.board[p.x][p.y].army, num)
  {
    q, n := p, 0;
    if !(0 <= p.x < s.cfg.rows && 0 <= p.y < s.cfg.cols) || (player != 0 && player != 1) {
      return false, q, n;
    }
    if s.board[p.x][p.y].owner != player || s.restMoveStep[player] == 0 || s.board[p.x][p.y].army <= 1 || num <= 0 {
      return false, q, n;
    }
    n := num;
    if n >= s.board[p.x][p.y].army - 1 {
      n := s.board[p.x][p.y].army - 1;
    }
    var stunned := IsStunned(s.activeWeapons, p, player);
    if stunned {
      return false, q, n;
    }
    q := CalculateNewPos(s.cfg, p, d);
    if q.x < 0 {
      return false, q, n;
    }
    if s.board[q.x][q.y].terrain == Mountain && s.techLevel[player][1] == 0 {
      return false, q, n;
    }
    ok := true;
  }

  /** `army_move` on the state. */
  method ArmyMove(s: GameState, p: Pos, player: int, d: Direction, num: int) returns (ok: bool)
    requires s.Valid()
    modifies s
    ensures s.Valid()
    ensures Outcome(ok, s.Model()) == ArmyMoveOutcome(s.cfg, old(s.Model()), p, player, d, num)
  {
    ghost var w := s.Model();
    ArmyMoveChecks(s.cfg, w, p, player, d, num);
    var q, n;
    ok, q, n := ArmyMoveCheck(s, p, player, d, num);
    if !ok {
      return;
    }
    var b := ResolveBattle(s, p, q, n);
    Land(s, p, q, player, n, b);
  }

  // ---------------------------------------------------------------------
  // general_move (logic/movement.py:124-143)

  /**
   * The general on `p` taken to `dst` as `g`: `dst` names it, `p` names no
   * general, and its entry in the list is replaced by `g`. `general_move` and
   * the surprise-attack skill both relocate a general this way.
   */
  function Relocated(w: World, p: Pos, dst: Pos, g: General): World
    requires 0 <= p.x < |w.board| && 0 <= p.y < |w.board[p.x]| && 0 <= dst.x < |w.board| && 0 <= dst.y < |w.board[dst.x]|
    requires w.board[p.x][p.y].gen.Some? && GeneralIndex(w.generals, w.board[p.x][p.y].gen.value) >= 0
  {
    var id := w.board[p.x][p.y].gen.value;
    var k := GeneralIndex(w.generals, id);
    var board := SetCell(w.board, dst, w.board[dst.x][dst.y].(gen := Some(id)));
    w.(board := SetCell(board, p, board[p.x][p.y].(gen := None)), generals := w.generals[k := g])
  }

  /** What relocating `g` may assume: it keeps its id, stands on `dst` and is admissible. */
  ghost predicate Relocatable(cfg: Config, w: World, p: Pos, dst: Pos, g: General)
  {
    WorldOk(cfg, w) && InBounds(cfg, p) && InBounds(cfg, dst) && p != dst &&
    w.board[p.x][p.y].gen.Some? && w.board[dst.x][dst.y].gen.None? &&
    g.id == w.board[p.x][p.y].gen.value && g.pos == dst && GeneralOk(cfg, g, w.nextId)
  }

  /**
   * The relocated general is the one listed at `p`; the two cells change
   * only in their general reference, and no other cell or general changes.
   */
  lemma RelocatedEffect(cfg: Config, w: World, p: Pos, dst: Pos, g: General)
    requires Shaped(cfg, w.board) && Linked(w.board, w.generals) && InBounds(cfg, p) && InBounds(cfg, dst) && p != dst
    requires w.board[p.x][p.y].gen.Some?
    ensures var w' := Relocated(w, p, dst, g);
      var id := w.board[p.x][p.y].gen.value;
      var k := GeneralIndex(w.generals, id);
      0 <= k < |w.generals| && w.generals[k].pos == p && w'.generals == w.generals[k := g] &&
      w'.board[dst.x][dst.y] == w.board[dst.x][dst.y].(gen := Some(id)) &&
      w'.board[p.x][p.y] == w.board[p.x][p.y].(gen := None) &&
      (forall i, j :: 0 <= i < cfg.rows && 0 <= j < cfg.cols && Pos(i, j) != p && Pos(i, j) != dst ==>
        w'.board[i][j] == w.board[i][j]) &&
      w' == w.(board := w'.board, generals := w'.generals)
  {
  }

  /** After relocation every listed general still stands on the cell that names it. */
  lemma RelocatedPlaced(cfg: Config, w: World, p: Pos, dst: Pos, g: General)
    requires Relocatable(cfg, w, p, dst, g)
    ensures Placed(Relocated(w, p, dst, g).board, Relocated(w, p, dst, g).generals)
  {
    var w' := Relocated(w, p, dst, g);
    var k := GeneralIndex(w.generals, w.board[p.x][p.y].gen.value);
    RelocatedEffect(cfg, w, p, dst, g);
    forall m | 0 <= m < |w'.generals|
      ensures 0 <= w'.generals[m].pos.x < |w'.board| && 0 <= w'.generals[m].pos.y < |w'.board[w'.generals[m].pos.x]|
      ensures w'.board[w'.generals[m].pos.x][w'.generals[m].pos.y].gen == Some(w'.generals[m].id)
    {
      if m != k {
        assert w.generals[m].pos != p;
      }
    }
  }

  /** After relocation every cell that names a general is that general's position. */
  lemma RelocatedLinked(cfg: Config, w: World, p: Pos, dst: Pos, g: General)
    requires Shaped(cfg, w.board) && Linked(w.board, w.generals) && InBounds(cfg, p) && InBounds(cfg, dst) && p != dst
    requires w.board[p.x][p.y].gen.Some? && w.board[dst.x][dst.y].gen.None? && g.id == w.board[p.x][p.y].gen.value && g.pos == dst
    ensures Linked(Relocated(w, p, dst, g).board, Relocated(w, p, dst, g).generals)
  {
    var w' := Relocated(w, p, dst, g);
    var k := GeneralIndex(w.generals, w.board[p.x][p.y].gen.value);
    RelocatedEffect(cfg, w, p, dst, g);
    forall id' {
      SameIdsSameIndex(w.generals, w'.generals, id');
    }
    forall i, j | 0 <= i < |w'.board| && 0 <= j < |w'.board[i]| && w'.board[i][j].gen.Some?
      ensures GeneralIndex(w'.generals, w'.board[i][j].gen.value) >= 0
      ensures w'.generals[GeneralIndex(w'.generals, w'.board[i][j].gen.value)].pos == Pos(i, j)
    {
      if Pos(i, j) != dst {
        assert GeneralIndex(w.generals, w.board[i][j].gen.value) != k;
      }
    }
  }

  /** After relocation the board keeps its shape and owners, and every general stays admissible. */
  lemma RelocatedFrame(cfg: Config, w: World, p: Pos, dst: Pos, g: General)
    requires Relocatable(cfg, w, p, dst, g)
    ensures var w' := Relocated(w, p, dst, g);
      Shaped(cfg, w'.board) && OwnersOk(w'.board) && UniqueIds(w'.generals) &&
      (forall k :: 0 <= k < |w'.generals| ==> GeneralOk(cfg, w'.generals[k], w'.nextId)) &&
      (forall k :: 0 <= k < |w'.weapons| ==> InBounds(cfg, w'.weapons[k].pos))
  {
    var id := w.board[p.x][p.y].gen.value;
    var board: Board := SetCell(w.board, dst, w.board[dst.x][dst.y].(gen := Some(id)));
    SetCellFrame(cfg, w.board, dst, w.board[dst.x][dst.y].(gen := Some(id)));
    SetCellFrame(cfg, board, p, board[p.x][p.y].(gen := None));
  }

  /** Relocating a general onto a cell without one keeps the invariant. */
  lemma RelocatedKeepsInvariant(cfg: Config, w: World, p: Pos, dst: Pos, g: General)
    requires Relocatable(cfg, w, p, dst, g)
    ensures WorldOk(cfg, Relocated(w, p, dst, g))
  {
    RelocatedFrame(cfg, w, p, dst, g);
    RelocatedPlaced(cfg, w, p, dst, g);
    RelocatedLinked(cfg, w, p, dst, g);
  }

  /** The general on `p` as `general_move` leaves it: at `dst`, its mobility lowered by the distance. */
  function Walked(w: World, p: Pos, dst: Pos): General
    requires 0 <= p.x < |w.board| && 0 <= p.y < |w.board[p.x]|
    requires w.board[p.x][p.y].gen.Some? && GeneralIndex(w.generals, w.board[p.x][p.y].gen.value) >= 0
  {
    var g := w.generals[GeneralIndex(w.generals, w.board[p.x][p.y].gen.value)];
    g.(pos := dst, restMove := g.restMove - Manhattan(p, dst))
  }

  /**
   * `general_move`: the general on `p` goes to `dst`, spending the Manhattan
   * distance of its mobility, and `p` is left without a general. The general
   * object the cell holds is the one listed under its id.
   */
  function GeneralMoveWorld(w: World, p: Pos, dst: Pos): World
    requires 0 <= p.x < |w.board| && 0 <= p.y < |w.board[p.x]| && 0 <= dst.x < |w.board| && 0 <= dst.y < |w.board[dst.x]|
    requires w.board[p.x][p.y].gen.Some? && GeneralIndex(w.generals, w.board[p.x][p.y].gen.value) >= 0
  {
    Relocated(w, p, dst, Walked(w, p, dst))
  }

  /**
   * Onto a free cell the general arrives whole: the destination names it, the
   * origin is empty, its list entry sits at the destination with its
   * mobility lowered by the distance and everything else as it was, and no
   * other cell or general changes.
   */
  lemma GeneralMoveEffect(cfg: Config, w: World, p: Pos, dst: Pos)
    requires WorldOk(cfg, w) && InBounds(cfg, p) && InBounds(cfg, dst) && p != dst
    requires w.board[p.x][p.y].gen.Some?
    ensures var w' := GeneralMoveWorld(w, p, dst);
      var id := w.board[p.x][p.y].gen.value;
      var k := GeneralIndex(w.generals, id);
      0 <= k < |w.generals| && w.generals[k].pos == p && |w'.generals| == |w.generals| &&
      w'.board[dst.x][dst.y] == w.board[dst.x][dst.y].(gen := Some(id)) &&
      w'.board[p.x][p.y] == w.board[p.x][p.y].(gen := None) &&
      w'.generals[k] == w.generals[k].(pos := dst, restMove := w.generals[k].restMove - Manhattan(p, dst)) &&
      (forall m :: 0 <= m < |w.generals| && m != k ==> w'.generals[m] == w.generals[m]) &&
      (forall i, j :: 0 <= i < cfg.rows && 0 <= j < cfg.cols && Pos(i, j) != p && Pos(i, j) != dst ==>
        w'.board[i][j] == w.board[i][j]) &&
      w'.weapons == w.weapons && w'.coin == w.coin && w'.restMoveStep == w.restMoveStep && w'.nextId == w.nextId
  {
    RelocatedEffect(cfg, w, p, dst, Walked(w, p, dst));
  }

  /** Moving a general onto a cell without one keeps the invariant. */
  lemma GeneralMoveKeepsInvariant(cfg: Config, w: World, p: Pos, dst: Pos)
    requires WorldOk(cfg, w) && InBounds(cfg, p) && InBounds(cfg, dst) && p != dst
    requires w.board[p.x][p.y].gen.Some? && w.board[dst.x][dst.y].gen.None?
    ensures WorldOk(cfg, GeneralMoveWorld(w, p, dst))
  {
    GenAtHere(cfg, w, p);
    RelocatedKeepsInvariant(cfg, w, p, dst, Walked(w, p, dst));
  }

  /**
   * The general on `p` moved to `dst` on the state: the destination takes
   * the reference, the list entry becomes `g`, the origin is cleared.
   */
  method Relocate(s: GameState, p: Pos, dst: Pos, g: General)
    requires s.Valid() && Relocatable(s.cfg, s.Model(), p, dst, g)
    modifies s
    ensures s.Valid() && s.Model() == Relocated(old(s.Model()), p, dst, g)
  {
    ghost var w := s.Model();
    var id := s.board[p.x][p.y].gen.value;
    var k := GeneralIndex(s.generals, id);
    s.board := SetCell(s.board, dst, s.board[dst.x][dst.y].(gen := Some(id)));
    s.generals := s.generals[k := g];
    s.board := SetCell(s.board, p, s.board[p.x][p.y].(gen := None));
    assert s.Model() == Relocated(w, p, dst, g);
    RelocatedKeepsInvariant(s.cfg, w, p, dst, g);
  }

  /** `general_move` on the state, for a move whose parameters are legal. */
  method GeneralMove(s: GameState, p: Pos, player: int, dst: Pos) returns (ok: bool)
    requires s.Valid() && InBounds(s.cfg, p) && InBounds(s.cfg, dst) && p != dst
    requires s.board[p.x][p.y].gen.Some? && s.board[dst.x][dst.y].gen.None?
    modifies s
    ensures ok && s.Valid() && s.Model() == GeneralMoveWorld(old(s.Model()), p, dst)
  {
    ghost var w := s.Model();
    GenAtHere(s.cfg, w, p);
    var g := s.generals[GeneralIndex(s.generals, s.board[p.x][p.y].gen.value)];
    Relocate(s, p, dst, g.(pos := dst, restMove := g.restMove - Manhattan(p, dst)));
    ok := true;
  }

  // ---------------------------------------------------------------------
  // check_general_movement (logic/movement.py:146-220)

  /** The neighbour order of the search: up, down, left, right. */
  const Around: seq<Direction> := [Up, Down, Left, Right]

  predicate Adjacent(u: Pos, c: Pos)
  {
    Manhattan(u, c) == 1
  }

  /**
   * A cell a general may pass through or stop on: on the board, not a
   * mountain unless the player can climb, owned by the player, and without a
   * general.
   */
  predicate Passable(cfg: Config, board: Board, climb: bool, player: int, c: Pos)
    requires Shaped(cfg, board)
  {
    InBounds(cfg, c) && !(board[c.x][c.y].terrain == Mountain && !climb) &&
    board[c.x][c.y].owner == player && board[c.x][c.y].gen.None?
  }

  /**
   * `c` is at most `k` orthogonal steps from `src` along passable cells
   * (`src` itself need not be passable). A negative `k` reaches nothing.
   */
  ghost predicate InReach(cfg: Config, board: Board, climb: bool, player: int, src: Pos, c: Pos, k: int)
    requires Shaped(cfg, board)
    decreases k
  {
    k >= 0 &&
    (c == src ||
     (k > 0 && Passable(cfg, board, climb, player, c) &&
      exists u :: Adjacent(u, c) && InReach(cfg, board, climb, player, src, u, k - 1)))
  }

  /** More steps reach at least as far. */
  lemma {:induction false} ReachMonotone(cfg: Config, board: Board, climb: bool, player: int, src: Pos, c: Pos, k: int, k': int)
    requires Shaped(cfg, board) && InReach(cfg, board, climb, player, src, c, k) && k <= k'
    ensures InReach(cfg, board, climb, player, src, c, k')
    decreases k
  {
    if c != src {
      var u :| Adjacent(u, c) && InReach(cfg, board, climb, player, src, u, k - 1);
      ReachMonotone(cfg, board, climb, player, src, u, k - 1, k' - 1);
    }
  }

  /** A cell within `k` steps is no farther than `k` from the start as the crow flies on the grid. */
  lemma {:induction false} ReachWithinManhattan(cfg: Config, board: Board, climb: bool, player: int, src: Pos, c: Pos, k: int)
    requires Shaped(cfg, board) && InReach(cfg, board, climb, player, src, c, k)
    ensures Manhattan(src, c) <= k
    decreases k
  {
    if c != src {
      var u :| Adjacent(u, c) && InReach(cfg, board, climb, player, src, u, k - 1);
      ReachWithinManhattan(cfg, board, climb, player, src, u, k - 1);
    }
  }

  /** One passable step past a cell within `k` steps is within `k + 1`. */
  lemma ReachStep(cfg: Config, board: Board, climb: bool, player: int, src: Pos, u: Pos, c: Pos, k: int)
    requires Shaped(cfg, board) && InReach(cfg, board, climb, player, src, u, k)
    requires Adjacent(u, c) && Passable(cfg, board, climb, player, c)
    ensures InReach(cfg, board, climb, player, src, c, k + 1)
  {
  }

  /** The four directions of the search produce exactly the adjacent cells. */
  lemma AroundIsAdjacent(u: Pos, c: Pos)
    ensures Adjacent(u, c) <==> exists t :: 0 <= t < 4 && c == Step(u, Around[t])
  {
    if Adjacent(u, c) {
      if c.x < u.x {
        assert c == Step(u, Around[0]);
      } else if c.x > u.x {
        assert c == Step(u, Around[1]);
      } else if c.y < u.y {
        assert c == Step(u, Around[2]);
      } else {
        assert c == Step(u, Around[3]);
      }
    }
  }

  /** `c` is on the queue with a step count of at most `m`. */
  ghost predicate Listed(queue: seq<Pos>, steps: seq<nat>, c: Pos, m: int)
    requires |steps| == |queue|
  {
    exists j :: 0 <= j < |queue| && queue[j] == c && steps[j] <= m
  }

  /** The queue's fixed parts: the start first with 0 steps, one step count per entry, the grid of marks. */
  ghost predicate QueueShape(cfg: Config, src: Pos, queue: seq<Pos>, steps: seq<nat>, check: seq<seq<bool>>, head: int)
  {
    |steps| == |queue| >= 1 && 0 <= head <= |queue| && queue[0] == src && steps[0] == 0 &&
    |check| == cfg.rows && (forall i :: 0 <= i < cfg.rows ==> |check[i]| == cfg.cols)
  }

  /** Every queued cell is on the board, marked, and within its step count of the start. */
  ghost predicate QueueSound(cfg: Config, board: Board, climb: bool, player: int, src: Pos,
                             queue: seq<Pos>, steps: seq<nat>, check: seq<seq<bool>>)
    requires Shaped(cfg, board) && |steps| == |queue|
    requires |check| == cfg.rows && (forall i :: 0 <= i < cfg.rows ==> |check[i]| == cfg.cols)
  {
    forall k :: 0 <= k < |queue| ==>
      InBounds(cfg, queue[k]) && check[queue[k].x][queue[k].y] &&
      InReach(cfg, board, climb, player, src, queue[k], steps[k])
  }

  /** Step counts never decrease along the queue. */
  ghost predicate Ordered(steps: seq<nat>)
  {
    forall i, j :: 0 <= i <= j < |steps| ==> steps[i] <= steps[j]
  }

  /** A marked cell is queued, and `unseen` holds exactly the unmarked cells of the board. */
  ghost predicate Marked(cfg: Config, queue: seq<Pos>, check: seq<seq<bool>>, unseen: set<Pos>)
    requires |check| == cfg.rows && (forall i :: 0 <= i < cfg.rows ==> |check[i]| == cfg.cols)
  {
    (forall c :: InBounds(cfg, c) && check[c.x][c.y] ==> c in queue) &&
    (forall c :: c in unseen <==> InBounds(cfg, c) && !check[c.x][c.y])
  }

  /** Each passable neighbour of an expanded cell is queued with at most one step more. */
  ghost predicate Closed(cfg: Config, board: Board, climb: bool, player: int, queue: seq<Pos>, steps: seq<nat>, head: int)
    requires Shaped(cfg, board) && |steps| == |queue| && 0 <= head <= |queue|
  {
    forall i, c :: 0 <= i < head && Adjacent(queue[i], c) && Passable(cfg, board, climb, player, c) ==>
      Listed(queue, steps, c, steps[i] + 1)
  }

  /** The invariant of the search with `head` entries of the queue expanded. */
  ghost predicate Searching(cfg: Config, board: Board, climb: bool, player: int, src: Pos,
                            queue: seq<Pos>, steps: seq<nat>, check: seq<seq<bool>>, unseen: set<Pos>, head: int)
    requires Shaped(cfg, board)
  {
    QueueShape(cfg, src, queue, steps, check, head) &&
    QueueSound(cfg, board, climb, player, src, queue, steps, check) &&
    Ordered(steps) && Marked(cfg, queue, check, unseen) &&
    Closed(cfg, board, climb, player, queue, steps, head)
  }

  /** Appending to the queue keeps every cell that was listed. */
  lemma ListedGrows(queue: seq<Pos>, steps: seq<nat>, queue': seq<Pos>, steps': seq<nat>)
    requires Extends(queue, steps, queue', steps')
    ensures forall c, m :: Listed(queue, steps, c, m) ==> Listed(queue', steps', c, m)
  {
    forall c, m | Listed(queue, steps, c, m)
      ensures Listed(queue', steps', c, m)
    {
      var j :| 0 <= j < |queue| && queue[j] == c && steps[j] <= m;
      assert queue'[j] == c && steps'[j] == steps[j];
    }
  }

  /** Queuing an unmarked passable neighbour of the expanded cell keeps the invariant. */
  lemma Enqueue(cfg: Config, board: Board, climb: bool, player: int, src: Pos,
                queue: seq<Pos>, steps: seq<nat>, check: seq<seq<bool>>, unseen: set<Pos>, head: int, c: Pos)
    requires Shaped(cfg, board) && Searching(cfg, board, climb, player, src, queue, steps, check, unseen, head)
    requires head < |queue| && Adjacent(queue[head], c) && Passable(cfg, board, climb, player, c) && !check[c.x][c.y]
    requires forall j :: 0 <= j < |queue| ==> steps[j] <= steps[head] + 1
    ensures var queue', steps' := queue + [c], steps + [steps[head] + 1];
      Searching(cfg, board, climb, player, src, queue', steps', check[c.x := check[c.x][c.y := true]], unseen - {c}, head) &&
      Listed(queue', steps', c, steps[head] + 1)
  {
    var queue', steps', check' := queue + [c], steps + [steps[head] + 1], check[c.x := check[c.x][c.y := true]];
    assert Extends(queue, steps, queue', steps');
    assert queue'[|queue|] == c;
    ReachStep(cfg, board, climb, player, src, queue[head], c, steps[head]);
    EnqueueSound(cfg, board, climb, player, src, queue, steps, check, c, steps[head] + 1);
    EnqueueMarked(cfg, queue, check, unseen, c);
    EnqueueOrdered(steps, steps[head] + 1);
    EnqueueClosed(cfg, board, climb, player, queue, steps, head, c, steps[head] + 1);
  }

  lemma EnqueueOrdered(steps: seq<nat>, m: nat)
    requires Ordered(steps) && forall j :: 0 <= j < |steps| ==> steps[j] <= m
    ensures Ordered(steps + [m])
  {
  }

  lemma EnqueueMarked(cfg: Config, queue: seq<Pos>, check: seq<seq<bool>>, unseen: set<Pos>, c: Pos)
    requires |check| == cfg.rows && (forall i :: 0 <= i < cfg.rows ==> |check[i]| == cfg.cols) && InBounds(cfg, c)
    requires Marked(cfg, queue, check, unseen)
    ensures Marked(cfg, queue + [c], check[c.x := check[c.x][c.y := true]], unseen - {c})
  {
    var check' := check[c.x := check[c.x][c.y := true]];
    forall c' | InBounds(cfg, c') && check'[c'.x][c'.y]
      ensures c' in queue + [c]
    {
      if c' != c {
        assert check[c'.x][c'.y];
      }
    }
  }

  lemma EnqueueSound(cfg: Config, board: Board, climb: bool, player: int, src: Pos,
                     queue: seq<Pos>, steps: seq<nat>, check: seq<seq<bool>>, c: Pos, m: nat)
    requires Shaped(cfg, board) && |steps| == |queue| && InBounds(cfg, c)
    requires |check| == cfg.rows && (forall i :: 0 <= i < cfg.rows ==> |check[i]| == cfg.cols)
    requires QueueSound(cfg, board, climb, player, src, queue, steps, check)
    requires InReach(cfg, board, climb, player, src, c, m)
    ensures QueueSound(cfg, board, climb, player, src, queue + [c], steps + [m], check[c.x := check[c.x][c.y := true]])
  {
    var queue', steps', check' := queue + [c], steps + [m], check[c.x := check[c.x][c.y := true]];
    forall k | 0 <= k < |queue'|
      ensures InBounds(cfg, queue'[k]) && check'[queue'[k].x][queue'[k].y]
      ensures InReach(cfg, board, climb, player, src, queue'[k], steps'[k])
    {
      if k < |queue| {
        assert queue'[k] == queue[k] && steps'[k] == steps[k];
      }
    }
  }

  lemma EnqueueClosed(cfg: Config, board: Board, climb: bool, player: int, queue: seq<Pos>, steps: seq<nat>, head: int,
                      c: Pos, m: nat)
    requires Shaped(cfg, board) && |steps| == |queue| && 0 <= head <= |queue|
    requires Closed(cfg, board, climb, player, queue, steps, head)
    ensures Closed(cfg, board, climb, player, queue + [c], steps + [m], head)
  {
    var queue', steps' := queue + [c], steps + [m];
    assert Extends(queue, steps, queue', steps');
    ListedGrows(queue, steps, queue', steps');
    forall i, c' | 0 <= i < head && Adjacent(queue'[i], c') && Passable(cfg, board, climb, player, c')
      ensures Listed(queue', steps', c', steps'[i] + 1)
    {
      assert queue'[i] == queue[i] && steps'[i] == steps[i];
    }
  }

  /**
   * One neighbour `c` of the expanded cell `queue[head]`, with the skips of
   * lines 199-212 in their order: off the board, already marked, an
   * unclimbable mountain, not the player's or holding a general. Otherwise it
   * is queued and marked with one step more.
   */
  method Visit(cfg: Config, board: Board, climb: bool, player: int, ghost src: Pos,
               queue: seq<Pos>, steps: seq<nat>, check: seq<seq<bool>>, ghost unseen: set<Pos>, head: int, c: Pos)
    returns (queue': seq<Pos>, steps': seq<nat>, check': seq<seq<bool>>, ghost unseen': set<Pos>)
    requires Shaped(cfg, board) && Searching(cfg, board, climb, player, src, queue, steps, check, unseen, head)
    requires head < |queue| && Adjacent(queue[head], c)
    requires forall j :: 0 <= j < |queue| ==> steps[j] <= steps[head] + 1
    ensures Searching(cfg, board, climb, player, src, queue', steps', check', unseen', head)
    ensures Extends(queue, steps, queue', steps')
    ensures forall j :: 0 <= j < |queue'| ==> steps'[j] <= steps[head] + 1
    ensures Passable(cfg, board, climb, player, c) ==> Listed(queue', steps', c, steps[head] + 1)
    ensures unseen' <= unseen && |queue'| - |queue| == |unseen| - |unseen'|
  {
    queue', steps', check', unseen' := queue, steps, check, unseen;
    if !(0 <= c.x < cfg.rows && 0 <= c.y < cfg.cols) || check[c.x][c.y] {
      if Passable(cfg, board, climb, player, c) {
        var j :| 0 <= j < |queue| && queue[j] == c;
      }
      return;
    }
    if board[c.x][c.y].terrain == Mountain && !climb {
      return;
    }
    if board[c.x][c.y].owner != player || board[c.x][c.y].gen.Some? {
      return;
    }
    Enqueue(cfg, board, climb, player, src, queue, steps, check, unseen, head, c);
    queue' := queue + [c];
    steps' := steps + [steps[head] + 1];
    check' := check[c.x := check[c.x][c.y := true]];
    unseen' := unseen - {c};
  }

  /** Every neighbour the search visits is adjacent to the cell it expands. */
  lemma StepIsAdjacent(u: Pos, d: Direction)
    ensures Adjacent(u, Step(u, d))
  {
  }

  /** With all four neighbours of `queue[head]` visited, the head counts as expanded. */
  lemma CloseHead(cfg: Config, board: Board, climb: bool, player: int, src: Pos,
                  queue: seq<Pos>, steps: seq<nat>, check: seq<seq<bool>>, unseen: set<Pos>, head: int)
    requires Shaped(cfg, board) && Searching(cfg, board, climb, player, src, queue, steps, check, unseen, head)
    requires head < |queue|
    requires forall t :: 0 <= t < 4 && Passable(cfg, board, climb, player, Step(queue[head], Around[t])) ==>
      Listed(queue, steps, Step(queue[head], Around[t]), steps[head] + 1)
    ensures Searching(cfg, board, climb, player, src, queue, steps, check, unseen, head + 1)
  {
    forall i, c | 0 <= i < head + 1 && Adjacent(queue[i], c) && Passable(cfg, board, climb, player, c)
      ensures Listed(queue, steps, c, steps[i] + 1)
    {
      if i == head {
        AroundIsAdjacent(queue[head], c);
      }
    }
  }

  /** `queue'` and `steps'` start with `queue` and `steps`. */
  ghost predicate Extends(queue: seq<Pos>, steps: seq<nat>, queue': seq<Pos>, steps': seq<nat>)
  {
    |steps| == |queue| <= |queue'| == |steps'| &&
    forall j :: 0 <= j < |queue| ==> queue'[j] == queue[j] && steps'[j] == steps[j]
  }

  /**
   * The loop of lines 196-213 after `t` of the four directions: the search
   * invariant holds, the queue only grew, no step count exceeds one more than
   * the head's, every cell queued was taken from `unseen`, and each passable
   * neighbour in the first `t` directions is queued.
   */
  ghost predicate Expanding(cfg: Config, board: Board, climb: bool, player: int, src: Pos,
                            queue: seq<Pos>, steps: seq<nat>, unseen: set<Pos>, head: int,
                            queue': seq<Pos>, steps': seq<nat>, check': seq<seq<bool>>, unseen': set<Pos>, t: int)
    requires Shaped(cfg, board)
  {
    0 <= head < |queue| && |steps| == |queue| && 0 <= t <= 4 &&
    Searching(cfg, board, climb, player, src, queue', steps', check', unseen', head) &&
    Extends(queue, steps, queue', steps') &&
    (forall j :: 0 <= j < |queue'| ==> steps'[j] <= steps[head] + 1) &&
    unseen' <= unseen && |queue'| - |queue| == |unseen| - |unseen'| &&
    (forall t' :: 0 <= t' < t && Passable(cfg, board, climb, player, Step(queue[head], Around[t'])) ==>
      Listed(queue', steps', Step(queue[head], Around[t']), steps[head] + 1))
  }

  /** One pass of the direction loop: the neighbour in direction `Around[t]`. */
  method VisitAround(cfg: Config, board: Board, climb: bool, player: int, ghost src: Pos,
                     ghost queue: seq<Pos>, ghost steps: seq<nat>, ghost unseen: set<Pos>, head: int,
                     queue': seq<Pos>, steps': seq<nat>, check': seq<seq<bool>>, ghost unseen': set<Pos>, t: int)
    returns (queue'': seq<Pos>, steps'': seq<nat>, check'': seq<seq<bool>>, ghost unseen'': set<Pos>)
    requires Shaped(cfg, board) && 0 <= t < 4
    requires Expanding(cfg, board, climb, player, src, queue, steps, unseen, head, queue', steps', check', unseen', t)
    ensures Expanding(cfg, board, climb, player, src, queue, steps, unseen, head, queue'', steps'', check'', unseen'', t + 1)
  {
    var u := queue'[head];
    var c := Step(u, Around[t]);
    StepIsAdjacent(u, Around[t]);
    queue'', steps'', check'', unseen'' := Visit(cfg, board, climb, player, src, queue', steps', check', unseen', head, c);
    Visited(cfg, board, climb, player, src, queue, steps, unseen, head, queue', steps', check', unseen', t,
            queue'', steps'', check'', unseen'');
  }

  /** `Extends` is transitive. */
  lemma ExtendsTrans(q1: seq<Pos>, s1: seq<nat>, q2: seq<Pos>, s2: seq<nat>, q3: seq<Pos>, s3: seq<nat>)
    requires Extends(q1, s1, q2, s2) && Extends(q2, s2, q3, s3)
    ensures Extends(q1, s1, q3, s3)
  {
  }

  /** The direction `Around[t]` visited: the loop invariant moves on to `t + 1`. */
  lemma Visited(cfg: Config, board: Board, climb: bool, player: int, src: Pos,
                queue: seq<Pos>, steps: seq<nat>, unseen: set<Pos>, head: int,
                queue': seq<Pos>, steps': seq<nat>, check': seq<seq<bool>>, unseen': set<Pos>, t: int,
                queue'': seq<Pos>, steps'': seq<nat>, check'': seq<seq<bool>>, unseen'': set<Pos>)
    requires Shaped(cfg, board) && 0 <= t < 4
    requires Expanding(cfg, board, climb, player, src, queue, steps, unseen, head, queue', steps', check', unseen', t)
    requires Searching(cfg, board, climb, player, src, queue'', steps'', check'', unseen'', head)
    requires Extends(queue', steps', queue'', steps'')
    requires forall j :: 0 <= j < |queue''| ==> steps''[j] <= steps'[head] + 1
    requires Passable(cfg, board, climb, player, Step(queue'[head], Around[t])) ==>
      Listed(queue'', steps'', Step(queue'[head], Around[t]), steps'[head] + 1)
    requires unseen'' <= unseen' && |queue''| - |queue'| == |unseen'| - |unseen''|
    ensures Expanding(cfg, board, climb, player, src, queue, steps, unseen, head, queue'', steps'', check'', unseen'', t + 1)
  {
    ExtendsTrans(queue, steps, queue', steps', queue'', steps'');
    ListedGrows(queue', steps', queue'', steps'');
    assert queue'[head] == queue[head] && steps'[head] == steps[head];
  }

  /** Lines 196-213: the four neighbours of `queue[head]`, in the order up, down, left, right. */
  method Expand(cfg: Config, board: Board, climb: bool, player: int, ghost src: Pos,
                queue: seq<Pos>, steps: seq<nat>, check: seq<seq<bool>>, ghost unseen: set<Pos>, head: int)
    returns (queue': seq<Pos>, steps': seq<nat>, check': seq<seq<bool>>, ghost unseen': set<Pos>)
    requires Shaped(cfg, board) && Searching(cfg, board, climb, player, src, queue, steps, check, unseen, head)
    requires head < |queue|
    requires forall j :: 0 <= j < |queue| ==> steps[j] <= steps[head] + 1
    ensures Searching(cfg, board, climb, player, src, queue', steps', check', unseen', head + 1)
    ensures Extends(queue, steps, queue', steps')
    ensures forall j :: 0 <= j < |queue'| ==> steps'[j] <= steps[head] + 1
    ensures unseen' <= unseen && |queue'| - |queue| == |unseen| - |unseen'|
  {
    queue', steps', check', unseen' := queue, steps, check, unseen;
    for t := 0 to 4
      invariant Expanding(cfg, board, climb, player, src, queue, steps, unseen, head, queue', steps', check', unseen', t)
    {
      queue', steps', check', unseen' := VisitAround(cfg, board, climb, player, src, queue, steps, unseen, head,
                                                     queue', steps', check', unseen', t);
    }
    CloseHead(cfg, board, climb, player, src, queue', steps', check', unseen', head);
  }

  /**
   * What the search has seen when it stops: every cell within `m` steps of
   * the start is among the expanded entries with at most `m` steps, provided
   * the queue is exhausted or its next entry lies beyond `m`.
   */
  lemma {:induction false} Explored(cfg: Config, board: Board, climb: bool, player: int, src: Pos,
                                    queue: seq<Pos>, steps: seq<nat>, check: seq<seq<bool>>, unseen: set<Pos>, head: int,
                                    c: Pos, m: int)
    requires Shaped(cfg, board) && Searching(cfg, board, climb, player, src, queue, steps, check, unseen, head)
    requires InReach(cfg, board, climb, player, src, c, m)
    requires head == |queue| || m < steps[head]
    ensures exists j :: 0 <= j < head && queue[j] == c && steps[j] <= m
    decreases m
  {
    if c == src {
      assert queue[0] == c && steps[0] <= m;
      assert head != 0;
    } else {
      var u :| Adjacent(u, c) && InReach(cfg, board, climb, player, src, u, m - 1);
      Explored(cfg, board, climb, player, src, queue, steps, check, unseen, head, u, m - 1);
      var i :| 0 <= i < head && queue[i] == u && steps[i] <= m - 1;
      assert Listed(queue, steps, c, steps[i] + 1);
      var j :| 0 <= j < |queue| && queue[j] == c && steps[j] <= steps[i] + 1;
      assert j < head;
    }
  }

  /**
   * The invariant of the search loop: the search invariant, no step count
   * more than one past the last expanded entry's, and no expanded entry is
   * the destination.
   */
  ghost predicate Progress(cfg: Config, board: Board, climb: bool, player: int, src: Pos, dst: Pos,
                           queue: seq<Pos>, steps: seq<nat>, check: seq<seq<bool>>, unseen: set<Pos>, head: int)
    requires Shaped(cfg, board)
  {
    Searching(cfg, board, climb, player, src, queue, steps, check, unseen, head) &&
    (forall j :: 0 <= j < |queue| ==> steps[j] <= if head == 0 then 0 else steps[head - 1] + 1) &&
    (forall i :: 0 <= i < head ==> queue[i] != dst)
  }

  /** Lines 183-189: the start alone on the queue, marked, every other cell unseen. */
  lemma Started(cfg: Config, board: Board, climb: bool, player: int, src: Pos, dst: Pos,
                check: seq<seq<bool>>, unseen: set<Pos>)
    requires Shaped(cfg, board) && InBounds(cfg, src)
    requires |check| == cfg.rows && forall i :: 0 <= i < cfg.rows ==> |check[i]| == cfg.cols
    requires forall i, j :: 0 <= i < cfg.rows && 0 <= j < cfg.cols ==> (check[i][j] <==> Pos(i, j) == src)
    requires unseen == set i, j | 0 <= i < cfg.rows && 0 <= j < cfg.cols && Pos(i, j) != src :: Pos(i, j)
    ensures Progress(cfg, board, climb, player, src, dst, [src], [0], check, unseen, 0)
  {
    assert forall c :: InBounds(cfg, c) && c != src ==> c == Pos(c.x, c.y) && c in unseen;
    assert InReach(cfg, board, climb, player, src, src, 0);
  }

  /** The head expanded and not the destination: the loop invariant moves on to `head + 1`. */
  lemma Advanced(cfg: Config, board: Board, climb: bool, player: int, src: Pos, dst: Pos,
                 queue: seq<Pos>, steps: seq<nat>, check: seq<seq<bool>>, unseen: set<Pos>, head: int,
                 queue': seq<Pos>, steps': seq<nat>, check': seq<seq<bool>>, unseen': set<Pos>)
    requires Shaped(cfg, board) && Progress(cfg, board, climb, player, src, dst, queue, steps, check, unseen, head)
    requires head < |queue| && queue[head] != dst
    requires Searching(cfg, board, climb, player, src, queue', steps', check', unseen', head + 1)
    requires Extends(queue, steps, queue', steps')
    requires forall j :: 0 <= j < |queue'| ==> steps'[j] <= steps[head] + 1
    ensures Progress(cfg, board, climb, player, src, dst, queue', steps', check', unseen', head + 1)
  {
    assert queue'[head] == queue[head] && steps'[head] == steps[head];
  }

  /** Before expanding the head, no step count exceeds the head's by more than one. */
  lemma HeadSpread(cfg: Config, board: Board, climb: bool, player: int, src: Pos, dst: Pos,
                   queue: seq<Pos>, steps: seq<nat>, check: seq<seq<bool>>, unseen: set<Pos>, head: int)
    requires Shaped(cfg, board) && Progress(cfg, board, climb, player, src, dst, queue, steps, check, unseen, head)
    requires head < |queue|
    ensures forall j :: 0 <= j < |queue| ==> steps[j] <= steps[head] + 1
  {
    if head > 0 {
      assert steps[head - 1] <= steps[head];
    }
  }

  /**
   * The breadth-first search of lines 180-220: `found` exactly when `dst` is
   * within `rest` steps of `src` along passable cells. Entries come off the
   * queue in order of their step counts, so the first one beyond `rest` ends
   * the search.
   */
  method Search(cfg: Config, board: Board, climb: bool, player: int, src: Pos, dst: Pos, rest: int) returns (found: bool)
    requires Shaped(cfg, board) && InBounds(cfg, src)
    ensures found == InReach(cfg, board, climb, player, src, dst, rest)
  {
    var queue := [src];
    var steps: seq<nat> := [0];
    var check := seq(cfg.rows, i => seq(cfg.cols, j => false));
    check := check[src.x := check[src.x][src.y := true]];
    ghost var unseen := set i, j | 0 <= i < cfg.rows && 0 <= j < cfg.cols && Pos(i, j) != src :: Pos(i, j);
    Started(cfg, board, climb, player, src, dst, check, unseen);
    var head := 0;
    while head < |queue|
      invariant Progress(cfg, board, climb, player, src, dst, queue, steps, check, unseen, head)
      decreases 2 * |unseen| + |queue| - head
    {
      if steps[head] > rest {
        break;
      }
      if queue[head] == dst {
        ReachMonotone(cfg, board, climb, player, src, dst, steps[head], rest);
        return true;
      }
      HeadSpread(cfg, board, climb, player, src, dst, queue, steps, check, unseen, head);
      ghost var queue0, steps0, check0, unseen0 := queue, steps, check, unseen;
      queue, steps, check, unseen := Expand(cfg, board, climb, player, src, queue, steps, check, unseen, head);
      Advanced(cfg, board, climb, player, src, dst, queue0, steps0, check0, unseen0, head, queue, steps, check, unseen);
      head := head + 1;
    }
    if InReach(cfg, board, climb, player, src, dst, rest) {
      Explored(cfg, board, climb, player, src, queue, steps, check, unseen, head, dst, rest);
    }
    return false;
  }

  /**
   * `check_general_movement`: the origin on the board, a player 0 or 1, a
   * destination without a general, an origin the player owns with a general
   * on it that no weapon stuns, and the destination within that general's
   * remaining mobility along passable cells.
   */
  ghost predicate GeneralMoveAllowed(cfg: Config, w: World, p: Pos, player: int, dst: Pos)
    requires WorldOk(cfg, w) && InBounds(cfg, dst)
  {
    InBounds(cfg, p) && (player == 0 || player == 1) && w.board[dst.x][dst.y].gen.None? &&
    w.board[p.x][p.y].owner == player && w.board[p.x][p.y].gen.Some? &&
    !Stunned(w.weapons, p, player) &&
    match GenAt(w.board, w.generals, p)
    case Some(g) => InReach(cfg, w.board, w.tech[player][1] != 0, player, p, dst, g.restMove)
    case None => false
  }

  /** `check_general_movement` on the state. */
  method CheckGeneralMovement(s: GameState, p: Pos, player: int, dst: Pos) returns (ok: bool)
    requires s.Valid() && InBounds(s.cfg, dst)
    ensures ok == GeneralMoveAllowed(s.cfg, s.Model(), p, player, dst)
  {
    if !(0 <= p.x < s.cfg.rows && 0 <= p.y < s.cfg.cols) || (player != 0 && player != 1) {
      return false;
    }
    if s.board[dst.x][dst.y].gen.Some? {
      return false;
    }
    if s.board[p.x][p.y].owner != player || s.board[p.x][p.y].gen.None? {
      return false;
    }
    var stunned := IsStunned(s.activeWeapons, p, player);
    if stunned {
      return false;
    }
    GenAtHere(s.cfg, s.Model(), p);
    var g := GenAt(s.board, s.generals, p).value;
    ok := Search(s.cfg, s.board, s.techLevel[player][1] != 0, player, p, dst, g.restMove);
  }

  /**
   * A move the check allows goes to a different cell the player owns, and
   * `general_move` then leaves the general with non-negative mobility, since
   * a path of at most `rest_move` steps is at least as long as the Manhattan
   * distance it charges.
   */
  lemma CheckedMoveAffordable(cfg: Config, w: World, p: Pos, player: int, dst: Pos)
    requires WorldOk(cfg, w) && InBounds(cfg, dst) && GeneralMoveAllowed(cfg, w, p, player, dst)
    ensures p != dst && w.board[dst.x][dst.y].owner == player
    ensures var k := GeneralIndex(w.generals, w.board[p.x][p.y].gen.value);
      0 <= k < |w.generals| && GeneralMoveWorld(w, p, dst).generals[k].restMove >= 0
  {
    GenAtHere(cfg, w, p);
    var g := GenAt(w.board, w.generals, p).value;
    ReachWithinManhattan(cfg, w.board, w.tech[player][1] != 0, player, p, dst, g.restMove);
    GeneralMoveEffect(cfg, w, p, dst);
  }
}
