/**
 * The mutable game state of logic/gamestate.py: the `GameState` record that
 * every rule reads and writes, the lookup of a general's position by id, and
 * `update_round`, the bookkeeping run between rounds.
 *
 * The state is described twice. `World` is its value (one field per field of
 * the Python dataclass that the rules use); `GameState` is the object the rules
 * mutate in place, and `Model()` reads its value. Every rule in the other
 * modules is a function on `World` (what it does) and a method on `GameState`
 * (how the source does it), tied by the method's postcondition.
 */
module Gamestate {
  import opened GameData

  type Pair = s: seq<int> | |s| == 2 witness [0, 0]
  type Flags = s: seq<bool> | |s| == 2 witness [false, false]
  /** Per player: army-movement level, mountaineering, swamp immunity, super weapon. */
  type TechTable = s: seq<seq<int>> | |s| == 2 && |s[0]| == 4 && |s[1]| == 4 witness [[0, 0, 0, 0], [0, 0, 0, 0]]

  datatype World = World(
    round: int,
    generals: seq<General>,
    coin: Pair,
    weapons: seq<Weapon>,
    unlocked: Flags,
    weaponCd: Pair,
    tech: TechTable,
    restMoveStep: Pair,
    board: Board,
    nextId: nat,
    winner: int)

  /** What a rule returns: the Python boolean and the state it leaves behind. */
  datatype Outcome = Outcome(ok: bool, world: World)

  /** The fresh-SubGenerals template must be a general the invariant admits. */
  ghost predicate ConfigOk(cfg: Config)
  {
    cfg.subTemplate.produce >= 0 && cfg.subTemplate.defence > 0.0
  }

  ghost predicate GeneralOk(cfg: Config, g: General, nextId: nat)
  {
    g.id < nextId && -1 <= g.player <= 1 && g.produce >= 0 && g.defence > 0.0 && InBounds(cfg, g.pos)
  }

  ghost predicate OwnersOk(b: Board)
  {
    forall i, j :: 0 <= i < |b| && 0 <= j < |b[i]| ==> -1 <= b[i][j].owner <= 1
  }

  ghost predicate UniqueIds(gs: seq<General>)
  {
    forall k1, k2 :: 0 <= k1 < |gs| && 0 <= k2 < |gs| && gs[k1].id == gs[k2].id ==> k1 == k2
  }

  /** Every listed general stands on the board cell its position names. */
  ghost predicate Placed(b: Board, gs: seq<General>)
  {
    forall k :: 0 <= k < |gs| ==>
      0 <= gs[k].pos.x < |b| && 0 <= gs[k].pos.y < |b[gs[k].pos.x]| &&
      b[gs[k].pos.x][gs[k].pos.y].gen == Some(gs[k].id)
  }

  /** Every general a cell refers to is listed, with that cell as its position. */
  ghost predicate Linked(b: Board, gs: seq<General>)
  {
    forall i, j :: 0 <= i < |b| && 0 <= j < |b[i]| && b[i][j].gen.Some? ==>
      GeneralIndex(gs, b[i][j].gen.value) >= 0 &&
      gs[GeneralIndex(gs, b[i][j].gen.value)].pos == Pos(i, j)
  }

  /**
   * The invariant every rule keeps. In the source a cell holds the general
   * object itself and `generals` lists the same objects, so a general is on
   * exactly one cell and a cell holds at most one general: `Placed`, `Linked`
   * and `UniqueIds` say this of ids. Weapons are only ever fired at checked
   * coordinates.
   */
  ghost predicate WorldOk(cfg: Config, w: World)
  {
    Shaped(cfg, w.board) && OwnersOk(w.board) &&
    (forall k :: 0 <= k < |w.generals| ==> GeneralOk(cfg, w.generals[k], w.nextId)) &&
    UniqueIds(w.generals) && Placed(w.board, w.generals) && Linked(w.board, w.generals) &&
    (forall k :: 0 <= k < |w.weapons| ==> InBounds(cfg, w.weapons[k].pos))
  }

  /** The defaults of the dataclass for everything the caller does not pass. */
  function Initial(board: Board, generals: seq<General>, coin: Pair, nextId: nat): World
  {
    World(1, generals, coin, [], [false, false], [-1, -1], [[2, 0, 0, 0], [2, 0, 0, 0]], [2, 2],
          board, nextId, -1)
  }

  /** The id lookup only depends on the ids, position by position. */
  lemma SameIdsSameIndex(a: seq<General>, b: seq<General>, id: int)
    requires |a| == |b|
    requires forall k :: 0 <= k < |a| ==> a[k].id == b[k].id
    ensures GeneralIndex(a, id) == GeneralIndex(b, id)
  {
    var ra, rb := GeneralIndex(a, id), GeneralIndex(b, id);
    if ra >= 0 { assert b[ra].id == id; }
    if rb >= 0 { assert a[rb].id == id; }
  }

  /** With unique ids, the lookup of a listed general's id finds that general. */
  lemma IndexOfListed(w: World, k: int)
    requires UniqueIds(w.generals) && 0 <= k < |w.generals|
    ensures GeneralIndex(w.generals, w.generals[k].id) == k
  {
    var r := GeneralIndex(w.generals, w.generals[k].id);
    assert r >= 0;
  }

  /** The general a cell refers to, under the invariant, stands on that cell. */
  lemma GenAtHere(cfg: Config, w: World, p: Pos)
    requires WorldOk(cfg, w) && InBounds(cfg, p)
    ensures GenAt(w.board, w.generals, p).Some? <==> w.board[p.x][p.y].gen.Some?
    ensures GenAt(w.board, w.generals, p).Some? ==>
      GenAt(w.board, w.generals, p).value.pos == p &&
      Some(GenAt(w.board, w.generals, p).value.id) == w.board[p.x][p.y].gen &&
      GeneralOk(cfg, GenAt(w.board, w.generals, p).value, w.nextId)
  {
  }

  /**
   * The invariant survives any change that keeps the board's shape, its
   * owners in range, every cell's general reference, and every general's id
   * and position, and leaves each general admissible.
   */
  lemma WorldOkFrame(cfg: Config, w: World, w': World)
    requires WorldOk(cfg, w)
    requires Shaped(cfg, w'.board) && OwnersOk(w'.board)
    requires forall i, j :: 0 <= i < |w.board| && 0 <= j < |w.board[i]| ==> w'.board[i][j].gen == w.board[i][j].gen
    requires |w'.generals| == |w.generals|
    requires forall k :: 0 <= k < |w.generals| ==>
      w'.generals[k].id == w.generals[k].id && w'.generals[k].pos == w.generals[k].pos &&
      GeneralOk(cfg, w'.generals[k], w'.nextId)
    requires forall k :: 0 <= k < |w'.weapons| ==> InBounds(cfg, w'.weapons[k].pos)
    ensures WorldOk(cfg, w')
  {
    forall id: int {
      SameIdsSameIndex(w.generals, w'.generals, id);
    }
  }

  /**
   * The game state object. `replay_file` and `changed_cells` only serve the
   * replay log and are not part of this model.
   */
  class GameState {
    const cfg: Config
    var round: int
    var generals: seq<General>
    var coin: Pair
    var activeWeapons: seq<Weapon>
    var weaponUnlocked: Flags
    var weaponCd: Pair
    var techLevel: TechTable
    var restMoveStep: Pair
    var board: Board
    var nextId: nat
    var winner: int

    ghost function Model(): World
      reads this
    {
      World(round, generals, coin, activeWeapons, weaponUnlocked, weaponCd, techLevel, restMoveStep,
            board, nextId, winner)
    }

    ghost predicate Valid()
      reads this
    {
      ConfigOk(cfg) && WorldOk(cfg, Model())
    }

    /**
     * A state with the dataclass defaults: round 1, no weapons, super weapons
     * locked with cooldown -1, tech [2, 0, 0, 0] for both players, two army
     * moves per round and no winner. The board, generals and coins are the
     * caller's (the source fills them with `init_generals` and `init_coin`).
     */
    constructor (cfg: Config, board: Board, generals: seq<General>, coin: Pair, nextId: nat)
      requires ConfigOk(cfg) && WorldOk(cfg, Initial(board, generals, coin, nextId))
      ensures Valid() && Model() == Initial(board, generals, coin, nextId) && this.cfg == cfg
    {
      this.cfg := cfg;
      this.round := 1;
      this.generals := generals;
      this.coin := coin;
      this.activeWeapons := [];
      this.weaponUnlocked := [false, false];
      this.weaponCd := [-1, -1];
      this.techLevel := [[2, 0, 0, 0], [2, 0, 0, 0]];
      this.restMoveStep := [2, 2];
      this.board := board;
      this.nextId := nextId;
      this.winner := -1;
    }

    /**
     * `find_general_position_by_id`: the position of the first listed general
     * with this id, or None when no general has it.
     */
    method FindGeneralPositionById(id: int) returns (r: Option<Pos>)
      ensures r.None? <==> forall k :: 0 <= k < |generals| ==> generals[k].id != id
      ensures r.Some? ==> exists k :: 0 <= k < |generals| && generals[k].id == id && generals[k].pos == r.value &&
                                      forall j :: 0 <= j < k ==> generals[j].id != id
      ensures r == PositionOf(generals, id)
    {
      var k := 0;
      while k < |generals|
        invariant 0 <= k <= |generals|
        invariant forall j :: 0 <= j < k ==> generals[j].id != id
      {
        if generals[k].id == id {
          return Some(generals[k].pos);
        }
        k := k + 1;
      }
      return None;
    }
  }

  /** The position of the general behind an id, as the lookup returns it. */
  function PositionOf(gs: seq<General>, id: int): Option<Pos>
  {
    var k := GeneralIndex(gs, id);
    if k >= 0 then Some(gs[k].pos) else None
  }

  /** Under the invariant a looked-up position is on the board and holds that general. */
  lemma PositionOfPlaced(cfg: Config, w: World, id: int)
    requires WorldOk(cfg, w)
    ensures PositionOf(w.generals, id).Some? ==>
      var p := PositionOf(w.generals, id).value;
      InBounds(cfg, p) && w.board[p.x][p.y].gen == Some(id) &&
      GenAt(w.board, w.generals, p) == Some(w.generals[GeneralIndex(w.generals, id)])
  {
    var k := GeneralIndex(w.generals, id);
    if k >= 0 {
      assert GeneralOk(cfg, w.generals[k], w.nextId);
    }
  }

  /** Two boards with the same shape and the same cells are the same board. */
  lemma BoardExt(a: Board, b: Board)
    requires |a| == |b| && forall i :: 0 <= i < |a| ==> |a[i]| == |b[i]|
    requires forall i, j :: 0 <= i < |a| && 0 <= j < |a[i]| ==> a[i][j] == b[i][j]
    ensures a == b
  {
    forall i | 0 <= i < |a|
      ensures a[i] == b[i]
    {
      assert a[i] == b[i];
    }
  }

  // ---------------------------------------------------------------------
  // update_round (logic/gamestate.py:121-214)

  /** A general at the start of a round: its full mobility is available again. */
  function Rested(g: General): General
  {
    g.(restMove := g.mobility)
  }

  /** Counters that drop by one per round and stop at zero; a negative one stays. */
  function CountDown(s: seq<int>): seq<int>
  {
    seq(|s|, i requires 0 <= i < |s| => if s[i] > 0 then s[i] - 1 else s[i])
  }

  function RestedAll(gs: seq<General>): seq<General>
  {
    seq(|gs|, k requires 0 <= k < |gs| => Rested(gs[k]))
  }

  /** A general after the round: rested, with every cooldown and duration counted down. */
  function TickGeneral(g: General): General
  {
    Rested(g).(skillsCd := CountDown(g.skillsCd), skillDuration := CountDown(g.skillDuration))
  }

  function TickGenerals(gs: seq<General>): seq<General>
  {
    seq(|gs|, k requires 0 <= k < |gs| => TickGeneral(gs[k]))
  }

  /** Ticking keeps every general's identity, place and admissibility. */
  lemma TickGeneralsKeep(cfg: Config, gs: seq<General>, nextId: nat)
    requires forall k :: 0 <= k < |gs| ==> GeneralOk(cfg, gs[k], nextId)
    ensures |TickGenerals(gs)| == |gs|
    ensures forall k :: 0 <= k < |gs| ==>
      TickGenerals(gs)[k].id == gs[k].id && TickGenerals(gs)[k].pos == gs[k].pos &&
      GeneralOk(cfg, TickGenerals(gs)[k], nextId)
  {
  }

  /**
   * The board pass on one cell, given the general standing on it: a Main
   * general's cell, or an owned Sub general's cell, gains its production; on
   * every tenth round an owned cell gains one more; an owned bog cell with
   * army loses one unless its owner has swamp immunity, and turns neutral
   * when that leaves it empty without a general.
   */
  function TickCell(c: Cell, g: Option<General>, round: int, tech: TechTable): Cell
    requires -1 <= c.owner <= 1
    requires g.Some? ==> g.value.produce >= 0
  {
    var produced :=
      if g.Some? && (g.value.kind == MainGeneral || (g.value.kind == SubGeneral && g.value.player != -1))
      then c.army + g.value.produce else c.army;
    var bonus := if round % 10 == 0 && c.owner != -1 then produced + 1 else produced;
    if c.terrain == Bog && c.owner != -1 && bonus > 0 && tech[c.owner][2] == 0 then
      c.(army := bonus - 1, owner := if bonus - 1 == 0 && c.gen.None? then -1 else c.owner)
    else
      c.(army := bonus)
  }

  function TickedCell(cfg: Config, w: World, i: int, j: int): Cell
    requires WorldOk(cfg, w) && 0 <= i < cfg.rows && 0 <= j < cfg.cols
  {
    TickCell(w.board[i][j], GenAt(w.board, w.generals, Pos(i, j)), w.round, w.tech)
  }

  function TickedBoard(cfg: Config, w: World): Board
    requires WorldOk(cfg, w)
  {
    seq(cfg.rows, i requires 0 <= i < cfg.rows =>
      seq(cfg.cols, j requires 0 <= j < cfg.cols => TickedCell(cfg, w, i, j)))
  }

  /** The coin an owned Farmer on a cell pays its owner `p`. */
  function FarmerIncome(g: Option<General>, p: int): int
  {
    if g.Some? && g.value.kind == Farmer && g.value.player == p then g.value.produce else 0
  }

  /** Farmer income of player `p` from the first `j` cells of row `i`. */
  function RowIncome(w: World, p: int, i: int, j: int): int
    requires 0 <= i < |w.board| && 0 <= j <= |w.board[i]|
    decreases j
  {
    if j == 0 then 0
    else RowIncome(w, p, i, j - 1) + FarmerIncome(GenAt(w.board, w.generals, Pos(i, j - 1)), p)
  }

  /** Farmer income of player `p` from the first `i` rows. */
  function BoardIncome(w: World, p: int, i: int): int
    requires 0 <= i <= |w.board|
    decreases i
  {
    if i == 0 then 0 else BoardIncome(w, p, i - 1) + RowIncome(w, p, i - 1, |w.board[i - 1]|)
  }

  /** The damage an active bomb deals each round to a cell of its 3x3 area. */
  function NukeCell(c: Cell): Cell
  {
    if c.army > 0 then
      var left := if c.army > 3 then c.army - 3 else 0;
      c.(army := left, owner := if left == 0 && c.gen.None? then -1 else c.owner)
    else c
  }

  /** One bomb's damage: every board cell within Chebyshev distance 1 of `p`. */
  function BlastAt(b: Board, p: Pos): Board
  {
    seq(|b|, i requires 0 <= i < |b| =>
      seq(|b[i]|, j requires 0 <= j < |b[i]| =>
        if Near(p, Pos(i, j), 1) then NukeCell(b[i][j]) else b[i][j]))
  }

  /** The damage of every NUCLEAR_BOOM weapon of the list, in list order. */
  function Blasts(b: Board, ws: seq<Weapon>): Board
    decreases |ws|
  {
    if |ws| == 0 then b
    else
      var before := Blasts(b, ws[..|ws| - 1]);
      if ws[|ws| - 1].kind == NuclearBoom then BlastAt(before, ws[|ws| - 1].pos) else before
  }

  /** Every weapon one round older. */
  function Aged(ws: seq<Weapon>): seq<Weapon>
  {
    seq(|ws|, k requires 0 <= k < |ws| => ws[k].(rest := ws[k].rest - 1))
  }

  /** The weapons that still have rounds left, in order. */
  function Live(ws: seq<Weapon>): seq<Weapon>
    decreases |ws|
  {
    if |ws| == 0 then []
    else Live(ws[..|ws| - 1]) + (if ws[|ws| - 1].rest > 0 then [ws[|ws| - 1]] else [])
  }

  /** The state `update_round` leaves behind. */
  function UpdateRoundWorld(cfg: Config, w: World): World
    requires WorldOk(cfg, w)
  {
    w.(round := w.round + 1,
       generals := TickGenerals(w.generals),
       coin := [w.coin[0] + BoardIncome(w, 0, cfg.rows), w.coin[1] + BoardIncome(w, 1, cfg.rows)],
       weapons := Live(Aged(w.weapons)),
       weaponCd := CountDown(w.weaponCd),
       restMoveStep := [w.tech[0][0], w.tech[1][0]],
       board := Blasts(TickedBoard(cfg, w), w.weapons))
  }

  /**
   * Bomb damage keeps the board's shape and every cell's terrain and general,
   * never raises an army, and only turns a cell neutral when no general stands
   * on it.
   */
  lemma {:induction false} BlastsEffect(b: Board, ws: seq<Weapon>)
    ensures |Blasts(b, ws)| == |b| && forall i :: 0 <= i < |b| ==> |Blasts(b, ws)[i]| == |b[i]|
    ensures forall i, j :: 0 <= i < |b| && 0 <= j < |b[i]| ==>
      Blasts(b, ws)[i][j].terrain == b[i][j].terrain && Blasts(b, ws)[i][j].gen == b[i][j].gen &&
      Blasts(b, ws)[i][j].army <= b[i][j].army &&
      (Blasts(b, ws)[i][j].owner == b[i][j].owner || (Blasts(b, ws)[i][j].owner == -1 && b[i][j].gen.None?))
    decreases |ws|
  {
    if |ws| > 0 {
      BlastsEffect(b, ws[..|ws| - 1]);
    }
  }

  /** A cell farther than one step from every bomb takes no damage. */
  lemma {:induction false} BlastsOutside(b: Board, ws: seq<Weapon>, i: int, j: int)
    requires 0 <= i < |b| && 0 <= j < |b[i]|
    requires forall k :: 0 <= k < |ws| && ws[k].kind == NuclearBoom ==> !Near(ws[k].pos, Pos(i, j), 1)
    ensures |Blasts(b, ws)| == |b| && |Blasts(b, ws)[i]| == |b[i]|
    ensures Blasts(b, ws)[i][j] == b[i][j]
    decreases |ws|
  {
    BlastsEffect(b, ws);
    if |ws| > 0 {
      BlastsOutside(b, ws[..|ws| - 1], i, j);
      BlastsEffect(b, ws[..|ws| - 1]);
    }
  }

  /** `Live` keeps exactly the weapons with rounds left, and never lengthens the list. */
  lemma {:induction false} LiveMembers(ws: seq<Weapon>)
    ensures forall x :: x in Live(ws) <==> x in ws && x.rest > 0
    ensures |Live(ws)| <= |ws|
    decreases |ws|
  {
    if |ws| > 0 {
      var init, last := ws[..|ws| - 1], ws[|ws| - 1];
      LiveMembers(init);
      assert ws == init + [last];
      forall x
        ensures x in ws <==> x in init || x == last
      {
        if x in ws {
          var k :| 0 <= k < |ws| && ws[k] == x;
          if k < |ws| - 1 { assert init[k] == x; }
        }
      }
    }
  }

  /** The board pass keeps the shape, every general reference, and owners in range. */
  lemma TickedBoardEffect(cfg: Config, w: World)
    requires WorldOk(cfg, w)
    ensures Shaped(cfg, TickedBoard(cfg, w))
    ensures forall i, j :: 0 <= i < cfg.rows && 0 <= j < cfg.cols ==>
      TickedBoard(cfg, w)[i][j].gen == w.board[i][j].gen &&
      (TickedBoard(cfg, w)[i][j].owner == w.board[i][j].owner ||
       (TickedBoard(cfg, w)[i][j].owner == -1 && w.board[i][j].gen.None?))
  {
  }

  /** The board after the board pass and the bombs: shaped, owners in range, every general where it was. */
  lemma RoundBoardOk(cfg: Config, w: World)
    requires WorldOk(cfg, w)
    ensures var b := Blasts(TickedBoard(cfg, w), w.weapons);
      Shaped(cfg, b) && OwnersOk(b) &&
      forall i, j :: 0 <= i < |w.board| && 0 <= j < |w.board[i]| ==> b[i][j].gen == w.board[i][j].gen
  {
    TickedBoardEffect(cfg, w);
    BlastsEffect(TickedBoard(cfg, w), w.weapons);
  }

  /** Aging the weapons keeps every surviving one on the board. */
  lemma RoundWeaponsOk(cfg: Config, ws: seq<Weapon>)
    requires forall k :: 0 <= k < |ws| ==> InBounds(cfg, ws[k].pos)
    ensures forall k :: 0 <= k < |Live(Aged(ws))| ==> InBounds(cfg, Live(Aged(ws))[k].pos)
  {
    var r := Live(Aged(ws));
    AgedLive(ws);
    forall k | 0 <= k < |r|
      ensures InBounds(cfg, r[k].pos)
    {
      assert r[k] in r;
      var m :| 0 <= m < |ws| && ws[m].rest > 1 && r[k] == ws[m].(rest := ws[m].rest - 1);
    }
  }

  /** `update_round` keeps the state invariant. */
  lemma UpdateRoundKeepsInvariant(cfg: Config, w: World)
    requires WorldOk(cfg, w)
    ensures WorldOk(cfg, UpdateRoundWorld(cfg, w))
  {
    RoundBoardOk(cfg, w);
    RoundWeaponsOk(cfg, w.weapons);
    assert forall k :: 0 <= k < |w.generals| ==> GeneralOk(cfg, w.generals[k], w.nextId);
    TickGeneralsKeep(cfg, w.generals, w.nextId);
    WorldOkFrame(cfg, w, UpdateRoundWorld(cfg, w));
  }

  /**
   * A neutral cell never gains an owner between rounds, and an owned cell only
   * loses its owner when no general stands on it; generals stay where they are.
   */
  lemma UpdateRoundOwnership(cfg: Config, w: World, i: int, j: int)
    requires WorldOk(cfg, w) && 0 <= i < cfg.rows && 0 <= j < cfg.cols
    ensures |UpdateRoundWorld(cfg, w).board| == cfg.rows && |UpdateRoundWorld(cfg, w).board[i]| == cfg.cols
    ensures UpdateRoundWorld(cfg, w).board[i][j].gen == w.board[i][j].gen
    ensures UpdateRoundWorld(cfg, w).board[i][j].owner == w.board[i][j].owner ||
            (UpdateRoundWorld(cfg, w).board[i][j].owner == -1 && w.board[i][j].gen.None?)
  {
    BlastsEffect(TickedBoard(cfg, w), w.weapons);
  }

  /**
   * Away from bombs and bogs, a cell gains the production of a Main general
   * or an owned Sub general standing on it, plus one on every tenth round if
   * it is owned, and keeps its owner.
   */
  lemma UpdateRoundProduction(cfg: Config, w: World, i: int, j: int)
    requires WorldOk(cfg, w) && 0 <= i < cfg.rows && 0 <= j < cfg.cols
    requires w.board[i][j].terrain != Bog
    requires forall k :: 0 <= k < |w.weapons| && w.weapons[k].kind == NuclearBoom ==> !Near(w.weapons[k].pos, Pos(i, j), 1)
    ensures |UpdateRoundWorld(cfg, w).board| == cfg.rows && |UpdateRoundWorld(cfg, w).board[i]| == cfg.cols
    ensures var c, c' := w.board[i][j], UpdateRoundWorld(cfg, w).board[i][j];
      var g := GenAt(w.board, w.generals, Pos(i, j));
      c'.owner == c.owner &&
      c'.army == c.army
        + (if g.Some? && (g.value.kind == MainGeneral || (g.value.kind == SubGeneral && g.value.player != -1))
           then g.value.produce else 0)
        + (if w.round % 10 == 0 && c.owner != -1 then 1 else 0)
  {
    BlastsOutside(TickedBoard(cfg, w), w.weapons, i, j);
  }

  /**
   * An owned bog cell holding army but no general, whose owner lacks swamp
   * immunity, loses one army on an ordinary round (away from bombs), and is
   * neutral once it is empty.
   */
  lemma UpdateRoundBogDecay(cfg: Config, w: World, i: int, j: int)
    requires WorldOk(cfg, w) && 0 <= i < cfg.rows && 0 <= j < cfg.cols
    requires w.board[i][j].terrain == Bog && w.board[i][j].owner != -1 && w.board[i][j].gen.None?
    requires w.board[i][j].army > 0 && w.tech[w.board[i][j].owner][2] == 0 && w.round % 10 != 0
    requires forall k :: 0 <= k < |w.weapons| && w.weapons[k].kind == NuclearBoom ==> !Near(w.weapons[k].pos, Pos(i, j), 1)
    ensures |UpdateRoundWorld(cfg, w).board| == cfg.rows && |UpdateRoundWorld(cfg, w).board[i]| == cfg.cols
    ensures UpdateRoundWorld(cfg, w).board[i][j].army == w.board[i][j].army - 1
    ensures UpdateRoundWorld(cfg, w).board[i][j].owner == (if w.board[i][j].army == 1 then -1 else w.board[i][j].owner)
  {
    BlastsOutside(TickedBoard(cfg, w), w.weapons, i, j);
  }

  /** The Farmers' income over the first `i` rows is never negative. */
  lemma {:induction false} IncomeNonNegative(cfg: Config, w: World, p: int, i: int)
    requires Shaped(cfg, w.board) && 0 <= i <= cfg.rows
    requires forall k :: 0 <= k < |w.generals| ==> w.generals[k].produce >= 0
    ensures BoardIncome(w, p, i) >= 0
    decreases i
  {
    if i > 0 {
      IncomeNonNegative(cfg, w, p, i - 1);
      RowIncomeNonNegative(cfg, w, p, i - 1, cfg.cols);
    }
  }

  /** The Farmers' income over the first `j` cells of row `i` is never negative. */
  lemma {:induction false} RowIncomeNonNegative(cfg: Config, w: World, p: int, i: int, j: int)
    requires Shaped(cfg, w.board) && 0 <= i < cfg.rows && 0 <= j <= cfg.cols
    requires forall k :: 0 <= k < |w.generals| ==> w.generals[k].produce >= 0
    ensures RowIncome(w, p, i, j) >= 0
    decreases j
  {
    if j > 0 {
      RowIncomeNonNegative(cfg, w, p, i, j - 1);
      var g := GenAt(w.board, w.generals, Pos(i, j - 1));
      if g.Some? {
        assert g.value == w.generals[GeneralIndex(w.generals, w.board[i][j - 1].gen.value)];
      }
    }
  }

  /** Coins only grow between rounds: Farmers pay, nothing charges. */
  lemma UpdateRoundCoins(cfg: Config, w: World, p: int)
    requires WorldOk(cfg, w) && 0 <= p < 2
    ensures UpdateRoundWorld(cfg, w).coin[p] >= w.coin[p]
  {
    assert forall k :: 0 <= k < |w.generals| ==> GeneralOk(cfg, w.generals[k], w.nextId);
    IncomeNonNegative(cfg, w, p, cfg.rows);
  }

  /**
   * Aging then dropping the expired weapons keeps exactly those that had more
   * than one round left, each with one round less.
   */
  lemma AgedLive(ws: seq<Weapon>)
    ensures forall x :: x in Live(Aged(ws)) <==>
      exists k :: 0 <= k < |ws| && ws[k].rest > 1 && x == ws[k].(rest := ws[k].rest - 1)
    ensures |Live(Aged(ws))| <= |ws|
  {
    LiveMembers(Aged(ws));
    forall x
      ensures x in Aged(ws) <==> exists k :: 0 <= k < |ws| && x == ws[k].(rest := ws[k].rest - 1)
    {
      if x in Aged(ws) {
        var k :| 0 <= k < |ws| && Aged(ws)[k] == x;
      }
      if exists k :: 0 <= k < |ws| && x == ws[k].(rest := ws[k].rest - 1) {
        var k :| 0 <= k < |ws| && x == ws[k].(rest := ws[k].rest - 1);
        assert Aged(ws)[k] == x;
      }
    }
  }

  /**
   * After the round, the weapons are exactly those that had more than one
   * round left, each with one round less; none is left with rest 0 or less.
   */
  lemma UpdateRoundWeapons(cfg: Config, w: World)
    requires WorldOk(cfg, w)
    ensures forall x :: x in UpdateRoundWorld(cfg, w).weapons <==>
      exists k :: 0 <= k < |w.weapons| && w.weapons[k].rest > 1 && x == w.weapons[k].(rest := w.weapons[k].rest - 1)
    ensures |UpdateRoundWorld(cfg, w).weapons| <= |w.weapons|
  {
    AgedLive(w.weapons);
    assert UpdateRoundWorld(cfg, w).weapons == Live(Aged(w.weapons));
  }

  /**
   * Read through the board, as the source's cell loop does, every general
   * starts the next round with its full mobility, and its skill counters are
   * counted down without going below zero.
   */
  lemma UpdateRoundRestsGenerals(cfg: Config, w: World, p: Pos)
    requires WorldOk(cfg, w) && InBounds(cfg, p) && w.board[p.x][p.y].gen.Some?
    ensures |UpdateRoundWorld(cfg, w).board| == cfg.rows && |UpdateRoundWorld(cfg, w).board[p.x]| == cfg.cols
    ensures var r := UpdateRoundWorld(cfg, w);
      GenAt(r.board, r.generals, p).Some? && GenAt(w.board, w.generals, p).Some? &&
      GenAt(r.board, r.generals, p).value.restMove == GenAt(w.board, w.generals, p).value.mobility &&
      forall s :: 0 <= s < 5 && GenAt(w.board, w.generals, p).value.skillsCd[s] >= 0 ==>
        0 <= GenAt(r.board, r.generals, p).value.skillsCd[s] <= GenAt(w.board, w.generals, p).value.skillsCd[s]
  {
    var r := UpdateRoundWorld(cfg, w);
    UpdateRoundOwnership(cfg, w, p.x, p.y);
    var id := w.board[p.x][p.y].gen.value;
    var k := GeneralIndex(w.generals, id);
    assert k >= 0;
    TickGeneralsKeep(cfg, w.generals, w.nextId);
    assert r.generals == TickGenerals(w.generals);
    SameIdsSameIndex(w.generals, r.generals, id);
    assert GenAt(w.board, w.generals, p) == Some(w.generals[k]);
    assert GenAt(r.board, r.generals, p) == Some(TickGeneral(w.generals[k]));
  }

  /** Row-major order of the board loop: has cell `p` been visited before (i, j)? */
  predicate Before(p: Pos, i: int, j: int)
  {
    p.x < i || (p.x == i && p.y < j)
  }

  /**
   * The body of the board loop for one cell, once the general's mobility is
   * reset: production into the cell or the Farmer owner's coin, the
   * tenth-round bonus and bog decay.
   */
  method ProduceCell(c: Cell, gen: Option<General>, round: int, tech: TechTable, coin: Pair)
    returns (cell: Cell, coin': Pair)
    requires -1 <= c.owner <= 1
    requires gen.Some? ==> gen.value.produce >= 0 && -1 <= gen.value.player <= 1
    ensures cell == TickCell(c, gen, round, tech)
    ensures coin'[0] == coin[0] + FarmerIncome(gen, 0) && coin'[1] == coin[1] + FarmerIncome(gen, 1)
  {
    cell, coin' := c, coin;
    if gen.Some? && gen.value.kind == MainGeneral {
      cell := cell.(army := cell.army + gen.value.produce);
    } else if gen.Some? && gen.value.kind == SubGeneral {
      if gen.value.player != -1 {
        cell := cell.(army := cell.army + gen.value.produce);
      }
    } else if gen.Some? && gen.value.kind == Farmer {
      if gen.value.player != -1 {
        coin' := coin'[gen.value.player := coin'[gen.value.player] + gen.value.produce];
      }
    }
    if round % 10 == 0 {
      if cell.owner != -1 {
        cell := cell.(army := cell.army + 1);
      }
    }
    if cell.terrain == Bog && cell.owner != -1 && cell.army > 0 {
      if tech[cell.owner][2] == 0 {
        cell := cell.(army := cell.army - 1);
        if cell.army == 0 && cell.gen.None? {
          cell := cell.(owner := -1);
        }
      }
    }
  }

  /** Cells of row `i` before column `j`, and every earlier row, have been through the board loop. */
  ghost predicate BoardPassed(cfg: Config, w: World, board: Board, i: int, j: int)
    requires WorldOk(cfg, w)
  {
    Shaped(cfg, board) &&
    forall x, y :: 0 <= x < cfg.rows && 0 <= y < cfg.cols ==>
      board[x][y] == if Before(Pos(x, y), i, j) then TickedCell(cfg, w, x, y) else w.board[x][y]
  }

  /** The generals met so far by the board loop have had their mobility reset. */
  ghost predicate GeneralsPassed(w: World, generals: seq<General>, i: int, j: int)
  {
    |generals| == |w.generals| &&
    forall k :: 0 <= k < |generals| ==>
      generals[k] == if Before(w.generals[k].pos, i, j) then Rested(w.generals[k]) else w.generals[k]
  }

  /** Starting a row is the same as having finished the one before. */
  lemma PassedRowEnd(cfg: Config, w: World, board: Board, generals: seq<General>, i: int)
    requires WorldOk(cfg, w) && 0 <= i < cfg.rows
    ensures BoardPassed(cfg, w, board, i, cfg.cols) <==> BoardPassed(cfg, w, board, i + 1, 0)
    ensures GeneralsPassed(w, generals, i, cfg.cols) <==> GeneralsPassed(w, generals, i + 1, 0)
  {
    forall k | 0 <= k < |w.generals|
      ensures Before(w.generals[k].pos, i, cfg.cols) <==> Before(w.generals[k].pos, i + 1, 0)
    {
      assert GeneralOk(cfg, w.generals[k], w.nextId);
    }
  }

  /** Visiting cell (i, j) extends the visited part of the board by that cell. */
  lemma BoardStep(cfg: Config, w: World, board: Board, i: int, j: int)
    requires WorldOk(cfg, w) && 0 <= i < cfg.rows && 0 <= j < cfg.cols
    requires BoardPassed(cfg, w, board, i, j)
    ensures BoardPassed(cfg, w, SetCell(board, Pos(i, j), TickedCell(cfg, w, i, j)), i, j + 1)
  {
  }

  /** Visiting a cell without a general leaves every general as it was. */
  lemma GeneralsStepEmpty(cfg: Config, w: World, generals: seq<General>, i: int, j: int)
    requires WorldOk(cfg, w) && 0 <= i < cfg.rows && 0 <= j < cfg.cols && w.board[i][j].gen.None?
    requires GeneralsPassed(w, generals, i, j)
    ensures GeneralsPassed(w, generals, i, j + 1)
  {
    forall m | 0 <= m < |generals|
      ensures w.generals[m].pos != Pos(i, j)
    {
      assert w.board[w.generals[m].pos.x][w.generals[m].pos.y].gen == Some(w.generals[m].id);
    }
  }

  /**
   * Visiting a cell with a general rests exactly that general, which the
   * lookup by the cell's id finds in the partly rested list.
   */
  /** The board loop changes no general's id. */
  lemma PassedIds(w: World, generals: seq<General>, i: int, j: int)
    requires GeneralsPassed(w, generals, i, j)
    ensures |generals| == |w.generals| && forall k :: 0 <= k < |generals| ==> generals[k].id == w.generals[k].id
  {
    forall k | 0 <= k < |generals|
      ensures generals[k].id == w.generals[k].id
    {
      assert generals[k] == if Before(w.generals[k].pos, i, j) then Rested(w.generals[k]) else w.generals[k];
    }
  }

  lemma GeneralsStepHere(cfg: Config, w: World, generals: seq<General>, i: int, j: int)
    requires 0 <= i < |w.board| && 0 <= j < |w.board[i]| && w.board[i][j].gen.Some?
    requires UniqueIds(w.generals) && Placed(w.board, w.generals) && Linked(w.board, w.generals)
    requires GeneralsPassed(w, generals, i, j)
    ensures var k := GeneralIndex(generals, w.board[i][j].gen.value);
      0 <= k < |generals| && GenAt(w.board, w.generals, Pos(i, j)) == Some(generals[k]) &&
      GeneralsPassed(w, generals[k := Rested(generals[k])], i, j + 1)
  {
    var id := w.board[i][j].gen.value;
    PassedIds(w, generals, i, j);
    SameIdsSameIndex(generals, w.generals, id);
    var k := GeneralIndex(generals, id);
    assert w.generals[k].pos == Pos(i, j);
    assert generals[k] == w.generals[k] by {
      assert !Before(w.generals[k].pos, i, j);
    }
    var generals' := generals[k := Rested(generals[k])];
    forall m | 0 <= m < |generals|
      ensures generals'[m] == if Before(w.generals[m].pos, i, j + 1) then Rested(w.generals[m]) else w.generals[m]
    {
      if m != k {
        var q := w.generals[m].pos;
        assert w.board[q.x][q.y].gen == Some(w.generals[m].id);
        assert q != Pos(i, j);
      }
    }
  }

  /** Resetting a general's mobility does not change what its cell produces. */
  lemma RestedProducesAlike(c: Cell, g: Option<General>, round: int, tech: TechTable)
    requires -1 <= c.owner <= 1 && (g.Some? ==> g.value.produce >= 0)
    ensures g.Some? ==> TickCell(c, Some(Rested(g.value)), round, tech) == TickCell(c, g, round, tech)
    ensures g.Some? ==> forall p :: FarmerIncome(Some(Rested(g.value)), p) == FarmerIncome(g, p)
  {
  }

  /** The first `j` cells of row `i` have been through the board loop, and their Farmers have paid into `coin0`. */
  ghost predicate CellsPassed(cfg: Config, w: World, board: Board, generals: seq<General>, coin0: Pair, coin: Pair,
                              i: int, j: int)
    requires WorldOk(cfg, w) && 0 <= i < cfg.rows
  {
    0 <= j <= cfg.cols &&
    BoardPassed(cfg, w, board, i, j) && GeneralsPassed(w, generals, i, j) &&
    coin[0] == coin0[0] + RowIncome(w, 0, i, j) && coin[1] == coin0[1] + RowIncome(w, 1, i, j)
  }

  /**
   * One step of the board loop, at cell (i, j): resets the mobility of the
   * general standing there, pays production into the cell or, for Farmers,
   * into the owner's coin, adds the tenth-round bonus and applies bog decay.
   */
  method VisitCell(cfg: Config, ghost w: World, i: int, j: int, board: Board, generals: seq<General>,
                   ghost coin0: Pair, coin: Pair, round: int, tech: TechTable)
    returns (board': Board, generals': seq<General>, coin': Pair)
    requires WorldOk(cfg, w) && 0 <= i < cfg.rows && 0 <= j < cfg.cols && round == w.round && tech == w.tech
    requires CellsPassed(cfg, w, board, generals, coin0, coin, i, j)
    ensures CellsPassed(cfg, w, board', generals', coin0, coin', i, j + 1)
  {
    generals' := generals;
    var cell := board[i][j];
    assert cell == w.board[i][j] by {
      assert !Before(Pos(i, j), i, j);
    }
    var gen: Option<General> := None;
    if cell.gen.Some? {
      GeneralsStepHere(cfg, w, generals', i, j);
      var k := GeneralIndex(generals', cell.gen.value);
      generals' := generals'[k := Rested(generals'[k])];
      gen := Some(generals'[k]);
      assert gen == Some(Rested(GenAt(w.board, w.generals, Pos(i, j)).value));
    } else {
      GeneralsStepEmpty(cfg, w, generals', i, j);
    }
    GenAtHere(cfg, w, Pos(i, j));
    RestedProducesAlike(w.board[i][j], GenAt(w.board, w.generals, Pos(i, j)), round, tech);
    cell, coin' := ProduceCell(cell, gen, round, tech, coin);
    BoardStep(cfg, w, board, i, j);
    board' := SetCell(board, Pos(i, j), cell);
  }

  /** The board loop over one row `i`. */
  method RowPass(cfg: Config, ghost w: World, i: int, board: Board, generals: seq<General>, coin: Pair,
                 round: int, tech: TechTable)
    returns (board': Board, generals': seq<General>, coin': Pair)
    requires WorldOk(cfg, w) && 0 <= i < cfg.rows && round == w.round && tech == w.tech
    requires BoardPassed(cfg, w, board, i, 0) && GeneralsPassed(w, generals, i, 0)
    ensures BoardPassed(cfg, w, board', i, cfg.cols) && GeneralsPassed(w, generals', i, cfg.cols)
    ensures coin'[0] == coin[0] + RowIncome(w, 0, i, cfg.cols) && coin'[1] == coin[1] + RowIncome(w, 1, i, cfg.cols)
  {
    board', generals', coin' := board, generals, coin;
    var j := 0;
    while j < cfg.cols
      invariant CellsPassed(cfg, w, board', generals', coin, coin', i, j)
    {
      board', generals', coin' := VisitCell(cfg, w, i, j, board', generals', coin, coin', round, tech);
      j := j + 1;
    }
  }

  lemma PassedStart(cfg: Config, w: World)
    requires WorldOk(cfg, w)
    ensures BoardPassed(cfg, w, w.board, 0, 0) && GeneralsPassed(w, w.generals, 0, 0)
  {
    forall k | 0 <= k < |w.generals|
      ensures !Before(w.generals[k].pos, 0, 0)
    {
      assert GeneralOk(cfg, w.generals[k], w.nextId);
    }
  }

  lemma PassedAll(cfg: Config, w: World, board: Board, generals: seq<General>)
    requires WorldOk(cfg, w)
    requires BoardPassed(cfg, w, board, cfg.rows, 0) && GeneralsPassed(w, generals, cfg.rows, 0)
    ensures board == TickedBoard(cfg, w) && generals == RestedAll(w.generals)
  {
    forall k | 0 <= k < |w.generals|
      ensures generals[k] == Rested(w.generals[k])
    {
      assert GeneralOk(cfg, w.generals[k], w.nextId);
    }
    BoardExt(board, TickedBoard(cfg, w));
  }

  /** The first `i` rows have been through the board loop, and their Farmers have paid. */
  ghost predicate RowsPassed(cfg: Config, w: World, board: Board, generals: seq<General>, coin: Pair, i: int)
    requires WorldOk(cfg, w)
  {
    0 <= i <= cfg.rows &&
    BoardPassed(cfg, w, board, i, 0) && GeneralsPassed(w, generals, i, 0) &&
    coin[0] == w.coin[0] + BoardIncome(w, 0, i) && coin[1] == w.coin[1] + BoardIncome(w, 1, i)
  }

  /** One turn of the row loop. */
  method BoardRow(cfg: Config, ghost w: World, i: int, board: Board, generals: seq<General>, coin: Pair,
                  round: int, tech: TechTable)
    returns (board': Board, generals': seq<General>, coin': Pair)
    requires WorldOk(cfg, w) && 0 <= i < cfg.rows && round == w.round && tech == w.tech
    requires RowsPassed(cfg, w, board, generals, coin, i)
    ensures RowsPassed(cfg, w, board', generals', coin', i + 1)
  {
    board', generals', coin' := RowPass(cfg, w, i, board, generals, coin, round, tech);
    PassedRowEnd(cfg, w, board', generals', i);
  }

  /** The board loop of `update_round`, row by row. */
  method BoardPass(s: GameState) returns (board: Board, generals: seq<General>, coin: Pair)
    requires s.Valid()
    ensures board == TickedBoard(s.cfg, s.Model())
    ensures generals == RestedAll(s.generals)
    ensures coin[0] == s.coin[0] + BoardIncome(s.Model(), 0, s.cfg.rows)
    ensures coin[1] == s.coin[1] + BoardIncome(s.Model(), 1, s.cfg.rows)
  {
    ghost var w := s.Model();
    var cfg, round, tech := s.cfg, s.round, s.techLevel;
    board, generals, coin := s.board, s.generals, s.coin;
    PassedStart(cfg, w);
    var i := 0;
    while i < cfg.rows
      invariant RowsPassed(cfg, w, board, generals, coin, i)
    {
      board, generals, coin := BoardRow(cfg, w, i, board, generals, coin, round, tech);
      i := i + 1;
    }
    PassedAll(cfg, w, board, generals);
  }

  /** The cells of the bomb's square that come before `(i, j)` in row order are damaged; the others are untouched. */
  ghost predicate BlastedBefore(cfg: Config, b: Board, p: Pos, r: Board, i: int, j: int)
    requires Shaped(cfg, b)
  {
    Shaped(cfg, r) &&
    forall x, y :: 0 <= x < cfg.rows && 0 <= y < cfg.cols ==>
      r[x][y] == if Near(p, Pos(x, y), 1) && Before(Pos(x, y), i, j) then NukeCell(b[x][y]) else b[x][y]
  }

  /** Damage to the square's cell `(i, j)`: three units lost, and an emptied cell without a general goes neutral. */
  method BlastCell(cfg: Config, ghost b: Board, ghost p: Pos, r: Board, i: int, j: int) returns (r': Board)
    requires Shaped(cfg, b) && 0 <= i < cfg.rows && 0 <= j < cfg.cols && Near(p, Pos(i, j), 1)
    requires BlastedBefore(cfg, b, p, r, i, j)
    ensures BlastedBefore(cfg, b, p, r', i, j + 1)
  {
    r' := r;
    assert r[i][j] == b[i][j];
    if r[i][j].army > 0 {
      var left := if r[i][j].army - 3 > 0 then r[i][j].army - 3 else 0;
      var owner := if left == 0 && r[i][j].gen.None? then -1 else r[i][j].owner;
      r' := SetCell(r, Pos(i, j), r[i][j].(army := left, owner := owner));
    }
    assert r'[i][j] == NukeCell(b[i][j]);
  }

  /** The columns left of the square hold no cell of it. */
  lemma BlastRowStart(cfg: Config, b: Board, p: Pos, r: Board, i: int)
    requires Shaped(cfg, b) && BlastedBefore(cfg, b, p, r, i, 0)
    ensures BlastedBefore(cfg, b, p, r, i, if p.y - 1 >= 0 then p.y - 1 else 0)
  {
  }

  /** The columns right of the square hold no cell of it. */
  lemma BlastRowEnd(cfg: Config, b: Board, p: Pos, r: Board, i: int)
    requires Shaped(cfg, b) && BlastedBefore(cfg, b, p, r, i, if p.y + 2 <= cfg.cols then p.y + 2 else cfg.cols)
    ensures BlastedBefore(cfg, b, p, r, i + 1, 0)
  {
  }

  /** The bomb's damage to row `i` of its square. */
  method BlastRow(cfg: Config, ghost b: Board, p: Pos, r: Board, i: int) returns (r': Board)
    requires Shaped(cfg, b) && InBounds(cfg, p) && 0 <= i < cfg.rows && Abs(i - p.x) <= 1
    requires BlastedBefore(cfg, b, p, r, i, 0)
    ensures BlastedBefore(cfg, b, p, r', i + 1, 0)
  {
    r' := r;
    var j := if p.y - 1 >= 0 then p.y - 1 else 0;
    var jEnd := if p.y + 2 <= cfg.cols then p.y + 2 else cfg.cols;
    BlastRowStart(cfg, b, p, r', i);
    while j < jEnd
      invariant p.y - 1 <= j <= jEnd
      invariant BlastedBefore(cfg, b, p, r', i, j)
    {
      r' := BlastCell(cfg, b, p, r', i, j);
      j := j + 1;
    }
    BlastRowEnd(cfg, b, p, r', i);
  }

  /** One bomb's damage, cell by cell over its area clamped to the board. */
  method BlastArea(cfg: Config, b: Board, p: Pos) returns (r: Board)
    requires Shaped(cfg, b) && InBounds(cfg, p)
    ensures r == BlastAt(b, p)
  {
    r := b;
    var i := if p.x - 1 >= 0 then p.x - 1 else 0;
    var iEnd := if p.x + 2 <= cfg.rows then p.x + 2 else cfg.rows;
    assert BlastedBefore(cfg, b, p, r, i, 0);
    while i < iEnd
      invariant p.x - 1 <= i <= iEnd
      invariant BlastedBefore(cfg, b, p, r, i, 0)
    {
      r := BlastRow(cfg, b, p, r, i);
      i := i + 1;
    }
    BoardExt(r, BlastAt(b, p));
  }

  /** The bomb loop of `update_round`: every NUCLEAR_BOOM weapon damages its area again. */
  method BombDamage(cfg: Config, b: Board, ws: seq<Weapon>) returns (r: Board)
    requires Shaped(cfg, b)
    requires forall k :: 0 <= k < |ws| ==> InBounds(cfg, ws[k].pos)
    ensures r == Blasts(b, ws)
  {
    r := b;
    for k := 0 to |ws|
      invariant r == Blasts(b, ws[..k])
      invariant Shaped(cfg, r)
    {
      assert ws[..k + 1][..k] == ws[..k];
      if ws[k].kind == NuclearBoom {
        r := BlastArea(cfg, r, ws[k].pos);
      }
    }
    assert ws[..|ws|] == ws;
  }

  lemma PairOf(a: Pair, x: int, y: int)
    requires a[0] == x && a[1] == y
    ensures a == [x, y]
  {
  }

  /** The lifetime loop of `update_round`: every active weapon loses a round. */
  method AgeWeapons(ws: seq<Weapon>) returns (r: seq<Weapon>)
    ensures r == Aged(ws)
  {
    r := ws;
    for k := 0 to |r|
      invariant |r| == |ws|
      invariant forall m :: 0 <= m < |r| ==> r[m] == if m < k then ws[m].(rest := ws[m].rest - 1) else ws[m]
    {
      r := r[k := r[k].(rest := r[k].rest - 1)];
    }
  }

  /** The skill loop of `update_round`: every cooldown and duration counts down. */
  method CountDownSkills(gs: seq<General>) returns (r: seq<General>)
    ensures |r| == |gs|
    ensures forall m :: 0 <= m < |gs| ==>
      r[m] == gs[m].(skillsCd := CountDown(gs[m].skillsCd), skillDuration := CountDown(gs[m].skillDuration))
  {
    r := gs;
    for k := 0 to |r|
      invariant |r| == |gs|
      invariant forall m :: 0 <= m < |r| ==>
        r[m] == if m < k then gs[m].(skillsCd := CountDown(gs[m].skillsCd), skillDuration := CountDown(gs[m].skillDuration))
                else gs[m]
    {
      r := r[k := r[k].(skillsCd := CountDown(r[k].skillsCd), skillDuration := CountDown(r[k].skillDuration))];
    }
  }

  /** Everything `update_round` computes, before it is stored back into the state. */
  method NextRound(s: GameState) returns (next: World)
    requires s.Valid()
    ensures next == UpdateRoundWorld(s.cfg, s.Model())
    ensures next.unlocked == s.weaponUnlocked && next.tech == s.techLevel && next.nextId == s.nextId && next.winner == s.winner
  {
    ghost var w := s.Model();
    var board, generals, coin := BoardPass(s);
    board := BombDamage(s.cfg, board, s.activeWeapons);
    var weaponCd := CountDown(s.weaponCd);
    var weapons := AgeWeapons(s.activeWeapons);
    generals := CountDownSkills(generals);
    assert generals == TickGenerals(w.generals);
    PairOf(coin, w.coin[0] + BoardIncome(w, 0, s.cfg.rows), w.coin[1] + BoardIncome(w, 1, s.cfg.rows));
    next := World(s.round + 1, generals, coin, Live(weapons), s.weaponUnlocked, weaponCd, s.techLevel,
                  [s.techLevel[0][0], s.techLevel[1][0]], board, s.nextId, s.winner);
  }

  /**
   * `update_round`: the board loop, the bomb loop, then the counters: super
   * weapon cooldowns, weapon lifetimes, skill cooldowns and durations, the
   * army-move budget reset from the tech level, expired weapons dropped, and
   * the round advanced.
   */
  method UpdateRound(s: GameState)
    requires s.Valid()
    modifies s
    ensures s.Valid()
    ensures s.Model() == UpdateRoundWorld(s.cfg, old(s.Model()))
  {
    ghost var w := s.Model();
    var next := NextRound(s);
    UpdateRoundKeepsInvariant(s.cfg, w);
    Install(s, next);
  }

  /** Replaces the board by one with the same shape and the same general on every cell. */
  method SetBoard(s: GameState, board: Board)
    requires s.Valid() && Shaped(s.cfg, board) && OwnersOk(board)
    requires forall i, j :: 0 <= i < |s.board| && 0 <= j < |s.board[i]| ==> board[i][j].gen == s.board[i][j].gen
    modifies s
    ensures s.Valid() && s.Model() == old(s.Model()).(board := board)
  {
    ghost var w := s.Model();
    s.board := board;
    WorldOkFrame(s.cfg, w, s.Model());
  }

  /** A player pays `amount` coin; nothing else changes. */
  method Pay(s: GameState, player: int, amount: int)
    requires s.Valid() && 0 <= player <= 1
    modifies s
    ensures s.coin == old(s.coin)[player := old(s.coin)[player] - amount]
    ensures s.Valid() && s.Model() == old(s.Model()).(coin := s.coin)
  {
    s.coin := s.coin[player := s.coin[player] - amount];
  }

  /** Writes the new round's fields back into the state. */
  method Install(s: GameState, next: World)
    requires ConfigOk(s.cfg) && WorldOk(s.cfg, next)
    requires next.unlocked == s.weaponUnlocked && next.tech == s.techLevel && next.nextId == s.nextId
    requires next.winner == s.winner
    modifies s
    ensures s.Valid() && s.Model() == next
  {
    s.board, s.coin, s.generals, s.weaponCd, s.activeWeapons, s.restMoveStep, s.round :=
      next.board, next.coin, next.generals, next.weaponCd, next.weapons, next.restMoveStep, next.round;
    assert s.Model() == next;
  }

}
