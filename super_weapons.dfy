/**
 * The four super weapons of logic/super_weapons.py: the nuclear bomb, attack
 * enhancement (`strengthen`), transmission (`tp`) and time stop. Each is gated
 * by the player's unlock flag and the shared super-weapon cooldown, puts the
 * cooldown back to `use_cd`, appends one active weapon, and costs no coin.
 */
module SuperWeapons {
  import opened GameData
  import opened Gamestate
  import opened Movement

  // ---------------------------------------------------------------------
  // The list of generals after a bomb

  /** Whether `g` survives a blast over `area`: it stands outside, or it is a spared main general. */
  predicate Kept(g: General, area: set<Pos>, spareMain: bool)
  {
    g.pos !in area || (spareMain && g.kind == MainGeneral)
  }

  /** The generals that survive a blast over `area`, in their order. */
  function Keep(gs: seq<General>, area: set<Pos>, spareMain: bool): seq<General>
    decreases |gs|
  {
    if |gs| == 0 then []
    else
      var g := gs[|gs| - 1];
      Keep(gs[..|gs| - 1], area, spareMain) + (if Kept(g, area, spareMain) then [g] else [])
  }

  /** `Keep` holds exactly the listed generals that survive. */
  lemma {:induction false} KeepMembers(gs: seq<General>, area: set<Pos>, spareMain: bool)
    ensures forall g :: g in Keep(gs, area, spareMain) <==> g in gs && Kept(g, area, spareMain)
    decreases |gs|
  {
    if |gs| > 0 {
      var init, last := gs[..|gs| - 1], gs[|gs| - 1];
      KeepMembers(init, area, spareMain);
      assert gs == init + [last];
      forall g
        ensures g in gs <==> g in init || g == last
      {
        if g in gs {
          var k :| 0 <= k < |gs| && gs[k] == g;
          if k < |gs| - 1 { assert init[k] == g; }
        }
      }
    }
  }

  /** Dropping generals keeps ids unique. */
  lemma {:induction false} KeepUnique(gs: seq<General>, area: set<Pos>, spareMain: bool)
    requires UniqueIds(gs)
    ensures UniqueIds(Keep(gs, area, spareMain))
    decreases |gs|
  {
    if |gs| > 0 {
      var init, last := gs[..|gs| - 1], gs[|gs| - 1];
      forall k1, k2 | 0 <= k1 < |init| && 0 <= k2 < |init| && init[k1].id == init[k2].id
        ensures k1 == k2
      {
        assert gs[k1] == init[k1] && gs[k2] == init[k2];
      }
      KeepUnique(init, area, spareMain);
      KeepMembers(init, area, spareMain);
      var r0 := Keep(init, area, spareMain);
      forall g | g in r0
        ensures g.id != last.id
      {
        var j :| 0 <= j < |init| && init[j] == g;
        assert gs[j] == g;
      }
      var r := Keep(gs, area, spareMain);
      forall k1, k2 | 0 <= k1 < |r| && 0 <= k2 < |r| && r[k1].id == r[k2].id
        ensures k1 == k2
      {
        if k1 < |r0| { assert r[k1] == r0[k1] && r0[k1] in r0; }
        if k2 < |r0| { assert r[k2] == r0[k2] && r0[k2] in r0; }
      }
    }
  }

  /** With unique ids, a surviving general is still found by its id. */
  lemma KeepIndex(gs: seq<General>, area: set<Pos>, spareMain: bool, k: int)
    requires UniqueIds(gs) && 0 <= k < |gs| && Kept(gs[k], area, spareMain)
    ensures GeneralIndex(Keep(gs, area, spareMain), gs[k].id) >= 0
    ensures Keep(gs, area, spareMain)[GeneralIndex(Keep(gs, area, spareMain), gs[k].id)] == gs[k]
  {
    var r := Keep(gs, area, spareMain);
    KeepMembers(gs, area, spareMain);
    assert gs[k] in r;
    var m := GeneralIndex(r, gs[k].id);
    assert r[m] in r;
    var j :| 0 <= j < |gs| && gs[j] == r[m];
  }

  /** When every general survives, the list is unchanged. */
  lemma {:induction false} KeepAll(gs: seq<General>, area: set<Pos>, spareMain: bool)
    requires forall k :: 0 <= k < |gs| ==> Kept(gs[k], area, spareMain)
    ensures Keep(gs, area, spareMain) == gs
    decreases |gs|
  {
    if |gs| > 0 {
      KeepAll(gs[..|gs| - 1], area, spareMain);
    }
  }

  /** Removing the one general standing on `q`, at index `k`, cuts it out of the list. */
  lemma {:induction false} KeepSplit(gs: seq<General>, q: Pos, k: int)
    requires 0 <= k < |gs| && gs[k].pos == q
    requires forall j :: 0 <= j < |gs| && j != k ==> gs[j].pos != q
    ensures Keep(gs, {q}, false) == gs[..k] + gs[k + 1..]
    decreases |gs|
  {
    var init, last := gs[..|gs| - 1], gs[|gs| - 1];
    if k == |gs| - 1 {
      KeepAll(init, {q}, false);
    } else {
      KeepSplit(init, q, k);
      assert init[..k] == gs[..k];
      assert init[k + 1..] + [last] == gs[k + 1..];
    }
  }

  /** Adding a cell whose generals are all spared does not change the survivors. */
  lemma {:induction false} KeepSame(gs: seq<General>, area: set<Pos>, q: Pos)
    requires forall k :: 0 <= k < |gs| && gs[k].pos == q ==> gs[k].kind == MainGeneral
    ensures Keep(gs, area, true) == Keep(gs, area + {q}, true)
    decreases |gs|
  {
    if |gs| > 0 {
      KeepSame(gs[..|gs| - 1], area, q);
    }
  }

  /** Adding a cell none of whose generals is spared removes every general on it. */
  lemma {:induction false} KeepMore(gs: seq<General>, area: set<Pos>, q: Pos)
    requires forall k :: 0 <= k < |gs| && gs[k].pos == q ==> gs[k].kind != MainGeneral
    ensures Keep(Keep(gs, area, true), {q}, false) == Keep(gs, area + {q}, true)
    decreases |gs|
  {
    if |gs| > 0 {
      var init, last := gs[..|gs| - 1], gs[|gs| - 1];
      KeepMore(init, area, q);
      var r0 := Keep(init, area, true);
      assert forall k :: 0 <= k < |init| ==> init[k] == gs[k];
      assert last == gs[|gs| - 1];
      if Kept(last, area, true) {
        assert Keep(gs, area, true) == r0 + [last];
        assert (r0 + [last])[..|r0|] == r0;
        assert Keep(r0 + [last], {q}, false) == Keep(r0, {q}, false) + (if last.pos != q then [last] else []);
      } else {
        assert Keep(gs, area, true) == r0;
      }
    }
  }

  /** At most one general stands on `q`. */
  predicate Alone(gs: seq<General>, q: Pos)
  {
    forall k1, k2 :: 0 <= k1 < |gs| && 0 <= k2 < |gs| && gs[k1].pos == q && gs[k2].pos == q ==> k1 == k2
  }

  /**
   * The loop of `handle_bomb_cell` that removes every general standing on
   * `q` while iterating over the same list: as with a Python list iterator,
   * the index moves on after a removal, so the element that slid into the
   * removed one's place is not looked at. With one general per cell that
   * skip never matters.
   */
  method RemoveGeneralsAt(gs: seq<General>, q: Pos) returns (r: seq<General>)
    requires Alone(gs, q)
    ensures r == Keep(gs, {q}, false)
  {
    r := gs;
    var k := 0;
    ghost var removed := false;
    while k < |r|
      invariant k <= |r| + 1
      invariant !removed ==> r == gs && k <= |gs| && forall j :: 0 <= j < k ==> gs[j].pos != q
      invariant removed ==> r == Keep(gs, {q}, false) && forall j :: 0 <= j < |r| ==> r[j].pos != q
      decreases |r| + 1 - k
    {
      if r[k].pos == q {
        if removed {
          assert false;
        }
        KeepSplit(gs, q, k);
        KeepMembers(gs, {q}, false);
        r := r[..k] + r[k + 1..];
        removed := true;
        assert forall j :: 0 <= j < |r| ==> r[j] in Keep(gs, {q}, false);
      }
      k := k + 1;
    }
    if !removed {
      KeepAll(gs, {q}, false);
    }
  }

  // ---------------------------------------------------------------------
  // handle_bomb_cell (logic/super_weapons.py:31-50)

  /** `isinstance(cell.generals, MainGenerals)`: the cell holds a main general. */
  predicate MainAt(b: Board, gs: seq<General>, q: Pos)
    requires 0 <= q.x < |b| && 0 <= q.y < |b[q.x]|
  {
    GenAt(b, gs, q).Some? && GenAt(b, gs, q).value.kind == MainGeneral
  }

  /** One bombed cell: halved under a main general, otherwise emptied, neutral and without general. */
  function BombCell(c: Cell, main: bool): Cell
  {
    if main then c.(army := c.army / 2) else c.(army := 0, owner := -1, gen := None)
  }

  /** The state after `handle_bomb_cell` on `q`: the cell bombed, and any general on it removed unless main. */
  function Blasted(w: World, q: Pos): World
    requires 0 <= q.x < |w.board| && 0 <= q.y < |w.board[q.x]|
  {
    var main := MainAt(w.board, w.generals, q);
    w.(board := SetCell(w.board, q, BombCell(w.board[q.x][q.y], main)),
       generals := if main then w.generals else Keep(w.generals, {q}, false))
  }

  /** Under the invariant every general standing on `q` is the one the cell refers to. */
  lemma OnlyHolder(cfg: Config, w: World, q: Pos)
    requires WorldOk(cfg, w) && InBounds(cfg, q)
    ensures forall k :: 0 <= k < |w.generals| && w.generals[k].pos == q ==> GenAt(w.board, w.generals, q) == Some(w.generals[k])
    ensures Alone(w.generals, q)
  {
    forall k | 0 <= k < |w.generals| && w.generals[k].pos == q
      ensures GenAt(w.board, w.generals, q) == Some(w.generals[k])
    {
      IndexOfListed(w, k);
    }
  }

  /**
   * Clearing the general reference of cell `q` and dropping the generals
   * standing there keeps ids unique and cells and generals pointing at each
   * other.
   */
  lemma ClearedLinks(b: Board, gs: seq<General>, q: Pos, c: Cell)
    requires 0 <= q.x < |b| && 0 <= q.y < |b[q.x]| && c.gen.None?
    requires UniqueIds(gs) && Placed(b, gs) && Linked(b, gs)
    ensures UniqueIds(Keep(gs, {q}, false))
    ensures Placed(SetCell(b, q, c), Keep(gs, {q}, false))
    ensures Linked(SetCell(b, q, c), Keep(gs, {q}, false))
  {
    KeepUnique(gs, {q}, false);
    ClearedPlaced(b, gs, q, c);
    ClearedLinked(b, gs, q, c);
  }

  /** The generals kept off `q` still stand on cells that name them. */
  lemma ClearedPlaced(b: Board, gs: seq<General>, q: Pos, c: Cell)
    requires 0 <= q.x < |b| && 0 <= q.y < |b[q.x]|
    requires Placed(b, gs)
    ensures Placed(SetCell(b, q, c), Keep(gs, {q}, false))
  {
    var b': Board, gs': seq<General> := SetCell(b, q, c), Keep(gs, {q}, false);
    KeepMembers(gs, {q}, false);
    forall k | 0 <= k < |gs'|
      ensures 0 <= gs'[k].pos.x < |b'| && 0 <= gs'[k].pos.y < |b'[gs'[k].pos.x]|
      ensures b'[gs'[k].pos.x][gs'[k].pos.y].gen == Some(gs'[k].id)
    {
      assert gs'[k] in gs';
      var j :| 0 <= j < |gs| && gs[j] == gs'[k];
    }
  }

  /** Every cell but `q` still finds its general, at that cell, among those kept. */
  lemma ClearedLinked(b: Board, gs: seq<General>, q: Pos, c: Cell)
    requires 0 <= q.x < |b| && 0 <= q.y < |b[q.x]| && c.gen.None?
    requires UniqueIds(gs) && Linked(b, gs)
    ensures Linked(SetCell(b, q, c), Keep(gs, {q}, false))
  {
    var b': Board, gs': seq<General> := SetCell(b, q, c), Keep(gs, {q}, false);
    forall i, j | 0 <= i < |b'| && 0 <= j < |b'[i]| && b'[i][j].gen.Some?
      ensures GeneralIndex(gs', b'[i][j].gen.value) >= 0
      ensures gs'[GeneralIndex(gs', b'[i][j].gen.value)].pos == Pos(i, j)
    {
      var k := GeneralIndex(gs, b[i][j].gen.value);
      KeepIndex(gs, {q}, false, k);
    }
  }

  /** Every surviving general is one of the listed ones, so still admissible. */
  lemma KeepAdmissible(cfg: Config, gs: seq<General>, area: set<Pos>, spareMain: bool, nextId: nat)
    requires forall k :: 0 <= k < |gs| ==> GeneralOk(cfg, gs[k], nextId)
    ensures forall k :: 0 <= k < |Keep(gs, area, spareMain)| ==> GeneralOk(cfg, Keep(gs, area, spareMain)[k], nextId)
  {
    var gs' := Keep(gs, area, spareMain);
    KeepMembers(gs, area, spareMain);
    forall k | 0 <= k < |gs'|
      ensures GeneralOk(cfg, gs'[k], nextId)
    {
      assert gs'[k] in gs';
      var j :| 0 <= j < |gs| && gs[j] == gs'[k];
    }
  }

  /** One bombed cell keeps the state well formed. */
  lemma BlastedKeepsInvariant(cfg: Config, w: World, q: Pos)
    requires WorldOk(cfg, w) && InBounds(cfg, q)
    ensures WorldOk(cfg, Blasted(w, q))
  {
    var main := MainAt(w.board, w.generals, q);
    var c := BombCell(w.board[q.x][q.y], main);
    SetCellFrame(cfg, w.board, q, c);
    if main {
      WorldOkFrame(cfg, w, Blasted(w, q));
    } else {
      ClearedLinks(w.board, w.generals, q, c);
      KeepAdmissible(cfg, w.generals, {q}, false, w.nextId);
    }
  }

  /** The writes of `handle_bomb_cell`, on the board and the list of generals. */
  method BombCellWrites(ghost cfg: Config, ghost w: World, board: Board, generals: seq<General>, q: Pos)
    returns (board': Board, generals': seq<General>)
    requires WorldOk(cfg, w) && board == w.board && generals == w.generals && InBounds(cfg, q)
    ensures board' == Blasted(w, q).board && generals' == Blasted(w, q).generals
  {
    var cell := board[q.x][q.y];
    var main := false;
    if cell.gen.Some? {
      var k := GeneralIndex(generals, cell.gen.value);
      main := k >= 0 && generals[k].kind == MainGeneral;
    }
    generals' := generals;
    if main {
      cell := cell.(army := cell.army / 2);
    } else {
      cell := cell.(army := 0, owner := -1, gen := None);
      OnlyHolder(cfg, w, q);
      generals' := RemoveGeneralsAt(generals, q);
    }
    board' := SetCell(board, q, cell);
  }

  /** `handle_bomb_cell` on the state. */
  method HandleBombCell(s: GameState, q: Pos)
    requires s.Valid() && InBounds(s.cfg, q)
    modifies s
    ensures s.Valid() && s.Model() == Blasted(old(s.Model()), q)
  {
    ghost var w := s.Model();
    var board, generals := BombCellWrites(s.cfg, w, s.board, s.generals, q);
    s.board, s.generals := board, generals;
    BlastedKeepsInvariant(s.cfg, w, q);
  }

  // ---------------------------------------------------------------------
  // handle_bomb (logic/super_weapons.py:6-28)

  /** The set `handle_bomb` collects: the 3x3 square around `p`, each coordinate clamped to the board. */
  function Area(cfg: Config, p: Pos): set<Pos>
  {
    var x1 := if p.x - 1 >= 0 then p.x - 1 else 0;
    var x3 := if p.x + 1 <= cfg.rows - 1 then p.x + 1 else cfg.rows - 1;
    var y1 := if p.y - 1 >= 0 then p.y - 1 else 0;
    var y3 := if p.y + 1 <= cfg.cols - 1 then p.y + 1 else cfg.cols - 1;
    {} + {Pos(x1, y1)} + {Pos(x1, p.y)} + {Pos(x1, y3)} + {Pos(p.x, y1)} + {Pos(p.x, p.y)} + {Pos(p.x, y3)}
       + {Pos(x3, y1)} + {Pos(x3, p.y)} + {Pos(x3, y3)}
  }

  /**
   * The clamped set is exactly the board cells within Chebyshev distance 1:
   * clamping only repeats cells, and the set keeps one copy of each.
   */
  lemma AreaIs(cfg: Config, p: Pos)
    requires InBounds(cfg, p)
    ensures forall q :: q in Area(cfg, p) <==> InBounds(cfg, q) && Near(p, q, 1)
  {
  }

  /** The board after bombing every cell of `area`, each judged on the board before the bomb. */
  function BombBoard(b: Board, gs: seq<General>, area: set<Pos>): Board
  {
    seq(|b|, i requires 0 <= i < |b| =>
      seq(|b[i]|, j requires 0 <= j < |b[i]| =>
        if Pos(i, j) in area then BombCell(b[i][j], MainAt(b, gs, Pos(i, j))) else b[i][j]))
  }

  /** The state after `handle_bomb_cell` has run on every cell of `area`, in any order. */
  function Bombarded(w: World, area: set<Pos>): World
  {
    w.(board := BombBoard(w.board, w.generals, area), generals := Keep(w.generals, area, true))
  }

  /** Nothing bombed yet. */
  lemma BombardedNone(w: World)
    ensures Bombarded(w, {}) == w
  {
    KeepAll(w.generals, {}, true);
    BoardExt(Bombarded(w, {}).board, w.board);
  }

  /** A cell outside `area` keeps its contents, and its general, when `area` is bombed. */
  lemma OutsideUntouched(b: Board, gs: seq<General>, area: set<Pos>, q: Pos)
    requires 0 <= q.x < |b| && 0 <= q.y < |b[q.x]| && q !in area
    requires UniqueIds(gs) && Linked(b, gs)
    ensures BombBoard(b, gs, area)[q.x][q.y] == b[q.x][q.y]
    ensures MainAt(BombBoard(b, gs, area), Keep(gs, area, true), q) == MainAt(b, gs, q)
  {
    if b[q.x][q.y].gen.Some? {
      var k := GeneralIndex(gs, b[q.x][q.y].gen.value);
      KeepIndex(gs, area, true, k);
    }
  }

  /** Bombing `q` on top of `area`, as judged on the original board, is bombing `area + {q}`. */
  lemma BombBoardStep(b: Board, gs: seq<General>, area: set<Pos>, q: Pos)
    requires 0 <= q.x < |b| && 0 <= q.y < |b[q.x]|
    ensures SetCell(BombBoard(b, gs, area), q, BombCell(b[q.x][q.y], MainAt(b, gs, q))) == BombBoard(b, gs, area + {q})
  {
    BoardExt(SetCell(BombBoard(b, gs, area), q, BombCell(b[q.x][q.y], MainAt(b, gs, q))), BombBoard(b, gs, area + {q}));
  }

  /** The generals `handle_bomb_cell` removes on `q` are those the blast over `area + {q}` removes there. */
  lemma KeepStep(cfg: Config, w: World, area: set<Pos>, q: Pos)
    requires WorldOk(cfg, w) && InBounds(cfg, q)
    ensures (if MainAt(w.board, w.generals, q) then Keep(w.generals, area, true)
             else Keep(Keep(w.generals, area, true), {q}, false)) == Keep(w.generals, area + {q}, true)
  {
    OnlyHolder(cfg, w, q);
    if MainAt(w.board, w.generals, q) {
      KeepSame(w.generals, area, q);
    } else {
      KeepMore(w.generals, area, q);
    }
  }

  /**
   * Bombing one more cell `q` of the board, after the cells of `area`, gives
   * the state in which `area + {q}` is bombed: the order of the set does not
   * matter.
   */
  lemma BombStep(cfg: Config, w: World, area: set<Pos>, q: Pos)
    requires WorldOk(cfg, w) && InBounds(cfg, q) && q !in area
    ensures Blasted(Bombarded(w, area), q) == Bombarded(w, area + {q})
  {
    OutsideUntouched(w.board, w.generals, area, q);
    BombBoardStep(w.board, w.generals, area, q);
    KeepStep(cfg, w, area, q);
  }

  /** Bombing any set of board cells keeps the state well formed. */
  lemma {:induction false} BombardedOk(cfg: Config, w: World, area: set<Pos>)
    requires WorldOk(cfg, w) && forall q :: q in area ==> InBounds(cfg, q)
    ensures WorldOk(cfg, Bombarded(w, area))
    decreases |area|
  {
    if area == {} {
      BombardedNone(w);
    } else {
      var q :| q in area;
      var rest := area - {q};
      assert rest + {q} == area;
      BombardedOk(cfg, w, rest);
      BombStep(cfg, w, rest, q);
      BlastedKeepsInvariant(cfg, Bombarded(w, rest), q);
    }
  }

  /** The board part of `BombEffect`. */
  lemma BombBoardEffect(cfg: Config, b: Board, gs: seq<General>, p: Pos)
    requires Shaped(cfg, b) && InBounds(cfg, p)
    ensures Shaped(cfg, BombBoard(b, gs, Area(cfg, p)))
    ensures forall i, j :: 0 <= i < cfg.rows && 0 <= j < cfg.cols ==>
      var c, c' := b[i][j], BombBoard(b, gs, Area(cfg, p))[i][j];
      if !Near(p, Pos(i, j), 1) then c' == c
      else if MainAt(b, gs, Pos(i, j)) then c' == c.(army := c.army / 2)
      else c' == c.(army := 0, owner := -1, gen := None)
  {
    AreaIs(cfg, p);
  }

  /** The generals part of `BombEffect`. */
  lemma BombGeneralsEffect(cfg: Config, gs: seq<General>, p: Pos)
    requires InBounds(cfg, p) && forall k :: 0 <= k < |gs| ==> InBounds(cfg, gs[k].pos)
    ensures forall g :: g in Keep(gs, Area(cfg, p), true) <==> g in gs && (!Near(p, g.pos, 1) || g.kind == MainGeneral)
  {
    AreaIs(cfg, p);
    KeepMembers(gs, Area(cfg, p), true);
    forall g | g in gs
      ensures InBounds(cfg, g.pos)
    {
      var k :| 0 <= k < |gs| && gs[k] == g;
    }
  }

  /**
   * What the bomb does to the board and the generals (logic/super_weapons.py:33-47):
   * each board cell within distance 1 of `p` is halved if it holds a main
   * general and otherwise emptied, made neutral and cleared of its general;
   * every other cell is unchanged. Exactly the generals around `p` that are
   * not main generals are removed.
   */
  lemma BombEffect(cfg: Config, w: World, p: Pos)
    requires WorldOk(cfg, w) && InBounds(cfg, p)
    ensures Shaped(cfg, Bombarded(w, Area(cfg, p)).board)
    ensures forall i, j :: 0 <= i < cfg.rows && 0 <= j < cfg.cols ==>
      var c, c' := w.board[i][j], Bombarded(w, Area(cfg, p)).board[i][j];
      if !Near(p, Pos(i, j), 1) then c' == c
      else if MainAt(w.board, w.generals, Pos(i, j)) then c' == c.(army := c.army / 2)
      else c' == c.(army := 0, owner := -1, gen := None)
    ensures forall g :: g in Bombarded(w, Area(cfg, p)).generals <==>
      g in w.generals && (!Near(p, g.pos, 1) || g.kind == MainGeneral)
  {
    BombBoardEffect(cfg, w.board, w.generals, p);
    assert forall k :: 0 <= k < |w.generals| ==> GeneralOk(cfg, w.generals[k], w.nextId);
    BombGeneralsEffect(cfg, w.generals, p);
  }

  /** `handle_bomb` on the state: every cell of the clamped square, once each, in the set's order. */
  method HandleBomb(s: GameState, p: Pos)
    requires s.Valid() && InBounds(s.cfg, p)
    modifies s
    ensures s.Valid() && s.Model() == Bombarded(old(s.Model()), Area(s.cfg, p))
  {
    var combinations := Area(s.cfg, p);
    AreaInside(s.cfg, p);
    BombCells(s, combinations);
  }

  /** The loop of the bomb: every cell of `area`, in an order the model leaves open. */
  method BombCells(s: GameState, area: set<Pos>)
    requires s.Valid() && forall q :: q in area ==> InBounds(s.cfg, q)
    modifies s
    ensures s.Valid() && s.Model() == Bombarded(old(s.Model()), area)
  {
    ghost var w := s.Model();
    BombardedNone(w);
    var todo := area;
    ghost var done: set<Pos> := {};
    while todo != {}
      invariant todo + done == area && todo !! done
      invariant WorldOk(s.cfg, w) && s.Valid() && s.Model() == Bombarded(w, done)
      decreases |todo|
    {
      var q :| q in todo;
      MoveOne(todo, done, area, q);
      BombOne(s, w, done, q);
      todo := todo - {q};
      done := done + {q};
    }
    assert done == area;
  }

  /** Every cell of the bomb area lies on the board. */
  lemma AreaInside(cfg: Config, p: Pos)
    requires InBounds(cfg, p)
    ensures forall q :: q in Area(cfg, p) ==> InBounds(cfg, q)
  {
  }

  /** One round of the bomb loop: bombing `q` extends the bombed area by `q`. */
  method BombOne(s: GameState, ghost w: World, ghost done: set<Pos>, q: Pos)
    requires WorldOk(s.cfg, w) && InBounds(s.cfg, q) && q !in done
    requires s.Valid() && s.Model() == Bombarded(w, done)
    modifies s
    ensures s.Valid() && s.Model() == Bombarded(w, done + {q})
  {
    HandleBombCell(s, q);
    BombStep(s.cfg, w, done, q);
  }

  /** Moving one cell from the cells still to bomb to the cells bombed keeps the partition. */
  lemma MoveOne(todo: set<Pos>, done: set<Pos>, area: set<Pos>, q: Pos)
    requires todo + done == area && todo !! done && q in todo
    ensures (todo - {q}) + (done + {q}) == area && (todo - {q}) !! (done + {q})
    ensures q !in done
  {
  }

  // ---------------------------------------------------------------------
  // The four weapons (logic/super_weapons.py:53-183)

  /** The player may fire: 0 or 1, super weapons unlocked, and the cooldown at 0. */
  predicate Ready(w: World, player: int)
  {
    0 <= player <= 1 && w.unlocked[player] && w.weaponCd[player] == 0
  }

  /** Firing: the cooldown back to `use_cd` and one more active weapon. */
  function Armed(cfg: Config, w: World, player: int, weapon: Weapon): World
    requires 0 <= player <= 1
  {
    w.(weapons := w.weapons + [weapon], weaponCd := w.weaponCd[player := cfg.useCd])
  }

  /** `bomb`: a NUCLEAR_BOOM lasting 5 rounds, then the blast on the clamped square. */
  function BombOutcome(cfg: Config, w: World, p: Pos, player: int): Outcome
  {
    if Ready(w, player) && InBounds(cfg, p)
    then Outcome(true, Bombarded(Armed(cfg, w, player, Weapon(NuclearBoom, player, 0, 5, p)), Area(cfg, p)))
    else Outcome(false, w)
  }

  /** `strengthen`: an ATTACK_ENHANCE lasting 5 rounds; nothing else changes. */
  function StrengthenOutcome(cfg: Config, w: World, p: Pos, player: int): Outcome
  {
    if Ready(w, player) && InBounds(cfg, p)
    then Outcome(true, Armed(cfg, w, player, Weapon(AttackEnhance, player, 5, 5, p)))
    else Outcome(false, w)
  }

  /** `timestop`: a TIME_STOP lasting 10 rounds; nothing else changes. */
  function TimestopOutcome(cfg: Config, w: World, p: Pos, player: int): Outcome
  {
    if Ready(w, player) && InBounds(cfg, p)
    then Outcome(true, Armed(cfg, w, player, Weapon(TimeStop, player, 10, 10, p)))
    else Outcome(false, w)
  }

  /**
   * The board after `tp` (lines 136-141): the start keeps one unit, then the
   * destination, read after that write, gets the rest and the player. When
   * start and destination are the same cell, the second write is the one
   * that remains.
   */
  function Teleported(b: Board, st: Pos, to: Pos, player: int): Board
    requires 0 <= st.x < |b| && 0 <= st.y < |b[st.x]| && 0 <= to.x < |b| && 0 <= to.y < |b[to.x]|
    requires b[st.x][st.y].army >= 1
  {
    var b1 := SetCell(b, st, b[st.x][st.y].(army := 1));
    SetCell(b1, to, b1[to.x][to.y].(army := b[st.x][st.y].army - 1, owner := player))
  }

  /**
   * `tp`: from a start the player owns with at least two units to a
   * destination without general; a TRANSMISSION lasting 2 rounds on the
   * destination.
   */
  function TpOutcome(cfg: Config, w: World, st: Pos, to: Pos, player: int): Outcome
    requires Shaped(cfg, w.board)
  {
    if Ready(w, player) && InBounds(cfg, st) && InBounds(cfg, to) &&
       w.board[st.x][st.y].owner == player && w.board[to.x][to.y].gen.None? && w.board[st.x][st.y].army >= 2
    then Outcome(true, Armed(cfg, w.(board := Teleported(w.board, st, to, player)), player,
                              Weapon(Transmission, player, 2, 2, to)))
    else Outcome(false, w)
  }

  /** Whether the weapon `weapon` was fired by `player` from `w`, leaving `w'`. */
  predicate Fired(cfg: Config, w: World, w': World, player: int, weapon: Weapon)
    requires 0 <= player <= 1
  {
    w'.weapons == w.weapons + [weapon] && w'.weaponCd[player] == cfg.useCd &&
    w'.weaponCd[1 - player] == w.weaponCd[1 - player] && w'.coin == w.coin &&
    w'.unlocked == w.unlocked && w'.tech == w.tech && w'.round == w.round && w'.nextId == w.nextId
  }

  /**
   * The bomb succeeds exactly when the player is ready and the target is on
   * the board; a refusal changes nothing, and a success fires a
   * NUCLEAR_BOOM with 5 rounds left at the target and spends no coin.
   */
  lemma BombChecks(cfg: Config, w: World, p: Pos, player: int)
    ensures BombOutcome(cfg, w, p, player).ok <==> Ready(w, player) && InBounds(cfg, p)
    ensures !BombOutcome(cfg, w, p, player).ok ==> BombOutcome(cfg, w, p, player).world == w
    ensures BombOutcome(cfg, w, p, player).ok ==>
      Fired(cfg, w, BombOutcome(cfg, w, p, player).world, player, Weapon(NuclearBoom, player, 0, 5, p))
  {
  }

  /** Strengthen succeeds exactly when ready and on the board, and then only fires an ATTACK_ENHANCE. */
  lemma StrengthenChecks(cfg: Config, w: World, p: Pos, player: int)
    ensures StrengthenOutcome(cfg, w, p, player).ok <==> Ready(w, player) && InBounds(cfg, p)
    ensures !StrengthenOutcome(cfg, w, p, player).ok ==> StrengthenOutcome(cfg, w, p, player).world == w
    ensures StrengthenOutcome(cfg, w, p, player).ok ==>
      Fired(cfg, w, StrengthenOutcome(cfg, w, p, player).world, player, Weapon(AttackEnhance, player, 5, 5, p)) &&
      StrengthenOutcome(cfg, w, p, player).world.board == w.board &&
      StrengthenOutcome(cfg, w, p, player).world.generals == w.generals
  {
  }

  /** Time stop succeeds exactly when ready and on the board, and then only fires a TIME_STOP. */
  lemma TimestopChecks(cfg: Config, w: World, p: Pos, player: int)
    ensures TimestopOutcome(cfg, w, p, player).ok <==> Ready(w, player) && InBounds(cfg, p)
    ensures !TimestopOutcome(cfg, w, p, player).ok ==> TimestopOutcome(cfg, w, p, player).world == w
    ensures TimestopOutcome(cfg, w, p, player).ok ==>
      Fired(cfg, w, TimestopOutcome(cfg, w, p, player).world, player, Weapon(TimeStop, player, 10, 10, p)) &&
      TimestopOutcome(cfg, w, p, player).world.board == w.board &&
      TimestopOutcome(cfg, w, p, player).world.generals == w.generals
  {
  }

  /**
   * `tp` succeeds exactly when ready, both cells are on the board, the
   * start is the player's with at least two units and the destination has no
   * general; a refusal changes nothing, and a success fires a TRANSMISSION
   * with 2 rounds left at the destination.
   */
  lemma TpChecks(cfg: Config, w: World, st: Pos, to: Pos, player: int)
    requires Shaped(cfg, w.board)
    ensures TpOutcome(cfg, w, st, to, player).ok <==>
      Ready(w, player) && InBounds(cfg, st) && InBounds(cfg, to) &&
      w.board[st.x][st.y].owner == player && w.board[to.x][to.y].gen.None? && w.board[st.x][st.y].army >= 2
    ensures !TpOutcome(cfg, w, st, to, player).ok ==> TpOutcome(cfg, w, st, to, player).world == w
    ensures TpOutcome(cfg, w, st, to, player).ok ==>
      Fired(cfg, w, TpOutcome(cfg, w, st, to, player).world, player, Weapon(Transmission, player, 2, 2, to)) &&
      TpOutcome(cfg, w, st, to, player).world.generals == w.generals
  {
  }

  /**
   * What `tp` does to the board: the destination gets exactly the start's
   * units but one (overwriting its own) and the player; the start keeps one
   * unit unless it is the destination; no other cell changes.
   */
  lemma TpEffect(cfg: Config, w: World, st: Pos, to: Pos, player: int)
    requires Shaped(cfg, w.board) && TpOutcome(cfg, w, st, to, player).ok
    ensures Shaped(cfg, TpOutcome(cfg, w, st, to, player).world.board)
    ensures var b, b' := w.board, TpOutcome(cfg, w, st, to, player).world.board;
      b'[to.x][to.y] == b[to.x][to.y].(army := b[st.x][st.y].army - 1, owner := player) &&
      (st != to ==> b'[st.x][st.y] == b[st.x][st.y].(army := 1)) &&
      forall i, j :: 0 <= i < cfg.rows && 0 <= j < cfg.cols && Pos(i, j) != st && Pos(i, j) != to ==> b'[i][j] == b[i][j]
  {
  }

  /** Firing a weapon aimed at the board keeps the state well formed. */
  lemma ArmedKeepsInvariant(cfg: Config, w: World, player: int, weapon: Weapon)
    requires WorldOk(cfg, w) && 0 <= player <= 1 && InBounds(cfg, weapon.pos)
    ensures WorldOk(cfg, Armed(cfg, w, player, weapon))
  {
    WorldOkFrame(cfg, w, Armed(cfg, w, player, weapon));
  }

  /** The bomb keeps the state well formed. */
  lemma BombKeepsInvariant(cfg: Config, w: World, p: Pos, player: int)
    requires WorldOk(cfg, w)
    ensures WorldOk(cfg, BombOutcome(cfg, w, p, player).world)
  {
    if Ready(w, player) && InBounds(cfg, p) {
      var weapon := Weapon(NuclearBoom, player, 0, 5, p);
      ArmedKeepsInvariant(cfg, w, player, weapon);
      AreaIs(cfg, p);
      BombardedOk(cfg, Armed(cfg, w, player, weapon), Area(cfg, p));
    }
  }

  /** `tp` keeps the state well formed. */
  lemma TpKeepsInvariant(cfg: Config, w: World, st: Pos, to: Pos, player: int)
    requires WorldOk(cfg, w)
    ensures WorldOk(cfg, TpOutcome(cfg, w, st, to, player).world)
  {
    if TpOutcome(cfg, w, st, to, player).ok {
      TpEffect(cfg, w, st, to, player);
      var w1 := w.(board := Teleported(w.board, st, to, player));
      WorldOkFrame(cfg, w, w1);
      ArmedKeepsInvariant(cfg, w1, player, Weapon(Transmission, player, 2, 2, to));
    }
  }

  /** Fires `weapon`: it joins the active weapons and the player's cooldown restarts. */
  method Arm(s: GameState, player: int, weapon: Weapon)
    requires s.Valid() && 0 <= player <= 1 && InBounds(s.cfg, weapon.pos)
    modifies s
    ensures s.Valid() && s.Model() == Armed(s.cfg, old(s.Model()), player, weapon)
  {
    ghost var w := s.Model();
    s.activeWeapons := s.activeWeapons + [weapon];
    s.weaponCd := s.weaponCd[player := s.cfg.useCd];
    ArmedKeepsInvariant(s.cfg, w, player, weapon);
  }

  /** `bomb` on the state. */
  method Bomb(s: GameState, p: Pos, player: int) returns (ok: bool)
    requires s.Valid()
    modifies s
    ensures s.Valid() && Outcome(ok, s.Model()) == BombOutcome(s.cfg, old(s.Model()), p, player)
  {
    if player != 0 && player != 1 {
      return false;
    }
    if p.x < 0 || p.x >= s.cfg.rows || p.y < 0 || p.y >= s.cfg.cols {
      return false;
    }
    if s.weaponUnlocked[player] && s.weaponCd[player] == 0 {
      ghost var w := s.Model();
      ghost var weapon := Weapon(NuclearBoom, player, 0, 5, p);
      assert BombOutcome(s.cfg, w, p, player) == Outcome(true, Bombarded(Armed(s.cfg, w, player, weapon), Area(s.cfg, p)));
      Arm(s, player, Weapon(NuclearBoom, player, 0, 5, p));
      HandleBomb(s, p);
      ok := true;
    } else {
      ok := false;
    }
  }

  /** `strengthen` on the state. */
  method Strengthen(s: GameState, p: Pos, player: int) returns (ok: bool)
    requires s.Valid()
    modifies s
    ensures s.Valid() && Outcome(ok, s.Model()) == StrengthenOutcome(s.cfg, old(s.Model()), p, player)
  {
    if player != 0 && player != 1 {
      return false;
    }
    if p.x < 0 || p.x >= s.cfg.rows || p.y < 0 || p.y >= s.cfg.cols {
      return false;
    }
    if s.weaponUnlocked[player] && s.weaponCd[player] == 0 {
      Arm(s, player, Weapon(AttackEnhance, player, 5, 5, p));
      ok := true;
    } else {
      ok := false;
    }
  }

  /** Teleporting keeps the board shaped and its owners in range, and moves no general. */
  lemma TeleportedFrame(cfg: Config, b: Board, st: Pos, to: Pos, player: int)
    requires Shaped(cfg, b) && OwnersOk(b) && InBounds(cfg, st) && InBounds(cfg, to)
    requires b[st.x][st.y].army >= 1 && 0 <= player <= 1
    ensures Shaped(cfg, Teleported(b, st, to, player)) && OwnersOk(Teleported(b, st, to, player))
    ensures forall i, j :: 0 <= i < |b| && 0 <= j < |b[i]| ==> Teleported(b, st, to, player)[i][j].gen == b[i][j].gen
  {
    var b1: Board := SetCell(b, st, b[st.x][st.y].(army := 1));
    SetCellFrame(cfg, b, st, b[st.x][st.y].(army := 1));
    var c: Cell := b1[to.x][to.y];
    SetCellFrame(cfg, b1, to, c.(army := b[st.x][st.y].army - 1, owner := player));
  }

  /** `tp` on the state. */
  method Tp(s: GameState, st: Pos, to: Pos, player: int) returns (ok: bool)
    requires s.Valid()
    modifies s
    ensures s.Valid() && Outcome(ok, s.Model()) == TpOutcome(s.cfg, old(s.Model()), st, to, player)
  {
    if player != 0 && player != 1 {
      return false;
    }
    if st.x < 0 || st.x >= s.cfg.rows || st.y < 0 || st.y >= s.cfg.cols {
      return false;
    }
    if to.x < 0 || to.x >= s.cfg.rows || to.y < 0 || to.y >= s.cfg.cols {
      return false;
    }
    if !(s.weaponUnlocked[player] && s.weaponCd[player] == 0) {
      return false;
    }
    ghost var w := s.Model();
    var cellSt := s.board[st.x][st.y];
    if cellSt.owner != player || s.board[to.x][to.y].gen.Some? || cellSt.army == 0 || cellSt.army == 1 {
      return false;
    }
    var num := cellSt.army - 1;
    var board: Board := SetCell(s.board, st, cellSt.(army := 1));
    // `cell_to` is the same object as `cell_st` when both positions agree: read it after the write.
    var cellTo: Cell := board[to.x][to.y];
    board := SetCell(board, to, cellTo.(army := num, owner := player));
    assert board == Teleported(w.board, st, to, player);
    TeleportedFrame(s.cfg, s.board, st, to, player);
    ghost var weapon := Weapon(Transmission, player, 2, 2, to);
    assert TpOutcome(s.cfg, w, st, to, player) == Outcome(true, Armed(s.cfg, w.(board := board), player, weapon));
    SetBoard(s, board);
    Arm(s, player, Weapon(Transmission, player, 2, 2, to));
    ok := true;
  }

  /** `timestop` on the state. */
  method Timestop(s: GameState, p: Pos, player: int) returns (ok: bool)
    requires s.Valid()
    modifies s
    ensures s.Valid() && Outcome(ok, s.Model()) == TimestopOutcome(s.cfg, old(s.Model()), p, player)
  {
    if player != 0 && player != 1 {
      return false;
    }
    if p.x < 0 || p.x >= s.cfg.rows || p.y < 0 || p.y >= s.cfg.cols {
      return false;
    }
    if s.weaponUnlocked[player] && s.weaponCd[player] == 0 {
      Arm(s, player, Weapon(TimeStop, player, 10, 10, p));
      ok := true;
    } else {
      ok := false;
    }
  }
}
