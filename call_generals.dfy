/**
 * `call_generals` of logic/call_generals.py: for 50 coin a player raises a
 * new Sub general on an empty cell of their own that no weapon stuns. The
 * new general takes the next free id and is appended to the general list.
 */
module CallGenerals {
  import opened GameData
  import opened Gamestate
  import opened Movement

  /**
   * The general `SubGenerals(next_generals_id, player, position)` builds:
   * the constructor's defaults with that id, owner and position.
   */
  function Recruit(cfg: Config, w: World, player: int, p: Pos): General
  {
    cfg.subTemplate.(id := w.nextId, kind := SubGeneral, player := player, pos := p)
  }

  /** The state once the call went through (lines 28-32). */
  function Called(cfg: Config, w: World, player: int, p: Pos): World
    requires InBounds(cfg, p) && Shaped(cfg, w.board) && 0 <= player <= 1
  {
    var cell := w.board[p.x][p.y];
    w.(board := SetCell(w.board, p, cell.(gen := Some(w.nextId))),
       generals := w.generals + [Recruit(cfg, w, player, p)],
       nextId := w.nextId + 1,
       coin := w.coin[player := w.coin[player] - CallGeneralCost])
  }

  /** `call_generals`: enough coin, the player's cell, no general there, no stun (lines 6-27). */
  function CallOutcome(cfg: Config, w: World, player: int, p: Pos): Outcome
    requires InBounds(cfg, p) && Shaped(cfg, w.board) && 0 <= player <= 1
  {
    if w.coin[player] < CallGeneralCost then Outcome(false, w)
    else if w.board[p.x][p.y].owner != player then Outcome(false, w)
    else if w.board[p.x][p.y].gen.Some? then Outcome(false, w)
    else if Stunned(w.weapons, p, player) then Outcome(false, w)
    else Outcome(true, Called(cfg, w, player, p))
  }

  /** Appending a general whose id is new leaves every earlier lookup as it was, and finds the new one. */
  lemma IndexAfterAppend(gs: seq<General>, g: General, id: int)
    requires forall k :: 0 <= k < |gs| ==> gs[k].id != g.id
    ensures GeneralIndex(gs + [g], id) == if id == g.id then |gs| else GeneralIndex(gs, id)
  {
    var gs': seq<General> := gs + [g];
    assert forall k :: 0 <= k < |gs| ==> gs'[k] == gs[k];
    assert gs'[|gs|] == g;
  }

  /**
   * The call succeeds exactly when the player has 50 coin, owns the cell,
   * the cell is empty and not stunned; otherwise nothing changes. On
   * success the player paid 50 out of coin that covered it, the cell holds
   * the new Sub general with id `next_generals_id` and keeps its owner,
   * army and terrain, every other cell is as before, the general is
   * appended to the list, and the next id is one higher.
   */
  lemma CallChecks(cfg: Config, w: World, player: int, p: Pos)
    requires WorldOk(cfg, w) && InBounds(cfg, p) && 0 <= player <= 1
    ensures var r := CallOutcome(cfg, w, player, p);
      r.ok <==> w.coin[player] >= CallGeneralCost && w.board[p.x][p.y].owner == player &&
                w.board[p.x][p.y].gen.None? && !Stunned(w.weapons, p, player)
    ensures !CallOutcome(cfg, w, player, p).ok ==> CallOutcome(cfg, w, player, p).world == w
    ensures CallOutcome(cfg, w, player, p).ok ==>
      var w' := CallOutcome(cfg, w, player, p).world;
      var c := w.board[p.x][p.y];
      var c' := w'.board[p.x][p.y];
      Shaped(cfg, w'.board) &&
      GenAt(w'.board, w'.generals, p) == Some(Recruit(cfg, w, player, p)) &&
      Recruit(cfg, w, player, p).kind == SubGeneral && Recruit(cfg, w, player, p).player == player &&
      Recruit(cfg, w, player, p).id == w.nextId && w'.nextId == w.nextId + 1 &&
      w'.generals == w.generals + [Recruit(cfg, w, player, p)] &&
      c'.owner == c.owner && c'.army == c.army && c'.terrain == c.terrain &&
      (forall i, j :: 0 <= i < cfg.rows && 0 <= j < cfg.cols && Pos(i, j) != p ==> w'.board[i][j] == w.board[i][j]) &&
      w'.coin[player] == w.coin[player] - CallGeneralCost >= 0 && w'.coin[1 - player] == w.coin[1 - player] &&
      w'.weapons == w.weapons && w'.tech == w.tech
  {
    if CallOutcome(cfg, w, player, p).ok {
      var g := Recruit(cfg, w, player, p);
      IdsBelow(cfg, w, g);
      IndexAfterAppend(w.generals, g, w.nextId);
    }
  }

  /** No listed general has the id `nextId` or later. */
  lemma IdsBelow(cfg: Config, w: World, g: General)
    requires WorldOk(cfg, w) && g.id == w.nextId
    ensures forall k :: 0 <= k < |w.generals| ==> w.generals[k].id != g.id
  {
    forall k | 0 <= k < |w.generals|
      ensures w.generals[k].id != g.id
    {
      assert GeneralOk(cfg, w.generals[k], w.nextId);
    }
  }

  /** A general with a new id keeps the ids unique. */
  lemma AppendUnique(gs: seq<General>, g: General)
    requires UniqueIds(gs) && forall k :: 0 <= k < |gs| ==> gs[k].id != g.id
    ensures UniqueIds(gs + [g])
  {
    var gs': seq<General> := gs + [g];
    assert forall k :: 0 <= k < |gs| ==> gs'[k] == gs[k];
    assert gs'[|gs|] == g;
  }

  /** Putting the new general on an empty cell keeps every general on its cell. */
  lemma AppendPlaced(b: Board, gs: seq<General>, g: General, p: Pos)
    requires 0 <= p.x < |b| && 0 <= p.y < |b[p.x]| && b[p.x][p.y].gen.None?
    requires Placed(b, gs) && g.pos == p
    ensures Placed(SetCell(b, p, b[p.x][p.y].(gen := Some(g.id))), gs + [g])
  {
    var b': Board := SetCell(b, p, b[p.x][p.y].(gen := Some(g.id)));
    var gs': seq<General> := gs + [g];
    forall k | 0 <= k < |gs'|
      ensures 0 <= gs'[k].pos.x < |b'| && 0 <= gs'[k].pos.y < |b'[gs'[k].pos.x]|
      ensures b'[gs'[k].pos.x][gs'[k].pos.y].gen == Some(gs'[k].id)
    {
      if k < |gs| {
        assert gs'[k] == gs[k];
        assert gs[k].pos != p;
      }
    }
  }

  /** Every cell's general is still found where it stands, the new cell's included. */
  lemma AppendLinked(b: Board, gs: seq<General>, g: General, p: Pos)
    requires 0 <= p.x < |b| && 0 <= p.y < |b[p.x]|
    requires Linked(b, gs) && g.pos == p
    requires forall k :: 0 <= k < |gs| ==> gs[k].id != g.id
    ensures Linked(SetCell(b, p, b[p.x][p.y].(gen := Some(g.id))), gs + [g])
  {
    var b': Board := SetCell(b, p, b[p.x][p.y].(gen := Some(g.id)));
    var gs': seq<General> := gs + [g];
    forall i, j | 0 <= i < |b'| && 0 <= j < |b'[i]| && b'[i][j].gen.Some?
      ensures GeneralIndex(gs', b'[i][j].gen.value) >= 0 && gs'[GeneralIndex(gs', b'[i][j].gen.value)].pos == Pos(i, j)
    {
      IndexAfterAppend(gs, g, b'[i][j].gen.value);
      if Pos(i, j) != p {
        assert b'[i][j] == b[i][j];
        var k := GeneralIndex(gs, b[i][j].gen.value);
        assert gs'[k] == gs[k];
      }
    }
  }

  /** The new general is admissible and unique, and the empty cell it takes is nobody else's. */
  lemma CallKeepsInvariant(cfg: Config, w: World, player: int, p: Pos)
    requires ConfigOk(cfg) && WorldOk(cfg, w) && InBounds(cfg, p) && 0 <= player <= 1
    ensures WorldOk(cfg, CallOutcome(cfg, w, player, p).world)
  {
    if CallOutcome(cfg, w, player, p).ok {
      var g := Recruit(cfg, w, player, p);
      var w' := Called(cfg, w, player, p);
      IdsBelow(cfg, w, g);
      SetCellFrame(cfg, w.board, p, w.board[p.x][p.y].(gen := Some(w.nextId)));
      forall k | 0 <= k < |w'.generals|
        ensures GeneralOk(cfg, w'.generals[k], w'.nextId)
      {
        if k < |w.generals| {
          assert w'.generals[k] == w.generals[k];
          assert GeneralOk(cfg, w.generals[k], w.nextId);
        }
      }
      AppendUnique(w.generals, g);
      AppendPlaced(w.board, w.generals, g, p);
      AppendLinked(w.board, w.generals, g, p);
    }
  }

  /** `call_generals` on the state (lines 5-37). */
  method CallGeneralsOn(s: GameState, player: int, p: Pos) returns (ok: bool)
    requires s.Valid() && InBounds(s.cfg, p) && 0 <= player <= 1
    modifies s
    ensures s.Valid() && Outcome(ok, s.Model()) == CallOutcome(s.cfg, old(s.Model()), player, p)
  {
    if s.coin[player] < CallGeneralCost {
      return false;
    } else if s.board[p.x][p.y].owner != player {
      return false;
    } else if s.board[p.x][p.y].gen.Some? {
      return false;
    }
    var stunned := IsStunned(s.activeWeapons, p, player);
    if stunned {
      return false;
    }
    ghost var w := s.Model();
    var g := s.cfg.subTemplate.(id := s.nextId, kind := SubGeneral, player := player, pos := p);
    s.board := SetCell(s.board, p, s.board[p.x][p.y].(gen := Some(s.nextId)));
    s.generals := s.generals + [g];
    s.nextId := s.nextId + 1;
    s.coin := s.coin[player := s.coin[player] - CallGeneralCost];
    ok := true;
    assert s.Model() == Called(s.cfg, w, player, p);
    CallKeepsInvariant(s.cfg, w, player, p);
  }
}
