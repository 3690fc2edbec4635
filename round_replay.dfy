/**
 * The replay snapshot of logic/generate_round_replay.py
 * (`get_single_round_replay`): the record written after every action,
 * projecting the state onto the replay format. Levels and technologies are
 * re-encoded on the way: production and mobility as `level // 2 + 1`, the
 * Farmer's defence shifted up by one tier name, army movement as
 * `(level + 1) // 2`. The encodings turn every table of logic/upgrade.py
 * into the tier numbers 1, 2, 3, ..., which `UpgradesReportOneTier` proves.
 */
module RoundReplay {
  import opened GameData
  import opened Gamestate
  import opened Upgrade

  datatype WeaponEntry = WeaponEntry(kind: int, player: int, pos: Pos, rest: int)

  datatype CellEntry = CellEntry(pos: Pos, owner: int, army: int)

  /** `Level`: production, defence and mobility as the replay names them. */
  datatype Levels = Levels(produce: int, defence: real, mobility: int)

  datatype GeneralEntry = GeneralEntry(
    id: int,
    player: int,
    kind: int,
    pos: Pos,
    level: Levels,
    skillCd: seq<int>,
    skillRest: seq<int>,
    alive: int)

  /**
   * The snapshot dictionary. `cellType` is the `Cell_type` key, which the
   * source sets inside the loop over the generals, so it is only present
   * when there is at least one general.
   */
  datatype Snapshot = Snapshot(
    round: int,
    player: int,
    action: seq<int>,
    cells: seq<CellEntry>,
    generals: seq<GeneralEntry>,
    weapons: seq<WeaponEntry>,
    weaponCds: seq<int>,
    tech: seq<seq<int>>,
    coins: seq<int>,
    cellType: Option<string>)

  // ---------------------------------------------------------------------
  // The encodings

  /** `Type` of a general: 1 Main, 2 Sub, 3 Farmer. */
  function KindCode(k: GeneralKind): int
  {
    match k
    case MainGeneral => 1
    case SubGeneral => 2
    case Farmer => 3
  }

  /** Production and mobility levels 1, 2, 4, 6 are reported as 1, 2, 3, 4. */
  function ReportedLevel(level: int): int
  {
    level / 2 + 1
  }

  /** The Farmer's defence 1.5, 2 and 3 is reported as 2, 3 and 4 (lines 55-59); other defences as they are. */
  function ReportedDefence(kind: GeneralKind, defence: real): real
  {
    if kind == Farmer then
      if defence == 1.5 then 2.0
      else if defence == 2.0 || defence == 3.0 then defence + 1.0
      else defence
    else defence
  }

  /** The army-movement technology 2, 3, 5 is reported as 1, 2, 3. */
  function ReportedMovementTech(level: int): int
  {
    (level + 1) / 2
  }

  /** One entry of `Generals` (lines 36-59). */
  function GeneralEntryOf(g: General): GeneralEntry
  {
    GeneralEntry(g.id, g.player, KindCode(g.kind), g.pos,
                 Levels(ReportedLevel(g.produce), ReportedDefence(g.kind, g.defence), ReportedLevel(g.mobility)),
                 g.skillsCd, g.skillDuration, 1)
  }

  /** One entry of `Weapons` (lines 14-22): the weapon type counted from 1. */
  function WeaponEntryOf(x: Weapon): WeaponEntry
  {
    WeaponEntry(WeaponCode(x.kind) + 1, x.player, x.pos, x.rest)
  }

  /** `Tech_level`: a copy of the table with each player's army-movement level re-encoded (lines 32-34). */
  function ReportedTech(t: TechTable): seq<seq<int>>
  {
    t[0 := t[0][0 := ReportedMovementTech(t[0][0])]][1 := t[1][0 := ReportedMovementTech(t[1][0])]]
  }

  /** The entry of `Cells` for one changed cell: its position, owner and army. */
  function CellEntryAt(cfg: Config, b: Board, p: Pos): CellEntry
    requires Shaped(cfg, b) && InBounds(cfg, p)
  {
    CellEntry(p, b[p.x][p.y].owner, b[p.x][p.y].army)
  }

  /** The snapshot of `w` after `player` did `action`, listing the cells `cells`. */
  function Replay(cfg: Config, w: World, cells: seq<Pos>, player: int, action: seq<int>): Snapshot
    requires Shaped(cfg, w.board) && forall i :: 0 <= i < |cells| ==> InBounds(cfg, cells[i])
  {
    Snapshot(
      w.round, player, action,
      seq(|cells|, i requires 0 <= i < |cells| => CellEntryAt(cfg, w.board, cells[i])),
      seq(|w.generals|, k requires 0 <= k < |w.generals| => GeneralEntryOf(w.generals[k])),
      seq(|w.weapons|, k requires 0 <= k < |w.weapons| => WeaponEntryOf(w.weapons[k])),
      w.weaponCd, ReportedTech(w.tech), w.coin,
      if |w.generals| > 0 then Some("") else None)
  }

  // ---------------------------------------------------------------------
  // What the snapshot says

  /**
   * The snapshot copies round, player, action, cooldowns and coins; lists
   * one cell entry per requested cell, in order, with its owner and army;
   * one general entry per general, in list order, alive, with its id,
   * owner, position and kind code; one weapon entry per active weapon; and
   * the technology table with only the two army-movement levels re-encoded.
   */
  lemma ReplayContents(cfg: Config, w: World, cells: seq<Pos>, player: int, action: seq<int>)
    requires Shaped(cfg, w.board) && forall i :: 0 <= i < |cells| ==> InBounds(cfg, cells[i])
    ensures var r := Replay(cfg, w, cells, player, action);
      r.round == w.round && r.player == player && r.action == action && r.weaponCds == w.weaponCd && r.coins == w.coin &&
      |r.cells| == |cells| &&
      (forall i :: 0 <= i < |cells| ==>
        r.cells[i].pos == cells[i] && r.cells[i].owner == w.board[cells[i].x][cells[i].y].owner &&
        r.cells[i].army == w.board[cells[i].x][cells[i].y].army) &&
      |r.generals| == |w.generals| &&
      (forall k :: 0 <= k < |w.generals| ==>
        r.generals[k].id == w.generals[k].id && r.generals[k].pos == w.generals[k].pos &&
        r.generals[k].player == w.generals[k].player && r.generals[k].alive == 1 &&
        1 <= r.generals[k].kind <= 3 &&
        (r.generals[k].kind == 1 <==> w.generals[k].kind == MainGeneral) &&
        (r.generals[k].kind == 3 <==> w.generals[k].kind == Farmer)) &&
      |r.weapons| == |w.weapons| &&
      (forall k :: 0 <= k < |w.weapons| ==> 1 <= r.weapons[k].kind <= 4 && r.weapons[k].pos == w.weapons[k].pos) &&
      |r.tech| == 2 &&
      (forall p, j :: 0 <= p < 2 && 0 <= j < 4 ==>
        r.tech[p][j] == if j == 0 then (w.tech[p][0] + 1) / 2 else w.tech[p][j])
  {
  }

  /**
   * The encodings count tiers: every upgrade the tables of logic/upgrade.py
   * allow raises the reported level by exactly one, for every kind of
   * general and for army movement, and the levels a general starts with
   * (1, and defence 1.0) are reported as tier 1.
   */
  lemma UpgradesReportOneTier(cfg: Config, kind: GeneralKind, level: int, defence: real, tech: int)
    ensures ReportedLevel(1) == 1 && ReportedDefence(kind, 1.0) == 1.0 && ReportedMovementTech(2) == 1
    ensures ProductionTier(cfg, kind, level).Some? ==>
      ReportedLevel(ProductionTier(cfg, kind, level).value.level) == ReportedLevel(level) + 1
    ensures MobilityTier(cfg, kind, level).Some? ==>
      ReportedLevel(MobilityTier(cfg, kind, level).value.level) == ReportedLevel(level) + 1
    ensures DefenceTier(cfg, kind, defence).Some? ==>
      ReportedDefence(kind, DefenceTier(cfg, kind, defence).value.level) == ReportedDefence(kind, defence) + 1.0
    ensures TechTier(cfg, 0, tech).Some? ==>
      ReportedMovementTech(TechTier(cfg, 0, tech).value.level) == ReportedMovementTech(tech) + 1
  {
  }

  // ---------------------------------------------------------------------
  // The operation

  /** The general's entry, built and then patched for a Farmer as the source does. */
  method GeneralEntryFor(g: General) returns (e: GeneralEntry)
    ensures e == GeneralEntryOf(g)
  {
    e := GeneralEntry(g.id, g.player, if g.kind == MainGeneral then 1 else if g.kind == SubGeneral then 2 else 3, g.pos,
                      Levels(g.produce / 2 + 1, g.defence, g.mobility / 2 + 1), g.skillsCd, g.skillDuration, 1);
    if g.kind == Farmer {
      if g.defence == 1.5 {
        e := e.(level := e.level.(defence := 2.0));
      } else if g.defence == 2.0 || g.defence == 3.0 {
        e := e.(level := e.level.(defence := g.defence + 1.0));
      }
    }
  }

  /** `get_single_round_replay` on the state; it reads the state and changes nothing. */
  method GetSingleRoundReplay(s: GameState, cells: seq<Pos>, player: int, action: seq<int>) returns (r: Snapshot)
    requires s.Valid() && forall i :: 0 <= i < |cells| ==> InBounds(s.cfg, cells[i])
    ensures r == Replay(s.cfg, s.Model(), cells, player, action)
  {
    var ws := s.activeWeapons;
    var weapons := seq(|ws|, k requires 0 <= k < |ws| => WeaponEntryOf(ws[k]));
    var cellEntries: seq<CellEntry> := [];
    var i := 0;
    while i < |cells|
      invariant 0 <= i <= |cells| && |cellEntries| == i
      invariant forall m :: 0 <= m < i ==>
        cellEntries[m] == CellEntryAt(s.cfg, s.board, cells[m])
    {
      var c := cells[i];
      cellEntries := cellEntries + [CellEntry(c, s.board[c.x][c.y].owner, s.board[c.x][c.y].army)];
      i := i + 1;
    }
    var tech := s.techLevel;
    tech := tech[0 := tech[0][0 := (s.techLevel[0][0] + 1) / 2]];
    tech := tech[1 := tech[1][0 := (s.techLevel[1][0] + 1) / 2]];
    var generals: seq<GeneralEntry> := [];
    var cellType: Option<string> := None;
    var k := 0;
    while k < |s.generals|
      invariant 0 <= k <= |s.generals| && |generals| == k
      invariant forall m :: 0 <= m < k ==> generals[m] == GeneralEntryOf(s.generals[m])
      invariant cellType == if k > 0 then Some("") else None
    {
      var e := GeneralEntryFor(s.generals[k]);
      generals := generals + [e];
      cellType := Some("");
      k := k + 1;
    }
    r := Snapshot(s.round, player, action, cellEntries, generals, weapons, s.weaponCd, tech, s.coin, cellType);
  }
}
