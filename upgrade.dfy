/**
 * The upgrades of logic/upgrade.py: raising a general's production, defence
 * or mobility level one tier (`production_up`, `defence_up`, `movement_up`)
 * and raising one of a player's four technologies (`tech_update`).
 *
 * Each level track is a table from the current level to the next level and
 * its price; the tables are `ProductionTier`, `DefenceTier`, `MobilityTier`
 * and `TechTier`, and every operation is "look the current level up, refuse
 * when the table has no entry or the coin does not cover it, otherwise pay
 * and move one entry on".
 */
module Upgrade {
  import opened GameData
  import opened Gamestate
  import opened Movement
  import opened GeneralSkills

  /** One entry of a level table: the level reached and what it costs. */
  datatype Tier<L> = Tier(level: L, cost: int)

  // ---------------------------------------------------------------------
  // The level tables

  /**
   * Production (lines 28-84): a Farmer goes 1, 2, 4, 6; a Main or Sub
   * general goes 1, 2, 4; a Main general pays half (rounded down) of what a
   * Sub general pays for the same step.
   */
  function ProductionTier(cfg: Config, kind: GeneralKind, level: int): Option<Tier<int>>
  {
    match kind
    case Farmer =>
      if level == 1 then Some(Tier(2, cfg.farmerProductionT1))
      else if level == 2 then Some(Tier(4, cfg.farmerProductionT2))
      else if level == 4 then Some(Tier(6, cfg.farmerProductionT3))
      else None
    case MainGeneral =>
      if level == 1 then Some(Tier(2, cfg.lieutenantProductionT1 / 2))
      else if level == 2 then Some(Tier(4, cfg.lieutenantProductionT2 / 2))
      else None
    case SubGeneral =>
      if level == 1 then Some(Tier(2, cfg.lieutenantProductionT1))
      else if level == 2 then Some(Tier(4, cfg.lieutenantProductionT2))
      else None
  }

  /**
   * Defence (lines 117-173): a Farmer goes 1, 1.5, 2, 3; a Main or Sub
   * general goes 1, 2, 3, the Main general at half price.
   */
  function DefenceTier(cfg: Config, kind: GeneralKind, level: real): Option<Tier<real>>
  {
    match kind
    case Farmer =>
      if level == 1.0 then Some(Tier(1.5, cfg.farmerDefenseT1))
      else if level == 1.5 then Some(Tier(2.0, cfg.farmerDefenseT2))
      else if level == 2.0 then Some(Tier(3.0, cfg.farmerDefenseT3))
      else None
    case MainGeneral =>
      if level == 1.0 then Some(Tier(2.0, cfg.lieutenantDefenseT1 / 2))
      else if level == 2.0 then Some(Tier(3.0, cfg.lieutenantDefenseT2 / 2))
      else None
    case SubGeneral =>
      if level == 1.0 then Some(Tier(2.0, cfg.lieutenantDefenseT1))
      else if level == 2.0 then Some(Tier(3.0, cfg.lieutenantDefenseT2))
      else None
  }

  /**
   * Mobility (lines 190-247): a Farmer cannot move and is always refused; a
   * Main or Sub general goes 1, 2, 4, the Main general at half price.
   */
  function MobilityTier(cfg: Config, kind: GeneralKind, level: int): Option<Tier<int>>
  {
    match kind
    case Farmer => None
    case MainGeneral =>
      if level == 1 then Some(Tier(2, cfg.generalMovementT1 / 2))
      else if level == 2 then Some(Tier(4, cfg.generalMovementT2 / 2))
      else None
    case SubGeneral =>
      if level == 1 then Some(Tier(2, cfg.generalMovementT1))
      else if level == 2 then Some(Tier(4, cfg.generalMovementT2))
      else None
  }

  /** The moves a mobility upgrade grants at once: 1 for the first step, 2 for the second. */
  function ExtraMoves(level: int): int
  {
    if level == 1 then 1 else 2
  }

  /**
   * The technologies (lines 269-345), tracks 0 to 3: army movement goes 2,
   * 3, 5; mountaineering, swamp immunity and the super weapons go 0, 1. Any
   * other track has no entries.
   */
  function TechTier(cfg: Config, track: int, level: int): Option<Tier<int>>
  {
    if track == 0 then
      if level == 2 then Some(Tier(3, cfg.armyMovementT1))
      else if level == 3 then Some(Tier(5, cfg.armyMovementT2))
      else None
    else if track == 1 then
      if level == 0 then Some(Tier(1, cfg.mountaineering)) else None
    else if track == 2 then
      if level == 0 then Some(Tier(1, cfg.swampImmunity)) else None
    else if track == 3 then
      if level == 0 then Some(Tier(1, cfg.unlockSuperWeapon)) else None
    else None
  }

  /** The army moves an army-movement upgrade grants at once: 1 for the first step, 2 for the second. */
  function ExtraSteps(level: int): int
  {
    if level == 2 then 1 else 2
  }

  // ---------------------------------------------------------------------
  // What the three general upgrades do

  /**
   * The checks the three general upgrades share (lines 8-27, 97-116,
   * 186-207): a general on the cell, the cell the player's, and no stun.
   */
  predicate UpgradeGate(w: World, p: Pos, player: int)
    requires 0 <= p.x < |w.board| && 0 <= p.y < |w.board[p.x]|
  {
    w.board[p.x][p.y].gen.Some? && w.board[p.x][p.y].owner == player && !Stunned(w.weapons, p, player)
  }

  /** `production_up`: the holder's production level one tier on, paid for. */
  function ProductionUpOutcome(cfg: Config, w: World, p: Pos, player: int): Outcome
    requires WorldOk(cfg, w) && InBounds(cfg, p) && 0 <= player <= 1
  {
    if !UpgradeGate(w, p, player) then Outcome(false, w)
    else
      var g := Holder(w, p);
      match ProductionTier(cfg, g.kind, g.produce)
      case None => Outcome(false, w)
      case Some(t) =>
        if w.coin[player] < t.cost then Outcome(false, w)
        else Outcome(true, Charged(w, p, player, g.(produce := t.level), t.cost))
  }

  /** `defence_up`: the holder's defence level one tier on, paid for. */
  function DefenceUpOutcome(cfg: Config, w: World, p: Pos, player: int): Outcome
    requires WorldOk(cfg, w) && InBounds(cfg, p) && 0 <= player <= 1
  {
    if !UpgradeGate(w, p, player) then Outcome(false, w)
    else
      var g := Holder(w, p);
      match DefenceTier(cfg, g.kind, g.defence)
      case None => Outcome(false, w)
      case Some(t) =>
        if w.coin[player] < t.cost then Outcome(false, w)
        else Outcome(true, Charged(w, p, player, g.(defence := t.level), t.cost))
  }

  /** `movement_up`: the holder's mobility one tier on, the extra moves granted at once, paid for. */
  function MovementUpOutcome(cfg: Config, w: World, p: Pos, player: int): Outcome
    requires WorldOk(cfg, w) && InBounds(cfg, p) && 0 <= player <= 1
  {
    if !UpgradeGate(w, p, player) then Outcome(false, w)
    else
      var g := Holder(w, p);
      match MobilityTier(cfg, g.kind, g.mobility)
      case None => Outcome(false, w)
      case Some(t) =>
        if w.coin[player] < t.cost then Outcome(false, w)
        else Outcome(true, Charged(w, p, player, g.(mobility := t.level, restMove := g.restMove + ExtraMoves(g.mobility)), t.cost))
  }

  /** `tech_update`: the player's level on `track` one tier on, paid for, with the track's side effect. */
  function TechOutcome(cfg: Config, w: World, track: int, player: int): Outcome
    requires 0 <= player <= 1
  {
    if !(0 <= track < 4) then Outcome(false, w)
    else
      var level := w.tech[player][track];
      match TechTier(cfg, track, level)
      case None => Outcome(false, w)
      case Some(t) =>
        if w.coin[player] < t.cost then Outcome(false, w)
        else
          var paid := w.(tech := w.tech[player := w.tech[player][track := t.level]],
                         coin := w.coin[player := w.coin[player] - t.cost]);
          if track == 0 then
            Outcome(true, paid.(restMoveStep := w.restMoveStep[player := w.restMoveStep[player] + ExtraSteps(level)]))
          else if track == 3 then
            Outcome(true, paid.(weaponCd := w.weaponCd[player := cfg.startCd], unlocked := w.unlocked[player := true]))
          else Outcome(true, paid)
  }

  // ---------------------------------------------------------------------
  // Properties of the tables

  /**
   * Every table entry raises the level and has a price; the Main general's
   * price is half the Sub general's, for the same levels.
   */
  lemma TiersRise(cfg: Config, kind: GeneralKind, level: int, defence: real, track: int, tech: int)
    ensures ProductionTier(cfg, kind, level).Some? ==>
      ProductionTier(cfg, kind, level).value.level > level >= 1 && ProductionTier(cfg, kind, level).value.cost >= 0
    ensures DefenceTier(cfg, kind, defence).Some? ==>
      DefenceTier(cfg, kind, defence).value.level > defence >= 1.0 && DefenceTier(cfg, kind, defence).value.cost >= 0
    ensures MobilityTier(cfg, kind, level).Some? ==>
      MobilityTier(cfg, kind, level).value.level == level + ExtraMoves(level) && MobilityTier(cfg, kind, level).value.cost >= 0
    ensures TechTier(cfg, track, tech).Some? ==> TechTier(cfg, track, tech).value.level > tech && TechTier(cfg, track, tech).value.cost >= 0
    ensures TechTier(cfg, 0, tech).Some? ==> TechTier(cfg, 0, tech).value.level == tech + ExtraSteps(tech)
    ensures kind == MainGeneral ==>
      ProductionTier(cfg, kind, level).Some? == ProductionTier(cfg, SubGeneral, level).Some? &&
      (ProductionTier(cfg, kind, level).Some? ==>
        ProductionTier(cfg, kind, level).value ==
        Tier(ProductionTier(cfg, SubGeneral, level).value.level, ProductionTier(cfg, SubGeneral, level).value.cost / 2))
    ensures kind == MainGeneral ==>
      MobilityTier(cfg, kind, level).Some? == MobilityTier(cfg, SubGeneral, level).Some? &&
      (MobilityTier(cfg, kind, level).Some? ==>
        MobilityTier(cfg, kind, level).value ==
        Tier(MobilityTier(cfg, SubGeneral, level).value.level, MobilityTier(cfg, SubGeneral, level).value.cost / 2))
  {
  }

  /** How often a level can still be raised on a table: the tables are finite ladders. */
  function ProductionSteps(kind: GeneralKind, level: int): nat
  {
    match kind
    case Farmer => if level == 1 then 3 else if level == 2 then 2 else if level == 4 then 1 else 0
    case _ => if level == 1 then 2 else if level == 2 then 1 else 0
  }

  /**
   * Each production upgrade uses up one of the remaining steps, and a level
   * with no steps left (6 for a Farmer, 4 otherwise) is refused whatever
   * the coin: production can be raised at most three times for a Farmer and
   * twice for the others.
   */
  lemma ProductionLadder(cfg: Config, kind: GeneralKind, level: int)
    ensures ProductionTier(cfg, kind, level).Some? <==> ProductionSteps(kind, level) > 0
    ensures ProductionTier(cfg, kind, level).Some? ==>
      ProductionSteps(kind, ProductionTier(cfg, kind, level).value.level) == ProductionSteps(kind, level) - 1
    ensures ProductionSteps(kind, 1) == if kind == Farmer then 3 else 2
  {
  }

  // ---------------------------------------------------------------------
  // Properties of the general upgrades

  /**
   * `production_up` succeeds exactly when the shared checks pass, the table
   * has an entry for the holder's level and the coin covers it; otherwise
   * nothing changes. On success the holder's production is the entry's
   * level, the player paid its price out of coin that covered it, and the
   * board, the other player's coin and every other general are as before.
   */
  lemma ProductionUpChecks(cfg: Config, w: World, p: Pos, player: int)
    requires WorldOk(cfg, w) && InBounds(cfg, p) && 0 <= player <= 1
    ensures var r := ProductionUpOutcome(cfg, w, p, player);
      r.ok <==> UpgradeGate(w, p, player) && ProductionTier(cfg, Holder(w, p).kind, Holder(w, p).produce).Some? &&
                w.coin[player] >= ProductionTier(cfg, Holder(w, p).kind, Holder(w, p).produce).value.cost
    ensures !ProductionUpOutcome(cfg, w, p, player).ok ==> ProductionUpOutcome(cfg, w, p, player).world == w
    ensures ProductionUpOutcome(cfg, w, p, player).ok ==>
      var t := ProductionTier(cfg, Holder(w, p).kind, Holder(w, p).produce).value;
      var w' := ProductionUpOutcome(cfg, w, p, player).world;
      Promoted(w, w', p, player, t.cost) && Holder(w', p) == Holder(w, p).(produce := t.level)
  {
    GenAtHere(cfg, w, p);
    var r := ProductionUpOutcome(cfg, w, p, player);
    if r.ok {
      var g := Holder(w, p);
      PromotedCharged(cfg, w, p, player, g.(produce := ProductionTier(cfg, g.kind, g.produce).value.level),
                      ProductionTier(cfg, g.kind, g.produce).value.cost);
    }
  }

  /** As `ProductionUpChecks`, for `defence_up`. */
  lemma DefenceUpChecks(cfg: Config, w: World, p: Pos, player: int)
    requires WorldOk(cfg, w) && InBounds(cfg, p) && 0 <= player <= 1
    ensures var r := DefenceUpOutcome(cfg, w, p, player);
      r.ok <==> UpgradeGate(w, p, player) && DefenceTier(cfg, Holder(w, p).kind, Holder(w, p).defence).Some? &&
                w.coin[player] >= DefenceTier(cfg, Holder(w, p).kind, Holder(w, p).defence).value.cost
    ensures !DefenceUpOutcome(cfg, w, p, player).ok ==> DefenceUpOutcome(cfg, w, p, player).world == w
    ensures DefenceUpOutcome(cfg, w, p, player).ok ==>
      var t := DefenceTier(cfg, Holder(w, p).kind, Holder(w, p).defence).value;
      var w' := DefenceUpOutcome(cfg, w, p, player).world;
      Promoted(w, w', p, player, t.cost) && Holder(w', p) == Holder(w, p).(defence := t.level)
  {
    GenAtHere(cfg, w, p);
    var r := DefenceUpOutcome(cfg, w, p, player);
    if r.ok {
      var g := Holder(w, p);
      PromotedCharged(cfg, w, p, player, g.(defence := DefenceTier(cfg, g.kind, g.defence).value.level),
                      DefenceTier(cfg, g.kind, g.defence).value.cost);
    }
  }

  /**
   * As `ProductionUpChecks`, for `movement_up`; a Farmer is always refused,
   * and the moves left this round grow by what the new level adds, so the
   * general's unused moves relative to its mobility are kept.
   */
  lemma MovementUpChecks(cfg: Config, w: World, p: Pos, player: int)
    requires WorldOk(cfg, w) && InBounds(cfg, p) && 0 <= player <= 1
    ensures var r := MovementUpOutcome(cfg, w, p, player);
      r.ok <==> UpgradeGate(w, p, player) && MobilityTier(cfg, Holder(w, p).kind, Holder(w, p).mobility).Some? &&
                w.coin[player] >= MobilityTier(cfg, Holder(w, p).kind, Holder(w, p).mobility).value.cost
    ensures w.board[p.x][p.y].gen.Some? && Holder(w, p).kind == Farmer ==> !MovementUpOutcome(cfg, w, p, player).ok
    ensures !MovementUpOutcome(cfg, w, p, player).ok ==> MovementUpOutcome(cfg, w, p, player).world == w
    ensures MovementUpOutcome(cfg, w, p, player).ok ==>
      var g := Holder(w, p);
      var t := MobilityTier(cfg, g.kind, g.mobility).value;
      var w' := MovementUpOutcome(cfg, w, p, player).world;
      Promoted(w, w', p, player, t.cost) && Holder(w', p) == g.(mobility := t.level, restMove := Holder(w', p).restMove) &&
      Holder(w', p).mobility - Holder(w', p).restMove == g.mobility - g.restMove
  {
    GenAtHere(cfg, w, p);
    var r := MovementUpOutcome(cfg, w, p, player);
    if r.ok {
      var g := Holder(w, p);
      var t := MobilityTier(cfg, g.kind, g.mobility).value;
      TiersRise(cfg, g.kind, g.mobility, g.defence, 0, 0);
      PromotedCharged(cfg, w, p, player, g.(mobility := t.level, restMove := g.restMove + ExtraMoves(g.mobility)), t.cost);
    }
  }

  /**
   * `w'` is `w` after a successful general upgrade on `p` that cost `cost`:
   * the player paid out of coin that covered it, the other player's coin,
   * the board, the weapons and every other general are unchanged, and the
   * holder keeps its identity, owner and place.
   */
  ghost predicate Promoted(w: World, w': World, p: Pos, player: int, cost: int)
    requires 0 <= player <= 1
    requires 0 <= p.x < |w.board| && 0 <= p.y < |w.board[p.x]|
    requires w.board[p.x][p.y].gen.Some? && GeneralIndex(w.generals, w.board[p.x][p.y].gen.value) >= 0
  {
    var k := GeneralIndex(w.generals, w.board[p.x][p.y].gen.value);
    w'.board == w.board && w'.weapons == w.weapons && w'.tech == w.tech && w'.restMoveStep == w.restMoveStep &&
    w'.coin[player] == w.coin[player] - cost >= 0 && w'.coin[1 - player] == w.coin[1 - player] &&
    |w'.generals| == |w.generals| &&
    (forall j :: 0 <= j < |w.generals| && j != k ==> w'.generals[j] == w.generals[j]) &&
    GeneralIndex(w'.generals, w.board[p.x][p.y].gen.value) == k &&
    w'.generals[k].id == w.generals[k].id && w'.generals[k].kind == w.generals[k].kind &&
    w'.generals[k].player == w.generals[k].player && w'.generals[k].pos == w.generals[k].pos
  }

  /** Paying for the holder with new levels is a promotion, and the holder is then the new general. */
  lemma PromotedCharged(cfg: Config, w: World, p: Pos, player: int, g: General, cost: int)
    requires WorldOk(cfg, w) && InBounds(cfg, p) && 0 <= player <= 1 && w.board[p.x][p.y].gen.Some?
    requires g == Holder(w, p).(produce := g.produce, defence := g.defence, mobility := g.mobility, restMove := g.restMove)
    requires 0 <= cost <= w.coin[player]
    ensures Promoted(w, Charged(w, p, player, g, cost), p, player, cost)
    ensures Holder(Charged(w, p, player, g, cost), p) == g
  {
    GenAtHere(cfg, w, p);
    var w' := Charged(w, p, player, g, cost);
    var id := w.board[p.x][p.y].gen.value;
    SameIdsSameIndex(w.generals, w'.generals, id);
  }

  /**
   * A successful general upgrade keeps the state well formed: the levels it
   * writes are positive table entries.
   */
  lemma PromotionKeepsInvariant(cfg: Config, w: World, p: Pos, player: int, g: General, cost: int)
    requires WorldOk(cfg, w) && InBounds(cfg, p) && 0 <= player <= 1 && w.board[p.x][p.y].gen.Some?
    requires g == Holder(w, p).(produce := g.produce, defence := g.defence, mobility := g.mobility, restMove := g.restMove)
    requires g.produce >= 0 && g.defence > 0.0
    ensures WorldOk(cfg, Charged(w, p, player, g, cost))
  {
    GenAtHere(cfg, w, p);
    WorldOkFrame(cfg, w, Charged(w, p, player, g, cost));
  }

  /** `production_up` keeps the state well formed. */
  lemma ProductionUpKeepsInvariant(cfg: Config, w: World, p: Pos, player: int)
    requires WorldOk(cfg, w) && InBounds(cfg, p) && 0 <= player <= 1
    ensures WorldOk(cfg, ProductionUpOutcome(cfg, w, p, player).world)
  {
    if UpgradeGate(w, p, player) {
      GenAtHere(cfg, w, p);
      var g := Holder(w, p);
      TiersRise(cfg, g.kind, g.produce, g.defence, 0, 0);
      var t := ProductionTier(cfg, g.kind, g.produce);
      if t.Some? {
        PromotionKeepsInvariant(cfg, w, p, player, g.(produce := t.value.level), t.value.cost);
      }
    }
  }

  /** `defence_up` keeps the state well formed. */
  lemma DefenceUpKeepsInvariant(cfg: Config, w: World, p: Pos, player: int)
    requires WorldOk(cfg, w) && InBounds(cfg, p) && 0 <= player <= 1
    ensures WorldOk(cfg, DefenceUpOutcome(cfg, w, p, player).world)
  {
    if UpgradeGate(w, p, player) {
      GenAtHere(cfg, w, p);
      var g := Holder(w, p);
      TiersRise(cfg, g.kind, g.produce, g.defence, 0, 0);
      var t := DefenceTier(cfg, g.kind, g.defence);
      if t.Some? {
        PromotionKeepsInvariant(cfg, w, p, player, g.(defence := t.value.level), t.value.cost);
      }
    }
  }

  /** `movement_up` keeps the state well formed. */
  lemma MovementUpKeepsInvariant(cfg: Config, w: World, p: Pos, player: int)
    requires WorldOk(cfg, w) && InBounds(cfg, p) && 0 <= player <= 1
    ensures WorldOk(cfg, MovementUpOutcome(cfg, w, p, player).world)
  {
    if UpgradeGate(w, p, player) {
      GenAtHere(cfg, w, p);
      var g := Holder(w, p);
      var t := MobilityTier(cfg, g.kind, g.mobility);
      if t.Some? && w.coin[player] >= t.value.cost {
        var g' := g.(mobility := t.value.level, restMove := g.restMove + ExtraMoves(g.mobility));
        assert MovementUpOutcome(cfg, w, p, player).world == Charged(w, p, player, g', t.value.cost);
        PromotionKeepsInvariant(cfg, w, p, player, g', t.value.cost);
      }
    }
  }

  // ---------------------------------------------------------------------
  // Properties of tech_update

  /**
   * `tech_update` succeeds exactly when the track is one of 0..3, its table
   * has an entry for the player's level and the coin covers it; otherwise
   * nothing changes (a track outside 0..3 makes the source return None).
   * On success only the player's level on that track moves to the entry's
   * level, the player pays the price out of coin that covered it, and:
   * army movement also grants its extra moves at once, so the moves left
   * relative to the level are kept; the super-weapon track unlocks the
   * weapons with cooldown `start_cd`. The board and the generals never change.
   */
  lemma TechChecks(cfg: Config, w: World, track: int, player: int)
    requires 0 <= player <= 1
    ensures var r := TechOutcome(cfg, w, track, player);
      r.ok <==> 0 <= track < 4 && TechTier(cfg, track, w.tech[player][track]).Some? &&
                w.coin[player] >= TechTier(cfg, track, w.tech[player][track]).value.cost
    ensures !TechOutcome(cfg, w, track, player).ok ==> TechOutcome(cfg, w, track, player).world == w
    ensures var w' := TechOutcome(cfg, w, track, player).world;
      w'.board == w.board && w'.generals == w.generals && w'.weapons == w.weapons && w'.nextId == w.nextId &&
      w'.round == w.round && w'.winner == w.winner
    ensures TechOutcome(cfg, w, track, player).ok ==>
      var t := TechTier(cfg, track, w.tech[player][track]).value;
      var w' := TechOutcome(cfg, w, track, player).world;
      w'.tech[player][track] == t.level > w.tech[player][track] &&
      (forall j :: 0 <= j < 4 && j != track ==> w'.tech[player][j] == w.tech[player][j]) &&
      w'.tech[1 - player] == w.tech[1 - player] &&
      w'.coin[player] == w.coin[player] - t.cost >= 0 && w'.coin[1 - player] == w.coin[1 - player] &&
      w'.restMoveStep[1 - player] == w.restMoveStep[1 - player] &&
      w'.restMoveStep[player] - w'.tech[player][0] == w.restMoveStep[player] - w.tech[player][0] &&
      (track != 0 ==> w'.restMoveStep == w.restMoveStep) &&
      (track != 3 ==> w'.unlocked == w.unlocked && w'.weaponCd == w.weaponCd) &&
      (track == 3 ==> w'.unlocked[player] && w'.weaponCd[player] == cfg.startCd &&
                      w'.unlocked[1 - player] == w.unlocked[1 - player] && w'.weaponCd[1 - player] == w.weaponCd[1 - player])
  {
    var r := TechOutcome(cfg, w, track, player);
    if r.ok {
      TiersRise(cfg, SubGeneral, 0, 1.0, track, w.tech[player][track]);
    }
  }

  /** `tech_update` keeps the state well formed: it touches nothing the invariant reads. */
  lemma TechKeepsInvariant(cfg: Config, w: World, track: int, player: int)
    requires WorldOk(cfg, w) && 0 <= player <= 1
    ensures WorldOk(cfg, TechOutcome(cfg, w, track, player).world)
  {
  }

  // ---------------------------------------------------------------------
  // The operations on the state

  /** The checks the general upgrades share, reading the state only. */
  method UpgradeGateCheck(s: GameState, p: Pos, player: int) returns (ok: bool)
    requires s.Valid() && InBounds(s.cfg, p)
    ensures ok == UpgradeGate(s.Model(), p, player)
  {
    if s.board[p.x][p.y].gen.None? {
      return false;
    }
    if s.board[p.x][p.y].owner != player {
      return false;
    }
    var stunned := IsStunned(s.activeWeapons, p, player);
    return !stunned;
  }

  /** `production_up` on the state (lines 7-93). */
  method ProductionUp(s: GameState, p: Pos, player: int) returns (ok: bool)
    requires s.Valid() && InBounds(s.cfg, p) && 0 <= player <= 1
    modifies s
    ensures s.Valid() && Outcome(ok, s.Model()) == ProductionUpOutcome(s.cfg, old(s.Model()), p, player)
  {
    ok := UpgradeGateCheck(s, p, player);
    if !ok {
      return;
    }
    GenAtHere(s.cfg, s.Model(), p);
    var g := s.generals[GeneralIndex(s.generals, s.board[p.x][p.y].gen.value)];
    var tier := ProductionTier(s.cfg, g.kind, g.produce);
    if tier.None? || s.coin[player] < tier.value.cost {
      return false;
    }
    TiersRise(s.cfg, g.kind, g.produce, g.defence, 0, 0);
    Charge(s, p, player, g.(produce := tier.value.level), tier.value.cost);
  }

  /** `defence_up` on the state (lines 96-182). */
  method DefenceUp(s: GameState, p: Pos, player: int) returns (ok: bool)
    requires s.Valid() && InBounds(s.cfg, p) && 0 <= player <= 1
    modifies s
    ensures s.Valid() && Outcome(ok, s.Model()) == DefenceUpOutcome(s.cfg, old(s.Model()), p, player)
  {
    ok := UpgradeGateCheck(s, p, player);
    if !ok {
      return;
    }
    GenAtHere(s.cfg, s.Model(), p);
    var g := s.generals[GeneralIndex(s.generals, s.board[p.x][p.y].gen.value)];
    var tier := DefenceTier(s.cfg, g.kind, g.defence);
    if tier.None? || s.coin[player] < tier.value.cost {
      return false;
    }
    TiersRise(s.cfg, g.kind, g.produce, g.defence, 0, 0);
    Charge(s, p, player, g.(defence := tier.value.level), tier.value.cost);
  }

  /** `movement_up` on the state (lines 185-256). */
  method MovementUp(s: GameState, p: Pos, player: int) returns (ok: bool)
    requires s.Valid() && InBounds(s.cfg, p) && 0 <= player <= 1
    modifies s
    ensures s.Valid() && Outcome(ok, s.Model()) == MovementUpOutcome(s.cfg, old(s.Model()), p, player)
  {
    ok := UpgradeGateCheck(s, p, player);
    if !ok {
      return;
    }
    GenAtHere(s.cfg, s.Model(), p);
    var g := s.generals[GeneralIndex(s.generals, s.board[p.x][p.y].gen.value)];
    var tier := MobilityTier(s.cfg, g.kind, g.mobility);
    if tier.None? || s.coin[player] < tier.value.cost {
      return false;
    }
    ghost var g' := g.(mobility := tier.value.level, restMove := g.restMove + ExtraMoves(g.mobility));
    assert MovementUpOutcome(s.cfg, s.Model(), p, player) == Outcome(true, Charged(s.Model(), p, player, g', tier.value.cost));
    Charge(s, p, player, g.(mobility := tier.value.level, restMove := g.restMove + ExtraMoves(g.mobility)), tier.value.cost);
  }

  /** `tech_update` on the state (lines 269-345). */
  method TechUpdate(s: GameState, track: int, player: int) returns (ok: bool)
    requires s.Valid() && 0 <= player <= 1
    modifies s
    ensures s.Valid() && Outcome(ok, s.Model()) == TechOutcome(s.cfg, old(s.Model()), track, player)
  {
    if !(0 <= track < 4) {
      return false;
    }
    var level := s.techLevel[player][track];
    var tier := TechTier(s.cfg, track, level);
    if tier.None? || s.coin[player] < tier.value.cost {
      return false;
    }
    ghost var w := s.Model();
    ghost var r := TechOutcome(s.cfg, w, track, player);
    TechKeepsInvariant(s.cfg, w, track, player);
    s.techLevel := s.techLevel[player := s.techLevel[player][track := tier.value.level]];
    s.coin := s.coin[player := s.coin[player] - tier.value.cost];
    if track == 0 {
      s.restMoveStep := s.restMoveStep[player := s.restMoveStep[player] + ExtraSteps(level)];
      assert s.Model() == r.world;
    } else if track == 3 {
      s.weaponCd := s.weaponCd[player := s.cfg.startCd];
      s.weaponUnlocked := s.weaponUnlocked[player := true];
      assert s.Model() == r.world;
    } else {
      assert s.Model() == r.world;
    }
    ok := true;
  }
}
