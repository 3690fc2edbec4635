/**
 * The entities of the game: cells, generals, super weapons, directions and the
 * balance constants. These are the types that logic/gamedata.py and
 * logic/constant.py define; neither file is part of this model, so every
 * constant whose value lives there is a field of `Config` rather than a number.
 */
module GameData {

  datatype Option<T> = None | Some(value: T)

  /** A board coordinate: `x` indexes rows, `y` indexes columns. */
  datatype Pos = Pos(x: int, y: int)

  /** CellType: PLAIN is 0 and BOG is 1 in the source. */
  datatype Terrain = Plain | Bog | Mountain

  /** The three General subclasses: MainGenerals, SubGenerals and Farmer. */
  datatype GeneralKind = MainGeneral | SubGeneral | Farmer

  /** `skills_cd` has one slot per skill, `skill_duration` one per timed buff. */
  type SkillCooldowns = s: seq<int> | |s| == 5 witness [0, 0, 0, 0, 0]
  type SkillDurations = s: seq<int> | |s| == 3 witness [0, 0, 0]

  /**
   * A general. `player` is -1 for an unclaimed Sub or Farmer. `defence` is a
   * rational level (the Farmer has the half step 1.5). `restMove` is the
   * mobility left this round.
   */
  datatype General = General(
    id: nat,
    kind: GeneralKind,
    player: int,
    pos: Pos,
    produce: int,
    defence: real,
    mobility: int,
    restMove: int,
    skillsCd: SkillCooldowns,
    skillDuration: SkillDurations)

  /** WeaponType(0) .. WeaponType(3) in the source, in this order. */
  datatype WeaponKind = NuclearBoom | AttackEnhance | Transmission | TimeStop

  function WeaponCode(k: WeaponKind): int
  {
    match k
    case NuclearBoom => 0
    case AttackEnhance => 1
    case Transmission => 2
    case TimeStop => 3
  }

  /** An active super weapon: who fired it, where, and how many rounds it has left. */
  datatype Weapon = Weapon(kind: WeaponKind, player: int, cd: int, rest: int, pos: Pos)

  /**
   * A board cell. `owner` is -1 (neutral), 0 or 1; `gen` is the id of the
   * general standing on the cell, if any.
   */
  datatype Cell = Cell(terrain: Terrain, owner: int, army: nat, gen: Option<nat>)

  datatype Direction = Up | Down | Left | Right

  /**
   * SkillType: SURPRISE_ATTACK, ROUT, COMMAND, DEFENCE (here `Fortify`, the
   * skill whose price is `fortification`) and WEAKEN.
   */
  datatype Skill = SurpriseAttack | Rout | Command | Fortify | Weaken

  type Board = seq<seq<Cell>>

  /**
   * The values logic/constant.py and logic/gamedata.py supply: board size,
   * every cost, the weapon cooldowns, the fields of a freshly constructed
   * SubGenerals other than id, owner and position, which integer codes the
   * Direction enum accepts, and which integers compare equal to a SkillType
   * member.
   */
  datatype Config = Config(
    rows: nat,
    cols: nat,
    tacticalStrike: nat,
    breakthrough: nat,
    leadership: nat,
    fortification: nat,
    weakening: nat,
    farmerProductionT1: nat,
    farmerProductionT2: nat,
    farmerProductionT3: nat,
    lieutenantProductionT1: nat,
    lieutenantProductionT2: nat,
    farmerDefenseT1: nat,
    farmerDefenseT2: nat,
    farmerDefenseT3: nat,
    lieutenantDefenseT1: nat,
    lieutenantDefenseT2: nat,
    generalMovementT1: nat,
    generalMovementT2: nat,
    armyMovementT1: nat,
    armyMovementT2: nat,
    mountaineering: nat,
    swampImmunity: nat,
    unlockSuperWeapon: nat,
    useCd: int,
    startCd: int,
    subTemplate: General,
    directionCode: map<int, Direction>,
    skillCode: map<int, Skill>)

  /** The fixed price of `call_generals`. */
  const CallGeneralCost: int := 50

  function Abs(a: int): nat
  {
    if a < 0 then -a else a
  }

  predicate InBounds(cfg: Config, p: Pos)
  {
    0 <= p.x < cfg.rows && 0 <= p.y < cfg.cols
  }

  /** Chebyshev distance at most `r`. */
  predicate Near(a: Pos, b: Pos, r: int)
  {
    Abs(a.x - b.x) <= r && Abs(a.y - b.y) <= r
  }

  function Manhattan(a: Pos, b: Pos): nat
  {
    Abs(a.x - b.x) + Abs(a.y - b.y)
  }

  predicate Shaped(cfg: Config, b: Board)
  {
    |b| == cfg.rows && forall i :: 0 <= i < |b| ==> |b[i]| == cfg.cols
  }

  function CellAt(b: Board, p: Pos): Cell
    requires 0 <= p.x < |b| && 0 <= p.y < |b[p.x]|
  {
    b[p.x][p.y]
  }

  function SetCell(b: Board, p: Pos, c: Cell): Board
    requires 0 <= p.x < |b| && 0 <= p.y < |b[p.x]|
  {
    b[p.x := b[p.x][p.y := c]]
  }

  /**
   * Index of the first general with this id, or -1. Every lookup of "the
   * general" behind an id goes through it, as the linear scan of
   * `find_general_position_by_id` does.
   */
  function GeneralIndex(gs: seq<General>, id: int): (r: int)
    ensures -1 <= r < |gs|
    ensures r >= 0 ==> gs[r].id == id
    ensures forall k :: 0 <= k < |gs| && (r < 0 || k < r) ==> gs[k].id != id
    decreases |gs|
  {
    if |gs| == 0 then -1
    else if gs[0].id == id then 0
    else
      var r := GeneralIndex(gs[1..], id);
      if r < 0 then -1 else r + 1
  }

  /** The general standing on `p`, resolved through its id. */
  function GenAt(b: Board, gs: seq<General>, p: Pos): Option<General>
    requires 0 <= p.x < |b| && 0 <= p.y < |b[p.x]|
  {
    match b[p.x][p.y].gen
    case None => None
    case Some(id) =>
      var k := GeneralIndex(gs, id);
      if k >= 0 then Some(gs[k]) else None
  }

  /**
   * The stun rule copied into every operation that acts from a cell: an
   * unexpired TRANSMISSION of the acting player on exactly that cell, or an
   * unexpired TIME_STOP of anyone else within Chebyshev distance 1.
   */
  predicate StunnedBy(w: Weapon, p: Pos, player: int)
  {
    w.rest != 0 &&
    ((w.kind == Transmission && w.pos == p && w.player == player) ||
     (w.kind == TimeStop && Near(w.pos, p, 1) && w.player != player))
  }

  predicate Stunned(ws: seq<Weapon>, p: Pos, player: int)
  {
    exists k :: 0 <= k < |ws| && StunnedBy(ws[k], p, player)
  }

  /** Lengthening the weapon list can only add stuns. */
  lemma StunnedAppend(ws: seq<Weapon>, w: Weapon, p: Pos, player: int)
    ensures Stunned(ws + [w], p, player) <==> Stunned(ws, p, player) || StunnedBy(w, p, player)
  {
    if Stunned(ws, p, player) {
      var k :| 0 <= k < |ws| && StunnedBy(ws[k], p, player);
      assert (ws + [w])[k] == ws[k];
    }
    if StunnedBy(w, p, player) {
      assert (ws + [w])[|ws|] == w;
    }
    if Stunned(ws + [w], p, player) {
      var k :| 0 <= k < |ws| + 1 && StunnedBy((ws + [w])[k], p, player);
      if k < |ws| { assert (ws + [w])[k] == ws[k]; }
    }
  }
}
