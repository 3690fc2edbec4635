/**
 * The five general skills of logic/general_skills.py: the surprise attack
 * (`army_rush` guarded by `check_rush_param`), the rout (`handle_breakthrough`)
 * and the three timed buffs, all dispatched by `skill_activate` after the
 * checks every skill shares.
 */
module GeneralSkills {
  import opened GameData
  import opened Gamestate
  import opened Computation
  import opened Movement

  /** The destination `[-1, -1]` that the buffs are given, read as "no destination". */
  const NoTarget: Pos := Pos(-1, -1)

  // ---------------------------------------------------------------------
  // handle_breakthrough (logic/general_skills.py:66-74)

  /** The rout on one cell: 20 units fewer, or none and neutral unless a general stands there. */
  function Breakthrough(c: Cell): Cell
  {
    if c.army > 20 then c.(army := c.army - 20)
    else if c.gen.None? then c.(army := 0, owner := -1)
    else c.(army := 0)
  }

  /**
   * The rout removes `min(army, 20)` units; the cell keeps its terrain and
   * general, and it changes hands only when it is left empty without a
   * general, and then it becomes neutral.
   */
  lemma BreakthroughEffect(c: Cell)
    ensures var r := Breakthrough(c);
      r.army == (if c.army >= 20 then c.army - 20 else 0) &&
      r.terrain == c.terrain && r.gen == c.gen &&
      (r.owner != c.owner ==> r.owner == -1 && r.army == 0 && r.gen.None?)
  {
  }

  // ---------------------------------------------------------------------
  // army_rush (logic/general_skills.py:12-38)

  /**
   * The armies of a surprise attack: all but one unit leave `p` for `d`. A
   * neutral destination is simply taken with the units added; a friendly one
   * receives them; an enemy one is taken with `survivors` units.
   */
  function Rushed(board: Board, p: Pos, d: Pos, player: int, survivors: nat): Board
    requires 0 <= p.x < |board| && 0 <= p.y < |board[p.x]| && 0 <= d.x < |board| && 0 <= d.y < |board[d.x]|
    requires board[p.x][p.y].army >= 1
  {
    var src := board[p.x][p.y];
    var dst := board[d.x][d.y];
    var num := src.army - 1;
    if dst.owner == -1 then
      SetCell(SetCell(board, d, dst.(army := dst.army + num, owner := player)), p, src.(army := src.army - num))
    else if dst.owner == player then
      SetCell(SetCell(board, p, src.(army := src.army - num)), d, dst.(army := dst.army + num))
    else if dst.owner == 1 - player then
      SetCell(SetCell(board, d, dst.(owner := player, army := survivors)), p, src.(army := src.army - num))
    else board
  }

  /** Two writes to different cells: both cells hold what was written, every other cell is kept. */
  lemma SetTwo(cfg: Config, b: Board, a: Pos, ca: Cell, e: Pos, ce: Cell)
    requires Shaped(cfg, b) && OwnersOk(b) && InBounds(cfg, a) && InBounds(cfg, e) && a != e
    requires -1 <= ca.owner <= 1 && -1 <= ce.owner <= 1
    ensures var r := SetCell(SetCell(b, a, ca), e, ce);
      Shaped(cfg, r) && OwnersOk(r) && r[a.x][a.y] == ca && r[e.x][e.y] == ce &&
      forall i, j :: 0 <= i < cfg.rows && 0 <= j < cfg.cols && Pos(i, j) != a && Pos(i, j) != e ==> r[i][j] == b[i][j]
  {
    SetCellFrame(cfg, b, a, ca);
    SetCellFrame(cfg, SetCell(b, a, ca), e, ce);
  }

  /**
   * The rush leaves one unit on the origin and hands the destination to the
   * player: with the units added when it was neutral or friendly, so the
   * two cells keep their total, and with `survivors` when it was the
   * enemy's. Only those two cells change, and only in owner and army.
   */
  lemma RushedEffect(cfg: Config, board: Board, p: Pos, d: Pos, player: int, survivors: nat)
    requires Shaped(cfg, board) && OwnersOk(board) && InBounds(cfg, p) && InBounds(cfg, d) && p != d
    requires board[p.x][p.y].army >= 1 && 0 <= player <= 1
    ensures var r := Rushed(board, p, d, player, survivors);
      var src, dst := board[p.x][p.y], board[d.x][d.y];
      Shaped(cfg, r) && OwnersOk(r) &&
      r[p.x][p.y] == src.(army := 1) &&
      r[d.x][d.y] == dst.(owner := player, army := r[d.x][d.y].army) &&
      (dst.owner != 1 - player ==>
        r[d.x][d.y].army == dst.army + src.army - 1 && r[p.x][p.y].army + r[d.x][d.y].army == src.army + dst.army) &&
      (dst.owner == 1 - player ==> r[d.x][d.y].army == survivors) &&
      (forall i, j :: 0 <= i < cfg.rows && 0 <= j < cfg.cols && Pos(i, j) != p && Pos(i, j) != d ==> r[i][j] == board[i][j])
  {
    var src, dst := board[p.x][p.y], board[d.x][d.y];
    var num := src.army - 1;
    var left := src.(army := 1);
    if dst.owner == -1 {
      var taken := dst.(army := dst.army + num, owner := player);
      assert Rushed(board, p, d, player, survivors) == SetCell(SetCell(board, d, taken), p, left);
      SetTwo(cfg, board, d, taken, p, left);
    } else if dst.owner == player {
      var joined := dst.(army := dst.army + num);
      assert Rushed(board, p, d, player, survivors) == SetCell(SetCell(board, p, left), d, joined);
      SetTwo(cfg, board, p, left, d, joined);
    } else {
      var taken := dst.(owner := player, army := survivors);
      assert Rushed(board, p, d, player, survivors) == SetCell(SetCell(board, d, taken), p, left);
      SetTwo(cfg, board, d, taken, p, left);
    }
  }

  /** The rush keeps the board's shape, its owners in range and every cell's general reference. */
  lemma RushedFrame(cfg: Config, board: Board, p: Pos, d: Pos, player: int, survivors: nat)
    requires Shaped(cfg, board) && OwnersOk(board) && InBounds(cfg, p) && InBounds(cfg, d) && p != d
    requires board[p.x][p.y].army >= 1 && 0 <= player <= 1
    ensures var r := Rushed(board, p, d, player, survivors);
      Shaped(cfg, r) && OwnersOk(r) &&
      forall i, j :: 0 <= i < |board| && 0 <= j < |board[i]| ==> r[i][j].gen == board[i][j].gen
  {
    RushedEffect(cfg, board, p, d, player, survivors);
  }

  // ---------------------------------------------------------------------
  // check_rush_param (logic/general_skills.py:41-63)

  /**
   * The fight `check_rush_param` and `army_rush` compute: all but one unit of
   * `p` against `d`. The skill rules below take its result as a parameter
   * `b`, so that what they state holds whatever the fight's factors are;
   * the methods supply this one.
   */
  ghost function RushBattle(cfg: Config, w: World, p: Pos, d: Pos): Battle
    requires WorldOk(cfg, w)
  {
    if InBounds(cfg, p) && InBounds(cfg, d) && w.board[p.x][p.y].army >= 1
    then Clash(cfg, w, p, d, Sent(w.board[p.x][p.y]))
    else Neutralised
  }

  /** The units a rush sends: all but the one that stays behind. */
  function Sent(c: Cell): nat
    requires c.army >= 1
  {
    c.army - 1
  }

  /**
   * A surprise attack needs a general on the origin, none on the
   * destination, at least two units, and against an enemy cell a fight `b`
   * the attackers win.
   */
  predicate RushOk(w: World, player: int, d: Pos, p: Pos, b: Battle)
    requires 0 <= p.x < |w.board| && 0 <= p.y < |w.board[p.x]| && 0 <= d.x < |w.board| && 0 <= d.y < |w.board[d.x]|
  {
    w.board[p.x][p.y].gen.Some? && w.board[d.x][d.y].gen.None? && w.board[p.x][p.y].army >= 2 &&
    (w.board[d.x][d.y].owner == 1 - player ==> b.Captured?)
  }

  /** The units an enemy destination is left with after fight `b`; unused for a neutral or friendly one. */
  function RushSurvivors(w: World, player: int, d: Pos, b: Battle): nat
    requires 0 <= d.x < |w.board| && 0 <= d.y < |w.board[d.x]|
  {
    if w.board[d.x][d.y].owner == 1 - player && b.Captured? then b.survivors else 0
  }

  /**
   * Against an enemy cell, an accepted rush wins its fight: the cell is left
   * with the survivors, between 1 and the units sent.
   */
  lemma RushWon(cfg: Config, w: World, player: int, d: Pos, p: Pos)
    requires WorldOk(cfg, w) && InBounds(cfg, p) && InBounds(cfg, d)
    requires RushOk(w, player, d, p, RushBattle(cfg, w, p, d)) && w.board[d.x][d.y].owner == 1 - player
    ensures RushBattle(cfg, w, p, d) == Captured(RushSurvivors(w, player, d, RushBattle(cfg, w, p, d)))
    ensures 1 <= RushSurvivors(w, player, d, RushBattle(cfg, w, p, d)) < w.board[p.x][p.y].army
  {
  }

  /** `check_rush_param` on the state; both factors are computed only against an enemy cell. */
  method CheckRushParam(s: GameState, player: int, d: Pos, p: Pos) returns (ok: bool)
    requires s.Valid() && InBounds(s.cfg, p) && InBounds(s.cfg, d)
    ensures ok == RushOk(s.Model(), player, d, p, RushBattle(s.cfg, s.Model(), p, d))
  {
    if s.board[p.x][p.y].gen.None? || s.board[d.x][d.y].gen.Some? || s.board[p.x][p.y].army < 2 {
      return false;
    }
    if s.board[d.x][d.y].owner == 1 - player {
      var b := ResolveBattle(s, p, d, Sent(s.board[p.x][p.y]));
      if !b.Captured? {
        return false;
      }
    }
    return true;
  }

  // ---------------------------------------------------------------------
  // skill_activate (logic/general_skills.py:77-221)

  /**
   * The checks every skill shares (lines 85-122): a player 0 or 1, the origin
   * on the board, a destination other than `[-1, -1]` on the board and at
   * most 2 rows and 2 columns away, an origin the player owns with a general
   * on it, and no stun there.
   */
  ghost predicate SkillGate(cfg: Config, w: World, p: Pos, player: int, d: Pos)
    requires WorldOk(cfg, w)
  {
    (player == 0 || player == 1) && InBounds(cfg, p) &&
    (d != NoTarget ==> InBounds(cfg, d) && Abs(d.x - p.x) <= 2 && Abs(d.y - p.y) <= 2) &&
    w.board[p.x][p.y].owner == player && w.board[p.x][p.y].gen.Some? &&
    !Stunned(w.weapons, p, player)
  }

  /**
   * The inputs on which `skill_activate` goes on to read its target: a
   * surprise attack past the shared checks (line 123 hands the target to
   * `check_rush_param`), and a rout past the shared checks with enough coin
   * and skill 1 ready (line 152 hands it to `handle_breakthrough`). With the
   * target `[-1, -1]` the source fails there; every other input is answered
   * without reading it.
   */
  ghost predicate ReadsTarget(cfg: Config, w: World, p: Pos, player: int, d: Pos, skill: Skill)
    requires WorldOk(cfg, w)
  {
    SkillGate(cfg, w, p, player, d) &&
    (skill.SurpriseAttack? ||
     (skill.Rout? && (GenAtHere(cfg, w, p); w.coin[player] >= cfg.breakthrough && Holder(w, p).skillsCd[1] == 0)))
  }

  /** The price of a skill. */
  function SkillCost(cfg: Config, skill: Skill): nat
  {
    match skill
    case SurpriseAttack => cfg.tacticalStrike
    case Rout => cfg.breakthrough
    case Command => cfg.leadership
    case Fortify => cfg.fortification
    case Weaken => cfg.weakening
  }

  /** The `skills_cd` slot of a skill. */
  function SkillSlot(skill: Skill): nat
  {
    match skill
    case SurpriseAttack => 0
    case Rout => 1
    case Command => 2
    case Fortify => 3
    case Weaken => 4
  }

  /** The general standing on `p`, under the invariant. */
  function Holder(w: World, p: Pos): General
    requires 0 <= p.x < |w.board| && 0 <= p.y < |w.board[p.x]|
    requires w.board[p.x][p.y].gen.Some? && GeneralIndex(w.generals, w.board[p.x][p.y].gen.value) >= 0
  {
    w.generals[GeneralIndex(w.generals, w.board[p.x][p.y].gen.value)]
  }

  /** The general's entry replaced by `g` and the player's coin lowered by `cost`. */
  function Charged(w: World, p: Pos, player: int, g: General, cost: int): World
    requires 0 <= p.x < |w.board| && 0 <= p.y < |w.board[p.x]| && 0 <= player <= 1
    requires w.board[p.x][p.y].gen.Some? && GeneralIndex(w.generals, w.board[p.x][p.y].gen.value) >= 0
  {
    var k := GeneralIndex(w.generals, w.board[p.x][p.y].gen.value);
    w.(generals := w.generals[k := g], coin := w.coin[player := w.coin[player] - cost])
  }

  /**
   * The surprise attack carried out (lines 129-136): the rush, then the
   * general on the destination with skill 0 cooling down for 5 rounds, and
   * `tactical_strike` paid.
   */
  function Surprise(cfg: Config, w: World, p: Pos, d: Pos, player: int, survivors: nat): World
    requires Shaped(cfg, w.board) && OwnersOk(w.board) && InBounds(cfg, p) && InBounds(cfg, d) && p != d
    requires 0 <= player <= 1 && w.board[p.x][p.y].army >= 1
    requires w.board[p.x][p.y].gen.Some? && GeneralIndex(w.generals, w.board[p.x][p.y].gen.value) >= 0
  {
    var g := Holder(w, p);
    RushedFrame(cfg, w.board, p, d, player, survivors);
    var w1 := w.(board := Rushed(w.board, p, d, player, survivors));
    Relocated(w1, p, d, g.(pos := d, skillsCd := g.skillsCd[0 := 5]))
      .(coin := w.coin[player := w.coin[player] - cfg.tacticalStrike])
  }

  /** The rout carried out (lines 152-155): the destination routed, skill 1 cooling down for 10 rounds. */
  function Routed(cfg: Config, w: World, p: Pos, d: Pos, player: int): World
    requires 0 <= p.x < |w.board| && 0 <= p.y < |w.board[p.x]| && 0 <= d.x < |w.board| && 0 <= d.y < |w.board[d.x]|
    requires 0 <= player <= 1
    requires w.board[p.x][p.y].gen.Some? && GeneralIndex(w.generals, w.board[p.x][p.y].gen.value) >= 0
  {
    var g := Holder(w, p);
    Charged(w, p, player, g.(skillsCd := g.skillsCd[1 := 10]), cfg.breakthrough)
      .(board := SetCell(w.board, d, Breakthrough(w.board[d.x][d.y])))
  }

  /**
   * A timed buff carried out (lines 169-173, 187-191, 205-209): its slot
   * cooling down for 10 rounds, its effect lasting 10 rounds, its price paid.
   */
  function Buffed(cfg: Config, w: World, p: Pos, player: int, skill: Skill): World
    requires skill.Command? || skill.Fortify? || skill.Weaken?
    requires 0 <= p.x < |w.board| && 0 <= p.y < |w.board[p.x]| && 0 <= player <= 1
    requires w.board[p.x][p.y].gen.Some? && GeneralIndex(w.generals, w.board[p.x][p.y].gen.value) >= 0
  {
    var g := Holder(w, p);
    var slot := SkillSlot(skill);
    Charged(w, p, player, g.(skillsCd := g.skillsCd[slot := 10], skillDuration := g.skillDuration[slot - 2 := 10]),
            SkillCost(cfg, skill))
  }

  /**
   * `skill_activate`: the shared checks, then per skill its own condition,
   * enough coin and its slot off cooldown; `b` is the surprise attack's
   * fight. Only where `ReadsTarget` holds must the target be other than
   * `[-1, -1]`.
   */
  ghost function SkillOutcome(cfg: Config, w: World, p: Pos, player: int, d: Pos, skill: Skill, b: Battle): Outcome
    requires WorldOk(cfg, w)
    requires ReadsTarget(cfg, w, p, player, d, skill) ==> d != NoTarget
  {
    if !SkillGate(cfg, w, p, player, d) then Outcome(false, w)
    else
      GenAtHere(cfg, w, p);
      var g := Holder(w, p);
      var coin := w.coin[player];
      match skill
      case SurpriseAttack =>
        if !RushOk(w, player, d, p, b) then Outcome(false, w)
        else if coin >= cfg.tacticalStrike && g.skillsCd[0] == 0 then
          Outcome(true, Surprise(cfg, w, p, d, player, RushSurvivors(w, player, d, b)))
        else Outcome(false, w)
      case Rout =>
        if coin >= cfg.breakthrough && g.skillsCd[1] == 0 then Outcome(true, Routed(cfg, w, p, d, player))
        else Outcome(false, w)
      case _ =>
        if coin >= SkillCost(cfg, skill) && g.skillsCd[SkillSlot(skill)] == 0 then
          Outcome(true, Buffed(cfg, w, p, player, skill))
        else Outcome(false, w)
  }

  /**
   * A surprise attack or a rout refused before its target is read is
   * answered with the target `[-1, -1]` as with any other: a refusal that
   * changes nothing.
   */
  lemma UnreadTargetRefused(cfg: Config, w: World, p: Pos, player: int, skill: Skill, b: Battle)
    requires WorldOk(cfg, w)
    requires (skill.SurpriseAttack? || skill.Rout?) && !ReadsTarget(cfg, w, p, player, NoTarget, skill)
    ensures SkillOutcome(cfg, w, p, player, NoTarget, skill, b) == Outcome(false, w)
  {
  }

  /** What `skill_activate` demands, beyond the shared checks, before it acts. */
  ghost predicate SkillAllowed(cfg: Config, w: World, p: Pos, player: int, d: Pos, skill: Skill, b: Battle)
    requires WorldOk(cfg, w)
    requires ReadsTarget(cfg, w, p, player, d, skill) ==> d != NoTarget
  {
    SkillGate(cfg, w, p, player, d) &&
    (GenAtHere(cfg, w, p);
     (skill.SurpriseAttack? ==> RushOk(w, player, d, p, b)) &&
     w.coin[player] >= SkillCost(cfg, skill) && Holder(w, p).skillsCd[SkillSlot(skill)] == 0)
  }

  /** The state an allowed skill leaves. */
  ghost function SkillWorld(cfg: Config, w: World, p: Pos, player: int, d: Pos, skill: Skill, b: Battle): World
    requires WorldOk(cfg, w)
    requires ReadsTarget(cfg, w, p, player, d, skill) ==> d != NoTarget
    requires SkillAllowed(cfg, w, p, player, d, skill, b)
  {
    GenAtHere(cfg, w, p);
    match skill
    case SurpriseAttack => Surprise(cfg, w, p, d, player, RushSurvivors(w, player, d, b))
    case Rout => Routed(cfg, w, p, d, player)
    case _ => Buffed(cfg, w, p, player, skill)
  }

  /** `skill_activate` succeeds exactly when the skill is allowed; a refusal changes nothing. */
  lemma SkillChecks(cfg: Config, w: World, p: Pos, player: int, d: Pos, skill: Skill, b: Battle)
    requires WorldOk(cfg, w)
    requires ReadsTarget(cfg, w, p, player, d, skill) ==> d != NoTarget
    ensures SkillOutcome(cfg, w, p, player, d, skill, b).ok <==> SkillAllowed(cfg, w, p, player, d, skill, b)
    ensures !SkillOutcome(cfg, w, p, player, d, skill, b).ok ==> SkillOutcome(cfg, w, p, player, d, skill, b).world == w
    ensures SkillOutcome(cfg, w, p, player, d, skill, b).ok ==>
      SkillOutcome(cfg, w, p, player, d, skill, b).world == SkillWorld(cfg, w, p, player, d, skill, b)
  {
  }

  // ---------------------------------------------------------------------
  // The invariant

  /** After the rush, the general on `p` may move to `d` with skill 0 cooling down. */
  lemma RushedRelocatable(cfg: Config, w: World, p: Pos, d: Pos, player: int, survivors: nat)
    requires WorldOk(cfg, w) && InBounds(cfg, p) && InBounds(cfg, d) && 0 <= player <= 1
    requires w.board[p.x][p.y].gen.Some? && w.board[d.x][d.y].gen.None? && w.board[p.x][p.y].army >= 1
    ensures p != d && GeneralIndex(w.generals, w.board[p.x][p.y].gen.value) >= 0
    ensures Relocatable(cfg, w.(board := Rushed(w.board, p, d, player, survivors)), p, d,
      Holder(w, p).(pos := d, skillsCd := Holder(w, p).skillsCd[0 := 5]))
  {
    GenAtHere(cfg, w, p);
    RushedFrame(cfg, w.board, p, d, player, survivors);
    var w1 := w.(board := Rushed(w.board, p, d, player, survivors));
    WorldOkFrame(cfg, w, w1);
    var g := Holder(w, p);
    assert Holder(w1, p) == g;
  }

  /** A surprise attack keeps the state well formed. */
  lemma SurpriseKeepsInvariant(cfg: Config, w: World, p: Pos, d: Pos, player: int, survivors: nat)
    requires WorldOk(cfg, w) && InBounds(cfg, p) && InBounds(cfg, d) && 0 <= player <= 1
    requires w.board[p.x][p.y].gen.Some? && w.board[d.x][d.y].gen.None? && w.board[p.x][p.y].army >= 1
    ensures p != d && GeneralIndex(w.generals, w.board[p.x][p.y].gen.value) >= 0
    ensures WorldOk(cfg, Surprise(cfg, w, p, d, player, survivors))
  {
    RushedRelocatable(cfg, w, p, d, player, survivors);
    var w1 := w.(board := Rushed(w.board, p, d, player, survivors));
    var g := Holder(w, p);
    RelocatedKeepsInvariant(cfg, w1, p, d, g.(pos := d, skillsCd := g.skillsCd[0 := 5]));
  }

  /** A general whose cooldowns or durations change, and a charge, keep the state well formed. */
  lemma ChargedKeepsInvariant(cfg: Config, w: World, p: Pos, player: int, g: General, cost: int)
    requires WorldOk(cfg, w) && InBounds(cfg, p) && 0 <= player <= 1 && w.board[p.x][p.y].gen.Some?
    requires GeneralIndex(w.generals, w.board[p.x][p.y].gen.value) >= 0
    requires g == Holder(w, p).(skillsCd := g.skillsCd, skillDuration := g.skillDuration)
    ensures WorldOk(cfg, Charged(w, p, player, g, cost))
  {
    GenAtHere(cfg, w, p);
    WorldOkFrame(cfg, w, Charged(w, p, player, g, cost));
  }

  /** A rout keeps the state well formed. */
  lemma RoutKeepsInvariant(cfg: Config, w: World, p: Pos, d: Pos, player: int)
    requires WorldOk(cfg, w) && InBounds(cfg, p) && InBounds(cfg, d) && 0 <= player <= 1
    requires w.board[p.x][p.y].gen.Some?
    ensures GeneralIndex(w.generals, w.board[p.x][p.y].gen.value) >= 0
    ensures WorldOk(cfg, Routed(cfg, w, p, d, player))
  {
    GenAtHere(cfg, w, p);
    var g := Holder(w, p);
    var w1 := Charged(w, p, player, g.(skillsCd := g.skillsCd[1 := 10]), cfg.breakthrough);
    ChargedKeepsInvariant(cfg, w, p, player, g.(skillsCd := g.skillsCd[1 := 10]), cfg.breakthrough);
    SetCellFrame(cfg, w1.board, d, Breakthrough(w1.board[d.x][d.y]));
    WorldOkFrame(cfg, w1, Routed(cfg, w, p, d, player));
  }

  /** A timed buff keeps the state well formed. */
  lemma BuffKeepsInvariant(cfg: Config, w: World, p: Pos, player: int, skill: Skill)
    requires skill.Command? || skill.Fortify? || skill.Weaken?
    requires WorldOk(cfg, w) && InBounds(cfg, p) && 0 <= player <= 1 && w.board[p.x][p.y].gen.Some?
    ensures GeneralIndex(w.generals, w.board[p.x][p.y].gen.value) >= 0
    ensures WorldOk(cfg, Buffed(cfg, w, p, player, skill))
  {
    GenAtHere(cfg, w, p);
    var g := Holder(w, p);
    var slot := SkillSlot(skill);
    ChargedKeepsInvariant(cfg, w, p, player,
      g.(skillsCd := g.skillsCd[slot := 10], skillDuration := g.skillDuration[slot - 2 := 10]), SkillCost(cfg, skill));
  }

  /** An allowed skill leaves a well-formed state. */
  lemma SkillWorldOk(cfg: Config, w: World, p: Pos, player: int, d: Pos, skill: Skill, b: Battle)
    requires WorldOk(cfg, w)
    requires ReadsTarget(cfg, w, p, player, d, skill) ==> d != NoTarget
    requires SkillAllowed(cfg, w, p, player, d, skill, b)
    ensures WorldOk(cfg, SkillWorld(cfg, w, p, player, d, skill, b))
  {
    match skill
    case SurpriseAttack =>
      SurpriseKeepsInvariant(cfg, w, p, d, player, RushSurvivors(w, player, d, b));
    case Rout =>
      RoutKeepsInvariant(cfg, w, p, d, player);
    case _ =>
      BuffKeepsInvariant(cfg, w, p, player, skill);
  }

  /** Whatever `skill_activate` does, the state stays well formed. */
  lemma SkillKeepsInvariant(cfg: Config, w: World, p: Pos, player: int, d: Pos, skill: Skill, b: Battle)
    requires WorldOk(cfg, w)
    requires ReadsTarget(cfg, w, p, player, d, skill) ==> d != NoTarget
    ensures WorldOk(cfg, SkillOutcome(cfg, w, p, player, d, skill, b).world)
  {
    SkillChecks(cfg, w, p, player, d, skill, b);
    if SkillAllowed(cfg, w, p, player, d, skill, b) {
      SkillWorldOk(cfg, w, p, player, d, skill, b);
    }
  }

  // ---------------------------------------------------------------------
  // What each skill does

  /**
   * The board after a surprise attack: one unit and no general left on the
   * origin; the destination the player's, holding the general and either the
   * units added (neutral or friendly) or `survivors` (enemy); every other
   * cell as it was.
   */
  lemma SurpriseBoard(cfg: Config, w: World, p: Pos, d: Pos, player: int, survivors: nat)
    requires WorldOk(cfg, w) && InBounds(cfg, p) && InBounds(cfg, d) && 0 <= player <= 1
    requires w.board[p.x][p.y].gen.Some? && w.board[d.x][d.y].gen.None? && w.board[p.x][p.y].army >= 1
    ensures p != d && GeneralIndex(w.generals, w.board[p.x][p.y].gen.value) >= 0
    ensures Shaped(cfg, Surprise(cfg, w, p, d, player, survivors).board)
    ensures var b' := Surprise(cfg, w, p, d, player, survivors).board;
      var src, dst := w.board[p.x][p.y], w.board[d.x][d.y];
      b'[p.x][p.y] == src.(army := 1, gen := None) &&
      b'[d.x][d.y] == dst.(owner := player, army := b'[d.x][d.y].army, gen := src.gen) &&
      (dst.owner != 1 - player ==> b'[d.x][d.y].army == dst.army + src.army - 1) &&
      (dst.owner == 1 - player ==> b'[d.x][d.y].army == survivors) &&
      (forall i, j :: 0 <= i < cfg.rows && 0 <= j < cfg.cols && Pos(i, j) != p && Pos(i, j) != d ==>
        b'[i][j] == w.board[i][j])
  {
    GenAtHere(cfg, w, p);
    RushedEffect(cfg, w.board, p, d, player, survivors);
    var w1 := w.(board := Rushed(w.board, p, d, player, survivors));
    WorldOkFrame(cfg, w, w1);
    var g := Holder(w, p);
    RelocatedEffect(cfg, w1, p, d, g.(pos := d, skillsCd := g.skillsCd[0 := 5]));
  }

  /**
   * Besides the board, a surprise attack changes only the general, which
   * moves to the destination with skill 0 cooling down for 5 rounds, and the
   * player's coin, which drops by `tactical_strike`.
   */
  lemma SurpriseRest(cfg: Config, w: World, p: Pos, d: Pos, player: int, survivors: nat)
    requires WorldOk(cfg, w) && InBounds(cfg, p) && InBounds(cfg, d) && 0 <= player <= 1
    requires w.board[p.x][p.y].gen.Some? && w.board[d.x][d.y].gen.None? && w.board[p.x][p.y].army >= 1
    ensures p != d && GeneralIndex(w.generals, w.board[p.x][p.y].gen.value) >= 0
    ensures var w' := Surprise(cfg, w, p, d, player, survivors);
      var k := GeneralIndex(w.generals, w.board[p.x][p.y].gen.value);
      var g := w.generals[k];
      g.pos == p && w'.generals == w.generals[k := g.(pos := d, skillsCd := g.skillsCd[0 := 5])] &&
      w'.coin == w.coin[player := w.coin[player] - cfg.tacticalStrike] &&
      w' == w.(board := w'.board, generals := w'.generals, coin := w'.coin)
  {
    GenAtHere(cfg, w, p);
  }

  /**
   * An allowed surprise attack is the rush with the survivors of the fight
   * the attackers won against an enemy cell, from an origin with a general
   * and at least two units, onto a cell without one, paid from coin that
   * covers it.
   */
  lemma SurpriseEffect(cfg: Config, w: World, p: Pos, player: int, d: Pos, b: Battle)
    requires WorldOk(cfg, w) && d != NoTarget && SkillAllowed(cfg, w, p, player, d, SurpriseAttack, b)
    ensures InBounds(cfg, p) && InBounds(cfg, d) && 0 <= player <= 1 && w.coin[player] >= cfg.tacticalStrike
    ensures RushOk(w, player, d, p, b)
    ensures SkillWorld(cfg, w, p, player, d, SurpriseAttack, b) == Surprise(cfg, w, p, d, player, RushSurvivors(w, player, d, b))
  {
  }

  /**
   * The rout on the state: the destination loses up to 20 units and turns
   * neutral when emptied without a general on it; the general's skill 1
   * cools down for 10 rounds and `breakthrough` is paid; nothing else
   * changes.
   */
  lemma RoutEffect(cfg: Config, w: World, p: Pos, d: Pos, player: int)
    requires WorldOk(cfg, w) && InBounds(cfg, p) && InBounds(cfg, d) && 0 <= player <= 1
    requires w.board[p.x][p.y].gen.Some?
    ensures GeneralIndex(w.generals, w.board[p.x][p.y].gen.value) >= 0
    ensures Shaped(cfg, Routed(cfg, w, p, d, player).board)
    ensures var w' := Routed(cfg, w, p, d, player);
      var c := w.board[d.x][d.y];
      var k := GeneralIndex(w.generals, w.board[p.x][p.y].gen.value);
      var g := w.generals[k];
      w'.board[d.x][d.y] == c.(army := if c.army > 20 then c.army - 20 else 0,
                               owner := if c.army <= 20 && c.gen.None? then -1 else c.owner) &&
      (forall i, j :: 0 <= i < cfg.rows && 0 <= j < cfg.cols && Pos(i, j) != d ==> w'.board[i][j] == w.board[i][j]) &&
      w'.generals == w.generals[k := g.(skillsCd := g.skillsCd[1 := 10])] &&
      w'.coin == w.coin[player := w.coin[player] - cfg.breakthrough] &&
      w' == w.(board := w'.board, generals := w'.generals, coin := w'.coin)
  {
    GenAtHere(cfg, w, p);
    var c := w.board[d.x][d.y];
    SetCellFrame(cfg, w.board, d, Breakthrough(c));
  }

  /**
   * A timed buff changes no cell: the general's slot cools down for 10
   * rounds, the matching duration (slot 2, 3, 4 drive duration 0, 1, 2: the
   * attack, defence and weakening auras) is set to 10, and the skill's price
   * is paid.
   */
  lemma BuffEffect(cfg: Config, w: World, p: Pos, player: int, skill: Skill)
    requires skill.Command? || skill.Fortify? || skill.Weaken?
    requires WorldOk(cfg, w) && InBounds(cfg, p) && 0 <= player <= 1 && w.board[p.x][p.y].gen.Some?
    ensures GeneralIndex(w.generals, w.board[p.x][p.y].gen.value) >= 0
    ensures var w' := Buffed(cfg, w, p, player, skill);
      var k := GeneralIndex(w.generals, w.board[p.x][p.y].gen.value);
      var g := w.generals[k];
      var slot := SkillSlot(skill);
      w'.board == w.board &&
      w'.generals == w.generals[k := g.(skillsCd := g.skillsCd[slot := 10], skillDuration := g.skillDuration[slot - 2 := 10])] &&
      w'.coin == w.coin[player := w.coin[player] - SkillCost(cfg, skill)] &&
      w' == w.(generals := w'.generals, coin := w'.coin)
  {
    GenAtHere(cfg, w, p);
  }

  /**
   * The general after an allowed skill: the same entry in the list, with the
   * same id, and the skill's slot no longer at zero.
   */
  lemma SkillWorldGeneral(cfg: Config, w: World, p: Pos, player: int, d: Pos, skill: Skill, b: Battle)
    requires WorldOk(cfg, w)
    requires ReadsTarget(cfg, w, p, player, d, skill) ==> d != NoTarget
    requires SkillAllowed(cfg, w, p, player, d, skill, b)
    ensures InBounds(cfg, p) && 0 <= player <= 1 && w.board[p.x][p.y].gen.Some?
    ensures var w' := SkillWorld(cfg, w, p, player, d, skill, b);
      var k := GeneralIndex(w.generals, w.board[p.x][p.y].gen.value);
      0 <= k < |w.generals| && |w'.generals| == |w.generals| &&
      (forall m :: 0 <= m < |w.generals| ==> w'.generals[m].id == w.generals[m].id) &&
      w'.generals[k].skillsCd[SkillSlot(skill)] > 0 &&
      w'.generals[k].pos == if skill.SurpriseAttack? then d else p
  {
    GenAtHere(cfg, w, p);
    match skill {
      case SurpriseAttack =>
        SurpriseEffect(cfg, w, p, player, d, b);
        SurpriseRest(cfg, w, p, d, player, RushSurvivors(w, player, d, b));
      case Rout =>
      case _ =>
    }
  }

  /** An allowed skill is paid from the player's coin, which covered its price. */
  lemma SkillPays(cfg: Config, w: World, p: Pos, player: int, d: Pos, skill: Skill, b: Battle)
    requires WorldOk(cfg, w)
    requires ReadsTarget(cfg, w, p, player, d, skill) ==> d != NoTarget
    requires SkillAllowed(cfg, w, p, player, d, skill, b)
    ensures 0 <= player <= 1
    ensures var w' := SkillWorld(cfg, w, p, player, d, skill, b);
      w'.coin == w.coin[player := w.coin[player] - SkillCost(cfg, skill)] && w'.coin[player] >= 0
  {
    GenAtHere(cfg, w, p);
    if skill.SurpriseAttack? {
      SurpriseEffect(cfg, w, p, player, d, b);
      SurpriseRest(cfg, w, p, d, player, RushSurvivors(w, player, d, b));
    }
  }

  /**
   * A successful skill is paid from coin that covered it, leaves the other
   * player's coin alone, and puts the skill on cooldown: the same general,
   * now on `q` (the destination after a surprise attack, the origin
   * otherwise), cannot use it again before the cooldown runs out.
   */
  lemma SkillCoolsDown(cfg: Config, w: World, p: Pos, player: int, d: Pos, skill: Skill, b: Battle, q: Pos, d': Pos, b': Battle)
    requires WorldOk(cfg, w)
    requires ReadsTarget(cfg, w, p, player, d, skill) ==> d != NoTarget
    requires SkillAllowed(cfg, w, p, player, d, skill, b)
    requires q == if skill.SurpriseAttack? then d else p
    ensures 0 <= player <= 1
    ensures var w' := SkillWorld(cfg, w, p, player, d, skill, b);
      w'.coin[player] == w.coin[player] - SkillCost(cfg, skill) >= 0 && w'.coin[1 - player] == w.coin[1 - player]
    ensures WorldOk(cfg, SkillWorld(cfg, w, p, player, d, skill, b)) && InBounds(cfg, q)
    ensures SkillWorld(cfg, w, p, player, d, skill, b).board[q.x][q.y].gen == w.board[p.x][p.y].gen
    ensures var w' := SkillWorld(cfg, w, p, player, d, skill, b);
      (ReadsTarget(cfg, w', q, player, d', skill) ==> d' != NoTarget) ==> !SkillAllowed(cfg, w', q, player, d', skill, b')
  {
    var w' := SkillWorld(cfg, w, p, player, d, skill, b);
    SkillWorldOk(cfg, w, p, player, d, skill, b);
    SkillWorldGeneral(cfg, w, p, player, d, skill, b);
    SkillPays(cfg, w, p, player, d, skill, b);
    var id := w.board[p.x][p.y].gen.value;
    SameIdsSameIndex(w.generals, w'.generals, id);
  }

  // ---------------------------------------------------------------------
  // The operations on the state

  /** The shared checks of `skill_activate` (lines 85-122), reading the state only. */
  method SkillGateCheck(s: GameState, p: Pos, player: int, d: Pos) returns (ok: bool)
    requires s.Valid()
    ensures ok == SkillGate(s.cfg, s.Model(), p, player, d)
  {
    if player != 0 && player != 1 {
      return false;
    }
    if p.x < 0 || p.x >= s.cfg.rows || p.y < 0 || p.y >= s.cfg.cols {
      return false;
    }
    if d != NoTarget {
      if d.x < 0 || d.x >= s.cfg.rows || d.y < 0 || d.y >= s.cfg.cols {
        return false;
      }
      if Abs(d.x - p.x) > 2 || Abs(d.y - p.y) > 2 {
        return false;
      }
    }
    if s.board[p.x][p.y].owner != player || s.board[p.x][p.y].gen.None? {
      return false;
    }
    var stunned := IsStunned(s.activeWeapons, p, player);
    return !stunned;
  }

  /** The cells `army_rush` writes, in the order the source writes them. */
  method RushCells(board: Board, p: Pos, d: Pos, player: int, survivors: nat) returns (board': Board)
    requires 0 <= p.x < |board| && 0 <= p.y < |board[p.x]| && 0 <= d.x < |board| && 0 <= d.y < |board[d.x]|
    requires board[p.x][p.y].army >= 1
    ensures board' == Rushed(board, p, d, player, survivors)
  {
    var src := board[p.x][p.y];
    var dst := board[d.x][d.y];
    var num := src.army - 1;
    board' := board;
    if dst.owner == -1 {
      board' := SetCell(board', d, dst.(army := dst.army + num, owner := player));
      board' := SetCell(board', p, src.(army := src.army - num));
    } else if dst.owner == player {
      board' := SetCell(board', p, src.(army := src.army - num));
      board' := SetCell(board', d, dst.(army := dst.army + num));
    } else if dst.owner == 1 - player {
      board' := SetCell(board', d, dst.(owner := player, army := survivors));
      board' := SetCell(board', p, src.(army := src.army - num));
    }
  }

  /** The fight the rush has against an enemy destination, computed on the state. */
  method RushFight(s: GameState, p: Pos, player: int, d: Pos) returns (b: Battle)
    requires s.Valid() && InBounds(s.cfg, p) && InBounds(s.cfg, d) && s.board[p.x][p.y].army >= 1
    ensures s.board[d.x][d.y].owner == 1 - player ==> b == RushBattle(s.cfg, s.Model(), p, d)
  {
    b := Neutralised;
    if s.board[d.x][d.y].owner == 1 - player {
      b := ResolveBattle(s, p, d, Sent(s.board[p.x][p.y]));
    }
  }

  /**
   * `army_rush` on the state, for a rush `check_rush_param` accepted; the
   * fight against an enemy cell is computed again, as the source does.
   */
  method ArmyRush(s: GameState, p: Pos, player: int, d: Pos) returns (survivors: nat)
    requires s.Valid() && InBounds(s.cfg, p) && InBounds(s.cfg, d) && 0 <= player <= 1
    requires RushOk(s.Model(), player, d, p, RushBattle(s.cfg, s.Model(), p, d))
    modifies s
    ensures s.Valid()
    ensures survivors == RushSurvivors(old(s.Model()), player, d, RushBattle(s.cfg, old(s.Model()), p, d))
    ensures s.Model() == old(s.Model()).(board := Rushed(old(s.board), p, d, player, survivors))
  {
    ghost var w := s.Model();
    var b := RushFight(s, p, player, d);
    survivors := if s.board[d.x][d.y].owner == 1 - player && b.Captured? then b.survivors else 0;
    var board := RushCells(s.board, p, d, player, survivors);
    RushedFrame(s.cfg, w.board, p, d, player, survivors);
    SetBoard(s, board);
  }

  /** `handle_breakthrough` on the state. */
  method HandleBreakthrough(s: GameState, d: Pos)
    requires s.Valid() && InBounds(s.cfg, d)
    modifies s
    ensures s.Valid()
    ensures s.Model() == old(s.Model()).(board := SetCell(old(s.board), d, Breakthrough(old(s.board[d.x][d.y]))))
  {
    ghost var w := s.Model();
    var c := s.board[d.x][d.y];
    if c.army > 20 {
      c := c.(army := c.army - 20);
    } else {
      c := c.(army := 0);
      if c.gen.None? {
        c := c.(owner := -1);
      }
    }
    SetCellFrame(s.cfg, w.board, d, c);
    SetBoard(s, SetCell(s.board, d, c));
  }

  /** The surprise attack once allowed (lines 129-136): the rush, the general's move, its cooldown and the price. */
  method SurpriseAttackOn(s: GameState, p: Pos, player: int, d: Pos)
    requires s.Valid() && InBounds(s.cfg, p) && InBounds(s.cfg, d) && 0 <= player <= 1
    requires RushOk(s.Model(), player, d, p, RushBattle(s.cfg, s.Model(), p, d))
    modifies s
    ensures s.Valid()
    ensures s.Model() == Surprise(s.cfg, old(s.Model()), p, d, player,
      RushSurvivors(old(s.Model()), player, d, RushBattle(s.cfg, old(s.Model()), p, d)))
  {
    ghost var w := s.Model();
    GenAtHere(s.cfg, w, p);
    var g := s.generals[GeneralIndex(s.generals, s.board[p.x][p.y].gen.value)];
    var survivors := ArmyRush(s, p, player, d);
    ghost var w1;
    var moved;
    w1, moved := SurpriseMove(s, w, p, d, player, survivors, g);
    SurprisePay(s, w, p, d, player, survivors, w1, moved);
  }

  /** The surprise attack is the rush, then the general's relocation, then the price. */
  lemma SurpriseIs(cfg: Config, w: World, p: Pos, d: Pos, player: int, survivors: nat, w1: World, moved: General)
    requires Shaped(cfg, w.board) && OwnersOk(w.board) && InBounds(cfg, p) && InBounds(cfg, d) && p != d
    requires 0 <= player <= 1 && w.board[p.x][p.y].army >= 1
    requires w.board[p.x][p.y].gen.Some? && GeneralIndex(w.generals, w.board[p.x][p.y].gen.value) >= 0
    requires w1 == w.(board := Rushed(w.board, p, d, player, survivors))
    requires moved == Holder(w, p).(pos := d, skillsCd := Holder(w, p).skillsCd[0 := 5])
    ensures w1.board[p.x][p.y].gen == w.board[p.x][p.y].gen && w1.generals == w.generals
    ensures Surprise(cfg, w, p, d, player, survivors) ==
      Relocated(w1, p, d, moved).(coin := w.coin[player := w.coin[player] - cfg.tacticalStrike])
  {
    RushedFrame(cfg, w.board, p, d, player, survivors);
  }

  /** The general's move after the rush and its cooldown (lines 132-135); the coin is untouched. */
  method SurpriseMove(s: GameState, ghost w: World, p: Pos, d: Pos, player: int, ghost survivors: nat, g: General)
    returns (ghost w1: World, moved: General)
    requires WorldOk(s.cfg, w) && InBounds(s.cfg, p) && InBounds(s.cfg, d) && 0 <= player <= 1
    requires w.board[p.x][p.y].gen.Some? && w.board[d.x][d.y].gen.None? && w.board[p.x][p.y].army >= 1
    requires GeneralIndex(w.generals, w.board[p.x][p.y].gen.value) >= 0 && g == Holder(w, p)
    requires s.Valid() && s.Model() == w.(board := Rushed(w.board, p, d, player, survivors))
    modifies s
    ensures w1 == w.(board := Rushed(w.board, p, d, player, survivors))
    ensures moved == g.(pos := d, skillsCd := g.skillsCd[0 := 5])
    ensures w1.board[p.x][p.y].gen.Some? && GeneralIndex(w1.generals, w1.board[p.x][p.y].gen.value) >= 0
    ensures 0 <= d.x < |w1.board| && 0 <= d.y < |w1.board[d.x]|
    ensures s.Valid() && s.Model() == Relocated(w1, p, d, moved) && s.coin == w.coin
  {
    RushedRelocatable(s.cfg, w, p, d, player, survivors);
    w1 := s.Model();
    moved := g.(pos := d, skillsCd := g.skillsCd[0 := 5]);
    Relocate(s, p, d, moved);
  }


  /** The price of the surprise attack, paid once the general has moved (line 136). */
  method SurprisePay(s: GameState, ghost w: World, p: Pos, d: Pos, player: int, ghost survivors: nat,
                     ghost w1: World, ghost moved: General)
    requires Shaped(s.cfg, w.board) && OwnersOk(w.board) && InBounds(s.cfg, p) && InBounds(s.cfg, d) && p != d
    requires 0 <= player <= 1 && w.board[p.x][p.y].army >= 1
    requires w.board[p.x][p.y].gen.Some? && GeneralIndex(w.generals, w.board[p.x][p.y].gen.value) >= 0
    requires w1 == w.(board := Rushed(w.board, p, d, player, survivors))
    requires moved == Holder(w, p).(pos := d, skillsCd := Holder(w, p).skillsCd[0 := 5])
    requires w1.board[p.x][p.y].gen.Some? && GeneralIndex(w1.generals, w1.board[p.x][p.y].gen.value) >= 0
    requires 0 <= d.x < |w1.board| && 0 <= d.y < |w1.board[d.x]|
    requires s.Valid() && s.Model() == Relocated(w1, p, d, moved) && s.coin == w.coin
    modifies s
    ensures s.Valid() && s.Model() == Surprise(s.cfg, w, p, d, player, survivors)
  {
    Pay(s, player, s.cfg.tacticalStrike);
    SurpriseIs(s.cfg, w, p, d, player, survivors, w1, moved);
  }

  /**
   * The general on `p` replaced by `g`, the same general with new levels,
   * cooldowns or durations, and `cost` paid by `player`.
   */
  method Charge(s: GameState, p: Pos, player: int, g: General, cost: int)
    requires s.Valid() && InBounds(s.cfg, p) && 0 <= player <= 1 && s.board[p.x][p.y].gen.Some?
    requires g == Holder(s.Model(), p).(produce := g.produce, defence := g.defence, mobility := g.mobility,
                                        restMove := g.restMove, skillsCd := g.skillsCd, skillDuration := g.skillDuration)
    requires g.produce >= 0 && g.defence > 0.0
    modifies s
    ensures s.Valid() && s.Model() == Charged(old(s.Model()), p, player, g, cost)
  {
    ghost var w := s.Model();
    GenAtHere(s.cfg, w, p);
    var k := GeneralIndex(s.generals, s.board[p.x][p.y].gen.value);
    WorldOkFrame(s.cfg, w, w.(generals := w.generals[k := g]));
    s.generals := s.generals[k := g];
    Pay(s, player, cost);
  }

  /** The rout once allowed (lines 152-155). */
  method RoutOn(s: GameState, p: Pos, player: int, d: Pos)
    requires s.Valid() && InBounds(s.cfg, p) && InBounds(s.cfg, d) && 0 <= player <= 1
    requires s.board[p.x][p.y].gen.Some?
    modifies s
    ensures GeneralIndex(old(s.generals), old(s.board[p.x][p.y].gen.value)) >= 0
    ensures s.Valid() && s.Model() == Routed(s.cfg, old(s.Model()), p, d, player)
  {
    ghost var w := s.Model();
    GenAtHere(s.cfg, w, p);
    var id := s.board[p.x][p.y].gen.value;
    var k := GeneralIndex(s.generals, id);
    var g := s.generals[k];
    // The cooldown and the price are written before the damage; they touch other fields than the board.
    Charge(s, p, player, g.(skillsCd := g.skillsCd[1 := 10]), s.cfg.breakthrough);
    HandleBreakthrough(s, d);
  }

  /** A timed buff once allowed (lines 169-173, 187-191, 205-209). */
  method BuffOn(s: GameState, p: Pos, player: int, skill: Skill)
    requires skill.Command? || skill.Fortify? || skill.Weaken?
    requires s.Valid() && InBounds(s.cfg, p) && 0 <= player <= 1 && s.board[p.x][p.y].gen.Some?
    modifies s
    ensures GeneralIndex(old(s.generals), old(s.board[p.x][p.y].gen.value)) >= 0
    ensures s.Valid() && s.Model() == Buffed(s.cfg, old(s.Model()), p, player, skill)
  {
    ghost var w := s.Model();
    GenAtHere(s.cfg, w, p);
    var id := s.board[p.x][p.y].gen.value;
    var k := GeneralIndex(s.generals, id);
    var g := s.generals[k];
    var slot := SkillSlot(skill);
    Charge(s, p, player, g.(skillsCd := g.skillsCd[slot := 10], skillDuration := g.skillDuration[slot - 2 := 10]), SkillCost(s.cfg, skill));
  }

  /**
   * `skill_activate` on the state: it does what `SkillOutcome` says with the
   * fight the source computes, and keeps the state well formed.
   */
  method SkillActivate(s: GameState, player: int, p: Pos, d: Pos, skill: Skill) returns (ok: bool)
    requires s.Valid()
    requires ReadsTarget(s.cfg, s.Model(), p, player, d, skill) ==> d != NoTarget
    modifies s
    ensures s.Valid()
    ensures Outcome(ok, s.Model()) == SkillOutcome(s.cfg, old(s.Model()), p, player, d, skill, RushBattle(s.cfg, old(s.Model()), p, d))
  {
    ghost var w := s.Model();
    ghost var b := RushBattle(s.cfg, w, p, d);
    SkillChecks(s.cfg, w, p, player, d, skill, b);
    ok := SkillGateCheck(s, p, player, d);
    if !ok {
      return;
    }
    GenAtHere(s.cfg, w, p);
    var coin := s.coin[player];
    var g := s.generals[GeneralIndex(s.generals, s.board[p.x][p.y].gen.value)];
    match skill {
      case SurpriseAttack =>
        ok := CheckRushParam(s, player, d, p);
        if !ok {
          return;
        }
        if coin >= s.cfg.tacticalStrike && g.skillsCd[0] == 0 {
          SurpriseAttackOn(s, p, player, d);
        } else {
          ok := false;
        }
      case Rout =>
        if coin >= s.cfg.breakthrough && g.skillsCd[1] == 0 {
          RoutOn(s, p, player, d);
        } else {
          ok := false;
        }
      case _ =>
        if coin >= SkillCost(s.cfg, skill) && g.skillsCd[SkillSlot(skill)] == 0 {
          BuffOn(s, p, player, skill);
        } else {
          ok := false;
        }
    }
  }
}
