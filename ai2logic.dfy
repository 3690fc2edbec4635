/**
 * `execute_single_command` of logic/ai2logic.py: the dispatcher that turns
 * one command of a player, a code and a list of integer parameters, into a
 * call of the matching game operation and reports whether it took effect.
 *
 *   1  army move      [x, y, direction + 1, num]
 *   2  general move   [id, x, y]
 *   3  upgrade        [id, 1 production | 2 defence | 3 mobility]
 *   4  skill          [id, skill + 1, x, y]   (the target only for skills 1 and 2)
 *   5  technology     [track + 1]
 *   6  super weapon   [1 bomb | 2 strengthen | 3 tp | 4 timestop, x, y, (start x, start y)]
 *   7  call general   [x, y]
 *
 * Anything else is refused, as is a command naming a general id nobody
 * has, an upgrade or weapon code outside its range, and a general move
 * `check_general_movement` rejects.
 */
module Ai2Logic {
  import opened GameData
  import opened Gamestate
  import opened Movement
  import opened GeneralSkills
  import opened SuperWeapons
  import opened Upgrade
  import opened CallGenerals

  /**
   * The skill `skill_activate` runs for `skillType = code`: the one the code
   * names, and the weakening for every code no earlier branch matches.
   */
  function SkillFor(cfg: Config, code: int): (skill: Skill)
    ensures code in cfg.skillCode ==> skill == cfg.skillCode[code]
    ensures code !in cfg.skillCode ==> skill == Weaken
  {
    if code in cfg.skillCode then cfg.skillCode[code] else Weaken
  }

  /** The skill's target: `params[2:4]` for skill codes 1 and 2, `[-1, -1]` otherwise. */
  function SkillTarget(params: seq<int>): Pos
    requires |params| >= 2 && (params[1] == 1 || params[1] == 2 ==> |params| >= 4)
  {
    if params[1] == 1 || params[1] == 2 then Pos(params[2], params[3]) else NoTarget
  }

  /**
   * What the dispatcher needs of its command so that Python raises no error:
   * enough parameters for the branch taken, a direction code the enum
   * knows, board indices in range where nothing checks them before use, a
   * player 0 or 1 where the coin list is indexed unguarded, and a target
   * for a surprise attack or a rout that reads it. A `call_generals` position is the
   * whole parameter list, so it has exactly two entries.
   */
  ghost predicate CommandSafe(cfg: Config, w: World, player: int, command: int, params: seq<int>)
    requires WorldOk(cfg, w)
  {
    if command == 1 then
      |params| >= 4 && params[2] - 1 in cfg.directionCode
    else if command == 2 then
      |params| >= 1 &&
      (PositionOf(w.generals, params[0]).Some? ==> |params| >= 3 && InBounds(cfg, Pos(params[1], params[2])))
    else if command == 3 then
      |params| >= 1 && (PositionOf(w.generals, params[0]).Some? ==> |params| >= 2 && 0 <= player <= 1)
    else if command == 4 then
      |params| >= 1 &&
      (PositionOf(w.generals, params[0]).Some? ==>
        |params| >= 2 && (params[1] == 1 || params[1] == 2 ==> |params| >= 4) &&
        var skill := SkillFor(cfg, params[1] - 1);
        (ReadsTarget(cfg, w, PositionOf(w.generals, params[0]).value, player, SkillTarget(params), skill) ==>
           SkillTarget(params) != NoTarget))
    else if command == 5 then
      |params| >= 1 && 0 <= player <= 1
    else if command == 6 then
      |params| >= 1 && (1 <= params[0] <= 4 ==> |params| >= 3) && (params[0] == 3 ==> |params| >= 5)
    else if command == 7 then
      |params| == 2 && InBounds(cfg, Pos(params[0], params[1])) && 0 <= player <= 1
    else
      true
  }

  /** What `execute_single_command` reports and leaves behind (lines 9-59). */
  ghost function CommandOutcome(cfg: Config, w: World, player: int, command: int, params: seq<int>): Outcome
    requires WorldOk(cfg, w) && CommandSafe(cfg, w, player, command, params)
  {
    if command == 1 then
      ArmyMoveOutcome(cfg, w, Pos(params[0], params[1]), player, cfg.directionCode[params[2] - 1], params[3])
    else if command == 2 then
      match PositionOf(w.generals, params[0])
      case None => Outcome(false, w)
      case Some(p) =>
        var dst := Pos(params[1], params[2]);
        if GeneralMoveAllowed(cfg, w, p, player, dst) then
          CheckedMoveAffordable(cfg, w, p, player, dst);
          Outcome(true, GeneralMoveWorld(w, p, dst))
        else Outcome(false, w)
    else if command == 3 then
      match PositionOf(w.generals, params[0])
      case None => Outcome(false, w)
      case Some(p) =>
        PositionOfPlaced(cfg, w, params[0]);
        if params[1] == 1 then ProductionUpOutcome(cfg, w, p, player)
        else if params[1] == 2 then DefenceUpOutcome(cfg, w, p, player)
        else if params[1] == 3 then MovementUpOutcome(cfg, w, p, player)
        else Outcome(false, w)
    else if command == 4 then
      match PositionOf(w.generals, params[0])
      case None => Outcome(false, w)
      case Some(p) =>
        var d := SkillTarget(params);
        SkillOutcome(cfg, w, p, player, d, SkillFor(cfg, params[1] - 1), RushBattle(cfg, w, p, d))
    else if command == 5 then
      TechOutcome(cfg, w, params[0] - 1, player)
    else if command == 6 then
      if params[0] == 1 then BombOutcome(cfg, w, Pos(params[1], params[2]), player)
      else if params[0] == 2 then StrengthenOutcome(cfg, w, Pos(params[1], params[2]), player)
      else if params[0] == 3 then TpOutcome(cfg, w, Pos(params[3], params[4]), Pos(params[1], params[2]), player)
      else if params[0] == 4 then TimestopOutcome(cfg, w, Pos(params[1], params[2]), player)
      else Outcome(false, w)
    else if command == 7 then
      CallOutcome(cfg, w, player, Pos(params[0], params[1]))
    else
      Outcome(false, w)
  }

  /**
   * The dispatcher refuses what it does not recognise: a command code
   * outside 1..7, a general id no general has (commands 2, 3 and 4), an
   * upgrade code outside 1..3 and a weapon code outside 1..4 all return
   * false on the unchanged state.
   */
  lemma UnknownCommandsRefused(cfg: Config, w: World, player: int, command: int, params: seq<int>)
    requires WorldOk(cfg, w) && CommandSafe(cfg, w, player, command, params)
    ensures !(1 <= command <= 7) ==> CommandOutcome(cfg, w, player, command, params) == Outcome(false, w)
    ensures (command == 2 || command == 3 || command == 4) && (forall k :: 0 <= k < |w.generals| ==> w.generals[k].id != params[0]) ==>
      CommandOutcome(cfg, w, player, command, params) == Outcome(false, w)
    ensures command == 3 && |params| >= 2 && !(1 <= params[1] <= 3) ==> CommandOutcome(cfg, w, player, command, params) == Outcome(false, w)
    ensures command == 6 && !(1 <= params[0] <= 4) ==> CommandOutcome(cfg, w, player, command, params) == Outcome(false, w)
  {
  }

  /**
   * Every operation the dispatcher reaches leaves the state exactly as it
   * was when it returns false, so a refused command, whatever its code and
   * parameters, changes nothing.
   */
  lemma RefusedCommandChangesNothing(cfg: Config, w: World, player: int, command: int, params: seq<int>)
    requires WorldOk(cfg, w) && CommandSafe(cfg, w, player, command, params)
    ensures !CommandOutcome(cfg, w, player, command, params).ok ==> CommandOutcome(cfg, w, player, command, params).world == w
  {
    if command == 1 {
      ArmyMoveChecks(cfg, w, Pos(params[0], params[1]), player, cfg.directionCode[params[2] - 1], params[3]);
    } else if command == 3 {
      var pos := PositionOf(w.generals, params[0]);
      if pos.Some? {
        PositionOfPlaced(cfg, w, params[0]);
        var p := pos.value;
        if params[1] == 1 {
          ProductionUpChecks(cfg, w, p, player);
        } else if params[1] == 2 {
          DefenceUpChecks(cfg, w, p, player);
        } else if params[1] == 3 {
          MovementUpChecks(cfg, w, p, player);
        }
      }
    } else if command == 4 {
      var pos := PositionOf(w.generals, params[0]);
      if pos.Some? {
        var p := pos.value;
        var d := SkillTarget(params);
        SkillChecks(cfg, w, p, player, d, SkillFor(cfg, params[1] - 1), RushBattle(cfg, w, p, d));
      }
    } else if command == 5 {
      TechChecks(cfg, w, params[0] - 1, player);
    } else if command == 6 {
      if params[0] == 1 {
        BombChecks(cfg, w, Pos(params[1], params[2]), player);
      } else if params[0] == 2 {
        StrengthenChecks(cfg, w, Pos(params[1], params[2]), player);
      } else if params[0] == 3 {
        TpChecks(cfg, w, Pos(params[3], params[4]), Pos(params[1], params[2]), player);
      } else if params[0] == 4 {
        TimestopChecks(cfg, w, Pos(params[1], params[2]), player);
      }
    } else if command == 7 {
      CallChecks(cfg, w, player, Pos(params[0], params[1]));
    }
  }

  /** `execute_single_command` on the state (lines 9-59). */
  method ExecuteSingleCommand(s: GameState, player: int, command: int, params: seq<int>) returns (ok: bool)
    requires s.Valid() && CommandSafe(s.cfg, s.Model(), player, command, params)
    modifies s
    ensures s.Valid() && Outcome(ok, s.Model()) == CommandOutcome(s.cfg, old(s.Model()), player, command, params)
  {
    if command == 1 {
      ok := ArmyMove(s, Pos(params[0], params[1]), player, s.cfg.directionCode[params[2] - 1], params[3]);
    } else if command == 2 {
      ok := MoveGeneralById(s, player, params);
    } else if command == 3 {
      ok := UpgradeById(s, player, params);
    } else if command == 4 {
      ok := SkillById(s, player, params);
    } else if command == 5 {
      ok := TechUpdate(s, params[0] - 1, player);
    } else if command == 6 {
      ok := UseSuperWeapon(s, player, params);
    } else if command == 7 {
      ok := CallGeneralsOn(s, player, Pos(params[0], params[1]));
    } else {
      ok := false;
    }
  }

  /** Command 2: find the general, check the move, and move it (lines 17-22). */
  method MoveGeneralById(s: GameState, player: int, params: seq<int>) returns (ok: bool)
    requires s.Valid() && CommandSafe(s.cfg, s.Model(), player, 2, params)
    modifies s
    ensures s.Valid() && Outcome(ok, s.Model()) == CommandOutcome(s.cfg, old(s.Model()), player, 2, params)
  {
    var pos := s.FindGeneralPositionById(params[0]);
    if pos.None? {
      return false;
    }
    var dst := Pos(params[1], params[2]);
    var allowed := CheckGeneralMovement(s, pos.value, player, dst);
    if !allowed {
      return false;
    }
    CheckedMoveAffordable(s.cfg, s.Model(), pos.value, player, dst);
    ok := GeneralMove(s, pos.value, player, dst);
  }

  /** Command 3: find the general and raise the named attribute (lines 23-31). */
  method UpgradeById(s: GameState, player: int, params: seq<int>) returns (ok: bool)
    requires s.Valid() && CommandSafe(s.cfg, s.Model(), player, 3, params)
    modifies s
    ensures s.Valid() && Outcome(ok, s.Model()) == CommandOutcome(s.cfg, old(s.Model()), player, 3, params)
  {
    var pos := s.FindGeneralPositionById(params[0]);
    if pos.None? {
      return false;
    }
    PositionOfPlaced(s.cfg, s.Model(), params[0]);
    if params[1] == 1 {
      ok := ProductionUp(s, pos.value, player);
    } else if params[1] == 2 {
      ok := DefenceUp(s, pos.value, player);
    } else if params[1] == 3 {
      ok := MovementUp(s, pos.value, player);
    } else {
      ok := false;
    }
  }

  /** Command 4: find the general and activate the skill (lines 32-42). */
  method SkillById(s: GameState, player: int, params: seq<int>) returns (ok: bool)
    requires s.Valid() && CommandSafe(s.cfg, s.Model(), player, 4, params)
    modifies s
    ensures s.Valid() && Outcome(ok, s.Model()) == CommandOutcome(s.cfg, old(s.Model()), player, 4, params)
  {
    var pos := s.FindGeneralPositionById(params[0]);
    if pos.None? {
      return false;
    }
    var d := if params[1] == 1 || params[1] == 2 then Pos(params[2], params[3]) else Pos(-1, -1);
    var skill := if params[1] - 1 in s.cfg.skillCode then s.cfg.skillCode[params[1] - 1] else Weaken;
    ok := SkillActivate(s, player, pos.value, d, skill);
  }

  /** Command 6: the weapon the first parameter names (lines 46-55). */
  method UseSuperWeapon(s: GameState, player: int, params: seq<int>) returns (ok: bool)
    requires s.Valid() && CommandSafe(s.cfg, s.Model(), player, 6, params)
    modifies s
    ensures s.Valid() && Outcome(ok, s.Model()) == CommandOutcome(s.cfg, old(s.Model()), player, 6, params)
  {
    if params[0] == 1 {
      ok := Bomb(s, Pos(params[1], params[2]), player);
    } else if params[0] == 2 {
      ok := Strengthen(s, Pos(params[1], params[2]), player);
    } else if params[0] == 3 {
      ok := Tp(s, Pos(params[3], params[4]), Pos(params[1], params[2]), player);
    } else if params[0] == 4 {
      ok := Timestop(s, Pos(params[1], params[2]), player);
    } else {
      ok := false;
    }
  }
}
