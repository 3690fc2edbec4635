# Ant-Game logic, modelled in Dafny

This project models the rules engine of a two-player, turn-based strategy game played on a
grid of cells. Each cell has a terrain (plain, mountain or bog), an owner (player 0, player 1
or neutral, -1), an army and possibly one general. A general is a Main general, a Sub general
or a Farmer. A player's turn is a list of commands, and each command is carried out by one rule:

- army moves;
- general moves and upgrades;
- general skills (surprise attack, rout, and three timed auras);
- technologies;
- four super weapons (nuclear bomb, attack enhancement, teleport, time stop);
- calling up a new Sub general;
- the dispatcher that maps command codes onto rules.

Between turns `update_round` produces armies and coin, decays bogs, replays bomb damage,
counts down every timer and drops expired weapons. `is_game_over` decides the winner.

Every Python module of `logic/` in the core has a Dafny module of the same role:

| Dafny module | file | Python source |
|---|---|---|
| `GameData` | `gamedata.dfy` | the types the rules share: cells, generals, weapons, the `Config` of the constants, id lookup, the stun rule |
| `Gamestate` | `gamestate.dfy` | `logic/gamestate.py` |
| `Computation` | `computation.dfy` | `logic/computation.py` |
| `Movement` | `movement.dfy` | `logic/movement.py` |
| `GeneralSkills` | `general_skills.dfy` | `logic/general_skills.py` |
| `SuperWeapons` | `super_weapons.dfy` | `logic/super_weapons.py` |
| `Upgrade` | `upgrade.dfy` | `logic/upgrade.py` |
| `CallGenerals` | `call_generals.dfy` | `logic/call_generals.py` |
| `GameRules` | `game_rules.dfy` | `logic/game_rules.py` |
| `RoundReplay` | `round_replay.dfy` | `logic/generate_round_replay.py` |
| `Ai2Logic` | `ai2logic.dfy` | `logic/ai2logic.py` |

`logic/gamedata.py` and `logic/constant.py` are not part of this model. Their types and
constants are reconstructed from how the rules use them. The constants are the fields of
`GameData.Config`, so every theorem holds for any price list and any board size.

**How the state is modelled.** The mutable `GameState` dataclass is a Dafny class,
`Gamestate.GameState`, with the same fields:

- the board is a sequence of rows of `Cell` values;
- a cell refers to its general by id;
- the general objects are the `generals` list.

The source shares one general object between a cell and the list. The model expresses this
sharing through the invariant `WorldOk`: every referenced id is listed, the listed general
stands on that cell, and ids are unique.

`GameState.Model()` is the state as a `World` value. Each rule `x` has two parts:

- a specification function `XOutcome(cfg, w, ...)`, which returns the answer and the world
  afterwards;
- a method on the state whose postcondition is
  `Outcome(ok, s.Model()) == XOutcome(s.cfg, old(s.Model()), ...)` and `s.Valid()`.

The loops of the source are kept as loops with invariants:

- the board pass, bomb damage and counters of `update_round`;
- the aura windows of `compute_attack` and `compute_defence`;
- the breadth-first search of `check_general_movement`;
- the bomb area;
- the scans of `is_game_over`.

The properties of each rule are lemmas about its specification function. Three kinds recur:

- `XChecks`: exactly when the rule succeeds, that a refusal changes nothing, and what a
  success changes;
- `XKeepsInvariant`: the state stays well formed;
- `XEffect`: the effect cell by cell.

Inputs and effects outside the engine are left out: replay-file writes, randomness and the
AI processes. `Config` stands in for `logic/constant.py`.

## Model

| member | source | states |
|---|---|---|
| GameData.GeneralIndex | logic/gamestate.py:61-65 | the index found is the first general with the id, or -1 when no general has it |
| GameData.StunnedAppend | logic/upgrade.py:12-27 | a longer weapon list stuns exactly where the old list or the new weapon stuns |
| Gamestate.GameState.constructor | logic/gamestate.py:28-59 | a fresh state has the dataclass defaults: round 1, no weapons, weapons locked with cooldown -1, tech [2,0,0,0], two army moves |
| Gamestate.GameState.FindGeneralPositionById | logic/gamestate.py:61-65 | returns the position of the first general with the id, or None exactly when no general has it |
| Gamestate.PositionOfPlaced | logic/gamestate.py:61-65 | a position found by id is on the board and its cell holds that general |
| Gamestate.GenAtHere | logic/gamestate.py:28-59 | under the invariant a cell's general stands on that cell and is admissible |
| Gamestate.WorldOkFrame | logic/gamestate.py:28-59 | the invariant survives any change that keeps shape, owners, general references, ids and positions |
| Gamestate.UpdateRound | logic/gamestate.py:121-214 | the state after the call is the next round computed from the old one, and stays well formed |
| Gamestate.NextRound | logic/gamestate.py:121-214 | computes, without changing the state, the world the specification of the next round gives |
| Gamestate.BoardPass | logic/gamestate.py:123-164 | the board loop visits every cell once in row order, resetting mobility and producing |
| Gamestate.BoardRow | logic/gamestate.py:123-164 | one turn of the row loop extends the visited part of the board by a row |
| Gamestate.RowPass | logic/gamestate.py:124-164 | the column loop over one row visits each of its cells in order |
| Gamestate.VisitCell | logic/gamestate.py:125-164 | one cell: mobility reset, production or Farmer income, tenth-round bonus and bog decay |
| Gamestate.ProduceCell | logic/gamestate.py:130-164 | production into the cell or the Farmer owner's coin, the tenth-round bonus and bog decay |
| Gamestate.BombDamage | logic/gamestate.py:166-187 | every nuclear bomb still active damages its area again |
| Gamestate.BlastArea | logic/gamestate.py:168-187 | one bomb's damage applied to each board cell of its clamped area |
| Gamestate.BlastRow | logic/gamestate.py:168-187 | one row of one bomb's damage |
| Gamestate.BlastCell | logic/gamestate.py:175-187 | a cell holding army loses up to three units, and an emptied cell without a general goes neutral |
| Gamestate.AgeWeapons | logic/gamestate.py:193-194 | every active weapon loses one round |
| Gamestate.CountDownSkills | logic/gamestate.py:196-198 | every skill cooldown and duration counts down towards zero |
| Gamestate.UpdateRoundKeepsInvariant | logic/gamestate.py:121-214 | the new round is well formed whenever the old one was |
| Gamestate.UpdateRoundOwnership | logic/gamestate.py:123-187 | a neutral cell gains no owner, an owned cell loses its owner only without a general, and generals stay put |
| Gamestate.UpdateRoundProduction | logic/gamestate.py:130-150 | away from bombs and bogs a cell gains its Main or owned Sub general's production plus one every tenth round |
| Gamestate.UpdateRoundBogDecay | logic/gamestate.py:151-164 | an owned bog with army and no general loses a unit unless immune, and is neutral when emptied |
| Gamestate.UpdateRoundCoins | logic/gamestate.py:141-145 | coins never drop between rounds |
| Gamestate.UpdateRoundWeapons | logic/gamestate.py:189-212 | the weapons left are exactly those with more than one round, each with one round less |
| Gamestate.AgedLive | logic/gamestate.py:193-212 | aging then filtering keeps exactly the weapons that had more than one round left |
| Gamestate.LiveMembers | logic/gamestate.py:210-212 | the filter keeps exactly the weapons with rounds left and never lengthens the list |
| Gamestate.BlastsEffect | logic/gamestate.py:166-187 | bomb damage keeps terrain and generals, never raises an army, and neutralises only cells without a general |
| Gamestate.BlastsOutside | logic/gamestate.py:166-187 | a cell farther than one step from every bomb takes no damage |
| Gamestate.UpdateRoundRestsGenerals | logic/gamestate.py:126-198 | every general starts the round with full mobility and its counters counted down, not below zero |
| Gamestate.TickGeneralsKeep | logic/gamestate.py:196-198 | counting down keeps every general's identity, place and admissibility |
| Gamestate.RestedProducesAlike | logic/gamestate.py:126-145 | resetting mobility does not change what a cell produces |
| Gamestate.RoundBoardOk | logic/gamestate.py:123-187 | after the board and bomb passes the board is shaped, owners in range and generals in place |
| Gamestate.RoundWeaponsOk | logic/gamestate.py:193-212 | aging keeps every surviving weapon on the board |
| Computation.ComputeAttack | logic/computation.py:6-38 | the attack factor is the product of the aura of friendly command and enemy weakening generals within two cells, tripled under an enhancement |
| Computation.ComputeDefence | logic/computation.py:41-76 | the defence factor is the aura of defence buffs and enemy weakening, times the general's level, tripled under an enhancement |
| Computation.WindowAura | logic/computation.py:11-27 | the nested window loops give the aura of the counts of buffing and weakening generals in the window |
| Computation.RowAura | logic/computation.py:12-27 | one row of the window multiplies in each slot's factor |
| Computation.VisitSlot | logic/computation.py:13-27 | one neighbour contributes 1.5, 0.75 or nothing as its tests say |
| Computation.SlotTests | logic/computation.py:14-27 | the two tests on a neighbour: a buffing friend, a weakening enemy |
| Computation.FindEnhance | logic/computation.py:29-37 | the weapon loop finds an enhancement covering the cell exactly when one exists |
| Computation.LevelOf | logic/computation.py:64-65 | the defence level of the cell's general, 1 without one |
| Computation.DefenceProduct | logic/computation.py:64-75 | the closing multiplications give the defence the specification defines |
| Computation.DefenceIs | logic/computation.py:41-76 | the three loop results combined in the source's order give the defence |
| Computation.WindowCounts | logic/computation.py:11-27 | over the window the counts are the numbers of buffing and weakening generals |
| Computation.WindowIsNear | logic/computation.py:11-27 | the window is exactly the cells within Chebyshev distance 2 |
| Computation.AuraIsPowers | logic/computation.py:11-27 | the product is 1.5 to the buffs times 0.75 to the weakenings |
| Computation.AuraWeaken | logic/computation.py:11-27 | a weakening factor may be taken in at any point of the product |
| Computation.FactorsPositive | logic/computation.py:6-76 | attack and defence are positive, so the combat divisions are defined |
| Computation.WorkedValues | tests/logic_sdk/test_computation.py:5-38 | the configurations of test_computation.py give attack 1.5*0.75*3 and defence 1.5*0.75*2*3 |
| Movement.NewPosIsNeighbour | logic/movement.py:17-34 | the new position is an on-board neighbour one step away, or the off-board marker exactly when the neighbour is off the board |
| Movement.NewPosCoversNeighbours | logic/movement.py:17-34 | every on-board neighbour is reached by exactly one direction |
| Movement.Ceil | logic/movement.py:91-112 | the least integer not below the rational |
| Movement.FightBounds | logic/movement.py:91-112 | the winner keeps between 1 and the units it had; a draw means equal strengths |
| Movement.CaptureBounds | logic/movement.py:95-104 | a capture keeps between 1 and all of the attackers |
| Movement.HoldBounds | logic/movement.py:105-112 | a hold keeps between 1 and all of the defenders |
| Movement.FightWorked | tests/logic_sdk/test_skill_rounding.py:7-31 | the rounding of the tests: 4 attackers at 1.5 against 1 keep 4, 3 plain attackers take an empty cell with 3 |
| Movement.Flip | logic/movement.py:97-104 | the captured general changes side and nothing else about the list |
| Movement.Clash | logic/movement.py:91-112 | the fight with the computed factors leaves the winner between 1 and what it had |
| Movement.ArmyMoveChecks | logic/movement.py:45-85 | the move succeeds exactly when no rejection applies, and a refusal changes nothing |
| Movement.ArriveOrigin | logic/movement.py:87-113 | the origin keeps its owner and at least one unit, and one army move is used |
| Movement.ArriveElsewhere | logic/movement.py:87-113 | cells other than origin and destination are untouched |
| Movement.ArriveFriendly | logic/movement.py:87-89 | onto a friendly cell the units are added and the two cells keep their total |
| Movement.ArriveHostile | logic/movement.py:91-112 | a capture hands over the cell and any general on it, a hold leaves the defender the survivors, a draw leaves the cell empty |
| Movement.FlipEffect | logic/movement.py:97-104 | the captured general is the one on the cell, now the mover's; no other general changes |
| Movement.ArriveKeepsInvariant | logic/movement.py:37-121 | an army move keeps the state well formed |
| Movement.IsStunned | logic/movement.py:66-85 | the scan finds a stun exactly when the stun rule holds |
| Movement.ResolveBattle | logic/movement.py:91-112 | the battle computed with both factors read before any write |
| Movement.Arrival | logic/movement.py:87-112 | the destination and general writes the specification describes |
| Movement.Land | logic/movement.py:87-113 | destination, origin, captured general and move counter as specified |
| Movement.ArmyMoveCheck | logic/movement.py:45-85 | the rejections in their order, and the units that move |
| Movement.ArmyMove | logic/movement.py:37-121 | the answer and new state are those the specification of the army move gives |
| Movement.RelocatedEffect | logic/movement.py:124-143 | the moved general is the one listed at the origin; only the two general references change |
| Movement.RelocatedKeepsInvariant | logic/movement.py:124-143 | moving a general onto a cell without one keeps the invariant |
| Movement.GeneralMoveEffect | logic/movement.py:124-143 | the general arrives whole at the destination, the origin is empty, its mobility drops by the distance |
| Movement.GeneralMoveKeepsInvariant | logic/movement.py:124-143 | a general move keeps the state well formed |
| Movement.Relocate | logic/movement.py:131-142 | the state after relocation is the specified one |
| Movement.GeneralMove | logic/movement.py:124-143 | the state after the move is the specified one |
| Movement.ReachMonotone | logic/movement.py:180-220 | more steps reach at least as far |
| Movement.ReachWithinManhattan | logic/movement.py:180-220 | a cell reached in k steps is within Manhattan distance k |
| Movement.ReachStep | logic/movement.py:196-213 | one passable step past a cell within k steps is within k + 1 |
| Movement.Explored | logic/movement.py:180-220 | when the search stops, every cell within m steps was expanded with at most m steps |
| Movement.Search | logic/movement.py:180-220 | found exactly when the destination is within the rest moves along passable cells |
| Movement.Visit | logic/movement.py:199-212 | one neighbour is skipped or queued as the tests of the source say, keeping the search invariant |
| Movement.Expand | logic/movement.py:196-213 | the four neighbours in order keep the search invariant |
| Movement.VisitAround | logic/movement.py:196-213 | one direction of the neighbour loop keeps the search invariant |
| Movement.CheckGeneralMovement | logic/movement.py:146-220 | allowed exactly when every check passes and the destination is within the general's rest moves |
| Movement.CheckedMoveAffordable | logic/movement.py:146-220 | an allowed move goes to another cell of the player and leaves non-negative mobility |
| GeneralSkills.BreakthroughEffect | logic/general_skills.py:66-74 | the rout removes min(army, 20) units, and the cell turns neutral only when emptied without a general |
| GeneralSkills.RushedEffect | logic/general_skills.py:12-38 | one unit stays behind; the destination is the player's with the units added or the survivors |
| GeneralSkills.RushWon | logic/general_skills.py:41-63 | against an enemy cell an accepted rush wins with between 1 and all units sent |
| GeneralSkills.CheckRushParam | logic/general_skills.py:41-63 | the rush is accepted exactly when the specification of the check says so |
| GeneralSkills.SkillChecks | logic/general_skills.py:77-221 | the skill succeeds exactly when it is allowed; a refusal changes nothing |
| GeneralSkills.SkillKeepsInvariant | logic/general_skills.py:77-221 | every skill keeps the state well formed |
| GeneralSkills.SkillWorldOk | logic/general_skills.py:77-221 | an allowed skill leaves a well-formed state |
| GeneralSkills.SurpriseBoard | logic/general_skills.py:123-149 | the surprise leaves one unit and no general on the origin and the destination the player's with the general |
| GeneralSkills.SurpriseRest | logic/general_skills.py:129-136 | besides the board only the general moves, skill 0 cools down for 5 rounds, and the price is paid |
| GeneralSkills.SurpriseEffect | logic/general_skills.py:123-149 | an allowed surprise is the rush with the survivors of a won fight, paid from coin that covered it |
| GeneralSkills.RoutEffect | logic/general_skills.py:150-167 | the destination loses up to 20 units, skill 1 cools down for 10 rounds and the price is paid |
| GeneralSkills.BuffEffect | logic/general_skills.py:168-221 | a timed aura changes no cell; its slot cools down and its duration is set to 10 |
| GeneralSkills.SkillWorldGeneral | logic/general_skills.py:77-221 | the general after a skill is the same entry with the skill's slot no longer at zero |
| GeneralSkills.SkillPays | logic/general_skills.py:123-221 | an allowed skill is paid from coin that covered it |
| GeneralSkills.UnreadTargetRefused | logic/general_skills.py:85-151 | a surprise attack or rout refused before its target is read answers `[-1, -1]` with a refusal that changes nothing |
| GeneralSkills.SkillCoolsDown | logic/general_skills.py:123-221 | a success is paid, leaves the other coin alone and puts the skill on cooldown |
| GeneralSkills.SkillGateCheck | logic/general_skills.py:85-122 | the shared checks give exactly the gate of the specification |
| GeneralSkills.RushCells | logic/general_skills.py:12-38 | the two cell writes of the rush, in their order |
| GeneralSkills.RushFight | logic/general_skills.py:12-38 | against an enemy cell, the fight the rush has |
| GeneralSkills.ArmyRush | logic/general_skills.py:12-38 | the board after the rush is the specified one |
| GeneralSkills.HandleBreakthrough | logic/general_skills.py:66-74 | the state after the rout's damage is the specified one |
| GeneralSkills.SurpriseAttackOn | logic/general_skills.py:129-136 | the state after the allowed surprise is the specified one |
| GeneralSkills.SurpriseIs | logic/general_skills.py:129-136 | the surprise is the rush, then the relocation, then the price |
| GeneralSkills.SurpriseMove | logic/general_skills.py:132-135 | the general moves after the rush and cools down; the coin is untouched |
| GeneralSkills.SurprisePay | logic/general_skills.py:136 | the price is paid once the general has moved |
| GeneralSkills.Charge | logic/general_skills.py:152-155 | the general replaced by its updated self and the price paid, nothing else |
| GeneralSkills.RoutOn | logic/general_skills.py:152-155 | the state after the allowed rout is the specified one |
| GeneralSkills.BuffOn | logic/general_skills.py:169-209 | the state after an allowed timed aura is the specified one |
| GeneralSkills.SkillActivate | logic/general_skills.py:77-221 | the answer and new state are those of the skill's specification |
| GeneralSkills.SurpriseKeepsInvariant | logic/general_skills.py:123-149 | a surprise keeps the state well formed |
| GeneralSkills.RoutKeepsInvariant | logic/general_skills.py:150-167 | a rout keeps the state well formed |
| GeneralSkills.BuffKeepsInvariant | logic/general_skills.py:168-221 | a timed aura keeps the state well formed |
| GeneralSkills.ChargedKeepsInvariant | logic/general_skills.py:150-221 | a general whose counters change, and a payment, keep the state well formed |
| SuperWeapons.KeepMembers | logic/super_weapons.py:45-47 | the kept list holds exactly the listed generals that survive |
| SuperWeapons.KeepUnique | logic/super_weapons.py:45-47 | removing generals keeps ids unique |
| SuperWeapons.KeepAll | logic/super_weapons.py:45-47 | when every general survives the list is unchanged |
| SuperWeapons.KeepSplit | logic/super_weapons.py:45-47 | removing the one general on a cell cuts it out of the list |
| SuperWeapons.RemoveGeneralsAt | logic/super_weapons.py:45-47 | the loop removes exactly the generals on the cell, in order |
| SuperWeapons.BlastedKeepsInvariant | logic/super_weapons.py:31-50 | one bombed cell keeps the state well formed |
| SuperWeapons.HandleBombCell | logic/super_weapons.py:31-50 | the state after one bombed cell is the specified one |
| SuperWeapons.AreaIs | logic/super_weapons.py:6-24 | the clamped set is exactly the board cells within Chebyshev distance 1 |
| SuperWeapons.BombStep | logic/super_weapons.py:25-27 | bombing one more cell gives the state where the larger area is bombed, whatever the order |
| SuperWeapons.BombardedOk | logic/super_weapons.py:25-27 | bombing any set of board cells keeps the state well formed |
| SuperWeapons.BombBoardEffect | logic/super_weapons.py:31-48 | the board part of the bomb's effect |
| SuperWeapons.BombGeneralsEffect | logic/super_weapons.py:45-47 | exactly the non-main generals around the target are removed |
| SuperWeapons.BombEffect | logic/super_weapons.py:6-50 | cells around the target are halved under a Main general and emptied otherwise; other cells and generals are kept |
| SuperWeapons.HandleBomb | logic/super_weapons.py:6-28 | the state after the bomb loop is the bombed area of the old state |
| SuperWeapons.BombCells | logic/super_weapons.py:25-27 | every cell of the area is bombed once |
| SuperWeapons.BombChecks | logic/super_weapons.py:53-80 | the bomb succeeds exactly when ready and on the board, refusal changes nothing, and it fires a 5-round bomb at the target |
| SuperWeapons.StrengthenChecks | logic/super_weapons.py:83-107 | strengthen succeeds exactly when ready and on the board and then only fires an enhancement |
| SuperWeapons.TimestopChecks | logic/super_weapons.py:160-183 | time stop succeeds exactly when ready and on the board and then only fires a 10-round stop |
| SuperWeapons.TpChecks | logic/super_weapons.py:110-157 | teleport succeeds exactly when ready, in bounds, from the player's cell with two units onto a cell without a general |
| SuperWeapons.TpEffect | logic/super_weapons.py:133-142 | the destination gets the start's units but one and the player; the start keeps one; no other cell changes |
| SuperWeapons.TeleportedFrame | logic/super_weapons.py:133-142 | teleporting keeps the board's shape and owners and moves no general |
| SuperWeapons.ArmedKeepsInvariant | logic/super_weapons.py:64-67 | firing a weapon aimed at the board keeps the state well formed |
| SuperWeapons.BombKeepsInvariant | logic/super_weapons.py:53-80 | the bomb keeps the state well formed |
| SuperWeapons.TpKeepsInvariant | logic/super_weapons.py:110-157 | teleport keeps the state well formed |
| SuperWeapons.Arm | logic/super_weapons.py:64-67 | the weapon joins the active list and the cooldown restarts |
| SuperWeapons.Bomb | logic/super_weapons.py:53-80 | the answer and new state are the bomb's specified outcome |
| SuperWeapons.Strengthen | logic/super_weapons.py:83-107 | the answer and new state are strengthen's specified outcome |
| SuperWeapons.Tp | logic/super_weapons.py:110-157 | the answer and new state are teleport's specified outcome |
| SuperWeapons.Timestop | logic/super_weapons.py:160-183 | the answer and new state are time stop's specified outcome |
| Upgrade.TiersRise | logic/upgrade.py:28-247 | every table step raises the level at a price, and a Main general pays half a Sub general's price |
| Upgrade.ProductionLadder | logic/upgrade.py:28-84 | production can be raised three times for a Farmer and twice otherwise |
| Upgrade.ProductionUpChecks | logic/upgrade.py:7-93 | succeeds exactly when the gate passes, the table has a step and the coin covers it; only the holder's production and the coin change |
| Upgrade.DefenceUpChecks | logic/upgrade.py:96-182 | the same for defence |
| Upgrade.MovementUpChecks | logic/upgrade.py:185-256 | the same for mobility; a Farmer is always refused, and unused moves are kept |
| Upgrade.PromotedCharged | logic/upgrade.py:7-256 | a payment for an upgraded holder is a promotion that changes nothing else |
| Upgrade.PromotionKeepsInvariant | logic/upgrade.py:7-256 | an upgrade writing positive levels keeps the state well formed |
| Upgrade.ProductionUpKeepsInvariant | logic/upgrade.py:7-93 | production up keeps the state well formed |
| Upgrade.DefenceUpKeepsInvariant | logic/upgrade.py:96-182 | defence up keeps the state well formed |
| Upgrade.MovementUpKeepsInvariant | logic/upgrade.py:185-256 | movement up keeps the state well formed |
| Upgrade.TechChecks | logic/upgrade.py:269-345 | succeeds exactly for a track with a step the coin covers; only that level, the coin and the track's side effect change |
| Upgrade.TechKeepsInvariant | logic/upgrade.py:269-345 | a technology touches nothing the invariant reads |
| Upgrade.UpgradeGateCheck | logic/upgrade.py:8-27 | the shared checks give exactly the gate of the specification |
| Upgrade.ProductionUp | logic/upgrade.py:7-93 | the answer and new state are the specified outcome |
| Upgrade.DefenceUp | logic/upgrade.py:96-182 | the answer and new state are the specified outcome |
| Upgrade.MovementUp | logic/upgrade.py:185-256 | the answer and new state are the specified outcome |
| Upgrade.TechUpdate | logic/upgrade.py:269-345 | the answer and new state are the specified outcome |
| CallGenerals.IndexAfterAppend | logic/call_generals.py:28-30 | appending a general with a new id keeps every earlier lookup and finds the new one |
| CallGenerals.CallChecks | logic/call_generals.py:5-37 | succeeds exactly with 50 coin, the player's empty unstunned cell; a new Sub general with the next id is placed and paid for |
| CallGenerals.IdsBelow | logic/call_generals.py:28-31 | no listed general has the next id |
| CallGenerals.AppendUnique | logic/call_generals.py:28-30 | a general with a new id keeps ids unique |
| CallGenerals.AppendPlaced | logic/call_generals.py:28-30 | the new general on an empty cell keeps every general on its cell |
| CallGenerals.AppendLinked | logic/call_generals.py:28-30 | every cell's general is still found where it stands |
| CallGenerals.CallKeepsInvariant | logic/call_generals.py:5-37 | calling a general keeps the state well formed |
| CallGenerals.CallGeneralsOn | logic/call_generals.py:5-37 | the answer and new state are the specified outcome |
| GameRules.WinnerCases | logic/game_rules.py:6-46 | the verdict is -1, 0 or 1; -1 exactly while both or neither Main generals live and round <= 500 |
| GameRules.CellsBounded | logic/game_rules.py:28-38 | the two players' cells never exceed the board |
| GameRules.MirrorCounts | logic/game_rules.py:28-38 | exchanging players exchanges army and cell counts |
| GameRules.MirrorAlive | logic/game_rules.py:16-19 | exchanging players exchanges Main general survival |
| GameRules.MirrorWinner | logic/game_rules.py:6-46 | exchanging players exchanges the verdict, except a full tie that player 0 wins both ways |
| GameRules.MainScan | logic/game_rules.py:16-19 | the scan reports for each player whether a Main general lives |
| GameRules.RowScan | logic/game_rules.py:31-38 | one row's army and cells per player |
| GameRules.BoardScan | logic/game_rules.py:28-38 | the board's army and cells per player |
| GameRules.IsGameOver | logic/game_rules.py:6-46 | the answer is the verdict of the specification |
| GameRules.TiebreakNow | logic/game_rules.py:49-56 | the verdict as if past round 500, always 0 or 1, and the state is unchanged |
| RoundReplay.ReplayContents | logic/generate_round_replay.py:4-61 | the snapshot copies round, action, cooldowns and coins, and lists each cell, general and weapon with its fields |
| RoundReplay.UpgradesReportOneTier | logic/generate_round_replay.py:32-59 | every allowed upgrade raises the reported level by exactly one |
| RoundReplay.GeneralEntryFor | logic/generate_round_replay.py:36-59 | the entry built and then patched for a Farmer is the specified entry |
| RoundReplay.GetSingleRoundReplay | logic/generate_round_replay.py:4-61 | the snapshot is the specified one and the state is unchanged |
| Ai2Logic.SkillFor | logic/ai2logic.py:32-42 | the skill a known code names, the weakening for any other |
| Ai2Logic.UnknownCommandsRefused | logic/ai2logic.py:9-59 | unknown command, id, upgrade or weapon codes return false on the unchanged state |
| Ai2Logic.RefusedCommandChangesNothing | logic/ai2logic.py:9-59 | any refused command leaves the state as it was |
| Ai2Logic.ExecuteSingleCommand | logic/ai2logic.py:9-59 | the answer and new state are those of the dispatched rule |
| Ai2Logic.MoveGeneralById | logic/ai2logic.py:17-22 | command 2: look up, check, and move the general |
| Ai2Logic.UpgradeById | logic/ai2logic.py:23-31 | command 3: look up the general and raise the named attribute |
| Ai2Logic.SkillById | logic/ai2logic.py:32-42 | command 4: look up the general and activate the skill |
| Ai2Logic.UseSuperWeapon | logic/ai2logic.py:46-55 | command 6: the weapon the first parameter names |

## Left out

- Replay output: every file write of a snapshot, the `replay` dictionaries threaded through the bomb, and the `Alive` flag `handle_bomb_cell` edits in them are not modelled. `get_single_round_replay` is modelled as a value.
- `trans_state_to_init_json` (logic/gamestate.py:67-75): serialisation only.
- `init_generals` (logic/gamestate.py:78-118): random placement; the constructor takes the board, generals and coins as parameters.
- Real numbers: factors are exact rationals. Python's floating-point rounding of `1.5 * 0.75 * ...` and of the divisions in combat is not modelled.
- Constants of `logic/constant.py` are the fields of `Config`, not fixed numbers; the enum codes for directions and skills are maps in `Config`.
- Python crashes: where the source would raise (an out-of-range index, too few parameters, a player other than 0 or 1 indexing a list), the model requires the input that avoids it. Python's wrap-around of negative indices is therefore not modelled.
- Upgrade.ProductionUp, Upgrade.DefenceUp, Upgrade.MovementUp, Upgrade.TechUpdate, CallGenerals.CallGeneralsOn: require a player 0 or 1 and an in-bounds position, where the source would index out of range or wrap.
- CallGenerals.CallGeneralsOn: through the dispatcher the position is the whole parameter list, so it must have exactly two entries.
- Movement.GeneralMove: requires legal parameters, as the source's own comment demands: a different destination without a general and a general at the origin.
- Movement.CheckGeneralMovement: requires the destination on the board; the source would index outside it.
- GeneralSkills.SkillActivate: the fight of the surprise attack is a parameter of the specification; the method computes it with `compute_attack` and `compute_defence`.
- GeneralSkills.RoutOn: writes the cooldown and the price before the damage. The fields are disjoint, so the state is the same as in the source's order.
- GeneralSkills.SurpriseAttackOn: orders its writes as rush, relocation, payment. The source interleaves them, but they touch disjoint fields.
- SuperWeapons.RemoveGeneralsAt: requires at most one general on the cell. The source's removal while iterating can skip a second one, which the invariant rules out.
- SuperWeapons.HandleBomb: Python iterates the set in an order the model leaves open; the result is proved independent of the order.
- SuperWeapons.Tp: the case where start and destination are the same cell is modelled as the source writes it: the second write wins.
- Upgrade.TechUpdate: a track outside 0..3 makes the source return `None`; the model returns false without a change.
- Gamestate.UpdateRound: the comment of the tenth-round bonus in the source names another period than the code's `round % 10`; the code is followed.
- Gamestate.UpdateRound: the `changed` set built for the replay, and the `i * row + j` index it uses, feed only the replay and are not modelled.
- Concurrency, the AI processes, `runner.py`, `main.py` and the SDK are outside the core.
