/**
 * The combat multipliers of logic/computation.py. An army's attack and a
 * cell's defence start at 1 and are multiplied by the timed skills of the
 * generals in the 5x5 window around the cell, by the defence level of the
 * general on the cell (defence only) and by an attack-enhance weapon nearby.
 * The factors 1.5, 0.75 and 3 are exact rationals here.
 */
module Computation {
  import opened GameData
  import opened Gamestate

  /** Slot `t` (0..24) of the 5x5 window around `p`, in the order the two loops visit it. */
  function Slot(p: Pos, t: int): Pos
  {
    Pos(p.x + t / 5 - 2, p.y + t % 5 - 2)
  }

  /** The cells within Chebyshev distance 2 of `p`, before clipping to the board. */
  function Window(p: Pos): set<Pos>
  {
    set t | 0 <= t < 25 :: Slot(p, t)
  }

  function Owner(w: World, p: Pos): int
    requires 0 <= p.x < |w.board| && 0 <= p.y < |w.board[p.x]|
  {
    w.board[p.x][p.y].owner
  }

  /**
   * The general on `q` lends its friendly buff to the army on `p`: `q` is on
   * the board, has a general, has the same owner as `p`, and the buff timer
   * `buff` (0 for the command skill, 1 for the defence skill) is running.
   */
  predicate Buffs(cfg: Config, w: World, p: Pos, q: Pos, buff: int)
    requires Shaped(cfg, w.board) && InBounds(cfg, p) && 0 <= buff <= 1
  {
    InBounds(cfg, q) && GenAt(w.board, w.generals, q).Some? && Owner(w, q) == Owner(w, p) &&
    GenAt(w.board, w.generals, q).value.skillDuration[buff] > 0
  }

  /** The general on `q` weakens the army on `p`: another owner (neutral included) and a running weaken timer. */
  predicate Weakens(cfg: Config, w: World, p: Pos, q: Pos)
    requires Shaped(cfg, w.board) && InBounds(cfg, p)
  {
    InBounds(cfg, q) && GenAt(w.board, w.generals, q).Some? && Owner(w, q) != Owner(w, p) &&
    GenAt(w.board, w.generals, q).value.skillDuration[2] > 0
  }

  /** An attack-enhance weapon of the cell's owner anchored within Chebyshev distance 1 of the cell. */
  predicate EnhancesAt(wp: Weapon, owner: int, p: Pos)
  {
    wp.kind == AttackEnhance && p.x - 1 <= wp.pos.x <= p.x + 1 && p.y - 1 <= wp.pos.y <= p.y + 1 && wp.player == owner
  }

  predicate Enhanced(w: World, p: Pos)
    requires 0 <= p.x < |w.board| && 0 <= p.y < |w.board[p.x]|
  {
    exists k :: 0 <= k < |w.weapons| && EnhancesAt(w.weapons[k], Owner(w, p), p)
  }

  /** The weapon loop's effect on a factor: tripled when an enhance weapon covers the cell. */
  function Boost(w: World, p: Pos, x: real): (r: real)
    requires 0 <= p.x < |w.board| && 0 <= p.y < |w.board[p.x]|
    ensures x > 0.0 ==> r > 0.0
  {
    if Enhanced(w, p) then 3.0 * x else x
  }

  /** The generals in the window that lend the friendly buff `buff` to `p`. */
  ghost function Buffers(cfg: Config, w: World, p: Pos, buff: int): set<Pos>
    requires Shaped(cfg, w.board) && InBounds(cfg, p) && 0 <= buff <= 1
  {
    set q | q in Window(p) && Buffs(cfg, w, p, q, buff)
  }

  /** The generals in the window that weaken `p`. */
  ghost function Weakeners(cfg: Config, w: World, p: Pos): set<Pos>
    requires Shaped(cfg, w.board) && InBounds(cfg, p)
  {
    set q | q in Window(p) && Weakens(cfg, w, p, q)
  }

  /**
   * `compute_attack` as a value: 1.5 for every general within distance 2 (the
   * cell's own included) that buffs it with the command skill, 0.75 for every
   * one that weakens it, and 3 once when an attack-enhance weapon covers it.
   */
  ghost function Attack(cfg: Config, w: World, p: Pos): real
    requires Shaped(cfg, w.board) && InBounds(cfg, p)
  {
    Boost(w, p, Aura(|Buffers(cfg, w, p, 0)|, |Weakeners(cfg, w, p)|))
  }

  /** The defence level of the general on `p`, or 1 when the cell has none. */
  function LevelAt(w: World, p: Pos): real
    requires 0 <= p.x < |w.board| && 0 <= p.y < |w.board[p.x]|
  {
    if GenAt(w.board, w.generals, p).Some? then GenAt(w.board, w.generals, p).value.defence else 1.0
  }

  /** The window's factor times the level, then tripled under an enhance weapon, in the source's order. */
  function Combine(aura: real, level: real, enhanced: bool): real
  {
    if enhanced then (aura * level) * 3.0 else aura * level
  }

  /** `compute_defence` as a value. */
  ghost function Defence(cfg: Config, w: World, p: Pos): real
    requires Shaped(cfg, w.board) && InBounds(cfg, p)
  {
    Combine(Aura(|Buffers(cfg, w, p, 1)|, |Weakeners(cfg, w, p)|), LevelAt(w, p), Enhanced(w, p))
  }

  /** How many of the first `n` slots hold a buffing general. */
  function BuffCount(cfg: Config, w: World, p: Pos, buff: int, n: int): nat
    requires Shaped(cfg, w.board) && InBounds(cfg, p) && 0 <= buff <= 1 && 0 <= n <= 25
  {
    if n == 0 then 0 else BuffCount(cfg, w, p, buff, n - 1) + (if Buffs(cfg, w, p, Slot(p, n - 1), buff) then 1 else 0)
  }

  /** How many of the first `n` slots hold a weakening general. */
  function WeakCount(cfg: Config, w: World, p: Pos, n: int): nat
    requires Shaped(cfg, w.board) && InBounds(cfg, p) && 0 <= n <= 25
  {
    if n == 0 then 0 else WeakCount(cfg, w, p, n - 1) + (if Weakens(cfg, w, p, Slot(p, n - 1)) then 1 else 0)
  }

  /**
   * The factor of `a` buffing and `d` weakening generals, 1.5^a * 0.75^d
   * (lemma AuraIsPowers), built one factor at a time as the loops do. The
   * two tests of the source compare the owners with `==` and `!=`, so each
   * cell of the window gives at most one factor.
   */
  function Aura(a: nat, d: nat): (r: real)
    ensures r > 0.0
  {
    if a > 0 then 1.5 * Aura(a - 1, d)
    else if d > 0 then 0.75 * Aura(0, d - 1)
    else 1.0
  }

  function Pow(b: real, n: nat): real
  {
    if n == 0 then 1.0 else b * Pow(b, n - 1)
  }

  // ---------------------------------------------------------------------
  // Properties

  /** The window is exactly the cells within Chebyshev distance 2, the cell itself included. */
  lemma WindowIsNear(p: Pos, q: Pos)
    ensures q in Window(p) <==> Near(p, q, 2)
  {
    if Near(p, q, 2) {
      var t := (q.x - p.x + 2) * 5 + (q.y - p.y + 2);
      assert Slot(p, t) == q;
    }
  }

  /** Different slots name different cells. */
  lemma SlotInjective(p: Pos, a: int, b: int)
    requires 0 <= a < 25 && 0 <= b < 25 && Slot(p, a) == Slot(p, b)
    ensures a == b
  {
    assert a / 5 == b / 5 && a % 5 == b % 5;
  }

  /** The cells of the slots in `slots` below `n`. */
  ghost function SlotsOf(p: Pos, slots: set<int>, n: int): set<Pos>
  {
    set t | t in slots && 0 <= t < n :: Slot(p, t)
  }

  /** The slots whose cell lends the buff `buff`. */
  ghost function BuffSlots(cfg: Config, w: World, p: Pos, buff: int): set<int>
    requires Shaped(cfg, w.board) && InBounds(cfg, p) && 0 <= buff <= 1
  {
    set t | 0 <= t < 25 && Buffs(cfg, w, p, Slot(p, t), buff)
  }

  /** The slots whose cell weakens. */
  ghost function WeakSlots(cfg: Config, w: World, p: Pos): set<int>
    requires Shaped(cfg, w.board) && InBounds(cfg, p)
  {
    set t | 0 <= t < 25 && Weakens(cfg, w, p, Slot(p, t))
  }

  /** Slot `n` names a cell no earlier slot names. */
  lemma SlotFresh(p: Pos, slots: set<int>, n: int)
    requires 0 <= n < 25
    ensures Slot(p, n) !in SlotsOf(p, slots, n)
  {
    forall t | 0 <= t < n
      ensures Slot(p, t) != Slot(p, n)
    {
      assert t / 5 < n / 5 || t % 5 != n % 5;
    }
  }

  /** Taking one more slot adds its cell when the slot is in the set, and the size grows by one exactly then. */
  lemma SlotsStep(p: Pos, slots: set<int>, n: int)
    requires 0 <= n < 25
    ensures SlotsOf(p, slots, n + 1) == SlotsOf(p, slots, n) + (if n in slots then {Slot(p, n)} else {})
    ensures |SlotsOf(p, slots, n + 1)| == |SlotsOf(p, slots, n)| + (if n in slots then 1 else 0)
  {
    SlotFresh(p, slots, n);
    assert SlotsOf(p, slots, n + 1) == SlotsOf(p, slots, n) + (if n in slots then {Slot(p, n)} else {});
  }

  /** A weakening factor can be taken in at any point of the product. */
  lemma {:induction false} AuraWeaken(a: nat, d: nat)
    ensures 0.75 * Aura(a, d) == Aura(a, d + 1)
  {
    if a > 0 {
      AuraWeaken(a - 1, d);
    }
  }

  /** Aura in closed form. */
  lemma {:induction false} AuraIsPowers(a: nat, d: nat)
    ensures Aura(a, d) == Pow(1.5, a) * Pow(0.75, d)
  {
    if a > 0 {
      AuraIsPowers(a - 1, d);
      var x, y := Pow(1.5, a - 1), Pow(0.75, d);
      assert 1.5 * (x * y) == (1.5 * x) * y;
    } else if d > 0 {
      AuraIsPowers(0, d - 1);
    }
  }

  /** The buff count is the size of the set of cells it counts. */
  lemma {:induction false} BuffCountIsSize(cfg: Config, w: World, p: Pos, buff: int, n: int)
    requires Shaped(cfg, w.board) && InBounds(cfg, p) && 0 <= buff <= 1 && 0 <= n <= 25
    ensures BuffCount(cfg, w, p, buff, n) == |SlotsOf(p, BuffSlots(cfg, w, p, buff), n)|
  {
    var bs := BuffSlots(cfg, w, p, buff);
    if n == 0 {
      assert SlotsOf(p, bs, 0) == {};
    } else {
      BuffCountIsSize(cfg, w, p, buff, n - 1);
      SlotsStep(p, bs, n - 1);
      assert n - 1 in bs <==> Buffs(cfg, w, p, Slot(p, n - 1), buff);
    }
  }

  /** The weaken count is the size of the set of cells it counts. */
  lemma {:induction false} WeakCountIsSize(cfg: Config, w: World, p: Pos, n: int)
    requires Shaped(cfg, w.board) && InBounds(cfg, p) && 0 <= n <= 25
    ensures WeakCount(cfg, w, p, n) == |SlotsOf(p, WeakSlots(cfg, w, p), n)|
  {
    var ws := WeakSlots(cfg, w, p);
    if n == 0 {
      assert SlotsOf(p, ws, 0) == {};
    } else {
      WeakCountIsSize(cfg, w, p, n - 1);
      SlotsStep(p, ws, n - 1);
      assert n - 1 in ws <==> Weakens(cfg, w, p, Slot(p, n - 1));
    }
  }

  lemma SlotsAreWhole(cfg: Config, w: World, p: Pos, buff: int)
    requires Shaped(cfg, w.board) && InBounds(cfg, p) && 0 <= buff <= 1
    ensures SlotsOf(p, BuffSlots(cfg, w, p, buff), 25) == Buffers(cfg, w, p, buff)
    ensures SlotsOf(p, WeakSlots(cfg, w, p), 25) == Weakeners(cfg, w, p)
  {
  }

  /** Over the whole window the counts are the numbers of buffing and weakening generals. */
  lemma WindowCounts(cfg: Config, w: World, p: Pos, buff: int)
    requires Shaped(cfg, w.board) && InBounds(cfg, p) && 0 <= buff <= 1
    ensures BuffCount(cfg, w, p, buff, 25) == |Buffers(cfg, w, p, buff)|
    ensures WeakCount(cfg, w, p, 25) == |Weakeners(cfg, w, p)|
  {
    BuffCountIsSize(cfg, w, p, buff, 25);
    WeakCountIsSize(cfg, w, p, 25);
    SlotsAreWhole(cfg, w, p, buff);
  }

  lemma PositiveProduct(a: real, b: real)
    requires a > 0.0 && b > 0.0
    ensures a * b > 0.0
  {
  }

  /** The defence level on a cell is positive. */
  lemma LevelPositive(cfg: Config, w: World, p: Pos)
    requires WorldOk(cfg, w) && InBounds(cfg, p)
    ensures LevelAt(w, p) > 0.0
  {
    GenAtHere(cfg, w, p);
  }

  lemma DefencePositive(cfg: Config, w: World, p: Pos)
    requires Shaped(cfg, w.board) && InBounds(cfg, p) && LevelAt(w, p) > 0.0
    ensures Defence(cfg, w, p) > 0.0
  {
    PositiveProduct(Aura(|Buffers(cfg, w, p, 1)|, |Weakeners(cfg, w, p)|), LevelAt(w, p));
  }

  /** Both factors are positive, so dividing by them in combat is defined. */
  lemma FactorsPositive(cfg: Config, w: World, p: Pos)
    requires WorldOk(cfg, w) && InBounds(cfg, p)
    ensures Attack(cfg, w, p) > 0.0 && Defence(cfg, w, p) > 0.0
  {
    LevelPositive(cfg, w, p);
    DefencePositive(cfg, w, p);
  }

  /**
   * The configuration of tests/logic_sdk/test_computation.py: one friendly commander, one enemy weakener and
   * an enhance weapon give attack 1.5 * 0.75 * 3; with the defence skill in
   * place of the command skill and a level-2 general on the cell, defence is
   * 1.5 * 0.75 * 2 * 3.
   */
  lemma WorkedValues(cfg: Config, w: World, p: Pos)
    requires Shaped(cfg, w.board) && InBounds(cfg, p) && Enhanced(w, p)
    requires |Weakeners(cfg, w, p)| == 1
    ensures |Buffers(cfg, w, p, 0)| == 1 ==> Attack(cfg, w, p) == 1.5 * 0.75 * 3.0
    ensures (|Buffers(cfg, w, p, 1)| == 1 && GenAt(w.board, w.generals, p).Some? &&
             GenAt(w.board, w.generals, p).value.defence == 2.0) ==>
            Defence(cfg, w, p) == 1.5 * 0.75 * 2.0 * 3.0
  {
    assert Aura(1, 1) == 1.5 * 0.75;
  }

  // ---------------------------------------------------------------------
  // The loops of compute_attack and compute_defence (neither writes the state)

  lemma SlotOf(p: Pos, i: int, j: int)
    requires -2 <= i <= 2 && -2 <= j <= 2
    ensures Slot(p, (i + 2) * 5 + j + 2) == Pos(p.x + i, p.y + j)
  {
    var t := (i + 2) * 5 + j + 2;
    assert t / 5 == i + 2 && t % 5 == j + 2;
  }

  /** The two tests of the inner loop body on the cell `q`. */
  method SlotTests(s: GameState, p: Pos, buff: int, q: Pos) returns (buffs: bool, weakens: bool)
    requires Shaped(s.cfg, s.board) && Linked(s.board, s.generals) && InBounds(s.cfg, p) && 0 <= buff <= 1
    ensures buffs == Buffs(s.cfg, s.Model(), p, q, buff)
    ensures weakens == Weakens(s.cfg, s.Model(), p, q)
  {
    buffs, weakens := false, false;
    if 0 <= q.x < s.cfg.rows && 0 <= q.y < s.cfg.cols {
      var neighbour := s.board[q.x][q.y];
      if neighbour.gen.Some? {
        var g := s.generals[GeneralIndex(s.generals, neighbour.gen.value)];
        buffs := neighbour.owner == s.board[p.x][p.y].owner && g.skillDuration[buff] > 0;
        weakens := neighbour.owner != s.board[p.x][p.y].owner && g.skillDuration[2] > 0;
      }
    }
  }

  /** One slot's factor moves the product to the next pair of counts. */
  lemma AuraStep(b: nat, d: nat, buffs: bool, weakens: bool, r: real)
    requires r == Aura(b, d) && !(buffs && weakens)
    ensures (if weakens then (if buffs then r * 1.5 else r) * 0.75 else if buffs then r * 1.5 else r) ==
      Aura(b + (if buffs then 1 else 0), d + (if weakens then 1 else 0))
  {
    AuraWeaken(b, d);
  }

  /** One slot moves both counts on by its own test. */
  lemma SlotStep(cfg: Config, w: World, p: Pos, buff: int, t: int, buffs: bool, weakens: bool, r: real)
    requires Shaped(cfg, w.board) && InBounds(cfg, p) && 0 <= buff <= 1 && 0 <= t < 25
    requires buffs == Buffs(cfg, w, p, Slot(p, t), buff) && weakens == Weakens(cfg, w, p, Slot(p, t))
    requires r == Aura(BuffCount(cfg, w, p, buff, t), WeakCount(cfg, w, p, t))
    ensures (if weakens then (if buffs then r * 1.5 else r) * 0.75 else if buffs then r * 1.5 else r) ==
      Aura(BuffCount(cfg, w, p, buff, t + 1), WeakCount(cfg, w, p, t + 1))
  {
    AuraStep(BuffCount(cfg, w, p, buff, t), WeakCount(cfg, w, p, t), buffs, weakens, r);
  }

  /** The product over the first `t` slots of the window. */
  ghost predicate AuraSoFar(cfg: Config, w: World, p: Pos, buff: int, t: int, r: real)
    requires Shaped(cfg, w.board) && InBounds(cfg, p) && 0 <= buff <= 1 && 0 <= t <= 25
  {
    r == Aura(BuffCount(cfg, w, p, buff, t), WeakCount(cfg, w, p, t))
  }

  /** One pass of the inner loop body: the neighbour at offset (i, j) contributes its factor. */
  method VisitSlot(s: GameState, p: Pos, buff: int, i: int, j: int, ghost t: int, r: real) returns (r': real)
    requires Shaped(s.cfg, s.board) && Linked(s.board, s.generals) && InBounds(s.cfg, p) && 0 <= buff <= 1 && -2 <= i <= 2 && -2 <= j <= 2
    requires t == (i + 2) * 5 + j + 2 && AuraSoFar(s.cfg, s.Model(), p, buff, t, r)
    ensures AuraSoFar(s.cfg, s.Model(), p, buff, t + 1, r')
  {
    SlotOf(p, i, j);
    var buffs, weakens := SlotTests(s, p, buff, Pos(p.x + i, p.y + j));
    SlotStep(s.cfg, s.Model(), p, buff, t, buffs, weakens, r);
    r' := r;
    if buffs {
      r' := r' * 1.5;
    }
    if weakens {
      r' := r' * 0.75;
    }
  }

  /** The inner `for j in range(-2, 3)` loop at row offset `i`. */
  method RowAura(s: GameState, p: Pos, buff: int, i: int, ghost t0: int, r: real) returns (r': real)
    requires Shaped(s.cfg, s.board) && Linked(s.board, s.generals) && InBounds(s.cfg, p) && 0 <= buff <= 1 && -2 <= i <= 2
    requires t0 == (i + 2) * 5 && AuraSoFar(s.cfg, s.Model(), p, buff, t0, r)
    ensures AuraSoFar(s.cfg, s.Model(), p, buff, t0 + 5, r')
  {
    r' := r;
    ghost var t := t0;
    var j := -2;
    while j < 3
      invariant -2 <= j <= 3 && t == t0 + j + 2
      invariant AuraSoFar(s.cfg, s.Model(), p, buff, t, r')
    {
      r' := VisitSlot(s, p, buff, i, j, t, r');
      j, t := j + 1, t + 1;
    }
  }

  /** The nested `for i/j in range(-2, 3)` loops, for buff timer `buff`. */
  method WindowAura(s: GameState, p: Pos, buff: int) returns (r: real)
    requires Shaped(s.cfg, s.board) && Linked(s.board, s.generals) && InBounds(s.cfg, p) && 0 <= buff <= 1
    ensures AuraSoFar(s.cfg, s.Model(), p, buff, 25, r)
  {
    r := 1.0;
    ghost var t := 0;
    var i := -2;
    while i < 3
      invariant -2 <= i <= 3 && t == (i + 2) * 5
      invariant AuraSoFar(s.cfg, s.Model(), p, buff, t, r)
    {
      r := RowAura(s, p, buff, i, t, r);
      i, t := i + 1, t + 5;
    }
  }

  /** The weapon loop: is there an attack-enhance weapon for this cell (it stops at the first)? */
  method FindEnhance(s: GameState, p: Pos) returns (found: bool)
    requires s.Valid() && InBounds(s.cfg, p)
    ensures found == Enhanced(s.Model(), p)
  {
    var owner := s.board[p.x][p.y].owner;
    var k := 0;
    while k < |s.activeWeapons|
      invariant 0 <= k <= |s.activeWeapons|
      invariant forall m :: 0 <= m < k ==> !EnhancesAt(s.activeWeapons[m], owner, p)
    {
      var wp := s.activeWeapons[k];
      if wp.kind == AttackEnhance && p.x - 1 <= wp.pos.x <= p.x + 1 && p.y - 1 <= wp.pos.y <= p.y + 1 &&
         wp.player == owner {
        return true;
      }
      k := k + 1;
    }
    return false;
  }

  /** `compute_attack` for the cell at `p`. */
  method ComputeAttack(s: GameState, p: Pos) returns (attack: real)
    requires s.Valid() && InBounds(s.cfg, p)
    ensures attack == Attack(s.cfg, s.Model(), p) && attack > 0.0
  {
    attack := WindowAura(s, p, 0);
    WindowCounts(s.cfg, s.Model(), p, 0);
    var enhanced := FindEnhance(s, p);
    if enhanced {
      attack := attack * 3.0;
    }
  }

  /** The loops' three results, combined in the source's order, give `Defence`. */
  lemma DefenceIs(cfg: Config, w: World, p: Pos, aura: real, level: real, enhanced: bool)
    requires Shaped(cfg, w.board) && InBounds(cfg, p)
    requires aura == Aura(BuffCount(cfg, w, p, 1, 25), WeakCount(cfg, w, p, 25))
    requires level == LevelAt(w, p) && enhanced == Enhanced(w, p)
    ensures Combine(aura, level, enhanced) == Defence(cfg, w, p)
  {
    WindowCounts(cfg, w, p, 1);
  }

  /** The defence level of the general on the cell, 1 without one. */
  method LevelOf(s: GameState, p: Pos) returns (level: real)
    requires s.Valid() && InBounds(s.cfg, p)
    ensures level == LevelAt(s.Model(), p) && level > 0.0
  {
    var cell := s.board[p.x][p.y];
    level := 1.0;
    GenAtHere(s.cfg, s.Model(), p);
    if cell.gen.Some? {
      level := s.generals[GeneralIndex(s.generals, cell.gen.value)].defence;
    }
  }

  /** `compute_defence` for the cell at `p`. */
  method ComputeDefence(s: GameState, p: Pos) returns (defence: real)
    requires s.Valid() && InBounds(s.cfg, p)
    ensures defence == Defence(s.cfg, s.Model(), p) && defence > 0.0
  {
    var aura := WindowAura(s, p, 1);
    var level := LevelOf(s, p);
    var enhanced := FindEnhance(s, p);
    defence := DefenceProduct(s.cfg, s.Model(), p, aura, level, enhanced);
  }

  /** The closing multiplications of `compute_defence`: the level, then the weapon's 3. */
  method DefenceProduct(cfg: Config, ghost w: World, p: Pos, aura: real, level: real, enhanced: bool)
    returns (defence: real)
    requires Shaped(cfg, w.board) && InBounds(cfg, p)
    requires aura == Aura(BuffCount(cfg, w, p, 1, 25), WeakCount(cfg, w, p, 25))
    requires level == LevelAt(w, p) && level > 0.0 && enhanced == Enhanced(w, p)
    ensures defence == Defence(cfg, w, p) && defence > 0.0
  {
    defence := aura * level;
    if enhanced {
      defence := defence * 3.0;
    }
    DefenceIs(cfg, w, p, aura, level, enhanced);
    DefencePositive(cfg, w, p);
  }
}
