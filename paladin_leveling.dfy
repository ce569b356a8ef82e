/**
 * The leveling paladin: the attack loop against a selected monster, the
 * required key bindings, when to reset skills, which skills to bind and the
 * stat-point targets by level band.
 */
module PaladinLeveling {
  import opened Common

  // ---------------------------------------------------------------------------
  // The attack loop.

  const MaxAttacksLoop: nat := 10

  /**
   * What one turn of the loop finds in the game data: the unit the selector
   * picks (None when it finds none), whether the pre-battle checks pass,
   * the monster's life when that unit is among the monsters (None when it
   * is not), and whether Blessed Hammer and Zeal are learned.
   */
  datatype Turn = Turn(target: Option<nat>, preBattleOk: bool, life: Option<int>, hammer: bool, zeal: bool)

  /** An action the loop issues: a primary attack, or a random movement. */
  datatype Action =
    | Attack(id: nat, count: nat, minDistance: nat, maxDistance: nat, aura: Skill)
    | RandomMove

  /**
   * The actions of the loop from turn k on, with `loops` attack rounds on
   * unit `prev` behind it. Past the end of the script the selector finds
   * nothing.
   */
  function Kill(script: seq<Turn>, k: nat, loops: nat, prev: nat): seq<Action>
    decreases |script| - k
  {
    if k >= |script| || script[k].target.None? then []
    else
      var t := script[k];
      var id := t.target.value;
      var rounds := if prev != id then 0 else loops;
      if !t.preBattleOk || rounds >= MaxAttacksLoop || t.life.None? then []
      else if t.hammer then
        if prev == id then (if t.life.value > 0 then [RandomMove] else [])
        else [Attack(id, 5, 2, 7, Concentration)] + Kill(script, k + 1, rounds + 1, id)
      else [Attack(id, if t.zeal then 1 else 5, 1, 3, HolyFire)] + Kill(script, k + 1, rounds + 1, id)
  }

  /** KillMonsterSequence: the loop over the turns of `script`; it always returns nil. */
  method KillMonsterSequence(script: seq<Turn>) returns (err: Option<string>, actions: seq<Action>)
    ensures err == None
    ensures actions == Kill(script, 0, 0, 0)
  {
    var completedAttackLoops: nat := 0;
    var previousUnitID: nat := 0;
    var k: nat := 0;
    actions := [];
    while k < |script|
      invariant actions + Kill(script, k, completedAttackLoops, previousUnitID) == Kill(script, 0, 0, 0)
      decreases |script| - k
    {
      var t := script[k];
      if t.target.None? {
        return None, actions;
      }
      var id := t.target.value;
      if previousUnitID != id {
        completedAttackLoops := 0;
      }
      if !t.preBattleOk || completedAttackLoops >= MaxAttacksLoop || t.life.None? {
        return None, actions;
      }
      if t.hammer {
        if previousUnitID == id {
          if t.life.value > 0 {
            actions := actions + [RandomMove];
          }
          return None, actions;
        }
        AppendAssoc(actions, [Attack(id, 5, 2, 7, Concentration)], Kill(script, k + 1, completedAttackLoops + 1, id));
        actions := actions + [Attack(id, 5, 2, 7, Concentration)];
      } else {
        var count := if t.zeal then 1 else 5;
        AppendAssoc(actions, [Attack(id, count, 1, 3, HolyFire)], Kill(script, k + 1, completedAttackLoops + 1, id));
        actions := actions + [Attack(id, count, 1, 3, HolyFire)];
      }
      completedAttackLoops := completedAttackLoops + 1;
      previousUnitID := id;
      k := k + 1;
    }
    return None, actions;
  }

  /** The number of attacks on unit `id` at the head of `t`. */
  function LeadRun(t: seq<Action>, id: nat): nat {
    if t != [] && t[0].Attack? && t[0].id == id then 1 + LeadRun(t[1..], id) else 0
  }

  lemma {:induction false} LeadRunBound(script: seq<Turn>, k: nat, loops: nat, prev: nat, id: nat)
    requires loops <= MaxAttacksLoop
    ensures LeadRun(Kill(script, k, loops, prev), id) <= if id == prev then MaxAttacksLoop - loops else MaxAttacksLoop
    decreases |script| - k
  {
    var t := Kill(script, k, loops, prev);
    if t != [] && t[0].Attack? {
      var s := script[k];
      var next := s.target.value;
      var rounds := if prev != next then 0 else loops;
      assert t[1..] == Kill(script, k + 1, rounds + 1, next);
      LeadRunBound(script, k + 1, rounds + 1, next, id);
    }
  }

  predicate RunsBounded(t: seq<Action>) {
    forall i :: 0 <= i < |t| && t[i].Attack? ==> LeadRun(t[i..], t[i].id) <= MaxAttacksLoop
  }

  /** No unit is attacked in more than ten rounds in a row. */
  lemma {:induction false} AttackRunsBounded(script: seq<Turn>, k: nat, loops: nat, prev: nat)
    requires loops <= MaxAttacksLoop
    ensures RunsBounded(Kill(script, k, loops, prev))
    decreases |script| - k
  {
    var t := Kill(script, k, loops, prev);
    if t != [] && t[0].Attack? {
      var next := script[k].target.value;
      var rounds := if prev != next then 0 else loops;
      var rest := Kill(script, k + 1, rounds + 1, next);
      assert t == [t[0]] + rest;
      LeadRunBound(script, k, loops, prev, t[0].id);
      AttackRunsBounded(script, k + 1, rounds + 1, next);
      assert t[0..] == t;
      forall i | 0 < i < |t| && t[i].Attack?
        ensures LeadRun(t[i..], t[i].id) <= MaxAttacksLoop
      {
        assert t[i..] == rest[i - 1..] && t[i] == rest[i - 1];
        assert 0 <= i - 1 < |rest| && rest[i - 1].Attack?;
      }
    }
  }

  /**
   * The loop ends after a random movement: it is the last action, and it is
   * issued only for a living monster on the hammer branch.
   */
  lemma {:induction false} RandomMoveIsLast(script: seq<Turn>, k: nat, loops: nat, prev: nat)
    ensures var t := Kill(script, k, loops, prev);
            forall i :: 0 <= i < |t| && t[i] == RandomMove ==> i == |t| - 1
    ensures var t := Kill(script, k, loops, prev);
            t != [] && t[|t| - 1] == RandomMove ==>
              exists j :: k <= j < |script| && script[j].hammer && script[j].life.Some? && script[j].life.value > 0
    decreases |script| - k
  {
    var t := Kill(script, k, loops, prev);
    if t != [] && t[0].Attack? {
      var next := script[k].target.value;
      var rounds := if prev != next then 0 else loops;
      assert t[1..] == Kill(script, k + 1, rounds + 1, next);
      RandomMoveIsLast(script, k + 1, rounds + 1, next);
    }
  }

  /**
   * With Blessed Hammer learned throughout, a unit is never attacked in two
   * turns in a row: the second turn on it moves at random instead.
   */
  lemma {:induction false} HammerNeverRepeats(script: seq<Turn>, k: nat, loops: nat, prev: nat)
    requires forall j :: 0 <= j < |script| ==> script[j].hammer
    ensures var t := Kill(script, k, loops, prev);
            t != [] && t[0].Attack? ==> t[0].id != prev
    ensures var t := Kill(script, k, loops, prev);
            forall i :: 0 <= i < |t| - 1 && t[i].Attack? && t[i + 1].Attack? ==> t[i].id != t[i + 1].id
    decreases |script| - k
  {
    var t := Kill(script, k, loops, prev);
    if t != [] && t[0].Attack? {
      var next := script[k].target.value;
      var rounds := if prev != next then 0 else loops;
      var rest := Kill(script, k + 1, rounds + 1, next);
      assert t == [t[0]] + rest;
      HammerNeverRepeats(script, k + 1, rounds + 1, next);
    }
  }

  /**
   * The action turn `t` gives rise to. The turn found a monster and passed
   * the pre-battle checks; an attack is on that monster, a hammer round
   * (five, 2 to 7 yards, Concentration) when Blessed Hammer is learned, else
   * a melee round under Holy Fire (one with Zeal, five without); a random
   * move only in the hammer branch, on a monster still alive.
   */
  predicate TurnAction(t: Turn, a: Action) {
    && t.target.Some?
    && t.preBattleOk
    && t.life.Some?
    && (a.Attack? ==>
          a == (if t.hammer then Attack(t.target.value, 5, 2, 7, Concentration)
                else Attack(t.target.value, if t.zeal then 1 else 5, 1, 3, HolyFire)))
    && (a.RandomMove? ==> t.hammer && t.life.value > 0)
  }

  /** The i-th action of the loop from turn k on comes from turn k + i and is the one that turn gives rise to. */
  lemma {:induction false} AttackShapes(script: seq<Turn>, k: nat, loops: nat, prev: nat, i: nat)
    requires i < |Kill(script, k, loops, prev)|
    ensures k + i < |script| && TurnAction(script[k + i], Kill(script, k, loops, prev)[i])
    decreases i
  {
    var acts := Kill(script, k, loops, prev);
    assert k < |script| && script[k].target.Some?;
    var t := script[k];
    var id := t.target.value;
    var rounds := if prev != id then 0 else loops;
    assert t.preBattleOk && rounds < MaxAttacksLoop && t.life.Some?;
    if t.hammer && prev == id {
      assert acts == [RandomMove];
    } else {
      var first := if t.hammer then Attack(id, 5, 2, 7, Concentration)
                   else Attack(id, if t.zeal then 1 else 5, 1, 3, HolyFire);
      var rest := Kill(script, k + 1, rounds + 1, id);
      assert acts == [first] + rest;
      if i == 0 {
        assert acts[i] == first;
      } else {
        AttackShapes(script, k + 1, rounds + 1, id, i - 1);
        assert acts[i] == rest[i - 1];
      }
    }
  }

  // ---------------------------------------------------------------------------
  // Key bindings and skills.

  /** The skills of `required` that have no key binding, in order. */
  function Unbound(required: seq<Skill>, bindings: map<Skill, KeyBinding>): seq<Skill> {
    if required == [] then []
    else (if required[0] in bindings then [] else [required[0]]) + Unbound(required[1..], bindings)
  }

  lemma {:induction false} UnboundMembers(required: seq<Skill>, bindings: map<Skill, KeyBinding>)
    ensures forall s :: s in Unbound(required, bindings) <==> s in required && s !in bindings
  {
    if required != [] {
      UnboundMembers(required[1..], bindings);
      assert required == [required[0]] + required[1..];
    }
  }

  const RequiredKeyBindings: seq<Skill> := [TomeOfTownPortal]

  /** CheckKeyBindings: the required skills without a binding; only the town-portal tome is required. */
  method CheckKeyBindings(bindings: map<Skill, KeyBinding>) returns (missing: seq<Skill>)
    ensures missing == Unbound(RequiredKeyBindings, bindings)
    ensures missing == if TomeOfTownPortal in bindings then [] else [TomeOfTownPortal]
  {
    missing := [];
    for i := 0 to |RequiredKeyBindings|
      invariant missing + Unbound(RequiredKeyBindings[i..], bindings) == Unbound(RequiredKeyBindings, bindings)
    {
      var s := RequiredKeyBindings[i];
      assert RequiredKeyBindings[i..][1..] == RequiredKeyBindings[i + 1..];
      if s !in bindings {
        AppendAssoc(missing, [s], Unbound(RequiredKeyBindings[i + 1..], bindings));
        missing := missing + [s];
      }
    }
  }

  /** A skill's level; a skill the character does not have is at level 0. */
  function SkillLevel(skills: map<Skill, int>, s: Skill): int {
    if s in skills then skills[s] else 0
  }

  function ShouldResetSkills(level: int, skills: map<Skill, int>): (r: bool)
    ensures r <==> level >= 21 && SkillLevel(skills, HolyFire) > 10
  {
    level >= 21 && SkillLevel(skills, HolyFire) > 10
  }

  /** Once a reset is due, it stays due at higher levels. */
  lemma ShouldResetMonotone(l1: int, l2: int, skills: map<Skill, int>)
    requires l1 <= l2 && ShouldResetSkills(l1, skills)
    ensures ShouldResetSkills(l2, skills)
  {
  }

  /** Where a skill goes in the bindings list: Vigor, then Holy Shield, then the aura. */
  function BindRank(s: Skill): nat {
    if s == Vigor then 0 else if s == HolyShield then 1 else 2
  }

  /** SkillsToBind: the main skill and the skills to put on keys. */
  method SkillsToBind(level: int, skills: map<Skill, int>) returns (main: Skill, bindings: seq<Skill>)
    ensures Vigor in bindings <==> level >= 6
    ensures HolyShield in bindings <==> level >= 24
    ensures main == if SkillLevel(skills, BlessedHammer) > 0 && level >= 18 then BlessedHammer
                    else if SkillLevel(skills, Zeal) > 0 then Zeal
                    else AttackSkill
    ensures Concentration in bindings <==> SkillLevel(skills, Concentration) > 0 && level >= 18
    ensures HolyFire in bindings <==> !(SkillLevel(skills, Concentration) > 0 && level >= 18) && HolyFire in skills
    ensures Might in bindings <==> !(SkillLevel(skills, Concentration) > 0 && level >= 18) && HolyFire !in skills && Might in skills
    ensures forall i :: 0 <= i < |bindings| ==> bindings[i] in {Vigor, HolyShield, Concentration, HolyFire, Might}
    ensures forall i, j :: 0 <= i < j < |bindings| ==> bindings[i] != bindings[j]
    ensures forall i, j :: 0 <= i < j < |bindings| ==> BindRank(bindings[i]) < BindRank(bindings[j])
  {
    main := AttackSkill;
    bindings := [];
    if level >= 6 {
      bindings := bindings + [Vigor];
    }
    if level >= 24 {
      bindings := bindings + [HolyShield];
    }
    if SkillLevel(skills, BlessedHammer) > 0 && level >= 18 {
      main := BlessedHammer;
    } else if SkillLevel(skills, Zeal) > 0 {
      main := Zeal;
    }
    if SkillLevel(skills, Concentration) > 0 && level >= 18 {
      bindings := bindings + [Concentration];
    } else {
      if HolyFire in skills {
        bindings := bindings + [HolyFire];
      } else if Might in skills {
        bindings := bindings + [Might];
      }
    }
  }

  // ---------------------------------------------------------------------------
  // Stat points.

  datatype Stat = Strength | Dexterity | Vitality | Energy

  /** StatPoints: the target of each stat in the character's level band. */
  function StatPoints(level: int): (r: map<Stat, int>)
    ensures Strength in r && Vitality in r && Energy in r && r[Energy] == 0
    ensures Dexterity !in r <==> 21 <= level < 30
  {
    if level < 21 then map[Strength := 0, Dexterity := 25, Vitality := 150, Energy := 0]
    else if level < 30 then map[Strength := 35, Vitality := 200, Energy := 0]
    else if level < 45 then map[Strength := 50, Dexterity := 40, Vitality := 220, Energy := 0]
    else map[Strength := 86, Dexterity := 50, Vitality := 300, Energy := 0]
  }

  /** Strength and vitality targets only grow with the level. */
  lemma StatPointsMonotone(l1: int, l2: int)
    requires l1 <= l2
    ensures StatPoints(l1)[Strength] <= StatPoints(l2)[Strength]
    ensures StatPoints(l1)[Vitality] <= StatPoints(l2)[Vitality]
  {
  }

  /** Where a band sets dexterity, the target grows with the level too. */
  lemma DexterityMonotone(l1: int, l2: int)
    requires l1 <= l2 && Dexterity in StatPoints(l1) && Dexterity in StatPoints(l2)
    ensures StatPoints(l1)[Dexterity] <= StatPoints(l2)[Dexterity]
  {
  }
}
