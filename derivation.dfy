/** The character-derivation pipeline: ability modifiers, final scores
    from racial bonuses, the race/subrace merge, a fresh character record,
    and the recomputation of the derived statistics that the creator runs
    whenever the scores, race, class, background, level, hit points, armor
    class or class-skill choices change. */
module Derivation {
  import opened Types
  import opened Seqs

  /** `Math.floor((score - 10) / 2)`: Dafny's division by a positive divisor
      rounds down, so the quotient is the floor. */
  function AbilityModifier(score: int): (m: int)
    ensures 2 * m <= score - 10 < 2 * m + 2
  {
    (score - 10) / 2
  }

  lemma ModifierExamples()
    ensures AbilityModifier(8) == -1 && AbilityModifier(0) == -5
    ensures AbilityModifier(9) == -1 && AbilityModifier(10) == 0 && AbilityModifier(11) == 0
    ensures AbilityModifier(15) == 2 && AbilityModifier(20) == 5
  {
  }

  lemma ModifierMonotone(a: int, b: int)
    requires a <= b
    ensures AbilityModifier(a) <= AbilityModifier(b)
  {
  }

  // ---------------------------------------------------------------------
  // Final ability scores

  /** Raw scores plus racial bonuses; with no bonus map the raw scores are copied. */
  function FinalScores(raw: AbilityScores, bonuses: Option<BonusMap>): (r: AbilityScores)
    ensures bonuses.None? ==> r == raw
    ensures bonuses.Some? ==> forall a :: r.Get(a) == raw.Get(a) + BonusOf(bonuses.value, a)
  {
    match bonuses
    case None => raw
    case Some(m) => AbilityScores(
      raw.strength + BonusOf(m, Strength), raw.dexterity + BonusOf(m, Dexterity),
      raw.constitution + BonusOf(m, Constitution), raw.intelligence + BonusOf(m, Intelligence),
      raw.wisdom + BonusOf(m, Wisdom), raw.charisma + BonusOf(m, Charisma))
  }

  /** The loop over the ability names that fills a copy of the raw scores. */
  method CalculateFinalAbilityScores(raw: AbilityScores, bonuses: Option<BonusMap>) returns (r: AbilityScores)
    ensures r == FinalScores(raw, bonuses)
  {
    r := raw;
    if bonuses.Some? {
      var m := bonuses.value;
      var i := 0;
      while i < |AbilityNames|
        invariant 0 <= i <= |AbilityNames|
        invariant forall j :: 0 <= j < i ==>
                    r.Get(AbilityNames[j]) == raw.Get(AbilityNames[j]) + BonusOf(m, AbilityNames[j])
        invariant forall j :: i <= j < |AbilityNames| ==> r.Get(AbilityNames[j]) == raw.Get(AbilityNames[j])
      {
        var a := AbilityNames[i];
        r := r.Set(a, raw.Get(a) + BonusOf(m, a));
        i := i + 1;
      }
      AbilityNamesExact();
      forall a
        ensures r.Get(a) == FinalScores(raw, bonuses).Get(a)
      {
        assert a in AbilityNames;
        var j :| 0 <= j < |AbilityNames| && AbilityNames[j] == a;
      }
      ScoresExtensional(r, FinalScores(raw, bonuses));
    }
  }

  // ---------------------------------------------------------------------
  // Race and subrace

  /** The base bonuses with every subrace bonus added to the base one. */
  function MergedBonuses(base: BonusMap, sub: BonusMap): (m: BonusMap)
    ensures m.Keys == base.Keys + sub.Keys
    ensures forall a :: a in m ==> m[a] == BonusOf(base, a) + BonusOf(sub, a)
    ensures forall a :: BonusOf(m, a) == BonusOf(base, a) + BonusOf(sub, a)
    ensures forall a :: a in base && a !in sub ==> m[a] == base[a]
  {
    base + map a | a in sub :: BonusOf(base, a) + sub[a]
  }

  /** The `for ... in` loop over the subrace's bonus keys. */
  method MergeBonuses(base: BonusMap, sub: BonusMap) returns (merged: BonusMap)
    ensures merged == MergedBonuses(base, sub)
  {
    merged := base;
    var pending := sub.Keys;
    while pending != {}
      invariant pending <= sub.Keys
      invariant merged.Keys == base.Keys + (sub.Keys - pending)
      invariant forall a :: a in merged ==>
                  merged[a] == BonusOf(base, a) + (if a in sub && a !in pending then sub[a] else 0)
      decreases pending
    {
      var a :| a in pending;
      merged := merged[a := BonusOf(merged, a) + BonusOf(sub, a)];
      pending := pending - {a};
    }
    var spec := MergedBonuses(base, sub);
    assert merged.Keys == spec.Keys;
    assert forall a :: a in merged ==> merged[a] == spec[a];
  }

  /** The description of the merged race: the subrace's when it is non-empty. */
  function MergedDescription(base: Race, sub: Subrace): string
  {
    if sub.description.Some? && sub.description.value != "" then sub.description.value else base.description
  }

  /** The race that a subrace pick produces; every other field is the base race's. */
  function MergeRace(base: Race, sub: Subrace): Race
  {
    base.(
      name := base.name + " (" + sub.name + ")",
      description := MergedDescription(base, sub),
      bonuses := MergedBonuses(base.bonuses, sub.bonuses),
      traits := Dedupe(base.traits + sub.traits))
  }

  /** What a merge promises: summed bonuses for every ability, the traits of both
      once each with the base traits first, the combined name, the description
      fallback, and everything else inherited from the base race. */
  lemma MergeRaceSpec(base: Race, sub: Subrace)
    ensures var r := MergeRace(base, sub);
      && (forall a :: BonusOf(r.bonuses, a) == BonusOf(base.bonuses, a) + BonusOf(sub.bonuses, a))
      && r.bonuses.Keys == base.bonuses.Keys + sub.bonuses.Keys
      && (forall a :: a in base.bonuses && a !in sub.bonuses ==> r.bonuses[a] == base.bonuses[a])
      && NoDup(r.traits)
      && (forall t :: t in r.traits <==> t in base.traits || t in sub.traits)
      && Dedupe(base.traits) <= r.traits
      && r.name == base.name + " (" + sub.name + ")"
      && (sub.description.Some? && sub.description.value != "" ==> r.description == sub.description.value)
      && (sub.description.None? || sub.description.value == "" ==> r.description == base.description)
      && r.hasPerceptionTrait == base.hasPerceptionTrait && r.source == base.source
      && r.icon == base.icon && r.subraces == base.subraces
  {
    var all := base.traits + sub.traits;
    DedupeSpec(all);
    DedupePrefix(all, |base.traits|);
    assert all[..|base.traits|] == base.traits;
  }

  /** A Darkvision race with +2 Strength and a
      subrace with +1 Intelligence and Darkvision, Stone Cunning. */
  lemma MergeRaceExample()
    ensures var base := Race("Base", "b", map[Strength := 2], ["Darkvision"], None, None, None, Some(Types.Base));
      var sub := Subrace("Sub", None, map[Intelligence := 1], ["Darkvision", "StoneCunning"]);
      var r := MergeRace(base, sub);
      r.bonuses == map[Strength := 2, Intelligence := 1]
      && r.traits == ["Darkvision", "StoneCunning"]
      && r.name == "Base (Sub)" && r.description == "b"
  {
    var all: seq<string> := ["Darkvision"] + ["Darkvision", "StoneCunning"];
    assert all[..2][..1] == ["Darkvision"];
    assert all[..2] == ["Darkvision", "Darkvision"];
    assert all[..3][..2] == all[..2];
    assert all == all[..3];
    assert Dedupe(all[..1]) == ["Darkvision"];
    assert Dedupe(all[..2]) == ["Darkvision"];
    var m := MergedBonuses(map[Strength := 2], map[Intelligence := 1]);
    assert m.Keys == {Strength, Intelligence};
  }

  /** `[...new Set(s)]`, as the loop a `Set` runs. */
  method UniqueInOrder<T(==)>(s: seq<T>) returns (r: seq<T>)
    ensures r == Dedupe(s)
  {
    r := [];
    var seen: set<T> := {};
    for i := 0 to |s|
      invariant r == Dedupe(s[..i])
      invariant forall x :: x in seen <==> x in r
    {
      assert s[..i + 1][..i] == s[..i];
      if s[i] !in seen {
        r := r + [s[i]];
        seen := seen + {s[i]};
      }
    }
    assert s[..|s|] == s;
  }

  /** Builds the merged race (the merge helper of the creator). */
  method MergeRaceAndSubrace(base: Race, sub: Subrace) returns (r: Race)
    ensures r == MergeRace(base, sub)
  {
    var bonuses := MergeBonuses(base.bonuses, sub.bonuses);
    var traits := UniqueInOrder(base.traits + sub.traits);
    var description := if sub.description.Some? && sub.description.value != "" then sub.description.value else base.description;
    r := base.(name := base.name + " (" + sub.name + ")", description := description,
               bonuses := bonuses, traits := traits,
               hasPerceptionTrait := base.hasPerceptionTrait, source := base.source);
  }

  // ---------------------------------------------------------------------
  // A fresh character record

  /** The record the creator starts from; without catalog defaults the scores are
      all zero, no standard values are offered and the proficiency bonus is 2. */
  function InitialDraft(id: string, common: Option<CommonGameData>): CharacterData
  {
    var scores := if common.Some? then common.value.defaultAbilityScores else Uniform(0);
    CharacterData(
      id, "", None, None, scores, scores, None, None, 1, None, None,
      Some(if common.Some? then common.value.proficiencyBonusLevel1 else 2),
      [], [], "",
      if common.Some? then SortDesc(common.value.standardArrayScores) else [],
      Some(""), None)
  }

  lemma InitialDraftSpec(id: string, common: Option<CommonGameData>)
    ensures var d := InitialDraft(id, common);
      && d.id == id && d.name == "" && d.level == 1
      && d.race.None? && d.charClass.None? && d.background.None? && d.alignment.None?
      && d.hitPoints.None? && d.armorClass.None?
      && d.proficientSkills == [] && d.proficientSavingThrows == []
      && d.backstory == "" && d.imageUrl == Some("") && d.source.None?
      && d.finalAbilityScores == d.abilityScores
      && (common.Some? ==>
            (d.abilityScores == common.value.defaultAbilityScores
             && d.proficiencyBonus == Some(common.value.proficiencyBonusLevel1)
             && SortedDesc(d.availableScores)
             && multiset(d.availableScores) == multiset(common.value.standardArrayScores)))
      && (common.None? ==>
            (d.abilityScores == Uniform(0) && d.availableScores == [] && d.proficiencyBonus == Some(2)))
  {
    if common.Some? {
      SortDescSpec(common.value.standardArrayScores);
    }
  }

  // ---------------------------------------------------------------------
  // Derived statistics

  /** `x || 0` on an optional number. */
  function OrZero(x: Option<int>): int
  {
    if x.Some? then x.value else 0
  }

  /** Truthiness of an optional number: present and not zero. */
  predicate Truthy(x: Option<int>)
  {
    x.Some? && x.value != 0
  }

  /** The lower-cased race name contains "hill dwarf". */
  predicate IsHillDwarf(race: Option<Race>)
  {
    race.Some? && Contains(Lower(race.value.name), "hill dwarf")
  }

  function RacialBonuses(race: Option<Race>): Option<BonusMap>
  {
    if race.Some? then Some(race.value.bonuses) else None
  }

  function DerivedHitPoints(d: CharacterData, final: AbilityScores): int
  {
    (if d.charClass.Some? then d.charClass.value.hitDie + AbilityModifier(final.constitution)
     else OrZero(d.hitPoints))
    + (if IsHillDwarf(d.race) then d.level else 0)
  }

  function DerivedArmorClass(d: CharacterData, final: AbilityScores): int
  {
    if Truthy(d.armorClass) then d.armorClass.value else 10 + AbilityModifier(final.dexterity)
  }

  /** The class list, else the previous list (an array is never falsy, so the
      final `|| []` fallback cannot fire). */
  function DerivedSavingThrows(d: CharacterData): seq<Ability>
  {
    if d.charClass.Some? then d.charClass.value.savingThrows else d.proficientSavingThrows
  }

  /** Everything that grants a skill, in push order. */
  function SkillContributions(race: Option<Race>, background: Option<Background>, choices: seq<string>): seq<string>
  {
    (if race.Some? && race.value.GrantsPerception() then ["Perception"] else [])
    + (if background.Some? then background.value.skillProficiencies else [])
    + choices
  }

  function ProficientSkills(race: Option<Race>, background: Option<Background>, choices: seq<string>): seq<string>
  {
    Dedupe(SkillContributions(race, background, choices))
  }

  /** The skill union has no duplicates, holds every contributor and nothing else,
      and starts with "Perception" when the race grants it. */
  lemma ProficientSkillsSpec(race: Option<Race>, background: Option<Background>, choices: seq<string>)
    ensures var r := ProficientSkills(race, background, choices);
      && NoDup(r)
      && (forall s :: s in r <==>
            (s == "Perception" && race.Some? && race.value.GrantsPerception())
            || (background.Some? && s in background.value.skillProficiencies)
            || s in choices)
      && (race.Some? && race.value.GrantsPerception() ==> |r| > 0 && r[0] == "Perception")
  {
    var all := SkillContributions(race, background, choices);
    DedupeSpec(all);
    if race.Some? && race.value.GrantsPerception() {
      DedupePrefix(all, 1);
      assert all[..1] == ["Perception"];
      assert Dedupe(all[..1]) == ["Perception"];
    }
  }

  /** Perception from the race, Stealth and
      Deception from the background, Perception and Arcana chosen. */
  lemma ProficientSkillsExample(race: Race, background: Background)
    requires race.GrantsPerception()
    requires background.skillProficiencies == ["Stealth", "Deception"]
    ensures ProficientSkills(Some(race), Some(background), ["Perception", "Arcana"])
         == ["Perception", "Stealth", "Deception", "Arcana"]
  {
    var p, st, de, ar := "Perception", "Stealth", "Deception", "Arcana";
    assert p != st && p != de && p != ar && st != de && st != ar && de != ar;
    assert SkillContributions(Some(race), Some(background), [p, ar]) == [p, st, de, p, ar];
    DedupeRepeatedFirst(p, st, de, ar);
  }

  /** A repeat of the first value is dropped, the rest keep their order. */
  lemma DedupeRepeatedFirst<T>(p: T, st: T, de: T, ar: T)
    requires p != st && p != de && p != ar && st != de && st != ar && de != ar
    ensures Dedupe([p, st, de, p, ar]) == [p, st, de, ar]
  {
    var a := [p, st, de];
    DedupeOfDistinct(a);
    var b := a + [p];
    DedupeSnoc(a, p);
    assert p in a;
    DedupeSnoc(b, ar);
    assert ar !in a;
    assert b + [ar] == [p, st, de, p, ar];
    assert a + [ar] == [p, st, de, ar];
  }

  function DerivedProficiencyBonus(d: CharacterData, common: CommonGameData): int
  {
    if Truthy(d.proficiencyBonus) then d.proficiencyBonus.value else common.proficiencyBonusLevel1
  }

  /** One run of the derived-statistics effect; without catalog defaults it does nothing. */
  function Recompute(d: CharacterData, choices: seq<string>, common: Option<CommonGameData>): CharacterData
  {
    if common.None? then d
    else
      var final := FinalScores(d.abilityScores, RacialBonuses(d.race));
      d.(finalAbilityScores := final,
         hitPoints := Some(DerivedHitPoints(d, final)),
         armorClass := Some(DerivedArmorClass(d, final)),
         proficientSavingThrows := DerivedSavingThrows(d),
         proficientSkills := ProficientSkills(d.race, d.background, choices),
         proficiencyBonus := Some(DerivedProficiencyBonus(d, common.value)))
  }

  /** The pushes into the effect's local skill list. */
  method PushSkills(race: Option<Race>, background: Option<Background>, choices: seq<string>)
    returns (all: seq<string>)
    ensures all == SkillContributions(race, background, choices)
  {
    all := [];
    if race.Some? && race.value.hasPerceptionTrait == Some(true) {
      all := all + ["Perception"];
    }
    if background.Some? {
      all := all + background.value.skillProficiencies;
    }
    all := all + choices;
  }

  /** The effect body. */
  method RecomputeDerived(d: CharacterData, choices: seq<string>, common: Option<CommonGameData>)
    returns (r: CharacterData)
    ensures r == Recompute(d, choices, common)
  {
    if common.None? {
      return d;
    }
    var final := CalculateFinalAbilityScores(d.abilityScores, if d.race.Some? then Some(d.race.value.bonuses) else None);
    var hp := if d.charClass.Some? then d.charClass.value.hitDie + AbilityModifier(final.constitution)
              else if d.hitPoints.Some? then d.hitPoints.value else 0;
    if d.race.Some? && Contains(Lower(d.race.value.name), "hill dwarf") {
      hp := hp + d.level;
    }
    var ac := if d.armorClass.Some? && d.armorClass.value != 0 then d.armorClass.value
              else 10 + AbilityModifier(final.dexterity);
    var saves := if d.charClass.Some? then d.charClass.value.savingThrows else d.proficientSavingThrows;
    var all := PushSkills(d.race, d.background, choices);
    var skills := UniqueInOrder(all);
    var pb := if d.proficiencyBonus.Some? && d.proficiencyBonus.value != 0 then d.proficiencyBonus.value
              else common.value.proficiencyBonusLevel1;
    assert final == FinalScores(d.abilityScores, RacialBonuses(d.race));
    assert hp == DerivedHitPoints(d, final);
    assert ac == DerivedArmorClass(d, final);
    assert saves == DerivedSavingThrows(d);
    assert skills == ProficientSkills(d.race, d.background, choices);
    assert pb == DerivedProficiencyBonus(d, common.value);
    r := d.(finalAbilityScores := final, hitPoints := Some(hp), armorClass := Some(ac),
            proficientSavingThrows := saves, proficientSkills := skills, proficiencyBonus := Some(pb));
  }

  /** Only the six derived fields change; identity, selections, raw scores,
      level, backstory and the rest are kept. */
  lemma RecomputeKeepsInputs(d: CharacterData, choices: seq<string>, common: Option<CommonGameData>)
    ensures var r := Recompute(d, choices, common);
      r.(finalAbilityScores := d.finalAbilityScores, hitPoints := d.hitPoints, armorClass := d.armorClass,
         proficientSavingThrows := d.proficientSavingThrows, proficientSkills := d.proficientSkills,
         proficiencyBonus := d.proficiencyBonus) == d
  {
  }

  /** Final scores are raw plus bonus for each ability (plain raw without a race),
      and the skills are the de-duplicated union. */
  lemma RecomputeScoresAndSkills(d: CharacterData, choices: seq<string>, common: CommonGameData)
    ensures var r := Recompute(d, choices, Some(common));
      && (d.race.Some? ==> forall a :: r.finalAbilityScores.Get(a) == d.abilityScores.Get(a) + BonusOf(d.race.value.bonuses, a))
      && (d.race.None? ==> r.finalAbilityScores == d.abilityScores)
      && NoDup(r.proficientSkills)
      && (forall s :: s in r.proficientSkills <==> s in SkillContributions(d.race, d.background, choices))
  {
    DedupeSpec(SkillContributions(d.race, d.background, choices));
  }

  /** With a class, hit points are the hit die plus the Constitution modifier of the
      final scores, plus the level for a hill dwarf, whatever the previous value was. */
  lemma HitPointsWithClass(d: CharacterData, choices: seq<string>, common: CommonGameData)
    requires d.charClass.Some?
    ensures var r := Recompute(d, choices, Some(common));
      r.hitPoints == Some(d.charClass.value.hitDie + AbilityModifier(r.finalAbilityScores.constitution)
                          + (if IsHillDwarf(d.race) then d.level else 0))
    ensures forall hp :: Recompute(d.(hitPoints := hp), choices, Some(common)).hitPoints
                      == Recompute(d, choices, Some(common)).hitPoints
  {
  }

  /** Without a class, every run adds the level again for a hill dwarf. */
  lemma HitPointsDriftWithoutClass(d: CharacterData, choices: seq<string>, common: CommonGameData)
    requires d.charClass.None? && IsHillDwarf(d.race)
    ensures var r1 := Recompute(d, choices, Some(common));
      var r2 := Recompute(r1, choices, Some(common));
      r1.hitPoints == Some(OrZero(d.hitPoints) + d.level)
      && r2.hitPoints == Some(OrZero(d.hitPoints) + 2 * d.level)
  {
  }

  /** A set, non-zero armor class is kept whatever the scores are. */
  lemma ArmorClassSticky(d: CharacterData, choices: seq<string>, common: CommonGameData)
    requires Truthy(d.armorClass)
    ensures Recompute(d, choices, Some(common)).armorClass == d.armorClass
    ensures forall s :: Recompute(d.(abilityScores := s), choices, Some(common)).armorClass == d.armorClass
  {
  }

  /** Re-running the recomputation changes nothing, except in one case: no class,
      a hill-dwarf race and a non-zero level, where the hit points grow again. */
  lemma RecomputeIdempotentIff(d: CharacterData, choices: seq<string>, common: CommonGameData)
    ensures var r1 := Recompute(d, choices, Some(common));
      Recompute(r1, choices, Some(common)) == r1 <==> !(d.charClass.None? && IsHillDwarf(d.race) && d.level != 0)
  {
    var r1 := Recompute(d, choices, Some(common));
    var r2 := Recompute(r1, choices, Some(common));
    assert r2.finalAbilityScores == r1.finalAbilityScores;
    assert r2.armorClass == r1.armorClass;
    assert r2.proficiencyBonus == r1.proficiencyBonus;
    assert r2.proficientSavingThrows == r1.proficientSavingThrows;
    if d.charClass.None? && IsHillDwarf(d.race) && d.level != 0 {
      assert r2.hitPoints.value == r1.hitPoints.value + d.level;
    } else {
      assert r2.hitPoints == r1.hitPoints;
    }
  }

  /** The catalog-independent part of the creator: with no catalog defaults the
      recomputation leaves the record alone. */
  lemma RecomputeWithoutCommonData(d: CharacterData, choices: seq<string>)
    ensures Recompute(d, choices, None) == d
  {
  }

  /** The first run on a fresh record with zero scores (no race) fixes the armor
      class at 5, and assigning any scores afterwards leaves it at 5. */
  lemma FreshArmorClassIsFrozen(id: string, common: CommonGameData, scores: AbilityScores, choices: seq<string>)
    requires common.defaultAbilityScores == Uniform(0)
    ensures var r1 := Recompute(InitialDraft(id, Some(common)), [], Some(common));
      r1.armorClass == Some(5)
      && Recompute(r1.(abilityScores := scores), choices, Some(common)).armorClass == Some(5)
  {
  }

  /** The merged hill-dwarf race of the catalog is recognised by its name. */
  lemma HillDwarfName(race: Race)
    requires race.name == "Dwarf (Hill Dwarf)"
    ensures IsHillDwarf(Some(race))
  {
    var lowered := Lower(race.name);
    var target := "hill dwarf";
    forall k | 0 <= k < 10
      ensures lowered[7 + k] == target[k]
    {
      assert race.name[7 + k] == "Hill Dwarf"[k];
    }
    assert lowered[7..17] == target;
    ContainsSpec(lowered, target);
    assert OccursAt(lowered, target, 7);
  }

  /** A level-5 hill dwarf with a class gets five more hit points. */
  lemma HillDwarfLevelFiveExample(d: CharacterData, common: CommonGameData)
    requires d.charClass.Some? && d.level == 5 && d.race.Some? && d.race.value.name == "Dwarf (Hill Dwarf)"
    ensures var r := Recompute(d, [], Some(common));
      r.hitPoints == Some(d.charClass.value.hitDie + AbilityModifier(r.finalAbilityScores.constitution) + 5)
  {
    HillDwarfName(d.race.value);
    HitPointsWithClass(d, [], common);
  }
}
