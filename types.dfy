/** The data shapes of the character creator: abilities and score sets,
    races, subraces, classes, backgrounds, the character record and the
    catalog's common defaults. Optional fields of the records become
    `Option` values; a partial bonus map is a `map` whose missing keys are
    simply absent. */
module Types {

  datatype Option<+T> = None | Some(value: T)

  /** The six abilities, in their declared order. */
  datatype Ability = Strength | Dexterity | Constitution | Intelligence | Wisdom | Charisma

  /** The list of ability names the score loops iterate over. */
  const AbilityNames: seq<Ability> := [Strength, Dexterity, Constitution, Intelligence, Wisdom, Charisma]

  /** The string value of each enum member. */
  function AbilityName(a: Ability): string
  {
    match a
    case Strength => "Strength"
    case Dexterity => "Dexterity"
    case Constitution => "Constitution"
    case Intelligence => "Intelligence"
    case Wisdom => "Wisdom"
    case Charisma => "Charisma"
  }

  lemma AbilityNamesExact()
    ensures |AbilityNames| == 6
    ensures forall a :: a in AbilityNames
    ensures forall i, j :: 0 <= i < j < |AbilityNames| ==> AbilityNames[i] != AbilityNames[j]
    ensures forall a, b :: AbilityName(a) == AbilityName(b) ==> a == b
  {
    forall a
      ensures a in AbilityNames
    {
      match a
      case Strength => assert AbilityNames[0] == a;
      case Dexterity => assert AbilityNames[1] == a;
      case Constitution => assert AbilityNames[2] == a;
      case Intelligence => assert AbilityNames[3] == a;
      case Wisdom => assert AbilityNames[4] == a;
      case Charisma => assert AbilityNames[5] == a;
    }
  }

  /** One number per ability. */
  datatype AbilityScores = AbilityScores(
    strength: int, dexterity: int, constitution: int,
    intelligence: int, wisdom: int, charisma: int)
  {
    function Get(a: Ability): int
    {
      match a
      case Strength => strength
      case Dexterity => dexterity
      case Constitution => constitution
      case Intelligence => intelligence
      case Wisdom => wisdom
      case Charisma => charisma
    }

    /** The record with one ability replaced, as `scores[ability] = v` does. */
    function Set(a: Ability, v: int): (r: AbilityScores)
      ensures r.Get(a) == v
      ensures forall b :: b != a ==> r.Get(b) == Get(b)
    {
      match a
      case Strength => this.(strength := v)
      case Dexterity => this.(dexterity := v)
      case Constitution => this.(constitution := v)
      case Intelligence => this.(intelligence := v)
      case Wisdom => this.(wisdom := v)
      case Charisma => this.(charisma := v)
    }

    /** `Object.values(scores)`: the six values in declared order. */
    function Values(): (vs: seq<int>)
      ensures |vs| == 6
      ensures forall i :: 0 <= i < 6 ==> vs[i] == Get(AbilityNames[i])
    {
      [strength, dexterity, constitution, intelligence, wisdom, charisma]
    }
  }

  /** Two score sets that agree on every ability are the same record. */
  lemma ScoresExtensional(x: AbilityScores, y: AbilityScores)
    requires forall a :: x.Get(a) == y.Get(a)
    ensures x == y
  {
    assert x.Get(Strength) == y.Get(Strength) && x.Get(Dexterity) == y.Get(Dexterity);
    assert x.Get(Constitution) == y.Get(Constitution) && x.Get(Intelligence) == y.Get(Intelligence);
    assert x.Get(Wisdom) == y.Get(Wisdom) && x.Get(Charisma) == y.Get(Charisma);
  }

  /** The same score for all six abilities. */
  function Uniform(v: int): (r: AbilityScores)
    ensures forall a :: r.Get(a) == v
  {
    AbilityScores(v, v, v, v, v, v)
  }

  /** `Partial<AbilityScores>`: only the abilities that carry a bonus are keys. */
  type BonusMap = map<Ability, int>

  /** `bonuses[ability] || 0`. */
  function BonusOf(m: BonusMap, a: Ability): int
  {
    if a in m then m[a] else 0
  }

  /** Provenance of races, classes and backgrounds. */
  datatype Provenance = Base | UserAi

  /** Provenance of characters and bestiary entries. */
  datatype CharacterProvenance = FromBase | FromUserAi | PcGalleryAi | BestiaryAi

  datatype Subrace = Subrace(
    name: string,
    description: Option<string>,
    bonuses: BonusMap,
    traits: seq<string>)

  datatype Race = Race(
    name: string,
    description: string,
    bonuses: BonusMap,
    traits: seq<string>,
    icon: Option<string>,
    subraces: Option<seq<Subrace>>,
    hasPerceptionTrait: Option<bool>,
    source: Option<Provenance>)
  {
    /** `race.subraces && race.subraces.length > 0`. */
    predicate HasSubraces()
    {
      subraces.Some? && |subraces.value| > 0
    }

    /** Truthiness of `hasPerceptionProficiencyTrait`. */
    predicate GrantsPerception()
    {
      hasPerceptionTrait == Some(true)
    }
  }

  datatype Feature = Feature(name: string, description: string)

  datatype CharClass = CharClass(
    name: string,
    description: string,
    hitDie: int,
    savingThrows: seq<Ability>,
    skillChoose: int,
    skillOptions: seq<string>,
    armorProficiencies: seq<string>,
    weaponProficiencies: seq<string>,
    features: Option<seq<Feature>>,
    icon: Option<string>,
    source: Option<Provenance>)

  datatype Background = Background(
    name: string,
    description: string,
    skillProficiencies: seq<string>,
    toolsOrLanguages: seq<string>,
    equipment: seq<string>,
    feature: Feature,
    icon: Option<string>,
    source: Option<Provenance>)

  /** The character record (a player character, or a bestiary entry). */
  datatype CharacterData = CharacterData(
    id: string,
    name: string,
    race: Option<Race>,
    charClass: Option<CharClass>,
    abilityScores: AbilityScores,
    finalAbilityScores: AbilityScores,
    alignment: Option<string>,
    background: Option<Background>,
    level: int,
    hitPoints: Option<int>,
    armorClass: Option<int>,
    proficiencyBonus: Option<int>,
    proficientSkills: seq<string>,
    proficientSavingThrows: seq<Ability>,
    backstory: string,
    availableScores: seq<int>,
    imageUrl: Option<string>,
    source: Option<CharacterProvenance>)

  /** The numeric defaults of the catalog; `defaultAbilityScores` is meant to
      be all zeros ("unassigned"), which the catalog file, not the code, decides. */
  datatype CommonGameData = CommonGameData(
    defaultAbilityScores: AbilityScores,
    standardArrayScores: seq<int>,
    proficiencyBonusLevel1: int)

  datatype AssignmentMethod = StandardArray | PointBuy | ManualRoll

  lemma ThreeAssignmentMethods(m: AssignmentMethod)
    ensures m == StandardArray || m == PointBuy || m == ManualRoll
  {
  }
}
