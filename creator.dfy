/** The seven-step creation wizard: the draft character, the current step,
    the score-assignment method, the chosen class skills and the base race
    waiting for a subrace pick, with the handlers that change them and the
    gates that stop the wizard from advancing or saving. */
module Creator {
  import opened Types
  import opened Seqs
  import opened Constants
  import opened Derivation

  const TotalCreationSteps: int := 7

  /** Why a step change or a save is refused. */
  datatype GateError =
    | NoRace                 // step 1 without a race
    | ScoresNotAssigned      // standard array values left to assign
    | ManualOutOfRange       // a manual score outside 3..18, or 0
    | PointBuyOutOfRange     // a point-buy score outside 8..15
    | TooFewSkills           // fewer class skills chosen than the class grants
    | IncompleteSelections   // saving without race, class or background

  // ---------------------------------------------------------------------
  // Gates

  /** The manual-entry test, as written: not below the minimum, not above the
      maximum, and not zero ("not entered"). */
  predicate ManualScoreOk(s: int)
  {
    !(s < ManualRoll.minScore || s > ManualRoll.maxScore || s == 0)
  }

  predicate PointBuyScoreOk(s: int)
  {
    !(s < PointBuy.minScore || s > PointBuy.maxScore)
  }

  /** The zero test is subsumed by the range; the boundary scores pass. */
  lemma ScoreRanges(s: int)
    ensures ManualScoreOk(s) <==> 3 <= s <= 18
    ensures PointBuyScoreOk(s) <==> 8 <= s <= 15
    ensures ManualScoreOk(3) && ManualScoreOk(18) && !ManualScoreOk(2) && !ManualScoreOk(19) && !ManualScoreOk(0)
    ensures PointBuyScoreOk(8) && PointBuyScoreOk(15) && !PointBuyScoreOk(7) && !PointBuyScoreOk(16)
  {
  }

  /** The score checks of step 3, shared by the save handler. */
  function ScoreGate(m: AssignmentMethod, d: CharacterData): Option<GateError>
  {
    if m == StandardArray && |d.availableScores| > 0 then Some(ScoresNotAssigned)
    else if m == ManualRoll && exists v | v in d.abilityScores.Values() :: !ManualScoreOk(v) then Some(ManualOutOfRange)
    else if m == PointBuy && exists v | v in d.abilityScores.Values() :: !PointBuyScoreOk(v) then Some(PointBuyOutOfRange)
    else None
  }

  /** The score gate passes exactly when the standard array is used up, or every
      manual score lies in 3..18, or every point-buy score lies in 8..15. */
  lemma ScoreGateSpec(m: AssignmentMethod, d: CharacterData)
    ensures ScoreGate(m, d).None? <==>
      match m
      case StandardArray => d.availableScores == []
      case ManualRoll => forall a :: 3 <= d.abilityScores.Get(a) <= 18
      case PointBuy => forall a :: 8 <= d.abilityScores.Get(a) <= 15
  {
    var vs := d.abilityScores.Values();
    AbilityNamesExact();
    forall a
      ensures d.abilityScores.Get(a) in vs
    {
      assert a in AbilityNames;
      var j :| 0 <= j < |AbilityNames| && AbilityNames[j] == a;
      assert vs[j] == d.abilityScores.Get(a);
    }
    forall v | v in vs
      ensures exists a :: v == d.abilityScores.Get(a)
    {
      var j :| 0 <= j < 6 && vs[j] == v;
      assert v == d.abilityScores.Get(AbilityNames[j]);
    }
  }

  /** The checks `next` applies on the current step. */
  function StepGate(step: int, m: AssignmentMethod, d: CharacterData, choices: seq<string>): Option<GateError>
  {
    if step == 1 && d.race.None? then Some(NoRace)
    else if step == 3 && ScoreGate(m, d).Some? then ScoreGate(m, d)
    else if step == 4 && d.charClass.Some? && |choices| < d.charClass.value.skillChoose
            && d.charClass.value.skillChoose > 0 then Some(TooFewSkills)
    else None
  }

  /** Only steps 1, 3 and 4 can block, each for its own reason. */
  lemma StepGateSpec(step: int, m: AssignmentMethod, d: CharacterData, choices: seq<string>)
    ensures step != 1 && step != 3 && step != 4 ==> StepGate(step, m, d, choices).None?
    ensures StepGate(1, m, d, choices).None? <==> d.race.Some?
    ensures StepGate(3, m, d, choices) == ScoreGate(m, d)
    ensures StepGate(4, m, d, choices).None? <==>
              (d.charClass.None? || |choices| >= d.charClass.value.skillChoose)
  {
  }

  /** The save checks: the three selections, then the step-3 score checks. */
  function SaveGate(m: AssignmentMethod, d: CharacterData): Option<GateError>
  {
    if d.race.None? || d.charClass.None? || d.background.None? then Some(IncompleteSelections)
    else ScoreGate(m, d)
  }

  /** A save passes exactly when the selections are complete and step 3 would
      let the wizard through; the skill count of step 4 is not re-checked. */
  lemma SaveGateSpec(m: AssignmentMethod, d: CharacterData, choices: seq<string>)
    ensures SaveGate(m, d).None? <==>
              d.race.Some? && d.charClass.Some? && d.background.Some? && StepGate(3, m, d, choices).None?
    ensures SaveGate(m, d).None? ==> StepGate(1, m, d, choices).None?
    ensures (d.race.Some? && d.charClass.Some? && d.background.Some? && d.charClass.value.skillChoose > 0
             && ScoreGate(m, d).None?) ==> SaveGate(m, d).None? && StepGate(4, m, d, []).Some?
  {
  }

  /** `Math.min(s + 1, 7)` and `Math.max(s - 1, 1)`. */
  function StepForward(step: int): int
  {
    if step + 1 < TotalCreationSteps then step + 1 else TotalCreationSteps
  }

  function StepBack(step: int): int
  {
    if step - 1 > 1 then step - 1 else 1
  }

  lemma StepBounds(step: int)
    requires 1 <= step <= TotalCreationSteps
    ensures 1 <= StepForward(step) <= TotalCreationSteps && 1 <= StepBack(step) <= TotalCreationSteps
    ensures step < TotalCreationSteps ==> StepForward(step) == step + 1
    ensures step == TotalCreationSteps ==> StepForward(step) == step
    ensures step > 1 ==> StepBack(step) == step - 1
  {
  }

  // ---------------------------------------------------------------------
  // Class-skill choices

  /** Removes a chosen skill; adds an unchosen one while there is room. */
  function ToggleChoice(choices: seq<string>, skill: string, choose: int): seq<string>
  {
    if skill in choices then Filter(choices, (s: string) => s != skill)
    else if |choices| < choose then choices + [skill]
    else choices
  }

  /** No duplicates and no more than the class grants; an empty selection always
      fits, whatever the class's count. */
  ghost predicate ChoicesFit(choices: seq<string>, choose: int)
  {
    NoDup(choices) && (choices == [] || |choices| <= choose)
  }

  /** A toggle removes the skill when chosen, adds it at the end when there is
      room, else changes nothing; the selection keeps fitting the class. */
  lemma ToggleChoiceSpec(choices: seq<string>, skill: string, choose: int)
    requires ChoicesFit(choices, choose)
    ensures var r := ToggleChoice(choices, skill, choose);
      && ChoicesFit(r, choose)
      && (skill in choices ==> skill !in r && (forall s :: s in r <==> s in choices && s != skill))
      && (skill !in choices && |choices| < choose ==> r == choices + [skill])
      && (skill !in choices && |choices| >= choose ==> r == choices)
  {
    var r := ToggleChoice(choices, skill, choose);
    if skill in choices {
      FilterDropsOne(choices, skill);
    }
  }

  /** Choosing a skill and then un-choosing it restores the selection. */
  lemma ToggleTwice(choices: seq<string>, skill: string, choose: int)
    requires skill !in choices && |choices| < choose
    ensures ToggleChoice(ToggleChoice(choices, skill, choose), skill, choose) == choices
  {
    var keep := (s: string) => s != skill;
    FilterConcat(choices, [skill], keep);
    FilterAllKept(choices, keep);
    assert Filter([skill], keep) == [];
  }

  /** Dropping one value from a duplicate-free list: what is left is smaller and
      holds exactly the other values. */
  lemma {:induction false} FilterDropsOne(s: seq<string>, x: string)
    requires NoDup(s)
    ensures var r := Filter(s, (t: string) => t != x);
      NoDup(r) && |r| <= |s| && (x in s ==> |r| < |s|) && (forall t :: t in r <==> t in s && t != x)
    decreases |s|
  {
    if |s| > 0 {
      FilterDropsOne(s[1..], x);
      var rest := Filter(s[1..], (t: string) => t != x);
      assert forall t :: t in s[1..] ==> t != s[0];
      assert x in s ==> x == s[0] || x in s[1..];
    }
  }

  // ---------------------------------------------------------------------
  // Draft edits from the detail step

  /** The free-form fields of step 6. */
  datatype DetailEdit = SetName(name: string) | SetImageUrl(url: string) | SetAlignment(alignment: string) | SetBackstory(text: string)

  function ApplyEdit(d: CharacterData, e: DetailEdit): CharacterData
  {
    match e
    case SetName(n) => d.(name := n)
    case SetImageUrl(u) => d.(imageUrl := Some(u))
    case SetAlignment(a) => d.(alignment := Some(a))
    case SetBackstory(t) => d.(backstory := t)
  }

  // ---------------------------------------------------------------------
  // The wizard

  class Wizard {
    const commonData: Option<CommonGameData>
    var step: int
    var assignmentMethod: AssignmentMethod
    var draft: CharacterData
    var skillChoices: seq<string>
    var pendingBaseRace: Option<Race>

    /** The step stays in 1..7, the skill choices fit the class (and are empty
        without one), and a pending base race has subraces and no race is set. */
    ghost predicate Valid()
      reads this
    {
      && 1 <= step <= TotalCreationSteps
      && (draft.charClass.None? ==> skillChoices == [])
      && (draft.charClass.Some? ==> ChoicesFit(skillChoices, draft.charClass.value.skillChoose))
      && (pendingBaseRace.Some? ==> draft.race.None? && pendingBaseRace.value.HasSubraces())
    }

    constructor(id: string, common: Option<CommonGameData>)
      ensures Valid()
      ensures commonData == common && draft == InitialDraft(id, common)
      ensures step == 1 && assignmentMethod == StandardArray && skillChoices == [] && pendingBaseRace.None?
    {
      commonData := common;
      draft := InitialDraft(id, common);
      step := 1;
      assignmentMethod := StandardArray;
      skillChoices := [];
      pendingBaseRace := None;
    }

    /** A race with subraces waits for the subrace pick and clears the draft's
        race; any other race is taken at once. */
    method SelectRace(race: Race)
      requires Valid()
      modifies this
      ensures Valid()
      ensures race.HasSubraces() ==> pendingBaseRace == Some(race) && draft == old(draft).(race := None)
      ensures !race.HasSubraces() ==> pendingBaseRace.None? && draft == old(draft).(race := Some(race))
      ensures step == old(step) && assignmentMethod == old(assignmentMethod) && skillChoices == old(skillChoices)
    {
      if race.subraces.Some? && |race.subraces.value| > 0 {
        pendingBaseRace := Some(race);
        draft := draft.(race := None);
      } else {
        draft := draft.(race := Some(race));
        pendingBaseRace := None;
      }
    }

    /** Merges the pending base race with the subrace; without one nothing happens. */
    method SelectSubrace(sub: Subrace)
      requires Valid()
      modifies this
      ensures Valid()
      ensures old(pendingBaseRace).Some? ==>
                draft == old(draft).(race := Some(MergeRace(old(pendingBaseRace).value, sub))) && pendingBaseRace.None?
      ensures old(pendingBaseRace).None? ==> draft == old(draft) && pendingBaseRace.None?
      ensures step == old(step) && assignmentMethod == old(assignmentMethod) && skillChoices == old(skillChoices)
    {
      if pendingBaseRace.Some? {
        var merged := MergeRaceAndSubrace(pendingBaseRace.value, sub);
        draft := draft.(race := Some(merged));
        pendingBaseRace := None;
      }
    }

    /** "Back to Races" from the subrace list. */
    method CancelSubraceChoice()
      requires Valid()
      modifies this
      ensures Valid()
      ensures pendingBaseRace.None? && draft == old(draft) && step == old(step)
      ensures assignmentMethod == old(assignmentMethod) && skillChoices == old(skillChoices)
    {
      pendingBaseRace := None;
    }

    /** Picking a class also clears the chosen class skills. */
    method SelectClass(c: CharClass)
      requires Valid()
      modifies this
      ensures Valid()
      ensures draft == old(draft).(charClass := Some(c)) && skillChoices == []
      ensures step == old(step) && assignmentMethod == old(assignmentMethod) && pendingBaseRace == old(pendingBaseRace)
    {
      draft := draft.(charClass := Some(c));
      skillChoices := [];
    }

    method SelectBackground(b: Background)
      requires Valid()
      modifies this
      ensures Valid()
      ensures draft == old(draft).(background := Some(b))
      ensures step == old(step) && assignmentMethod == old(assignmentMethod)
      ensures skillChoices == old(skillChoices) && pendingBaseRace == old(pendingBaseRace)
    {
      draft := draft.(background := Some(b));
    }

    /** The allocator's report: new raw scores and the standard values still unassigned. */
    method UpdateAbilityScores(scores: AbilityScores, remaining: seq<int>)
      requires Valid()
      modifies this
      ensures Valid()
      ensures draft == old(draft).(abilityScores := scores, availableScores := remaining)
      ensures step == old(step) && assignmentMethod == old(assignmentMethod)
      ensures skillChoices == old(skillChoices) && pendingBaseRace == old(pendingBaseRace)
    {
      draft := draft.(abilityScores := scores, availableScores := remaining);
    }

    /** Switching method resets the six raw scores to that method's defaults and
        offers the sorted standard array only for the standard-array method;
        without catalog defaults nothing changes, not even the method. */
    method ChangeAssignmentMethod(m: AssignmentMethod)
      requires Valid()
      modifies this
      ensures Valid()
      ensures commonData.None? ==> assignmentMethod == old(assignmentMethod) && draft == old(draft)
      ensures commonData.Some? ==> assignmentMethod == m && draft == old(draft).(
                abilityScores := MethodDefaults(m, commonData.value),
                availableScores := if m == StandardArray then SortDesc(commonData.value.standardArrayScores) else [])
      ensures step == old(step) && skillChoices == old(skillChoices) && pendingBaseRace == old(pendingBaseRace)
    {
      if commonData.None? {
        return;
      }
      assignmentMethod := m;
      var scores: AbilityScores;
      var available: seq<int> := [];
      if m == StandardArray {
        scores := commonData.value.defaultAbilityScores;
        available := SortDesc(commonData.value.standardArrayScores);
      } else if m == PointBuy {
        scores := DefaultScoresForPointBuy;
      } else {
        scores := DefaultScoresForManualRoll;
      }
      draft := draft.(abilityScores := scores, availableScores := available);
    }

    /** Toggles a class skill; without a class nothing happens. */
    method ToggleSkill(skill: string)
      requires Valid()
      modifies this
      ensures Valid()
      ensures draft.charClass.None? ==> skillChoices == old(skillChoices)
      ensures draft.charClass.Some? ==>
                skillChoices == ToggleChoice(old(skillChoices), skill, draft.charClass.value.skillChoose)
      ensures draft == old(draft) && step == old(step) && assignmentMethod == old(assignmentMethod)
      ensures pendingBaseRace == old(pendingBaseRace)
    {
      if draft.charClass.None? {
        return;
      }
      var choose := draft.charClass.value.skillChoose;
      ToggleChoiceSpec(skillChoices, skill, choose);
      skillChoices := ToggleChoice(skillChoices, skill, choose);
    }

    method EditDetail(e: DetailEdit)
      requires Valid()
      modifies this
      ensures Valid()
      ensures draft == ApplyEdit(old(draft), e)
      ensures step == old(step) && assignmentMethod == old(assignmentMethod)
      ensures skillChoices == old(skillChoices) && pendingBaseRace == old(pendingBaseRace)
    {
      draft := ApplyEdit(draft, e);
    }

    /** Moves one step forward unless the current step's gate blocks. */
    method NextStep() returns (blocked: Option<GateError>)
      requires Valid()
      modifies this
      ensures Valid()
      ensures blocked == StepGate(old(step), assignmentMethod, draft, skillChoices)
      ensures step == if blocked.None? then StepForward(old(step)) else old(step)
      ensures draft == old(draft) && assignmentMethod == old(assignmentMethod)
      ensures skillChoices == old(skillChoices) && pendingBaseRace == old(pendingBaseRace)
    {
      blocked := StepGate(step, assignmentMethod, draft, skillChoices);
      if blocked.None? {
        step := StepForward(step);
      }
    }

    /** Moves one step back; on step 1 the wizard is reset and left (`true`). */
    method PrevStep(newId: string) returns (leftWizard: bool)
      requires Valid()
      modifies this
      ensures Valid()
      ensures leftWizard == (old(step) == 1)
      ensures old(step) > 1 ==> step == old(step) - 1 && draft == old(draft) && skillChoices == old(skillChoices)
                                && assignmentMethod == old(assignmentMethod) && pendingBaseRace == old(pendingBaseRace)
      ensures old(step) == 1 ==> WasReset(newId)
    {
      if step == 1 {
        Reset(newId);
        leftWizard := true;
      } else {
        step := StepBack(step);
        leftWizard := false;
      }
    }

    /** The state after a reset; a reset without catalog defaults changes nothing. */
    twostate predicate WasReset(newId: string)
      reads this
    {
      if commonData.Some? then
        draft == InitialDraft(newId, commonData) && step == 1 && assignmentMethod == StandardArray
        && skillChoices == [] && pendingBaseRace.None?
      else
        draft == old(draft) && step == old(step) && assignmentMethod == old(assignmentMethod)
        && skillChoices == old(skillChoices) && pendingBaseRace == old(pendingBaseRace)
    }

    method Reset(newId: string)
      requires Valid()
      modifies this
      ensures Valid()
      ensures WasReset(newId)
    {
      if commonData.None? {
        return;
      }
      draft := InitialDraft(newId, commonData);
      skillChoices := [];
      pendingBaseRace := None;
      assignmentMethod := StandardArray;
      step := 1;
    }

    /** One run of the derived-statistics recomputation on the draft. */
    method Refresh()
      requires Valid()
      modifies this
      ensures Valid()
      ensures draft == Recompute(old(draft), skillChoices, commonData)
      ensures step == old(step) && assignmentMethod == old(assignmentMethod)
      ensures skillChoices == old(skillChoices) && pendingBaseRace == old(pendingBaseRace)
    {
      draft := RecomputeDerived(draft, skillChoices, commonData);
    }
  }

  /** The raw scores a method starts from. */
  function MethodDefaults(m: AssignmentMethod, common: CommonGameData): (s: AbilityScores)
    ensures m == PointBuy ==> forall a :: s.Get(a) == PointBuy.baseScore && PointBuyScoreOk(s.Get(a))
    ensures m == ManualRoll ==> forall a :: s.Get(a) == ManualRoll.defaultScore && ManualScoreOk(s.Get(a))
    ensures m == StandardArray ==> s == common.defaultAbilityScores
  {
    match m
    case StandardArray => common.defaultAbilityScores
    case PointBuy => DefaultScoresForPointBuy
    case ManualRoll => DefaultScoresForManualRoll
  }

  /** Right after a method change the step-3 gate passes for point buy and manual
      entry, and blocks for a non-empty standard array. */
  lemma FreshMethodPassesGate(m: AssignmentMethod, d: CharacterData, common: CommonGameData)
    ensures m == PointBuy || m == ManualRoll ==>
              ScoreGate(m, d.(abilityScores := MethodDefaults(m, common), availableScores := [])).None?
    ensures m == StandardArray && |common.standardArrayScores| > 0 ==>
              ScoreGate(m, d.(abilityScores := MethodDefaults(m, common),
                              availableScores := SortDesc(common.standardArrayScores))) == Some(ScoresNotAssigned)
  {
    var d2 := d.(abilityScores := MethodDefaults(m, common), availableScores := []);
    ScoreGateSpec(m, d2);
    SortDescSpec(common.standardArrayScores);
    if m == StandardArray && |common.standardArrayScores| > 0 {
      assert common.standardArrayScores[0] in multiset(common.standardArrayScores);
    }
  }
}
