# HeroForge character creator — a Dafny model

HeroForge is a Dungeons & Dragons character builder. The player picks a race and
possibly a subrace, a class and a background, then assigns six ability scores by one
of three methods (standard array, point buy, manual entry). The player also chooses
class skills and fills in a name, a picture, an alignment and a backstory. The
application derives the final scores, hit points, armor class, saving throws,
proficiency bonus and skill list, and keeps a gallery of finished characters. It also
keeps catalogs of generated races, classes and backgrounds, and a bestiary.

There are two versions of the application, and both are modelled:

- **Desktop version** (`src/App.tsx` with `electron/main.ts`). It writes every record
  to a per-kind directory of JSON files. A file is named after the record's key,
  sanitised.
- **Browser version** (`App.tsx`). It has the same wizard and the same derivation. A
  save there is a download, and the session lists are appended to without any
  duplicate check.

The modules follow the source:

| module | file | models |
|---|---|---|
| `Types` | types.dfy | `types.ts`: the abilities and the records |
| `Constants` | constants.dfy | `constants.ts`: point-buy and manual-entry configuration |
| `Seqs` | seqs.dfy | the JavaScript idioms the handlers use: `[...new Set]`, `findIndex` with overwrite-or-append, `filter`, the descending sort, `toLowerCase` and `includes` |
| `Derivation` | derivation.dfy | the module-level helpers, the fresh record and the derived-statistics effect |
| `Creator` | creator.dfy | the wizard: step gates, skill toggling, method reset, class `Wizard` |
| `Records` | records.dfy | what the gallery handlers do to a record before keeping it, and the shape of an imported file |
| `FileStore` | filestore.dfy | `sanitizeFilename` and the save, load and delete handlers of `electron/main.ts`, as class `DataStore` over a map from kind to directory |
| `Gallery` | gallery.dfy | the desktop handlers, as class `Session` |
| `LegacyGallery` | legacy.dfy | the browser handlers, as class `LegacySession` |

Values are modelled as follows:

- Entities that are values become datatypes.
- Optional fields become `Option`.
- A partial bonus map becomes a `map<Ability, int>`.
- State the handlers change with React setters becomes the fields of a class.
- Each handler becomes a method whose postcondition states the whole new state. It is
  stated in terms of specification functions (`Recompute`, `Upsert`, `RemoveKey`,
  `MergeImported`, `AfterSave`, …), and the properties are proved about those
  functions as lemmas.

Loops in the source stay loops in the model:

- `CalculateFinalAbilityScores`
- `MergeBonuses`
- `UniqueInOrder` (the `Set` de-duplication)
- `DataStore.Load`

Each of these is proved equal to its specification function.

The two versions share the wizard. The race, score, method, skill, step and reset
handlers of `App.tsx` (lines 267-383) are identical to those of `src/App.tsx`
(lines 314-424). The same holds for the helpers and the effect: `App.tsx:22-51` and
`App.tsx:163-196` match `src/App.tsx:21-50` and `src/App.tsx:202-229`. So class
`Wizard` and module `Derivation` model both files, and the table cites the
`src/App.tsx` copy.

Behaviour of the code worth knowing, and where the model follows it:

- **The derived-statistics effect re-runs on its own output.** Its dependency list
  includes `hitPoints` and `armorClass`, which the effect itself sets. React therefore
  re-runs it until the record stops changing. `Derivation.RecomputeIdempotentIff`
  shows that one further run changes nothing, with exactly one exception: no class, a
  hill-dwarf race and a non-zero level. In that case every run adds the level to the
  hit points again (`Derivation.HitPointsDriftWithoutClass`), so the record never
  settles.
- **The armor class freezes.** It keeps any non-zero previous value. On a fresh
  record (zero scores, no race) the first run sets it to 5, and no later score
  assignment changes it (`Derivation.FreshArmorClassIsFrozen`).
- **A save does not re-check the skill count.** The save gate re-checks the
  selections and the step-3 score rules only. A save can therefore pass while step 4
  would still block (`Creator.SaveGateSpec`).
- **A desktop import de-duplicates only against the existing gallery.** Two records
  of the same file that share an id are both appended
  (`Records.MergeImportedKeepsInFileDuplicates`). The reported count includes records
  that were skipped.
- **A browser download never uses the fallback name for a blank name.** A name made
  only of whitespace becomes `_` rather than the fallback (`character` or
  `ai_character`): the fallback is used for the empty name only
  (`LegacyGallery.BlankNameFilename`).
- **Distinct keys can share a file.** For example, "a b" and "a_b" both become
  `a_b.json` (`FileStore.FileNameCollision`).

## Model

| member | source | states |
|---|---|---|
| Types.AbilityNamesExact | types.ts:90-99 | the ability list has six distinct entries, covers every ability, and the enum's string values are distinct |
| Types.ScoresExtensional | types.ts:2-9 | a score record is determined by its six values |
| Types.AbilityScores.Values | types.ts:2-9 | `Object.values` on scores gives the six values in declared order |
| Types.ThreeAssignmentMethods | types.ts:128 | there are exactly three assignment methods |
| Constants.CostTableDomain | constants.ts:14-26 | the point-buy cost table is defined exactly on 8..15, with cost 0 at 8 and 9 at 15 |
| Constants.CostsStrictlyIncrease | constants.ts:18-25 | costs rise by 1 per step up to 13 and by 2 for 14 and for 15, and are strictly increasing |
| Constants.ConfigurationFacts | constants.ts:12-36 | min = base = 8 < max = 15 and 27 total points; the manual range is 3..18 and contains the default 10 |
| Constants.DefaultScoresFacts | constants.ts:38-54 | the point-buy defaults are 8 everywhere at zero cost, the manual defaults 10 everywhere; both pass their own range check |
| Seqs.DedupeSpec | src/App.tsx:219 | the de-duplicated list has no repeats and holds exactly the input's elements |
| Seqs.DedupePrefix | src/App.tsx:40 | first-occurrence order: de-duplicating a prefix gives a prefix of the result |
| Seqs.DedupeIdempotent | src/App.tsx:219 | de-duplicating twice is de-duplicating once |
| Seqs.FindIndex | src/App.tsx:276 | the first index satisfying the predicate, or -1 when none does |
| Seqs.UpsertSpec | src/App.tsx:275-283 | overwrite-or-append: when the key exists the new element replaces exactly the first element with that key (later ones unchanged); otherwise it is appended; elements with other keys stay in place |
| Seqs.UpsertKeepsKeysUnique | src/App.tsx:275-283 | an upsert keeps keys unique, and afterwards every element with that key is the new one |
| Seqs.Filter | src/App.tsx:297 | the filtered list is no longer, holds only kept input elements and holds every kept input element |
| Seqs.FilterMultiset | src/App.tsx:297 | each kept value occurs in the result exactly as often as in the input, every other value not at all |
| Seqs.FilterConcat | src/App.tsx:297 | filtering distributes over concatenation, so the kept elements stay in input order |
| Seqs.RemoveKeySpec | src/App.tsx:297 | after removing a key no element has it, every element with another key remains as often as before, nothing is added, and a missing key changes nothing |
| Seqs.SortDescSpec | src/App.tsx:343 | the sort with comparator `b - a` yields a descending permutation of its input |
| Seqs.Lower | src/App.tsx:206 | lower-casing keeps the length and maps each character |
| Seqs.ContainsSpec | src/App.tsx:206 | `includes` holds exactly when the pattern occurs at some position |
| Derivation.AbilityModifier | src/App.tsx:21 | the modifier m is the floor of (score - 10) / 2: 2m <= score - 10 < 2m + 2 |
| Derivation.ModifierExamples | src/App.tsx:21 | 8 gives -1, 0 gives -5, 10 and 11 give 0, 15 gives 2, 20 gives 5 |
| Derivation.ModifierMonotone | src/App.tsx:21 | the modifier never decreases as the score grows |
| Derivation.FinalScores | src/App.tsx:23-32 | with bonuses each final score is raw plus bonus (0 when absent); without, the raw scores |
| Derivation.CalculateFinalAbilityScores | src/App.tsx:23-32 | the loop over the ability list computes `FinalScores` |
| Derivation.MergedBonuses | src/App.tsx:35-39 | merged bonus keys are the union, each bonus the sum, a base-only bonus unchanged |
| Derivation.MergeBonuses | src/App.tsx:35-39 | the loop over the subrace's bonus keys computes `MergedBonuses` |
| Derivation.MergeRaceSpec | src/App.tsx:34-50 | the merged race: bonuses summed, the traits of both once each with the base traits first, the name "Base (Sub)", the description falling back from subrace to base, the perception flag, source, icon and subraces inherited |
| Derivation.MergeRaceExample | src/App.tsx:34-50 | +2 Str with Darkvision merged with +1 Int, Darkvision, Stone Cunning gives both bonuses and the traits Darkvision, Stone Cunning |
| Derivation.UniqueInOrder | src/App.tsx:40 | the `Set` loop yields the first-occurrence de-duplication |
| Derivation.MergeRaceAndSubrace | src/App.tsx:34-50 | the merge helper computes `MergeRace` |
| Derivation.InitialDraftSpec | src/App.tsx:87-101 | a fresh record: the given id, empty name, backstory and picture, level 1, no selections, no provenance, final scores equal to the raw ones; with catalog defaults their scores, their level-1 proficiency bonus and the standard array sorted descending (a permutation); without them zero scores, no offered values and proficiency bonus 2 |
| Derivation.ProficientSkillsSpec | src/App.tsx:211-219 | the skill list has no repeats, holds exactly Perception (for a Perception race), the background skills and the choices, and starts with Perception when the race grants it |
| Derivation.ProficientSkillsExample | src/App.tsx:211-219 | Perception race, Stealth and Deception background, Perception and Arcana chosen gives Perception, Stealth, Deception, Arcana |
| Derivation.PushSkills | src/App.tsx:211-218 | the pushes gather the contributions in order |
| Derivation.RecomputeDerived | src/App.tsx:202-228 | the effect body computes `Recompute` |
| Derivation.RecomputeKeepsInputs | src/App.tsx:220-228 | only the six derived fields change |
| Derivation.RecomputeScoresAndSkills | src/App.tsx:204-219 | final scores are raw plus racial bonus (raw without a race); the skills are the duplicate-free union of the contributions |
| Derivation.HitPointsWithClass | src/App.tsx:205-208 | with a class, hit points are hit die plus the Constitution modifier, plus the level for a hill dwarf, whatever the previous value |
| Derivation.HitPointsDriftWithoutClass | src/App.tsx:205-208 | without a class a hill dwarf gains the level again on every run |
| Derivation.ArmorClassSticky | src/App.tsx:209 | a set, non-zero armor class is kept, whatever the scores |
| Derivation.RecomputeIdempotentIff | src/App.tsx:202-229 | a second run changes nothing if and only if the record is not a classless hill dwarf of non-zero level |
| Derivation.RecomputeWithoutCommonData | src/App.tsx:203 | without catalog defaults the effect does nothing |
| Derivation.FreshArmorClassIsFrozen | src/App.tsx:209 | a fresh zero-score record gets armor class 5, and later scores leave it at 5 |
| Derivation.HillDwarfName | src/App.tsx:206 | "Dwarf (Hill Dwarf)" is recognised as a hill dwarf |
| Derivation.HillDwarfLevelFiveExample | src/App.tsx:205-208 | a level-5 hill dwarf with a class gets five extra hit points |
| Creator.ScoreRanges | src/App.tsx:386-396 | the manual check passes exactly on 3..18 (the zero test is subsumed), point buy exactly on 8..15; the boundary scores pass |
| Creator.ScoreGateSpec | src/App.tsx:382-398 | the step-3 gate passes exactly when the standard array is used up, or every manual score is in 3..18, or every point-buy score in 8..15 |
| Creator.StepGateSpec | src/App.tsx:380-401 | only steps 1, 3 and 4 block: 1 without a race, 3 by the score rules, 4 with a class while fewer skills are chosen than it grants |
| Creator.SaveGateSpec | src/App.tsx:249-267 | a save passes exactly when race, class and background are chosen and the step-3 gate passes; the skill count is not re-checked |
| Creator.StepBounds | src/App.tsx:402-411 | next stays at most 7 and prev at least 1, moving by one inside the range |
| Creator.ToggleChoiceSpec | src/App.tsx:370-378 | toggling removes a chosen skill, appends an unchosen one while fewer than `choose` are chosen, else changes nothing; the selection stays duplicate-free and within `choose` |
| Creator.ToggleTwice | src/App.tsx:370-378 | choosing and then un-choosing a skill restores the selection |
| Creator.FilterDropsOne | src/App.tsx:374 | dropping a value from a duplicate-free list leaves exactly the other values, and is shorter when it was present |
| Creator.Wizard.constructor | src/App.tsx:54-85 | the wizard starts at step 1, standard array, a fresh record, no skills and no pending race |
| Creator.Wizard.SelectRace | src/App.tsx:314-322 | a race with subraces becomes pending and clears the draft's race; any other race is set and clears the pending race |
| Creator.Wizard.SelectSubrace | src/App.tsx:324-330 | with a pending race the draft gets the merged race and the pending race clears; without one nothing changes |
| Creator.Wizard.CancelSubraceChoice | src/App.tsx:681 | "Back to Races" clears the pending race only |
| Creator.Wizard.SelectClass | src/App.tsx:720 | picking a class sets it and clears the chosen skills |
| Creator.Wizard.SelectBackground | src/App.tsx:813 | picking a background sets it and nothing else |
| Creator.Wizard.UpdateAbilityScores | src/App.tsx:332-334 | the allocator's report replaces the raw scores and the unassigned values |
| Creator.Wizard.ChangeAssignmentMethod | src/App.tsx:336-350 | the method and its default scores are set, the sorted standard array offered only for that method, nothing else changed; without catalog defaults nothing happens |
| Creator.Wizard.ToggleSkill | src/App.tsx:370-378 | with a class the selection becomes the toggle result; without one nothing changes |
| Creator.Wizard.EditDetail | src/App.tsx:837-879 | name, picture, alignment and backstory edits set that field only |
| Creator.Wizard.NextStep | src/App.tsx:380-403 | the step advances, bounded by 7, exactly when the current step's gate passes, and the gate's reason is returned |
| Creator.Wizard.PrevStep | src/App.tsx:405-412 | the step goes back by one, and from step 1 the wizard is reset (left as it is without catalog defaults) and left |
| Creator.Wizard.Reset | src/App.tsx:414-424 | a fresh record, no skills, no pending race, standard array, step 1; without catalog defaults nothing changes |
| Creator.Wizard.Refresh | src/App.tsx:202-229 | one run of the effect replaces the draft by `Recompute` of it |
| Creator.MethodDefaults | src/App.tsx:341-348 | point buy starts at 8 and manual entry at 10 everywhere (both within range); the standard array starts from the catalog defaults |
| Creator.FreshMethodPassesGate | src/App.tsx:336-350 | right after switching, point buy and manual entry pass the step-3 gate, and a non-empty standard array blocks it |
| Records.GalleryForm | src/App.tsx:268-272 | the kept record has the player-gallery provenance and a non-empty picture (its own when non-empty, else the default), and is otherwise the draft |
| Records.GalleryFormIdempotent | src/App.tsx:268-272 | preparing a record twice is preparing it once |
| Records.BestiaryForm | src/App.tsx:554 | a bestiary entry gets the bestiary provenance and is otherwise the record given |
| Records.AssignId | src/App.tsx:552 | the id is the record's own when non-empty, else the generated one (so non-empty when that is); no other field changes |
| Records.UserAiRaces | src/App.tsx:188 | the restored races, in order and as many, each with the generated provenance and otherwise as in the backup |
| Records.UserAiClasses | src/App.tsx:189 | the restored classes, in order and as many, each with the generated provenance and otherwise as in the backup |
| Records.UserAiBackgrounds | src/App.tsx:190 | the restored backgrounds, in order and as many, each with the generated provenance and otherwise as in the backup |
| Records.BestiaryForms | src/App.tsx:191 | the restored bestiary entries, in order and as many, each with the bestiary provenance and otherwise as in the backup |
| Records.DefaultSources | src/App.tsx:453 | each record keeps its provenance or gets the player-gallery one, in order |
| Records.DefaultSourcesSpec | src/App.tsx:453 | afterwards every record has a provenance and its id, and a record that had one is unchanged |
| Records.ItemRecords | src/App.tsx:444-446 | an accepted array yields its items' records in order |
| Records.MergeImportedSpec | src/App.tsx:454 | the gallery is kept as a prefix; what is appended comes from the file with an id the gallery lacked, and every such record is appended |
| Records.MergeImportedKeepsInFileDuplicates | src/App.tsx:454 | two records of one file with the same id are both appended, so ids stop being unique |
| Records.MergeImportedSkipsKnownIds | src/App.tsx:454 | a record whose id is already in the gallery is skipped |
| FileStore.Sanitize | electron/main.ts:17 | the length is kept, allowed characters ([A-Za-z0-9_.-]) stay in place, every other one becomes `_` |
| FileStore.SanitizeOutputAllowed | electron/main.ts:17 | every output character is allowed |
| FileStore.SanitizeKeepsAllowed | electron/main.ts:17 | a name of allowed characters is unchanged |
| FileStore.SanitizeIdempotent | electron/main.ts:17 | sanitising twice is sanitising once |
| FileStore.SanitizeCollision | electron/main.ts:17 | "a b" and "a_b" sanitise to the same name |
| FileStore.FileName | electron/main.ts:94 | a record's file name ends in `.json` and is five characters longer than its key |
| FileStore.FileNameInjectiveOnAllowed | electron/main.ts:94 | keys made of allowed characters get distinct files |
| FileStore.FileNameCollision | electron/main.ts:94 | "a b" and "a_b" are written to the same file |
| FileStore.JsonFiles | electron/main.ts:111 | the listing keeps exactly the directory's `.json` entries |
| FileStore.AfterSave | electron/main.ts:90-103 | after a save the key's file holds the record, every other file and every other directory is unchanged |
| FileStore.AfterDelete | electron/main.ts:128-144 | after a delete the key's file is gone, every other file and directory is unchanged |
| FileStore.DeleteAbsentIsNoOp | electron/main.ts:137-140 | deleting a missing file, or from a missing directory, changes nothing |
| FileStore.DeleteUndoesSave | electron/main.ts:90-144 | deleting the key of a fresh save restores the store |
| FileStore.DataStore.Save | electron/main.ts:90-103 | an empty key is rejected, a missing directory fails, otherwise the store becomes `AfterSave`; on failure nothing changes |
| FileStore.DataStore.Load | electron/main.ts:105-126 | a missing directory gives no records; otherwise one record per `.json` file, each file once, each record the file's content |
| FileStore.DataStore.Delete | electron/main.ts:128-144 | an empty key is rejected and nothing changes; otherwise the store becomes `AfterDelete` |
| FileStore.SaveThenLoad | electron/main.ts:90-126 | a record that was saved is among the records the next load returns |
| Gallery.AcceptImportSpec | src/App.tsx:441-453 | an array is accepted exactly when every item is an object with id and name, yielding its records in order with a provenance; a single object needs only an id; anything else is refused |
| Gallery.Session.SaveCharacter | src/App.tsx:248-291 | a failing gate or a failing store write changes nothing and reports why; otherwise the file is written, the gallery is upserted by id and the wizard reset (left as it is without catalog defaults); ids stay unique |
| Gallery.Session.DeleteCharacter | src/App.tsx:293-307 | after the file is deleted, every entry with the id is removed and a matching displayed character is cleared; a rejected delete changes nothing |
| Gallery.Session.ViewCharacter | src/App.tsx:309-312 | the character becomes the displayed one |
| Gallery.Session.ImportCharacters | src/App.tsx:431-467 | a session backup restores the session; an accepted file is merged into the gallery by `MergeImported` and its record count reported; a refused file changes nothing |
| Gallery.Session.RestoreSession | src/App.tsx:184-196 | the gallery and catalogs become the backup's with provenances set, and the wizard is reset (left as it is without catalog defaults) |
| Gallery.Session.StartFresh | src/App.tsx:171-182 | all lists become empty and the wizard is reset (left as it is without catalog defaults) |
| Gallery.Session.SaveNewRace | src/App.tsx:491-509 | after the store accepts the race it is upserted by name with the generated provenance; names stay unique |
| Gallery.Session.SaveNewClass | src/App.tsx:511-529 | after the store accepts the class it is upserted by name with the generated provenance; names stay unique |
| Gallery.Session.SaveNewBackground | src/App.tsx:531-549 | after the store accepts the background it is upserted by name with the generated provenance; names stay unique |
| Gallery.Session.SaveNewAiCharacter | src/App.tsx:551-594 | with an id assigned, a bestiary entry is stored and upserted into the bestiary, a gallery character stored and upserted into the gallery; a store failure changes nothing; ids stay unique in both lists |
| Gallery.Session.DeleteAiRace | src/App.tsx:596-606 | after the file is deleted every race of that name is removed |
| Gallery.Session.DeleteAiClass | src/App.tsx:608-618 | after the file is deleted every class of that name is removed |
| Gallery.Session.DeleteAiBackground | src/App.tsx:620-630 | after the file is deleted every background of that name is removed |
| Gallery.Session.DeleteAiBestiaryEntry | src/App.tsx:632-645 | after the file is deleted every bestiary entry with that id is removed |
| LegacyGallery.SkipWhitespace | App.tsx:244 | the leading whitespace run is dropped: a suffix, shorter when it started with whitespace, not starting with whitespace |
| LegacyGallery.CollapseWhitespace | App.tsx:244 | the whitespace-run replacement is never longer than its input |
| LegacyGallery.CollapseSpec | App.tsx:244 | the replacement holds no whitespace, and is empty exactly for the empty name |
| LegacyGallery.CollapseKeepsPlain | App.tsx:244 | a name without whitespace is unchanged |
| LegacyGallery.CollapseIdempotent | App.tsx:244 | replacing twice is replacing once |
| LegacyGallery.CollapseExample | App.tsx:244 | "a  b" becomes "a_b" |
| LegacyGallery.DownloadFilenameSpec | App.tsx:244 | the download name is the fallback for the empty name, else the collapsed name, followed by `_<id>.json` |
| LegacyGallery.BlankNameFilename | App.tsx:244 | a blank name "  " downloads as `__<id>.json`, not under the fallback |
| LegacyGallery.LegacyAcceptImportSpec | App.tsx:400-409 | arrays are judged as on the desktop; a single object needs id and name; everything accepted here is accepted there the same way |
| LegacyGallery.AppendDuplicatesKey | App.tsx:247 | appending a record whose key is present makes the keys non-unique |
| LegacyGallery.ImportContrast | App.tsx:414 | importing a known id leaves the desktop gallery unchanged but duplicates it in the browser gallery |
| LegacyGallery.LegacySession.SaveCharacter | App.tsx:215-251 | a failing gate changes nothing; otherwise the record is appended unconditionally, the download name uses the fallback "character", and the wizard is reset (left as it is without catalog defaults) |
| LegacyGallery.LegacySession.DeleteCharacter | App.tsx:253-260 | every entry with the id is removed and a matching displayed character is cleared |
| LegacyGallery.LegacySession.ViewCharacter | App.tsx:262-265 | the character becomes the displayed one |
| LegacyGallery.LegacySession.ImportCharacters | App.tsx:390-425 | an accepted file's records are appended as they are, duplicates included; a refused file changes nothing |
| LegacyGallery.LegacySession.RestoreSession | App.tsx:149-157 | the gallery and catalogs become the backup's with provenances set, and the wizard is reset (left as it is without catalog defaults) |
| LegacyGallery.LegacySession.StartFresh | App.tsx:139-147 | all lists become empty and the wizard is reset (left as it is without catalog defaults) |
| LegacyGallery.LegacySession.SaveNewRace | App.tsx:451-463 | the race is upserted by name with the generated provenance; names stay unique |
| LegacyGallery.LegacySession.SaveNewClass | App.tsx:464-476 | the class is upserted by name with the generated provenance; names stay unique |
| LegacyGallery.LegacySession.SaveNewBackground | App.tsx:477-489 | the background is upserted by name with the generated provenance; names stay unique |
| LegacyGallery.LegacySession.SaveNewAiCharacter | App.tsx:490-515 | with an id assigned, a bestiary entry is upserted by id, keeping bestiary ids unique; a gallery character is appended and named with the fallback "ai_character" |

## Left out

- The optional descriptive fields a generated record may carry (`raceName`,
  `className`, `description`, `monsterType`, `challengeRating`, `specialAbilities`,
  `actions`, `types.ts:80-86`) are not modelled. No handler reads them; they pass
  through untouched.
- A partial session restore is not modelled. The restore applies its setters one at a
  time (`src/App.tsx:187-192`, `App.tsx:150-155`). A backup missing a later list fails
  after the gallery and the earlier catalogs have been replaced, and before the
  wizard is reset. `SessionData` always carries all five lists, so the model's restore
  is all-or-nothing.
- Rendering, view switching, `alert` and `window.confirm`: every confirmation dialog
  is taken as accepted, and the current view is not modelled.
- The progress percentage is computed in floating point and is not modelled.
- Loading the catalog files with `fetch`, loading user data at start-up, and the
  three effects that concatenate the catalogs with the generated entries: these are
  I/O, or concatenations that nothing here reads.
- The desktop handlers `await` the store before applying their list updates (for
  example `src/App.tsx:274-286`). The model runs each handler as one atomic step, so
  interleavings of two handlers in flight are not modelled.
- React's scheduling of the derived-statistics effect. `Wizard.Refresh` is one run,
  called explicitly; repeated runs are described by `Derivation.RecomputeIdempotentIff`.
- The Gemini calls for backstories, names and generated content. They are an
  external service; their results enter the model as method parameters.
- `downloadJson`, `FileReader` and `JSON.parse`/`stringify`.
  - A parsed file is an input of type `ParsedFile`, which says whether the file is an
    array, an object with an id or a name, or a session backup (an object with a
    truthy version and a gallery).
  - The browser import treats a session backup as an invalid format. The code
    expects a backup never to carry a top-level id and name.
  - File contents are opaque: a file holds the record that was saved into it.
- Exporting the gallery or the session: this is a pure download with no state change.
- The Electron window and app lifecycle, `get-app-path`, `ensure-data-dirs`, the
  preload bridge and the renderer's IPC service. These are pass-throughs;
  `electron/preload.ts` and `src/services/electronAppService.ts` are not part of this
  model.
- File-system errors other than the ones the handlers themselves detect: an empty
  key, and a missing directory for a write. Order is not modelled either: a directory
  listing's order is the file system's, so `DataStore.Load` promises no order.
- The race, class and background loaders and deleters of `electron/main.ts`
  (lines 147-373) are copies of the character handlers for other directories and
  keys. They are modelled by the same `DataStore` methods with a different kind.
- `generateCharacterId`: the generated id is a parameter (`newId`).
- The score allocator component is not part of this model. Its report enters through
  `Wizard.UpdateAbilityScores`, and the only check the wizard makes on it is that no
  standard-array value is left.
- A point-buy budget: no code checks the 27-point total, so the model does not either.
- The `setTimeout` auto-advance when a class grants no skills.
- `Seqs.Lower` lower-cases ASCII letters only. JavaScript's `toLowerCase` also folds
  non-ASCII letters; the hill-dwarf test only compares against an ASCII pattern.
- `LegacyGallery.IsJsWhitespace` and `FileStore.Sanitize` work on Unicode scalar
  values. JavaScript works on UTF-16 code units, which differs for characters
  outside the Basic Multilingual Plane (one character here, two units there).
- Numbers are unbounded integers. JavaScript's floating-point numbers agree with
  them for the small scores, levels and counts involved.
