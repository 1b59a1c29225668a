/** The desktop application's session: the player gallery, the character on
    display, the generated races, classes and backgrounds, and the bestiary.
    Every save and delete goes to the file store first; the in-memory lists
    change only when the store accepts it. */
module Gallery {
  import opened Types
  import opened Seqs
  import opened Creator
  import opened Records
  import opened FileStore

  datatype SaveOutcome = Saved | Blocked(reason: GateError) | StoreFailed(error: StoreError)

  datatype SaveDestination = ToGallery | ToBestiary

  datatype ImportOutcome = Imported(count: int) | SessionRestored | ImportRejected(error: ImportError)

  /** The lists a session holds, as one value. */
  datatype Lists = Lists(
    saved: seq<CharacterData>,
    viewing: Option<CharacterData>,
    aiRaces: seq<Race>,
    aiClasses: seq<CharClass>,
    aiBackgrounds: seq<Background>,
    bestiary: seq<CharacterData>)

  const EmptyLists: Lists := Lists([], None, [], [], [], [])

  /** Which files an import takes as characters: an array whose items are all
      objects with an id and a name, or a single object with an id. A session
      backup is taken apart before this check. */
  function AcceptImport(f: ParsedFile): ImportCheck
  {
    match f
    case ParsedArray(items) =>
      if forall i | 0 <= i < |items| :: IsCharacterItem(items[i]) then Accepted(DefaultSources(ItemRecords(items)))
      else Refused(InvalidItems)
    case ParsedObject(it) =>
      if it.hasId then Accepted([WithDefaultSource(it.record)]) else Refused(InvalidFormat)
    case ParsedSession(_) => Refused(InvalidFormat)
    case ParsedPrimitive => Refused(InvalidFormat)
  }

  /** An accepted array yields its records in order, each with a provenance; an
      array with one bad item is refused whole; a single object needs no name. */
  lemma AcceptImportSpec(f: ParsedFile)
    ensures f.ParsedArray? ==>
      (AcceptImport(f).Accepted? <==> forall i :: 0 <= i < |f.items| ==> IsCharacterItem(f.items[i]))
    ensures f.ParsedArray? && AcceptImport(f).Accepted? ==>
      var rs := AcceptImport(f).records;
      |rs| == |f.items| && forall i :: 0 <= i < |rs| ==> rs[i].id == f.items[i].record.id && rs[i].source.Some?
    ensures f.ParsedObject? ==> (AcceptImport(f).Accepted? <==> f.item.hasId)
    ensures f.ParsedObject? && f.item.hasId && !f.item.hasName ==> AcceptImport(f) == Accepted([WithDefaultSource(f.item.record)])
    ensures f.ParsedPrimitive? ==> AcceptImport(f) == Refused(InvalidFormat)
  {
    if f.ParsedArray? && AcceptImport(f).Accepted? {
      DefaultSourcesSpec(ItemRecords(f.items));
    }
  }

  /** The lists a session backup restores, every record given its provenance. */
  function RestoredLists(data: SessionData, viewing: Option<CharacterData>): Lists
  {
    Lists(DefaultSources(data.savedCharacters), viewing, UserAiRaces(data.aiRaces), UserAiClasses(data.aiClasses),
          UserAiBackgrounds(data.aiBackgrounds), BestiaryForms(data.bestiary))
  }

  class Session {
    const store: DataStore
    const wizard: Wizard
    var savedCharacters: seq<CharacterData>
    var viewing: Option<CharacterData>
    var aiRaces: seq<Race>
    var aiClasses: seq<CharClass>
    var aiBackgrounds: seq<Background>
    var bestiary: seq<CharacterData>

    ghost predicate Valid()
      reads this, wizard
    {
      wizard.Valid()
    }

    function Contents(): Lists
      reads this
    {
      Lists(savedCharacters, viewing, aiRaces, aiClasses, aiBackgrounds, bestiary)
    }

    constructor(store: DataStore, wizard: Wizard)
      requires wizard.Valid()
      ensures Valid() && this.store == store && this.wizard == wizard
      ensures Contents() == EmptyLists
    {
      this.store := store;
      this.wizard := wizard;
      savedCharacters, viewing := [], None;
      aiRaces, aiClasses, aiBackgrounds, bestiary := [], [], [], [];
    }

    /** Saves the wizard's character: the save gate first, then the store; on
        success the gallery is upserted by id and the wizard reset. */
    method SaveCharacter(newId: string) returns (outcome: SaveOutcome)
      requires Valid()
      modifies this, wizard, store
      ensures Valid()
      ensures var gate := SaveGate(old(wizard.assignmentMethod), old(wizard.draft));
        var entry := CharacterEntry(GalleryForm(old(wizard.draft)));
        && (gate.Some? ==> outcome == Blocked(gate.value))
        && (gate.None? && SaveResult(old(store.dirs), Characters, entry).Some? ==>
              outcome == StoreFailed(SaveResult(old(store.dirs), Characters, entry).value))
        && (gate.None? && SaveResult(old(store.dirs), Characters, entry).None? ==> outcome == Saved)
      ensures !outcome.Saved? ==> Contents() == old(Contents()) && unchanged(wizard) && store.dirs == old(store.dirs)
      ensures outcome.Saved? ==>
        var rec := GalleryForm(old(wizard.draft));
        && Contents() == old(Contents()).(saved := Upsert(old(savedCharacters), rec, CharacterId))
        && store.dirs == AfterSave(old(store.dirs), Characters, CharacterEntry(rec))
        && wizard.WasReset(newId)
      ensures KeysUnique(old(savedCharacters), CharacterId) ==> KeysUnique(savedCharacters, CharacterId)
    {
      var gate := SaveGate(wizard.assignmentMethod, wizard.draft);
      if gate.Some? {
        return Blocked(gate.value);
      }
      var rec := GalleryForm(wizard.draft);
      var err := store.Save(Characters, CharacterEntry(rec));
      if err.Some? {
        return StoreFailed(err.value);
      }
      if KeysUnique(savedCharacters, CharacterId) {
        UpsertKeepsKeysUnique(savedCharacters, rec, CharacterId);
      }
      savedCharacters := Upsert(savedCharacters, rec, CharacterId);
      wizard.Reset(newId);
      outcome := Saved;
    }

    /** Deletes the character's file, then drops every gallery entry with that
        id and stops displaying it. */
    method DeleteCharacter(id: string) returns (err: Option<StoreError>)
      requires Valid()
      modifies this, store
      ensures Valid()
      ensures err == DeleteResult(id)
      ensures err.Some? ==> Contents() == old(Contents()) && store.dirs == old(store.dirs)
      ensures err.None? ==>
        && Contents() == old(Contents()).(
             saved := RemoveKey(old(savedCharacters), id, CharacterId),
             viewing := if old(viewing).Some? && old(viewing).value.id == id then None else old(viewing))
        && store.dirs == AfterDelete(old(store.dirs), Characters, id)
    {
      err := store.Delete(Characters, id);
      if err.Some? {
        return;
      }
      savedCharacters := RemoveKey(savedCharacters, id, CharacterId);
      if viewing.Some? && viewing.value.id == id {
        viewing := None;
      }
    }

    method ViewCharacter(c: CharacterData)
      requires Valid()
      modifies this
      ensures Valid()
      ensures Contents() == old(Contents()).(viewing := Some(c))
    {
      viewing := Some(c);
    }

    /** A loaded file: a session backup replaces the session; characters are
        appended unless their id is already in the gallery. */
    method ImportCharacters(f: ParsedFile, newId: string) returns (outcome: ImportOutcome)
      requires Valid()
      modifies this, wizard
      ensures Valid()
      ensures f.ParsedSession? ==> outcome == SessionRestored && Contents() == RestoredLists(f.data, old(viewing))
                                   && wizard.WasReset(newId)
      ensures !f.ParsedSession? && AcceptImport(f).Refused? ==>
                outcome == ImportRejected(AcceptImport(f).error) && Contents() == old(Contents()) && unchanged(wizard)
      ensures !f.ParsedSession? && AcceptImport(f).Accepted? ==>
                var rs := AcceptImport(f).records;
                outcome == Imported(|rs|) && unchanged(wizard)
                && Contents() == old(Contents()).(saved := MergeImported(old(savedCharacters), rs))
    {
      if f.ParsedSession? {
        RestoreSession(f.data, newId);
        return SessionRestored;
      }
      var check := AcceptImport(f);
      if check.Refused? {
        return ImportRejected(check.error);
      }
      savedCharacters := MergeImported(savedCharacters, check.records);
      outcome := Imported(|check.records|);
    }

    /** Replaces the gallery and the generated catalogs with a backup's, and
        resets the wizard. */
    method RestoreSession(data: SessionData, newId: string)
      requires Valid()
      modifies this, wizard
      ensures Valid()
      ensures Contents() == RestoredLists(data, old(viewing))
      ensures wizard.WasReset(newId)
    {
      savedCharacters := DefaultSources(data.savedCharacters);
      aiRaces := UserAiRaces(data.aiRaces);
      aiClasses := UserAiClasses(data.aiClasses);
      aiBackgrounds := UserAiBackgrounds(data.aiBackgrounds);
      bestiary := BestiaryForms(data.bestiary);
      wizard.Reset(newId);
    }

    /** Empties the session (files stay on disk) and resets the wizard. */
    method StartFresh(newId: string)
      requires Valid()
      modifies this, wizard
      ensures Valid()
      ensures Contents() == EmptyLists.(viewing := old(viewing))
      ensures wizard.WasReset(newId)
    {
      savedCharacters, aiRaces, aiClasses, aiBackgrounds, bestiary := [], [], [], [], [];
      wizard.Reset(newId);
    }

    /** Stores a generated race and upserts it by name. */
    method SaveNewRace(r: Race) returns (err: Option<StoreError>)
      requires Valid()
      modifies this, store
      ensures Valid()
      ensures err == SaveResult(old(store.dirs), AiRaces, RaceEntry(UserAiRace(r)))
      ensures err.Some? ==> Contents() == old(Contents()) && store.dirs == old(store.dirs)
      ensures err.None? ==>
        && Contents() == old(Contents()).(aiRaces := Upsert(old(aiRaces), UserAiRace(r), RaceName))
        && store.dirs == AfterSave(old(store.dirs), AiRaces, RaceEntry(UserAiRace(r)))
      ensures KeysUnique(old(aiRaces), RaceName) ==> KeysUnique(aiRaces, RaceName)
    {
      var rec := UserAiRace(r);
      err := store.Save(AiRaces, RaceEntry(rec));
      if err.None? {
        if KeysUnique(aiRaces, RaceName) {
          UpsertKeepsKeysUnique(aiRaces, rec, RaceName);
        }
        aiRaces := Upsert(aiRaces, rec, RaceName);
      }
    }

    method SaveNewClass(c: CharClass) returns (err: Option<StoreError>)
      requires Valid()
      modifies this, store
      ensures Valid()
      ensures err == SaveResult(old(store.dirs), AiClasses, ClassEntry(UserAiClass(c)))
      ensures err.Some? ==> Contents() == old(Contents()) && store.dirs == old(store.dirs)
      ensures err.None? ==>
        && Contents() == old(Contents()).(aiClasses := Upsert(old(aiClasses), UserAiClass(c), ClassName))
        && store.dirs == AfterSave(old(store.dirs), AiClasses, ClassEntry(UserAiClass(c)))
      ensures KeysUnique(old(aiClasses), ClassName) ==> KeysUnique(aiClasses, ClassName)
    {
      var rec := UserAiClass(c);
      err := store.Save(AiClasses, ClassEntry(rec));
      if err.None? {
        if KeysUnique(aiClasses, ClassName) {
          UpsertKeepsKeysUnique(aiClasses, rec, ClassName);
        }
        aiClasses := Upsert(aiClasses, rec, ClassName);
      }
    }

    method SaveNewBackground(b: Background) returns (err: Option<StoreError>)
      requires Valid()
      modifies this, store
      ensures Valid()
      ensures err == SaveResult(old(store.dirs), AiBackgrounds, BackgroundEntry(UserAiBackground(b)))
      ensures err.Some? ==> Contents() == old(Contents()) && store.dirs == old(store.dirs)
      ensures err.None? ==>
        && Contents() == old(Contents()).(aiBackgrounds := Upsert(old(aiBackgrounds), UserAiBackground(b), BackgroundName))
        && store.dirs == AfterSave(old(store.dirs), AiBackgrounds, BackgroundEntry(UserAiBackground(b)))
      ensures KeysUnique(old(aiBackgrounds), BackgroundName) ==> KeysUnique(aiBackgrounds, BackgroundName)
    {
      var rec := UserAiBackground(b);
      err := store.Save(AiBackgrounds, BackgroundEntry(rec));
      if err.None? {
        if KeysUnique(aiBackgrounds, BackgroundName) {
          UpsertKeepsKeysUnique(aiBackgrounds, rec, BackgroundName);
        }
        aiBackgrounds := Upsert(aiBackgrounds, rec, BackgroundName);
      }
    }

    /** A generated character goes to the bestiary or to the gallery, with a
        fresh id when it has none, and is upserted by id. */
    method SaveNewAiCharacter(c: CharacterData, dest: SaveDestination, newId: string) returns (err: Option<StoreError>)
      requires Valid()
      modifies this, store
      ensures Valid()
      ensures dest == ToBestiary ==>
        var rec := BestiaryForm(AssignId(c, newId));
        && err == SaveResult(old(store.dirs), AiBestiary, CharacterEntry(rec))
        && (err.None? ==> Contents() == old(Contents()).(bestiary := Upsert(old(bestiary), rec, CharacterId))
                          && store.dirs == AfterSave(old(store.dirs), AiBestiary, CharacterEntry(rec)))
      ensures dest == ToGallery ==>
        var rec := GalleryForm(AssignId(c, newId));
        && err == SaveResult(old(store.dirs), Characters, CharacterEntry(rec))
        && (err.None? ==> Contents() == old(Contents()).(saved := Upsert(old(savedCharacters), rec, CharacterId))
                          && store.dirs == AfterSave(old(store.dirs), Characters, CharacterEntry(rec)))
      ensures err.Some? ==> Contents() == old(Contents()) && store.dirs == old(store.dirs)
      ensures KeysUnique(old(bestiary), CharacterId) ==> KeysUnique(bestiary, CharacterId)
      ensures KeysUnique(old(savedCharacters), CharacterId) ==> KeysUnique(savedCharacters, CharacterId)
    {
      var withId := AssignId(c, newId);
      if dest == ToBestiary {
        var rec := BestiaryForm(withId);
        err := store.Save(AiBestiary, CharacterEntry(rec));
        if err.None? {
          if KeysUnique(bestiary, CharacterId) {
            UpsertKeepsKeysUnique(bestiary, rec, CharacterId);
          }
          bestiary := Upsert(bestiary, rec, CharacterId);
        }
      } else {
        var rec := GalleryForm(withId);
        err := store.Save(Characters, CharacterEntry(rec));
        if err.None? {
          if KeysUnique(savedCharacters, CharacterId) {
            UpsertKeepsKeysUnique(savedCharacters, rec, CharacterId);
          }
          savedCharacters := Upsert(savedCharacters, rec, CharacterId);
        }
      }
    }

    method DeleteAiRace(name: string) returns (err: Option<StoreError>)
      requires Valid()
      modifies this, store
      ensures Valid()
      ensures err == DeleteResult(name)
      ensures err.Some? ==> Contents() == old(Contents()) && store.dirs == old(store.dirs)
      ensures err.None? ==> Contents() == old(Contents()).(aiRaces := RemoveKey(old(aiRaces), name, RaceName))
                            && store.dirs == AfterDelete(old(store.dirs), AiRaces, name)
    {
      err := store.Delete(AiRaces, name);
      if err.None? {
        aiRaces := RemoveKey(aiRaces, name, RaceName);
      }
    }

    method DeleteAiClass(name: string) returns (err: Option<StoreError>)
      requires Valid()
      modifies this, store
      ensures Valid()
      ensures err == DeleteResult(name)
      ensures err.Some? ==> Contents() == old(Contents()) && store.dirs == old(store.dirs)
      ensures err.None? ==> Contents() == old(Contents()).(aiClasses := RemoveKey(old(aiClasses), name, ClassName))
                            && store.dirs == AfterDelete(old(store.dirs), AiClasses, name)
    {
      err := store.Delete(AiClasses, name);
      if err.None? {
        aiClasses := RemoveKey(aiClasses, name, ClassName);
      }
    }

    method DeleteAiBackground(name: string) returns (err: Option<StoreError>)
      requires Valid()
      modifies this, store
      ensures Valid()
      ensures err == DeleteResult(name)
      ensures err.Some? ==> Contents() == old(Contents()) && store.dirs == old(store.dirs)
      ensures err.None? ==>
        Contents() == old(Contents()).(aiBackgrounds := RemoveKey(old(aiBackgrounds), name, BackgroundName))
        && store.dirs == AfterDelete(old(store.dirs), AiBackgrounds, name)
    {
      err := store.Delete(AiBackgrounds, name);
      if err.None? {
        aiBackgrounds := RemoveKey(aiBackgrounds, name, BackgroundName);
      }
    }

    /** Deletes a bestiary entry by id; the displayed record is left alone. */
    method DeleteAiBestiaryEntry(id: string) returns (err: Option<StoreError>)
      requires Valid()
      modifies this, store
      ensures Valid()
      ensures err == DeleteResult(id)
      ensures err.Some? ==> Contents() == old(Contents()) && store.dirs == old(store.dirs)
      ensures err.None? ==> Contents() == old(Contents()).(bestiary := RemoveKey(old(bestiary), id, CharacterId))
                            && store.dirs == AfterDelete(old(store.dirs), AiBestiary, id)
    {
      err := store.Delete(AiBestiary, id);
      if err.None? {
        bestiary := RemoveKey(bestiary, id, CharacterId);
      }
    }
  }
}
