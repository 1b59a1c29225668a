/** The browser version of the application: the same wizard, but no file
    store. A saved character is offered as a download and appended to the
    in-memory gallery, imports are appended without any duplicate check, and
    generated catalog entries live only in the session. */
module LegacyGallery {
  import opened Types
  import opened Seqs
  import opened Creator
  import opened Records
  import opened Gallery

  // ---------------------------------------------------------------------
  // Download file names

  /** The characters of the regular-expression class `\s`: the ASCII blanks
      and line breaks, the no-break space, the Unicode space separators, the
      line and paragraph separators and the byte-order mark. */
  predicate IsJsWhitespace(c: char)
  {
    ('\U{9}' <= c <= '\U{D}') || c == '\U{20}' || c == '\U{A0}' || c == '\U{1680}'
    || ('\U{2000}' <= c <= '\U{200A}') || c == '\U{2028}' || c == '\U{2029}' || c == '\U{202F}'
    || c == '\U{205F}' || c == '\U{3000}' || c == '\U{FEFF}'
  }

  /** Drops the leading run of whitespace. */
  function SkipWhitespace(s: string): (r: string)
    ensures |r| <= |s| && r == s[|s| - |r|..]
    ensures |s| > 0 && IsJsWhitespace(s[0]) ==> |r| < |s|
    ensures |r| == 0 || !IsJsWhitespace(r[0])
  {
    if |s| > 0 && IsJsWhitespace(s[0]) then SkipWhitespace(s[1..]) else s
  }

  /** The global `\s+` replacement by `_`: each maximal run of whitespace
      becomes one underscore. */
  function CollapseWhitespace(s: string): (r: string)
    ensures |r| <= |s|
    decreases |s|
  {
    if |s| == 0 then []
    else if IsJsWhitespace(s[0]) then "_" + CollapseWhitespace(SkipWhitespace(s))
    else [s[0]] + CollapseWhitespace(s[1..])
  }

  /** The result holds no whitespace, and is empty only for an empty name. */
  lemma {:induction false} CollapseSpec(s: string)
    ensures forall i :: 0 <= i < |CollapseWhitespace(s)| ==> !IsJsWhitespace(CollapseWhitespace(s)[i])
    ensures |CollapseWhitespace(s)| == 0 <==> |s| == 0
    decreases |s|
  {
    if |s| > 0 {
      var r := CollapseWhitespace(s);
      var head: string, rest: string;
      if IsJsWhitespace(s[0]) {
        head, rest := "_", SkipWhitespace(s);
      } else {
        head, rest := [s[0]], s[1..];
      }
      assert !IsJsWhitespace(head[0]);
      CollapseSpec(rest);
      var t := CollapseWhitespace(rest);
      assert r == head + t;
      forall i | 0 <= i < |r|
        ensures !IsJsWhitespace(r[i])
      {
        if i > 0 {
          assert r[i] == t[i - 1];
        }
      }
    }
  }

  /** A name without whitespace is used as it is. */
  lemma {:induction false} CollapseKeepsPlain(s: string)
    requires forall i :: 0 <= i < |s| ==> !IsJsWhitespace(s[i])
    ensures CollapseWhitespace(s) == s
    decreases |s|
  {
    if |s| > 0 {
      CollapseKeepsPlain(s[1..]);
    }
  }

  lemma CollapseIdempotent(s: string)
    ensures CollapseWhitespace(CollapseWhitespace(s)) == CollapseWhitespace(s)
  {
    CollapseSpec(s);
    CollapseKeepsPlain(CollapseWhitespace(s));
  }

  lemma CollapseExample()
    ensures CollapseWhitespace("a  b") == "a_b"
  {
    assert !IsJsWhitespace('a') && !IsJsWhitespace('b') && IsJsWhitespace(' ');
    assert SkipWhitespace("  b") == "b";
    assert CollapseWhitespace("b") == "b";
    assert CollapseWhitespace("  b") == "_b";
    assert "a  b" == "a" + "  b";
    CollapseSplit("a", "  b");
  }

  /** Text without whitespace in front of another piece is kept as it is. */
  lemma {:induction false} CollapseSplit(a: string, b: string)
    requires forall i :: 0 <= i < |a| ==> !IsJsWhitespace(a[i])
    ensures CollapseWhitespace(a + b) == a + CollapseWhitespace(b)
    decreases |a|
  {
    if |a| > 0 {
      assert (a + b)[0] == a[0] && !IsJsWhitespace(a[0]);
      assert (a + b)[1..] == a[1..] + b;
      CollapseSplit(a[1..], b);
      assert CollapseWhitespace(a + b) == [a[0]] + CollapseWhitespace(a[1..] + b);
      assert a == [a[0]] + a[1..];
    } else {
      assert a + b == b;
    }
  }

  /** `${name.replace(/\s+/g, '_') || fallback}_${id}.json`. */
  function DownloadFilename(name: string, id: string, fallback: string): string
  {
    (if CollapseWhitespace(name) == "" then fallback else CollapseWhitespace(name)) + "_" + id + ".json"
  }

  /** The fallback is used exactly for an empty name. */
  lemma DownloadFilenameSpec(name: string, id: string, fallback: string)
    ensures name == "" ==> DownloadFilename(name, id, fallback) == fallback + "_" + id + ".json"
    ensures name != "" ==> DownloadFilename(name, id, fallback) == CollapseWhitespace(name) + "_" + id + ".json"
  {
    CollapseSpec(name);
  }

  /** A name of blanks only becomes one underscore rather than the fallback:
      "  " with id "x1" downloads as "__x1.json". */
  lemma BlankNameFilename(id: string, fallback: string)
    ensures DownloadFilename("  ", id, fallback) == "__" + id + ".json"
  {
    BlankCollapse();
    var c := CollapseWhitespace("  ");
    assert DownloadFilename("  ", id, fallback) == c + "_" + id + ".json";
    assert c + "_" == "__";
  }

  lemma BlankCollapse()
    ensures CollapseWhitespace("  ") == "_"
  {
    assert IsJsWhitespace(' ');
    assert SkipWhitespace("  ") == "";
  }

  // ---------------------------------------------------------------------
  // Imports

  /** Both an array item and a single object need an id and a name; a session
      backup is not recognised by this import. */
  function LegacyAcceptImport(f: ParsedFile): ImportCheck
  {
    match f
    case ParsedArray(items) =>
      if forall i | 0 <= i < |items| :: IsCharacterItem(items[i]) then Accepted(DefaultSources(ItemRecords(items)))
      else Refused(InvalidItems)
    case ParsedObject(it) =>
      if it.hasId && it.hasName then Accepted([WithDefaultSource(it.record)]) else Refused(InvalidFormat)
    case ParsedSession(_) => Refused(InvalidFormat)
    case ParsedPrimitive => Refused(InvalidFormat)
  }

  /** Arrays are judged like the desktop import; a single object is accepted
      only with a name, and whatever is accepted the desktop takes too. */
  lemma LegacyAcceptImportSpec(f: ParsedFile)
    ensures f.ParsedArray? ==> LegacyAcceptImport(f) == AcceptImport(f)
    ensures f.ParsedObject? ==> (LegacyAcceptImport(f).Accepted? <==> f.item.hasId && f.item.hasName)
    ensures f.ParsedObject? && f.item.hasId && !f.item.hasName ==>
              LegacyAcceptImport(f) == Refused(InvalidFormat) && AcceptImport(f).Accepted?
    ensures LegacyAcceptImport(f).Accepted? ==> AcceptImport(f) == LegacyAcceptImport(f)
    ensures f.ParsedSession? ==> LegacyAcceptImport(f) == Refused(InvalidFormat)
  {
  }

  /** Appending a record whose key is already present breaks key uniqueness:
      saving the same character twice, or importing a file into the session it
      was exported from, leaves two entries with one id. */
  lemma AppendDuplicatesKey<T, K>(s: seq<T>, x: T, key: T -> K)
    requires HasKey(s, key(x), key)
    ensures !KeysUnique(s + [x], key)
  {
    var i :| 0 <= i < |s| && key(s[i]) == key(x);
    assert (s + [x])[i] == s[i] && (s + [x])[|s|] == x;
  }

  /** The desktop merge never adds a known id, the browser append always does. */
  lemma ImportContrast(prev: seq<CharacterData>, c: CharacterData)
    requires HasKey(prev, c.id, CharacterId)
    ensures MergeImported(prev, [c]) == prev
    ensures !KeysUnique(prev + [c], CharacterId)
  {
    MergeImportedSkipsKnownIds(prev, c);
    AppendDuplicatesKey(prev, c, CharacterId);
  }

  datatype LegacySaveOutcome = Downloaded(filename: string) | SaveBlocked(reason: GateError)

  class LegacySession {
    const wizard: Wizard
    var savedCharacters: seq<CharacterData>
    var viewing: Option<CharacterData>
    var aiRaces: seq<Race>
    var aiClasses: seq<CharClass>
    var aiBackgrounds: seq<Background>
    var bestiary: seq<CharacterData>

    ghost predicate Valid()
      reads this, wizard
    {
      wizard.Valid()
    }

    function Contents(): Lists
      reads this
    {
      Lists(savedCharacters, viewing, aiRaces, aiClasses, aiBackgrounds, bestiary)
    }

    constructor(wizard: Wizard)
      requires wizard.Valid()
      ensures Valid() && this.wizard == wizard
      ensures Contents() == EmptyLists
    {
      this.wizard := wizard;
      savedCharacters, viewing := [], None;
      aiRaces, aiClasses, aiBackgrounds, bestiary := [], [], [], [];
    }

    /** The save gate, then the download and an unconditional append. */
    method SaveCharacter(newId: string) returns (outcome: LegacySaveOutcome)
      requires Valid()
      modifies this, wizard
      ensures Valid()
      ensures var gate := SaveGate(old(wizard.assignmentMethod), old(wizard.draft));
        var rec := GalleryForm(old(wizard.draft));
        && (gate.Some? ==> outcome == SaveBlocked(gate.value) && Contents() == old(Contents()) && unchanged(wizard))
        && (gate.None? ==>
              && outcome == Downloaded(DownloadFilename(rec.name, rec.id, "character"))
              && Contents() == old(Contents()).(saved := old(savedCharacters) + [rec])
              && wizard.WasReset(newId))
    {
      var gate := SaveGate(wizard.assignmentMethod, wizard.draft);
      if gate.Some? {
        return SaveBlocked(gate.value);
      }
      var rec := GalleryForm(wizard.draft);
      outcome := Downloaded(DownloadFilename(rec.name, rec.id, "character"));
      savedCharacters := savedCharacters + [rec];
      wizard.Reset(newId);
    }

    /** Drops the entries with that id from the session only. */
    method DeleteCharacter(id: string)
      requires Valid()
      modifies this
      ensures Valid()
      ensures Contents() == old(Contents()).(
                saved := RemoveKey(old(savedCharacters), id, CharacterId),
                viewing := if old(viewing).Some? && old(viewing).value.id == id then None else old(viewing))
    {
      savedCharacters := RemoveKey(savedCharacters, id, CharacterId);
      if viewing.Some? && viewing.value.id == id {
        viewing := None;
      }
    }

    method ViewCharacter(c: CharacterData)
      requires Valid()
      modifies this
      ensures Valid()
      ensures Contents() == old(Contents()).(viewing := Some(c))
    {
      viewing := Some(c);
    }

    /** Accepted records are appended as they are, known ids included. */
    method ImportCharacters(f: ParsedFile) returns (check: ImportCheck)
      requires Valid()
      modifies this
      ensures Valid()
      ensures check == LegacyAcceptImport(f)
      ensures check.Refused? ==> Contents() == old(Contents())
      ensures check.Accepted? ==> Contents() == old(Contents()).(saved := old(savedCharacters) + check.records)
    {
      check := LegacyAcceptImport(f);
      if check.Accepted? {
        savedCharacters := savedCharacters + check.records;
      }
    }

    method RestoreSession(data: SessionData, newId: string)
      requires Valid()
      modifies this, wizard
      ensures Valid()
      ensures Contents() == RestoredLists(data, old(viewing))
      ensures wizard.WasReset(newId)
    {
      savedCharacters := DefaultSources(data.savedCharacters);
      aiRaces := UserAiRaces(data.aiRaces);
      aiClasses := UserAiClasses(data.aiClasses);
      aiBackgrounds := UserAiBackgrounds(data.aiBackgrounds);
      bestiary := BestiaryForms(data.bestiary);
      wizard.Reset(newId);
    }

    method StartFresh(newId: string)
      requires Valid()
      modifies this, wizard
      ensures Valid()
      ensures Contents() == EmptyLists.(viewing := old(viewing))
      ensures wizard.WasReset(newId)
    {
      savedCharacters, aiRaces, aiClasses, aiBackgrounds, bestiary := [], [], [], [], [];
      wizard.Reset(newId);
    }

    method SaveNewRace(r: Race)
      requires Valid()
      modifies this
      ensures Valid()
      ensures Contents() == old(Contents()).(aiRaces := Upsert(old(aiRaces), UserAiRace(r), RaceName))
      ensures KeysUnique(old(aiRaces), RaceName) ==> KeysUnique(aiRaces, RaceName)
    {
      if KeysUnique(aiRaces, RaceName) {
        UpsertKeepsKeysUnique(aiRaces, UserAiRace(r), RaceName);
      }
      aiRaces := Upsert(aiRaces, UserAiRace(r), RaceName);
    }

    method SaveNewClass(c: CharClass)
      requires Valid()
      modifies this
      ensures Valid()
      ensures Contents() == old(Contents()).(aiClasses := Upsert(old(aiClasses), UserAiClass(c), ClassName))
      ensures KeysUnique(old(aiClasses), ClassName) ==> KeysUnique(aiClasses, ClassName)
    {
      if KeysUnique(aiClasses, ClassName) {
        UpsertKeepsKeysUnique(aiClasses, UserAiClass(c), ClassName);
      }
      aiClasses := Upsert(aiClasses, UserAiClass(c), ClassName);
    }

    method SaveNewBackground(b: Background)
      requires Valid()
      modifies this
      ensures Valid()
      ensures Contents() == old(Contents()).(
                aiBackgrounds := Upsert(old(aiBackgrounds), UserAiBackground(b), BackgroundName))
      ensures KeysUnique(old(aiBackgrounds), BackgroundName) ==> KeysUnique(aiBackgrounds, BackgroundName)
    {
      if KeysUnique(aiBackgrounds, BackgroundName) {
        UpsertKeepsKeysUnique(aiBackgrounds, UserAiBackground(b), BackgroundName);
      }
      aiBackgrounds := Upsert(aiBackgrounds, UserAiBackground(b), BackgroundName);
    }

    /** The bestiary is upserted by id; the gallery gets a download and an
        append. Only the gallery case yields a file name. */
    method SaveNewAiCharacter(c: CharacterData, dest: SaveDestination, newId: string)
      returns (filename: Option<string>)
      requires Valid()
      modifies this
      ensures Valid()
      ensures dest == ToBestiary ==>
        filename.None? &&
        Contents() == old(Contents()).(bestiary := Upsert(old(bestiary), BestiaryForm(AssignId(c, newId)), CharacterId))
      ensures dest == ToGallery ==>
        var rec := GalleryForm(AssignId(c, newId));
        filename == Some(DownloadFilename(rec.name, rec.id, "ai_character"))
        && Contents() == old(Contents()).(saved := old(savedCharacters) + [rec])
      ensures KeysUnique(old(bestiary), CharacterId) ==> KeysUnique(bestiary, CharacterId)
    {
      var withId := AssignId(c, newId);
      if dest == ToBestiary {
        if KeysUnique(bestiary, CharacterId) {
          UpsertKeepsKeysUnique(bestiary, BestiaryForm(withId), CharacterId);
        }
        bestiary := Upsert(bestiary, BestiaryForm(withId), CharacterId);
        filename := None;
      } else {
        var rec := GalleryForm(withId);
        filename := Some(DownloadFilename(rec.name, rec.id, "ai_character"));
        savedCharacters := savedCharacters + [rec];
      }
    }
  }
}
