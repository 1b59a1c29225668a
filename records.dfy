/** What the gallery handlers of both application versions do to a record
    before keeping it (keys, provenance, default picture, id), and the
    shapes of an imported file. */
module Records {
  import opened Types
  import opened Seqs

  /** The picture a saved character gets when it has none. */
  const DefaultImageUrl: string := "https://via.placeholder.com/300x400/a29bfe/FFFFFF?text=Hero"

  function CharacterId(c: CharacterData): string { c.id }
  function RaceName(r: Race): string { r.name }
  function ClassName(c: CharClass): string { c.name }
  function BackgroundName(b: Background): string { b.name }

  /** The record a gallery save keeps: the picture defaults when missing or
      empty, and the provenance becomes the player-gallery one. */
  function GalleryForm(c: CharacterData): (r: CharacterData)
    ensures r.source == Some(PcGalleryAi)
    ensures r.imageUrl.Some? && r.imageUrl.value != ""
    ensures c.imageUrl.Some? && c.imageUrl.value != "" ==> r.imageUrl == c.imageUrl
    ensures c.imageUrl.None? || c.imageUrl.value == "" ==> r.imageUrl == Some(DefaultImageUrl)
    ensures r.(imageUrl := c.imageUrl, source := c.source) == c
  {
    c.(imageUrl := Some(if c.imageUrl.Some? && c.imageUrl.value != "" then c.imageUrl.value else DefaultImageUrl),
       source := Some(PcGalleryAi))
  }

  lemma GalleryFormIdempotent(c: CharacterData)
    ensures GalleryForm(GalleryForm(c)) == GalleryForm(c)
  {
  }

  /** A bestiary entry: the provenance becomes the bestiary one, nothing else changes. */
  function BestiaryForm(c: CharacterData): (r: CharacterData)
    ensures r.source == Some(BestiaryAi)
    ensures r.(source := c.source) == c
  {
    c.(source := Some(BestiaryAi))
  }

  /** `id || generateCharacterId()`, with the generated id as a parameter. */
  function AssignId(c: CharacterData, newId: string): (r: CharacterData)
    ensures r.id == (if c.id != "" then c.id else newId)
    ensures newId != "" ==> r.id != ""
    ensures r.(id := c.id) == c
  {
    if c.id != "" then c else c.(id := newId)
  }

  function UserAiRace(r: Race): Race { r.(source := Some(UserAi)) }
  function UserAiClass(c: CharClass): CharClass { c.(source := Some(UserAi)) }
  function UserAiBackground(b: Background): Background { b.(source := Some(UserAi)) }

  /** Restored races, in order, each marked as generated and otherwise as saved. */
  function UserAiRaces(s: seq<Race>): (r: seq<Race>)
    ensures |r| == |s|
    ensures forall i :: 0 <= i < |s| ==> r[i].source == Some(UserAi) && r[i].(source := s[i].source) == s[i]
  {
    seq(|s|, i requires 0 <= i < |s| => UserAiRace(s[i]))
  }

  function UserAiClasses(s: seq<CharClass>): (r: seq<CharClass>)
    ensures |r| == |s|
    ensures forall i :: 0 <= i < |s| ==> r[i].source == Some(UserAi) && r[i].(source := s[i].source) == s[i]
  {
    seq(|s|, i requires 0 <= i < |s| => UserAiClass(s[i]))
  }

  function UserAiBackgrounds(s: seq<Background>): (r: seq<Background>)
    ensures |r| == |s|
    ensures forall i :: 0 <= i < |s| ==> r[i].source == Some(UserAi) && r[i].(source := s[i].source) == s[i]
  {
    seq(|s|, i requires 0 <= i < |s| => UserAiBackground(s[i]))
  }

  function BestiaryForms(s: seq<CharacterData>): (r: seq<CharacterData>)
    ensures |r| == |s|
    ensures forall i :: 0 <= i < |s| ==> r[i].source == Some(BestiaryAi) && r[i].(source := s[i].source) == s[i]
  {
    seq(|s|, i requires 0 <= i < |s| => BestiaryForm(s[i]))
  }

  /** `source || 'pc-gallery-ai'` on every record. */
  function WithDefaultSource(c: CharacterData): CharacterData
  {
    if c.source.Some? then c else c.(source := Some(PcGalleryAi))
  }

  function DefaultSources(s: seq<CharacterData>): (r: seq<CharacterData>)
    ensures |r| == |s|
    ensures forall i :: 0 <= i < |s| ==> r[i] == WithDefaultSource(s[i])
  {
    if |s| == 0 then [] else [WithDefaultSource(s[0])] + DefaultSources(s[1..])
  }

  /** Every record ends up with a provenance, and a record that had one keeps it
      along with everything else. */
  lemma DefaultSourcesSpec(s: seq<CharacterData>)
    ensures var r := DefaultSources(s);
      forall i :: 0 <= i < |r| ==>
        && r[i].source.Some?
        && r[i].id == s[i].id
        && (s[i].source.Some? ==> r[i] == s[i])
        && (s[i].source.None? ==> r[i].source == Some(PcGalleryAi))
  {
  }

  // ---------------------------------------------------------------------
  // Imported files

  /** One parsed JSON value that should be a character: whether it is a
      non-null object and which of the two properties it has. */
  datatype RawItem = RawItem(isObject: bool, hasId: bool, hasName: bool, record: CharacterData)

  /** A session backup: the gallery and the four generated catalogs. */
  datatype SessionData = SessionData(
    version: string,
    savedCharacters: seq<CharacterData>,
    aiRaces: seq<Race>,
    aiClasses: seq<CharClass>,
    aiBackgrounds: seq<Background>,
    bestiary: seq<CharacterData>)

  /** What `JSON.parse` produced: an array, a session backup (an object with a
      version and a gallery), another object, or a primitive. */
  datatype ParsedFile =
    | ParsedArray(items: seq<RawItem>)
    | ParsedSession(data: SessionData)
    | ParsedObject(item: RawItem)
    | ParsedPrimitive

  datatype ImportError = InvalidItems | InvalidFormat

  /** The records an import accepts, or why it refuses the file. */
  datatype ImportCheck = Accepted(records: seq<CharacterData>) | Refused(error: ImportError)

  predicate IsCharacterItem(it: RawItem)
  {
    it.isObject && it.hasId && it.hasName
  }

  function ItemRecords(items: seq<RawItem>): (r: seq<CharacterData>)
    ensures |r| == |items|
    ensures forall i :: 0 <= i < |items| ==> r[i] == items[i].record
  {
    if |items| == 0 then [] else [items[0].record] + ItemRecords(items[1..])
  }

  /** Appends the imported records whose id is not already in the gallery. */
  function MergeImported(prev: seq<CharacterData>, incoming: seq<CharacterData>): seq<CharacterData>
  {
    prev + Filter(incoming, (c: CharacterData) => !HasKey(prev, c.id, CharacterId))
  }

  /** The gallery is kept as a prefix; what is appended comes from the import and
      has an id the gallery did not have; every such record is appended. */
  lemma MergeImportedSpec(prev: seq<CharacterData>, incoming: seq<CharacterData>)
    ensures var r := MergeImported(prev, incoming);
      && prev <= r
      && |r| <= |prev| + |incoming|
      && (forall i :: |prev| <= i < |r| ==> r[i] in incoming && !HasKey(prev, r[i].id, CharacterId))
      && (forall i :: 0 <= i < |incoming| && !HasKey(prev, incoming[i].id, CharacterId) ==> incoming[i] in r)
  {
    var keep := (c: CharacterData) => !HasKey(prev, c.id, CharacterId);
    var added := Filter(incoming, keep);
    var r := MergeImported(prev, incoming);
    assert r == prev + added;
    forall i | |prev| <= i < |r|
      ensures r[i] in incoming && !HasKey(prev, r[i].id, CharacterId)
    {
      assert r[i] == added[i - |prev|];
    }
  }

  /** The import only checks against the gallery it started from: two records
      of one file that share an id are both appended. */
  lemma MergeImportedKeepsInFileDuplicates(c: CharacterData)
    ensures MergeImported([], [c, c]) == [c, c]
    ensures !KeysUnique(MergeImported([], [c, c]), CharacterId)
  {
    var keep := (x: CharacterData) => !HasKey([], x.id, CharacterId);
    FilterAllKept([c, c], keep);
    var r := MergeImported([], [c, c]);
    assert r[0] == c && r[1] == c;
  }

  /** Records already in the gallery by id are skipped. */
  lemma MergeImportedSkipsKnownIds(prev: seq<CharacterData>, c: CharacterData)
    requires HasKey(prev, c.id, CharacterId)
    ensures MergeImported(prev, [c]) == prev
  {
    var keep := (x: CharacterData) => !HasKey(prev, x.id, CharacterId);
    assert Filter([c][1..], keep) == [];
  }
}
