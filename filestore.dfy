/** The desktop file store: one directory per kind of record, one JSON file
    per record, named after the record's key with every character outside
    `[A-Za-z0-9_.-]` replaced by an underscore. File contents are opaque: a
    file holds the record that was saved into it. */
module FileStore {
  import opened Types
  import opened Seqs

  /** The characters the file-name rewrite keeps. */
  predicate AllowedFileChar(c: char)
  {
    ('a' <= c <= 'z') || ('A' <= c <= 'Z') || ('0' <= c <= '9') || c == '_' || c == '-' || c == '.'
  }

  /** The global, case-insensitive `[^a-z0-9_\-\.]` replacement by `_`. */
  function Sanitize(s: string): (r: string)
    ensures |r| == |s|
    ensures forall i :: 0 <= i < |s| ==> r[i] == if AllowedFileChar(s[i]) then s[i] else '_'
  {
    if |s| == 0 then [] else [if AllowedFileChar(s[0]) then s[0] else '_'] + Sanitize(s[1..])
  }

  /** Every character of a sanitized name is an allowed one. */
  lemma SanitizeOutputAllowed(s: string)
    ensures forall i :: 0 <= i < |Sanitize(s)| ==> AllowedFileChar(Sanitize(s)[i])
  {
  }

  /** A name made only of allowed characters is left as it is. */
  lemma SanitizeKeepsAllowed(s: string)
    requires forall i :: 0 <= i < |s| ==> AllowedFileChar(s[i])
    ensures Sanitize(s) == s
  {
    assert forall i :: 0 <= i < |s| ==> Sanitize(s)[i] == s[i];
  }

  lemma SanitizeIdempotent(s: string)
    ensures Sanitize(Sanitize(s)) == Sanitize(s)
  {
    SanitizeOutputAllowed(s);
    SanitizeKeepsAllowed(Sanitize(s));
  }

  /** Distinct keys can share a file: a space and an underscore both become `_`. */
  lemma SanitizeCollision()
    ensures "a b" != "a_b" && Sanitize("a b") == Sanitize("a_b")
  {
    assert "a b"[1] != "a_b"[1];
    assert Sanitize("a b") == "a_b";
    assert Sanitize("a_b") == "a_b";
  }

  /** `file.endsWith('.json')`. */
  predicate IsJsonName(f: string)
  {
    |f| >= 5 && f[|f| - 5..] == ".json"
  }

  /** The file a record with key `key` is written to. */
  function FileName(key: string): (f: string)
    ensures IsJsonName(f)
    ensures |f| == |key| + 5
  {
    Sanitize(key) + ".json"
  }

  /** Keys made of allowed characters get distinct files. */
  lemma FileNameInjectiveOnAllowed(k1: string, k2: string)
    requires forall i :: 0 <= i < |k1| ==> AllowedFileChar(k1[i])
    requires forall i :: 0 <= i < |k2| ==> AllowedFileChar(k2[i])
    requires FileName(k1) == FileName(k2)
    ensures k1 == k2
  {
    SanitizeKeepsAllowed(k1);
    SanitizeKeepsAllowed(k2);
    assert FileName(k1)[..|k1|] == k1;
    assert FileName(k2)[..|k2|] == k2;
  }

  lemma FileNameCollision()
    ensures FileName("a b") == FileName("a_b")
  {
    SanitizeCollision();
  }

  /** The five record directories. */
  datatype EntityKind = Characters | AiRaces | AiClasses | AiBackgrounds | AiBestiary

  /** What a file holds. Bestiary entries are character records. */
  datatype Entity =
    | CharacterEntry(character: CharacterData)
    | RaceEntry(race: Race)
    | ClassEntry(cls: CharClass)
    | BackgroundEntry(background: Background)

  datatype StoreError = InvalidKey | DirectoryMissing

  /** The key a save handler reads: the id of characters and bestiary entries,
      the name of races, classes and backgrounds; a record of the wrong shape
      has no such property, which counts as a missing key. */
  function KeyOf(kind: EntityKind, e: Entity): string
  {
    match (kind, e)
    case (Characters, CharacterEntry(c)) => c.id
    case (AiBestiary, CharacterEntry(c)) => c.id
    case (AiRaces, RaceEntry(r)) => r.name
    case (AiClasses, ClassEntry(c)) => c.name
    case (AiBackgrounds, BackgroundEntry(b)) => b.name
    case _ => ""
  }

  type Directory = map<string, Entity>

  /** The entries a directory listing keeps. */
  function JsonFiles(dir: Directory): (fs: set<string>)
    ensures forall f :: f in fs <==> f in dir && IsJsonName(f)
  {
    set f | f in dir && IsJsonName(f)
  }

  /** The save handler's verdict: a missing key, then a missing directory. */
  function SaveResult(dirs: map<EntityKind, Directory>, kind: EntityKind, e: Entity): Option<StoreError>
  {
    if KeyOf(kind, e) == "" then Some(InvalidKey)
    else if kind !in dirs then Some(DirectoryMissing)
    else None
  }

  /** The directories after a successful save: the key's file holds the record. */
  function AfterSave(dirs: map<EntityKind, Directory>, kind: EntityKind, e: Entity): (r: map<EntityKind, Directory>)
    requires kind in dirs
    ensures r.Keys == dirs.Keys
    ensures FileName(KeyOf(kind, e)) in r[kind] && r[kind][FileName(KeyOf(kind, e))] == e
    ensures forall f :: f in dirs[kind] && f != FileName(KeyOf(kind, e)) ==> f in r[kind] && r[kind][f] == dirs[kind][f]
    ensures forall k :: k in dirs && k != kind ==> r[k] == dirs[k]
  {
    dirs[kind := dirs[kind][FileName(KeyOf(kind, e)) := e]]
  }

  function DeleteResult(key: string): Option<StoreError>
  {
    if key == "" then Some(InvalidKey) else None
  }

  /** The directories after a delete: the key's file is gone, if it was there. */
  function AfterDelete(dirs: map<EntityKind, Directory>, kind: EntityKind, key: string): (r: map<EntityKind, Directory>)
    ensures r.Keys == dirs.Keys
    ensures kind in dirs ==> FileName(key) !in r[kind]
    ensures kind in dirs ==> forall f :: f in dirs[kind] && f != FileName(key) ==> f in r[kind] && r[kind][f] == dirs[kind][f]
    ensures forall k :: k in dirs && k != kind ==> r[k] == dirs[k]
  {
    if kind in dirs then dirs[kind := dirs[kind] - {FileName(key)}] else dirs
  }

  /** Deleting a file that is not there, or from a directory that is not there,
      leaves the store as it was. */
  lemma DeleteAbsentIsNoOp(dirs: map<EntityKind, Directory>, kind: EntityKind, key: string)
    requires kind !in dirs || FileName(key) !in dirs[kind]
    ensures AfterDelete(dirs, kind, key) == dirs
  {
    if kind in dirs {
      assert dirs[kind] - {FileName(key)} == dirs[kind];
    }
  }

  /** Saving then deleting under the same key removes the file again. */
  lemma DeleteUndoesSave(dirs: map<EntityKind, Directory>, kind: EntityKind, e: Entity)
    requires kind in dirs && FileName(KeyOf(kind, e)) !in dirs[kind]
    ensures AfterDelete(AfterSave(dirs, kind, e), kind, KeyOf(kind, e)) == dirs
  {
    var f := FileName(KeyOf(kind, e));
    assert dirs[kind][f := e] - {f} == dirs[kind];
  }

  /** The directories; a kind without an entry has no directory on disk. */
  class DataStore {
    var dirs: map<EntityKind, Directory>

    constructor(initial: map<EntityKind, Directory>)
      ensures dirs == initial
    {
      dirs := initial;
    }

    /** Writes the record to its key's file, overwriting any earlier one; a
        missing key is rejected and a missing directory makes the write fail. */
    method Save(kind: EntityKind, e: Entity) returns (err: Option<StoreError>)
      modifies this
      ensures err == SaveResult(old(dirs), kind, e)
      ensures err.Some? ==> dirs == old(dirs)
      ensures err.None? ==> kind in old(dirs) && dirs == AfterSave(old(dirs), kind, e)
    {
      var key := KeyOf(kind, e);
      if key == "" {
        return Some(InvalidKey);
      }
      if kind !in dirs {
        return Some(DirectoryMissing);
      }
      dirs := dirs[kind := dirs[kind][FileName(key) := e]];
      err := None;
    }

    /** Reads every `.json` file of the directory, in listing order (which the
        file system decides); a missing directory gives no records. */
    method Load(kind: EntityKind) returns (items: seq<Entity>, ghost listing: seq<string>)
      ensures kind !in dirs ==> items == []
      ensures kind in dirs ==>
                && NoDup(listing)
                && (forall f :: f in listing <==> f in JsonFiles(dirs[kind]))
                && |items| == |listing|
                && (forall i :: 0 <= i < |items| ==> listing[i] in dirs[kind] && items[i] == dirs[kind][listing[i]])
    {
      items, listing := [], [];
      if kind !in dirs {
        return;
      }
      var dir := dirs[kind];
      var remaining := dir.Keys;
      while remaining != {}
        invariant remaining <= dir.Keys
        invariant forall f :: f in listing ==> f in dir && IsJsonName(f) && f !in remaining
        invariant forall f :: f in dir && IsJsonName(f) && f !in remaining ==> f in listing
        invariant NoDup(listing)
        invariant |items| == |listing|
        invariant forall i :: 0 <= i < |items| ==> items[i] == dir[listing[i]]
        decreases remaining
      {
        var f :| f in remaining;
        if IsJsonName(f) {
          items := items + [dir[f]];
          listing := listing + [f];
        }
        remaining := remaining - {f};
      }
    }

    /** Removes the key's file; a missing key is rejected, and a file or
        directory that does not exist is silently ignored. */
    method Delete(kind: EntityKind, key: string) returns (err: Option<StoreError>)
      modifies this
      ensures err == DeleteResult(key)
      ensures err.Some? ==> dirs == old(dirs)
      ensures err.None? ==> dirs == AfterDelete(old(dirs), kind, key)
    {
      if key == "" {
        return Some(InvalidKey);
      }
      if kind in dirs {
        dirs := dirs[kind := dirs[kind] - {FileName(key)}];
      }
      err := None;
    }
  }

  /** A record that was saved is among the records the next load returns. */
  method SaveThenLoad(store: DataStore, kind: EntityKind, e: Entity) returns (items: seq<Entity>)
    requires kind in store.dirs && KeyOf(kind, e) != ""
    modifies store
    ensures store.dirs == AfterSave(old(store.dirs), kind, e)
    ensures e in items
  {
    var err := store.Save(kind, e);
    var f := FileName(KeyOf(kind, e));
    assert f in JsonFiles(store.dirs[kind]);
    ghost var listing;
    items, listing := store.Load(kind);
    ghost var i :| 0 <= i < |listing| && listing[i] == f;
    assert items[i] == e;
  }
}
