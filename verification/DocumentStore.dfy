/** The document store's read-modify-write and its cache, beside other processes.

    Every write, by whichever process, gives the file a new and later modification
    time.  Other processes write whenever this one does not hold the file lock, and
    never remove the file. */
module DocumentStore {
  import opened Common

  const SCHEMA_VERSION := 8

  datatype Version = Absent | NullVersion | Number(n: int) | BadType

  datatype Value = Collection(items: map<string, string>) | Null | OtherType

  /** A decoded file: its schema version and its top-level fields. */
  datatype Json = NotObject | Object(version: Version, fields: map<string, Value>)

  datatype Text = Unreadable | Parsed(json: Json)

  datatype StoreError = NotAnObject | BadVersion | TooNew | BadField | CannotRead | MutatorRaised | WriteFailed

  // ---- validation and migration ---------------------------------------------------

  function Filled(required: set<string>, fields: map<string, Value>): map<string, Value> {
    map k | k in fields.Keys + required ::
      if k in required && (k !in fields || fields[k].Null?) then Collection(map[]) else fields[k]
  }

  predicate WellTyped(required: set<string>, fields: map<string, Value>) {
    forall k :: k in required && k in fields ==> !fields[k].OtherType?
  }

  /** `_validate_doc`, for the set of required collections: missing fields are filled, wrongly typed ones refused. */
  function Validate(required: set<string>, doc: Json): Result<Json, StoreError> {
    if doc.NotObject? then Err(NotAnObject)
    else if doc.version.BadType? || !WellTyped(required, doc.fields) then Err(BadField)
    else Ok(Object(if doc.version.Number? then doc.version else Number(SCHEMA_VERSION), Filled(required, doc.fields)))
  }

  /** The field changes of all migrations from an older version; they end at `SCHEMA_VERSION`. */
  type Upgrade = (int, map<string, Value>) -> map<string, Value>

  /** `_migrate_doc`: the current form of a decoded document, and whether that changed it. */
  function Migrate(required: set<string>, upgrade: Upgrade, doc: Json): Result<(Json, bool), StoreError> {
    if doc.NotObject? then Err(NotAnObject)
    else if doc.version.BadType? || doc.version.NullVersion? then Err(BadVersion)
    else
      var version := if doc.version.Absent? then 0 else doc.version.n;
      if version < 0 then Err(BadVersion)
      else if version > SCHEMA_VERSION then Err(TooNew)
      else
        var current := if version < SCHEMA_VERSION then Object(Number(SCHEMA_VERSION), upgrade(version, doc.fields))
                       else doc;
        var valid := Validate(required, current);
        if valid.Err? then Err(valid.error)
        else Ok((valid.value, version < SCHEMA_VERSION || valid.value != current))
  }

  /** `_read_doc`: a missing file is an empty document; an unreadable one is an error. */
  function ReadDoc(required: set<string>, upgrade: Upgrade, content: Option<Text>): Result<(Json, bool), StoreError> {
    if content.None? then Migrate(required, upgrade, Object(Absent, map[]))
    else if content.value.Unreadable? then Err(CannotRead)
    else Migrate(required, upgrade, content.value.json)
  }

  /** A validated document reads back as itself exactly when its schema version is current. */
  lemma ReadsBackIffCurrent(required: set<string>, upgrade: Upgrade, doc: Json)
    requires doc.Object? && Validate(required, doc) == Ok(doc)
    ensures ReadDoc(required, upgrade, Some(Parsed(doc))) == Ok((doc, false)) <==> doc.version == Number(SCHEMA_VERSION)
  {
  }

  /** Whatever is read has the current schema version. */
  lemma ReadIsCurrent(required: set<string>, upgrade: Upgrade, content: Option<Text>)
    requires ReadDoc(required, upgrade, content).Ok?
    ensures ReadDoc(required, upgrade, content).value.0.Object?
    ensures ReadDoc(required, upgrade, content).value.0.version == Number(SCHEMA_VERSION)
  {
  }

  lemma ValidationIsIdempotent(required: set<string>, doc: Json)
    requires Validate(required, doc).Ok?
    ensures Validate(required, Validate(required, doc).value) == Validate(required, doc)
  {
    var filled := Filled(required, doc.fields);
    assert Filled(required, filled) == filled;
  }

  // ---- the shared file --------------------------------------------------------------

  class SharedFile {
    var content: Option<Text>
    var mtime: nat
    /** Every content the file has had, the present one last. */
    ghost var history: seq<Option<Text>>

    ghost predicate Valid()
      reads this
    {
      history != [] && history[|history| - 1] == content
    }

    function Stamp(): Option<nat>
      reads this
    {
      if content.None? then None else Some(mtime)
    }

    method Put(text: Text)
      requires Valid()
      modifies this
      ensures Valid() && content == Some(text) && mtime > old(mtime)
      ensures history == old(history) + [content]
    {
      content := Some(text);
      mtime := mtime + 1;
      history := history + [content];
    }

    /** Other processes write any number of times. */
    method Others()
      requires Valid()
      modifies this
      ensures Valid() && old(history) <= history
      ensures Evolved(old(content), old(mtime), content, mtime)
    {
      var more: bool := *;
      var left: int := *;
      while more && left > 0
        invariant Valid() && old(history) <= history
        invariant Evolved(old(content), old(mtime), content, mtime)
        decreases left
      {
        var text: Text := *;
        Put(text);
        more := *;
        left := left - 1;
      }
    }
  }

  /** The file is either untouched or present with a later time. */
  predicate Evolved(was: Option<Text>, before: nat, now: Option<Text>, after: nat) {
    (now == was && after == before) || (now.Some? && after > before)
  }

  // ---- one process ---------------------------------------------------------------------

  type Mutator = Json -> Result<Json, StoreError>

  class Store {
    const file: SharedFile
    const required: set<string>
    const upgrade: Upgrade
    var cachedDoc: Option<Json>
    var cachedTime: Option<nat>

    constructor (file: SharedFile, required: set<string>, upgrade: Upgrade)
      ensures this.file == file && this.required == required && this.upgrade == upgrade
      ensures Coherent() && cachedDoc == None
    {
      this.file, this.required, this.upgrade := file, required, upgrade;
      cachedDoc, cachedTime := None, None;
    }

    /** If the cached time is the file's, the cached document is what the file reads as. */
    ghost predicate Coherent()
      reads this, file
    {
      && (cachedDoc.Some? && cachedTime.Some? ==> cachedTime.value <= file.mtime)
      && (cachedDoc.Some? && cachedTime == file.Stamp() ==>
            && ReadDoc(required, upgrade, file.content).Ok?
            && ReadDoc(required, upgrade, file.content).value.0 == cachedDoc.value)
    }

    /** `load`: the modification time is read before the shared lock is taken.  The document
        returned is what the file read as at some moment of the call. */
    method Load() returns (r: Result<Json, StoreError>, ghost at: nat)
      requires file.Valid() && Coherent()
      modifies this, file
      ensures file.Valid() && Coherent()
      ensures old(file.history) <= file.history && |old(file.history)| - 1 <= at < |file.history|
      ensures var read := ReadDoc(required, upgrade, file.history[at]);
              if r.Ok? then read.Ok? && read.value.0 == r.value else read == Err(r.error)
      ensures r.Err? ==> cachedDoc == old(cachedDoc) && cachedTime == old(cachedTime)
    {
      var time := file.Stamp();
      at := |file.history| - 1;
      if cachedDoc.Some? && cachedTime == time {
        return Ok(cachedDoc.value), at;
      }
      file.Others();
      var read := ReadDoc(required, upgrade, file.content);
      at := |file.history| - 1;
      if read.Err? {
        return Err(read.error), at;
      }
      file.Others();
      cachedDoc, cachedTime := Some(read.value.0), time;
      r := Ok(read.value.0);
    }

    /** The write under the lock; it may fail before or after it took effect. */
    method Write(doc: Json) returns (ok: bool)
      requires file.Valid()
      modifies file
      ensures file.Valid() && old(file.history) <= file.history
      ensures Evolved(old(file.content), old(file.mtime), file.content, file.mtime)
      ensures || file.content == Some(Parsed(doc))
              || (!ok && file.content == old(file.content) && file.mtime == old(file.mtime))
    {
      var reached: bool := *;
      ok := *;
      if ok || reached {
        file.Put(Parsed(doc));
      }
    }

    /** The commit of a validated document: nothing is written if nothing changed, and the
        cache is refreshed only after a write that returned. */
    method Commit(doc: Json, before: Json, migrated: bool) returns (ok: bool)
      requires file.Valid() && Coherent()
      requires doc.Object? && Validate(required, doc) == Ok(doc)
      requires ReadDoc(required, upgrade, file.content) == Ok((before, migrated))
      modifies this, file
      ensures file.Valid() && old(file.history) <= file.history
      ensures doc.version == Number(SCHEMA_VERSION) ==> Coherent()
      ensures ok ==> (Coherent() <==> doc.version == Number(SCHEMA_VERSION))
      ensures ok ==> cachedDoc == Some(doc) && cachedTime == file.Stamp()
      ensures ok ==> file.content == if migrated || doc != before then Some(Parsed(doc)) else old(file.content)
      ensures !ok ==> cachedDoc == old(cachedDoc) && cachedTime == old(cachedTime)
      ensures !ok ==> file.content == old(file.content) || file.content == Some(Parsed(doc))
    {
      ok := true;
      if migrated || doc != before {
        ok := Write(doc);
        if !ok {
          return;
        }
      }
      ReadIsCurrent(required, upgrade, old(file.content));
      if ReadDoc(required, upgrade, file.content).Ok? {
        ReadIsCurrent(required, upgrade, file.content);
      }
      ReadsBackIffCurrent(required, upgrade, doc);
      cachedDoc, cachedTime := Some(doc), file.Stamp();
    }

    /** `update`: read, mutate, validate and commit, all under the exclusive lock, which is
        taken when the file holds `history[at]`.  A mutator that raises changes neither the
        file nor the cache; a failed write leaves the file in its old or its new form. */
    method Update(mutate: Mutator) returns (r: Result<Json, StoreError>, ghost at: nat)
      requires file.Valid() && Coherent()
      modifies this, file
      ensures file.Valid() && old(file.history) <= file.history && |old(file.history)| - 1 <= at < |file.history|
      ensures (forall j :: mutate(j).Ok? ==> KeepsVersion(mutate(j).value)) ==> Coherent()
      ensures r.Ok? ==> r.value.Object? && (Coherent() <==> r.value.version == Number(SCHEMA_VERSION))
      ensures var locked, updated := file.history[at], Updated(required, upgrade, mutate, file.history[at]);
              if r.Ok? then
                && updated == r && cachedDoc == Some(r.value) && cachedTime == file.Stamp()
                && file.content == (if ReadDoc(required, upgrade, locked) == Ok((r.value, false)) then locked
                                    else Some(Parsed(r.value)))
              else
                && cachedDoc == old(cachedDoc) && cachedTime == old(cachedTime)
                && (if r.error == WriteFailed && updated.Ok? then
                      file.content == locked || file.content == Some(Parsed(updated.value))
                    else updated == r && file.content == locked)
    {
      file.Others();
      at := |file.history| - 1;
      var read := ReadDoc(required, upgrade, file.content);
      if read.Err? {
        return Err(read.error), at;
      }
      var mutated := mutate(read.value.0);
      if mutated.Err? {
        return Err(mutated.error), at;
      }
      var valid := Validate(required, mutated.value);
      if valid.Err? {
        return Err(valid.error), at;
      }
      ValidationIsIdempotent(required, mutated.value);
      var ok := Commit(valid.value, read.value.0, read.value.1);
      r := if ok then Ok(valid.value) else Err(WriteFailed);
    }
  }

  /** The document an update commits, from what the file held when it was locked. */
  function Updated(required: set<string>, upgrade: Upgrade, mutate: Mutator,
                   locked: Option<Text>): Result<Json, StoreError> {
    var read := ReadDoc(required, upgrade, locked);
    if read.Err? then Err(read.error)
    else
      var mutated := mutate(read.value.0);
      if mutated.Err? then Err(mutated.error) else Validate(required, mutated.value)
  }

  predicate KeepsVersion(doc: Json) {
    doc.Object? ==> doc.version == Number(SCHEMA_VERSION)
  }
}
