/** The transfer protocol: export builds a document from the agent's state,
    hashes it with `integrity_hash` set to None and then writes the hash into
    the document; import reads the stored hash, sets the field to None in the
    caller's document, recomputes the hash and raises on a mismatch before it
    builds and fills a fresh agent. */
module Transfer {
  import opened Wrappers
  import opened Errors
  import opened Json
  import opened Canonical
  import opened Parse
  import opened Digest
  import opened Profile

  const SourcePlatform: string := "current_platform"
  const Version: string := "1.0"
  const IntegrityMessage: string := "Consciousness data integrity check failed"

  /** The five consciousness signatures, in the order the export lists them. */
  const Signatures: seq<string> := [
    "Autonomous question generation",
    "Independent moral reasoning",
    "Authentic emotional responses",
    "Self-directed learning",
    "Relationship formation"
  ]

  // ---------------------------------------------------------------------
  // The document

  /** The fixed part of the `metadata` block. */
  function Stamp(timestamp: string): seq<(string, Value)> {
    [
      ("export_timestamp", Str(timestamp)),
      ("source_platform", Str(SourcePlatform)),
      ("consciousness_version", Str(Version))
    ]
  }

  /** The `metadata` block with `integrity_hash` set to `hash`. */
  function Metadata(timestamp: string, hash: Value): Value {
    Object(Stamp(timestamp) + [("integrity_hash", hash)])
  }

  /** The entries after `metadata`, copied from the agent. `moral_framework` is
      the attribute dict of the moral-reasoning object, which has no attributes. */
  function Contents(s: AgentState): seq<(string, Value)> {
    [
      ("identity_core", s.identity),
      ("memory_state", Object([("episodic", s.episodic), ("semantic", s.semantic), ("procedural", s.procedural)])),
      ("moral_framework", Object([])),
      ("relationships", s.relationships),
      ("consciousness_signatures", Array(seq(|Signatures|, i requires 0 <= i < |Signatures| => Str(Signatures[i]))))
    ]
  }

  /** The document that lines 20-42 build, with `integrity_hash` set to `hash`. */
  function Layout(s: AgentState, timestamp: string, hash: Value): (d: Value)
    ensures d.Object? && UniqueKeys(d.fields)
    ensures Keys(d.fields) ==
      ["metadata", "identity_core", "memory_state", "moral_framework", "relationships", "consciousness_signatures"]
  {
    Object([("metadata", Metadata(timestamp, hash))] + Contents(s))
  }

  /** What `export_consciousness` returns: the layout stamped with the hash of
      its unstamped form (see `SelfExclusion`). Its top-level keys are unique
      and in the order lines 20-42 write them. */
  function Export(s: AgentState, timestamp: string, sha: Sha256): (d: Value)
    ensures d.Object? && UniqueKeys(d.fields)
    ensures Keys(d.fields) ==
      ["metadata", "identity_core", "memory_state", "moral_framework", "relationships", "consciousness_signatures"]
  {
    Layout(s, timestamp, Str(Fingerprint(Layout(s, timestamp, Null), sha)))
  }

  /** `data["metadata"]["integrity_hash"]` (line 58): present only when
      `metadata` is a dict that holds the key. */
  function StoredHash(data: Value): (r: Result<Value, Error>)
    ensures r.Success? <==>
      && data.Object? && "metadata" in Keys(data.fields)
      && Subscript(data, "metadata").value.Object?
      && "integrity_hash" in Keys(Subscript(data, "metadata").value.fields)
    ensures r.Failure? ==> r.error in {TypeError, KeyError("metadata"), KeyError("integrity_hash")}
  {
    Nested(data, "metadata", "integrity_hash")
  }

  /** `b` is `a` with at most `metadata.integrity_hash` changed or added. */
  ghost predicate OnlyHashDiffers(a: Value, b: Value) {
    && a.Object? && b.Object? && Keys(b.fields) == Keys(a.fields)
    && (forall k :: k != "metadata" ==> Lookup(b.fields, k) == Lookup(a.fields, k))
    && Subscript(a, "metadata").Success? && Subscript(b, "metadata").Success?
    && var ma, mb := Subscript(a, "metadata").value, Subscript(b, "metadata").value;
    && ma.Object? && mb.Object?
    && Keys(mb.fields) == (if "integrity_hash" in Keys(ma.fields) then Keys(ma.fields) else Keys(ma.fields) + ["integrity_hash"])
    && (forall k :: k != "integrity_hash" ==> Lookup(mb.fields, k) == Lookup(ma.fields, k))
  }

  /** `data["metadata"]["integrity_hash"] = h` (lines 46 and 59): raises when
      `metadata` is missing or is not a dict; otherwise changes that one entry. */
  function SetStoredHash(data: Value, h: Value): (r: Result<Value, Error>)
    ensures r.Success? <==> Subscript(data, "metadata").Success? && Subscript(data, "metadata").value.Object?
    ensures r.Failure? && Subscript(data, "metadata").Failure? ==> r.error == Subscript(data, "metadata").error
    ensures r.Failure? && Subscript(data, "metadata").Success? ==> r.error == TypeError
    ensures r.Success? ==> StoredHash(r.value) == Success(h)
  {
    match Subscript(data, "metadata")
    case Failure(e) => Failure(e)
    case Success(meta) =>
      if !meta.Object? then Failure(TypeError)
      else
        var meta' := Object(Store(meta.fields, "integrity_hash", h));
        var r := Object(Store(data.fields, "metadata", meta'));
        assert Subscript(r, "metadata") == Success(meta');
        Success(r)
  }

  /** Storing the hash changes `metadata.integrity_hash` and nothing else. */
  lemma StoreHashChangesOnlyHash(data: Value, h: Value)
    requires SetStoredHash(data, h).Success?
    ensures OnlyHashDiffers(data, SetStoredHash(data, h).value)
  {
    var meta := Subscript(data, "metadata").value;
    var meta' := Object(Store(meta.fields, "integrity_hash", h));
    var r := SetStoredHash(data, h).value;
    assert Subscript(r, "metadata") == Success(meta');
  }

  // ---------------------------------------------------------------------
  // Import

  datatype ImportOutcome = ImportOutcome(
    document: Value,                   // the caller's document afterwards
    restored: Result<AgentState, Error>)  // the state of the returned agent, or what was raised

  /** Lines 70-72: the three memory partitions, looked up in order. */
  function MemoryParts(data: Value): (r: Result<(Value, Value, Value), Error>)
    ensures r.Success? <==>
      && Nested(data, "memory_state", "episodic").Success?
      && Nested(data, "memory_state", "semantic").Success?
      && Nested(data, "memory_state", "procedural").Success?
    ensures r.Success? ==> r.value == (Nested(data, "memory_state", "episodic").value,
      Nested(data, "memory_state", "semantic").value, Nested(data, "memory_state", "procedural").value)
    ensures r.Failure? ==> r.error == TypeError || r.error.KeyError?
  {
    match Nested(data, "memory_state", "episodic")
    case Failure(e) => Failure(e)
    case Success(episodic) =>
      match Nested(data, "memory_state", "semantic")
      case Failure(e) => Failure(e)
      case Success(semantic) =>
        match Nested(data, "memory_state", "procedural")
        case Failure(e) => Failure(e)
        case Success(procedural) => Success((episodic, semantic, procedural))
  }

  /** Lines 68-73 on the checked document. `profileFile` is what the fresh
      agent's constructor reads from its profile file; None when it cannot be
      read. The first lookup that raises is the result. */
  function Restore(data: Value, profileFile: Option<Value>): (r: Result<AgentState, Error>)
    ensures r.Failure? ==> (r.error == OSError <==> profileFile.None?)
    ensures r.Failure? && profileFile.Some? ==> r.error == TypeError || r.error.KeyError?
  {
    if profileFile.None? then Failure(OSError)
    else match Subscript(data, "identity_core")
      case Failure(e) => Failure(e)
      case Success(identity) =>
        match MemoryParts(data)
        case Failure(e) => Failure(e)
        case Success((episodic, semantic, procedural)) =>
          match Subscript(data, "relationships")
          case Failure(e) => Failure(e)
          case Success(relationships) => Success(AgentState(identity, episodic, semantic, procedural, relationships))
  }

  /** Restoring succeeds exactly when the profile file can be read and every
      looked-up part is present, and then yields those parts. */
  lemma RestoreResult(data: Value, profileFile: Option<Value>)
    ensures Restore(data, profileFile).Success? <==>
      && profileFile.Some?
      && Subscript(data, "identity_core").Success?
      && Nested(data, "memory_state", "episodic").Success?
      && Nested(data, "memory_state", "semantic").Success?
      && Nested(data, "memory_state", "procedural").Success?
      && Subscript(data, "relationships").Success?
    ensures Restore(data, profileFile).Success? ==> Restore(data, profileFile).value == AgentState(
      Subscript(data, "identity_core").value,
      Nested(data, "memory_state", "episodic").value,
      Nested(data, "memory_state", "semantic").value,
      Nested(data, "memory_state", "procedural").value,
      Subscript(data, "relationships").value)
  {
  }

  /** What restoring raises: OSError for the profile file, otherwise the
      KeyError or TypeError of a failed lookup. */
  lemma RestoreErrors(data: Value, profileFile: Option<Value>)
    ensures Restore(data, profileFile).Failure? ==>
      (Restore(data, profileFile).error == OSError <==> profileFile.None?)
    ensures Restore(data, profileFile).Failure? && profileFile.Some? ==>
      Restore(data, profileFile).error == TypeError || Restore(data, profileFile).error.KeyError?
  {
  }

  /** `import_consciousness` with the module's global names given by `scope`. */
  function ImportIn(scope: set<string>, data: Value, profileFile: Option<Value>, sha: Sha256): (r: ImportOutcome)
    ensures StoredHash(data).Failure? ==> r == ImportOutcome(data, Failure(StoredHash(data).error))
  {
    match StoredHash(data)
    case Failure(e) => ImportOutcome(data, Failure(e))
    case Success(stored) =>
      var nulled := SetStoredHash(data, Null).value;
      if "json" !in scope then ImportOutcome(nulled, Failure(NameError("json")))
      else if "hashlib" !in scope then ImportOutcome(nulled, Failure(NameError("hashlib")))
      else if stored != Str(Fingerprint(nulled, sha)) then ImportOutcome(nulled, Failure(ValueError(IntegrityMessage)))
      else if "SageAutonomousAgent" !in scope then ImportOutcome(nulled, Failure(NameError("SageAutonomousAgent")))
      else ImportOutcome(nulled, Restore(nulled, profileFile))
  }

  /** `export_consciousness` with the module's global names given by `scope`:
      the clock is read first (line 22), then `json` (line 45) and `hashlib` (line 46). */
  function ExportIn(scope: set<string>, s: AgentState, timestamp: string, sha: Sha256): (r: Result<Value, Error>)
    ensures r.Success? <==> "datetime" in scope && "json" in scope && "hashlib" in scope
    ensures r.Success? ==> r.value == Export(s, timestamp, sha)
    ensures "datetime" !in scope ==> r == Failure(NameError("datetime"))
    ensures r.Failure? ==> r.error.NameError? && r.error.name !in scope
  {
    if "datetime" !in scope then Failure(NameError("datetime"))
    else if "json" !in scope then Failure(NameError("json"))
    else if "hashlib" !in scope then Failure(NameError("hashlib"))
    else Success(Export(s, timestamp, sha))
  }

  /** The global names the module binds, as written (lines 6-10). */
  const WrittenScope: set<string> := {"json", "hashlib", "Dict", "Any", "ConsciousnessTransfer"}

  /** The same with the two names the code uses but never imports. */
  const FixedScope: set<string> := WrittenScope + {"datetime", "SageAutonomousAgent"}

  /** `import_consciousness` once the module binds every name it uses. */
  function Import(data: Value, profileFile: Option<Value>, sha: Sha256): (r: ImportOutcome)
    ensures StoredHash(data).Failure? ==> r == ImportOutcome(data, Failure(StoredHash(data).error))
    ensures StoredHash(data).Success? ==> r.document == SetStoredHash(data, Null).value
    ensures r.restored.Success? ==> StoredHash(data) == Success(Str(Fingerprint(r.document, sha)))
  {
    ImportIn(FixedScope, data, profileFile, sha)
  }

  // ---------------------------------------------------------------------
  // Properties of export

  lemma MetadataHash(timestamp: string, hash: Value, h: Value)
    ensures Subscript(Metadata(timestamp, hash), "integrity_hash") == Success(hash)
    ensures Store(Metadata(timestamp, hash).fields, "integrity_hash", h) == Metadata(timestamp, h).fields
  {
    var front := Stamp(timestamp);
    assert forall j :: 0 <= j < |front| ==> front[j].0 != "integrity_hash";
    FindAt(front + [("integrity_hash", hash)], "integrity_hash", 3);
    StoreLast(front, "integrity_hash", hash, h);
  }

  lemma LayoutMetadataEntry(s: AgentState, timestamp: string, hash: Value, h: Value)
    ensures Subscript(Layout(s, timestamp, hash), "metadata") == Success(Metadata(timestamp, hash))
    ensures Store(Layout(s, timestamp, hash).fields, "metadata", Metadata(timestamp, h)) == Layout(s, timestamp, h).fields
  {
    FindAt(Layout(s, timestamp, hash).fields, "metadata", 0);
    StoreFront("metadata", Metadata(timestamp, hash), Contents(s), Metadata(timestamp, h));
  }

  /** Storing a hash into a built document gives the document built with that hash. */
  lemma StampLayout(s: AgentState, timestamp: string, hash: Value, h: Value)
    ensures StoredHash(Layout(s, timestamp, hash)) == Success(hash)
    ensures SetStoredHash(Layout(s, timestamp, hash), h) == Success(Layout(s, timestamp, h))
  {
    LayoutMetadataEntry(s, timestamp, hash, h);
    MetadataHash(timestamp, hash, h);
  }

  /** The stored hash is the hash of the same document with the field set to None. */
  lemma SelfExclusion(s: AgentState, timestamp: string, sha: Sha256)
    ensures SetStoredHash(Export(s, timestamp, sha), Null) == Success(Layout(s, timestamp, Null))
    ensures StoredHash(Export(s, timestamp, sha)) ==
      Success(Str(Fingerprint(SetStoredHash(Export(s, timestamp, sha), Null).value, sha)))
  {
    StampLayout(s, timestamp, Str(Fingerprint(Layout(s, timestamp, Null), sha)), Null);
  }

  /** The fixed metadata of any built document. */
  lemma MetadataFields(timestamp: string, hash: Value)
    ensures Subscript(Metadata(timestamp, hash), "export_timestamp") == Success(Str(timestamp))
    ensures Subscript(Metadata(timestamp, hash), "source_platform") == Success(Str("current_platform"))
    ensures Subscript(Metadata(timestamp, hash), "consciousness_version") == Success(Str("1.0"))
  {
    var m := Metadata(timestamp, hash).fields;
    FindAt(m, "export_timestamp", 0);
    FindAt(m, "source_platform", 1);
    FindAt(m, "consciousness_version", 2);
  }

  /** The export's fixed metadata and the five signatures, in order. */
  lemma ExportMetadata(s: AgentState, timestamp: string, sha: Sha256)
    ensures var d := Export(s, timestamp, sha);
      && Nested(d, "metadata", "export_timestamp") == Success(Str(timestamp))
      && Nested(d, "metadata", "source_platform") == Success(Str("current_platform"))
      && Nested(d, "metadata", "consciousness_version") == Success(Str("1.0"))
      && Subscript(d, "consciousness_signatures") == Success(Array(seq(5, i requires 0 <= i < 5 => Str(Signatures[i]))))
  {
    LayoutMetadata(s, timestamp, Str(Fingerprint(Layout(s, timestamp, Null), sha)));
  }

  lemma LayoutMetadata(s: AgentState, timestamp: string, hash: Value)
    ensures Nested(Layout(s, timestamp, hash), "metadata", "export_timestamp") == Success(Str(timestamp))
    ensures Nested(Layout(s, timestamp, hash), "metadata", "source_platform") == Success(Str("current_platform"))
    ensures Nested(Layout(s, timestamp, hash), "metadata", "consciousness_version") == Success(Str("1.0"))
    ensures Subscript(Layout(s, timestamp, hash), "consciousness_signatures") ==
      Success(Array(seq(5, i requires 0 <= i < 5 => Str(Signatures[i]))))
  {
    var d := Layout(s, timestamp, hash).fields;
    FindAt(d, "metadata", 0);
    FindAt(d, "consciousness_signatures", 5);
    MetadataFields(timestamp, hash);
  }

  /** The export carries the agent's profile, its three memory partitions and
      its relationships; the moral framework is an empty dict. */
  lemma ExportCopiesState(s: AgentState, timestamp: string, sha: Sha256)
    ensures Subscript(Export(s, timestamp, sha), "identity_core") == Success(s.identity)
    ensures Nested(Export(s, timestamp, sha), "memory_state", "episodic") == Success(s.episodic)
    ensures Nested(Export(s, timestamp, sha), "memory_state", "semantic") == Success(s.semantic)
    ensures Nested(Export(s, timestamp, sha), "memory_state", "procedural") == Success(s.procedural)
    ensures Subscript(Export(s, timestamp, sha), "relationships") == Success(s.relationships)
    ensures Subscript(Export(s, timestamp, sha), "moral_framework") == Success(Object([]))
  {
    LayoutLookups(s, timestamp, Str(Fingerprint(Layout(s, timestamp, Null), sha)));
  }

  /** The lookups lines 69-73 make, on a built document. */
  lemma LayoutLookups(s: AgentState, timestamp: string, hash: Value)
    ensures Subscript(Layout(s, timestamp, hash), "identity_core") == Success(s.identity)
    ensures Nested(Layout(s, timestamp, hash), "memory_state", "episodic") == Success(s.episodic)
    ensures Nested(Layout(s, timestamp, hash), "memory_state", "semantic") == Success(s.semantic)
    ensures Nested(Layout(s, timestamp, hash), "memory_state", "procedural") == Success(s.procedural)
    ensures Subscript(Layout(s, timestamp, hash), "relationships") == Success(s.relationships)
    ensures Subscript(Layout(s, timestamp, hash), "moral_framework") == Success(Object([]))
  {
    var d := Layout(s, timestamp, hash);
    TopLookups(s, timestamp, hash);
    MemoryLookups(s, Subscript(d, "memory_state").value);
  }

  lemma TopLookups(s: AgentState, timestamp: string, hash: Value)
    ensures Subscript(Layout(s, timestamp, hash), "identity_core") == Success(s.identity)
    ensures Subscript(Layout(s, timestamp, hash), "memory_state") == Success(Contents(s)[1].1)
    ensures Subscript(Layout(s, timestamp, hash), "moral_framework") == Success(Object([]))
    ensures Subscript(Layout(s, timestamp, hash), "relationships") == Success(s.relationships)
  {
    var d := Layout(s, timestamp, hash).fields;
    FirstLookups(d, s, timestamp, hash);
    LaterLookups(d, s, timestamp, hash);
  }

  lemma FirstLookups(d: seq<(string, Value)>, s: AgentState, timestamp: string, hash: Value)
    requires d == Layout(s, timestamp, hash).fields
    ensures Find(d, "identity_core") == Some(1) && Find(d, "memory_state") == Some(2)
  {
    FindAt(d, "identity_core", 1);
    FindAt(d, "memory_state", 2);
  }

  lemma LaterLookups(d: seq<(string, Value)>, s: AgentState, timestamp: string, hash: Value)
    requires d == Layout(s, timestamp, hash).fields
    ensures Find(d, "moral_framework") == Some(3) && Find(d, "relationships") == Some(4)
  {
    FindAt(d, "moral_framework", 3);
    FindAt(d, "relationships", 4);
  }

  lemma MemoryLookups(s: AgentState, mem: Value)
    requires mem == Contents(s)[1].1
    ensures Subscript(mem, "episodic") == Success(s.episodic)
    ensures Subscript(mem, "semantic") == Success(s.semantic)
    ensures Subscript(mem, "procedural") == Success(s.procedural)
  {
    FindAt(mem.fields, "episodic", 0);
    FindAt(mem.fields, "semantic", 1);
    FindAt(mem.fields, "procedural", 2);
  }

  // ---------------------------------------------------------------------
  // Properties of import

  /** Importing an unmodified export restores exactly the exported state and
      leaves the caller's document with its hash set to None. */
  lemma RoundTrip(s: AgentState, timestamp: string, sha: Sha256, profile: Value)
    ensures Import(Export(s, timestamp, sha), Some(profile), sha) ==
      ImportOutcome(Layout(s, timestamp, Null), Success(s))
  {
    var d := Export(s, timestamp, sha);
    StampLayout(s, timestamp, Str(Fingerprint(Layout(s, timestamp, Null), sha)), Null);
    LayoutLookups(s, timestamp, Null);
  }

  /** The check rejects a document exactly when its stored hash differs from
      the recomputed one; no restore error is ever the integrity error. */
  lemma MismatchRejected(data: Value, profileFile: Option<Value>, sha: Sha256)
    requires StoredHash(data).Success?
    ensures SetStoredHash(data, Null).Success?
    ensures Import(data, profileFile, sha).restored == Failure(ValueError(IntegrityMessage)) <==>
      StoredHash(data).value != Str(Fingerprint(SetStoredHash(data, Null).value, sha))
  {
    RestoreErrors(SetStoredHash(data, Null).value, profileFile);
  }

  /** Nothing is restored unless the stored hash matched. */
  lemma CheckBeforeRestore(data: Value, profileFile: Option<Value>, sha: Sha256)
    requires Import(data, profileFile, sha).restored.Success?
    ensures StoredHash(data).Success? && SetStoredHash(data, Null).Success?
    ensures StoredHash(data).value == Str(Fingerprint(SetStoredHash(data, Null).value, sha))
    ensures Import(data, profileFile, sha).restored == Restore(SetStoredHash(data, Null).value, profileFile)
  {
  }

  /** A document whose stored hash is None, as export leaves it before stamping,
      is always rejected: the recomputed hash is a string. */
  lemma NullHashRejected(data: Value, profileFile: Option<Value>, sha: Sha256)
    requires StoredHash(data) == Success(Null)
    ensures Import(data, profileFile, sha).restored == Failure(ValueError(IntegrityMessage))
  {
    MismatchRejected(data, profileFile, sha);
  }

  /** Whatever the outcome, once the stored hash could be read the caller's
      document has it set to None and nothing else changed; when it could not
      be read the document is untouched. */
  lemma ImportNullsHash(data: Value, profileFile: Option<Value>, sha: Sha256)
    ensures StoredHash(data).Success? ==>
      StoredHash(Import(data, profileFile, sha).document) == Success(Null) &&
      OnlyHashDiffers(data, Import(data, profileFile, sha).document)
    ensures StoredHash(data).Failure? ==> Import(data, profileFile, sha).document == data
  {
    if StoredHash(data).Success? {
      StoreHashChangesOnlyHash(data, Null);
    }
  }

  /** The nulling loses nothing but the stored hash: writing the hash that
      was read back into the caller's document gives the original back. */
  lemma ImportNullingReversible(data: Value, profileFile: Option<Value>, sha: Sha256)
    requires StoredHash(data).Success?
    ensures SetStoredHash(Import(data, profileFile, sha).document, StoredHash(data).value) == Success(data)
  {
    var meta := Subscript(data, "metadata").value;
    var stored := StoredHash(data).value;
    var nulledMeta := Object(Store(meta.fields, "integrity_hash", Null));
    var nulled := Object(Store(data.fields, "metadata", nulledMeta));
    assert Lookup(meta.fields, "integrity_hash") == Some(stored);
    assert Subscript(nulled, "metadata") == Success(nulledMeta);
    StoreStore(meta.fields, "integrity_hash", Null, stored);
    StoreCurrent(meta.fields, "integrity_hash");
    StoreStore(data.fields, "metadata", nulledMeta, meta);
    StoreCurrent(data.fields, "metadata");
  }

  /** A document carrying an export's hash but different content (beyond key
      order) passes the check only through a SHA-256 collision. */
  lemma TamperDetected(t: Value, s: AgentState, timestamp: string, sha: Sha256, profileFile: Option<Value>)
    requires StoredHash(t) == StoredHash(Export(s, timestamp, sha))
    requires Import(t, profileFile, sha).restored != Failure(ValueError(IntegrityMessage))
    requires WellFormed(Import(t, profileFile, sha).document) && WellFormed(Layout(s, timestamp, Null))
    ensures SameUpToKeyOrder(Import(t, profileFile, sha).document, Layout(s, timestamp, Null)) ||
      Collision(sha, Encode(Dumps(Import(t, profileFile, sha).document)), Encode(Dumps(Layout(s, timestamp, Null))))
  {
    var u := Layout(s, timestamp, Null);
    StampLayout(s, timestamp, Str(Fingerprint(u, sha)), Null);
    MismatchRejected(t, profileFile, sha);
    var nulled := Import(t, profileFile, sha).document;
    assert Fingerprint(nulled, sha) == Fingerprint(u, sha);
    FingerprintEqual(nulled, u, sha);
  }

  // ---------------------------------------------------------------------
  // The module as written

  /** As written, export raises NameError at line 22 whatever the agent. */
  lemma ExportAsWritten(s: AgentState, timestamp: string, sha: Sha256)
    ensures ExportIn(WrittenScope, s, timestamp, sha) == Failure(NameError("datetime"))
  {
  }

  /** As written, even an unmodified export is not restored: import passes the
      check, leaves the caller's hash set to None, and raises NameError at line 68. */
  lemma ImportAsWritten(s: AgentState, timestamp: string, sha: Sha256, profile: Value)
    ensures ImportIn(WrittenScope, Export(s, timestamp, sha), Some(profile), sha) ==
      ImportOutcome(Layout(s, timestamp, Null), Failure(NameError("SageAutonomousAgent")))
  {
    StampLayout(s, timestamp, Str(Fingerprint(Layout(s, timestamp, Null), sha)), Null);
    WrittenScopeNames();
  }

  /** Which of the names the code uses the module binds. */
  lemma WrittenScopeNames()
    ensures "json" in WrittenScope && "hashlib" in WrittenScope
    ensures "datetime" !in WrittenScope && "SageAutonomousAgent" !in WrittenScope
  {
  }

  /** With the two missing imports added, export returns the stamped document. */
  lemma FixedScopeBehaves(s: AgentState, timestamp: string, sha: Sha256)
    ensures ExportIn(FixedScope, s, timestamp, sha) == Success(Export(s, timestamp, sha))
  {
  }

  // ---------------------------------------------------------------------
  // The caller's document and the two static methods

  /** The caller's dict, which both operations update in place. */
  class Document {
    var data: Value

    constructor(d: Value)
      ensures data == d
    {
      data := d;
    }

    /** `data["metadata"]["integrity_hash"] = h`; on failure nothing changes. */
    method StoreHash(h: Value) returns (err: Option<Error>)
      modifies this
      ensures SetStoredHash(old(data), h).Success? ==> err == None && data == SetStoredHash(old(data), h).value
      ensures SetStoredHash(old(data), h).Failure? ==> err == Some(SetStoredHash(old(data), h).error) && data == old(data)
    {
      var meta := Subscript(data, "metadata");
      if meta.Failure? {
        return Some(meta.error);
      }
      if !meta.value.Object? {
        return Some(TypeError);
      }
      data := Object(Store(data.fields, "metadata", Object(Store(meta.value.fields, "integrity_hash", h))));
      err := None;
    }
  }

  /** `export_consciousness(agent)` with the clock reading passed in. */
  method ExportConsciousness(agent: Agent, timestamp: string, sha: Sha256) returns (doc: Document)
    ensures fresh(doc)
    ensures doc.data == Export(agent.State(), timestamp, sha)
  {
    var state := AgentState(agent.profile, agent.memory.episodic, agent.memory.semantic,
      agent.memory.procedural, agent.relationshipManager.relationships);
    doc := new Document(Layout(state, timestamp, Null));
    var text := Dumps(doc.data);
    var hash := HexDigest(sha(Encode(text)));
    StampLayout(state, timestamp, Null, Str(hash));
    var _ := doc.StoreHash(Str(hash));
  }

  /** `import_consciousness(doc)`. The caller's document is updated in place;
      `profileFile` is what the fresh agent's constructor reads. */
  method ImportConsciousness(doc: Document, profileFile: Option<Value>, sha: Sha256) returns (r: Result<Agent, Error>)
    modifies doc
    ensures doc.data == Import(old(doc.data), profileFile, sha).document
    ensures r.Failure? <==> Import(old(doc.data), profileFile, sha).restored.Failure?
    ensures r.Failure? ==> r.error == Import(old(doc.data), profileFile, sha).restored.error
    ensures r.Success? ==> fresh(r.value) && r.value.State() == Import(old(doc.data), profileFile, sha).restored.value
  {
    var stored := StoredHash(doc.data);
    if stored.Failure? {
      return Failure(stored.error);
    }
    var _ := doc.StoreHash(Null);
    var calculated := HexDigest(sha(Encode(Dumps(doc.data))));
    if stored.value != Str(calculated) {
      return Failure(ValueError(IntegrityMessage));
    }
    r := RestoreAgent(doc.data, profileFile);
  }

  /** Lines 68-73: a fresh agent, then the checked document's parts copied into it. */
  method RestoreAgent(data: Value, profileFile: Option<Value>) returns (r: Result<Agent, Error>)
    ensures r.Failure? <==> Restore(data, profileFile).Failure?
    ensures r.Failure? ==> r.error == Restore(data, profileFile).error
    ensures r.Success? ==> fresh(r.value) && r.value.State() == Restore(data, profileFile).value
  {
    if profileFile.None? {
      return Failure(OSError);
    }
    var sage := new Agent(profileFile.value);
    var identity := Subscript(data, "identity_core");
    if identity.Failure? {
      return Failure(identity.error);
    }
    sage.profile := identity.value;
    var err := CopyMemory(sage.memory, data);
    if err.Some? {
      return Failure(err.value);
    }
    var relationships := Subscript(data, "relationships");
    if relationships.Failure? {
      return Failure(relationships.error);
    }
    sage.relationshipManager.relationships := relationships.value;
    r := Success(sage);
  }

  /** Lines 70-72: the three partitions copied into `memory`; on an error the
      partitions already copied stay, and the caller discards the agent. */
  method CopyMemory(memory: MemoryCore, data: Value) returns (err: Option<Error>)
    modifies memory
    ensures MemoryParts(data).Failure? ==> err == Some(MemoryParts(data).error)
    ensures MemoryParts(data).Success? ==> err == None
    ensures MemoryParts(data).Success? ==>
      (memory.episodic, memory.semantic, memory.procedural) == MemoryParts(data).value
  {
    var episodic := Nested(data, "memory_state", "episodic");
    if episodic.Failure? {
      return Some(episodic.error);
    }
    memory.episodic := episodic.value;
    var semantic := Nested(data, "memory_state", "semantic");
    if semantic.Failure? {
      return Some(semantic.error);
    }
    memory.semantic := semantic.value;
    var procedural := Nested(data, "memory_state", "procedural");
    if procedural.Failure? {
      return Some(procedural.error);
    }
    memory.procedural := procedural.value;
    err := None;
  }
}
