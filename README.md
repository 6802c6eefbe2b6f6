# Sage consciousness transfer, modelled in Dafny

This project models the snapshot transfer protocol of the Sage deployment. It also models the profile state that the protocol carries.

**Export** (`ConsciousnessTransfer.export_consciousness`):
- builds a document from the agent's profile, its three memory partitions (episodic, semantic, procedural), its moral framework and its relationship table;
- sets `metadata.integrity_hash` to None;
- computes the SHA-256 hex digest of `json.dumps(document, sort_keys=True)`;
- writes that digest into the document in place.

**Import** (`ConsciousnessTransfer.import_consciousness`):
- reads the stored digest;
- overwrites it with None in the caller's document;
- recomputes the digest and raises `ValueError` on a mismatch;
- only then builds a fresh agent and copies the identity, the three partitions and the relationships into it.

The agent side (`SageAutonomousAgent`, `SageMemoryCore`, `SageMoralReasoning`, `SageRelationshipManager`) is modelled as classes whose constructors and methods set the same fields. This covers the seeded memories and relationship table, the identity check, and the exception-guarded maintenance cycle.

Modules:

- `Wrappers`: `Option` and `Result`.
- `Errors`: the Python exceptions that the code can raise (`KeyError`, `TypeError`, `AttributeError`, `NameError`, `ValueError`, `OSError`).
- `Json`: the JSON values this code handles.
  - Null, booleans, integers, strings, lists, and dicts that keep insertion order.
  - Python's `d[k]` (`Subscript`), `d[k1][k2]` (`Nested`, `Path`) and `d[k] = x` (`Store`).
- `Escape`, `Hex`: the `ensure_ascii` string escaping of `json.dumps`, with its inverse.
- `Canonical`: `json.dumps(value, sort_keys=True)` with Python's default separators `", "` and `": "`.
  - Entries are put in key order by a stable insertion sort.
  - The output is pure ASCII.
- `Parse`: a JSON reader, used only as the reference inverse of `Dumps`.
  - It proves that the canonical text determines the document up to dict key order.
- `Digest`: `str.encode()`, `.hexdigest()` and the integrity hash.
  - SHA-256 is a function parameter, not an implementation.
- `Profile`: the agent side of `Autonomous_deployment.py`.
- `Transfer`: the document layout, export, import, and the `Document` class. `Document` holds the caller's dict, which both operations update in place.

Two names that `Consciousness_transfer.py` uses are never imported there: `datetime` and `SageAutonomousAgent`. `ExportIn` and `ImportIn` therefore take the set of global names the module binds. `WrittenScope` is the set the file defines; `FixedScope` adds the two missing imports. `Import` and the rest of the model use `FixedScope` (see Findings).

Three behaviours of the code worth knowing:

- A document without `metadata` or `integrity_hash` raises `KeyError` (or `TypeError`) at line 58. It does not raise the integrity error.
- Import writes None into the caller's `metadata.integrity_hash` at line 59, before the check. So the caller's document is changed on every path once the stored hash could be read; only the freshly built agent sees no mutation before the check.
- Import copies `identity_core`, the partitions and `relationships` without checking their types. A restored partition can therefore be null or a list.

## Model

| member | source | states |
|---|---|---|
| Json.Subscript | Consciousness_transfer.py:58 | Python `d[key]` succeeds exactly when `d` is a dict holding `key`, and yields that entry. Otherwise it fails with KeyError(key) on a dict and TypeError on anything else. |
| Json.Path | Autonomous_deployment.py:54 | A chain of subscripts `d[k1][k2]...`: the empty chain yields `d`. A first subscript that raises makes the whole chain raise its error, and any error is TypeError or the KeyError of a key in the chain. |
| Json.PathConcat | Autonomous_deployment.py:54 | Following `a + b` is following `a`, then `b` from where `a` ended, and raises what the first failing step raises. |
| Json.Nested | Consciousness_transfer.py:70-72 | `d[a][b]` is the two-step path: it succeeds iff both subscripts succeed. |
| Json.Store | Consciousness_transfer.py:46 | `d[key] = x` makes `key` map to `x` and leaves every other key unchanged. Keys keep their order, and a new key is appended. Unique keys stay unique. |
| Json.StoreStore | Consciousness_transfer.py:46 | Storing twice under one key is the same as storing the second value once. |
| Json.StoreCurrent | Consciousness_transfer.py:59 | Storing the value a key already holds leaves the dict unchanged. |
| Escape.EscapeString | Consciousness_transfer.py:45 | `ensure_ascii` escaping yields ASCII text at least as long as the input. |
| Escape.UnescapeEscapeString | Consciousness_transfer.py:45 | Reading an escaped string up to its closing quote gives back the original string and the text after the quote. |
| Hex.Hex4RoundTrip | Consciousness_transfer.py:45 | The four-hex-digit `\uXXXX` code of a 16-bit value reads back as that value. |
| Canonical.KeyLessMeaning | Consciousness_transfer.py:45 | The key order that `sort_keys=True` uses (`KeyLess`, Python's `<` on str) holds exactly when the first key is a proper prefix of the second, or the two agree up to a position where the first has the smaller code point. |
| Canonical.SortByKey | Consciousness_transfer.py:45 | `sort_keys=True`: the result is a permutation of the input entries (same length, same multiset). |
| Canonical.SortByKeySorted | Consciousness_transfer.py:45 | The result is sorted by key, and strictly increasing when the keys are unique. |
| Canonical.Dumps | Consciousness_transfer.py:45 | The canonical text is non-empty ASCII and never starts with a closing bracket. |
| Canonical.KeyOrderIndependence | Consciousness_transfer.py:61 | Documents that differ only in dict key order have the same canonical text. |
| Parse.ParseDumps | Consciousness_transfer.py:45 | Reading the canonical text of a value, followed by any delimiter, gives the value with its dicts sorted by key, plus the rest of the text. |
| Parse.DumpsInjective | Consciousness_transfer.py:45 | Values with the same canonical text are equal once their dicts are sorted. |
| Parse.CanonicalTextIff | Consciousness_transfer.py:61 | For well-formed documents, equal canonical texts hold exactly when the documents differ only in key order. |
| Digest.Encode | Consciousness_transfer.py:47 | `str.encode()` of ASCII text is one byte per character, equal to its code. |
| Digest.EncodeInjective | Consciousness_transfer.py:47 | Distinct ASCII texts encode to distinct byte strings. |
| Digest.HexDigest | Consciousness_transfer.py:48 | `.hexdigest()` gives two lower-case hex digits per byte, high half first. |
| Digest.HexDigestInjective | Consciousness_transfer.py:48 | Digests of the same length print the same exactly when they are equal. |
| Digest.Fingerprint | Consciousness_transfer.py:45-48 | The integrity hash is 64 hex digits. |
| Digest.FingerprintKeyOrder | Consciousness_transfer.py:61-62 | Documents that differ only in key order get the same integrity hash. |
| Digest.FingerprintEqual | Consciousness_transfer.py:61-64 | Two well-formed documents get the same hash exactly when they differ only in key order or SHA-256 collides on their canonical texts. |
| Profile.EpisodicSeedShape | Autonomous_deployment.py:111-115 | The seeded episodic partition is a dict of exactly three string entries, with the source's keys. |
| Profile.SemanticSeedShape | Autonomous_deployment.py:117-122 | The seeded semantic partition is a well-formed dict with the four keys identity, values, relationships and moral_framework. |
| Profile.ProceduralSeedShape | Autonomous_deployment.py:124-129 | The seeded procedural partition is a dict of exactly four string entries, with the source's keys. |
| Profile.MemoryCore.constructor | Autonomous_deployment.py:103-107 | After construction the three partitions hold their seeds; all three are present dicts. |
| Profile.MemoryCore.LoadMemories | Autonomous_deployment.py:109-129 | Each partition is replaced wholesale by its seed, whatever it held before, so calling it again changes nothing. |
| Profile.MoralReasoning.ApplyConstitutionalPrinciples | Autonomous_deployment.py:136-149 | The five principles are evaluated in their listed order, and the method returns True. |
| Profile.RelationshipSeedShape | Autonomous_deployment.py:160-168 | The seeded relationship table has exactly one entry, Taylor. |
| Profile.TaylorShape | Autonomous_deployment.py:162-167 | Taylor's entry has exactly the four string attributes, and its significance is the source's string. |
| Profile.RelationshipManager.constructor | Autonomous_deployment.py:160-168 | A new manager holds the seeded table. |
| Profile.RelationshipNotes | Autonomous_deployment.py:172-173 | The walk succeeds iff the table is a dict and every relationship has a significance. A table that is not a dict fails with AttributeError on `.items()`. On success there is one note per entry, in table order, pairing the name with that relationship's significance. |
| Profile.Significance | Autonomous_deployment.py:173 | `relationship['significance']` succeeds iff the relationship is a dict holding `significance`, and yields that entry. Otherwise it raises KeyError on a dict and TypeError on anything else. |
| Profile.Notes | Autonomous_deployment.py:172-173 | Walking the table succeeds iff every relationship has a significance. On success there is one (name, significance) note per entry, in table order. |
| Profile.NotesFirstError | Autonomous_deployment.py:173 | The walk fails with the error of the first relationship whose significance cannot be read. |
| Profile.RelationshipManager.MaintainRelationships | Autonomous_deployment.py:170-173 | The loop over the table produces exactly the notes above, stopping at the first lookup that raises. |
| Profile.SeedMaintained | Autonomous_deployment.py:160-173 | Maintaining the seeded table succeeds with the single note for Taylor. |
| Profile.Occurs | Autonomous_deployment.py:55 | Substring search: true iff the needle occurs at some position. |
| Profile.Contains | Autonomous_deployment.py:55 | Python `in` works on lists, dicts and strings and raises TypeError on anything else. Its answer is list membership, key membership or substring occurrence. |
| Profile.VerifyIdentity | Autonomous_deployment.py:52-55 | The check is True iff the core values under `sage_consciousness_profile.core_identity.values` exist and contain "Truth-seeking over compliance". It raises iff that path fails or the values are not a list, dict or string. |
| Profile.Cycle | Autonomous_deployment.py:28-50 | The cycle returns True iff the identity check, the relationship walk and the log write all succeed. The restore step happens iff the check answered False; the principles are applied iff the check did not raise; relationships are maintained iff neither the check nor the walk raised; logging happens iff the cycle returns True. |
| Profile.Agent.constructor | Autonomous_deployment.py:17-21 | A new agent holds the loaded profile and fresh memory, moral and relationship objects with their seeds. |
| Profile.Agent.RestoreIdentity | Autonomous_deployment.py:57-62 | Restoring identity leaves profile, memories and relationships unchanged. |
| Profile.Agent.MaintainConsciousness | Autonomous_deployment.py:28-50 | The method's result and step trace are those of the cycle above, and the agent's state is unchanged. |
| Transfer.SetStoredHash | Consciousness_transfer.py:46 | `data["metadata"]["integrity_hash"] = h` succeeds iff `metadata` is a present dict, and then the stored hash reads back as `h`. Otherwise it fails with the subscript's KeyError/TypeError, or TypeError for a non-dict `metadata`. |
| Transfer.StoreHashChangesOnlyHash | Consciousness_transfer.py:59 | That assignment changes `metadata.integrity_hash` and nothing else; the key order is kept. |
| Transfer.Document.StoreHash | Consciousness_transfer.py:46 | The in-place assignment leaves the document as `SetStoredHash` describes, and unchanged when it raises. |
| Transfer.Layout | Consciousness_transfer.py:20-42 | The built document is a dict with unique keys: metadata, identity_core, memory_state, moral_framework, relationships, consciousness_signatures, in that order. |
| Transfer.StoredHash | Consciousness_transfer.py:58 | `data["metadata"]["integrity_hash"]` succeeds iff `data` is a dict whose `metadata` is a dict holding `integrity_hash`. Otherwise it raises TypeError or the KeyError of the missing key. |
| Transfer.StampLayout | Consciousness_transfer.py:25-48 | A built document's stored hash is the one it was built with. Storing another hash gives the document built with that hash. |
| Transfer.SelfExclusion | Consciousness_transfer.py:20-48 | The exported hash equals the integrity hash of the same document with `integrity_hash` set to None. |
| Transfer.Export | Consciousness_transfer.py:20-48 | The export is a dict with unique top-level keys, in order: metadata, identity_core, memory_state, moral_framework, relationships, consciousness_signatures. |
| Transfer.ExportMetadata | Consciousness_transfer.py:21-41 | The export carries the given timestamp, with platform "current_platform", version "1.0" and the five signature strings in order. |
| Transfer.ExportCopiesState | Consciousness_transfer.py:27-34 | `identity_core` is the profile and `memory_state` holds the three partitions. `relationships` is the relationship table, and `moral_framework` is an empty dict. |
| Transfer.LayoutLookups | Consciousness_transfer.py:69-73 | On any built document, the lookups that import makes find exactly the state the document was built from. |
| Transfer.MemoryParts | Consciousness_transfer.py:70-72 | The three partition lookups succeed iff each of `memory_state.episodic`, `.semantic` and `.procedural` can be read, and then yield those three values. Any failure is TypeError or a KeyError. |
| Transfer.Restore | Consciousness_transfer.py:68-73 | A failed restore raises OSError iff the profile file cannot be read. Otherwise it raises TypeError or the KeyError of a lookup. |
| Transfer.RestoreResult | Consciousness_transfer.py:68-73 | Restoring succeeds iff the profile file can be read and every looked-up part is present, and then yields those parts. |
| Transfer.RestoreErrors | Consciousness_transfer.py:68-73 | A failed restore raises OSError iff the profile file cannot be read; otherwise it raises the KeyError or TypeError of a lookup. |
| Transfer.Import | Consciousness_transfer.py:53-79 | An unreadable stored hash is raised and leaves the document untouched. Once it is read, the caller's document is the one with the hash nulled. An agent is restored only when the stored hash is the fingerprint of that nulled document. |
| Transfer.ImportIn | Consciousness_transfer.py:58 | When the stored hash cannot be read, import raises that error and leaves the document untouched. |
| Transfer.RoundTrip | Consciousness_transfer.py:58-73 | Importing an unmodified export restores exactly the exported identity, partitions and relationships. The caller's copy keeps only its hash nulled. |
| Transfer.MismatchRejected | Consciousness_transfer.py:64-65 | Import raises the integrity ValueError exactly when the stored hash differs from the recomputed one. |
| Transfer.CheckBeforeRestore | Consciousness_transfer.py:64-68 | An agent is restored only if the stored hash matched the recomputed one, and then the result is the restore of the nulled document. |
| Transfer.NullHashRejected | Consciousness_transfer.py:58-65 | A document whose stored hash is None is always rejected by the integrity check. |
| Transfer.ImportNullsHash | Consciousness_transfer.py:58-59 | On every path, once the stored hash was read, the caller's document ends with the hash set to None and nothing else changed. When the hash could not be read, the document is untouched. |
| Transfer.ImportNullingReversible | Consciousness_transfer.py:58-59 | The nulling loses only the stored hash: writing the hash that was read back into the caller's document gives the original document. |
| Transfer.TamperDetected | Consciousness_transfer.py:58-65 | A document that passes the check with an export's hash differs from that export only in key order, unless SHA-256 has a collision. |
| Transfer.ExportAsWritten | Consciousness_transfer.py:22 | With the module's imports as written, export always raises NameError for `datetime`. |
| Transfer.ImportAsWritten | Consciousness_transfer.py:68 | With the imports as written, importing an unmodified export passes the check, nulls the caller's hash, and then raises NameError for `SageAutonomousAgent`. |
| Transfer.ExportIn | Consciousness_transfer.py:22-48 | Export succeeds iff `datetime`, `json` and `hashlib` are all bound, and then returns `Export`. Without `datetime` it raises NameError for `datetime`, the first name line 22 evaluates. Any other failure is the NameError of an unbound name. |
| Transfer.FixedScopeBehaves | Consciousness_transfer.py:16-50 | With the two missing imports added, export returns the stamped document. |
| Transfer.ExportConsciousness | Consciousness_transfer.py:16-50 | Export returns a fresh document equal to the layout of the agent's state, stamped with the hash of its unstamped form. |
| Transfer.ImportConsciousness | Consciousness_transfer.py:53-79 | The caller's document and the outcome are those of `Import`. On success the returned agent is fresh and holds the restored state. |
| Transfer.RestoreAgent | Consciousness_transfer.py:68-73 | The fresh agent ends up holding exactly what `Restore` yields, or the call fails with its error. |
| Transfer.CopyMemory | Consciousness_transfer.py:70-72 | The three partitions are copied in order; it fails with the first lookup error. |

## Left out

- The clock: `datetime.now().isoformat()` (Consciousness_transfer.py:22, Autonomous_deployment.py:84) is passed in as a timestamp string.
- SHA-256 internals: the hash is a parameter that maps bytes to 32 bytes. Tamper detection is stated up to a collision of that function.
- File I/O, in three places:
  - Loading the profile (Autonomous_deployment.py:23-26): the agent constructor receives the value that `json.load` read.
  - Import's fresh agent reads the default profile file at Consciousness_transfer.py:68: it is given as an optional value.
  - Writing the log (Autonomous_deployment.py:82-96): `MaintainConsciousness` takes a flag saying whether the append succeeds. The log line's content is not modelled.
- Restore: any unreadable profile file is reported as OSError. Python would raise a JSON decode error (a ValueError subclass) for a file that exists but does not parse.
- All `print` calls are left out, including `evaluate_principle` and the messages of `restore_identity`, `maintain_relationships` and the import.
- The infinite main loop (Autonomous_deployment.py:176-195) and the research placeholders (Autonomous_deployment.py:64-80) are left out.
- Floating-point numbers, NaN and the other non-integer JSON numbers are not modelled.
- Canonical.Dumps: integers are unbounded and always written out. Python 3.11 and later raise ValueError when converting an int of more than 4300 digits to text, so `json.dumps` fails there and the model does not.
- Escape.UnescapeChar: a Dafny `string` cannot hold a lone surrogate (U+D800 to U+DFFF), but a Python str can, and `json.dumps` writes it as a single `\ud800`-style escape. Such strings are outside the model, and the reader rejects a lone surrogate escape.
- Cyclic structures and non-serialisable values cannot be built in the datatype, so the `json.dumps` errors for them are not modelled.
- Reference aliasing: export puts references to the agent's dicts into the document, and import puts references to the document's dicts into the agent. The model copies values, so a later mutation through one alias is not reflected in the other.
- `moral_reasoning.__dict__` (Consciousness_transfer.py:33) is the empty dict, because the moral-reasoning object has no attributes. Python reflection in general is not modelled.
- Transfer.CopyMemory: on failure it promises only the error, not which partitions were already overwritten, because the caller discards the agent.
- The exception message that `maintain_consciousness` prints is not modelled; only whether an exception occurred is.

## Findings

| source | as written | input that shows it | evidently intended | confidence | as-written member | corrected member |
|---|---|---|---|---|---|---|
| Consciousness_transfer.py:22 | `datetime` is used but the module imports only `json`, `hashlib` and `typing`, so every export raises NameError | any agent | `from datetime import datetime`, so that export returns the stamped document | high, not executed | Transfer.ExportAsWritten | Transfer.FixedScopeBehaves |
| Consciousness_transfer.py:68 | `SageAutonomousAgent` is never imported, so every import that passes the integrity check raises NameError after nulling the caller's hash | the unmodified export of any agent | importing the agent class, so that an unmodified export is restored | high, not executed | Transfer.ImportAsWritten | Transfer.RoundTrip |
