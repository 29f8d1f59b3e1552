# TomlDB storage engine, modelled in Dafny

TomlDB is a file-backed key-value store. Every value is written into one TOML document under its key as a table
`{value = ..., type = ...}`. The type tag says how the value was encoded:

- `json`: the value is JSON text, when `json.dumps` accepts it.
- `pickle`: the value is the base64 text of the configured object serialiser's bytes (dill, or pickle with `use_pickle`).
- `file`: the serialiser's bytes are offloaded to a sidecar file. The file is named by the SHA-1 hex digest of those
  bytes followed by `tdbdata`. This is the encoding when `store_to_fs` is on.

The document also holds two reserved keys, `__serializer__` and `__store_to_fs__`. They record the configuration that
wrote it, and a store opened with a different configuration refuses the document. Every public operation takes a file
lock. `set`, `get`, `delete`, `exists` and `keys` then reload the document, act, and (for mutations) rewrite the whole
document. `clear_database` does not reload: it removes the document and the sidecar directory and empties the map.
`del db[k]` first tests the map left by the previous operation, without the lock, and only then calls `delete`.

The model has these layers:

- `PyValues` (values.dfy): the Python values a caller stores, the JSON documents `json.dumps`/`json.loads` translate
  them to, and the JSON round trip. The round trip holds for "faithful" values: no tuples, and dicts with distinct
  string keys.
- `Libraries` (libraries.dfy): the foreign libraries as function values. These are the JSON printer and parser, dill
  and pickle, base64 (section 4 of RFC 4648) and the SHA-1 hex digest (FIPS 180-4). `Sound(libs)` collects their
  round-trip facts, and each lemma that needs them takes it as a hypothesis.
- `Document` (document.dfy): document items, the configuration, and `_load_database` with its validation.
- `Codec` (codec.dfy): `_serialize_value` and `_deserialize_value` as a three-way tagged codec, and its round trip.
- `Operations` (operations.dfy): each public operation as an atomic transition. The transition acts on the shared disk
  (`World`: the document file, whether the sidecar directory exists, and its files) and on one instance's in-memory map.
- `Properties` (properties.dfy): properties relating several operations, possibly of different instances sharing a disk.
- `TomlDatabase` (tomldb.dfy): the classes `Disk` and `TomlDB`. Their methods update `data` and the disk in place, as
  the source does. Each method is proved equal to its transition in `Operations`; `set` is proved equal to the transition
  as the source writes it (`SetStepAsWritten`), not the corrected one.

The model follows what the code does, including where that differs from its evident intent:

- `get` raises `FileNotFoundError` when an entry's sidecar file is missing. Its `except` clause (tomldb/tomldb.py:108)
  evidently means to turn an unreadable entry into the default, but that error is not in it.
- `keys()` after `clear_database` returns the two metadata keys, not an empty list, because the reload writes them.
- `delete` of an absent key does nothing. Only `del db[k]` raises `KeyError`, and it checks the map left by the
  previous operation, before any reload.
- A `set` that fails after the reload has already removed the key's old sidecar file (tomldb/tomldb.py:89-93), while
  the document still binds the key to it, so a later `get` of the key raises FileNotFoundError
  (`Operations.FailedSetLosesOldFile`).
- The sidecar directory is created only by the constructor (tomldb/tomldb.py:17-18, with `exist_ok=True`, so it is
  meant to exist whenever `store_to_fs` is on), not on first use, so `set` of a non-JSON value after
  `clear_database` raises FileNotFoundError. `TomlDB.Set` does the same. See "## Findings".
- `Operations.SetStep` is the corrected `set`, which creates the directory on first use. The lemmas about a successful
  `set` are stated on it. `Operations.SetAsWrittenAgrees` proves that a successful `set` as written takes exactly the
  corrected step, so those lemmas hold of `TomlDB.Set` whenever it succeeds.

## Model

| member | source | states |
|---|---|---|
| PyValues.FaithfulIsEncodable | tomldb/tomldb.py:52-53 | every faithful value (no tuples, distinct string keys) is accepted by `json.dumps` |
| PyValues.ToJsonWellFormed | tomldb/tomldb.py:52-53 | the JSON a faithful value is written as has no duplicate member names at any depth |
| PyValues.FromJsonToJson | tomldb/tomldb.py:72 | `json.loads(json.dumps(v)) == v` for every faithful value |
| PyValues.TupleComesBackAsList | tomldb/tomldb.py:72 | a tuple of faithful values comes back from the JSON round trip as a list, not a tuple |
| PyValues.IntKeyComesBackAsString | tomldb/tomldb.py:72 | an integer dict key comes back from the JSON round trip as its decimal string |
| PyValues.IsJsonEncodable | tomldb/tomldb.py:52-54 | the values `json.dumps` accepts without TypeError: no bytes, no objects, and dict keys that are strings, integers, booleans or None, at every depth; definition, used by `Codec.Encode` and `FaithfulIsEncodable` |
| PyValues.ToJson | tomldb/tomldb.py:53 | the JSON document `json.dumps` writes: lists and tuples as arrays, dicts as objects in insertion order, integer keys as their decimal text, `True`/`False`/`None` keys as `true`/`false`/`null`; definition, used by `ToJsonWellFormed` and `FromJsonToJson` |
| PyValues.FromJson | tomldb/tomldb.py:72 | the Python value `json.loads` builds: arrays as lists, objects as dicts with string keys; definition, used by `FromJsonToJson` |
| PyValues.NatToString | tomldb/tomldb.py:53 | the decimal text `json.dumps` writes for a non-negative integer key: digits only, no leading zero, spelling the number |
| PyValues.IntToString | tomldb/tomldb.py:53 | the text of an integer key starts with a minus sign exactly when it is negative, and its digits spell its absolute value |
| Document.Load | tomldb/tomldb.py:25-43 | `_load_database`: no file gives the stamped empty map; an unparsable file raises and keeps the old map; a mismatch raises after the parsed map replaced the old one; otherwise the parsed map is stamped; properties in `LoadValidation`, `LoadMissing`, `LoadOwnDocument` |
| Document.Stamp | tomldb/tomldb.py:41-43 | after a load the map has its old keys plus both metadata keys, holding the configured serializer name and flag, and every other key is unchanged |
| Document.LoadValidation | tomldb/tomldb.py:27-43 | a readable document is refused exactly when `__serializer__` is present and not "", false or the configured name, or `__store_to_fs__` is present and not the configured flag; a refusal leaves the parsed document in memory; otherwise every key is kept and the metadata is set to the configuration |
| Document.LoadMissing | tomldb/tomldb.py:38-43 | without a document, the reload holds only the two metadata keys, stamped with the configuration |
| Document.LoadOwnDocument | tomldb/tomldb.py:27-43 | a document stamped by this configuration loads back unchanged |
| Document.StoreModeMismatch | tomldb/tomldb.py:36-37 | a document stamped under one storage mode is refused under the other with the store-to-fs mismatch ValueError (the serializer mismatch when the serializer differs too, as it is checked first), and the parsed document stays in memory |
| Document.SerializerModeMismatch | tomldb/tomldb.py:34-35 | a document stamped with one serializer is refused with a serializer mismatch by a store using the other |
| Codec.Encode | tomldb/tomldb.py:50-67 | the tag is json exactly when `json.dumps` accepts the value; otherwise it is file under `store_to_fs`, with the digest-and-suffix name and a sidecar file of the serialiser's bytes, else pickle with the base64 text; encoding fails only when the value is not JSON and the serialiser cannot dump it |
| Codec.Decode | tomldb/tomldb.py:69-81 | an unknown tag raises ValueError; FileNotFoundError arises exactly for a file tag whose file is absent; every other failure is a decode error (including the exceptions of `loads` that `get` catches) or an exception of `loads` outside that list |
| Codec.DecodeEncode | tomldb/tomldb.py:50-81 | under the library round-trip facts, decoding what was encoded gives the value back for each of the three tags, provided the sidecar file written for it is present |
| Codec.UnknownTagRejected | tomldb/tomldb.py:80-81 | a tag other than json, pickle and file never decodes and raises ValueError |
| Operations.Save | tomldb/tomldb.py:45-48 | `_save_database`: the document file becomes the whole current map, the sidecar files untouched |
| Operations.OpenStep | tomldb/tomldb.py:11-23 | `__init__`: the sidecar directory exists afterwards when `store_to_fs` is on, then the first load with an empty map |
| Operations.SetStepWith | tomldb/tomldb.py:83-97 | `set`: reload, remove the key's old sidecar file if there is one, encode, write the new sidecar file, bind and save; the flag says whether a missing sidecar directory is created first |
| Operations.SetStepAsWritten | tomldb/tomldb.py:55-64 | `set` as written: writing a sidecar file into a missing directory raises FileNotFoundError after the old file is already removed, and the map is not saved |
| Operations.SetStep | tomldb/tomldb.py:55-64 | the corrected `set`: the sidecar directory is created when missing |
| Operations.GetStep | tomldb/tomldb.py:99-109 | `get`: reload; an absent key gives the default; the entry is decoded and the caught errors give the default; properties in `GetAbsorbs` |
| Operations.GetItemStep | tomldb/tomldb.py:155-160 | `db[k]`: `get(k)`, with a None result raised as KeyError |
| Operations.DeleteStep | tomldb/tomldb.py:111-120 | `delete`: reload; an absent key is a no-op; a file entry's sidecar file is removed, raising when it is missing; the key is dropped and the map saved |
| Operations.DelItemStep | tomldb/tomldb.py:166-170 | `del db[k]`: KeyError when the previous map lacks the key, else `delete` |
| Operations.ExistsStep | tomldb/tomldb.py:122-126 | `exists`: membership in the reloaded map |
| Operations.KeysStep | tomldb/tomldb.py:128-132 | `keys`: the keys of the reloaded map |
| Operations.ClearStep | tomldb/tomldb.py:138-153 | `clear_database`: no document, no sidecar directory, no sidecar files, an empty map |
| Operations.SetFailures | tomldb/tomldb.py:55-97 | `set` as written raises exactly when the reload raises, the key holds a metadata item (TypeError), the value can be neither JSON-encoded nor dumped, or a sidecar file is to be written while the sidecar directory is missing (FileNotFoundError); a failed `set` does not save the document; without the last case the same holds of the corrected `set` |
| Operations.FailedSetLosesOldFile | tomldb/tomldb.py:88-97 | when `set` over a file entry fails after the reload (the serialiser's `dumps` raising, or a missing sidecar directory), the old sidecar file is already gone, the document is not rewritten and still binds the key to it, and a later `get` of the key raises FileNotFoundError |
| Operations.SetAsWrittenAgrees | tomldb/tomldb.py:55-64 | a successful `set` as written, or any `set` while the sidecar directory exists, takes exactly the corrected step |
| Operations.SetUpdatesOneKey | tomldb/tomldb.py:83-97 | a successful `set` binds the key to the encoded payload and tag, keeps every other reloaded key, saves the map; the sidecar files afterwards are exactly the old ones, with their bytes, minus the key's old file, plus the new encoding's file with its bytes; the directory exists afterwards exactly when it did before or a file was written; stated of the corrected `set`, and of the written one through `SetAsWrittenAgrees` |
| Operations.SetOverwriteCleanup | tomldb/tomldb.py:88-95 | overwriting a file entry removes its old sidecar file; that name survives only when the new value is offloaded to the same file; stated of the corrected `set`, and of the written one through `SetAsWrittenAgrees` |
| Operations.ReservedKeysRejected | tomldb/tomldb.py:89 | `set`, as written and corrected, and `delete` of `__serializer__` or `__store_to_fs__` raise TypeError and leave the disk unchanged |
| Operations.GetAbsorbs | tomldb/tomldb.py:99-109 | `get` gives the default for an absent key, a metadata item, an unknown tag and any entry whose decoding raises one of the caught errors (JSONDecodeError, binascii.Error, UnpicklingError, TypeError, ValueError); a failed reload is raised as it is; it can raise only a reload error, a missing sidecar file or an exception of `loads` outside the caught list; it never changes the disk |
| Operations.GetMissingSidecarRaises | tomldb/tomldb.py:76-79 | a file entry whose sidecar file is gone makes `get` raise FileNotFoundError |
| Operations.GetItemKeyError | tomldb/tomldb.py:155-160 | `db[k]` raises KeyError exactly when `get(k)` yields None, and otherwise returns or raises what `get` does |
| Operations.ReloadedKeys | tomldb/tomldb.py:122-132 | after a successful reload `keys()` contains both metadata keys and `exists(k)` agrees with membership in `keys()` |
| Operations.DeleteEffect | tomldb/tomldb.py:111-120 | deleting a present key removes it and, for a file entry, its sidecar file, keeps the other keys and saves, and leaves the sidecar directory as it was; an absent key leaves the disk unchanged; a failure changes nothing on disk |
| Operations.DeleteFailures | tomldb/tomldb.py:113-118 | `delete` raises exactly when the reload raises, the key holds a metadata item, or its sidecar file is missing |
| Operations.DelItemMissing | tomldb/tomldb.py:166-170 | `del db[k]` raises KeyError without reloading when the current map lacks the key |
| Operations.SetKeepsWorldOk | tomldb/tomldb.py:55-64 | `set`, as written and corrected, never leaves a sidecar file without its directory |
| Operations.OthersKeepWorldOk | tomldb/tomldb.py:138-153 | construction, `delete` and `clear_database` never leave a sidecar file without its directory |
| Operations.SavesAreStamped | tomldb/tomldb.py:41-48 | every document a successful `set` (as written or corrected) or `delete` saves carries the saving store's configuration |
| Properties.LoadIgnoresMemory | tomldb/tomldb.py:25-43 | a successful reload does not depend on the map it replaces |
| Properties.SetThenGet | tomldb/tomldb.py:83-109 | after a successful `set(k, v)`, any instance with the same configuration reads `v` back with `get(k)` and finds `k` with `exists`, for every tag; stated of the corrected `set`, and of the written one through `SetAsWrittenAgrees` |
| Properties.StoredNoneIsKeyError | tomldb/tomldb.py:155-160 | after `set(k, None)`, `get(k)` yields None and `db[k]` raises KeyError |
| Properties.DeleteThenAbsent | tomldb/tomldb.py:111-126 | after a successful `delete(k)`, `exists(k)` is false for every instance |
| Properties.ClearThenReload | tomldb/tomldb.py:138-153 | `clear_database` removes the document, every sidecar file and the directory, and empties the map; a later reload finds only the two metadata keys, so `exists` is false and `get` gives the default for every user key |
| Properties.ReopenWithOtherMode | tomldb/tomldb.py:36-37 | a store that saved a document refuses to open it again with the other storage mode, raising the configuration mismatch ValueError, with the parsed document in memory |
| Properties.SidecarNameInjective | tomldb/tomldb.py:58-60 | with a collision-free digest, two byte strings with the same sidecar file name are equal |
| Properties.SetKeepsOtherFile | tomldb/tomldb.py:88-95 | a successful `set` keeps every content-named sidecar file that the key did not hold before; stated of the corrected `set`, and of the written one through `SetAsWrittenAgrees` |
| Properties.GetStored | tomldb/tomldb.py:99-109 | `get` of a key in a document this configuration saved returns what its entry decodes to |
| Properties.StoredEntrySurvivesSet | tomldb/tomldb.py:83-109 | an entry whose sidecar file the key being set did not hold still reads back after a `set` of another key; stated of the corrected `set`, and of the written one through `SetAsWrittenAgrees` |
| Properties.NoLostUpdate | tomldb/tomldb.py:83-109 | when two instances set two different keys one after the other, the second from a stale map, both values read back afterwards; stated of the corrected `set`, and of the written one through `SetAsWrittenAgrees` |
| Properties.SharedSidecarHazard | tomldb/tomldb.py:58-60 | after setting one non-JSON value under two keys with offloading on, deleting the first key makes `get` of the second raise FileNotFoundError |
| Properties.SetAfterClearAsWritten | tomldb/tomldb.py:138-153 | as written, `set` of a non-JSON value after `clear_database` raises FileNotFoundError, because the sidecar directory is gone |
| Properties.SetAfterClear | tomldb/tomldb.py:55-64 | with the directory created on first use, `set` after `clear_database` succeeds and `get` reads the value back |
| TomlDatabase.TomlDB.constructor | tomldb/tomldb.py:11-22 | the configuration is recorded and the sidecar directory is created when `store_to_fs` is on |
| TomlDatabase.TomlDB.Reload | tomldb/tomldb.py:25-43 | the new `data` and the raised error are those of `Load` on the document file and the old map |
| TomlDatabase.TomlDB.SaveDocument | tomldb/tomldb.py:45-48 | the document file becomes the current map; nothing else on disk changes |
| TomlDatabase.TomlDB.Set | tomldb/tomldb.py:83-97 | the result, the new disk and the new `data` are those of `SetStepAsWritten`, including its FileNotFoundError when the sidecar directory is missing, and the disk invariant is kept |
| TomlDatabase.TomlDB.SetItem | tomldb/tomldb.py:162-164 | `db[k] = v` behaves as `set` as written |
| TomlDatabase.TomlDB.Get | tomldb/tomldb.py:99-109 | the result and the new `data` are those of `GetStep`; the disk is not modified |
| TomlDatabase.TomlDB.GetItem | tomldb/tomldb.py:155-160 | the result and the new `data` are those of `GetItemStep` |
| TomlDatabase.TomlDB.Delete | tomldb/tomldb.py:111-120 | the result, the new disk and the new `data` are those of `DeleteStep`, and the disk invariant is kept |
| TomlDatabase.TomlDB.DelItem | tomldb/tomldb.py:166-170 | the result, the new disk and the new `data` are those of `DelItemStep` |
| TomlDatabase.TomlDB.Exists | tomldb/tomldb.py:122-126 | the result and the new `data` are those of `ExistsStep` |
| TomlDatabase.TomlDB.Contains | tomldb/tomldb.py:134-136 | `k in db` behaves as `exists(k)` |
| TomlDatabase.TomlDB.Keys | tomldb/tomldb.py:128-132 | the result (as a set) and the new `data` are those of `KeysStep` |
| TomlDatabase.TomlDB.Clear | tomldb/tomldb.py:138-153 | removing the sidecar files one by one ends with the disk and `data` of `ClearStep`: no document, no directory, no files, an empty map |
| TomlDatabase.Open | tomldb/tomldb.py:11-23 | construction followed by the initial load: fails exactly when `OpenStep` does, and otherwise yields a fresh store holding the loaded map |
| TomlDatabase.BinaryRoundTrip | binary_demo.py:1-11 | on a disk without a document, a default store returns the stored byte string unchanged from `db["bin"]` |

## Left out

- File I/O is the abstract `World` / `Disk`: the document file, the sidecar directory flag and a map from file names to
  bytes. That covers os.path, open, os.makedirs, os.listdir, os.remove and os.rmdir. Path joining is name lookup, so a
  payload holding an absolute path or `..` is not modelled.
- How the document, lock and sidecar directory names derive from `filename` (tomldb/tomldb.py:12-16) is not modelled:
  one disk stands for one document.
- FileLock and concurrency between processes: each locked operation is one atomic step. Interleavings inside a step are
  not modelled.
- TOML parsing and dumping: a saved map loads back identically. A file the parser rejects is `Unreadable`. Document
  items have three shapes: a string, a boolean, or a table with string `value` and `type`. Other shapes that a hand
  edit could produce, such as a table without `type`, are not modelled.
- json, dill, pickle, base64 and SHA-1 are function values with round-trip facts, not implementations. JSON covers the
  shape of the translation, not the text.
- Codec.Encode: every integer is JSON-encodable here. The interpreter refuses to turn an integer of more than 4300
  decimal digits into text (a ValueError since CPython 3.11 and the 3.10.7/3.9.14 security releases), which the
  `except (TypeError, OverflowError)` of tomldb/tomldb.py:54 does not catch, so `set` of such a value (or of a dict
  with such an integer key, through `PyValues.IntToString`) raises after removing the old file. That limit is a
  configurable interpreter setting and is not modelled.
- Floating-point values, and the exceptions `json.dumps` raises for them and for cyclic values, are left out: values
  are finite trees without floats. Python's `1 == True` equality between dict keys is not modelled.
- Properties.NoLostUpdate, Properties.SetKeepsOtherFile and Properties.StoredEntrySurvivesSet: these assume the SHA-1 digest is collision-free
  (`CollisionFree`). The content addressing depends on that and real SHA-1 does not guarantee it.
- Keys are strings throughout. The source's `set` and `get` accept any hashable key, but TOML documents only have
  string keys, so another key would not survive the save and reload; such keys are not modelled.
- PyValues.FromJson: an object with a repeated member name becomes a dict with that key repeated, where `json.loads`
  keeps one key holding the last value. `json.dumps({1: "a", "1": "b"})` writes such text. The round-trip facts are
  claimed only for documents without repeated names, so no lemma depends on this.
- TomlDatabase.TomlDB.Keys: returns the set of keys, not the list, so the order of `list(self.data.keys())` is not
  modelled.
- Failures inside the operating system (permissions, a full disk, `os.rmdir` of a directory that holds
  subdirectories) are not modelled.
- The `__main__` example (tomldb/tomldb.py:175-192), img_demo.py and write_bin.py are not part of this model.

## Findings

| source | as written | input that shows it | evidently intended | confidence | as-written member | corrected member |
|---|---|---|---|---|---|---|
| tomldb/tomldb.py:150 | `clear_database` removes the sidecar directory, but only `__init__` creates it (tomldb/tomldb.py:17-18), so `set` later opens a file in a missing directory | `db = TomlDB(store_to_fs=True)`, then `db.clear_database()`, then `db.set("k", b"x")`: FileNotFoundError, with the reloaded map not saved | the sidecar directory is created on first use, so `set` after a clear stores the value | high, not executed | Properties.SetAfterClearAsWritten | Properties.SetAfterClear |
