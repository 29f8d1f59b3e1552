/**
 * Properties that relate several operations of the store, possibly issued by
 * different instances sharing one disk.
 */
module Properties {
  import opened Wrappers
  import opened PyValues
  import opened Libraries
  import opened Document
  import opened Codec
  import opened Operations

  /** Distinct byte strings have distinct digests: the content addressing of sidecar files. */
  ghost predicate CollisionFree(libs: Libs) {
    forall b1, b2 :: libs.sha1Hex(b1) == libs.sha1Hex(b2) ==> b1 == b2
  }

  /** A reload that succeeds does not depend on the map it replaces. */
  lemma LoadIgnoresMemory(cfg: Config, file: DocFile, mem: Doc, other: Doc)
    requires Load(cfg, file, mem).err.None?
    ensures Load(cfg, file, other) == Load(cfg, file, mem)
  {
  }

  /**
   * After a successful `set(k, v)`, any instance with the same configuration
   * reads `v` back with `get(k)`, whatever its own in-memory map was and for
   * each of the three encodings, and sees `k` with `exists(k)`.
   */
  lemma {:induction false} SetThenGet(libs: Libs, cfg: Config, w: World, mem: Doc, k: string, v: Value,
                                      other: Doc, d: Value)
    requires Sound(libs)
    requires JsonFaithful(v) || !IsJsonEncodable(v)
    requires SetStep(libs, cfg, w, mem, k, v).result.Success?
    ensures var o := SetStep(libs, cfg, w, mem, k, v);
      && GetStep(libs, cfg, o.world, other, k, d).result == Success(v)
      && ExistsStep(cfg, o.world, other, k).result == Success(true)
  {
    var o := SetStep(libs, cfg, w, mem, k, v);
    SetUpdatesOneKey(libs, cfg, w, mem, k, v);
    LoadOwnDocument(cfg, o.mem, other);
    var e := Encode(libs, cfg, v);
    if e.blob.Some? {
      var b := e.blob.value;
      assert o.world.sidecar[b.name := b.bytes] == o.world.sidecar;
    }
    DecodeEncode(libs, cfg, o.world.sidecar, v);
  }

  /**
   * A stored None is indistinguishable from a missing key for `db[k]`: after
   * `set(k, None)`, `get(k)` yields None and `db[k]` raises KeyError.
   */
  lemma {:induction false} StoredNoneIsKeyError(libs: Libs, cfg: Config, w: World, mem: Doc, k: string, other: Doc)
    requires Sound(libs)
    requires SetStep(libs, cfg, w, mem, k, VNone).result.Success?
    ensures var o := SetStep(libs, cfg, w, mem, k, VNone);
      && GetStep(libs, cfg, o.world, other, k, VNone).result == Success(VNone)
      && GetItemStep(libs, cfg, o.world, other, k).result == Failure(KeyNotFound)
  {
    var o := SetStep(libs, cfg, w, mem, k, VNone);
    SetThenGet(libs, cfg, w, mem, k, VNone, other, VNone);
    GetItemKeyError(libs, cfg, o.world, other, k);
  }

  /** After a successful `delete(k)`, no instance with the same configuration finds `k`. */
  lemma {:induction false} DeleteThenAbsent(cfg: Config, w: World, mem: Doc, k: string, other: Doc)
    requires DeleteStep(cfg, w, mem, k).result.Success?
    ensures var o := DeleteStep(cfg, w, mem, k);
      ExistsStep(cfg, o.world, other, k).result == Success(false)
  {
    var ld := Load(cfg, w.file, mem);
    var o := DeleteStep(cfg, w, mem, k);
    if k in ld.mem {
      assert k != SerializerKey && k != StoreToFsKey;
      assert StampedBy(o.mem, cfg);
      LoadOwnDocument(cfg, o.mem, other);
    } else {
      LoadIgnoresMemory(cfg, w.file, mem, other);
    }
  }

  /**
   * After `clear_database`, a reload finds only the two metadata keys:
   * `keys()` returns them, `exists` is false for every other key, and `get`
   * of any other key gives the default.
   */
  lemma ClearThenReload(libs: Libs, cfg: Config, w: World, mem: Doc, other: Doc, k: string, d: Value)
    requires k != SerializerKey && k != StoreToFsKey
    ensures var c := ClearStep(w, mem);
      && c.world.file == NoFile && c.world.sidecar == map[] && !c.world.dirExists && c.mem == map[]
      && KeysStep(cfg, c.world, other).result == Success({SerializerKey, StoreToFsKey})
      && ExistsStep(cfg, c.world, other, k).result == Success(false)
      && GetStep(libs, cfg, c.world, other, k, d).result == Success(d)
  {
    LoadMissing(cfg, other);
  }

  /**
   * A store that saved a document refuses it when opened with the other
   * storage mode, raising the configuration mismatch, and the opened store
   * holds the parsed document.
   */
  lemma {:induction false} ReopenWithOtherMode(libs: Libs, cfg: Config, other: Config, w: World, mem: Doc,
                                               k: string, v: Value)
    requires SetStep(libs, cfg, w, mem, k, v).result.Success?
    requires other.storeToFs != cfg.storeToFs
    ensures var o := SetStep(libs, cfg, w, mem, k, v); var reopened := OpenStep(other, o.world);
      && reopened.result == Failure(if other.usePickle != cfg.usePickle then SerializerMismatch else StoreToFsMismatch)
      && reopened.mem == o.mem
  {
    var o := SetStep(libs, cfg, w, mem, k, v);
    SavesAreStamped(libs, cfg, w, mem, k, v);
    StoreModeMismatch(cfg, other, o.mem, map[]);
  }

  /** Two byte strings with the same sidecar file name are equal. */
  lemma SidecarNameInjective(libs: Libs, b1: Bytes, b2: Bytes)
    requires CollisionFree(libs)
    requires SidecarName(libs, b1) == SidecarName(libs, b2)
    ensures b1 == b2
  {
    var h1, h2 := libs.sha1Hex(b1), libs.sha1Hex(b2);
    assert |h1| == |h2|;
    assert h1 == SidecarName(libs, b1)[..|h1|];
    assert h2 == SidecarName(libs, b2)[..|h2|];
  }

  /**
   * A successful `set` keeps a sidecar file it was not told to replace: one
   * that the key did not hold before, named by the digest of its bytes.
   */
  lemma {:induction false} SetKeepsOtherFile(libs: Libs, cfg: Config, w: World, mem: Doc, k: string, v: Value,
                                             b: Bytes)
    requires CollisionFree(libs)
    requires SetStep(libs, cfg, w, mem, k, v).result.Success?
    requires SidecarName(libs, b) in w.sidecar && w.sidecar[SidecarName(libs, b)] == b
    requires var ld := Load(cfg, w.file, mem);
      !(k in ld.mem && ld.mem[k] == Table(SidecarName(libs, b), TagFile))
    ensures var o := SetStep(libs, cfg, w, mem, k, v);
      SidecarName(libs, b) in o.world.sidecar && o.world.sidecar[SidecarName(libs, b)] == b
  {
    var e := Encode(libs, cfg, v);
    if e.blob.Some? && e.blob.value.name == SidecarName(libs, b) {
      SidecarNameInjective(libs, e.blob.value.bytes, b);
    }
  }

  /** `get` of a key stored in a document this configuration saved yields what its entry decodes to. */
  lemma GetStored(libs: Libs, cfg: Config, w: World, other: Doc, k: string, d: Value, v: Value)
    requires w.file.Saved? && StampedBy(w.file.doc, cfg)
    requires k in w.file.doc && w.file.doc[k].Table?
    requires Decode(libs, cfg, w.sidecar, w.file.doc[k].value, w.file.doc[k].ty) == Success(v)
    ensures GetStep(libs, cfg, w, other, k, d).result == Success(v)
  {
    LoadOwnDocument(cfg, w.file.doc, other);
  }

  /**
   * An entry this configuration saved, whose sidecar file (if any) is present
   * and is not the file the key being set held, still reads back after a
   * `set` of a different key.
   */
  lemma {:induction false} StoredEntrySurvivesSet(libs: Libs, cfg: Config, w: World, mem: Doc, k: string, v: Value,
                                                  k1: string, v1: Value, other: Doc, d: Value)
    requires Sound(libs) && CollisionFree(libs)
    requires JsonFaithful(v1) || !IsJsonEncodable(v1)
    requires k1 != k && w.file.Saved? && StampedBy(w.file.doc, cfg)
    requires var e1 := Encode(libs, cfg, v1);
      && e1.Encoded? && k1 in w.file.doc && w.file.doc[k1] == Table(e1.payload, e1.tag)
      && (e1.blob.Some? ==>
          && e1.blob.value.name in w.sidecar && w.sidecar[e1.blob.value.name] == e1.blob.value.bytes
          && !(k in w.file.doc && w.file.doc[k] == Table(e1.blob.value.name, TagFile)))
    requires SetStep(libs, cfg, w, mem, k, v).result.Success?
    ensures GetStep(libs, cfg, SetStep(libs, cfg, w, mem, k, v).world, other, k1, d).result == Success(v1)
  {
    var doc := w.file.doc;
    var e1 := Encode(libs, cfg, v1);
    LoadOwnDocument(cfg, doc, mem);
    SetUpdatesOneKey(libs, cfg, w, mem, k, v);
    var w2 := SetStep(libs, cfg, w, mem, k, v).world;
    assert w2.file.doc[k1] == Table(e1.payload, e1.tag);
    if e1.blob.Some? {
      var b1 := e1.blob.value;
      SetKeepsOtherFile(libs, cfg, w, mem, k, v, b1.bytes);
      assert w2.sidecar[b1.name := b1.bytes] == w2.sidecar;
    }
    DecodeEncode(libs, cfg, w2.sidecar, v1);
    GetStored(libs, cfg, w2, other, k1, d, v1);
  }

  /**
   * No lost update: when two instances with the same configuration set two
   * different keys one after the other, the second instance working from a
   * stale map, both values are there afterwards. The first value's sidecar
   * file must not be the one the second key held before, since overwriting
   * the second key removes that file.
   */
  lemma {:induction false} NoLostUpdate(libs: Libs, cfg: Config, w: World, memA: Doc, memB: Doc,
                                        k1: string, v1: Value, k2: string, v2: Value,
                                        o1: Outcome<()>, o2: Outcome<()>, other: Doc, d: Value)
    requires Sound(libs) && CollisionFree(libs)
    requires JsonFaithful(v1) || !IsJsonEncodable(v1)
    requires JsonFaithful(v2) || !IsJsonEncodable(v2)
    requires k1 != k2
    requires o1 == SetStep(libs, cfg, w, memA, k1, v1) && o1.result.Success?
    requires o2 == SetStep(libs, cfg, o1.world, memB, k2, v2) && o2.result.Success?
    requires var e1 := Encode(libs, cfg, v1);
      e1.Encoded? && (e1.blob.Some? ==> !(k2 in o1.mem && o1.mem[k2] == Table(e1.blob.value.name, TagFile)))
    ensures GetStep(libs, cfg, o2.world, other, k1, d).result == Success(v1)
    ensures GetStep(libs, cfg, o2.world, other, k2, d).result == Success(v2)
  {
    var e1 := Encode(libs, cfg, v1);
    var doc := o1.world.file.doc;
    assert o1.world.file.Saved? && StampedBy(doc, cfg)
      && e1.Encoded? && k1 in doc && doc[k1] == Table(e1.payload, e1.tag)
      && (e1.blob.Some? ==>
          && e1.blob.value.name in o1.world.sidecar && o1.world.sidecar[e1.blob.value.name] == e1.blob.value.bytes
          && !(k2 in doc && doc[k2] == Table(e1.blob.value.name, TagFile)))
    by {
      SetUpdatesOneKey(libs, cfg, w, memA, k1, v1);
    }
    StoredEntrySurvivesSet(libs, cfg, o1.world, memB, k2, v2, k1, v1, other, d);
    SetThenGet(libs, cfg, o1.world, memB, k2, v2, other, d);
  }

  /**
   * Sidecar files are shared by content: after the same non-JSON value is set
   * under two keys with offloading on, deleting the first key removes the
   * only copy of the file, and `get` of the second key raises
   * FileNotFoundError.
   */
  lemma {:induction false} SharedSidecarHazard(libs: Libs, cfg: Config, w: World, mem: Doc,
                                               a: string, b: string, v: Value, d: Value)
    requires cfg.storeToFs && !IsJsonEncodable(v) && SerializerOf(libs, cfg).dumps(v).Some?
    requires a != b
    requires SetStep(libs, cfg, w, mem, a, v).result.Success?
    requires var o1 := SetStep(libs, cfg, w, mem, a, v);
      SetStep(libs, cfg, o1.world, o1.mem, b, v).result.Success?
    ensures var o1 := SetStep(libs, cfg, w, mem, a, v);
      var o2 := SetStep(libs, cfg, o1.world, o1.mem, b, v);
      var o3 := DeleteStep(cfg, o2.world, o2.mem, a);
      && o3.result.Success?
      && GetStep(libs, cfg, o3.world, o3.mem, b, d).result == Failure(FileNotFound)
  {
    var o1 := SetStep(libs, cfg, w, mem, a, v);
    var o2 := SetStep(libs, cfg, o1.world, o1.mem, b, v);
    var e := Encode(libs, cfg, v);
    var name := e.blob.value.name;
    SetUpdatesOneKey(libs, cfg, w, mem, a, v);
    SetUpdatesOneKey(libs, cfg, o1.world, o1.mem, b, v);
    LoadOwnDocument(cfg, o1.mem, o1.mem);
    LoadOwnDocument(cfg, o2.mem, o2.mem);
    assert o2.mem[a] == Table(name, TagFile) && o2.mem[b] == Table(name, TagFile);
    var o3 := DeleteStep(cfg, o2.world, o2.mem, a);
    assert o3.mem == o2.mem - {a};
    assert StampedBy(o3.mem, cfg);
    LoadOwnDocument(cfg, o3.mem, o3.mem);
    GetMissingSidecarRaises(libs, cfg, o3.world, o3.mem, b, d, name);
  }

  /**
   * As written, `set` after `clear_database` cannot offload a value: the
   * sidecar directory was removed and only construction creates it, so
   * opening the sidecar file raises FileNotFoundError.
   */
  lemma SetAfterClearAsWritten(libs: Libs, cfg: Config, w: World, mem: Doc, k: string, v: Value)
    requires cfg.storeToFs && !IsJsonEncodable(v) && SerializerOf(libs, cfg).dumps(v).Some?
    requires k != SerializerKey && k != StoreToFsKey
    ensures var c := ClearStep(w, mem);
      SetStepAsWritten(libs, cfg, c.world, c.mem, k, v).result == Failure(FileNotFound)
  {
    LoadMissing(cfg, map[]);
  }

  /**
   * With the directory created on first use, `set` after `clear_database`
   * stores any user key and `get` reads the value back.
   */
  lemma {:induction false} SetAfterClear(libs: Libs, cfg: Config, w: World, mem: Doc, k: string, v: Value, d: Value)
    requires Sound(libs)
    requires JsonFaithful(v) || (!IsJsonEncodable(v) && SerializerOf(libs, cfg).dumps(v).Some?)
    requires k != SerializerKey && k != StoreToFsKey
    ensures var c := ClearStep(w, mem); var o := SetStep(libs, cfg, c.world, c.mem, k, v);
      && o.result.Success?
      && GetStep(libs, cfg, o.world, o.mem, k, d).result == Success(v)
  {
    var c := ClearStep(w, mem);
    LoadMissing(cfg, c.mem);
    if JsonFaithful(v) { FaithfulIsEncodable(v); }
    SetFailures(libs, cfg, c.world, c.mem, k, v);
    SetThenGet(libs, cfg, c.world, c.mem, k, v, SetStep(libs, cfg, c.world, c.mem, k, v).mem, d);
  }
}
