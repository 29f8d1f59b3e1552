/**
 * The public operations of the store as transitions of an abstract state.
 *
 * `World` is what is on disk and shared by every store instance opened on the
 * same document: the document file, whether the sidecar directory exists, and
 * the files in it. `mem` is one instance's in-memory map (`self.data`). Each
 * operation runs as one atomic step, as it does under the process lock.
 */
module Operations {
  import opened Wrappers
  import opened PyValues
  import opened Libraries
  import opened Document
  import opened Codec

  datatype World = World(file: DocFile, dirExists: bool, sidecar: map<string, Bytes>)

  /** No sidecar file exists without the sidecar directory. */
  predicate WorldOk(w: World) {
    !w.dirExists ==> w.sidecar == map[]
  }

  /** What an operation returned or raised, the disk after it, and the instance's map after it. */
  datatype Outcome<T> = Outcome(result: Result<T, Error>, world: World, mem: Doc)

  /** `_save_database`: the whole map is rewritten as the document. */
  function Save(w: World, m: Doc): World {
    w.(file := Saved(m))
  }

  /** `os.remove` of a sidecar file if it exists. */
  function RemoveSidecar(w: World, name: string): World {
    w.(sidecar := w.sidecar - {name})
  }

  /** `__init__`: create the sidecar directory when offloading is on, then load. */
  function OpenStep(cfg: Config, w: World): Outcome<()> {
    var w1 := w.(dirExists := w.dirExists || cfg.storeToFs);
    var ld := Load(cfg, w1.file, map[]);
    Outcome(if ld.err.Some? then Failure(ld.err.value) else Success(()), w1, ld.mem)
  }

  /**
   * `set`, parameterised on whether an absent sidecar directory is created
   * before a sidecar file is written into it (see SetStepAsWritten and SetStep).
   */
  function SetStepWith(createDir: bool, libs: Libs, cfg: Config, w: World, mem: Doc, k: string, v: Value)
    : Outcome<()>
  {
    var ld := Load(cfg, w.file, mem);
    if ld.err.Some? then Outcome(Failure(ld.err.value), w, ld.mem)
    else
      var m := ld.mem;
      if k in m && !m[k].Table? then Outcome(Failure(NotATable), w, m)
      else
        var w1 := if k in m && m[k].ty == TagFile then RemoveSidecar(w, m[k].value) else w;
        match Encode(libs, cfg, v)
        case EncodeFailed => Outcome(Failure(SerializeFailed), w1, m)
        case Encoded(payload, tag, blob) =>
          if blob.Some? && !w1.dirExists && !createDir then Outcome(Failure(FileNotFound), w1, m)
          else
            var w2 := if blob.Some?
              then w1.(dirExists := true, sidecar := w1.sidecar[blob.value.name := blob.value.bytes])
              else w1;
            var m2 := m[k := Table(payload, tag)];
            Outcome(Success(()), Save(w2, m2), m2)
  }

  /** `set` as the source writes it: a sidecar file is opened for writing in whatever directory there is. */
  function SetStepAsWritten(libs: Libs, cfg: Config, w: World, mem: Doc, k: string, v: Value): Outcome<()> {
    SetStepWith(false, libs, cfg, w, mem, k, v)
  }

  /**
   * `set` with the sidecar directory created on first use: the directory the
   * constructor creates with `exist_ok=True` is then there whenever it is needed.
   */
  function SetStep(libs: Libs, cfg: Config, w: World, mem: Doc, k: string, v: Value): Outcome<()> {
    SetStepWith(true, libs, cfg, w, mem, k, v)
  }

  /** The decoding errors `get` catches and turns into the default. */
  predicate Absorbed(e: Error) {
    e == NotATable || e == UnsupportedType || e == DecodeFailed
  }

  /** `get(k, default)`. */
  function GetStep(libs: Libs, cfg: Config, w: World, mem: Doc, k: string, default: Value): Outcome<Value> {
    var ld := Load(cfg, w.file, mem);
    if ld.err.Some? then Outcome(Failure(ld.err.value), w, ld.mem)
    else if k !in ld.mem then Outcome(Success(default), w, ld.mem)
    else
      var r := match ld.mem[k]
        case Table(payload, tag) => Decode(libs, cfg, w.sidecar, payload, tag)
        case _ => Failure(NotATable);
      if r.Failure? && Absorbed(r.error) then Outcome(Success(default), w, ld.mem)
      else Outcome(r, w, ld.mem)
  }

  /** `db[k]`: `get(k)`, with a None result raised as KeyError. */
  function GetItemStep(libs: Libs, cfg: Config, w: World, mem: Doc, k: string): Outcome<Value> {
    var o := GetStep(libs, cfg, w, mem, k, VNone);
    if o.result == Success(VNone) then o.(result := Failure(KeyNotFound)) else o
  }

  /** `delete(k)`. */
  function DeleteStep(cfg: Config, w: World, mem: Doc, k: string): Outcome<()> {
    var ld := Load(cfg, w.file, mem);
    if ld.err.Some? then Outcome(Failure(ld.err.value), w, ld.mem)
    else
      var m := ld.mem;
      if k !in m then Outcome(Success(()), w, m)
      else if !m[k].Table? then Outcome(Failure(NotATable), w, m)
      else if m[k].ty == TagFile && m[k].value !in w.sidecar then Outcome(Failure(FileNotFound), w, m)
      else
        var w1 := if m[k].ty == TagFile then RemoveSidecar(w, m[k].value) else w;
        var m2 := m - {k};
        Outcome(Success(()), Save(w1, m2), m2)
  }

  /** `del db[k]`: the key is looked up in the map the previous operation left, before any reload. */
  function DelItemStep(cfg: Config, w: World, mem: Doc, k: string): Outcome<()> {
    if k !in mem then Outcome(Failure(KeyNotFound), w, mem) else DeleteStep(cfg, w, mem, k)
  }

  /** `exists(k)` and `k in db`. */
  function ExistsStep(cfg: Config, w: World, mem: Doc, k: string): Outcome<bool> {
    var ld := Load(cfg, w.file, mem);
    Outcome(if ld.err.Some? then Failure(ld.err.value) else Success(k in ld.mem), w, ld.mem)
  }

  /** `keys()`; the order of the returned list is not modelled. */
  function KeysStep(cfg: Config, w: World, mem: Doc): Outcome<set<string>> {
    var ld := Load(cfg, w.file, mem);
    Outcome(if ld.err.Some? then Failure(ld.err.value) else Success(ld.mem.Keys), w, ld.mem)
  }

  /** `clear_database`: the document and the sidecar directory with every file in it go away. */
  function ClearStep(w: World, mem: Doc): Outcome<()> {
    Outcome(Success(()), World(NoFile, false, map[]), map[])
  }

  // ---------------------------------------------------------------- set

  /**
   * `set` raises exactly when the reload does, the key holds a metadata item,
   * the value cannot be dumped, or a sidecar file is to be written while the
   * sidecar directory is missing. The corrected `set` has only the first three.
   */
  lemma SetFailures(libs: Libs, cfg: Config, w: World, mem: Doc, k: string, v: Value)
    ensures var ld := Load(cfg, w.file, mem); var o := SetStepAsWritten(libs, cfg, w, mem, k, v);
      var e := Encode(libs, cfg, v);
      && (o.result.Failure? <==>
          || ld.err.Some?
          || (k in ld.mem && !ld.mem[k].Table?)
          || e.EncodeFailed?
          || (e.blob.Some? && !w.dirExists))
      && (o.result.Failure? ==> o.world.file == w.file && o.mem == ld.mem)
      && (o.result.Failure? && ld.err.Some? ==> o.world == w && o.result.error == ld.err.value)
      && (o.result.Failure? && ld.err.None? && !(k in ld.mem && !ld.mem[k].Table?) && e.Encoded?
          ==> o.result.error == FileNotFound)
    ensures var ld := Load(cfg, w.file, mem); var o := SetStep(libs, cfg, w, mem, k, v);
      o.result.Failure? <==>
        ld.err.Some? || (k in ld.mem && !ld.mem[k].Table?) || Encode(libs, cfg, v).EncodeFailed?
  {
  }

  /**
   * Where the `set` the source writes succeeds, it takes the same step as the
   * corrected one: every property proved of a successful corrected `set`
   * holds of it.
   */
  lemma SetAsWrittenAgrees(libs: Libs, cfg: Config, w: World, mem: Doc, k: string, v: Value)
    ensures SetStepAsWritten(libs, cfg, w, mem, k, v).result.Success? ==>
      SetStepAsWritten(libs, cfg, w, mem, k, v) == SetStep(libs, cfg, w, mem, k, v)
    ensures w.dirExists ==> SetStepAsWritten(libs, cfg, w, mem, k, v) == SetStep(libs, cfg, w, mem, k, v)
  {
  }

  /**
   * A successful `set` binds `k` to the encoding of `v`, keeps every other key
   * of the reloaded map, saves the map as the document, removes the key's old
   * sidecar file, writes the sidecar file of a 'file' encoding, and leaves
   * every other sidecar file with its bytes.
   */
  lemma SetUpdatesOneKey(libs: Libs, cfg: Config, w: World, mem: Doc, k: string, v: Value)
    requires SetStep(libs, cfg, w, mem, k, v).result.Success?
    ensures var ld := Load(cfg, w.file, mem); var o := SetStep(libs, cfg, w, mem, k, v);
      var e := Encode(libs, cfg, v);
      && e.Encoded?
      && o.mem.Keys == ld.mem.Keys + {k}
      && o.mem[k] == Table(e.payload, e.tag)
      && (forall k' :: k' in ld.mem && k' != k ==> o.mem[k'] == ld.mem[k'])
      && o.world.file == Saved(o.mem)
      && StampedBy(o.mem, cfg)
      && var kept := if k in ld.mem && ld.mem[k].ty == TagFile then w.sidecar - {ld.mem[k].value} else w.sidecar;
         && o.world.sidecar == (if e.blob.Some? then kept[e.blob.value.name := e.blob.value.bytes] else kept)
         && o.world.dirExists == (w.dirExists || e.blob.Some?)
  {
  }

  /**
   * Overwriting a 'file' entry removes its sidecar file first. Afterwards the
   * sidecar directory holds the files it held except the old one, plus the file
   * of the new encoding; so re-setting an identical value leaves its file there.
   */
  lemma SetOverwriteCleanup(libs: Libs, cfg: Config, w: World, mem: Doc, k: string, v: Value, oldName: string)
    requires var ld := Load(cfg, w.file, mem); ld.err.None? && k in ld.mem && ld.mem[k] == Table(oldName, TagFile)
    requires SetStep(libs, cfg, w, mem, k, v).result.Success?
    ensures var o := SetStep(libs, cfg, w, mem, k, v); var e := Encode(libs, cfg, v);
      && (forall n :: n in o.world.sidecar <==>
            (n in w.sidecar && n != oldName) || (e.blob.Some? && n == e.blob.value.name))
      && (oldName in o.world.sidecar <==> e.blob.Some? && e.blob.value.name == oldName)
  {
  }

  /**
   * The old sidecar file of `k` is removed before `v` is encoded and written.
   * When `set` then fails, the document is not rewritten and still binds `k` to
   * that file, so the stored value is lost: `get(k)` raises FileNotFoundError.
   */
  lemma FailedSetLosesOldFile(libs: Libs, cfg: Config, w: World, mem: Doc, k: string, v: Value, d: Value, name: string)
    requires w.file.Saved? && StampedBy(w.file.doc, cfg)
    requires k in w.file.doc && w.file.doc[k] == Table(name, TagFile)
    requires SetStepAsWritten(libs, cfg, w, mem, k, v).result.Failure?
    ensures var o := SetStepAsWritten(libs, cfg, w, mem, k, v);
      && name !in o.world.sidecar
      && o.world.file == w.file
      && GetStep(libs, cfg, o.world, mem, k, d).result == Failure(FileNotFound)
  {
    LoadOwnDocument(cfg, w.file.doc, mem);
  }

  /**
   * The metadata keys are not tables: `set` and `delete` of either raise
   * TypeError once the document has loaded, and leave the disk as it was.
   */
  lemma ReservedKeysRejected(libs: Libs, cfg: Config, w: World, mem: Doc, k: string, v: Value)
    requires k == SerializerKey || k == StoreToFsKey
    requires Load(cfg, w.file, mem).err.None?
    ensures SetStep(libs, cfg, w, mem, k, v).result == Failure(NotATable)
    ensures SetStep(libs, cfg, w, mem, k, v).world == w
    ensures SetStepAsWritten(libs, cfg, w, mem, k, v) == SetStep(libs, cfg, w, mem, k, v)
    ensures DeleteStep(cfg, w, mem, k) == Outcome(Failure(NotATable), w, Load(cfg, w.file, mem).mem)
  {
  }

  // ---------------------------------------------------------------- get

  /**
   * `get` never raises the decoding errors it lists: an absent key, a metadata
   * item, an unknown tag or undecodable data all give the default. What it can
   * raise is a failed reload, a missing sidecar file, or an exception of the
   * serialiser's `loads` outside the caught list. It never changes the disk.
   */
  lemma GetAbsorbs(libs: Libs, cfg: Config, w: World, mem: Doc, k: string, d: Value)
    ensures var ld := Load(cfg, w.file, mem); var o := GetStep(libs, cfg, w, mem, k, d);
      && o.world == w && o.mem == ld.mem
      && (ld.err.None? && k !in ld.mem ==> o.result == Success(d))
      && (ld.err.None? && k in ld.mem && !ld.mem[k].Table? ==> o.result == Success(d))
      && (ld.err.None? && k in ld.mem && ld.mem[k].Table? && ld.mem[k].ty !in {TagJson, TagPickle, TagFile}
          ==> o.result == Success(d))
      && (ld.err.None? && k in ld.mem && ld.mem[k].Table?
          && Decode(libs, cfg, w.sidecar, ld.mem[k].value, ld.mem[k].ty).Failure?
          && Absorbed(Decode(libs, cfg, w.sidecar, ld.mem[k].value, ld.mem[k].ty).error)
          ==> o.result == Success(d))
      && (ld.err.Some? ==> o.result == Failure(ld.err.value))
      && (o.result.Failure? ==>
          o.result.error in {SerializerMismatch, StoreToFsMismatch, CorruptDocument, FileNotFound, OtherLoadError})
  {
  }

  /** A missing sidecar file is not among the errors `get` catches: it propagates. */
  lemma GetMissingSidecarRaises(libs: Libs, cfg: Config, w: World, mem: Doc, k: string, d: Value, name: string)
    requires var ld := Load(cfg, w.file, mem); ld.err.None? && k in ld.mem && ld.mem[k] == Table(name, TagFile)
    requires name !in w.sidecar
    ensures GetStep(libs, cfg, w, mem, k, d).result == Failure(FileNotFound)
  {
  }

  /** `db[k]` raises KeyError exactly when `get(k)` yields None, a stored None included. */
  lemma GetItemKeyError(libs: Libs, cfg: Config, w: World, mem: Doc, k: string)
    ensures var o := GetItemStep(libs, cfg, w, mem, k); var g := GetStep(libs, cfg, w, mem, k, VNone);
      && (o.result == Failure(KeyNotFound) <==> g.result == Success(VNone))
      && (g.result != Success(VNone) ==> o.result == g.result)
      && o.world == w
  {
  }

  /** `exists` and `keys` see the reloaded map, which always holds the two metadata keys. */
  lemma ReloadedKeys(cfg: Config, w: World, mem: Doc, k: string)
    requires Load(cfg, w.file, mem).err.None?
    ensures var ks := KeysStep(cfg, w, mem).result;
      && ks.Success? && {SerializerKey, StoreToFsKey} <= ks.value
      && ExistsStep(cfg, w, mem, k).result == Success(k in ks.value)
  {
  }

  // ---------------------------------------------------------------- delete

  /**
   * `delete` of a present user key removes it and, for a 'file' entry, its
   * sidecar file, keeps every other key, and saves. On an absent key the disk
   * is left as it was.
   */
  lemma DeleteEffect(cfg: Config, w: World, mem: Doc, k: string)
    requires Load(cfg, w.file, mem).err.None?
    ensures var ld := Load(cfg, w.file, mem); var o := DeleteStep(cfg, w, mem, k);
      && (k !in ld.mem ==> o.result.Success? && o.world == w && o.mem == ld.mem)
      && (k in ld.mem && o.result.Success? ==>
          && ld.mem[k].Table?
          && o.mem.Keys == ld.mem.Keys - {k}
          && (forall k' :: k' in o.mem ==> o.mem[k'] == ld.mem[k'])
          && o.world.file == Saved(o.mem)
          && (ld.mem[k].ty == TagFile ==> o.world.sidecar == w.sidecar - {ld.mem[k].value})
          && (ld.mem[k].ty != TagFile ==> o.world.sidecar == w.sidecar)
          && o.world.dirExists == w.dirExists)
      && (o.result.Failure? ==> o.world == w)
  {
  }

  /** `delete` raises exactly when the reload does, the key holds a metadata item, or its sidecar file is missing. */
  lemma DeleteFailures(cfg: Config, w: World, mem: Doc, k: string)
    ensures var ld := Load(cfg, w.file, mem); var o := DeleteStep(cfg, w, mem, k);
      o.result.Failure? <==>
        || ld.err.Some?
        || (k in ld.mem && !ld.mem[k].Table?)
        || (k in ld.mem && ld.mem[k].Table? && ld.mem[k].ty == TagFile && ld.mem[k].value !in w.sidecar)
  {
  }

  /** `del db[k]` raises KeyError, without reloading, when the previous map lacks `k`. */
  lemma DelItemMissing(cfg: Config, w: World, mem: Doc, k: string)
    requires k !in mem
    ensures DelItemStep(cfg, w, mem, k) == Outcome(Failure(KeyNotFound), w, mem)
  {
  }

  // ---------------------------------------------------------------- invariants

  /** `set`, as written or corrected, keeps sidecar files inside an existing directory. */
  lemma SetKeepsWorldOk(createDir: bool, libs: Libs, cfg: Config, w: World, mem: Doc, k: string, v: Value)
    requires WorldOk(w)
    ensures WorldOk(SetStepWith(createDir, libs, cfg, w, mem, k, v).world)
  {
    var ld := Load(cfg, w.file, mem);
    if ld.err.None? && !(k in ld.mem && !ld.mem[k].Table?) {
      var m := ld.mem;
      var w1 := if k in m && m[k].ty == TagFile then RemoveSidecar(w, m[k].value) else w;
      assert WorldOk(w1);
    }
  }

  /** Opening, deleting and clearing keep sidecar files inside an existing directory. */
  lemma OthersKeepWorldOk(cfg: Config, w: World, mem: Doc, k: string)
    requires WorldOk(w)
    ensures WorldOk(OpenStep(cfg, w).world)
    ensures WorldOk(DeleteStep(cfg, w, mem, k).world)
    ensures WorldOk(ClearStep(w, mem).world)
  {
  }

  /** The document on disk, when there is one, carries the configuration of the store that saved it. */
  predicate DiskStampedBy(w: World, cfg: Config) {
    w.file.Saved? ==> StampedBy(w.file.doc, cfg)
  }

  /** A successful `set` or `delete` saves a document stamped with the store's configuration. */
  lemma SavesAreStamped(libs: Libs, cfg: Config, w: World, mem: Doc, k: string, v: Value)
    ensures SetStep(libs, cfg, w, mem, k, v).result.Success? ==> DiskStampedBy(SetStep(libs, cfg, w, mem, k, v).world, cfg)
    ensures var o := SetStepAsWritten(libs, cfg, w, mem, k, v); o.result.Success? ==> DiskStampedBy(o.world, cfg)
    ensures var o := DeleteStep(cfg, w, mem, k);
      o.result.Success? && o.world != w ==> DiskStampedBy(o.world, cfg)
  {
  }
}
