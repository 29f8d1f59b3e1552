/**
 * The store as the source writes it: a `TomlDB` object whose map `data` is
 * reloaded, updated in place and saved by each public method, over a `Disk`
 * that every instance opened on the same document shares.
 *
 * Each method is one atomic step (the process lock brackets it) and is proved
 * to match the step function of module Operations that specifies it.
 */
module TomlDatabase {
  import opened Wrappers
  import opened PyValues
  import opened Libraries
  import opened Document
  import opened Codec
  import opened Operations
  import Properties

  /** The document file, the sidecar directory and the files in it. */
  class Disk {
    var file: DocFile
    var dirExists: bool
    var sidecar: map<string, Bytes>

    function State(): World
      reads this
    {
      World(file, dirExists, sidecar)
    }

    ghost predicate Valid()
      reads this
    {
      WorldOk(State())
    }

    /** A disk with no document and no sidecar directory. */
    constructor ()
      ensures Valid() && State() == World(NoFile, false, map[])
    {
      file, dirExists, sidecar := NoFile, false, map[];
    }
  }

  class TomlDB {
    const disk: Disk
    const cfg: Config
    const libs: Libs
    /** `self.data`: the map the last reload produced, as updated since. */
    var data: Doc

    /** `__init__` up to the initial load: the sidecar directory is created when offloading is on. */
    constructor (disk: Disk, storeToFs: bool, usePickle: bool, libs: Libs)
      requires disk.Valid()
      modifies disk
      ensures this.disk == disk && cfg == Config(storeToFs, usePickle) && this.libs == libs
      ensures data == map[]
      ensures disk.Valid()
      ensures disk.State() == old(disk.State()).(dirExists := old(disk.dirExists) || storeToFs)
    {
      this.disk := disk;
      cfg := Config(storeToFs, usePickle);
      this.libs := libs;
      data := map[];
      new;
      if storeToFs {
        disk.dirExists := true;
      }
    }

    /** `_load_database`. */
    method Reload() returns (err: Option<Error>)
      modifies this
      ensures Loaded(err, data) == Load(cfg, disk.file, old(data))
    {
      match disk.file {
        case Unreadable =>
          return Some(CorruptDocument);
        case NoFile =>
          data := map[];
        case Saved(raw) =>
          data := raw;
          if SerializerConflict(data, cfg) {
            return Some(SerializerMismatch);
          }
          if StoreToFsConflict(data, cfg) {
            return Some(StoreToFsMismatch);
          }
      }
      data := data[SerializerKey := Str(cfg.SerializerName())];
      data := data[StoreToFsKey := Flag(cfg.storeToFs)];
      err := None;
    }

    /** `_save_database`. */
    method SaveDocument()
      modifies disk
      ensures disk.State() == Save(old(disk.State()), data)
    {
      disk.file := Saved(data);
    }

    /**
     * `set(k, v)`. A sidecar file is written into the sidecar directory as it
     * stands: when `clear_database` has removed it, the write fails.
     */
    method Set(k: string, v: Value) returns (r: Result<(), Error>)
      requires disk.Valid()
      modifies this, disk
      ensures disk.Valid()
      ensures var o := SetStepAsWritten(libs, cfg, old(disk.State()), old(data), k, v);
        r == o.result && disk.State() == o.world && data == o.mem
    {
      SetKeepsWorldOk(false, libs, cfg, disk.State(), data, k, v);
      var err := Reload();
      if err.Some? {
        return Failure(err.value);
      }
      if k in data {
        match data[k] {
          case Table(oldName, tag) =>
            if tag == TagFile && oldName in disk.sidecar {
              disk.sidecar := disk.sidecar - {oldName};
            }
          case _ =>
            return Failure(NotATable);
        }
      }
      var enc := Encode(libs, cfg, v);
      match enc
      case EncodeFailed =>
        return Failure(SerializeFailed);
      case Encoded(payload, tag, blob) =>
        if blob.Some? {
          if !disk.dirExists {
            return Failure(FileNotFound);
          }
          disk.sidecar := disk.sidecar[blob.value.name := blob.value.bytes];
        }
        data := data[k := Table(payload, tag)];
        SaveDocument();
        r := Success(());
    }

    /** `db[k] = v`. */
    method SetItem(k: string, v: Value) returns (r: Result<(), Error>)
      requires disk.Valid()
      modifies this, disk
      ensures disk.Valid()
      ensures var o := SetStepAsWritten(libs, cfg, old(disk.State()), old(data), k, v);
        r == o.result && disk.State() == o.world && data == o.mem
    {
      r := Set(k, v);
    }

    /** `get(k, default)`. */
    method Get(k: string, default: Value) returns (r: Result<Value, Error>)
      modifies this
      ensures var o := GetStep(libs, cfg, disk.State(), old(data), k, default);
        r == o.result && data == o.mem
    {
      var err := Reload();
      if err.Some? {
        return Failure(err.value);
      }
      if k !in data {
        return Success(default);
      }
      var decoded := match data[k]
        case Table(payload, tag) => Decode(libs, cfg, disk.sidecar, payload, tag)
        case _ => Failure(NotATable);
      if decoded.Failure? && Absorbed(decoded.error) {
        r := Success(default);
      } else {
        r := decoded;
      }
    }

    /** `db[k]`. */
    method GetItem(k: string) returns (r: Result<Value, Error>)
      modifies this
      ensures var o := GetItemStep(libs, cfg, disk.State(), old(data), k);
        r == o.result && data == o.mem
    {
      r := Get(k, VNone);
      if r == Success(VNone) {
        r := Failure(KeyNotFound);
      }
    }

    /** `delete(k)`. */
    method Delete(k: string) returns (r: Result<(), Error>)
      requires disk.Valid()
      modifies this, disk
      ensures disk.Valid()
      ensures var o := DeleteStep(cfg, old(disk.State()), old(data), k);
        r == o.result && disk.State() == o.world && data == o.mem
    {
      OthersKeepWorldOk(cfg, disk.State(), data, k);
      var err := Reload();
      if err.Some? {
        return Failure(err.value);
      }
      if k in data {
        match data[k] {
          case Table(name, tag) =>
            if tag == TagFile {
              if name !in disk.sidecar {
                return Failure(FileNotFound);
              }
              disk.sidecar := disk.sidecar - {name};
            }
          case _ =>
            return Failure(NotATable);
        }
        data := data - {k};
        SaveDocument();
      }
      r := Success(());
    }

    /** `del db[k]`: checked against the current map before any reload. */
    method DelItem(k: string) returns (r: Result<(), Error>)
      requires disk.Valid()
      modifies this, disk
      ensures disk.Valid()
      ensures var o := DelItemStep(cfg, old(disk.State()), old(data), k);
        r == o.result && disk.State() == o.world && data == o.mem
    {
      if k !in data {
        return Failure(KeyNotFound);
      }
      r := Delete(k);
    }

    /** `exists(k)`. */
    method Exists(k: string) returns (r: Result<bool, Error>)
      modifies this
      ensures var o := ExistsStep(cfg, disk.State(), old(data), k);
        r == o.result && data == o.mem
    {
      var err := Reload();
      if err.Some? {
        return Failure(err.value);
      }
      r := Success(k in data);
    }

    /** `k in db`. */
    method Contains(k: string) returns (r: Result<bool, Error>)
      modifies this
      ensures var o := ExistsStep(cfg, disk.State(), old(data), k);
        r == o.result && data == o.mem
    {
      r := Exists(k);
    }

    /** `keys()`, as the set of keys of the reloaded map. */
    method Keys() returns (r: Result<set<string>, Error>)
      modifies this
      ensures var o := KeysStep(cfg, disk.State(), old(data));
        r == o.result && data == o.mem
    {
      var err := Reload();
      if err.Some? {
        return Failure(err.value);
      }
      r := Success(data.Keys);
    }

    /** `clear_database`: every file of the sidecar directory is removed one by one, then the directory. */
    method Clear()
      requires disk.Valid()
      modifies this, disk
      ensures disk.Valid()
      ensures var o := ClearStep(old(disk.State()), old(data));
        disk.State() == o.world && data == o.mem
    {
      if disk.file != NoFile {
        disk.file := NoFile;
      }
      if disk.dirExists {
        var listing := disk.sidecar.Keys;
        while listing != {}
          invariant disk.sidecar.Keys == listing
          invariant disk.file == NoFile && disk.dirExists
          decreases listing
        {
          var name :| name in listing;
          disk.sidecar := disk.sidecar - {name};
          listing := listing - {name};
        }
        disk.dirExists := false;
      }
      assert disk.sidecar.Keys == {};
      data := map[];
    }
  }

  /** `TomlDB(filename, store_to_fs, use_pickle)`: construction, then the initial load. */
  method Open(disk: Disk, storeToFs: bool, usePickle: bool, libs: Libs) returns (r: Result<TomlDB, Error>)
    requires disk.Valid()
    modifies disk
    ensures disk.Valid()
    ensures var o := OpenStep(Config(storeToFs, usePickle), old(disk.State()));
      && disk.State() == o.world
      && (r.Failure? <==> o.result.Failure?)
      && (r.Failure? ==> r.error == o.result.error)
      && (r.Success? ==> fresh(r.value) && r.value.disk == disk && r.value.libs == libs
                         && r.value.cfg == Config(storeToFs, usePickle) && r.value.data == o.mem)
  {
    OthersKeepWorldOk(Config(storeToFs, usePickle), disk.State(), map[], "");
    var db := new TomlDB(disk, storeToFs, usePickle, libs);
    var err := db.Reload();
    if err.Some? {
      return Failure(err.value);
    }
    r := Success(db);
  }

  /**
   * The scenario of binary_demo.py: a store with the default configuration
   * keeps a byte string offloaded to a sidecar file and `db["bin"]` returns
   * it unchanged.
   */
  method BinaryRoundTrip(disk: Disk, libs: Libs, bin: Bytes) returns (read: Result<Value, Error>)
    requires disk.Valid() && Sound(libs)
    requires libs.dill.dumps(VBytes(bin)).Some?
    modifies disk
    ensures disk.Valid()
    ensures old(disk.file).NoFile? ==> read == Success(VBytes(bin))
  {
    var made := Open(disk, true, false, libs);
    if made.Failure? {
      return Failure(made.error);
    }
    var db := made.value;
    ghost var before, mem := disk.State(), db.data;
    var written := db.SetItem("bin", VBytes(bin));
    if written.Failure? {
      return Failure(written.error);
    }
    SetAsWrittenAgrees(libs, db.cfg, before, mem, "bin", VBytes(bin));
    Properties.SetThenGet(libs, db.cfg, before, mem, "bin", VBytes(bin), db.data, VNone);
    read := db.GetItem("bin");
  }
}
