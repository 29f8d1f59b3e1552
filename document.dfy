/**
 * The TOML document: its top-level items, the two reserved metadata keys, the
 * store's configuration, and reloading the document with its validation.
 */
module Document {
  import opened Wrappers

  const SerializerKey: string := "__serializer__"
  const StoreToFsKey: string := "__store_to_fs__"

  /**
   * A top-level value of the document. The metadata keys hold a string and a
   * boolean; user keys hold a table `{value = ..., type = ...}`.
   */
  datatype Item =
    | Str(s: string)
    | Flag(b: bool)
    | Table(value: string, ty: string)

  type Doc = map<string, Item>

  /** The document file: missing, readable, or present but not parseable as TOML. */
  datatype DocFile = NoFile | Saved(doc: Doc) | Unreadable

  /** The exceptions an operation of the store can raise. */
  datatype Error =
    | SerializerMismatch  // ValueError from the load check
    | StoreToFsMismatch   // ValueError from the load check
    | CorruptDocument     // the TOML parser rejects the file
    | NotATable           // TypeError: subscripting a string or a boolean item
    | UnsupportedType     // ValueError: a tag other than json, pickle, file
    | DecodeFailed        // JSONDecodeError, binascii.Error, or a caught exception of loads
    | OtherLoadError      // an exception of loads that get does not catch
    | FileNotFound        // FileNotFoundError on a sidecar file
    | SerializeFailed     // the serialiser's dumps raised
    | KeyNotFound         // KeyError from the bracket accessors

  /** The construction parameters `store_to_fs` and `use_pickle`. */
  datatype Config = Config(storeToFs: bool, usePickle: bool) {
    function SerializerName(): string {
      if usePickle then "pickle" else "dill"
    }
  }

  /** Python truthiness of an item; a table is a non-empty dict. */
  predicate Truthy(it: Item) {
    match it
    case Str(s) => s != ""
    case Flag(b) => b
    case Table(_, _) => true
  }

  /** The document records a serializer that is set and differs from the configured one. */
  predicate SerializerConflict(raw: Doc, cfg: Config) {
    SerializerKey in raw && Truthy(raw[SerializerKey]) && raw[SerializerKey] != Str(cfg.SerializerName())
  }

  /** The document records a storage mode that differs from the configured one. */
  predicate StoreToFsConflict(raw: Doc, cfg: Config) {
    StoreToFsKey in raw && raw[StoreToFsKey] != Flag(cfg.storeToFs)
  }

  /** The two metadata keys, overwritten with the current configuration. */
  function Stamp(m: Doc, cfg: Config): (r: Doc)
    ensures r.Keys == m.Keys + {SerializerKey, StoreToFsKey}
    ensures r[SerializerKey] == Str(cfg.SerializerName()) && r[StoreToFsKey] == Flag(cfg.storeToFs)
    ensures forall k :: k in m && k != SerializerKey && k != StoreToFsKey ==> r[k] == m[k]
  {
    m[SerializerKey := Str(cfg.SerializerName())][StoreToFsKey := Flag(cfg.storeToFs)]
  }

  /** A document written by a store with configuration `cfg`. */
  predicate StampedBy(m: Doc, cfg: Config) {
    && SerializerKey in m && m[SerializerKey] == Str(cfg.SerializerName())
    && StoreToFsKey in m && m[StoreToFsKey] == Flag(cfg.storeToFs)
  }

  /** The in-memory map after a reload, and the exception the reload raised, if any. */
  datatype Loaded = Loaded(err: Option<Error>, mem: Doc)

  /**
   * Reloading the document into a store whose in-memory map is `mem`. A parse
   * failure leaves `mem` as it was; a configuration mismatch is detected after
   * the parsed document has already replaced it.
   */
  function Load(cfg: Config, file: DocFile, mem: Doc): Loaded {
    match file
    case NoFile => Loaded(None, Stamp(map[], cfg))
    case Unreadable => Loaded(Some(CorruptDocument), mem)
    case Saved(raw) =>
      if SerializerConflict(raw, cfg) then Loaded(Some(SerializerMismatch), raw)
      else if StoreToFsConflict(raw, cfg) then Loaded(Some(StoreToFsMismatch), raw)
      else Loaded(None, Stamp(raw, cfg))
  }

  /**
   * A readable document is rejected exactly when it records a serializer other
   * than an empty string, `false` or the configured name, or records a storage
   * mode other than the configured flag. Otherwise its items are kept and the
   * two metadata keys are set to the configuration.
   */
  lemma LoadValidation(cfg: Config, raw: Doc, mem: Doc)
    ensures var ld := Load(cfg, Saved(raw), mem);
      && (ld.err.Some? <==>
          (SerializerKey in raw && raw[SerializerKey] !in {Str(""), Flag(false), Str(cfg.SerializerName())})
          || (StoreToFsKey in raw && raw[StoreToFsKey] != Flag(cfg.storeToFs)))
      && (ld.err.Some? ==> ld.mem == raw)
      && (ld.err.None? ==>
          && ld.mem.Keys == raw.Keys + {SerializerKey, StoreToFsKey}
          && StampedBy(ld.mem, cfg)
          && forall k :: k in raw && k != SerializerKey && k != StoreToFsKey ==> ld.mem[k] == raw[k])
  {
    if SerializerKey in raw {
      var it := raw[SerializerKey];
      assert Truthy(it) && it != Str(cfg.SerializerName())
        <==> it !in {Str(""), Flag(false), Str(cfg.SerializerName())};
    }
  }

  /** A missing document loads as just the two metadata keys. */
  lemma LoadMissing(cfg: Config, mem: Doc)
    ensures var ld := Load(cfg, NoFile, mem);
      ld.err.None? && ld.mem.Keys == {SerializerKey, StoreToFsKey} && StampedBy(ld.mem, cfg)
  {
  }

  /** A document that this configuration wrote loads back unchanged. */
  lemma {:induction false} LoadOwnDocument(cfg: Config, m: Doc, mem: Doc)
    requires StampedBy(m, cfg)
    ensures Load(cfg, Saved(m), mem) == Loaded(None, m)
  {
    assert !SerializerConflict(m, cfg) && !StoreToFsConflict(m, cfg);
    var r := Stamp(m, cfg);
    assert r.Keys == m.Keys;
    assert forall k :: k in m ==> r[k] == m[k];
  }

  /**
   * A document written under one storage mode is refused under the other, with
   * the parsed document left in memory. The serializer is checked first, so a
   * store that also differs in serializer reports that mismatch.
   */
  lemma StoreModeMismatch(cfg: Config, other: Config, m: Doc, mem: Doc)
    requires StampedBy(m, cfg) && other.storeToFs != cfg.storeToFs
    ensures Load(other, Saved(m), mem)
      == Loaded(Some(if other.usePickle != cfg.usePickle then SerializerMismatch else StoreToFsMismatch), m)
  {
  }

  /** A document written with one serializer is refused by a store configured with the other. */
  lemma SerializerModeMismatch(cfg: Config, other: Config, m: Doc, mem: Doc)
    requires StampedBy(m, cfg) && other.usePickle != cfg.usePickle
    ensures Load(other, Saved(m), mem) == Loaded(Some(SerializerMismatch), m)
  {
  }
}
