/**
 * The three-way value codec of the store: `_serialize_value` picks the
 * encoding, `_deserialize_value` dispatches on the recorded tag.
 */
module Codec {
  import opened Wrappers
  import opened PyValues
  import opened Libraries
  import opened Document

  const TagJson: string := "json"
  const TagPickle: string := "pickle"
  const TagFile: string := "file"
  /** Suffix appended to the hex digest to name a sidecar file. */
  const SidecarSuffix: string := "tdbdata"

  /** The serialiser module the configuration selects. */
  function SerializerOf(libs: Libs, cfg: Config): Serializer {
    if cfg.usePickle then libs.pickle else libs.dill
  }

  /** A sidecar file to be written: its name inside the sidecar directory and its bytes. */
  datatype Blob = Blob(name: string, bytes: Bytes)

  /** The payload and tag to store, and the sidecar file that goes with a 'file' payload. */
  datatype Encoding =
    | Encoded(payload: string, tag: string, blob: Option<Blob>)
    | EncodeFailed   // the serialiser's dumps raised

  /** The sidecar file name of a serialised byte string: its SHA-1 hex digest and the suffix. */
  function SidecarName(libs: Libs, b: Bytes): string {
    libs.sha1Hex(b) + SidecarSuffix
  }

  /**
   * JSON when `json.dumps` accepts the value; otherwise the serialiser's bytes,
   * either offloaded to a content-named sidecar file or inlined as base64 text.
   */
  function Encode(libs: Libs, cfg: Config, v: Value): (r: Encoding)
    ensures r.EncodeFailed? <==> !IsJsonEncodable(v) && SerializerOf(libs, cfg).dumps(v).None?
    ensures r.Encoded? ==> (r.tag == TagJson <==> IsJsonEncodable(v))
    ensures r.Encoded? && r.tag == TagJson ==> r.payload == libs.jsonDumps(ToJson(v)) && r.blob == None
    ensures r.Encoded? && r.tag != TagJson ==>
      var b := SerializerOf(libs, cfg).dumps(v).value;
      if cfg.storeToFs then
        r.tag == TagFile && r.payload == SidecarName(libs, b) && r.blob == Some(Blob(r.payload, b))
      else
        r.tag == TagPickle && r.payload == libs.b64encode(b) && r.blob == None
  {
    if IsJsonEncodable(v) then Encoded(libs.jsonDumps(ToJson(v)), TagJson, None)
    else
      match SerializerOf(libs, cfg).dumps(v)
      case None => EncodeFailed
      case Some(b) =>
        if cfg.storeToFs then
          var name := SidecarName(libs, b);
          Encoded(name, TagFile, Some(Blob(name, b)))
        else Encoded(libs.b64encode(b), TagPickle, None)
  }

  /** What `loads` returned, as a result of `_deserialize_value`. */
  function FromUnpickled(u: Unpickled): Result<Value, Error> {
    match u
    case Unpickled(v) => Success(v)
    case UnpicklingRaised => Failure(DecodeFailed)
    case OtherRaised => Failure(OtherLoadError)
  }

  /**
   * Decoding a stored payload. `sidecar` holds the files of the sidecar
   * directory; a 'file' payload whose file is not there raises FileNotFoundError.
   */
  function Decode(libs: Libs, cfg: Config, sidecar: map<string, Bytes>, payload: string, tag: string)
    : (r: Result<Value, Error>)
    ensures tag !in {TagJson, TagPickle, TagFile} ==> r == Failure(UnsupportedType)
    ensures r == Failure(FileNotFound) <==> tag == TagFile && payload !in sidecar
    ensures r.Failure? ==> r.error in {UnsupportedType, DecodeFailed, OtherLoadError, FileNotFound}
  {
    if tag == TagJson then
      match libs.jsonLoads(payload)
      case None => Failure(DecodeFailed)
      case Some(j) => Success(FromJson(j))
    else if tag == TagPickle then
      match libs.b64decode(payload)
      case None => Failure(DecodeFailed)
      case Some(b) => FromUnpickled(SerializerOf(libs, cfg).loads(b))
    else if tag == TagFile then
      if payload in sidecar then FromUnpickled(SerializerOf(libs, cfg).loads(sidecar[payload]))
      else Failure(FileNotFound)
    else Failure(UnsupportedType)
  }

  /**
   * Decoding what was encoded gives the value back, for every tag: a faithful
   * JSON value, or any value the serialiser can dump, provided the sidecar
   * file written for it is still present with its bytes.
   */
  lemma {:induction false} DecodeEncode(libs: Libs, cfg: Config, sidecar: map<string, Bytes>, v: Value)
    requires Sound(libs)
    requires JsonFaithful(v) || !IsJsonEncodable(v)
    requires Encode(libs, cfg, v).Encoded?
    requires var e := Encode(libs, cfg, v); e.blob.Some? ==> sidecar[e.blob.value.name := e.blob.value.bytes] == sidecar
    ensures var e := Encode(libs, cfg, v); Decode(libs, cfg, sidecar, e.payload, e.tag) == Success(v)
  {
    var e := Encode(libs, cfg, v);
    if IsJsonEncodable(v) {
      ToJsonWellFormed(v);
      FromJsonToJson(v);
      assert libs.jsonLoads(e.payload) == Some(ToJson(v));
    } else {
      var s := SerializerOf(libs, cfg);
      var b := s.dumps(v).value;
      assert s.loads(b) == Unpickled(v);
      if cfg.storeToFs {
        assert e.payload in sidecar && sidecar[e.payload] == b by {
          assert e.payload in sidecar[e.payload := b];
        }
      } else {
        assert libs.b64decode(e.payload) == Some(b);
      }
    }
  }

  /** A tag outside the three known ones never decodes. */
  lemma UnknownTagRejected(libs: Libs, cfg: Config, sidecar: map<string, Bytes>, payload: string, tag: string)
    requires tag != TagJson && tag != TagPickle && tag != TagFile
    ensures Decode(libs, cfg, sidecar, payload, tag) == Failure(UnsupportedType)
  {
  }
}
