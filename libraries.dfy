/**
 * The foreign libraries the store calls into: the JSON printer and parser,
 * the generic object serialisers (dill and pickle), base64 as specified in
 * section 4 of RFC 4648, and the hex digest of SHA-1 (FIPS 180-4).
 *
 * None of them is modelled; each is a function value in a `Libs` bundle, and
 * `Sound` collects the round-trip facts the store relies on. Every lemma that
 * needs one of those facts says so with `requires Sound(libs)`.
 */
module Libraries {
  import opened Wrappers
  import opened PyValues

  /** What `loads` of a serialiser does with a byte string. */
  datatype Unpickled =
    | Unpickled(v: Value)
    | UnpicklingRaised   // an exception `get` catches: UnpicklingError, TypeError or ValueError
    | OtherRaised        // an exception it lets through (EOFError, ImportError, AttributeError, ...)

  /** A generic object serialiser. `dumps` is None where it raises (e.g. pickle on a lambda). */
  datatype Serializer = Serializer(dumps: Value -> Option<Bytes>, loads: Bytes -> Unpickled)

  datatype Libs = Libs(
    jsonDumps: Json -> string,
    jsonLoads: string -> Option<Json>,   // None: json.JSONDecodeError
    b64encode: Bytes -> string,
    b64decode: string -> Option<Bytes>,  // None: binascii.Error, a ValueError
    sha1Hex: Bytes -> string,
    dill: Serializer,
    pickle: Serializer)

  /** Whatever a serialiser manages to dump, it loads back as the same value. */
  ghost predicate SerializerRoundTrips(s: Serializer) {
    forall v :: s.dumps(v).Some? ==> s.loads(s.dumps(v).value) == Unpickled(v)
  }

  /** The round-trip facts of the four libraries. */
  ghost predicate Sound(libs: Libs) {
    && (forall j :: JsonWellFormed(j) ==> libs.jsonLoads(libs.jsonDumps(j)) == Some(j))
    && (forall b :: libs.b64decode(libs.b64encode(b)) == Some(b))
    && SerializerRoundTrips(libs.dill)
    && SerializerRoundTrips(libs.pickle)
  }
}
