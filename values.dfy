/**
 * The Python values a caller can hand to the store, and the JSON documents that
 * `json.dumps` / `json.loads` translate them to and from.
 *
 * Only the shape of the translation is modelled here; the JSON text itself is
 * produced and parsed by library functions (see module Libraries).
 */
module PyValues {

  newtype byte = x: int | 0 <= x < 256

  type Bytes = seq<byte>

  /** A Python object. Floats are not modelled. */
  datatype Value =
    | VNone
    | VBool(b: bool)
    | VInt(i: int)
    | VStr(s: string)
    | VList(items: seq<Value>)
    | VTuple(elems: seq<Value>)
    | VDict(pairs: seq<Pair>)          // insertion order, as Python dicts keep it
    | VBytes(bytes: Bytes)
    | VObject(cls: string, state: Value) // an instance of a user class and its __dict__

  datatype Pair = Pair(key: Value, val: Value)

  /** A JSON document as parsed by `json.loads`. */
  datatype Json =
    | JNull
    | JBool(b: bool)
    | JNum(n: int)
    | JStr(s: string)
    | JArray(elems: seq<Json>)
    | JObject(members: seq<Member>)

  datatype Member = Member(name: string, val: Json)

  /** The dictionary keys `json.dumps` accepts (floats aside). */
  predicate IsJsonKey(k: Value) {
    k.VStr? || k.VInt? || k.VBool? || k.VNone?
  }

  /** `json.dumps(v)` succeeds instead of raising TypeError. */
  predicate IsJsonEncodable(v: Value) {
    match v
    case VNone => true
    case VBool(_) => true
    case VInt(_) => true
    case VStr(_) => true
    case VList(xs) => forall i :: 0 <= i < |xs| ==> IsJsonEncodable(xs[i])
    case VTuple(xs) => forall i :: 0 <= i < |xs| ==> IsJsonEncodable(xs[i])
    case VDict(ps) =>
      forall i :: 0 <= i < |ps| ==> IsJsonKey(ps[i].key) && IsJsonEncodable(ps[i].val)
    case VBytes(_) => false
    case VObject(_, _) => false
  }

  /** The number a string of decimal digits spells, most significant digit first. */
  function DigitsValue(s: string): nat
    requires forall i :: 0 <= i < |s| ==> '0' <= s[i] <= '9'
  {
    if |s| == 0 then 0 else DigitsValue(s[..|s| - 1]) * 10 + (s[|s| - 1] - '0') as nat
  }

  /** Decimal digits of a natural number, as Python's `str` prints them: no leading zero, spelling `n`. */
  function NatToString(n: nat): (s: string)
    ensures |s| > 0
    ensures forall i :: 0 <= i < |s| ==> '0' <= s[i] <= '9'
    ensures |s| > 1 ==> s[0] != '0'
    ensures DigitsValue(s) == n
  {
    var d := ['0' + (n % 10) as char];
    if n < 10 then d
    else
      var t := NatToString(n / 10);
      assert (t + d)[..|t + d| - 1] == t;
      t + d
  }

  /** Python's `str` of an integer: a minus sign exactly for a negative number, then its digits. */
  function IntToString(i: int): (s: string)
    ensures |s| > 0
    ensures (s[0] == '-') == (i < 0)
    ensures i < 0 ==> (forall k :: 0 <= k < |s[1..]| ==> '0' <= s[1..][k] <= '9') && DigitsValue(s[1..]) == -i
    ensures i >= 0 ==> (forall k :: 0 <= k < |s| ==> '0' <= s[k] <= '9') && DigitsValue(s) == i
  {
    if i < 0 then "-" + NatToString(-i) else NatToString(i)
  }

  /** The member name `json.dumps` writes for a dictionary key. */
  function KeyText(k: Value): string
    requires IsJsonKey(k)
  {
    match k
    case VStr(s) => s
    case VInt(i) => IntToString(i)
    case VBool(b) => if b then "true" else "false"
    case VNone => "null"
  }

  /** The JSON document `json.dumps` writes for an encodable value: tuples become arrays, keys become strings. */
  function ToJson(v: Value): Json
    requires IsJsonEncodable(v)
  {
    match v
    case VNone => JNull
    case VBool(b) => JBool(b)
    case VInt(i) => JNum(i)
    case VStr(s) => JStr(s)
    case VList(xs) => JArray(seq(|xs|, i requires 0 <= i < |xs| => ToJson(xs[i])))
    case VTuple(xs) => JArray(seq(|xs|, i requires 0 <= i < |xs| => ToJson(xs[i])))
    case VDict(ps) =>
      JObject(seq(|ps|, i requires 0 <= i < |ps| => Member(KeyText(ps[i].key), ToJson(ps[i].val))))
  }

  /** The Python value `json.loads` builds from a JSON document. */
  function FromJson(j: Json): Value {
    match j
    case JNull => VNone
    case JBool(b) => VBool(b)
    case JNum(n) => VInt(n)
    case JStr(s) => VStr(s)
    case JArray(js) => VList(seq(|js|, i requires 0 <= i < |js| => FromJson(js[i])))
    case JObject(ms) => VDict(seq(|ms|, i requires 0 <= i < |ms| => Pair(VStr(ms[i].name), FromJson(ms[i].val))))
  }

  /** No two members of an object share a name, at any depth. */
  predicate JsonWellFormed(j: Json) {
    match j
    case JArray(js) => forall i :: 0 <= i < |js| ==> JsonWellFormed(js[i])
    case JObject(ms) =>
      && (forall i, k :: 0 <= i < k < |ms| ==> ms[i].name != ms[k].name)
      && (forall i :: 0 <= i < |ms| ==> JsonWellFormed(ms[i].val))
    case _ => true
  }

  /**
   * The values that survive `json.loads(json.dumps(v))` unchanged: no tuples,
   * and dictionaries whose keys are distinct strings.
   */
  predicate JsonFaithful(v: Value) {
    match v
    case VNone => true
    case VBool(_) => true
    case VInt(_) => true
    case VStr(_) => true
    case VList(xs) => forall i :: 0 <= i < |xs| ==> JsonFaithful(xs[i])
    case VTuple(_) => false
    case VDict(ps) =>
      && (forall i :: 0 <= i < |ps| ==> ps[i].key.VStr? && JsonFaithful(ps[i].val))
      && (forall i, k :: 0 <= i < k < |ps| ==> ps[i].key != ps[k].key)
    case VBytes(_) => false
    case VObject(_, _) => false
  }

  /** Every faithful value is one `json.dumps` accepts. */
  lemma {:induction false} FaithfulIsEncodable(v: Value)
    requires JsonFaithful(v)
    ensures IsJsonEncodable(v)
  {
    match v
    case VList(xs) =>
      forall i | 0 <= i < |xs| ensures IsJsonEncodable(xs[i]) {
        FaithfulIsEncodable(xs[i]);
      }
    case VDict(ps) =>
      forall i | 0 <= i < |ps| ensures IsJsonKey(ps[i].key) && IsJsonEncodable(ps[i].val) {
        FaithfulIsEncodable(ps[i].val);
      }
    case _ =>
  }

  /** The document `json.dumps` writes for a faithful value has no duplicate member names. */
  lemma {:induction false} ToJsonWellFormed(v: Value)
    requires JsonFaithful(v)
    ensures IsJsonEncodable(v) && JsonWellFormed(ToJson(v))
  {
    FaithfulIsEncodable(v);
    match v
    case VList(xs) =>
      var js := ToJson(v).elems;
      forall i | 0 <= i < |js| ensures JsonWellFormed(js[i]) {
        ToJsonWellFormed(xs[i]);
      }
    case VDict(ps) =>
      var ms := ToJson(v).members;
      forall i | 0 <= i < |ms| ensures JsonWellFormed(ms[i].val) {
        ToJsonWellFormed(ps[i].val);
      }
      forall i, k | 0 <= i < k < |ms| ensures ms[i].name != ms[k].name {
        assert ms[i].name == ps[i].key.s && ms[k].name == ps[k].key.s;
      }
    case _ =>
  }

  /** `json.loads(json.dumps(v)) == v` for every faithful value. */
  lemma {:induction false} FromJsonToJson(v: Value)
    requires JsonFaithful(v)
    ensures IsJsonEncodable(v) && FromJson(ToJson(v)) == v
  {
    FaithfulIsEncodable(v);
    match v
    case VList(xs) =>
      var back := FromJson(ToJson(v)).items;
      assert |back| == |xs|;
      forall i | 0 <= i < |xs| ensures back[i] == xs[i] {
        FromJsonToJson(xs[i]);
      }
    case VDict(ps) =>
      var back := FromJson(ToJson(v)).pairs;
      assert |back| == |ps|;
      forall i | 0 <= i < |ps| ensures back[i] == ps[i] {
        FromJsonToJson(ps[i].val);
      }
    case _ =>
  }

  /** A tuple does not survive the JSON round trip: it comes back as a list. */
  lemma TupleComesBackAsList(xs: seq<Value>)
    requires forall i :: 0 <= i < |xs| ==> JsonFaithful(xs[i])
    ensures IsJsonEncodable(VTuple(xs)) && FromJson(ToJson(VTuple(xs))) == VList(xs)
  {
    forall i | 0 <= i < |xs| ensures IsJsonEncodable(xs[i]) && FromJson(ToJson(xs[i])) == xs[i] {
      FromJsonToJson(xs[i]);
    }
    assert FromJson(ToJson(VTuple(xs))).items == xs;
  }

  /** An integer key does not survive the JSON round trip: it comes back as its decimal string. */
  lemma IntKeyComesBackAsString(n: int, x: Value)
    requires JsonFaithful(x)
    ensures IsJsonEncodable(VDict([Pair(VInt(n), x)]))
    ensures FromJson(ToJson(VDict([Pair(VInt(n), x)]))) == VDict([Pair(VStr(IntToString(n)), x)])
  {
    FromJsonToJson(x);
  }
}
