/** Attested credential data and the "none" attestation object, on top of Cbor. The P-256 library
    is a parameter with the laws a curve library has. */
module Attestation {
  import opened Prelude
  import opened Cbor

  const HEADER := 55
  const FLAG_ED := 0x80
  const MAX_CREDENTIAL_ID := 1024
  const COSE_LENGTH := 77

  /** Which coordinate pairs are points, which compressed keys parse, and the point a key names. */
  datatype Curve = Curve(isPoint: (Blob, Blob) -> bool, parses: Blob -> bool, lift: Blob -> (Blob, Blob))

  function Compressed(x: Blob, y: Blob): Blob
    requires |y| == 32
  {
    [if y[31] % 2 == 1 then 3 else 2] + x
  }

  ghost predicate Lawful(c: Curve) {
    forall k :: c.parses(k) ==>
      var (x, y) := c.lift(k); |x| == 32 && |y| == 32 && c.isPoint(x, y) && Compressed(x, y) == k
  }

  // ---------- COSE keys ----------

  function LookUp(pairs: seq<Pair>, key: Value): Option<Value> {
    if pairs == [] then None else if pairs[0].key == key then Some(pairs[0].val) else LookUp(pairs[1..], key)
  }

  function Field(v: Value, key: Value): Option<Value> { if v.Map? then LookUp(v.pairs, key) else None }

  /** A 32-byte coordinate under an integer key. */
  function Coordinate(v: Value, tag: int): Option<Blob> {
    match Field(v, Int(tag))
    case Some(Bytes(b)) => if |b| == 32 then Some(b) else None
    case _ => None
  }

  function KeyOf(c: Curve, v: Value): Option<Blob> {
    if Field(v, Int(1)) != Some(Int(2)) || Field(v, Int(3)) != Some(Int(-7)) || Field(v, Int(-1)) != Some(Int(1))
      then None
    else
      match (Coordinate(v, -2), Coordinate(v, -3))
      case (Some(x), Some(y)) =>
        if |y| == 32 && c.isPoint(x, y) && c.parses(Compressed(x, y)) then Some(Compressed(x, y)) else None
      case _ => None
  }

  function ParseCose(c: Curve, raw: Blob): (r: Option<(Blob, Blob)>)
    ensures r.Some? ==> Decode(raw).Some? && r.value.1 == Decode(raw).value.1
  {
    match Decode(raw)
    case None => None
    case Some((v, rest)) => match KeyOf(c, v) case None => None case Some(k) => Some((k, rest))
  }

  function CoseValue(x: Blob, y: Blob): Value {
    Map([Pair(Int(1), Int(2)), Pair(Int(3), Int(-7)), Pair(Int(-1), Int(1)), Pair(Int(-2), Bytes(x)),
      Pair(Int(-3), Bytes(y))])
  }

  function CoseParts(x: Blob, y: Blob): seq<Blob> {
    [Header(0, 1) + Header(0, 2), Header(0, 3) + Header(1, 6), Header(1, 0) + Header(0, 1),
     Header(1, 1) + (Header(2, |x|) + x), Header(1, 2) + (Header(2, |y|) + y)]
  }

  function EncodeCose(c: Curve, key: Blob): Option<Blob> {
    if !c.parses(key) then None
    else var (x, y) := c.lift(key); Some(Header(5, 5) + Flatten(CoseParts(x, y)))
  }

  lemma {:induction false} FlattenPairs(parts: seq<Blob>, pairs: seq<Pair>)
    requires |parts| == |pairs| && forall i :: 0 <= i < |parts| ==> parts[i] == EncodePair(pairs[i])
    ensures Flatten(parts) == EncodePairs(pairs)
    decreases |parts|
  {
    if parts != [] { FlattenPairs(parts[1..], pairs[1..]); }
  }

  lemma {:induction false} FlattenLengths(parts: seq<Blob>, lengths: seq<nat>)
    requires |parts| == |lengths| && forall i :: 0 <= i < |parts| ==> |parts[i]| == lengths[i]
    ensures |Flatten(parts)| == SumOf(lengths)
    decreases |parts|
  {
    if parts != [] { FlattenLengths(parts[1..], lengths[1..]); }
  }

  ghost function SumOf(ns: seq<nat>): nat { if ns == [] then 0 else ns[0] + SumOf(ns[1..]) }

  lemma {:induction false} LookUpAt(pairs: seq<Pair>, i: nat)
    requires DistinctKeys(pairs) && i < |pairs|
    ensures LookUp(pairs, pairs[i].key) == Some(pairs[i].val)
    decreases |pairs|
  {
    if i > 0 { LookUpAt(pairs[1..], i - 1); }
  }

  lemma CoseKey(c: Curve, x: Blob, y: Blob)
    requires |x| == 32 && |y| == 32 && c.isPoint(x, y) && c.parses(Compressed(x, y))
    ensures KeyOf(c, CoseValue(x, y)) == Some(Compressed(x, y))
  {
    var p := CoseValue(x, y).pairs;
    LookUpAt(p, 0);
    LookUpAt(p, 1);
    LookUpAt(p, 2);
    LookUpAt(p, 3);
    LookUpAt(p, 4);
  }

  lemma CoseWellFormed(x: Blob, y: Blob)
    requires |x| == 32 && |y| == 32
    ensures WellFormed(CoseValue(x, y))
  {
  }

  lemma CoseParts5(x: Blob, y: Blob)
    requires |x| == 32 && |y| == 32
    ensures Flatten(CoseParts(x, y)) == EncodePairs(CoseValue(x, y).pairs) && |Flatten(CoseParts(x, y))| == 76
  {
    var parts, pairs := CoseParts(x, y), CoseValue(x, y).pairs;
    FlattenPairs(parts, pairs);
    FlattenLengths(parts, [2, 2, 2, 35, 35]);
    assert SumOf([35, 35]) == 70;
    assert [2, 2, 2, 35, 35][1..] == [2, 2, 35, 35] && [2, 2, 35, 35][1..] == [2, 35, 35] &&
      [2, 35, 35][1..] == [35, 35];
  }

  /** The hand-assembled key is the encoding of the five-field COSE map, and it is always 77 bytes. */
  lemma CoseIsEncoded(c: Curve, key: Blob)
    requires Lawful(c) && c.parses(key)
    ensures var (x, y) := c.lift(key);
            && EncodeCose(c, key) == Some(Encode(CoseValue(x, y))) && |EncodeCose(c, key).value| == 77
            && WellFormed(CoseValue(x, y)) && KeyOf(c, CoseValue(x, y)) == Some(key)
  {
    var (x, y) := c.lift(key);
    CoseParts5(x, y);
    CoseWellFormed(x, y);
    CoseKey(c, x, y);
  }

  // ---------- attested credential data ----------

  datatype Credential = Credential(id: Blob, key: Blob)

  function BigEndian16(n: nat): Blob
    requires n < 0x1_0000
  {
    [(n / 256) as byte, (n % 256) as byte]
  }

  predicate Extensions(ext: Blob) {
    match Decode(ext)
    case Some((Map(pairs), rest)) => pairs != [] && rest == []
    case _ => false
  }

  /** extractAttestedCredential. */
  function Extract(c: Curve, auth: Blob): Option<Credential> {
    if |auth| < HEADER then None
    else
      var idLen := 256 * (auth[53] as nat) + (auth[54] as nat);
      if idLen == 0 || HEADER + idLen >= |auth| then None
      else
        match ParseCose(c, auth[HEADER + idLen..])
        case None => None
        case Some((key, rest)) =>
          if (if auth[32] as nat >= FLAG_ED then Extensions(rest) else rest == [])
          then Some(Credential(auth[HEADER..HEADER + idLen], key)) else None
  }

  /** `auth` is a header, the credential id behind its length, one COSE map and the extensions. */
  ghost predicate Carries(c: Curve, auth: Blob, cred: Credential, v: Value, ext: Blob) {
    && |auth| >= HEADER && 1 <= |cred.id| < 0x1_0000
    && auth == auth[..53] + BigEndian16(|cred.id|) + cred.id + Encode(v) + ext
    && WellFormed(v) && |Encode(v) + ext| <= MAX_CBOR_BYTES && KeyOf(c, v) == Some(cred.key)
    && if auth[32] as nat >= FLAG_ED then Extensions(ext) else ext == []
  }

  lemma Split(auth: Blob, front: Blob, id: Blob, body: Blob)
    requires |front| == 53 && |id| < 0x1_0000 && auth == front + BigEndian16(|id|) + id + body
    ensures |auth| == HEADER + |id| + |body| && 256 * (auth[53] as nat) + (auth[54] as nat) == |id|
    ensures auth[..53] == front && auth[HEADER..HEADER + |id|] == id && auth[HEADER + |id|..] == body
  {
    assert auth[53] == BigEndian16(|id|)[0] && auth[54] == BigEndian16(|id|)[1];
  }

  lemma Join(auth: Blob, id: Blob)
    requires HEADER + |id| <= |auth| && 256 * (auth[53] as nat) + (auth[54] as nat) == |id|
    requires auth[HEADER..HEADER + |id|] == id
    ensures |id| < 0x1_0000 && auth == auth[..53] + BigEndian16(|id|) + id + auth[HEADER + |id|..]
  {
    assert BigEndian16(|id|) == auth[53..55];
    assert auth == auth[..53] + auth[53..55] + auth[55..HEADER + |id|] + auth[HEADER + |id|..];
  }

  lemma ExtractCarries(c: Curve, auth: Blob, cred: Credential) returns (v: Value, ext: Blob)
    requires Extract(c, auth) == Some(cred)
    ensures Carries(c, auth, cred, v, ext)
  {
    var body := auth[HEADER + |cred.id|..];
    var (w, rest) := Decode(body).value;
    EncodeDecode(body);
    Join(auth, cred.id);
    assert auth[..53] + BigEndian16(|cred.id|) + cred.id + Encode(w) + rest ==
      auth[..53] + BigEndian16(|cred.id|) + cred.id + body;
    return w, rest;
  }

  lemma Carried(c: Curve, auth: Blob, cred: Credential, v: Value, ext: Blob)
    requires Carries(c, auth, cred, v, ext)
    ensures Extract(c, auth) == Some(cred)
  {
    var body := Encode(v) + ext;
    assert auth[..53] + BigEndian16(|cred.id|) + cred.id + Encode(v) + ext ==
      auth[..53] + BigEndian16(|cred.id|) + cred.id + body;
    Split(auth, auth[..53], cred.id, body);
    DecodeEncode(v, ext);
    NotEmpty(v);
  }

  /** Extraction accepts exactly the byte strings of that layout, and returns what they carry. */
  lemma ExtractIff(c: Curve, auth: Blob, cred: Credential)
    ensures Extract(c, auth) == Some(cred) <==> exists v, ext :: Carries(c, auth, cred, v, ext)
  {
    if Extract(c, auth) == Some(cred) {
      var v, ext := ExtractCarries(c, auth, cred);
    } else if v, ext :| Carries(c, auth, cred, v, ext) {
      Carried(c, auth, cred, v, ext);
    }
  }

  lemma NotEmpty(v: Value)
    ensures Encode(v) != []
  {
  }

  /** attestedAuthenticatorData; the relying party's hash and the extension bytes are given. */
  function Attested(c: Curve, rpHash: Blob, id: Blob, key: Blob, ext: Blob): Option<Blob> {
    match EncodeCose(c, key)
    case None => None
    case Some(cose) =>
      if id == [] || |id| > MAX_CREDENTIAL_ID then None
      else Some(rpHash + [if ext == [] then 0x45 else 0xc5] + ZEROS + BigEndian16(|id|) + id + cose + ext)
  }

  /** Signature counter and AAGUID, all zero. */
  const ZEROS: Blob := [0, 0, 0, 0, 0, 0, 0, 0, 0, 0, 0, 0, 0, 0, 0, 0, 0, 0, 0, 0]

  lemma BadExtensions(c: Curve, auth: Blob, front: Blob, id: Blob, v: Value, ext: Blob)
    requires |front| == 53 && |id| < 0x1_0000 && auth == front + BigEndian16(|id|) + id + (Encode(v) + ext)
    requires WellFormed(v) && front[32] as nat >= FLAG_ED && (Extensions(ext) ==> |Encode(v) + ext| > MAX_CBOR_BYTES)
    ensures Extract(c, auth).None?
  {
    Split(auth, front, id, Encode(v) + ext);
    if |Encode(v) + ext| <= MAX_CBOR_BYTES { DecodeEncode(v, ext); }
  }

  /** What was put in comes out, exactly when the extensions are absent or a non-empty map that
      fits, together with the key, into one decoder input. */
  lemma AttestedRoundTrip(c: Curve, rpHash: Blob, id: Blob, key: Blob, ext: Blob)
    requires Lawful(c) && |rpHash| == 32
    ensures Attested(c, rpHash, id, key, ext).Some? <==> c.parses(key) && 1 <= |id| <= 1024
    ensures Attested(c, rpHash, id, key, ext).Some? ==>
              Extract(c, Attested(c, rpHash, id, key, ext).value) ==
              if ext == [] || (Extensions(ext) && 77 + |ext| <= 4096)
                then Some(Credential(id, key)) else None
  {
    if Attested(c, rpHash, id, key, ext).Some? {
      CoseIsEncoded(c, key);
      var (x, y) := c.lift(key);
      var v, cred := CoseValue(x, y), Credential(id, key);
      var front := rpHash + [if ext == [] then 0x45 else 0xc5] + ZEROS;
      var auth := front + BigEndian16(|id|) + id + Encode(v) + ext;
      assert |front| == 53 && auth[..53] == front && auth[32] == front[32];
      if ext == [] || (Extensions(ext) && COSE_LENGTH + |ext| <= MAX_CBOR_BYTES) {
        assert Carries(c, auth, cred, v, ext);
        Carried(c, auth, cred, v, ext);
      } else {
        assert auth == front + BigEndian16(|id|) + id + (Encode(v) + ext);
        BadExtensions(c, auth, front, id, v, ext);
      }
    }
  }

  // ---------- attestation objects ----------

  const FMT: Blob := [0x66, 0x6d, 0x74]
  const NONE: Blob := [0x6e, 0x6f, 0x6e, 0x65]
  const AUTH_DATA: Blob := [0x61, 0x75, 0x74, 0x68, 0x44, 0x61, 0x74, 0x61]
  const ATT_STMT: Blob := [0x61, 0x74, 0x74, 0x53, 0x74, 0x6d, 0x74]
  const MIN_AUTH_DATA := 37

  /** ParseAttestationObject. */
  function ParseObject(raw: Blob): Option<Blob> {
    match Decode(raw)
    case None => None
    case Some((v, rest)) =>
      if rest != [] || Field(v, Text(FMT)) != Some(Text(NONE)) then None
      else
        match Field(v, Text(AUTH_DATA))
        case Some(Bytes(a)) => if |a| < MIN_AUTH_DATA then None else Some(a)
        case _ => None
  }

  function ObjectParts(a: Blob): seq<Blob> {
    [(Header(3, 3) + FMT) + (Header(3, 4) + NONE), (Header(3, 8) + AUTH_DATA) + (Header(2, |a|) + a),
      (Header(3, 7) + ATT_STMT) + Header(5, 0)]
  }

  /** EncodeNoneAttestationObject. */
  function EncodeObject(a: Blob): Blob { Header(5, 3) + Flatten(ObjectParts(a)) }

  function ObjectValue(a: Blob): Value {
    Map([Pair(Text(FMT), Text(NONE)), Pair(Text(AUTH_DATA), Bytes(a)), Pair(Text(ATT_STMT), Map([]))])
  }

  lemma ObjectIsEncoded(a: Blob)
    ensures EncodeObject(a) == Encode(ObjectValue(a)) && |EncodeObject(a)| == 28 + |Header(2, |a|)| + |a|
  {
    var parts, pairs := ObjectParts(a), ObjectValue(a).pairs;
    assert EncodePairs([]) == [] && Header(5, 0) + [] == Header(5, 0);
    assert EncodePair(pairs[2]) == parts[2];
    FlattenPairs(parts, pairs);
    var mine := 9 + |Header(2, |a|)| + |a|;
    FlattenLengths(parts, [9, mine, 9]);
    assert [9, mine, 9][1..] == [mine, 9] && [mine, 9][1..] == [9] && [9][1..] == [];
    assert SumOf([9]) == 9 && SumOf([mine, 9]) == mine + 9;
  }

  lemma ObjectFields(a: Blob)
    ensures DistinctKeys(ObjectValue(a).pairs)
    ensures Field(ObjectValue(a), Text(FMT)) == Some(Text(NONE))
    ensures Field(ObjectValue(a), Text(AUTH_DATA)) == Some(Bytes(a))
  {
    var p := ObjectValue(a).pairs;
    assert p[0].key.t[1] != p[1].key.t[1] && p[1].key.t[1] != p[2].key.t[1] && p[0].key.t[1] != p[2].key.t[1];
    LookUpAt(p, 0);
    LookUpAt(p, 1);
  }

  lemma ObjectWellFormed(a: Blob)
    requires |a| < ARGUMENT_LIMIT
    ensures WellFormed(ObjectValue(a))
  {
    ObjectFields(a);
    assert WellFormed(ObjectValue(a).pairs[2].val);
  }

  /** Wrapped authenticator data is recovered exactly when it has its fixed part and the object
      fits the decoder's limit. */
  lemma ObjectRoundTrip(a: Blob)
    ensures ParseObject(EncodeObject(a)) == if 37 <= |a| <= 4065 then Some(a) else None
  {
    ObjectIsEncoded(a);
    ObjectFields(a);
    if |a| <= 4065 {
      ObjectWellFormed(a);
      assert Encode(ObjectValue(a)) + [] == EncodeObject(a);
      DecodeEncode(ObjectValue(a), []);
    }
  }
}
