/** The WebAuthn subset of CBOR: decoder, encoders, and their two round trips. */
module Cbor {
  import opened Prelude

  const MAX_CBOR_BYTES := 4096
  const MAX_MAP_PAIRS := 16
  const ARGUMENT_LIMIT := 0x1_0000

  /** Text is kept as its bytes, as a Go string is. */
  datatype Value = Int(n: int) | Bytes(b: Blob) | Text(t: Blob) | Map(pairs: seq<Pair>) | Bool(v: bool)
  datatype Pair = Pair(key: Value, val: Value)

  // ---------- decoding ----------

  /** decodeCBORLen: the argument must be in its shortest form. */
  function DecodeLen(ai: nat, input: Blob): (r: Option<(nat, Blob)>)
    ensures r.Some? ==> |r.value.1| <= |input| && r.value.0 < ARGUMENT_LIMIT
  {
    if ai < 24 then Some((ai, input))
    else if ai == 24 then
      if |input| < 1 || input[0] < 24 then None else Some((input[0] as nat, input[1..]))
    else if ai == 25 then
      if |input| < 2 || input[0] == 0 then None
      else Some((256 * (input[0] as nat) + (input[1] as nat), input[2..]))
    else None
  }

  function Decode(input: Blob): (r: Option<(Value, Blob)>)
    ensures r.Some? ==> |r.value.1| < |input|
    decreases |input|, 0
  {
    if input == [] || |input| > MAX_CBOR_BYTES then None
    else
      var major, ai := input[0] as nat / 32, input[0] as nat % 32;
      var arg := DecodeLen(ai, input[1..]);
      if arg.None? then None
      else
        var (n, rest) := arg.value;
        match major
        case 0 => Some((Int(n), rest))
        case 1 => Some((Int(-1 - n), rest))
        case 2 => if n > |rest| then None else Some((Bytes(rest[..n]), rest[n..]))
        case 3 => if n > |rest| then None else Some((Text(rest[..n]), rest[n..]))
        case 5 =>
          if n > MAX_MAP_PAIRS then None
          else
            var body := DecodePairs(rest, n, []);
            if body.None? then None else Some((Map(body.value.0), body.value.1))
        case 7 => if ai == 20 then Some((Bool(false), rest)) else if ai == 21 then Some((Bool(true), rest)) else None
        case _ => None
  }

  predicate IsKey(k: Value) { k.Int? || k.Text? }

  predicate HasKey(pairs: seq<Pair>, k: Value) { exists i :: 0 <= i < |pairs| && pairs[i].key == k }

  /** `n` further pairs after those already `seen`. */
  function DecodePairs(input: Blob, n: nat, seen: seq<Pair>): (r: Option<(seq<Pair>, Blob)>)
    ensures r.Some? ==> |r.value.1| <= |input|
    decreases |input|, 1
  {
    if n == 0 then Some((seen, input))
    else
      var k := Decode(input);
      if k.None? || !IsKey(k.value.0) || HasKey(seen, k.value.0) then None
      else
        var v := Decode(k.value.1);
        if v.None? then None
        else DecodePairs(v.value.1, n - 1, seen + [Pair(k.value.0, v.value.0)])
  }

  /** decodeCBOR. */
  method DecodeValue(input: Blob) returns (r: Option<(Value, Blob)>)
    ensures r == Decode(input)
    decreases |input|, 0
  {
    if |input| == 0 || |input| > MAX_CBOR_BYTES { return None; }
    var major, ai := input[0] as nat / 32, input[0] as nat % 32;
    var arg := DecodeLen(ai, input[1..]);
    if arg.None? { return None; }
    var (n, rest) := arg.value;
    match major {
      case 0 => return Some((Int(n), rest));
      case 1 => return Some((Int(-1 - n), rest));
      case 2 =>
        if n > |rest| { return None; }
        return Some((Bytes(rest[..n]), rest[n..]));
      case 3 =>
        if n > |rest| { return None; }
        return Some((Text(rest[..n]), rest[n..]));
      case 5 =>
        if n > MAX_MAP_PAIRS { return None; }
        var body := DecodeMapBody(rest, n);
        if body.None? { return None; }
        return Some((Map(body.value.0), body.value.1));
      case 7 =>
        if ai != 20 && ai != 21 { return None; }
        return Some((Bool(ai == 21), rest));
      case _ => return None;
    }
  }

  method DecodeMapBody(input: Blob, n: nat) returns (r: Option<(seq<Pair>, Blob)>)
    ensures r == DecodePairs(input, n, [])
    decreases |input|, 1
  {
    var pairs: seq<Pair> := [];
    var rest := input;
    var i := 0;
    while i < n
      invariant 0 <= i <= n && |rest| <= |input|
      invariant DecodePairs(input, n, []) == DecodePairs(rest, n - i, pairs)
    {
      var k := DecodeValue(rest);
      if k.None? || !IsKey(k.value.0) { return None; }
      var duplicate := FindKey(pairs, k.value.0);
      if duplicate { return None; }
      var v := DecodeValue(k.value.1);
      if v.None? { return None; }
      PairsStep(rest, Pair(k.value.0, v.value.0), k.value.1, v.value.1, n - i, pairs);
      pairs := pairs + [Pair(k.value.0, v.value.0)];
      rest := v.value.1;
      i := i + 1;
    }
    return Some((pairs, rest));
  }

  method FindKey(pairs: seq<Pair>, k: Value) returns (found: bool)
    ensures found == HasKey(pairs, k)
  {
    for i := 0 to |pairs|
      invariant forall j :: 0 <= j < i ==> pairs[j].key != k
    {
      if pairs[i].key == k { return true; }
    }
    return false;
  }

  // ---------- encoding ----------

  /** encodeCBORUnsigned with the major type set in its first byte; arguments above two bytes lose
      their high part. */
  function Header(major: nat, n: nat): Blob
    requires major < 8
  {
    if n < 24 then [(32 * major + n) as byte]
    else if n < 256 then [(32 * major + 24) as byte, n as byte]
    else [(32 * major + 25) as byte, (n / 256 % 256) as byte, (n % 256) as byte]
  }

  function Encode(v: Value): Blob
    decreases v
  {
    match v
    case Int(n) => if n >= 0 then Header(0, n) else Header(1, -1 - n)
    case Bytes(b) => Header(2, |b|) + b
    case Text(t) => Header(3, |t|) + t
    case Map(pairs) => Header(5, |pairs|) + EncodePairs(pairs)
    case Bool(on) => if on then [0xf5] else [0xf4]
  }

  function EncodePair(p: Pair): Blob
    decreases p
  {
    Encode(p.key) + Encode(p.val)
  }

  function EncodePairs(pairs: seq<Pair>): Blob
    decreases pairs
  {
    if pairs == [] then [] else EncodePair(pairs[0]) + EncodePairs(pairs[1..])
  }

  function Flatten(parts: seq<Blob>): Blob {
    if parts == [] then [] else parts[0] + Flatten(parts[1..])
  }

  lemma {:induction false} FlattenAppend(parts: seq<Blob>, last: Blob)
    ensures Flatten(parts + [last]) == Flatten(parts) + last
  {
    if parts == [] {
      assert parts + [last] == [last] && [last][1..] == [];
    } else {
      assert (parts + [last])[1..] == parts[1..] + [last];
      FlattenAppend(parts[1..], last);
    }
  }

  /** encodeCBORMap over pairs that are already encoded. */
  method EncodeMap(parts: seq<Blob>) returns (out: Blob)
    ensures out == Header(5, |parts|) + Flatten(parts)
  {
    out := Header(5, |parts|);
    for i := 0 to |parts|
      invariant out == Header(5, |parts|) + Flatten(parts[..i])
    {
      assert parts[..i + 1] == parts[..i] + [parts[i]];
      FlattenAppend(parts[..i], parts[i]);
      out := out + parts[i];
    }
    assert parts[..|parts|] == parts;
  }

  /** What the encoders can represent and the decoder accepts. */
  predicate WellFormed(v: Value)
    decreases v
  {
    match v
    case Int(n) => -ARGUMENT_LIMIT <= n < ARGUMENT_LIMIT
    case Bytes(b) => |b| < ARGUMENT_LIMIT
    case Text(t) => |t| < ARGUMENT_LIMIT
    case Map(pairs) =>
      && |pairs| <= MAX_MAP_PAIRS && DistinctKeys(pairs)
      && forall p :: p in pairs ==> IsKey(p.key) && WellFormedPair(p)
    case Bool(_) => true
  }

  predicate WellFormedPair(p: Pair)
    decreases p
  {
    WellFormed(p.key) && WellFormed(p.val)
  }

  predicate DistinctKeys(pairs: seq<Pair>) {
    forall i, j :: 0 <= i < j < |pairs| ==> pairs[i].key != pairs[j].key
  }

  // ---------- round trips ----------

  lemma HeaderDecodes(major: nat, n: nat, rest: Blob)
    requires major < 8 && n < ARGUMENT_LIMIT
    ensures var input := Header(major, n) + rest;
            && input[0] as nat / 32 == major && DecodeLen(input[0] as nat % 32, input[1..]) == Some((n, rest))
  {
    var h := Header(major, n);
    assert (h + rest)[1..] == h[1..] + rest;
    if n < 24 {
      assert h[1..] + rest == rest;
    } else if n < 256 {
      assert (h[1..] + rest)[1..] == rest;
    } else {
      assert (h[1..] + rest)[2..] == rest;
    }
  }

  lemma LenIsHeader(major: nat, input: Blob)
    requires input != [] && input[0] as nat / 32 == major
    requires DecodeLen(input[0] as nat % 32, input[1..]).Some?
    ensures var (n, rest) := DecodeLen(input[0] as nat % 32, input[1..]).value; Header(major, n) + rest == input
  {
    var ai := input[0] as nat % 32;
    var (n, rest) := DecodeLen(ai, input[1..]).value;
    assert input[0] as nat == 32 * major + ai;
    if ai == 25 { assert n / 256 % 256 == input[1] as nat && n % 256 == input[2] as nat; }
  }

  lemma DecodeInt(n: int, rest: Blob)
    requires WellFormed(Int(n)) && |Encode(Int(n)) + rest| <= MAX_CBOR_BYTES
    ensures Decode(Encode(Int(n)) + rest) == Some((Int(n), rest))
  {
    if n >= 0 { HeaderDecodes(0, n, rest); } else { HeaderDecodes(1, -1 - n, rest); }
  }

  lemma DecodeString(text: bool, b: Blob, rest: Blob)
    requires |b| < ARGUMENT_LIMIT && |Header(if text then 3 else 2, |b|) + b + rest| <= MAX_CBOR_BYTES
    ensures Decode(Header(if text then 3 else 2, |b|) + b + rest) == Some((if text then Text(b) else Bytes(b), rest))
  {
    var h := Header(if text then 3 else 2, |b|);
    HeaderDecodes(if text then 3 else 2, |b|, b + rest);
    assert h + b + rest == h + (b + rest);
    assert (b + rest)[..|b|] == b && (b + rest)[|b|..] == rest;
  }

  lemma DecodeMap(n: nat, body: Blob, pairs: seq<Pair>, rest: Blob)
    requires n <= MAX_MAP_PAIRS && |Header(5, n) + body| <= MAX_CBOR_BYTES
    requires DecodePairs(body, n, []) == Some((pairs, rest))
    ensures Decode(Header(5, n) + body) == Some((Map(pairs), rest))
  {
    HeaderDecodes(5, n, body);
  }

  lemma {:induction false} DecodeEncode(v: Value, rest: Blob)
    requires WellFormed(v) && |Encode(v) + rest| <= MAX_CBOR_BYTES
    ensures Decode(Encode(v) + rest) == Some((v, rest))
    decreases v
  {
    match v
    case Int(n) => DecodeInt(n, rest);
    case Bytes(b) => DecodeString(false, b, rest);
    case Text(t) => DecodeString(true, t, rest);
    case Map(pairs) =>
      var body := EncodePairs(pairs) + rest;
      assert Encode(v) + rest == Header(5, |pairs|) + body;
      assert [] + pairs == pairs;
      DecodeEncodePairs(pairs, [], rest);
      DecodeMap(|pairs|, body, pairs, rest);
    case Bool(on) =>
      assert (Encode(v) + rest)[1..] == rest;
  }

  lemma {:induction false} DecodeEncodePair(p: Pair, rest: Blob)
    requires WellFormedPair(p) && |EncodePair(p) + rest| <= MAX_CBOR_BYTES
    ensures Decode(EncodePair(p) + rest) == Some((p.key, Encode(p.val) + rest))
    ensures Decode(Encode(p.val) + rest) == Some((p.val, rest))
    decreases p
  {
    assert EncodePair(p) + rest == Encode(p.key) + (Encode(p.val) + rest);
    DecodeEncode(p.key, Encode(p.val) + rest);
    DecodeEncode(p.val, rest);
  }

  lemma {:induction false} DecodeEncodePairs(pairs: seq<Pair>, seen: seq<Pair>, rest: Blob)
    requires DistinctKeys(seen + pairs) && |EncodePairs(pairs) + rest| <= MAX_CBOR_BYTES
    requires forall p :: p in pairs ==> IsKey(p.key) && WellFormedPair(p)
    ensures DecodePairs(EncodePairs(pairs) + rest, |pairs|, seen) == Some((seen + pairs, rest))
    decreases pairs, 1
  {
    if pairs == [] {
      assert seen + pairs == seen && [] + rest == rest;
    } else {
      DecodeFirstPair(pairs, seen, rest);
      MovePair(seen, pairs);
      DecodeEncodePairs(pairs[1..], seen + [pairs[0]], rest);
    }
  }

  lemma MovePair(seen: seq<Pair>, pairs: seq<Pair>)
    requires pairs != []
    ensures (seen + [pairs[0]]) + pairs[1..] == seen + pairs
  {
  }

  /** The loop over encoded pairs reads the first and goes on with the rest. */
  lemma {:induction false} DecodeFirstPair(pairs: seq<Pair>, seen: seq<Pair>, rest: Blob)
    requires DistinctKeys(seen + pairs) && |EncodePairs(pairs) + rest| <= MAX_CBOR_BYTES && pairs != []
    requires forall p :: p in pairs ==> IsKey(p.key) && WellFormedPair(p)
    ensures |EncodePairs(pairs[1..]) + rest| <= MAX_CBOR_BYTES
    ensures DecodePairs(EncodePairs(pairs) + rest, |pairs|, seen) ==
            DecodePairs(EncodePairs(pairs[1..]) + rest, |pairs| - 1, seen + [pairs[0]])
    decreases pairs, 0
  {
    var p, more := pairs[0], EncodePairs(pairs[1..]) + rest;
    assert EncodePairs(pairs) + rest == EncodePair(p) + more;
    DecodeEncodePair(p, more);
    NewKey(seen, pairs);
    PairsStep(EncodePair(p) + more, p, Encode(p.val) + more, more, |pairs|, seen);
  }

  lemma NewKey(seen: seq<Pair>, pairs: seq<Pair>)
    requires DistinctKeys(seen + pairs) && pairs != []
    ensures !HasKey(seen, pairs[0].key)
  {
    forall i | 0 <= i < |seen| ensures seen[i].key != pairs[0].key {
      assert (seen + pairs)[i] == seen[i] && (seen + pairs)[|seen|] == pairs[0];
    }
  }

  /** One round of the map loop. */
  lemma PairsStep(input: Blob, p: Pair, mid: Blob, after: Blob, n: nat, seen: seq<Pair>)
    requires n > 0 && Decode(input) == Some((p.key, mid)) && Decode(mid) == Some((p.val, after))
    requires IsKey(p.key) && !HasKey(seen, p.key)
    ensures DecodePairs(input, n, seen) == DecodePairs(after, n - 1, seen + [p])
  {
  }

  lemma {:induction false} EncodeDecode(input: Blob)
    requires Decode(input).Some?
    ensures var (v, rest) := Decode(input).value; Encode(v) + rest == input && WellFormed(v)
    decreases |input|, 0
  {
    var major, ai := input[0] as nat / 32, input[0] as nat % 32;
    LenIsHeader(major, input);
    var (n, rest) := DecodeLen(ai, input[1..]).value;
    if major == 2 || major == 3 {
      Regroup(Header(major, n), rest[..n], rest[n..], rest);
    } else if major == 5 {
      var pairs := EncodeDecodePairs(rest, n, []);
      assert [] + pairs == pairs;
      Regroup(Header(5, n), EncodePairs(pairs), DecodePairs(rest, n, []).value.1, rest);
    }
  }

  lemma Regroup(a: Blob, b: Blob, c: Blob, bc: Blob)
    requires b + c == bc
    ensures a + b + c == a + bc
  {
    assert a + b + c == a + (b + c);
  }

  ghost predicate GoodPairs(pairs: seq<Pair>) {
    DistinctKeys(pairs) && forall p :: p in pairs ==> IsKey(p.key) && WellFormedPair(p)
  }

  lemma GoodPairsAppend(seen: seq<Pair>, p: Pair)
    requires GoodPairs(seen) && IsKey(p.key) && WellFormedPair(p) && !HasKey(seen, p.key)
    ensures GoodPairs(seen + [p])
  {
  }

  /** The first pair that was read, and the bytes it came from. */
  lemma {:induction false} ReadPair(input: Blob, n: nat, seen: seq<Pair>) returns (p: Pair, after: Blob)
    requires n > 0 && DecodePairs(input, n, seen).Some?
    ensures |after| < |input| && EncodePair(p) + after == input && WellFormedPair(p) && IsKey(p.key) &&
            !HasKey(seen, p.key)
    ensures DecodePairs(input, n, seen) == DecodePairs(after, n - 1, seen + [p])
    decreases |input|, 1
  {
    var (k, mid) := Decode(input).value;
    var (v, rest) := Decode(mid).value;
    EncodeDecode(input);
    EncodeDecode(mid);
    p, after := Pair(k, v), rest;
    PairsStep(input, p, mid, after, n, seen);
    Regroup(Encode(k), Encode(v), after, mid);
  }

  /** One pair in front of others. */
  lemma PairInFront(seen: seq<Pair>, p: Pair, others: seq<Pair>, after: Blob, rest: Blob)
    requires EncodePairs(others) + rest == after
    ensures (seen + [p]) + others == seen + ([p] + others)
    ensures EncodePairs([p] + others) + rest == EncodePair(p) + after
  {
    assert ([p] + others)[1..] == others;
    Regroup(EncodePair(p), EncodePairs(others), rest, after);
  }

  /** The loop reads exactly the pairs in `more` off the input. */
  ghost predicate ReadsPairs(input: Blob, n: nat, seen: seq<Pair>, more: seq<Pair>) {
    && DecodePairs(input, n, seen).Some?
    && var (pairs, rest) := DecodePairs(input, n, seen).value;
       pairs == seen + more && |more| == n && GoodPairs(pairs) && EncodePairs(more) + rest == input
  }

  lemma ReadsNone(input: Blob, seen: seq<Pair>)
    requires GoodPairs(seen)
    ensures ReadsPairs(input, 0, seen, [])
  {
    assert seen + [] == seen && [] + input == input;
  }

  lemma ReadsOneMore(input: Blob, n: nat, seen: seq<Pair>, p: Pair, after: Blob, others: seq<Pair>)
    requires n > 0 && EncodePair(p) + after == input && ReadsPairs(after, n - 1, seen + [p], others)
    requires DecodePairs(input, n, seen) == DecodePairs(after, n - 1, seen + [p])
    ensures ReadsPairs(input, n, seen, [p] + others)
  {
    PairInFront(seen, p, others, after, DecodePairs(after, n - 1, seen + [p]).value.1);
  }

  /** The pairs that were read, and the bytes they came from. */
  lemma {:induction false} EncodeDecodePairs(input: Blob, n: nat, seen: seq<Pair>) returns (more: seq<Pair>)
    requires DecodePairs(input, n, seen).Some? && GoodPairs(seen)
    ensures ReadsPairs(input, n, seen, more)
    decreases |input|, 2
  {
    if n == 0 {
      more := [];
      ReadsNone(input, seen);
    } else {
      var p, after := ReadPair(input, n, seen);
      GoodPairsAppend(seen, p);
      var others := EncodeDecodePairs(after, n - 1, seen + [p]);
      more := [p] + others;
      ReadsOneMore(input, n, seen, p, after, others);
    }
  }

  /** The decoder reads back a value, whatever follows it, exactly when the value is representable
      and the whole input is within the size limit. */
  lemma RoundTripIff(v: Value, rest: Blob)
    ensures Decode(Encode(v) + rest) == Some((v, rest)) <==> WellFormed(v) && |Encode(v) + rest| <= 4096
  {
    if Decode(Encode(v) + rest) == Some((v, rest)) {
      EncodeDecode(Encode(v) + rest);
    } else if WellFormed(v) && |Encode(v) + rest| <= MAX_CBOR_BYTES {
      DecodeEncode(v, rest);
    }
  }

  /** Examples of appendix A of RFC 8949 that this subset covers. */
  lemma StandardNumbers()
    ensures Encode(Int(0)) == [0x00] && Encode(Int(23)) == [0x17] && Encode(Int(24)) == [0x18, 0x18]
    ensures Encode(Int(100)) == [0x18, 0x64] && Encode(Int(1000)) == [0x19, 0x03, 0xe8]
    ensures Encode(Int(-1)) == [0x20] && Encode(Int(-10)) == [0x29] && Encode(Int(-100)) == [0x38, 0x63]
    ensures Encode(Int(-1000)) == [0x39, 0x03, 0xe7]
    ensures Encode(Bool(false)) == [0xf4] && Encode(Bool(true)) == [0xf5]
  {
  }

  lemma StandardStrings()
    ensures Encode(Bytes([])) == [0x40] && Encode(Bytes([1, 2, 3, 4])) == [0x44, 0x01, 0x02, 0x03, 0x04]
    ensures Encode(Text([])) == [0x60] && Encode(Text([0x61])) == [0x61, 0x61]
    ensures Encode(Text([0x49, 0x45, 0x54, 0x46])) == [0x64, 0x49, 0x45, 0x54, 0x46]
  {
  }

  lemma StandardMaps()
    ensures Encode(Map([])) == [0xa0]
    ensures Encode(Map([Pair(Int(1), Int(2)), Pair(Int(3), Int(4))])) == [0xa2, 0x01, 0x02, 0x03, 0x04]
  {
    var a, b := Pair(Int(1), Int(2)), Pair(Int(3), Int(4));
    assert EncodePair(a) == [0x01, 0x02] && EncodePair(b) == [0x03, 0x04];
    assert [a, b][1..] == [b] && [b][1..] == [];
    assert EncodePairs([b]) == [0x03, 0x04];
  }
}
