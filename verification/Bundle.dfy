/** The bundle digest's payload: its inputs are put in canonical order first. */
module Bundle {
  import opened Prelude
  import opened Ordering
  import opened Encoding
  import opened Canonical


  datatype Input = Input(txid: Blob, vout: u32, valueSats: u64)

  // ---------- transaction ids ----------

  function HexValue(c: byte): Option<byte> {
    if 48 <= c <= 57 then Some(c - 48)
    else if 97 <= c <= 102 then Some(c - 87)
    else if 65 <= c <= 70 then Some(c - 55)
    else None
  }

  function HexDecode(s: Blob): (r: Option<Blob>)
    ensures r.Some? ==> |s| == 2 * |r.value|
  {
    if s == [] then Some([])
    else if |s| == 1 || HexValue(s[0]).None? || HexValue(s[1]).None? then None
    else
      match HexDecode(s[2..])
      case None => None
      case Some(rest) =>
        var high, low := HexValue(s[0]).value, HexValue(s[1]).value;
        Some([(16 * (high as int) + (low as int)) as byte] + rest)
  }

  function HexDigit(n: int): byte
    requires 0 <= n < 16
  {
    if n < 10 then (48 + n) as byte else (87 + n) as byte
  }

  function Hex(b: Blob): Blob {
    if b == [] then [] else [HexDigit(b[0] as int / 16), HexDigit(b[0] as int % 16)] + Hex(b[1..])
  }

  lemma {:induction false} HexRoundTrip(b: Blob)
    ensures HexDecode(Hex(b)) == Some(b)
  {
    if b != [] {
      HexRoundTrip(b[1..]);
      assert Hex(b)[2..] == Hex(b[1..]);
      assert b == [b[0]] + b[1..];
    }
  }

  /** canonicalVtxoTxid: 32 raw bytes, or their 64 hexadecimal characters. */
  function Normal(txid: Blob): (r: Option<Blob>)
    ensures r.Some? ==> |r.value| == 32
  {
    if |txid| == 32 then Some(txid) else if |txid| == 64 then HexDecode(txid) else None
  }

  // ---------- canonical order ----------

  predicate Before(a: Input, b: Input) {
    if a.txid != b.txid then BytesLess(Hex(a.txid), Hex(b.txid)) else a.vout < b.vout
  }

  function Normalized(inputs: seq<Input>): (r: Option<seq<Input>>)
    ensures r.Some? ==> |r.value| == |inputs| && forall i :: 0 <= i < |inputs| ==> |r.value[i].txid| == 32
  {
    if inputs == [] then Some([])
    else
      var last := inputs[|inputs| - 1];
      match (Normalized(inputs[..|inputs| - 1]), Normal(last.txid))
      case (Some(front), Some(raw)) => Some(front + [last.(txid := raw)])
      case _ => None
  }

  function Outpoint(x: Input): (Blob, nat) { (x.txid, x.vout) }

  /** CanonicalVtxoBundleInputs. */
  function Ordered(inputs: seq<Input>): Option<seq<Input>> {
    if |inputs| > 0xffff then None
    else
      match Normalized(inputs)
      case None => None
      case Some(n) => if KeysDistinct(Outpoint, n) then Some(Sort(Before, n)) else None
  }

  lemma {:induction false} NormalizedPrefix(inputs: seq<Input>, k: nat)
    requires k <= |inputs| && Normalized(inputs).Some?
    ensures Normalized(inputs[..k]) == Some(Normalized(inputs).value[..k])
    decreases |inputs|
  {
    var n := Normalized(inputs).value;
    if k == |inputs| {
      assert inputs[..k] == inputs && n[..k] == n;
    } else {
      var front := inputs[..|inputs| - 1];
      NormalizedPrefix(front, k);
      assert front[..k] == inputs[..k] && n[..|front|][..k] == n[..k];
    }
  }

  ghost predicate Holds(seen: set<(Blob, nat)>, out: seq<Input>) {
    forall o :: o in seen <==> exists k :: 0 <= k < |out| && Outpoint(out[k]) == o
  }

  lemma HoldsAppend(seen: set<(Blob, nat)>, out: seq<Input>, x: Input)
    requires Holds(seen, out) && KeysDistinct(Outpoint, out) && Outpoint(x) !in seen
    ensures Holds(seen + {Outpoint(x)}, out + [x]) && KeysDistinct(Outpoint, out + [x])
  {
    var more := out + [x];
    forall k | 0 <= k < |more| ensures Outpoint(more[k]) in seen + {Outpoint(x)} {
      if k < |out| { assert more[k] == out[k]; }
    }
    forall o | o in seen + {Outpoint(x)} ensures exists k :: 0 <= k < |more| && Outpoint(more[k]) == o {
      if o == Outpoint(x) {
        assert more[|out|] == x;
      } else {
        var k :| 0 <= k < |out| && Outpoint(out[k]) == o;
        assert more[k] == out[k];
      }
    }
  }

  method OrderInputs(inputs: seq<Input>) returns (r: Option<seq<Input>>)
    ensures r == Ordered(inputs)
  {
    if |inputs| > 0xffff { return None; }
    var out: seq<Input> := [];
    var seen: set<(Blob, nat)> := {};
    var i := 0;
    while i < |inputs|
      invariant 0 <= i <= |inputs| && Normalized(inputs[..i]) == Some(out) && |out| == i
      invariant Holds(seen, out)
      invariant KeysDistinct(Outpoint, out)
    {
      var raw := Normal(inputs[i].txid);
      assert inputs[..i + 1][..i] == inputs[..i];
      if Normalized(inputs).Some? { NormalizedPrefix(inputs, i + 1); }
      if raw.None? { return None; }
      var x := inputs[i].(txid := raw.value);
      if Outpoint(x) in seen {
        Repeated(inputs, out, x);
        return None;
      }
      HoldsAppend(seen, out, x);
      out := out + [x];
      seen := seen + {Outpoint(x)};
      i := i + 1;
    }
    assert inputs[..i] == inputs;
    return Some(Sort(Before, out));
  }

  lemma Repeated(inputs: seq<Input>, out: seq<Input>, x: Input)
    requires exists k :: 0 <= k < |out| && Outpoint(out[k]) == Outpoint(x)
    requires |out| < |inputs| && (Normalized(inputs).Some? ==> out + [x] == Normalized(inputs).value[..|out| + 1])
    ensures Ordered(inputs).None?
  {
    if Normalized(inputs).Some? {
      var n := Normalized(inputs).value;
      var k :| 0 <= k < |out| && Outpoint(out[k]) == Outpoint(x);
      assert n[k] == (out + [x])[k] && n[|out|] == (out + [x])[|out|];
    }
  }

  lemma HexInjective(a: Blob, b: Blob)
    requires Hex(a) == Hex(b)
    ensures a == b
  {
    HexRoundTrip(a);
    HexRoundTrip(b);
  }

  lemma BeforeOrders(m: multiset<Input>)
    requires KeyedOn(Outpoint, m)
    ensures OrderOn(Before, m)
  {
    forall x, y | x in m && y in m && x != y ensures Before(x, y) || Before(y, x) {
      if x.txid != y.txid {
        if Hex(x.txid) == Hex(y.txid) { HexInjective(x.txid, y.txid); }
        BytesLessTotal(Hex(x.txid), Hex(y.txid));
      }
    }
    forall x, y, z | x in m && y in m && z in m && Before(x, y) && Before(y, z) ensures Before(x, z) {
      BeforeTransitive(x, y, z);
    }
    forall x, y | x in m && y in m ensures !(Before(x, y) && Before(y, x)) {
      BytesLessAsymmetric(Hex(x.txid), Hex(y.txid));
    }
  }

  lemma BeforeTransitive(x: Input, y: Input, z: Input)
    requires Before(x, y) && Before(y, z)
    ensures Before(x, z)
  {
    if x.txid != y.txid && y.txid != z.txid {
      BytesLessTransitive(Hex(x.txid), Hex(y.txid), Hex(z.txid));
      BytesLessAsymmetric(Hex(x.txid), Hex(z.txid));
    }
  }

  /** Caller order is forgotten and nothing else is: two accepted lists get the same canonical list
      exactly when they hold the same normalized inputs. */
  lemma OrderedIff(a: seq<Input>, b: seq<Input>)
    requires Ordered(a).Some? && Ordered(b).Some?
    ensures Ordered(a) == Ordered(b) <==> multiset(Normalized(a).value) == multiset(Normalized(b).value)
  {
    var x, y := Normalized(a).value, Normalized(b).value;
    SortPermutes(Before, x);
    SortPermutes(Before, y);
    if multiset(x) == multiset(y) {
      KeysDistinctIff(Outpoint, x);
      BeforeOrders(multiset(x));
      SortForgetsOrder(Before, x, y);
    }
  }

  // ---------- the payload ----------

  datatype Terms = Terms(
    purpose: Blob, vault: Blob, destScript: Blob, changeScript: Blob, amountSats: u64, feeSats: u64, changeSats: u64,
    changeVout: Option<u32>, feePolicyDigest: Blob, createdAt: Blob)

  function InputAtoms(inputs: seq<Input>): seq<Atom> {
    if inputs == [] then []
    else [Raw(inputs[0].txid), Number(4, inputs[0].vout), Number(8, inputs[0].valueSats)] + InputAtoms(inputs[1..])
  }

  function Front(t: Terms): seq<Atom> {
    [Field(t.purpose), Field(t.vault), Field(t.destScript), Number(8, t.amountSats), Field(t.changeScript),
     Number(8, t.feeSats), Number(8, t.changeSats)]
  }

  function Middle(t: Terms, count: nat): seq<Atom> {
    (if t.changeVout.None? then [Number(1, 0)] else [Number(1, 1), Number(4, t.changeVout.value)])
    + [Field(t.feePolicyDigest), Number(2, count)]
  }

  function Atoms(t: Terms, ordered: seq<Input>): seq<Atom> {
    Front(t) + (Middle(t, |ordered|) + (InputAtoms(ordered) + [Field(t.createdAt)]))
  }

  predicate AcceptedTerms(t: Terms) {
    && t.purpose == Ascii("spend") && t.vault != [] && |t.feePolicyDigest| == 32
    && ChangeShape(t.changeSats, t.changeVout, t.changeScript)
  }

  /** The payload that ComputeVtxoBundleDigest hashes. */
  function Payload(t: Terms, inputs: seq<Input>): Option<Blob> {
    if !AcceptedTerms(t) then None
    else
      match Ordered(inputs)
      case None => None
      case Some(ordered) =>
        if |ordered| == 0 || |ordered| > MAX_INPUTS || !AllFit(Atoms(t, ordered)) then None
        else Some(Render(Atoms(t, ordered)))
  }

  lemma {:induction false} InputAtomsShape(a: seq<Input>, b: seq<Input>)
    requires |a| == |b|
    requires forall i :: 0 <= i < |a| ==> |a[i].txid| == |b[i].txid| == 32
    ensures SameShape(InputAtoms(a), InputAtoms(b)) && (InputAtoms(a) == InputAtoms(b) ==> a == b)
    decreases |a|
  {
    if a != [] {
      var x, y := InputAtoms(a), InputAtoms(b);
      InputAtomsShape(a[1..], b[1..]);
      assert x[3..] == InputAtoms(a[1..]) && y[3..] == InputAtoms(b[1..]);
      forall i | 0 <= i < |x| ensures Alike(x[i], y[i]) {
        if i >= 3 { assert x[i] == x[3..][i - 3] && y[i] == y[3..][i - 3]; }
      }
      if x == y {
        assert x[0] == y[0] && x[1] == y[1] && x[2] == y[2];
        assert a == [a[0]] + a[1..] && b == [b[0]] + b[1..];
      }
    }
  }

  lemma FrontEqual(s: Terms, t: Terms)
    requires Front(s) == Front(t)
    ensures s == t.(changeVout := s.changeVout, feePolicyDigest := s.feePolicyDigest, createdAt := s.createdAt)
  {
    var a, b := Front(s), Front(t);
    assert a[0] == b[0] && a[1] == b[1] && a[2] == b[2] && a[3] == b[3] && a[4] == b[4] && a[5] == b[5] && a[6] == b[6];
  }

  lemma MiddleEqual(s: Terms, t: Terms, n: nat, m: nat)
    requires s.changeVout == t.changeVout && Middle(s, n) == Middle(t, m)
    ensures s.feePolicyDigest == t.feePolicyDigest && n == m
  {
    var a, b := Middle(s, n), Middle(t, m);
    assert a[|a| - 2] == b[|a| - 2] && a[|a| - 1] == b[|a| - 1];
  }

  lemma SortKeepsTxids(n: seq<Input>)
    requires forall i :: 0 <= i < |n| ==> |n[i].txid| == 32
    ensures forall i :: 0 <= i < |Sort(Before, n)| ==> |Sort(Before, n)[i].txid| == 32
  {
    SortPermutes(Before, n);
    var o := Sort(Before, n);
    forall i | 0 <= i < |o| ensures |o[i].txid| == 32 {
      assert o[i] in multiset(o) && o[i] in multiset(n);
      var k :| 0 <= k < |n| && n[k] == o[i];
    }
  }

  lemma TailsEqual(x: seq<Input>, y: seq<Input>, c: Blob, d: Blob)
    requires |x| == |y| && (forall i :: 0 <= i < |x| ==> |x[i].txid| == |y[i].txid| == 32)
    requires AllFit(InputAtoms(x) + [Field(c)]) && AllFit(InputAtoms(y) + [Field(d)])
    requires Render(InputAtoms(x) + [Field(c)]) == Render(InputAtoms(y) + [Field(d)])
    ensures x == y && c == d
  {
    InputAtomsShape(x, y);
    CommonPart(InputAtoms(x), InputAtoms(y), [Field(c)], [Field(d)]);
    RenderInjective([Field(c)], [Field(d)]);
    assert [Field(c)][0] == [Field(d)][0];
  }

  lemma AtomsEqual(s: Terms, t: Terms, x: seq<Input>, y: seq<Input>)
    requires ChangeShape(s.changeSats, s.changeVout, s.changeScript) &&
             ChangeShape(t.changeSats, t.changeVout, t.changeScript)
    requires (forall i :: 0 <= i < |x| ==> |x[i].txid| == 32) && (forall i :: 0 <= i < |y| ==> |y[i].txid| == 32)
    requires AllFit(Atoms(s, x)) && AllFit(Atoms(t, y)) && Render(Atoms(s, x)) == Render(Atoms(t, y))
    ensures s == t && x == y
  {
    var lastX, lastY := InputAtoms(x) + [Field(s.createdAt)], InputAtoms(y) + [Field(t.createdAt)];
    CommonPart(Front(s), Front(t), Middle(s, |x|) + lastX, Middle(t, |y|) + lastY);
    FrontEqual(s, t);
    CommonPart(Middle(s, |x|), Middle(t, |y|), lastX, lastY);
    MiddleEqual(s, t, |x|, |y|);
    TailsEqual(x, y, s.createdAt, t.createdAt);
  }

  /** The bundle payload is equal exactly when all terms and the set of inputs are, in whatever order
      and spelling the inputs were given. */
  lemma PayloadIff(s: Terms, a: seq<Input>, t: Terms, b: seq<Input>)
    requires Payload(s, a).Some? && Payload(t, b).Some?
    ensures Payload(s, a) == Payload(t, b) <==> s == t && multiset(Normalized(a).value) == multiset(Normalized(b).value)
  {
    OrderedIff(a, b);
    SortKeepsTxids(Normalized(a).value);
    SortKeepsTxids(Normalized(b).value);
    if Payload(s, a) == Payload(t, b) { AtomsEqual(s, t, Ordered(a).value, Ordered(b).value); }
  }
}
