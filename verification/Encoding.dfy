/** Length-prefixed encodings: a payload is a list of atoms, and lists of one shape are prefix-free. */
module Encoding {
  import opened Prelude

  /** A length-prefixed field, a little-endian integer of a fixed width, or bytes of a fixed length. */
  datatype Atom = Field(b: Blob) | Number(width: nat, n: nat) | Raw(raw: Blob)

  function LittleEndian(width: nat, n: nat): (r: Blob)
    ensures |r| == width
  {
    if width == 0 then [] else [(n % 256) as byte] + LittleEndian(width - 1, n / 256)
  }

  /** The first number that does not fit `width` bytes. */
  function Limit(width: nat): nat { if width == 0 then 1 else 256 * Limit(width - 1) }

  lemma Limits()
    ensures Limit(1) == 0x100 && Limit(2) == 0x1_0000 && Limit(4) == 0x1_0000_0000 &&
            Limit(8) == 0x1_0000_0000_0000_0000
  {
    assert Limit(2) == 256 * Limit(1) && Limit(4) == 256 * 256 * Limit(2);
    assert Limit(6) == 256 * 256 * Limit(4) && Limit(8) == 256 * 256 * Limit(6);
  }

  predicate Fits(a: Atom) {
    match a
    case Field(b) => |b| < 0x1_0000_0000
    case Number(width, n) => n < Limit(width)
    case Raw(_) => true
  }

  predicate AllFit(atoms: seq<Atom>) { forall i :: 0 <= i < |atoms| ==> Fits(atoms[i]) }

  function Bytes(a: Atom): Blob {
    match a
    case Field(b) => LittleEndian(4, |b|) + b
    case Number(width, n) => LittleEndian(width, n)
    case Raw(raw) => raw
  }

  function Render(atoms: seq<Atom>): Blob {
    if atoms == [] then [] else Bytes(atoms[0]) + Render(atoms[1..])
  }

  function Fields(bs: seq<Blob>): (r: seq<Atom>)
    ensures |r| == |bs| && forall i :: 0 <= i < |bs| ==> r[i] == Field(bs[i])
  {
    if bs == [] then [] else [Field(bs[0])] + Fields(bs[1..])
  }

  lemma {:induction false} RenderAppend(a: seq<Atom>, b: seq<Atom>)
    ensures Render(a + b) == Render(a) + Render(b)
  {
    if a == [] {
      assert a + b == b;
    } else {
      assert (a + b)[1..] == a[1..] + b;
      RenderAppend(a[1..], b);
    }
  }

  /** boardCanonical's loop: append every atom, refusing a field whose length does not fit. */
  method Build(atoms: seq<Atom>) returns (out: Option<Blob>)
    ensures out == if AllFit(atoms) then Some(Render(atoms)) else None
  {
    var buffer: Blob := [];
    for i := 0 to |atoms|
      invariant buffer == Render(atoms[..i]) && AllFit(atoms[..i])
    {
      if !Fits(atoms[i]) { return None; }
      assert atoms[..i + 1] == atoms[..i] + [atoms[i]];
      RenderAppend(atoms[..i], [atoms[i]]);
      assert Render([atoms[i]]) == Bytes(atoms[i]);
      buffer := buffer + Bytes(atoms[i]);
    }
    assert atoms[..|atoms|] == atoms;
    return Some(buffer);
  }

  // ---------- prefix-freeness ----------

  predicate Alike(a: Atom, b: Atom) {
    match a
    case Field(_) => b.Field?
    case Number(width, _) => b.Number? && b.width == width
    case Raw(raw) => b.Raw? && |b.raw| == |raw|
  }

  predicate SameShape(a: seq<Atom>, b: seq<Atom>) {
    |a| == |b| && forall i :: 0 <= i < |a| ==> Alike(a[i], b[i])
  }

  lemma {:induction false} LittleEndianInjective(width: nat, n: nat, m: nat)
    requires n < Limit(width) && m < Limit(width) && LittleEndian(width, n) == LittleEndian(width, m)
    ensures n == m
  {
    if width > 0 {
      var a, b := LittleEndian(width, n), LittleEndian(width, m);
      assert a[0] == b[0] && a[1..] == LittleEndian(width - 1, n / 256) && b[1..] == LittleEndian(width - 1, m / 256);
      LittleEndianInjective(width - 1, n / 256, m / 256);
    }
  }

  lemma SamePrefix(a: Blob, x: Blob, b: Blob, y: Blob)
    requires |a| == |b| && a + x == b + y
    ensures a == b && x == y
  {
    assert (a + x)[..|a|] == a && (b + y)[..|a|] == b;
    assert (a + x)[|a|..] == x && (b + y)[|a|..] == y;
  }

  lemma FieldPrefixFree(f: Blob, g: Blob, x: Blob, y: Blob)
    requires |f| < 0x1_0000_0000 && |g| < 0x1_0000_0000
    requires LittleEndian(4, |f|) + (f + x) == LittleEndian(4, |g|) + (g + y)
    ensures f == g && x == y
  {
    SamePrefix(LittleEndian(4, |f|), f + x, LittleEndian(4, |g|), g + y);
    Limits();
    LittleEndianInjective(4, |f|, |g|);
    SamePrefix(f, x, g, y);
  }

  lemma Associate(a: Blob, b: Blob, c: Blob)
    ensures (a + b) + c == a + (b + c)
  {
  }

  lemma AtomPrefixFree(a: Atom, b: Atom, x: Blob, y: Blob)
    requires Alike(a, b) && Fits(a) && Fits(b) && Bytes(a) + x == Bytes(b) + y
    ensures a == b && x == y
  {
    match a
    case Number(width, n) =>
      SamePrefix(Bytes(a), x, Bytes(b), y);
      LittleEndianInjective(width, n, b.n);
    case Raw(raw) =>
      SamePrefix(raw, x, b.raw, y);
    case Field(f) =>
      Associate(LittleEndian(4, |f|), f, x);
      Associate(LittleEndian(4, |b.b|), b.b, y);
      FieldPrefixFree(f, b.b, x, y);
  }

  lemma HeadTail(a: seq<Atom>, b: seq<Atom>)
    requires a != [] && b != [] && a[0] == b[0] && a[1..] == b[1..]
    ensures a == b
  {
    assert a == [a[0]] + a[1..] && b == [b[0]] + b[1..];
  }

  /** Two payloads of one shape, followed by anything, agree only if they and their tails are equal. */
  lemma {:induction false} PrefixFree(a: seq<Atom>, b: seq<Atom>, x: Blob, y: Blob)
    requires SameShape(a, b) && AllFit(a) && AllFit(b) && Render(a) + x == Render(b) + y
    ensures a == b && x == y
    decreases |a|
  {
    if a == [] {
      SamePrefix([], x, [], y);
    } else {
      Associate(Bytes(a[0]), Render(a[1..]), x);
      Associate(Bytes(b[0]), Render(b[1..]), y);
      AtomPrefixFree(a[0], b[0], Render(a[1..]) + x, Render(b[1..]) + y);
      PrefixFree(a[1..], b[1..], x, y);
      HeadTail(a, b);
    }
  }

  lemma AllFitParts(a: seq<Atom>, b: seq<Atom>)
    requires AllFit(a + b)
    ensures AllFit(a) && AllFit(b)
  {
    forall i | 0 <= i < |a| ensures Fits(a[i]) { assert (a + b)[i] == a[i]; }
    forall i | 0 <= i < |b| ensures Fits(b[i]) { assert (a + b)[|a| + i] == b[i]; }
  }

  /** Payloads that start with parts of one shape agree on those parts and on the rest. */
  lemma CommonPart(a: seq<Atom>, b: seq<Atom>, t: seq<Atom>, u: seq<Atom>)
    requires SameShape(a, b) && AllFit(a + t) && AllFit(b + u) && Render(a + t) == Render(b + u)
    ensures a == b && Render(t) == Render(u) && AllFit(t) && AllFit(u)
  {
    AllFitParts(a, t);
    AllFitParts(b, u);
    RenderAppend(a, t);
    RenderAppend(b, u);
    PrefixFree(a, b, Render(t), Render(u));
  }

  lemma CommonFields(f: seq<Blob>, g: seq<Blob>, t: seq<Atom>, u: seq<Atom>)
    requires |f| == |g| && AllFit(Fields(f) + t) && AllFit(Fields(g) + u) &&
             Render(Fields(f) + t) == Render(Fields(g) + u)
    ensures f == g && Render(t) == Render(u) && AllFit(t) && AllFit(u)
  {
    CommonPart(Fields(f), Fields(g), t, u);
    forall i | 0 <= i < |f| ensures f[i] == g[i] { assert Fields(f)[i] == Fields(g)[i]; }
  }

  /** The same without tails. */
  lemma RenderInjective(a: seq<Atom>, b: seq<Atom>)
    requires SameShape(a, b) && AllFit(a) && AllFit(b) && Render(a) == Render(b)
    ensures a == b
  {
    assert Render(a) + [] == Render(b) + [];
    PrefixFree(a, b, [], []);
  }

  // ---------- text ----------

  function Ascii(s: string): Blob { seq(|s|, i requires 0 <= i < |s| => (s[i] as int % 256) as byte) }

  predicate IsLowerHex(b: Blob) {
    forall i :: 0 <= i < |b| ==> 48 <= b[i] <= 57 || 97 <= b[i] <= 102
  }
}
