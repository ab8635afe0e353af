/**
  The on-disk batch format: each triple is a fixed 15-byte record holding
  the subject, predicate and object as three 5-byte little-endian values,
  in that order.  Readers load a wider machine word at each field offset
  and keep its low 40 bits.
*/
module BatchCodec {
  import opened Base

  type byte = x: int | 0 <= x < 256

  const FieldBytes: nat := 5
  const RecordBytes: nat := 15

  /** 2^40: one more than the largest value a 5-byte field holds. */
  const TwoTo40: nat := 0x100_0000_0000

  /** A triple of term identifiers. */
  datatype Triple = Triple(s: u64, p: u64, o: u64)

  /** One entry of the POS index: predicate key, object, subject. */
  datatype PosEntry = PosEntry(key: u64, value1: u64, value2: u64)

  function Pow256(n: nat): (r: nat)
    ensures r > 0
  {
    if n == 0 then 1 else 256 * Pow256(n - 1)
  }

  /** The unsigned little-endian value of a byte string. */
  function ReadLE(bs: seq<byte>): nat
  {
    if |bs| == 0 then 0 else bs[0] + 256 * ReadLE(bs[1..])
  }

  /** The low `n` little-endian bytes of `x` -- what writing the first `n`
      bytes of a little-endian machine word produces. */
  function EncodeLE(x: nat, n: nat): (r: seq<byte>)
    ensures |r| == n
  {
    if n == 0 then [] else [x % 256] + EncodeLE(x / 256, n - 1)
  }

  // ---------------------------------------------------------------------
  // Arithmetic helpers

  lemma ModUnique(x: int, m: int, k: int, t: int)
    requires m > 0 && 0 <= t < m && x == m * k + t
    ensures x % m == t && x / m == k
  {
    var q, r := x / m, x % m;
    assert x == m * q + r;
    if q > k {
      assert m * q >= m * (k + 1) by { MulMono(m, k + 1, q); }
    } else if q < k {
      assert m * k >= m * (q + 1) by { MulMono(m, q + 1, k); }
    }
  }

  lemma MulMono(m: int, a: int, b: int)
    requires m >= 0 && a <= b
    ensures m * a <= m * b
  {
    assert m * b - m * a == m * (b - a);
  }

  /** Splitting a modulus: the remainder by a*b is the remainder by a plus
      a times the next digit. */
  lemma ModSplit(x: nat, a: nat, b: nat)
    requires a > 0 && b > 0
    ensures x % (a * b) == x % a + a * ((x / a) % b)
  {
    var q, r := x / a, x % a;
    var q1, r1 := q / b, q % b;
    assert q == b * q1 + r1;
    assert a * q == (a * b) * q1 + a * r1 by {
      assert a * q == a * (b * q1) + a * r1;
    }
    assert a * r1 <= a * (b - 1) by { MulMono(a, r1, b - 1); }
    assert a * (b - 1) == a * b - a;
    ModUnique(x, a * b, q1, a * r1 + r);
  }

  // ---------------------------------------------------------------------
  // Little-endian fields

  lemma {:induction false} ReadLEBound(bs: seq<byte>)
    ensures ReadLE(bs) < Pow256(|bs|)
  {
    if |bs| > 0 {
      ReadLEBound(bs[1..]);
      assert ReadLE(bs[1..]) <= Pow256(|bs| - 1) - 1;
      MulMono(256, ReadLE(bs[1..]), Pow256(|bs| - 1) - 1);
    }
  }

  /** Reading a concatenation: the later bytes are the higher digits. */
  lemma {:induction false} ReadLEAppend(a: seq<byte>, b: seq<byte>)
    ensures ReadLE(a + b) == ReadLE(a) + Pow256(|a|) * ReadLE(b)
  {
    if |a| > 0 {
      assert (a + b)[1..] == a[1..] + b;
      ReadLEAppend(a[1..], b);
      assert 256 * (Pow256(|a| - 1) * ReadLE(b)) == Pow256(|a|) * ReadLE(b);
    } else {
      assert a + b == b;
    }
  }

  /** Encoding keeps exactly the low n bytes: reading them back gives the
      value modulo 256^n. */
  lemma {:induction false} ReadEncodeLE(x: nat, n: nat)
    ensures ReadLE(EncodeLE(x, n)) == x % Pow256(n)
  {
    if n > 0 {
      ReadEncodeLE(x / 256, n - 1);
      assert EncodeLE(x, n)[1..] == EncodeLE(x / 256, n - 1);
      ModSplit(x, 256, Pow256(n - 1));
    }
  }

  lemma FieldWidth()
    ensures Pow256(FieldBytes) == TwoTo40
  {
  }

  /** Masking an 8-byte little-endian load to its low 40 bits leaves the
      value of its first five bytes: the wider read that real readers do
      at a field offset agrees with a 5-byte read. */
  lemma WideReadMasked(word: seq<byte>)
    requires |word| == 8
    ensures ReadLE(word) % TwoTo40 == ReadLE(word[..FieldBytes])
  {
    var lo, hi := word[..FieldBytes], word[FieldBytes..];
    assert word == lo + hi;
    ReadLEAppend(lo, hi);
    ReadLEBound(lo);
    FieldWidth();
    ModUnique(ReadLE(word), TwoTo40, ReadLE(hi), ReadLE(lo));
  }

  // ---------------------------------------------------------------------
  // Records

  /** The 40-bit field starting at byte `off`. */
  function Field(raw: seq<byte>, off: nat): (r: u64)
    requires off + FieldBytes <= |raw|
    ensures r < TwoTo40
  {
    ReadLEBound(raw[off..off + FieldBytes]);
    FieldWidth();
    ReadLE(raw[off..off + FieldBytes])
  }

  /** Record `idx`: subject, predicate and object at byte offsets 0, 5 and
      10 of its 15-byte slot. */
  function DecodeRecord(raw: seq<byte>, idx: nat): Triple
    requires (idx + 1) * RecordBytes <= |raw|
  {
    var base := idx * RecordBytes;
    Triple(Field(raw, base), Field(raw, base + 5), Field(raw, base + 10))
  }

  /** The number of whole records in a byte string. */
  function RecordCount(raw: seq<byte>): nat
  {
    |raw| / RecordBytes
  }

  /** A triple reduced to what a record can hold. */
  function Masked(t: Triple): Triple
  {
    Triple(t.s % TwoTo40, t.p % TwoTo40, t.o % TwoTo40)
  }

  /** Whether every value fits in 40 bits. */
  predicate Fits(t: Triple)
  {
    t.s < TwoTo40 && t.p < TwoTo40 && t.o < TwoTo40
  }

  /** The record written for one triple: s, p and o, low five bytes each. */
  function EncodeTriple(t: Triple): (r: seq<byte>)
    ensures |r| == RecordBytes
  {
    EncodeLE(t.s, FieldBytes) + EncodeLE(t.p, FieldBytes) + EncodeLE(t.o, FieldBytes)
  }

  /** The POS scan writes (s, p, o) = (value2, key, value1) per entry. */
  function FromPos(e: PosEntry): Triple
  {
    Triple(e.value2, e.key, e.value1)
  }

  /** The batch file written for a sequence of POS entries, in scan order. */
  function EncodeAll(es: seq<PosEntry>): (r: seq<byte>)
    ensures |r| == RecordBytes * |es|
  {
    if |es| == 0 then [] else EncodeAll(es[..|es| - 1]) + EncodeTriple(FromPos(es[|es| - 1]))
  }

  lemma FieldOfEncoded(x: nat)
    ensures ReadLE(EncodeLE(x, FieldBytes)) == x % TwoTo40
  {
    ReadEncodeLE(x, FieldBytes);
    FieldWidth();
  }

  /** Decoding the record of one triple gives the triple back, masked. */
  lemma DecodeEncodeTriple(t: Triple)
    ensures DecodeRecord(EncodeTriple(t), 0) == Masked(t)
  {
    var r := EncodeTriple(t);
    assert r[0..5] == EncodeLE(t.s, FieldBytes);
    assert r[5..10] == EncodeLE(t.p, FieldBytes);
    assert r[10..15] == EncodeLE(t.o, FieldBytes);
    FieldOfEncoded(t.s);
    FieldOfEncoded(t.p);
    FieldOfEncoded(t.o);
  }

  /** Reading record idx only looks at its own 15 bytes. */
  lemma DecodeInSlot(raw: seq<byte>, idx: nat)
    requires (idx + 1) * RecordBytes <= |raw|
    ensures DecodeRecord(raw, idx) == DecodeRecord(raw[idx * RecordBytes..(idx + 1) * RecordBytes], 0)
  {
    var slot := raw[idx * RecordBytes..(idx + 1) * RecordBytes];
    var base := idx * RecordBytes;
    assert slot[0..5] == raw[base..base + 5];
    assert slot[5..10] == raw[base + 5..base + 10];
    assert slot[10..15] == raw[base + 10..base + 15];
  }

  lemma {:induction false} EncodeAllPrefix(es: seq<PosEntry>, n: nat)
    requires n <= |es|
    ensures EncodeAll(es)[..RecordBytes * n] == EncodeAll(es[..n])
    decreases |es|
  {
    if n < |es| {
      var init := es[..|es| - 1];
      assert EncodeAll(es)[..RecordBytes * |init|] == EncodeAll(init);
      EncodeAllPrefix(init, n);
      assert init[..n] == es[..n];
    } else {
      assert es[..n] == es;
    }
  }

  /** Record slot i of the file written for `es` holds entry i. */
  lemma SlotOfEncodeAll(es: seq<PosEntry>, i: nat)
    requires i < |es|
    ensures EncodeAll(es)[i * RecordBytes..(i + 1) * RecordBytes] == EncodeTriple(FromPos(es[i]))
  {
    var raw := EncodeAll(es);
    EncodeAllPrefix(es, i + 1);
    var pre := es[..i + 1];
    assert pre[..i] == es[..i];
    var front := EncodeAll(es[..i]);
    assert EncodeAll(pre) == front + EncodeTriple(FromPos(es[i]));
    assert raw[..(i + 1) * RecordBytes] == front + EncodeTriple(FromPos(es[i]));
    assert raw[i * RecordBytes..(i + 1) * RecordBytes] == raw[..(i + 1) * RecordBytes][i * RecordBytes..];
  }

  /** The batch file round trip: record i of the file written for `es`
      decodes to entry i as a triple, masked to 40 bits. */
  lemma DecodeEncodeAll(es: seq<PosEntry>, i: nat)
    requires i < |es|
    ensures (i + 1) * RecordBytes <= |EncodeAll(es)|
    ensures DecodeRecord(EncodeAll(es), i) == Masked(FromPos(es[i]))
  {
    DecodeInSlot(EncodeAll(es), i);
    SlotOfEncodeAll(es, i);
    DecodeEncodeTriple(FromPos(es[i]));
  }

  // ---------------------------------------------------------------------
  // loadTriples

  /** The values of a sequence of triples, three per triple, in order. */
  function Flat(ts: seq<Triple>): (r: seq<u64>)
    ensures |r| == 3 * |ts|
  {
    if |ts| == 0 then [] else Flat(ts[..|ts| - 1]) + [ts[|ts| - 1].s, ts[|ts| - 1].p, ts[|ts| - 1].o]
  }

  /** Where each triple's values sit in the flat sequence. */
  lemma {:induction false} FlatAt(ts: seq<Triple>, k: nat)
    requires k < |ts|
    ensures Flat(ts)[3 * k] == ts[k].s && Flat(ts)[3 * k + 1] == ts[k].p && Flat(ts)[3 * k + 2] == ts[k].o
  {
    if k < |ts| - 1 {
      FlatAt(ts[..|ts| - 1], k);
    }
  }

  lemma FlatSnoc(ts: seq<Triple>, t: Triple)
    ensures Flat(ts + [t]) == Flat(ts) + [t.s, t.p, t.o]
  {
    assert (ts + [t])[..|ts|] == ts;
  }

  /** Every record of a byte string, in file order. */
  function Records(raw: seq<byte>): (r: seq<Triple>)
    ensures |r| == RecordCount(raw)
  {
    seq(RecordCount(raw), i requires 0 <= i < RecordCount(raw) => DecodeRecord(raw, i))
  }

  /** `loadTriples`: append s, p and o of every record to `output`, in file
      order.  The file is a whole number of records. */
  method LoadTriples(raw: seq<byte>, output: seq<u64>) returns (out: seq<u64>)
    requires |raw| % RecordBytes == 0
    ensures |out| == |output| + 3 * RecordCount(raw)
    ensures out == output + Flat(Records(raw))
  {
    out := output;
    var start := 0;
    ghost var done: seq<Triple> := [];
    while start < |raw|
      invariant 0 <= start <= |raw| && start % RecordBytes == 0
      invariant |done| == start / RecordBytes
      invariant done == Records(raw)[..|done|]
      invariant out == output + Flat(done)
    {
      var idx := start / RecordBytes;
      var t := DecodeRecord(raw, idx);
      FlatSnoc(done, t);
      out := out + [t.s, t.p, t.o];
      done := done + [t];
      start := start + RecordBytes;
    }
    assert done == Records(raw);
  }

  /** Masking changes nothing about a triple that fits. */
  lemma MaskedFits(t: Triple)
    requires Fits(t)
    ensures Masked(t) == t
  {
  }

  /** Record i of the loaded file written for `es` is entry i, masked. */
  lemma RecordOfEncoded(es: seq<PosEntry>, i: nat)
    requires i < |es|
    ensures RecordCount(EncodeAll(es)) == |es|
    ensures Records(EncodeAll(es))[i] == Masked(FromPos(es[i]))
  {
    DecodeEncodeAll(es, i);
  }

  /** Loading the file written for `es` yields the values of every entry
      as a triple, in scan order, when all identifiers fit in 40 bits. */
  lemma LoadOfEncoded(es: seq<PosEntry>)
    requires forall i :: 0 <= i < |es| ==> Fits(FromPos(es[i]))
    ensures |Records(EncodeAll(es))| == |es|
    ensures forall i :: 0 <= i < |es| ==> Records(EncodeAll(es))[i] == FromPos(es[i])
  {
    assert RecordCount(EncodeAll(es)) == |es|;
    forall i | 0 <= i < |es|
      ensures Records(EncodeAll(es))[i] == FromPos(es[i])
    {
      RecordOfEncoded(es, i);
      MaskedFits(FromPos(es[i]));
    }
  }

  // ---------------------------------------------------------------------
  // _pso

  /** `_pso`: order two records by predicate, then subject, then object. */
  predicate PsoLess(a: Triple, b: Triple)
  {
    if a.p != b.p then a.p < b.p
    else if a.s != b.s then a.s < b.s
    else a.o < b.o
  }

  /** `_pso` on record indices into the batch file. */
  predicate PsoIndexLess(raw: seq<byte>, i: nat, j: nat)
    requires (i + 1) * RecordBytes <= |raw| && (j + 1) * RecordBytes <= |raw|
  {
    PsoLess(DecodeRecord(raw, i), DecodeRecord(raw, j))
  }

  /** The comparator is the strict lexicographic order on (p, s, o). */
  lemma PsoIsLexicographic(a: Triple, b: Triple)
    ensures PsoLess(a, b) <==>
      a.p < b.p || (a.p == b.p && a.s < b.s) || (a.p == b.p && a.s == b.s && a.o < b.o)
  {
  }

  lemma PsoIrreflexive(a: Triple)
    ensures !PsoLess(a, a)
  {
  }

  lemma PsoTransitive(a: Triple, b: Triple, c: Triple)
    requires PsoLess(a, b) && PsoLess(b, c)
    ensures PsoLess(a, c)
  {
  }

  /** Distinct triples are always ordered one way or the other. */
  lemma PsoTotal(a: Triple, b: Triple)
    requires a != b
    ensures PsoLess(a, b) || PsoLess(b, a)
  {
  }
}
