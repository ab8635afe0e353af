/**
  Batch selection for embedding training.  A batch creator walks a
  shuffled array of triple indices and hands out up to `batchsize`
  triples per call, either decoded from the 15-byte batch file or looked
  up in the knowledge base through per-predicate coordinates.
*/
module Batch {
  import opened Base
  import opened BatchCodec

  // ---------------------------------------------------------------------
  // Knowledge-base coordinates (populateCoordinates, getAt)

  /** A table reader: the object and subject at a local row of one
      predicate's POS table.  The on-disk decoding is abstract. */
  type Reader = u64 -> (u64, u64)

  /** One entry of the predicate term list: the predicate, its number of
      triples, and the reader for its table -- `None` when the table's
      index file is missing or its storage layout is not supported. */
  datatype TermEntry = TermEntry(pred: u64, card: u64, reader: Option<Reader>)

  /** `PredCoordinates`: a predicate, the running count of triples up to
      and including its table, and its reader. */
  datatype PredCoordinates = PredCoordinates(pred: u64, boundary: u64, reader: Reader)

  /** The exception code thrown for an unusable table. */
  const ThrownCode: int := 10

  /** The number of triples in the first `n` tables. */
  function CardSum(terms: seq<TermEntry>, n: nat): nat
    requires n <= |terms|
  {
    if n == 0 then 0 else CardSum(terms, n - 1) + terms[n - 1].card
  }

  predicate AllReadable(terms: seq<TermEntry>)
  {
    forall k :: 0 <= k < |terms| ==> terms[k].reader.Some?
  }

  /** Adding to a remainder and reducing again is reducing the sum. */
  lemma ModAdd(x: nat, c: nat, m: nat)
    requires m > 0
    ensures (x % m + c) % m == (x + c) % m
  {
    var q, r := x / m, x % m;
    var q2, t := (r + c) / m, (r + c) % m;
    assert x + c == m * (q + q2) + t;
    ModUnique(x + c, m, q + q2, t);
  }

  /** One step of the running `uint64_t` sum. */
  lemma RunningSumStep(terms: seq<TermEntry>, k: nat, current: u64)
    requires k < |terms| && current == CardSum(terms, k) % TwoTo64
    ensures Add64(current, terms[k].card) == CardSum(terms, k + 1) % TwoTo64
  {
    ModAdd(CardSum(terms, k), terms[k].card, TwoTo64);
  }

  /** Coordinate `pc` records term `t` with running sum `sum`. */
  ghost predicate Describes(t: TermEntry, sum: nat, pc: PredCoordinates)
  {
    pc.pred == t.pred && pc.boundary == sum % TwoTo64 && t.reader.Some? && t.reader.value == pc.reader
  }

  /** `populateCoordinates`: one coordinate per predicate, in term-list
      order, whose boundary is the running card sum on `uint64_t`; an
      unusable table throws. */
  method PopulateCoordinates(terms: seq<TermEntry>) returns (r: Result<seq<PredCoordinates>, int>)
    ensures r.Success? <==> AllReadable(terms)
    ensures r.Failure? ==> r.error == ThrownCode
    ensures r.Success? ==> |r.value| == |terms|
    ensures r.Success? ==> forall k :: 0 <= k < |terms| ==> Describes(terms[k], CardSum(terms, k + 1), r.value[k])
  {
    var coords: seq<PredCoordinates> := [];
    var current: u64 := 0;
    var k := 0;
    while k < |terms|
      invariant 0 <= k <= |terms| && |coords| == k
      invariant current == CardSum(terms, k) % TwoTo64
      invariant forall i :: 0 <= i < k ==> Describes(terms[i], CardSum(terms, i + 1), coords[i])
    {
      var t := terms[k];
      if t.reader.None? {
        return Failure(ThrownCode);
      }
      var boundary := Add64(current, t.card);
      RunningSumStep(terms, k, current);
      var pc := PredCoordinates(t.pred, boundary, t.reader.value);
      assert Describes(t, CardSum(terms, k + 1), pc);
      coords := coords + [pc];
      current := boundary;
      k := k + 1;
    }
    r := Success(coords);
  }

  /** The first table at or after `k` whose boundary exceeds `pos`. */
  function LocateFrom(coords: seq<PredCoordinates>, pos: u64, k: nat): (r: Option<nat>)
    requires k <= |coords|
    ensures r.Some? ==> k <= r.value < |coords| && pos < coords[r.value].boundary
    ensures r.Some? ==> forall j :: k <= j < r.value ==> coords[j].boundary <= pos
    ensures r.None? ==> forall j :: k <= j < |coords| ==> coords[j].boundary <= pos
    decreases |coords| - k
  {
    if k == |coords| then None
    else if pos < coords[k].boundary then Some(k)
    else LocateFrom(coords, pos, k + 1)
  }

  function Locate(coords: seq<PredCoordinates>, pos: u64): Option<nat>
  {
    LocateFrom(coords, pos, 0)
  }

  /** Where table k starts: the previous table's boundary. */
  function Offset(coords: seq<PredCoordinates>, k: nat): u64
    requires k <= |coords|
  {
    if k == 0 then 0 else coords[k - 1].boundary
  }

  /** The triple `getAt` reports for `pos`; `prior` is what the caller's
      registers held, which stays when no table covers `pos`. */
  function At(coords: seq<PredCoordinates>, pos: u64, prior: Triple): Triple
  {
    match Locate(coords, pos)
    case None => prior
    case Some(k) =>
      var os := coords[k].reader(pos - Offset(coords, k));
      Triple(os.1, coords[k].pred, os.0)
  }

  /** `KBBatch::getAt`: skip the tables whose boundary is at most `pos`,
      then read the first remaining table at `pos` less the boundary
      skipped last. */
  method GetAt(coords: seq<PredCoordinates>, pos: u64, prior: Triple) returns (t: Triple)
    ensures t == At(coords, pos, prior)
  {
    var k := 0;
    var offset: u64 := 0;
    while k < |coords| && pos >= coords[k].boundary
      invariant 0 <= k <= |coords|
      invariant offset == Offset(coords, k) && offset <= pos
      invariant LocateFrom(coords, pos, k) == Locate(coords, pos)
    {
      offset := coords[k].boundary;
      k := k + 1;
    }
    var local := pos - offset;
    if k < |coords| {
      var os := coords[k].reader(local);
      t := Triple(os.1, coords[k].pred, os.0);
    } else {
      t := prior;
    }
  }

  /** Boundaries that are the exact running sums of the cards. */
  predicate ExactBoundaries(terms: seq<TermEntry>, coords: seq<PredCoordinates>)
  {
    |coords| == |terms| &&
    forall k :: 0 <= k < |coords| ==> coords[k].boundary == CardSum(terms, k + 1)
  }

  lemma {:induction false} CardSumMono(terms: seq<TermEntry>, a: nat, b: nat)
    requires a <= b <= |terms|
    ensures CardSum(terms, a) <= CardSum(terms, b)
    decreases b
  {
    if a < b {
      CardSumMono(terms, a, b - 1);
    }
  }

  /** Without overflow the running `uint64_t` sums are the exact sums, so
      the boundaries never decrease. */
  lemma {:induction false} ExactWithoutOverflow(terms: seq<TermEntry>, coords: seq<PredCoordinates>)
    requires |coords| == |terms| && CardSum(terms, |terms|) < TwoTo64
    requires forall k :: 0 <= k < |coords| ==> coords[k].boundary == CardSum(terms, k + 1) % TwoTo64
    ensures ExactBoundaries(terms, coords)
    ensures forall i, j :: 0 <= i <= j < |coords| ==> coords[i].boundary <= coords[j].boundary
  {
    forall k | 0 <= k < |coords|
      ensures coords[k].boundary == CardSum(terms, k + 1)
    {
      CardSumMono(terms, k + 1, |terms|);
    }
    forall i, j | 0 <= i <= j < |coords|
      ensures coords[i].boundary <= coords[j].boundary
    {
      CardSumMono(terms, i + 1, j + 1);
    }
  }

  /** The search from `i` stops at the first table whose boundary exceeds `pos`. */
  lemma {:induction false} LocateFromFirst(coords: seq<PredCoordinates>, pos: u64, i: nat, k: nat)
    requires i <= k < |coords| && pos < coords[k].boundary
    requires forall j :: i <= j < k ==> coords[j].boundary <= pos
    ensures LocateFrom(coords, pos, i) == Some(k)
    decreases k - i
  {
    if i < k {
      LocateFromFirst(coords, pos, i + 1, k);
    }
  }

  /** With exact boundaries, `getAt` finds table k for `pos` exactly when
      `pos` lies among table k's rows. */
  lemma {:induction false} LocatePartition(terms: seq<TermEntry>, coords: seq<PredCoordinates>, pos: u64, k: nat)
    requires ExactBoundaries(terms, coords) && k < |coords|
    ensures Locate(coords, pos) == Some(k) <==>
      CardSum(terms, k) <= pos < CardSum(terms, k + 1)
  {
    if Locate(coords, pos) == Some(k) && k > 0 {
      assert coords[k - 1].boundary <= pos;
    }
    if CardSum(terms, k) <= pos < CardSum(terms, k + 1) {
      forall j | 0 <= j < k
        ensures coords[j].boundary <= pos
      {
        CardSumMono(terms, j + 1, k);
      }
      LocateFromFirst(coords, pos, 0, k);
    }
  }

  /** With exact boundaries, a position past every table finds nothing. */
  lemma {:induction false} LocatePastEnd(terms: seq<TermEntry>, coords: seq<PredCoordinates>, pos: u64)
    requires ExactBoundaries(terms, coords)
    ensures Locate(coords, pos).None? <==> CardSum(terms, |terms|) <= pos
  {
    var r := Locate(coords, pos);
    if r.Some? {
      CardSumMono(terms, r.value + 1, |terms|);
    } else if |terms| > 0 {
      assert coords[|terms| - 1].boundary <= pos;
    }
  }

  /** The local row `getAt` reads is within the table it found. */
  lemma {:induction false} LocalRowInTable(terms: seq<TermEntry>, coords: seq<PredCoordinates>, pos: u64)
    requires ExactBoundaries(terms, coords) && Locate(coords, pos).Some?
    ensures var k := Locate(coords, pos).value;
      pos - Offset(coords, k) < terms[k].card &&
      pos == CardSum(terms, k) + (pos - Offset(coords, k))
  {
    var k := Locate(coords, pos).value;
    LocatePartition(terms, coords, pos, k);
  }

  // ---------------------------------------------------------------------
  // The batch creator

  /** Where triples come from: the batch file, or the knowledge base.
      `unset` stands for the values the caller's uninitialised registers
      hold when `getAt` finds no table. */
  datatype Source =
    | FromFile(raw: seq<byte>)
    | FromKB(coords: seq<PredCoordinates>, unset: Triple)

  /** The state `getBatch` reads and advances: the shuffled index array,
      the cursor `currentidx` into it, and the feedback that decides
      whether a triple is used. */
  datatype Creator = Creator(
    batchsize: u64,
    filter: bool,
    source: Source,
    indices: seq<u64>,
    currentidx: nat,
    accept: Triple -> bool)

  /** The cursor is within the index array and every index names a record
      of the batch file (any position is acceptable to the knowledge base). */
  predicate Valid(c: Creator)
  {
    c.currentidx <= |c.indices| &&
    (c.source.FromFile? ==>
      forall i :: 0 <= i < |c.indices| ==> (c.indices[i] + 1) * RecordBytes <= |c.source.raw|)
  }

  /** The triple at position `idx` of the source. */
  function Lookup(c: Creator, i: nat): Triple
    requires Valid(c) && i < |c.indices|
  {
    match c.source
    case FromFile(raw) => DecodeRecord(raw, c.indices[i])
    case FromKB(coords, unset) => At(coords, c.indices[i], unset)
  }

  method Fetch(c: Creator, i: nat) returns (t: Triple)
    requires Valid(c) && i < |c.indices|
    ensures t == Lookup(c, i)
  {
    match c.source
    case FromFile(raw) =>
      t := DecodeRecord(raw, c.indices[i]);
    case FromKB(coords, unset) =>
      t := GetAt(coords, c.indices[i], unset);
  }

  /** From a batch file written by the POS scan, the triple at position i
      is the scanned entry that the index names, masked to 40 bits. */
  lemma LookupFromFile(c: Creator, i: nat, es: seq<PosEntry>)
    requires Valid(c) && i < |c.indices|
    requires c.source == FromFile(EncodeAll(es)) && c.indices[i] < |es|
    ensures Lookup(c, i) == Masked(FromPos(es[c.indices[i]]))
  {
    DecodeEncodeAll(es, c.indices[i]);
  }

  /** From the knowledge base with exact boundaries, the triple at
      position i carries the predicate of the table whose rows cover the
      index, read at the index less the rows of the tables before it; an
      index past every table leaves the caller's registers as they were. */
  lemma LookupFromKB(c: Creator, i: nat, terms: seq<TermEntry>, k: nat)
    requires Valid(c) && i < |c.indices| && c.source.FromKB?
    requires ExactBoundaries(terms, c.source.coords)
    ensures var coords, idx := c.source.coords, c.indices[i];
      k < |coords| && CardSum(terms, k) <= idx < CardSum(terms, k + 1) ==>
        var os := coords[k].reader(idx - CardSum(terms, k));
        Lookup(c, i) == Triple(os.1, coords[k].pred, os.0)
    ensures CardSum(terms, |terms|) <= c.indices[i] ==> Lookup(c, i) == c.source.unset
  {
    var coords, idx := c.source.coords, c.indices[i];
    if k < |coords| {
      LocatePartition(terms, coords, idx, k);
    }
    LocatePastEnd(terms, coords, idx);
  }


  /** The two acceptance tests: the three-vector overload keeps a triple
      when filtering is off or the feedback accepts it; the flat overload
      as written keeps it only when filtering is on and the feedback
      accepts it. */
  datatype Rule = Guarded | FlatAsWritten

  predicate Keeps(c: Creator, rule: Rule, t: Triple)
  {
    match rule
    case Guarded => !c.filter || c.accept(t)
    case FlatAsWritten => c.filter && c.accept(t)
  }

  /** The triples kept among the examined positions `lo` to `hi`, in order. */
  function Kept(c: Creator, rule: Rule, lo: nat, hi: nat): (r: seq<Triple>)
    requires Valid(c) && lo <= hi <= |c.indices|
    ensures |r| <= hi - lo
    decreases hi
  {
    if hi == lo then []
    else
      var t := Lookup(c, hi - 1);
      Kept(c, rule, lo, hi - 1) + (if Keeps(c, rule, t) then [t] else [])
  }

  lemma {:induction false} KeptMono(c: Creator, rule: Rule, lo: nat, a: nat, b: nat)
    requires Valid(c) && lo <= a <= b <= |c.indices|
    ensures |Kept(c, rule, lo, a)| <= |Kept(c, rule, lo, b)|
    decreases b
  {
    if a < b {
      KeptMono(c, rule, lo, a, b - 1);
    }
  }

  /** Where one call stops: past the last index, or as soon as the batch
      is full, and no later. */
  predicate Stops(c: Creator, rule: Rule, next: nat)
    requires Valid(c)
  {
    c.currentidx <= next <= |c.indices| &&
    |Kept(c, rule, c.currentidx, next)| <= c.batchsize &&
    (next == |c.indices| || |Kept(c, rule, c.currentidx, next)| == c.batchsize) &&
    (next > c.currentidx ==> |Kept(c, rule, c.currentidx, next - 1)| < c.batchsize)
  }

  /** The stopping point is determined by the state. */
  lemma {:induction false} StopsUnique(c: Creator, rule: Rule, n1: nat, n2: nat)
    requires Valid(c) && Stops(c, rule, n1) && Stops(c, rule, n2)
    ensures n1 == n2
  {
    if n1 < n2 {
      KeptMono(c, rule, c.currentidx, n1, n2 - 1);
    } else if n2 < n1 {
      KeptMono(c, rule, c.currentidx, n2, n1 - 1);
    }
  }

  /** The loop shared by both overloads: examine indices from the cursor,
      keep the triples the rule accepts, until the batch is full or the
      indices run out. */
  method Select(c: Creator, rule: Rule) returns (written: seq<Triple>, next: nat)
    requires Valid(c)
    ensures Stops(c, rule, next)
    ensures written == Kept(c, rule, c.currentidx, next)
  {
    written := [];
    next := c.currentidx;
    while |written| < c.batchsize && next < |c.indices|
      invariant c.currentidx <= next <= |c.indices|
      invariant written == Kept(c, rule, c.currentidx, next)
      invariant |written| <= c.batchsize
      invariant next > c.currentidx ==> |Kept(c, rule, c.currentidx, next - 1)| < c.batchsize
    {
      var t := Fetch(c, next);
      if Keeps(c, rule, t) {
        written := written + [t];
      }
      next := next + 1;
    }
  }

  /** The three-vector `getBatch`: subjects, predicates and objects of the
      kept triples in three parallel outputs, the advanced cursor, and
      whether anything was written. */
  method GetBatch3(c: Creator) returns (subjects: seq<u64>, preds: seq<u64>, objects: seq<u64>, ok: bool, next: nat)
    requires Valid(c)
    ensures Stops(c, Guarded, next)
    ensures var w := Kept(c, Guarded, c.currentidx, next);
      |subjects| == |preds| == |objects| == |w| <= c.batchsize &&
      forall j :: 0 <= j < |w| ==> subjects[j] == w[j].s && preds[j] == w[j].p && objects[j] == w[j].o
    ensures ok <==> |subjects| > 0
  {
    var w;
    w, next := Select(c, Guarded);
    subjects := seq(|w|, j requires 0 <= j < |w| => w[j].s);
    preds := seq(|w|, j requires 0 <= j < |w| => w[j].p);
    objects := seq(|w|, j requires 0 <= j < |w| => w[j].o);
    ok := |w| > 0;
  }

  /** The flat `getBatch` as written: only a filtered, accepted triple is
      written, so with filtering off it writes nothing and still consumes
      every remaining index. */
  method GetBatchFlatAsWritten(c: Creator) returns (output: seq<u64>, ok: bool, next: nat)
    requires Valid(c) && c.batchsize * 3 < TwoTo64
    ensures Stops(c, FlatAsWritten, next)
    ensures output == Flat(Kept(c, FlatAsWritten, c.currentidx, next))
    ensures ok <==> |output| > 0
    ensures !c.filter && c.batchsize > 0 ==> output == [] && !ok && next == |c.indices|
  {
    var w;
    w, next := Select(c, FlatAsWritten);
    output := Flat(w);
    ok := |w| > 0;
    if !c.filter {
      FlatAsWrittenKeepsNothing(c, c.currentidx, next);
    }
  }

  /** The flat `getBatch` with the acceptance test of the three-vector
      overload: s, p and o of each kept triple, three values per triple. */
  method GetBatchFlat(c: Creator) returns (output: seq<u64>, ok: bool, next: nat)
    requires Valid(c) && c.batchsize * 3 < TwoTo64
    ensures Stops(c, Guarded, next)
    ensures output == Flat(Kept(c, Guarded, c.currentidx, next))
    ensures |output| <= 3 * c.batchsize
    ensures ok <==> |output| > 0
  {
    var w;
    w, next := Select(c, Guarded);
    output := Flat(w);
    ok := |w| > 0;
  }

  /** As written, the flat overload keeps nothing when filtering is off. */
  lemma {:induction false} FlatAsWrittenKeepsNothing(c: Creator, lo: nat, hi: nat)
    requires Valid(c) && lo <= hi <= |c.indices| && !c.filter
    ensures Kept(c, FlatAsWritten, lo, hi) == []
    decreases hi
  {
    if hi > lo {
      FlatAsWrittenKeepsNothing(c, lo, hi - 1);
    }
  }

  /** With filtering off every examined index is written, in order. */
  lemma {:induction false} UnfilteredKeepsAll(c: Creator, lo: nat, hi: nat)
    requires Valid(c) && lo <= hi <= |c.indices| && !c.filter
    ensures Kept(c, Guarded, lo, hi) == seq(hi - lo, i requires 0 <= i < hi - lo => Lookup(c, lo + i))
    decreases hi
  {
    if hi > lo {
      UnfilteredKeepsAll(c, lo, hi - 1);
    }
  }

  /** With filtering off, a call takes the next `batchsize` indices, or
      all that remain. */
  lemma {:induction false} UnfilteredBatchSize(c: Creator, next: nat)
    requires Valid(c) && !c.filter && Stops(c, Guarded, next)
    ensures next - c.currentidx == if c.currentidx + c.batchsize <= |c.indices| then c.batchsize as int else |c.indices| - c.currentidx
  {
    UnfilteredKeepsAll(c, c.currentidx, next);
    if next > c.currentidx {
      UnfilteredKeepsAll(c, c.currentidx, next - 1);
    }
  }

  /** A one-triple batch file and a creator reading it unfiltered. */
  function OneTripleCreator(): Creator
  {
    Creator(1, false, FromFile(EncodeTriple(Triple(1, 2, 3))), [0], 0, t => false)
  }

  /** The two overloads disagree on the same state: the three-vector one
      writes the triple, the flat one as written drops it. */
  lemma OverloadsDisagree()
    ensures Valid(OneTripleCreator())
    ensures Kept(OneTripleCreator(), Guarded, 0, 1) == [Triple(1, 2, 3)]
    ensures Kept(OneTripleCreator(), FlatAsWritten, 0, 1) == []
  {
    var c := OneTripleCreator();
    DecodeEncodeTriple(Triple(1, 2, 3));
    assert Lookup(c, 0) == Triple(1, 2, 3);
  }
}
