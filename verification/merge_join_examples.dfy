/** Concrete runs of the merge join: the worked examples of the operator's
    behaviour, and the four places where the join as written loses a tuple
    when an optional side runs out (three parked in a shadow register, one
    bound at the end of a spooled block), each beside the corrected run
    (`restoreShadow`).  Every run is a `first()` followed
    by `next()` calls up to the first return of 0, stated as the exact list
    of what each call shows its caller; the intermediate states are spelled
    out so that each call is checked on its own.  The lemmas that drive a
    run from an intermediate state take the step budget as a parameter
    pinned by `requires fuel == 20` rather than the literal 20: with every
    argument a literal, the verifier would try to evaluate the whole run in
    one go instead of following the spelled-out states. */
module MergeJoinExamples {
  import opened Base
  import opened MergeJoin
  import opened MergeJoinProofs
  import opened MergeJoinTermination

  /** A join over the given children, before `first()`. */
  function Fresh(cfg: Config, left: seq<Row>, right: seq<Row>): Join
  {
    Join(cfg, Input(left, 0), Input(right, 0),
         Row(0, 0, []), Row(0, 0, []), Row(0, 0, []), Row(0, 0, []),
         [], 0, false, Empty, 0)
  }

  /** The state `first()` hands to the scan loop when both children
      produce a first tuple. */
  function Bound(j: Join): Join
    requires |j.left.rows| > 0 && |j.right.rows| > 0
  {
    j.(left := j.left.(pos := 1), right := j.right.(pos := 1),
       lcur := j.left.rows[0], rcur := j.right.rows[0],
       state := ScanHasBoth, observed := 0)
  }

  /** `first()` binds both first tuples and runs the scan loop from there. */
  lemma FirstBindsBoth(j: Join, fuel: nat)
    requires |j.left.rows| > 0 && j.left.rows[0].count > 0
    requires |j.right.rows| > 0 && j.right.rows[0].count > 0
    ensures First(j, fuel) == Next(Bound(j), fuel)
  {
  }

  /** One more call in front of a known run. */
  lemma DriveCall(j: Join, n: nat, fuel: nat, o: Outcome, last: Join, es: seq<Emission>)
    requires n > 0 && |es| > 0 && Next(j, fuel) == Some(o) && es[0] == Shown(o)
    requires Drive(o.after, n - 1, fuel) == Some((last, es[1..]))
    ensures Drive(j, n, fuel) == Some((last, es))
  {
    assert es == [es[0]] + es[1..];
  }

  /** A run of one call. */
  lemma DriveLast(j: Join, fuel: nat, o: Outcome, e: Emission)
    requires Next(j, fuel) == Some(o) && e == Shown(o)
    ensures Drive(j, 1, fuel) == Some((o.after, [e]))
  {
    assert [Shown(o)] + [] == [e];
  }

  /** Padding a one-column row. */
  lemma PadSingle(r: Row, sentinel: u64)
    requires |r.tail| == 1
    ensures Pad(r, sentinel) == Row(r.count, sentinel, [sentinel])
  {
    assert Pad(r, sentinel).tail == [sentinel];
  }

  /** `first()` alone. */
  lemma SessionOnly(j: Join, fuel: nat, o: Outcome, e: Emission)
    requires First(j, fuel) == Some(o) && e == Shown(o)
    ensures Session(j, 0, fuel) == Some((o.after, [e]))
  {
    assert [Shown(o)] + [] == [e];
  }

  /** `first()` in front of a known run. */
  lemma SessionCall(j: Join, n: nat, fuel: nat, o: Outcome, last: Join, es: seq<Emission>)
    requires |es| > 0 && First(j, fuel) == Some(o) && es[0] == Shown(o)
    requires Drive(o.after, n, fuel) == Some((last, es[1..]))
    ensures Session(j, n, fuel) == Some((last, es))
  {
    assert es == [es[0]] + es[1..];
  }

  const Inner := Config(false, false, false, MaxU64, false)
  const LeftOuter := Config(true, false, false, MaxU64, false)
  const RightOuter := Config(false, true, false, MaxU64, false)

  const OneMatchLeft: seq<Row> := [Row(1, 1, []), Row(1, 2, [])]
  const OneMatchRight: seq<Row> := [Row(1, 2, []), Row(1, 3, [])]
  const OneMatchStart := Fresh(Inner, OneMatchLeft, OneMatchRight)

  /** Keys 1, 2 against 2, 3, inner: the one common key gives one match of
      multiplicity 1, then the end. */
  lemma OneMatch()
    ensures Session(OneMatchStart, 1, 20) == Some((OneMatchAfter1, [
      Emission(1, Matched, Row(1, 2, []), Row(1, 2, [])),
      Emission(0, Silent, Row(1, 2, []), Row(1, 3, []))]))
  {
    OneMatchCall0();
    FirstBindsBoth(OneMatchStart, 20);
    OneMatchFrom0(20);
    SessionCall(OneMatchStart, 1, 20, Return(OneMatchAfter0, 1, Matched), OneMatchAfter1, [
      Emission(1, Matched, Row(1, 2, []), Row(1, 2, [])),
      Emission(0, Silent, Row(1, 2, []), Row(1, 3, []))]);
  }

  const OneMatchAfter0 :=
    Join(Inner,
         Input(OneMatchLeft, 2), Input(OneMatchRight, 1),
         Row(1, 2, []), Row(1, 2, []), Row(0, 2, []), Row(0, 0, []),
         [], 0, false, LoopEmptyLeft, 1)

  const OneMatchMid0a :=
    Join(Inner,
         Input(OneMatchLeft, 1), Input(OneMatchRight, 1),
         Row(1, 1, []), Row(1, 2, []), Row(0, 0, []), Row(0, 0, []),
         [], 0, false, ScanStepLeft, 0)

  const OneMatchAfter1 :=
    Join(Inner,
         Input(OneMatchLeft, 2), Input(OneMatchRight, 2),
         Row(1, 2, []), Row(1, 3, []), Row(0, 2, []), Row(0, 0, []),
         [], 0, false, Empty, 1)

  lemma OneMatchCall0()
    ensures Next(Bound(OneMatchStart), 20) == Some(Return(OneMatchAfter0, 1, Matched))
  {
    assert Step(Bound(OneMatchStart)) == Continue(OneMatchMid0a);
    NextContinues(Bound(OneMatchStart), OneMatchMid0a, 20);
  }

  lemma OneMatchCall1()
    ensures Next(OneMatchAfter0, 20) == Some(Return(OneMatchAfter1, 0, Silent))
  {
  }

  lemma OneMatchFrom0(fuel: nat)
    requires fuel == 20
    ensures Drive(OneMatchAfter0, 1, fuel) == Some((OneMatchAfter1, [
      Emission(0, Silent, Row(1, 2, []), Row(1, 3, []))]))
  {
    OneMatchCall1();
    DriveLast(OneMatchAfter0, fuel, Return(OneMatchAfter1, 0, Silent),
      Emission(0, Silent, Row(1, 2, []), Row(1, 3, [])));
  }

  const MultipliedLeft: seq<Row> := [Row(3, 5, [])]
  const MultipliedRight: seq<Row> := [Row(2, 5, [])]
  const MultipliedStart := Fresh(Inner, MultipliedLeft, MultipliedRight)

  /** Counts multiply: a key seen 3 times on the left and 2 times on the
      right is one match of multiplicity 6. */
  lemma Multiplied()
    ensures Session(MultipliedStart, 1, 20) == Some((MultipliedAfter1, [
      Emission(6, Matched, Row(3, 5, []), Row(2, 5, [])),
      Emission(0, Silent, Row(3, 5, []), Row(0, 5, []))]))
  {
    MultipliedCall0();
    FirstBindsBoth(MultipliedStart, 20);
    MultipliedFrom0(20);
    SessionCall(MultipliedStart, 1, 20, Return(MultipliedAfter0, 6, Matched), MultipliedAfter1, [
      Emission(6, Matched, Row(3, 5, []), Row(2, 5, [])),
      Emission(0, Silent, Row(3, 5, []), Row(0, 5, []))]);
  }

  const MultipliedAfter0 :=
    Join(Inner,
         Input(MultipliedLeft, 1), Input(MultipliedRight, 1),
         Row(3, 5, []), Row(2, 5, []), Row(0, 5, []), Row(0, 0, []),
         [], 0, false, LoopEmptyLeft, 6)

  const MultipliedAfter1 :=
    Join(Inner,
         Input(MultipliedLeft, 1), Input(MultipliedRight, 1),
         Row(3, 5, []), Row(0, 5, []), Row(0, 5, []), Row(0, 0, []),
         [], 0, false, Empty, 6)

  lemma MultipliedCall0()
    ensures Next(Bound(MultipliedStart), 20) == Some(Return(MultipliedAfter0, 6, Matched))
  {
  }

  lemma MultipliedCall1()
    ensures Next(MultipliedAfter0, 20) == Some(Return(MultipliedAfter1, 0, Silent))
  {
  }

  lemma MultipliedFrom0(fuel: nat)
    requires fuel == 20
    ensures Drive(MultipliedAfter0, 1, fuel) == Some((MultipliedAfter1, [
      Emission(0, Silent, Row(3, 5, []), Row(0, 5, []))]))
  {
    MultipliedCall1();
    DriveLast(MultipliedAfter0, fuel, Return(MultipliedAfter1, 0, Silent),
      Emission(0, Silent, Row(3, 5, []), Row(0, 5, [])));
  }

  const LeftRunLeft: seq<Row> := [Row(1, 1, [10]), Row(1, 1, [11])]
  const LeftRunRight: seq<Row> := [Row(1, 1, [20])]
  const LeftRunStart := Fresh(Inner, LeftRunLeft, LeftRunRight)

  /** A left run of two tuples against one right tuple: two matches, each
      binding the right tuple. */
  lemma LeftRun()
    ensures Session(LeftRunStart, 2, 20) == Some((LeftRunAfter2, [
      Emission(1, Matched, Row(1, 1, [10]), Row(1, 1, [20])),
      Emission(1, Matched, Row(1, 1, [11]), Row(1, 1, [20])),
      Emission(0, Silent, Row(0, 1, [11]), Row(1, 1, [20]))]))
  {
    LeftRunCall0();
    FirstBindsBoth(LeftRunStart, 20);
    LeftRunFrom0(20);
    SessionCall(LeftRunStart, 2, 20, Return(LeftRunAfter0, 1, Matched), LeftRunAfter2, [
      Emission(1, Matched, Row(1, 1, [10]), Row(1, 1, [20])),
      Emission(1, Matched, Row(1, 1, [11]), Row(1, 1, [20])),
      Emission(0, Silent, Row(0, 1, [11]), Row(1, 1, [20]))]);
  }

  const LeftRunAfter0 :=
    Join(Inner,
         Input(LeftRunLeft, 2), Input(LeftRunRight, 1),
         Row(1, 1, [10]), Row(1, 1, [20]), Row(1, 1, [11]), Row(0, 1, [20]),
         [], 0, false, LoopEmptyRightHasData, 1)

  const LeftRunAfter1 :=
    Join(Inner,
         Input(LeftRunLeft, 2), Input(LeftRunRight, 1),
         Row(1, 1, [11]), Row(1, 1, [20]), Row(1, 1, [10]), Row(0, 1, [20]),
         [], 0, false, LoopEmptyRight, 2)

  const LeftRunAfter2 :=
    Join(Inner,
         Input(LeftRunLeft, 2), Input(LeftRunRight, 1),
         Row(0, 1, [11]), Row(1, 1, [20]), Row(1, 1, [10]), Row(0, 1, [20]),
         [], 0, false, Empty, 2)

  lemma LeftRunCall0()
    ensures Next(Bound(LeftRunStart), 20) == Some(Return(LeftRunAfter0, 1, Matched))
  {
  }

  lemma LeftRunCall1()
    ensures Next(LeftRunAfter0, 20) == Some(Return(LeftRunAfter1, 1, Matched))
  {
  }

  lemma LeftRunCall2()
    ensures Next(LeftRunAfter1, 20) == Some(Return(LeftRunAfter2, 0, Silent))
  {
  }

  lemma LeftRunFrom1(fuel: nat)
    requires fuel == 20
    ensures Drive(LeftRunAfter1, 1, fuel) == Some((LeftRunAfter2, [
      Emission(0, Silent, Row(0, 1, [11]), Row(1, 1, [20]))]))
  {
    LeftRunCall2();
    DriveLast(LeftRunAfter1, fuel, Return(LeftRunAfter2, 0, Silent),
      Emission(0, Silent, Row(0, 1, [11]), Row(1, 1, [20])));
  }

  lemma LeftRunFrom0(fuel: nat)
    requires fuel == 20
    ensures Drive(LeftRunAfter0, 2, fuel) == Some((LeftRunAfter2, [
      Emission(1, Matched, Row(1, 1, [11]), Row(1, 1, [20])),
      Emission(0, Silent, Row(0, 1, [11]), Row(1, 1, [20]))]))
  {
    LeftRunCall1();
    LeftRunFrom1(fuel);
    DriveCall(LeftRunAfter0, 2, fuel, Return(LeftRunAfter1, 1, Matched), LeftRunAfter2, [
      Emission(1, Matched, Row(1, 1, [11]), Row(1, 1, [20])),
      Emission(0, Silent, Row(0, 1, [11]), Row(1, 1, [20]))]);
  }

  const CrossLeft: seq<Row> := [Row(1, 1, [10]), Row(1, 1, [11])]
  const CrossRight: seq<Row> := [Row(1, 1, [20]), Row(1, 1, [21])]
  const CrossStart := Fresh(Inner, CrossLeft, CrossRight)

  /** Two runs of two: the right run is spooled and replayed, giving all four
      pairs in left-major order. */
  lemma Cross()
    ensures Session(CrossStart, 4, 20) == Some((CrossAfter4, [
      Emission(1, Matched, Row(1, 1, [10]), Row(1, 1, [20])),
      Emission(1, Matched, Row(1, 1, [10]), Row(1, 1, [21])),
      Emission(1, Matched, Row(1, 1, [11]), Row(1, 1, [20])),
      Emission(1, Matched, Row(1, 1, [11]), Row(1, 1, [21])),
      Emission(0, Silent, Row(0, 1, [11]), Row(1, 1, [21]))]))
  {
    CrossCall0();
    FirstBindsBoth(CrossStart, 20);
    CrossFrom0(20);
    SessionCall(CrossStart, 4, 20, Return(CrossAfter0, 1, Matched), CrossAfter4, [
      Emission(1, Matched, Row(1, 1, [10]), Row(1, 1, [20])),
      Emission(1, Matched, Row(1, 1, [10]), Row(1, 1, [21])),
      Emission(1, Matched, Row(1, 1, [11]), Row(1, 1, [20])),
      Emission(1, Matched, Row(1, 1, [11]), Row(1, 1, [21])),
      Emission(0, Silent, Row(0, 1, [11]), Row(1, 1, [21]))]);
  }

  const CrossAfter0 :=
    Join(Inner,
         Input(CrossLeft, 2), Input(CrossRight, 2),
         Row(1, 1, [10]), Row(1, 1, [20]), Row(1, 1, [11]), Row(1, 1, [20]),
         [Row(1, 1, [20]), Row(1, 1, [21])], 1, true, LoopSpooledRightEmpty, 1)

  const CrossMid0a :=
    Join(Inner,
         Input(CrossLeft, 2), Input(CrossRight, 2),
         Row(1, 1, [10]), Row(0, 1, [21]), Row(1, 1, [11]), Row(1, 1, [20]),
         [Row(1, 1, [20]), Row(1, 1, [21])], 0, true, LoopSpooledRightEmpty, 0)

  const CrossAfter1 :=
    Join(Inner,
         Input(CrossLeft, 2), Input(CrossRight, 2),
         Row(1, 1, [10]), Row(1, 1, [21]), Row(1, 1, [11]), Row(1, 1, [20]),
         [Row(1, 1, [20]), Row(1, 1, [21])], 2, true, LoopSpooledRightEmpty, 2)

  const CrossAfter2 :=
    Join(Inner,
         Input(CrossLeft, 2), Input(CrossRight, 2),
         Row(1, 1, [11]), Row(1, 1, [20]), Row(1, 1, [10]), Row(1, 1, [20]),
         [Row(1, 1, [20]), Row(1, 1, [21])], 1, false, LoopSpooledRightEmpty, 3)

  const CrossMid2a :=
    Join(Inner,
         Input(CrossLeft, 2), Input(CrossRight, 2),
         Row(1, 1, [11]), Row(1, 1, [21]), Row(1, 1, [10]), Row(1, 1, [20]),
         [Row(1, 1, [20]), Row(1, 1, [21])], 0, false, LoopSpooledRightEmpty, 2)

  const CrossAfter3 :=
    Join(Inner,
         Input(CrossLeft, 2), Input(CrossRight, 2),
         Row(1, 1, [11]), Row(1, 1, [21]), Row(1, 1, [10]), Row(1, 1, [20]),
         [Row(1, 1, [20]), Row(1, 1, [21])], 2, false, LoopSpooledRightEmpty, 4)

  const CrossAfter4 :=
    Join(Inner,
         Input(CrossLeft, 2), Input(CrossRight, 2),
         Row(0, 1, [11]), Row(1, 1, [21]), Row(1, 1, [10]), Row(1, 1, [20]),
         [Row(1, 1, [20]), Row(1, 1, [21])], 2, false, Empty, 4)

  lemma CrossCall0()
    ensures Next(Bound(CrossStart), 20) == Some(Return(CrossAfter0, 1, Matched))
  {
    assert Step(Bound(CrossStart)) == Continue(CrossMid0a);
    NextContinues(Bound(CrossStart), CrossMid0a, 20);
  }

  lemma CrossCall1()
    ensures Next(CrossAfter0, 20) == Some(Return(CrossAfter1, 1, Matched))
  {
  }

  lemma CrossCall2()
    ensures Next(CrossAfter1, 20) == Some(Return(CrossAfter2, 1, Matched))
  {
    assert Step(CrossAfter1) == Continue(CrossMid2a);
    NextContinues(CrossAfter1, CrossMid2a, 20);
  }

  lemma CrossCall3()
    ensures Next(CrossAfter2, 20) == Some(Return(CrossAfter3, 1, Matched))
  {
  }

  lemma CrossCall4()
    ensures Next(CrossAfter3, 20) == Some(Return(CrossAfter4, 0, Silent))
  {
  }

  lemma CrossFrom3(fuel: nat)
    requires fuel == 20
    ensures Drive(CrossAfter3, 1, fuel) == Some((CrossAfter4, [
      Emission(0, Silent, Row(0, 1, [11]), Row(1, 1, [21]))]))
  {
    CrossCall4();
    DriveLast(CrossAfter3, fuel, Return(CrossAfter4, 0, Silent),
      Emission(0, Silent, Row(0, 1, [11]), Row(1, 1, [21])));
  }

  lemma CrossFrom2(fuel: nat)
    requires fuel == 20
    ensures Drive(CrossAfter2, 2, fuel) == Some((CrossAfter4, [
      Emission(1, Matched, Row(1, 1, [11]), Row(1, 1, [21])),
      Emission(0, Silent, Row(0, 1, [11]), Row(1, 1, [21]))]))
  {
    CrossCall3();
    CrossFrom3(fuel);
    DriveCall(CrossAfter2, 2, fuel, Return(CrossAfter3, 1, Matched), CrossAfter4, [
      Emission(1, Matched, Row(1, 1, [11]), Row(1, 1, [21])),
      Emission(0, Silent, Row(0, 1, [11]), Row(1, 1, [21]))]);
  }

  lemma CrossFrom1(fuel: nat)
    requires fuel == 20
    ensures Drive(CrossAfter1, 3, fuel) == Some((CrossAfter4, [
      Emission(1, Matched, Row(1, 1, [11]), Row(1, 1, [20])),
      Emission(1, Matched, Row(1, 1, [11]), Row(1, 1, [21])),
      Emission(0, Silent, Row(0, 1, [11]), Row(1, 1, [21]))]))
  {
    CrossCall2();
    CrossFrom2(fuel);
    DriveCall(CrossAfter1, 3, fuel, Return(CrossAfter2, 1, Matched), CrossAfter4, [
      Emission(1, Matched, Row(1, 1, [11]), Row(1, 1, [20])),
      Emission(1, Matched, Row(1, 1, [11]), Row(1, 1, [21])),
      Emission(0, Silent, Row(0, 1, [11]), Row(1, 1, [21]))]);
  }

  lemma CrossFrom0(fuel: nat)
    requires fuel == 20
    ensures Drive(CrossAfter0, 4, fuel) == Some((CrossAfter4, [
      Emission(1, Matched, Row(1, 1, [10]), Row(1, 1, [21])),
      Emission(1, Matched, Row(1, 1, [11]), Row(1, 1, [20])),
      Emission(1, Matched, Row(1, 1, [11]), Row(1, 1, [21])),
      Emission(0, Silent, Row(0, 1, [11]), Row(1, 1, [21]))]))
  {
    CrossCall1();
    CrossFrom1(fuel);
    DriveCall(CrossAfter0, 4, fuel, Return(CrossAfter1, 1, Matched), CrossAfter4, [
      Emission(1, Matched, Row(1, 1, [10]), Row(1, 1, [21])),
      Emission(1, Matched, Row(1, 1, [11]), Row(1, 1, [20])),
      Emission(1, Matched, Row(1, 1, [11]), Row(1, 1, [21])),
      Emission(0, Silent, Row(0, 1, [11]), Row(1, 1, [21]))]);
  }

  const NoLeftRowsLeft: seq<Row> := []
  const NoLeftRowsRight: seq<Row> := [Row(4, 1, [20])]
  const NoLeftRowsStart := Fresh(LeftOuter, NoLeftRowsLeft, NoLeftRowsRight)

  /** An empty optional left side: the right tuple is emitted unmatched with
      its own count against padded left registers. */
  lemma NoLeftRows()
    ensures Session(NoLeftRowsStart, 1, 20) == Some((NoLeftRowsAfter1, [
      Emission(4, RightOnly, Row(0, MaxU64, []), Row(4, 1, [20])),
      Emission(0, Silent, Row(0, MaxU64, []), Row(0, 1, [20]))]))
  {
    NoLeftRowsCall0();
    NoLeftRowsFrom0(20);
    SessionCall(NoLeftRowsStart, 1, 20, Return(NoLeftRowsAfter0, 4, RightOnly), NoLeftRowsAfter1, [
      Emission(4, RightOnly, Row(0, MaxU64, []), Row(4, 1, [20])),
      Emission(0, Silent, Row(0, MaxU64, []), Row(0, 1, [20]))]);
  }

  const NoLeftRowsAfter0 :=
    Join(LeftOuter,
         Input(NoLeftRowsLeft, 0), Input(NoLeftRowsRight, 1),
         Row(0, MaxU64, []), Row(4, 1, [20]), Row(0, 0, []), Row(0, 0, []),
         [], 0, false, LoopEmptyLeft, 4)

  const NoLeftRowsAfter1 :=
    Join(LeftOuter,
         Input(NoLeftRowsLeft, 0), Input(NoLeftRowsRight, 1),
         Row(0, MaxU64, []), Row(0, 1, [20]), Row(0, 0, []), Row(0, 0, []),
         [], 0, false, Empty, 4)

  lemma NoLeftRowsCall0()
    ensures First(NoLeftRowsStart, 20) == Some(Return(NoLeftRowsAfter0, 4, RightOnly))
  {
  }

  lemma NoLeftRowsCall1()
    ensures Next(NoLeftRowsAfter0, 20) == Some(Return(NoLeftRowsAfter1, 0, Silent))
  {
  }

  lemma NoLeftRowsFrom0(fuel: nat)
    requires fuel == 20
    ensures Drive(NoLeftRowsAfter0, 1, fuel) == Some((NoLeftRowsAfter1, [
      Emission(0, Silent, Row(0, MaxU64, []), Row(0, 1, [20]))]))
  {
    NoLeftRowsCall1();
    DriveLast(NoLeftRowsAfter0, fuel, Return(NoLeftRowsAfter1, 0, Silent),
      Emission(0, Silent, Row(0, MaxU64, []), Row(0, 1, [20])));
  }

  const DisjointLeft: seq<Row> := [Row(1, 1, []), Row(1, 9, [])]
  const DisjointRight: seq<Row> := [Row(1, 5, [])]
  const DisjointStart := Fresh(Inner, DisjointLeft, DisjointRight)

  /** No common key, inner: the very first call reports the end. */
  lemma Disjoint()
    ensures Session(DisjointStart, 0, 20) == Some((DisjointAfter0, [Emission(0, Silent, Row(1, 9, []), Row(0, 5, []))]))
  {
    DisjointCall0();
    FirstBindsBoth(DisjointStart, 20);
    SessionOnly(DisjointStart, 20, Return(DisjointAfter0, 0, Silent), Emission(0, Silent, Row(1, 9, []), Row(0, 5, [])));
  }

  const DisjointAfter0 :=
    Join(Inner,
         Input(DisjointLeft, 2), Input(DisjointRight, 1),
         Row(1, 9, []), Row(0, 5, []), Row(0, 0, []), Row(0, 0, []),
         [], 0, false, ScanStepRight, 0)

  const DisjointMid0a :=
    Join(Inner,
         Input(DisjointLeft, 1), Input(DisjointRight, 1),
         Row(1, 1, []), Row(1, 5, []), Row(0, 0, []), Row(0, 0, []),
         [], 0, false, ScanStepLeft, 0)

  const DisjointMid0b :=
    Join(Inner,
         Input(DisjointLeft, 2), Input(DisjointRight, 1),
         Row(1, 9, []), Row(1, 5, []), Row(0, 0, []), Row(0, 0, []),
         [], 0, false, ScanStepRight, 0)

  lemma DisjointCall0()
    ensures Next(Bound(DisjointStart), 20) == Some(Return(DisjointAfter0, 0, Silent))
  {
    assert Step(Bound(DisjointStart)) == Continue(DisjointMid0a);
    NextContinues(Bound(DisjointStart), DisjointMid0a, 20);
    assert Step(DisjointMid0a) == Continue(DisjointMid0b);
    NextContinues(DisjointMid0a, DisjointMid0b, 19);
  }

  const LeftShadowLostLeft: seq<Row> := [Row(1, 1, [10]), Row(1, 1, [11])]
  const LeftShadowLostRight: seq<Row> := [Row(1, 1, [20]), Row(1, 2, [21])]
  const LeftShadowLostStart := Fresh(LeftOuter, LeftShadowLostLeft, LeftShadowLostRight)

  /** As written, left optional: the left run ends the left child while the
      right tuple with key 2 waits in the right shadow; the scan then pulls
      the right child past it and reports the end, so that tuple is never
      emitted. */
  lemma LeftShadowLost()
    ensures Session(LeftShadowLostStart, 2, 20) == Some((LeftShadowLostAfter2, [
      Emission(1, Matched, Row(1, 1, [10]), Row(1, 1, [20])),
      Emission(1, Matched, Row(1, 1, [11]), Row(1, 1, [20])),
      Emission(0, Silent, Row(0, MaxU64, [MaxU64]), Row(0, 1, [20]))]))
  {
    LeftShadowLostCall0();
    FirstBindsBoth(LeftShadowLostStart, 20);
    LeftShadowLostFrom0(20);
    SessionCall(LeftShadowLostStart, 2, 20, Return(LeftShadowLostAfter0, 1, Matched), LeftShadowLostAfter2, [
      Emission(1, Matched, Row(1, 1, [10]), Row(1, 1, [20])),
      Emission(1, Matched, Row(1, 1, [11]), Row(1, 1, [20])),
      Emission(0, Silent, Row(0, MaxU64, [MaxU64]), Row(0, 1, [20]))]);
  }

  const LeftShadowLostAfter0 :=
    Join(LeftOuter,
         Input(LeftShadowLostLeft, 2), Input(LeftShadowLostRight, 2),
         Row(1, 1, [10]), Row(1, 1, [20]), Row(1, 1, [11]), Row(1, 2, [21]),
         [], 0, false, LoopEqualLeftHasData, 1)

  const LeftShadowLostAfter1 :=
    Join(LeftOuter,
         Input(LeftShadowLostLeft, 2), Input(LeftShadowLostRight, 2),
         Row(1, 1, [11]), Row(1, 1, [20]), Row(1, 1, [10]), Row(1, 2, [21]),
         [], 0, false, LoopEqualLeft, 2)

  const LeftShadowLostAfter2 :=
    Join(LeftOuter,
         Input(LeftShadowLostLeft, 2), Input(LeftShadowLostRight, 2),
         Row(0, MaxU64, [MaxU64]), Row(0, 1, [20]), Row(1, 1, [10]), Row(1, 2, [21]),
         [], 0, false, ScanStepRight, 2)

  const LeftShadowLostMid2a :=
    Join(LeftOuter,
         Input(LeftShadowLostLeft, 2), Input(LeftShadowLostRight, 2),
         Row(0, MaxU64, [MaxU64]), Row(1, 1, [20]), Row(1, 1, [10]), Row(1, 2, [21]),
         [], 0, false, ScanStepRight, 2)

  lemma LeftShadowLostCall0()
    ensures Next(Bound(LeftShadowLostStart), 20) == Some(Return(LeftShadowLostAfter0, 1, Matched))
  {
  }

  lemma LeftShadowLostCall1()
    ensures Next(LeftShadowLostAfter0, 20) == Some(Return(LeftShadowLostAfter1, 1, Matched))
  {
  }

  lemma LeftShadowLostCall2()
    ensures Next(LeftShadowLostAfter1, 20) == Some(Return(LeftShadowLostAfter2, 0, Silent))
  {
    assert Step(LeftShadowLostAfter1) == Continue(LeftShadowLostMid2a);
    NextContinues(LeftShadowLostAfter1, LeftShadowLostMid2a, 20);
  }

  lemma LeftShadowLostFrom1(fuel: nat)
    requires fuel == 20
    ensures Drive(LeftShadowLostAfter1, 1, fuel) == Some((LeftShadowLostAfter2, [
      Emission(0, Silent, Row(0, MaxU64, [MaxU64]), Row(0, 1, [20]))]))
  {
    LeftShadowLostCall2();
    DriveLast(LeftShadowLostAfter1, fuel, Return(LeftShadowLostAfter2, 0, Silent),
      Emission(0, Silent, Row(0, MaxU64, [MaxU64]), Row(0, 1, [20])));
  }

  lemma LeftShadowLostFrom0(fuel: nat)
    requires fuel == 20
    ensures Drive(LeftShadowLostAfter0, 2, fuel) == Some((LeftShadowLostAfter2, [
      Emission(1, Matched, Row(1, 1, [11]), Row(1, 1, [20])),
      Emission(0, Silent, Row(0, MaxU64, [MaxU64]), Row(0, 1, [20]))]))
  {
    LeftShadowLostCall1();
    LeftShadowLostFrom1(fuel);
    DriveCall(LeftShadowLostAfter0, 2, fuel, Return(LeftShadowLostAfter1, 1, Matched), LeftShadowLostAfter2, [
      Emission(1, Matched, Row(1, 1, [11]), Row(1, 1, [20])),
      Emission(0, Silent, Row(0, MaxU64, [MaxU64]), Row(0, 1, [20]))]);
  }

  const LeftShadowKeptStart := Fresh(LeftOuter.(restoreShadow := true), LeftShadowLostLeft, LeftShadowLostRight)

  /** The same join with the shadow restored: the right tuple with key 2 is
      emitted unmatched before the end. */
  lemma LeftShadowKept()
    ensures Session(LeftShadowKeptStart, 3, 20) == Some((LeftShadowKeptAfter3, [
      Emission(1, Matched, Row(1, 1, [10]), Row(1, 1, [20])),
      Emission(1, Matched, Row(1, 1, [11]), Row(1, 1, [20])),
      Emission(1, RightOnly, Row(0, MaxU64, [MaxU64]), Row(1, 2, [21])),
      Emission(0, Silent, Row(0, MaxU64, [MaxU64]), Row(0, 2, [21]))]))
  {
    LeftShadowKeptCall0();
    FirstBindsBoth(LeftShadowKeptStart, 20);
    LeftShadowKeptFrom0(20);
    SessionCall(LeftShadowKeptStart, 3, 20, Return(LeftShadowKeptAfter0, 1, Matched), LeftShadowKeptAfter3, [
      Emission(1, Matched, Row(1, 1, [10]), Row(1, 1, [20])),
      Emission(1, Matched, Row(1, 1, [11]), Row(1, 1, [20])),
      Emission(1, RightOnly, Row(0, MaxU64, [MaxU64]), Row(1, 2, [21])),
      Emission(0, Silent, Row(0, MaxU64, [MaxU64]), Row(0, 2, [21]))]);
  }

  const LeftShadowKeptAfter0 :=
    Join(LeftOuter.(restoreShadow := true),
         Input(LeftShadowLostLeft, 2), Input(LeftShadowLostRight, 2),
         Row(1, 1, [10]), Row(1, 1, [20]), Row(1, 1, [11]), Row(1, 2, [21]),
         [], 0, false, LoopEqualLeftHasData, 1)

  const LeftShadowKeptAfter1 :=
    Join(LeftOuter.(restoreShadow := true),
         Input(LeftShadowLostLeft, 2), Input(LeftShadowLostRight, 2),
         Row(1, 1, [11]), Row(1, 1, [20]), Row(1, 1, [10]), Row(1, 2, [21]),
         [], 0, false, LoopEqualLeft, 2)

  const LeftShadowKeptAfter2 :=
    Join(LeftOuter.(restoreShadow := true),
         Input(LeftShadowLostLeft, 2), Input(LeftShadowLostRight, 2),
         Row(0, MaxU64, [MaxU64]), Row(1, 2, [21]), Row(1, 1, [10]), Row(1, 1, [20]),
         [], 0, false, ScanStepRight, 3)

  const LeftShadowKeptAfter3 :=
    Join(LeftOuter.(restoreShadow := true),
         Input(LeftShadowLostLeft, 2), Input(LeftShadowLostRight, 2),
         Row(0, MaxU64, [MaxU64]), Row(0, 2, [21]), Row(1, 1, [10]), Row(1, 1, [20]),
         [], 0, false, ScanStepRight, 3)

  lemma LeftShadowKeptCall0()
    ensures Next(Bound(LeftShadowKeptStart), 20) == Some(Return(LeftShadowKeptAfter0, 1, Matched))
  {
  }

  lemma LeftShadowKeptCall1()
    ensures Next(LeftShadowKeptAfter0, 20) == Some(Return(LeftShadowKeptAfter1, 1, Matched))
  {
  }

  lemma LeftShadowKeptCall2()
    ensures Next(LeftShadowKeptAfter1, 20) == Some(Return(LeftShadowKeptAfter2, 1, RightOnly))
  {
    PadSingle(Row(0, 1, [11]), MaxU64);
  }

  lemma LeftShadowKeptCall3()
    ensures Next(LeftShadowKeptAfter2, 20) == Some(Return(LeftShadowKeptAfter3, 0, Silent))
  {
  }

  lemma LeftShadowKeptFrom2(fuel: nat)
    requires fuel == 20
    ensures Drive(LeftShadowKeptAfter2, 1, fuel) == Some((LeftShadowKeptAfter3, [
      Emission(0, Silent, Row(0, MaxU64, [MaxU64]), Row(0, 2, [21]))]))
  {
    LeftShadowKeptCall3();
    DriveLast(LeftShadowKeptAfter2, fuel, Return(LeftShadowKeptAfter3, 0, Silent),
      Emission(0, Silent, Row(0, MaxU64, [MaxU64]), Row(0, 2, [21])));
  }

  lemma LeftShadowKeptFrom1(fuel: nat)
    requires fuel == 20
    ensures Drive(LeftShadowKeptAfter1, 2, fuel) == Some((LeftShadowKeptAfter3, [
      Emission(1, RightOnly, Row(0, MaxU64, [MaxU64]), Row(1, 2, [21])),
      Emission(0, Silent, Row(0, MaxU64, [MaxU64]), Row(0, 2, [21]))]))
  {
    LeftShadowKeptCall2();
    LeftShadowKeptFrom2(fuel);
    DriveCall(LeftShadowKeptAfter1, 2, fuel, Return(LeftShadowKeptAfter2, 1, RightOnly), LeftShadowKeptAfter3, [
      Emission(1, RightOnly, Row(0, MaxU64, [MaxU64]), Row(1, 2, [21])),
      Emission(0, Silent, Row(0, MaxU64, [MaxU64]), Row(0, 2, [21]))]);
  }

  lemma LeftShadowKeptFrom0(fuel: nat)
    requires fuel == 20
    ensures Drive(LeftShadowKeptAfter0, 3, fuel) == Some((LeftShadowKeptAfter3, [
      Emission(1, Matched, Row(1, 1, [11]), Row(1, 1, [20])),
      Emission(1, RightOnly, Row(0, MaxU64, [MaxU64]), Row(1, 2, [21])),
      Emission(0, Silent, Row(0, MaxU64, [MaxU64]), Row(0, 2, [21]))]))
  {
    LeftShadowKeptCall1();
    LeftShadowKeptFrom1(fuel);
    DriveCall(LeftShadowKeptAfter0, 3, fuel, Return(LeftShadowKeptAfter1, 1, Matched), LeftShadowKeptAfter3, [
      Emission(1, Matched, Row(1, 1, [11]), Row(1, 1, [20])),
      Emission(1, RightOnly, Row(0, MaxU64, [MaxU64]), Row(1, 2, [21])),
      Emission(0, Silent, Row(0, MaxU64, [MaxU64]), Row(0, 2, [21]))]);
  }

  const RightShadowLostLeft: seq<Row> := [Row(1, 1, [10]), Row(1, 2, [11])]
  const RightShadowLostRight: seq<Row> := [Row(1, 1, [20]), Row(1, 1, [21])]
  const RightShadowLostStart := Fresh(RightOuter, RightShadowLostLeft, RightShadowLostRight)

  /** The mirror, right optional: the left tuple with key 2 waits in the left
      shadow when the right run ends the right child, and is never emitted. */
  lemma RightShadowLost()
    ensures Session(RightShadowLostStart, 2, 20) == Some((RightShadowLostAfter2, [
      Emission(1, Matched, Row(1, 1, [10]), Row(1, 1, [20])),
      Emission(1, Matched, Row(1, 1, [10]), Row(1, 1, [21])),
      Emission(0, Silent, Row(0, 1, [10]), Row(0, MaxU64, [MaxU64]))]))
  {
    RightShadowLostCall0();
    FirstBindsBoth(RightShadowLostStart, 20);
    RightShadowLostFrom0(20);
    SessionCall(RightShadowLostStart, 2, 20, Return(RightShadowLostAfter0, 1, Matched), RightShadowLostAfter2, [
      Emission(1, Matched, Row(1, 1, [10]), Row(1, 1, [20])),
      Emission(1, Matched, Row(1, 1, [10]), Row(1, 1, [21])),
      Emission(0, Silent, Row(0, 1, [10]), Row(0, MaxU64, [MaxU64]))]);
  }

  const RightShadowLostAfter0 :=
    Join(RightOuter,
         Input(RightShadowLostLeft, 2), Input(RightShadowLostRight, 2),
         Row(1, 1, [10]), Row(1, 1, [20]), Row(1, 2, [11]), Row(1, 1, [21]),
         [], 0, false, LoopEqualRightHasData, 1)

  const RightShadowLostAfter1 :=
    Join(RightOuter,
         Input(RightShadowLostLeft, 2), Input(RightShadowLostRight, 2),
         Row(1, 1, [10]), Row(1, 1, [21]), Row(1, 2, [11]), Row(1, 1, [20]),
         [], 0, false, LoopEqualRight, 2)

  const RightShadowLostAfter2 :=
    Join(RightOuter,
         Input(RightShadowLostLeft, 2), Input(RightShadowLostRight, 2),
         Row(0, 1, [10]), Row(0, MaxU64, [MaxU64]), Row(1, 2, [11]), Row(1, 1, [20]),
         [], 0, false, ScanStepLeft, 2)

  const RightShadowLostMid2a :=
    Join(RightOuter,
         Input(RightShadowLostLeft, 2), Input(RightShadowLostRight, 2),
         Row(1, 1, [10]), Row(0, MaxU64, [MaxU64]), Row(1, 2, [11]), Row(1, 1, [20]),
         [], 0, false, ScanStepLeft, 2)

  lemma RightShadowLostCall0()
    ensures Next(Bound(RightShadowLostStart), 20) == Some(Return(RightShadowLostAfter0, 1, Matched))
  {
  }

  lemma RightShadowLostCall1()
    ensures Next(RightShadowLostAfter0, 20) == Some(Return(RightShadowLostAfter1, 1, Matched))
  {
  }

  lemma RightShadowLostCall2()
    ensures Next(RightShadowLostAfter1, 20) == Some(Return(RightShadowLostAfter2, 0, Silent))
  {
    assert Step(RightShadowLostAfter1) == Continue(RightShadowLostMid2a);
    NextContinues(RightShadowLostAfter1, RightShadowLostMid2a, 20);
  }

  lemma RightShadowLostFrom1(fuel: nat)
    requires fuel == 20
    ensures Drive(RightShadowLostAfter1, 1, fuel) == Some((RightShadowLostAfter2, [
      Emission(0, Silent, Row(0, 1, [10]), Row(0, MaxU64, [MaxU64]))]))
  {
    RightShadowLostCall2();
    DriveLast(RightShadowLostAfter1, fuel, Return(RightShadowLostAfter2, 0, Silent),
      Emission(0, Silent, Row(0, 1, [10]), Row(0, MaxU64, [MaxU64])));
  }

  lemma RightShadowLostFrom0(fuel: nat)
    requires fuel == 20
    ensures Drive(RightShadowLostAfter0, 2, fuel) == Some((RightShadowLostAfter2, [
      Emission(1, Matched, Row(1, 1, [10]), Row(1, 1, [21])),
      Emission(0, Silent, Row(0, 1, [10]), Row(0, MaxU64, [MaxU64]))]))
  {
    RightShadowLostCall1();
    RightShadowLostFrom1(fuel);
    DriveCall(RightShadowLostAfter0, 2, fuel, Return(RightShadowLostAfter1, 1, Matched), RightShadowLostAfter2, [
      Emission(1, Matched, Row(1, 1, [10]), Row(1, 1, [21])),
      Emission(0, Silent, Row(0, 1, [10]), Row(0, MaxU64, [MaxU64]))]);
  }

  const RightShadowKeptStart := Fresh(RightOuter.(restoreShadow := true), RightShadowLostLeft, RightShadowLostRight)

  /** The mirror with the shadow restored: the left tuple with key 2 is
      emitted unmatched. */
  lemma RightShadowKept()
    ensures Session(RightShadowKeptStart, 3, 20) == Some((RightShadowKeptAfter3, [
      Emission(1, Matched, Row(1, 1, [10]), Row(1, 1, [20])),
      Emission(1, Matched, Row(1, 1, [10]), Row(1, 1, [21])),
      Emission(1, LeftOnly, Row(1, 2, [11]), Row(0, MaxU64, [MaxU64])),
      Emission(0, Silent, Row(0, 2, [11]), Row(0, MaxU64, [MaxU64]))]))
  {
    RightShadowKeptCall0();
    FirstBindsBoth(RightShadowKeptStart, 20);
    RightShadowKeptFrom0(20);
    SessionCall(RightShadowKeptStart, 3, 20, Return(RightShadowKeptAfter0, 1, Matched), RightShadowKeptAfter3, [
      Emission(1, Matched, Row(1, 1, [10]), Row(1, 1, [20])),
      Emission(1, Matched, Row(1, 1, [10]), Row(1, 1, [21])),
      Emission(1, LeftOnly, Row(1, 2, [11]), Row(0, MaxU64, [MaxU64])),
      Emission(0, Silent, Row(0, 2, [11]), Row(0, MaxU64, [MaxU64]))]);
  }

  const RightShadowKeptAfter0 :=
    Join(RightOuter.(restoreShadow := true),
         Input(RightShadowLostLeft, 2), Input(RightShadowLostRight, 2),
         Row(1, 1, [10]), Row(1, 1, [20]), Row(1, 2, [11]), Row(1, 1, [21]),
         [], 0, false, LoopEqualRightHasData, 1)

  const RightShadowKeptAfter1 :=
    Join(RightOuter.(restoreShadow := true),
         Input(RightShadowLostLeft, 2), Input(RightShadowLostRight, 2),
         Row(1, 1, [10]), Row(1, 1, [21]), Row(1, 2, [11]), Row(1, 1, [20]),
         [], 0, false, LoopEqualRight, 2)

  const RightShadowKeptAfter2 :=
    Join(RightOuter.(restoreShadow := true),
         Input(RightShadowLostLeft, 2), Input(RightShadowLostRight, 2),
         Row(1, 2, [11]), Row(0, MaxU64, [MaxU64]), Row(1, 1, [10]), Row(1, 1, [20]),
         [], 0, false, ScanStepLeft, 3)

  const RightShadowKeptAfter3 :=
    Join(RightOuter.(restoreShadow := true),
         Input(RightShadowLostLeft, 2), Input(RightShadowLostRight, 2),
         Row(0, 2, [11]), Row(0, MaxU64, [MaxU64]), Row(1, 1, [10]), Row(1, 1, [20]),
         [], 0, false, ScanStepLeft, 3)

  lemma RightShadowKeptCall0()
    ensures Next(Bound(RightShadowKeptStart), 20) == Some(Return(RightShadowKeptAfter0, 1, Matched))
  {
  }

  lemma RightShadowKeptCall1()
    ensures Next(RightShadowKeptAfter0, 20) == Some(Return(RightShadowKeptAfter1, 1, Matched))
  {
  }

  lemma RightShadowKeptCall2()
    ensures Next(RightShadowKeptAfter1, 20) == Some(Return(RightShadowKeptAfter2, 1, LeftOnly))
  {
    PadSingle(Row(0, 1, [21]), MaxU64);
  }

  lemma RightShadowKeptCall3()
    ensures Next(RightShadowKeptAfter2, 20) == Some(Return(RightShadowKeptAfter3, 0, Silent))
  {
  }

  lemma RightShadowKeptFrom2(fuel: nat)
    requires fuel == 20
    ensures Drive(RightShadowKeptAfter2, 1, fuel) == Some((RightShadowKeptAfter3, [
      Emission(0, Silent, Row(0, 2, [11]), Row(0, MaxU64, [MaxU64]))]))
  {
    RightShadowKeptCall3();
    DriveLast(RightShadowKeptAfter2, fuel, Return(RightShadowKeptAfter3, 0, Silent),
      Emission(0, Silent, Row(0, 2, [11]), Row(0, MaxU64, [MaxU64])));
  }

  lemma RightShadowKeptFrom1(fuel: nat)
    requires fuel == 20
    ensures Drive(RightShadowKeptAfter1, 2, fuel) == Some((RightShadowKeptAfter3, [
      Emission(1, LeftOnly, Row(1, 2, [11]), Row(0, MaxU64, [MaxU64])),
      Emission(0, Silent, Row(0, 2, [11]), Row(0, MaxU64, [MaxU64]))]))
  {
    RightShadowKeptCall2();
    RightShadowKeptFrom2(fuel);
    DriveCall(RightShadowKeptAfter1, 2, fuel, Return(RightShadowKeptAfter2, 1, LeftOnly), RightShadowKeptAfter3, [
      Emission(1, LeftOnly, Row(1, 2, [11]), Row(0, MaxU64, [MaxU64])),
      Emission(0, Silent, Row(0, 2, [11]), Row(0, MaxU64, [MaxU64]))]);
  }

  lemma RightShadowKeptFrom0(fuel: nat)
    requires fuel == 20
    ensures Drive(RightShadowKeptAfter0, 3, fuel) == Some((RightShadowKeptAfter3, [
      Emission(1, Matched, Row(1, 1, [10]), Row(1, 1, [21])),
      Emission(1, LeftOnly, Row(1, 2, [11]), Row(0, MaxU64, [MaxU64])),
      Emission(0, Silent, Row(0, 2, [11]), Row(0, MaxU64, [MaxU64]))]))
  {
    RightShadowKeptCall1();
    RightShadowKeptFrom1(fuel);
    DriveCall(RightShadowKeptAfter0, 3, fuel, Return(RightShadowKeptAfter1, 1, Matched), RightShadowKeptAfter3, [
      Emission(1, Matched, Row(1, 1, [10]), Row(1, 1, [21])),
      Emission(1, LeftOnly, Row(1, 2, [11]), Row(0, MaxU64, [MaxU64])),
      Emission(0, Silent, Row(0, 2, [11]), Row(0, MaxU64, [MaxU64]))]);
  }

  const SpoolShadowLostLeft: seq<Row> := [Row(1, 1, [10]), Row(1, 1, [11])]
  const SpoolShadowLostRight: seq<Row> := [Row(1, 1, [20]), Row(1, 1, [21]), Row(1, 2, [22])]
  const SpoolShadowLostStart := Fresh(LeftOuter, SpoolShadowLostLeft, SpoolShadowLostRight)

  /** As written, left optional, spooled: the right run is replayed for both
      left tuples, the left child then runs out while the right tuple with
      key 2 waits in the right shadow, and it is never emitted. */
  lemma SpoolShadowLost()
    ensures Session(SpoolShadowLostStart, 4, 20) == Some((SpoolShadowLostAfter4, [
      Emission(1, Matched, Row(1, 1, [10]), Row(1, 1, [20])),
      Emission(1, Matched, Row(1, 1, [10]), Row(1, 1, [21])),
      Emission(1, Matched, Row(1, 1, [11]), Row(1, 1, [20])),
      Emission(1, Matched, Row(1, 1, [11]), Row(1, 1, [21])),
      Emission(0, Silent, Row(0, MaxU64, [MaxU64]), Row(0, 1, [21]))]))
  {
    SpoolShadowLostCall0();
    FirstBindsBoth(SpoolShadowLostStart, 20);
    SpoolShadowLostFrom0(20);
    SessionCall(SpoolShadowLostStart, 4, 20, Return(SpoolShadowLostAfter0, 1, Matched), SpoolShadowLostAfter4, [
      Emission(1, Matched, Row(1, 1, [10]), Row(1, 1, [20])),
      Emission(1, Matched, Row(1, 1, [10]), Row(1, 1, [21])),
      Emission(1, Matched, Row(1, 1, [11]), Row(1, 1, [20])),
      Emission(1, Matched, Row(1, 1, [11]), Row(1, 1, [21])),
      Emission(0, Silent, Row(0, MaxU64, [MaxU64]), Row(0, 1, [21]))]);
  }

  const SpoolShadowLostAfter0 :=
    Join(LeftOuter,
         Input(SpoolShadowLostLeft, 2), Input(SpoolShadowLostRight, 3),
         Row(1, 1, [10]), Row(1, 1, [20]), Row(1, 1, [11]), Row(1, 2, [22]),
         [Row(1, 1, [20]), Row(1, 1, [21])], 1, true, LoopSpooledRightHasData, 1)

  const SpoolShadowLostMid0a :=
    Join(LeftOuter,
         Input(SpoolShadowLostLeft, 2), Input(SpoolShadowLostRight, 3),
         Row(1, 1, [10]), Row(1, 1, [20]), Row(1, 1, [11]), Row(1, 2, [22]),
         [Row(1, 1, [20]), Row(1, 1, [21])], 0, true, LoopSpooledRightHasData, 0)

  const SpoolShadowLostAfter1 :=
    Join(LeftOuter,
         Input(SpoolShadowLostLeft, 2), Input(SpoolShadowLostRight, 3),
         Row(1, 1, [10]), Row(1, 1, [21]), Row(1, 1, [11]), Row(1, 2, [22]),
         [Row(1, 1, [20]), Row(1, 1, [21])], 2, true, LoopSpooledRightHasData, 2)

  const SpoolShadowLostAfter2 :=
    Join(LeftOuter,
         Input(SpoolShadowLostLeft, 2), Input(SpoolShadowLostRight, 3),
         Row(1, 1, [11]), Row(1, 1, [20]), Row(1, 1, [10]), Row(1, 2, [22]),
         [Row(1, 1, [20]), Row(1, 1, [21])], 1, false, LoopSpooledRightHasData, 3)

  const SpoolShadowLostMid2a :=
    Join(LeftOuter,
         Input(SpoolShadowLostLeft, 2), Input(SpoolShadowLostRight, 3),
         Row(1, 1, [11]), Row(1, 1, [21]), Row(1, 1, [10]), Row(1, 2, [22]),
         [Row(1, 1, [20]), Row(1, 1, [21])], 0, false, LoopSpooledRightHasData, 2)

  const SpoolShadowLostAfter3 :=
    Join(LeftOuter,
         Input(SpoolShadowLostLeft, 2), Input(SpoolShadowLostRight, 3),
         Row(1, 1, [11]), Row(1, 1, [21]), Row(1, 1, [10]), Row(1, 2, [22]),
         [Row(1, 1, [20]), Row(1, 1, [21])], 2, false, LoopSpooledRightHasData, 4)

  const SpoolShadowLostAfter4 :=
    Join(LeftOuter,
         Input(SpoolShadowLostLeft, 2), Input(SpoolShadowLostRight, 3),
         Row(0, MaxU64, [MaxU64]), Row(0, 1, [21]), Row(1, 1, [10]), Row(1, 2, [22]),
         [Row(1, 1, [20]), Row(1, 1, [21])], 2, false, Empty, 4)

  const SpoolShadowLostMid4a :=
    Join(LeftOuter,
         Input(SpoolShadowLostLeft, 2), Input(SpoolShadowLostRight, 3),
         Row(0, MaxU64, [MaxU64]), Row(1, 1, [21]), Row(1, 1, [10]), Row(1, 2, [22]),
         [Row(1, 1, [20]), Row(1, 1, [21])], 2, false, LoopEmptyLeft, 4)

  lemma SpoolShadowLostCall0()
    ensures Next(Bound(SpoolShadowLostStart), 20) == Some(Return(SpoolShadowLostAfter0, 1, Matched))
  {
    assert Step(Bound(SpoolShadowLostStart)) == Continue(SpoolShadowLostMid0a);
    NextContinues(Bound(SpoolShadowLostStart), SpoolShadowLostMid0a, 20);
  }

  lemma SpoolShadowLostCall1()
    ensures Next(SpoolShadowLostAfter0, 20) == Some(Return(SpoolShadowLostAfter1, 1, Matched))
  {
  }

  lemma SpoolShadowLostCall2()
    ensures Next(SpoolShadowLostAfter1, 20) == Some(Return(SpoolShadowLostAfter2, 1, Matched))
  {
    assert Step(SpoolShadowLostAfter1) == Continue(SpoolShadowLostMid2a);
    NextContinues(SpoolShadowLostAfter1, SpoolShadowLostMid2a, 20);
  }

  lemma SpoolShadowLostCall3()
    ensures Next(SpoolShadowLostAfter2, 20) == Some(Return(SpoolShadowLostAfter3, 1, Matched))
  {
  }

  lemma SpoolShadowLostCall4()
    ensures Next(SpoolShadowLostAfter3, 20) == Some(Return(SpoolShadowLostAfter4, 0, Silent))
  {
    assert Step(SpoolShadowLostAfter3) == Continue(SpoolShadowLostMid4a);
    NextContinues(SpoolShadowLostAfter3, SpoolShadowLostMid4a, 20);
  }

  lemma SpoolShadowLostFrom3(fuel: nat)
    requires fuel == 20
    ensures Drive(SpoolShadowLostAfter3, 1, fuel) == Some((SpoolShadowLostAfter4, [
      Emission(0, Silent, Row(0, MaxU64, [MaxU64]), Row(0, 1, [21]))]))
  {
    SpoolShadowLostCall4();
    DriveLast(SpoolShadowLostAfter3, fuel, Return(SpoolShadowLostAfter4, 0, Silent),
      Emission(0, Silent, Row(0, MaxU64, [MaxU64]), Row(0, 1, [21])));
  }

  lemma SpoolShadowLostFrom2(fuel: nat)
    requires fuel == 20
    ensures Drive(SpoolShadowLostAfter2, 2, fuel) == Some((SpoolShadowLostAfter4, [
      Emission(1, Matched, Row(1, 1, [11]), Row(1, 1, [21])),
      Emission(0, Silent, Row(0, MaxU64, [MaxU64]), Row(0, 1, [21]))]))
  {
    SpoolShadowLostCall3();
    SpoolShadowLostFrom3(fuel);
    DriveCall(SpoolShadowLostAfter2, 2, fuel, Return(SpoolShadowLostAfter3, 1, Matched), SpoolShadowLostAfter4, [
      Emission(1, Matched, Row(1, 1, [11]), Row(1, 1, [21])),
      Emission(0, Silent, Row(0, MaxU64, [MaxU64]), Row(0, 1, [21]))]);
  }

  lemma SpoolShadowLostFrom1(fuel: nat)
    requires fuel == 20
    ensures Drive(SpoolShadowLostAfter1, 3, fuel) == Some((SpoolShadowLostAfter4, [
      Emission(1, Matched, Row(1, 1, [11]), Row(1, 1, [20])),
      Emission(1, Matched, Row(1, 1, [11]), Row(1, 1, [21])),
      Emission(0, Silent, Row(0, MaxU64, [MaxU64]), Row(0, 1, [21]))]))
  {
    SpoolShadowLostCall2();
    SpoolShadowLostFrom2(fuel);
    DriveCall(SpoolShadowLostAfter1, 3, fuel, Return(SpoolShadowLostAfter2, 1, Matched), SpoolShadowLostAfter4, [
      Emission(1, Matched, Row(1, 1, [11]), Row(1, 1, [20])),
      Emission(1, Matched, Row(1, 1, [11]), Row(1, 1, [21])),
      Emission(0, Silent, Row(0, MaxU64, [MaxU64]), Row(0, 1, [21]))]);
  }

  lemma SpoolShadowLostFrom0(fuel: nat)
    requires fuel == 20
    ensures Drive(SpoolShadowLostAfter0, 4, fuel) == Some((SpoolShadowLostAfter4, [
      Emission(1, Matched, Row(1, 1, [10]), Row(1, 1, [21])),
      Emission(1, Matched, Row(1, 1, [11]), Row(1, 1, [20])),
      Emission(1, Matched, Row(1, 1, [11]), Row(1, 1, [21])),
      Emission(0, Silent, Row(0, MaxU64, [MaxU64]), Row(0, 1, [21]))]))
  {
    SpoolShadowLostCall1();
    SpoolShadowLostFrom1(fuel);
    DriveCall(SpoolShadowLostAfter0, 4, fuel, Return(SpoolShadowLostAfter1, 1, Matched), SpoolShadowLostAfter4, [
      Emission(1, Matched, Row(1, 1, [10]), Row(1, 1, [21])),
      Emission(1, Matched, Row(1, 1, [11]), Row(1, 1, [20])),
      Emission(1, Matched, Row(1, 1, [11]), Row(1, 1, [21])),
      Emission(0, Silent, Row(0, MaxU64, [MaxU64]), Row(0, 1, [21]))]);
  }

  const SpoolShadowKeptStart := Fresh(LeftOuter.(restoreShadow := true), SpoolShadowLostLeft, SpoolShadowLostRight)

  /** The spooled case with the shadow restored: the right tuple with key 2
      is emitted unmatched. */
  lemma SpoolShadowKept()
    ensures Session(SpoolShadowKeptStart, 5, 20) == Some((SpoolShadowKeptAfter5, [
      Emission(1, Matched, Row(1, 1, [10]), Row(1, 1, [20])),
      Emission(1, Matched, Row(1, 1, [10]), Row(1, 1, [21])),
      Emission(1, Matched, Row(1, 1, [11]), Row(1, 1, [20])),
      Emission(1, Matched, Row(1, 1, [11]), Row(1, 1, [21])),
      Emission(1, RightOnly, Row(0, MaxU64, [MaxU64]), Row(1, 2, [22])),
      Emission(0, Silent, Row(0, MaxU64, [MaxU64]), Row(0, 2, [22]))]))
  {
    SpoolShadowKeptCall0();
    FirstBindsBoth(SpoolShadowKeptStart, 20);
    SpoolShadowKeptFrom0(20);
    SessionCall(SpoolShadowKeptStart, 5, 20, Return(SpoolShadowKeptAfter0, 1, Matched), SpoolShadowKeptAfter5, [
      Emission(1, Matched, Row(1, 1, [10]), Row(1, 1, [20])),
      Emission(1, Matched, Row(1, 1, [10]), Row(1, 1, [21])),
      Emission(1, Matched, Row(1, 1, [11]), Row(1, 1, [20])),
      Emission(1, Matched, Row(1, 1, [11]), Row(1, 1, [21])),
      Emission(1, RightOnly, Row(0, MaxU64, [MaxU64]), Row(1, 2, [22])),
      Emission(0, Silent, Row(0, MaxU64, [MaxU64]), Row(0, 2, [22]))]);
  }

  const SpoolShadowKeptAfter0 :=
    Join(LeftOuter.(restoreShadow := true),
         Input(SpoolShadowLostLeft, 2), Input(SpoolShadowLostRight, 3),
         Row(1, 1, [10]), Row(1, 1, [20]), Row(1, 1, [11]), Row(1, 2, [22]),
         [Row(1, 1, [20]), Row(1, 1, [21])], 1, true, LoopSpooledRightHasData, 1)

  const SpoolShadowKeptMid0a :=
    Join(LeftOuter.(restoreShadow := true),
         Input(SpoolShadowLostLeft, 2), Input(SpoolShadowLostRight, 3),
         Row(1, 1, [10]), Row(1, 1, [20]), Row(1, 1, [11]), Row(1, 2, [22]),
         [Row(1, 1, [20]), Row(1, 1, [21])], 0, true, LoopSpooledRightHasData, 0)

  const SpoolShadowKeptAfter1 :=
    Join(LeftOuter.(restoreShadow := true),
         Input(SpoolShadowLostLeft, 2), Input(SpoolShadowLostRight, 3),
         Row(1, 1, [10]), Row(1, 1, [21]), Row(1, 1, [11]), Row(1, 2, [22]),
         [Row(1, 1, [20]), Row(1, 1, [21])], 2, true, LoopSpooledRightHasData, 2)

  const SpoolShadowKeptAfter2 :=
    Join(LeftOuter.(restoreShadow := true),
         Input(SpoolShadowLostLeft, 2), Input(SpoolShadowLostRight, 3),
         Row(1, 1, [11]), Row(1, 1, [20]), Row(1, 1, [10]), Row(1, 2, [22]),
         [Row(1, 1, [20]), Row(1, 1, [21])], 1, false, LoopSpooledRightHasData, 3)

  const SpoolShadowKeptMid2a :=
    Join(LeftOuter.(restoreShadow := true),
         Input(SpoolShadowLostLeft, 2), Input(SpoolShadowLostRight, 3),
         Row(1, 1, [11]), Row(1, 1, [21]), Row(1, 1, [10]), Row(1, 2, [22]),
         [Row(1, 1, [20]), Row(1, 1, [21])], 0, false, LoopSpooledRightHasData, 2)

  const SpoolShadowKeptAfter3 :=
    Join(LeftOuter.(restoreShadow := true),
         Input(SpoolShadowLostLeft, 2), Input(SpoolShadowLostRight, 3),
         Row(1, 1, [11]), Row(1, 1, [21]), Row(1, 1, [10]), Row(1, 2, [22]),
         [Row(1, 1, [20]), Row(1, 1, [21])], 2, false, LoopSpooledRightHasData, 4)

  const SpoolShadowKeptAfter4 :=
    Join(LeftOuter.(restoreShadow := true),
         Input(SpoolShadowLostLeft, 2), Input(SpoolShadowLostRight, 3),
         Row(0, MaxU64, [MaxU64]), Row(1, 2, [22]), Row(1, 1, [10]), Row(1, 1, [21]),
         [Row(1, 1, [20]), Row(1, 1, [21])], 2, false, LoopEmptyLeft, 5)

  const SpoolShadowKeptAfter5 :=
    Join(LeftOuter.(restoreShadow := true),
         Input(SpoolShadowLostLeft, 2), Input(SpoolShadowLostRight, 3),
         Row(0, MaxU64, [MaxU64]), Row(0, 2, [22]), Row(1, 1, [10]), Row(1, 1, [21]),
         [Row(1, 1, [20]), Row(1, 1, [21])], 2, false, Empty, 5)

  lemma SpoolShadowKeptCall0()
    ensures Next(Bound(SpoolShadowKeptStart), 20) == Some(Return(SpoolShadowKeptAfter0, 1, Matched))
  {
    assert Step(Bound(SpoolShadowKeptStart)) == Continue(SpoolShadowKeptMid0a);
    NextContinues(Bound(SpoolShadowKeptStart), SpoolShadowKeptMid0a, 20);
  }

  lemma SpoolShadowKeptCall1()
    ensures Next(SpoolShadowKeptAfter0, 20) == Some(Return(SpoolShadowKeptAfter1, 1, Matched))
  {
  }

  lemma SpoolShadowKeptCall2()
    ensures Next(SpoolShadowKeptAfter1, 20) == Some(Return(SpoolShadowKeptAfter2, 1, Matched))
  {
    assert Step(SpoolShadowKeptAfter1) == Continue(SpoolShadowKeptMid2a);
    NextContinues(SpoolShadowKeptAfter1, SpoolShadowKeptMid2a, 20);
  }

  lemma SpoolShadowKeptCall3()
    ensures Next(SpoolShadowKeptAfter2, 20) == Some(Return(SpoolShadowKeptAfter3, 1, Matched))
  {
  }

  lemma SpoolShadowKeptCall4()
    ensures Next(SpoolShadowKeptAfter3, 20) == Some(Return(SpoolShadowKeptAfter4, 1, RightOnly))
  {
    PadSingle(Row(0, 1, [11]), MaxU64);
  }

  lemma SpoolShadowKeptCall5()
    ensures Next(SpoolShadowKeptAfter4, 20) == Some(Return(SpoolShadowKeptAfter5, 0, Silent))
  {
  }

  lemma SpoolShadowKeptFrom4(fuel: nat)
    requires fuel == 20
    ensures Drive(SpoolShadowKeptAfter4, 1, fuel) == Some((SpoolShadowKeptAfter5, [
      Emission(0, Silent, Row(0, MaxU64, [MaxU64]), Row(0, 2, [22]))]))
  {
    SpoolShadowKeptCall5();
    DriveLast(SpoolShadowKeptAfter4, fuel, Return(SpoolShadowKeptAfter5, 0, Silent),
      Emission(0, Silent, Row(0, MaxU64, [MaxU64]), Row(0, 2, [22])));
  }

  lemma SpoolShadowKeptFrom3(fuel: nat)
    requires fuel == 20
    ensures Drive(SpoolShadowKeptAfter3, 2, fuel) == Some((SpoolShadowKeptAfter5, [
      Emission(1, RightOnly, Row(0, MaxU64, [MaxU64]), Row(1, 2, [22])),
      Emission(0, Silent, Row(0, MaxU64, [MaxU64]), Row(0, 2, [22]))]))
  {
    SpoolShadowKeptCall4();
    SpoolShadowKeptFrom4(fuel);
    DriveCall(SpoolShadowKeptAfter3, 2, fuel, Return(SpoolShadowKeptAfter4, 1, RightOnly), SpoolShadowKeptAfter5, [
      Emission(1, RightOnly, Row(0, MaxU64, [MaxU64]), Row(1, 2, [22])),
      Emission(0, Silent, Row(0, MaxU64, [MaxU64]), Row(0, 2, [22]))]);
  }

  lemma SpoolShadowKeptFrom2(fuel: nat)
    requires fuel == 20
    ensures Drive(SpoolShadowKeptAfter2, 3, fuel) == Some((SpoolShadowKeptAfter5, [
      Emission(1, Matched, Row(1, 1, [11]), Row(1, 1, [21])),
      Emission(1, RightOnly, Row(0, MaxU64, [MaxU64]), Row(1, 2, [22])),
      Emission(0, Silent, Row(0, MaxU64, [MaxU64]), Row(0, 2, [22]))]))
  {
    SpoolShadowKeptCall3();
    SpoolShadowKeptFrom3(fuel);
    DriveCall(SpoolShadowKeptAfter2, 3, fuel, Return(SpoolShadowKeptAfter3, 1, Matched), SpoolShadowKeptAfter5, [
      Emission(1, Matched, Row(1, 1, [11]), Row(1, 1, [21])),
      Emission(1, RightOnly, Row(0, MaxU64, [MaxU64]), Row(1, 2, [22])),
      Emission(0, Silent, Row(0, MaxU64, [MaxU64]), Row(0, 2, [22]))]);
  }

  lemma SpoolShadowKeptFrom1(fuel: nat)
    requires fuel == 20
    ensures Drive(SpoolShadowKeptAfter1, 4, fuel) == Some((SpoolShadowKeptAfter5, [
      Emission(1, Matched, Row(1, 1, [11]), Row(1, 1, [20])),
      Emission(1, Matched, Row(1, 1, [11]), Row(1, 1, [21])),
      Emission(1, RightOnly, Row(0, MaxU64, [MaxU64]), Row(1, 2, [22])),
      Emission(0, Silent, Row(0, MaxU64, [MaxU64]), Row(0, 2, [22]))]))
  {
    SpoolShadowKeptCall2();
    SpoolShadowKeptFrom2(fuel);
    DriveCall(SpoolShadowKeptAfter1, 4, fuel, Return(SpoolShadowKeptAfter2, 1, Matched), SpoolShadowKeptAfter5, [
      Emission(1, Matched, Row(1, 1, [11]), Row(1, 1, [20])),
      Emission(1, Matched, Row(1, 1, [11]), Row(1, 1, [21])),
      Emission(1, RightOnly, Row(0, MaxU64, [MaxU64]), Row(1, 2, [22])),
      Emission(0, Silent, Row(0, MaxU64, [MaxU64]), Row(0, 2, [22]))]);
  }

  lemma SpoolShadowKeptFrom0(fuel: nat)
    requires fuel == 20
    ensures Drive(SpoolShadowKeptAfter0, 5, fuel) == Some((SpoolShadowKeptAfter5, [
      Emission(1, Matched, Row(1, 1, [10]), Row(1, 1, [21])),
      Emission(1, Matched, Row(1, 1, [11]), Row(1, 1, [20])),
      Emission(1, Matched, Row(1, 1, [11]), Row(1, 1, [21])),
      Emission(1, RightOnly, Row(0, MaxU64, [MaxU64]), Row(1, 2, [22])),
      Emission(0, Silent, Row(0, MaxU64, [MaxU64]), Row(0, 2, [22]))]))
  {
    SpoolShadowKeptCall1();
    SpoolShadowKeptFrom1(fuel);
    DriveCall(SpoolShadowKeptAfter0, 5, fuel, Return(SpoolShadowKeptAfter1, 1, Matched), SpoolShadowKeptAfter5, [
      Emission(1, Matched, Row(1, 1, [10]), Row(1, 1, [21])),
      Emission(1, Matched, Row(1, 1, [11]), Row(1, 1, [20])),
      Emission(1, Matched, Row(1, 1, [11]), Row(1, 1, [21])),
      Emission(1, RightOnly, Row(0, MaxU64, [MaxU64]), Row(1, 2, [22])),
      Emission(0, Silent, Row(0, MaxU64, [MaxU64]), Row(0, 2, [22]))]);
  }

  const SpoolEndLostLeft: seq<Row> := [Row(1, 1, [10]), Row(1, 1, [11]), Row(1, 2, [12])]
  const SpoolEndLostRight: seq<Row> := [Row(1, 1, [20]), Row(1, 1, [21])]
  const SpoolEndLostStart := Fresh(RightOuter, SpoolEndLostLeft, SpoolEndLostRight)

  /** As written, right optional, spooled: the right child runs out while the
      right run is spooled, the left tuple with key 2 ends the left block,
      and `loopEmptyRight` pulls the left child past it, so it is never
      emitted. */
  lemma SpoolEndLost()
    ensures Session(SpoolEndLostStart, 4, 20) == Some((SpoolEndLostAfter4, [
      Emission(1, Matched, Row(1, 1, [10]), Row(1, 1, [20])),
      Emission(1, Matched, Row(1, 1, [10]), Row(1, 1, [21])),
      Emission(1, Matched, Row(1, 1, [11]), Row(1, 1, [20])),
      Emission(1, Matched, Row(1, 1, [11]), Row(1, 1, [21])),
      Emission(0, Silent, Row(0, 2, [12]), Row(1, MaxU64, [MaxU64]))]))
  {
    SpoolEndLostCall0();
    FirstBindsBoth(SpoolEndLostStart, 20);
    SpoolEndLostFrom0(20);
    SessionCall(SpoolEndLostStart, 4, 20, Return(SpoolEndLostAfter0, 1, Matched), SpoolEndLostAfter4, [
      Emission(1, Matched, Row(1, 1, [10]), Row(1, 1, [20])),
      Emission(1, Matched, Row(1, 1, [10]), Row(1, 1, [21])),
      Emission(1, Matched, Row(1, 1, [11]), Row(1, 1, [20])),
      Emission(1, Matched, Row(1, 1, [11]), Row(1, 1, [21])),
      Emission(0, Silent, Row(0, 2, [12]), Row(1, MaxU64, [MaxU64]))]);
  }

  const SpoolEndLostAfter0 :=
    Join(RightOuter,
         Input(SpoolEndLostLeft, 2), Input(SpoolEndLostRight, 2),
         Row(1, 1, [10]), Row(1, 1, [20]), Row(1, 1, [11]), Row(1, 1, [20]),
         [Row(1, 1, [20]), Row(1, 1, [21])], 1, true, LoopSpooledRightEmpty, 1)

  const SpoolEndLostMid0a :=
    Join(RightOuter,
         Input(SpoolEndLostLeft, 2), Input(SpoolEndLostRight, 2),
         Row(1, 1, [10]), Row(0, 1, [21]), Row(1, 1, [11]), Row(1, 1, [20]),
         [Row(1, 1, [20]), Row(1, 1, [21])], 0, true, LoopSpooledRightEmpty, 0)

  const SpoolEndLostAfter1 :=
    Join(RightOuter,
         Input(SpoolEndLostLeft, 2), Input(SpoolEndLostRight, 2),
         Row(1, 1, [10]), Row(1, 1, [21]), Row(1, 1, [11]), Row(1, 1, [20]),
         [Row(1, 1, [20]), Row(1, 1, [21])], 2, true, LoopSpooledRightEmpty, 2)

  const SpoolEndLostAfter2 :=
    Join(RightOuter,
         Input(SpoolEndLostLeft, 2), Input(SpoolEndLostRight, 2),
         Row(1, 1, [11]), Row(1, 1, [20]), Row(1, 1, [10]), Row(1, 1, [20]),
         [Row(1, 1, [20]), Row(1, 1, [21])], 1, false, LoopSpooledRightEmpty, 3)

  const SpoolEndLostMid2a :=
    Join(RightOuter,
         Input(SpoolEndLostLeft, 2), Input(SpoolEndLostRight, 2),
         Row(1, 1, [11]), Row(1, 1, [21]), Row(1, 1, [10]), Row(1, 1, [20]),
         [Row(1, 1, [20]), Row(1, 1, [21])], 0, false, LoopSpooledRightEmpty, 2)

  const SpoolEndLostAfter3 :=
    Join(RightOuter,
         Input(SpoolEndLostLeft, 2), Input(SpoolEndLostRight, 2),
         Row(1, 1, [11]), Row(1, 1, [21]), Row(1, 1, [10]), Row(1, 1, [20]),
         [Row(1, 1, [20]), Row(1, 1, [21])], 2, false, LoopSpooledRightEmpty, 4)

  const SpoolEndLostAfter4 :=
    Join(RightOuter,
         Input(SpoolEndLostLeft, 3), Input(SpoolEndLostRight, 2),
         Row(0, 2, [12]), Row(1, MaxU64, [MaxU64]), Row(1, 1, [10]), Row(1, 1, [20]),
         [Row(1, 1, [20]), Row(1, 1, [21])], 2, false, Empty, 4)

  const SpoolEndLostMid4a :=
    Join(RightOuter,
         Input(SpoolEndLostLeft, 3), Input(SpoolEndLostRight, 2),
         Row(1, 2, [12]), Row(1, MaxU64, [MaxU64]), Row(1, 1, [10]), Row(1, 1, [20]),
         [Row(1, 1, [20]), Row(1, 1, [21])], 2, false, LoopEmptyRight, 4)

  lemma SpoolEndLostCall0()
    ensures Next(Bound(SpoolEndLostStart), 20) == Some(Return(SpoolEndLostAfter0, 1, Matched))
  {
    assert Step(Bound(SpoolEndLostStart)) == Continue(SpoolEndLostMid0a);
    NextContinues(Bound(SpoolEndLostStart), SpoolEndLostMid0a, 20);
  }

  lemma SpoolEndLostCall1()
    ensures Next(SpoolEndLostAfter0, 20) == Some(Return(SpoolEndLostAfter1, 1, Matched))
  {
  }

  lemma SpoolEndLostCall2()
    ensures Next(SpoolEndLostAfter1, 20) == Some(Return(SpoolEndLostAfter2, 1, Matched))
  {
    assert Step(SpoolEndLostAfter1) == Continue(SpoolEndLostMid2a);
    NextContinues(SpoolEndLostAfter1, SpoolEndLostMid2a, 20);
  }

  lemma SpoolEndLostCall3()
    ensures Next(SpoolEndLostAfter2, 20) == Some(Return(SpoolEndLostAfter3, 1, Matched))
  {
  }

  lemma SpoolEndLostCall4()
    ensures Next(SpoolEndLostAfter3, 20) == Some(Return(SpoolEndLostAfter4, 0, Silent))
  {
    assert Step(SpoolEndLostAfter3) == Continue(SpoolEndLostMid4a);
    NextContinues(SpoolEndLostAfter3, SpoolEndLostMid4a, 20);
  }

  lemma SpoolEndLostFrom3(fuel: nat)
    requires fuel == 20
    ensures Drive(SpoolEndLostAfter3, 1, fuel) == Some((SpoolEndLostAfter4, [
      Emission(0, Silent, Row(0, 2, [12]), Row(1, MaxU64, [MaxU64]))]))
  {
    SpoolEndLostCall4();
    DriveLast(SpoolEndLostAfter3, fuel, Return(SpoolEndLostAfter4, 0, Silent),
      Emission(0, Silent, Row(0, 2, [12]), Row(1, MaxU64, [MaxU64])));
  }

  lemma SpoolEndLostFrom2(fuel: nat)
    requires fuel == 20
    ensures Drive(SpoolEndLostAfter2, 2, fuel) == Some((SpoolEndLostAfter4, [
      Emission(1, Matched, Row(1, 1, [11]), Row(1, 1, [21])),
      Emission(0, Silent, Row(0, 2, [12]), Row(1, MaxU64, [MaxU64]))]))
  {
    SpoolEndLostCall3();
    SpoolEndLostFrom3(fuel);
    DriveCall(SpoolEndLostAfter2, 2, fuel, Return(SpoolEndLostAfter3, 1, Matched), SpoolEndLostAfter4, [
      Emission(1, Matched, Row(1, 1, [11]), Row(1, 1, [21])),
      Emission(0, Silent, Row(0, 2, [12]), Row(1, MaxU64, [MaxU64]))]);
  }

  lemma SpoolEndLostFrom1(fuel: nat)
    requires fuel == 20
    ensures Drive(SpoolEndLostAfter1, 3, fuel) == Some((SpoolEndLostAfter4, [
      Emission(1, Matched, Row(1, 1, [11]), Row(1, 1, [20])),
      Emission(1, Matched, Row(1, 1, [11]), Row(1, 1, [21])),
      Emission(0, Silent, Row(0, 2, [12]), Row(1, MaxU64, [MaxU64]))]))
  {
    SpoolEndLostCall2();
    SpoolEndLostFrom2(fuel);
    DriveCall(SpoolEndLostAfter1, 3, fuel, Return(SpoolEndLostAfter2, 1, Matched), SpoolEndLostAfter4, [
      Emission(1, Matched, Row(1, 1, [11]), Row(1, 1, [20])),
      Emission(1, Matched, Row(1, 1, [11]), Row(1, 1, [21])),
      Emission(0, Silent, Row(0, 2, [12]), Row(1, MaxU64, [MaxU64]))]);
  }

  lemma SpoolEndLostFrom0(fuel: nat)
    requires fuel == 20
    ensures Drive(SpoolEndLostAfter0, 4, fuel) == Some((SpoolEndLostAfter4, [
      Emission(1, Matched, Row(1, 1, [10]), Row(1, 1, [21])),
      Emission(1, Matched, Row(1, 1, [11]), Row(1, 1, [20])),
      Emission(1, Matched, Row(1, 1, [11]), Row(1, 1, [21])),
      Emission(0, Silent, Row(0, 2, [12]), Row(1, MaxU64, [MaxU64]))]))
  {
    SpoolEndLostCall1();
    SpoolEndLostFrom1(fuel);
    DriveCall(SpoolEndLostAfter0, 4, fuel, Return(SpoolEndLostAfter1, 1, Matched), SpoolEndLostAfter4, [
      Emission(1, Matched, Row(1, 1, [10]), Row(1, 1, [21])),
      Emission(1, Matched, Row(1, 1, [11]), Row(1, 1, [20])),
      Emission(1, Matched, Row(1, 1, [11]), Row(1, 1, [21])),
      Emission(0, Silent, Row(0, 2, [12]), Row(1, MaxU64, [MaxU64]))]);
  }

  const SpoolEndKeptStart := Fresh(RightOuter.(restoreShadow := true), SpoolEndLostLeft, SpoolEndLostRight)

  /** The same join corrected: the left tuple with key 2 is emitted unmatched
      before the end. */
  lemma SpoolEndKept()
    ensures Session(SpoolEndKeptStart, 5, 20) == Some((SpoolEndKeptAfter5, [
      Emission(1, Matched, Row(1, 1, [10]), Row(1, 1, [20])),
      Emission(1, Matched, Row(1, 1, [10]), Row(1, 1, [21])),
      Emission(1, Matched, Row(1, 1, [11]), Row(1, 1, [20])),
      Emission(1, Matched, Row(1, 1, [11]), Row(1, 1, [21])),
      Emission(1, LeftOnly, Row(1, 2, [12]), Row(1, MaxU64, [MaxU64])),
      Emission(0, Silent, Row(0, 2, [12]), Row(1, MaxU64, [MaxU64]))]))
  {
    SpoolEndKeptCall0();
    FirstBindsBoth(SpoolEndKeptStart, 20);
    SpoolEndKeptFrom0(20);
    SessionCall(SpoolEndKeptStart, 5, 20, Return(SpoolEndKeptAfter0, 1, Matched), SpoolEndKeptAfter5, [
      Emission(1, Matched, Row(1, 1, [10]), Row(1, 1, [20])),
      Emission(1, Matched, Row(1, 1, [10]), Row(1, 1, [21])),
      Emission(1, Matched, Row(1, 1, [11]), Row(1, 1, [20])),
      Emission(1, Matched, Row(1, 1, [11]), Row(1, 1, [21])),
      Emission(1, LeftOnly, Row(1, 2, [12]), Row(1, MaxU64, [MaxU64])),
      Emission(0, Silent, Row(0, 2, [12]), Row(1, MaxU64, [MaxU64]))]);
  }

  const SpoolEndKeptAfter0 :=
    Join(RightOuter.(restoreShadow := true),
         Input(SpoolEndLostLeft, 2), Input(SpoolEndLostRight, 2),
         Row(1, 1, [10]), Row(1, 1, [20]), Row(1, 1, [11]), Row(1, 1, [20]),
         [Row(1, 1, [20]), Row(1, 1, [21])], 1, true, LoopSpooledRightEmpty, 1)

  const SpoolEndKeptMid0a :=
    Join(RightOuter.(restoreShadow := true),
         Input(SpoolEndLostLeft, 2), Input(SpoolEndLostRight, 2),
         Row(1, 1, [10]), Row(0, 1, [21]), Row(1, 1, [11]), Row(1, 1, [20]),
         [Row(1, 1, [20]), Row(1, 1, [21])], 0, true, LoopSpooledRightEmpty, 0)

  const SpoolEndKeptAfter1 :=
    Join(RightOuter.(restoreShadow := true),
         Input(SpoolEndLostLeft, 2), Input(SpoolEndLostRight, 2),
         Row(1, 1, [10]), Row(1, 1, [21]), Row(1, 1, [11]), Row(1, 1, [20]),
         [Row(1, 1, [20]), Row(1, 1, [21])], 2, true, LoopSpooledRightEmpty, 2)

  const SpoolEndKeptAfter2 :=
    Join(RightOuter.(restoreShadow := true),
         Input(SpoolEndLostLeft, 2), Input(SpoolEndLostRight, 2),
         Row(1, 1, [11]), Row(1, 1, [20]), Row(1, 1, [10]), Row(1, 1, [20]),
         [Row(1, 1, [20]), Row(1, 1, [21])], 1, false, LoopSpooledRightEmpty, 3)

  const SpoolEndKeptMid2a :=
    Join(RightOuter.(restoreShadow := true),
         Input(SpoolEndLostLeft, 2), Input(SpoolEndLostRight, 2),
         Row(1, 1, [11]), Row(1, 1, [21]), Row(1, 1, [10]), Row(1, 1, [20]),
         [Row(1, 1, [20]), Row(1, 1, [21])], 0, false, LoopSpooledRightEmpty, 2)

  const SpoolEndKeptAfter3 :=
    Join(RightOuter.(restoreShadow := true),
         Input(SpoolEndLostLeft, 2), Input(SpoolEndLostRight, 2),
         Row(1, 1, [11]), Row(1, 1, [21]), Row(1, 1, [10]), Row(1, 1, [20]),
         [Row(1, 1, [20]), Row(1, 1, [21])], 2, false, LoopSpooledRightEmpty, 4)

  const SpoolEndKeptAfter4 :=
    Join(RightOuter.(restoreShadow := true),
         Input(SpoolEndLostLeft, 3), Input(SpoolEndLostRight, 2),
         Row(1, 2, [12]), Row(1, MaxU64, [MaxU64]), Row(1, 1, [10]), Row(1, 1, [20]),
         [Row(1, 1, [20]), Row(1, 1, [21])], 2, false, LoopEmptyRight, 5)

  const SpoolEndKeptAfter5 :=
    Join(RightOuter.(restoreShadow := true),
         Input(SpoolEndLostLeft, 3), Input(SpoolEndLostRight, 2),
         Row(0, 2, [12]), Row(1, MaxU64, [MaxU64]), Row(1, 1, [10]), Row(1, 1, [20]),
         [Row(1, 1, [20]), Row(1, 1, [21])], 2, false, Empty, 5)

  lemma SpoolEndKeptCall0()
    ensures Next(Bound(SpoolEndKeptStart), 20) == Some(Return(SpoolEndKeptAfter0, 1, Matched))
  {
    assert Step(Bound(SpoolEndKeptStart)) == Continue(SpoolEndKeptMid0a);
    NextContinues(Bound(SpoolEndKeptStart), SpoolEndKeptMid0a, 20);
  }

  lemma SpoolEndKeptCall1()
    ensures Next(SpoolEndKeptAfter0, 20) == Some(Return(SpoolEndKeptAfter1, 1, Matched))
  {
  }

  lemma SpoolEndKeptCall2()
    ensures Next(SpoolEndKeptAfter1, 20) == Some(Return(SpoolEndKeptAfter2, 1, Matched))
  {
    assert Step(SpoolEndKeptAfter1) == Continue(SpoolEndKeptMid2a);
    NextContinues(SpoolEndKeptAfter1, SpoolEndKeptMid2a, 20);
  }

  lemma SpoolEndKeptCall3()
    ensures Next(SpoolEndKeptAfter2, 20) == Some(Return(SpoolEndKeptAfter3, 1, Matched))
  {
  }

  lemma SpoolEndKeptCall4()
    ensures Next(SpoolEndKeptAfter3, 20) == Some(Return(SpoolEndKeptAfter4, 1, LeftOnly))
  {
    PadSingle(Row(1, 1, [21]), MaxU64);
  }

  lemma SpoolEndKeptCall5()
    ensures Next(SpoolEndKeptAfter4, 20) == Some(Return(SpoolEndKeptAfter5, 0, Silent))
  {
  }

  lemma SpoolEndKeptFrom4(fuel: nat)
    requires fuel == 20
    ensures Drive(SpoolEndKeptAfter4, 1, fuel) == Some((SpoolEndKeptAfter5, [
      Emission(0, Silent, Row(0, 2, [12]), Row(1, MaxU64, [MaxU64]))]))
  {
    SpoolEndKeptCall5();
    DriveLast(SpoolEndKeptAfter4, fuel, Return(SpoolEndKeptAfter5, 0, Silent),
      Emission(0, Silent, Row(0, 2, [12]), Row(1, MaxU64, [MaxU64])));
  }

  lemma SpoolEndKeptFrom3(fuel: nat)
    requires fuel == 20
    ensures Drive(SpoolEndKeptAfter3, 2, fuel) == Some((SpoolEndKeptAfter5, [
      Emission(1, LeftOnly, Row(1, 2, [12]), Row(1, MaxU64, [MaxU64])),
      Emission(0, Silent, Row(0, 2, [12]), Row(1, MaxU64, [MaxU64]))]))
  {
    SpoolEndKeptCall4();
    SpoolEndKeptFrom4(fuel);
    DriveCall(SpoolEndKeptAfter3, 2, fuel, Return(SpoolEndKeptAfter4, 1, LeftOnly), SpoolEndKeptAfter5, [
      Emission(1, LeftOnly, Row(1, 2, [12]), Row(1, MaxU64, [MaxU64])),
      Emission(0, Silent, Row(0, 2, [12]), Row(1, MaxU64, [MaxU64]))]);
  }

  lemma SpoolEndKeptFrom2(fuel: nat)
    requires fuel == 20
    ensures Drive(SpoolEndKeptAfter2, 3, fuel) == Some((SpoolEndKeptAfter5, [
      Emission(1, Matched, Row(1, 1, [11]), Row(1, 1, [21])),
      Emission(1, LeftOnly, Row(1, 2, [12]), Row(1, MaxU64, [MaxU64])),
      Emission(0, Silent, Row(0, 2, [12]), Row(1, MaxU64, [MaxU64]))]))
  {
    SpoolEndKeptCall3();
    SpoolEndKeptFrom3(fuel);
    DriveCall(SpoolEndKeptAfter2, 3, fuel, Return(SpoolEndKeptAfter3, 1, Matched), SpoolEndKeptAfter5, [
      Emission(1, Matched, Row(1, 1, [11]), Row(1, 1, [21])),
      Emission(1, LeftOnly, Row(1, 2, [12]), Row(1, MaxU64, [MaxU64])),
      Emission(0, Silent, Row(0, 2, [12]), Row(1, MaxU64, [MaxU64]))]);
  }

  lemma SpoolEndKeptFrom1(fuel: nat)
    requires fuel == 20
    ensures Drive(SpoolEndKeptAfter1, 4, fuel) == Some((SpoolEndKeptAfter5, [
      Emission(1, Matched, Row(1, 1, [11]), Row(1, 1, [20])),
      Emission(1, Matched, Row(1, 1, [11]), Row(1, 1, [21])),
      Emission(1, LeftOnly, Row(1, 2, [12]), Row(1, MaxU64, [MaxU64])),
      Emission(0, Silent, Row(0, 2, [12]), Row(1, MaxU64, [MaxU64]))]))
  {
    SpoolEndKeptCall2();
    SpoolEndKeptFrom2(fuel);
    DriveCall(SpoolEndKeptAfter1, 4, fuel, Return(SpoolEndKeptAfter2, 1, Matched), SpoolEndKeptAfter5, [
      Emission(1, Matched, Row(1, 1, [11]), Row(1, 1, [20])),
      Emission(1, Matched, Row(1, 1, [11]), Row(1, 1, [21])),
      Emission(1, LeftOnly, Row(1, 2, [12]), Row(1, MaxU64, [MaxU64])),
      Emission(0, Silent, Row(0, 2, [12]), Row(1, MaxU64, [MaxU64]))]);
  }

  lemma SpoolEndKeptFrom0(fuel: nat)
    requires fuel == 20
    ensures Drive(SpoolEndKeptAfter0, 5, fuel) == Some((SpoolEndKeptAfter5, [
      Emission(1, Matched, Row(1, 1, [10]), Row(1, 1, [21])),
      Emission(1, Matched, Row(1, 1, [11]), Row(1, 1, [20])),
      Emission(1, Matched, Row(1, 1, [11]), Row(1, 1, [21])),
      Emission(1, LeftOnly, Row(1, 2, [12]), Row(1, MaxU64, [MaxU64])),
      Emission(0, Silent, Row(0, 2, [12]), Row(1, MaxU64, [MaxU64]))]))
  {
    SpoolEndKeptCall1();
    SpoolEndKeptFrom1(fuel);
    DriveCall(SpoolEndKeptAfter0, 5, fuel, Return(SpoolEndKeptAfter1, 1, Matched), SpoolEndKeptAfter5, [
      Emission(1, Matched, Row(1, 1, [10]), Row(1, 1, [21])),
      Emission(1, Matched, Row(1, 1, [11]), Row(1, 1, [20])),
      Emission(1, Matched, Row(1, 1, [11]), Row(1, 1, [21])),
      Emission(1, LeftOnly, Row(1, 2, [12]), Row(1, MaxU64, [MaxU64])),
      Emission(0, Silent, Row(0, 2, [12]), Row(1, MaxU64, [MaxU64]))]);
  }
}
