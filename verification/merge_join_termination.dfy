/**
  When does `next()` return?

  The source pads exhausted or unmatched sides with `~0u`, a 32-bit
  all-ones constant, although keys are 64-bit.  With a left-optional,
  not right-optional join whose left child is exhausted while the right
  key is above 0xFFFF_FFFF, the padded left key compares below the right
  key forever: scanStepLeft pulls nothing, pads again and loops
  (NarrowSentinelDiverges).  With the full-width all-ones sentinel every
  call of `next()` returns within a bound fixed by the rows still to be
  read (NextTerminates, FirstTerminates).
*/
module MergeJoinTermination {
  import opened Base
  import opened MergeJoin
  import opened MergeJoinProofs

  /** Rows a child has not produced yet. */
  function Remaining(inp: Input): nat
  {
    if inp.pos < |inp.rows| then |inp.rows| - inp.pos else 0
  }

  function Unread(j: Join): nat
  {
    Remaining(j.left) + Remaining(j.right)
  }

  /** How many loop iterations a state may take without reading a row. */
  function Rank(j: Join): nat
  {
    match j.state
    case Empty => 0
    case LoopEmptyLeft => 1
    case LoopEmptyLeftCopyLeft => 1
    case LoopEmptyRight => 1
    case LoopEmptyRightCopyRight => 1
    case ScanStepLeft => 2
    case ScanStepRight => 2
    case ScanStepBoth => 2
    case LoopEmptyRightHasData => 2
    case ScanHasBoth => 3
    case ScanHasBothSwapped => 3
    case ScanStepLeftCopyRight => 3
    case ScanStepRightCopyLeft => 3
    case LoopEqualLeft => 3
    case LoopEqualRight => 3
    case LoopEqualLeftHasData => 4
    case LoopEqualRightHasData => 4
    case LoopSpooledRightEmpty => if j.leftInCopy then 5 else 4
    case LoopSpooledRightHasData => if j.leftInCopy then 5 else 4
  }

  /** Every loop iteration that does not return lowers this measure. */
  function Measure(j: Join): nat
  {
    Unread(j) * 6 + Rank(j)
  }

  /** The inputs a corrected join runs on: full-width sentinel, and children
      that keep the 0-means-end contract. */
  ghost predicate FullWidth(j: Join)
  {
    && j.cfg.sentinel == MaxU64
    && PositiveCounts(j.left.rows) && PositiveCounts(j.right.rows)
  }

  lemma DrainReads(j: Join)
    ensures Unread(DrainLeft(j)) <= Unread(j) && Unread(DrainRight(j)) <= Unread(j)
  {
  }

  /** The match branch continues only after reading a row on each side. */
  lemma MatchBound(j: Join)
    requires FullWidth(j)
    ensures Match(j).Continue? ==> Measure(Match(j).after) + 12 <= Unread(j) * 6 + 5
  {
  }

  /** The match branch returns when either child is exhausted. */
  lemma MatchStopsAtEnd(j: Join)
    requires FullWidth(j)
    requires Remaining(j.left) == 0 || Remaining(j.right) == 0
    ensures Match(j).Return?
  {
  }

  lemma CompareBound(j: Join)
    requires FullWidth(j)
    ensures Compare(j).Continue? ==> Measure(Compare(j).after) < Unread(j) * 6 + 3
  {
    MatchBound(j);
  }

  /** With a padded, exhausted optional side the comparison always returns:
      the full-width sentinel is at least every key. */
  lemma CompareStopsOnPaddedEnd(j: Join)
    requires FullWidth(j)
    requires || (j.lcur.key == MaxU64 && j.cfg.leftOptional && Remaining(j.left) == 0)
             || (j.rcur.key == MaxU64 && j.cfg.rightOptional && Remaining(j.right) == 0)
    ensures Compare(j).Return?
  {
    if j.lcur.key == j.rcur.key {
      MatchStopsAtEnd(j);
    }
  }

  lemma AdvanceRightBound(j: Join)
    requires FullWidth(j)
    ensures var o := AdvanceRight(j);
            o.Continue? ==>
              Measure(o.after) < Unread(j) * 6 +
                (if j.state == ScanStepRight || j.state == ScanStepBoth then 0 else 3)
  {
    CompareBound(j);
    if j.state == ScanStepRight || j.state == ScanStepBoth {
      var j1 := PullRight(j);
      CompareBound(j1);
      if j1.rcur.count == 0 && j.cfg.rightOptional {
        CompareStopsOnPaddedEnd(PadRight(j1));
      }
    }
  }

  lemma AdvanceLeftBound(j: Join)
    requires FullWidth(j)
    ensures var o := AdvanceLeft(j);
            o.Continue? ==>
              Measure(o.after) < Unread(j) * 6 +
                (if j.state == ScanStepLeft || j.state == ScanStepRight || j.state == ScanStepBoth then 0 else 3)
  {
    AdvanceRightBound(j);
    if j.state == ScanStepLeft || j.state == ScanStepBoth {
      var j1 := PullLeft(j);
      AdvanceRightBound(j1);
      if j1.lcur.count == 0 && j.cfg.leftOptional {
        var j2 := PadLeft(j1);
        AdvanceRightBound(j2);
        if j.state == ScanStepLeft {
          CompareStopsOnPaddedEnd(j2);
        }
      }
    }
  }

  lemma EmptyRightCompareBound(j: Join)
    requires FullWidth(j)
    ensures var o := EmptyRightCompare(j);
            o.Continue? ==> o.after.state == LoopEmptyRight && Unread(o.after) == Unread(j)
  {
  }

  /** Leaving or rewinding the replay reads nothing and lands on a state of
      rank at most 4. */
  lemma SpooledBlockBound(j: Join)
    requires FullWidth(j) && !j.leftInCopy
    ensures var o := SpooledBlock(j);
            o.Continue? ==> Unread(o.after) <= Unread(j) && Rank(o.after) <= 4
  {
  }

  lemma SpooledBound(j: Join)
    requires FullWidth(j)
    requires j.state == LoopSpooledRightEmpty || j.state == LoopSpooledRightHasData
    ensures Spooled(j).Continue? ==> Measure(Spooled(j).after) < Measure(j)
  {
    if j.bufferIter >= |j.buffer| {
      if j.leftInCopy {
        SpooledBlockBound(SwapLeft(j).(leftInCopy := false));
      } else {
        var j1 := PullLeft(j);
        if j1.lcur.count != 0 {
          SpooledBlockBound(j1);
          assert Unread(j1) + 1 == Unread(j);
        }
      }
    }
  }

  lemma ScanBound(j: Join)
    requires FullWidth(j)
    requires j.state in {ScanHasBothSwapped, ScanStepLeft, ScanStepBoth, ScanStepRight, ScanHasBoth,
                         ScanStepLeftCopyRight, ScanStepRightCopyLeft}
    ensures Step(j).Continue? ==> Measure(Step(j).after) < Measure(j)
  {
    match j.state
    case ScanHasBothSwapped => AdvanceLeftBound(SwapRight(SwapLeft(j)));
    case ScanStepLeft => AdvanceLeftBound(j);
    case ScanStepBoth => AdvanceLeftBound(j);
    case ScanStepRight => AdvanceRightBound(j);
    case ScanHasBoth => CompareBound(j);
    case _ =>
  }

  lemma EmptyBound(j: Join)
    requires FullWidth(j)
    requires j.state in {Empty, LoopEmptyLeft, LoopEmptyLeftCopyLeft, LoopEmptyRight,
                         LoopEmptyRightCopyRight, LoopEmptyRightHasData}
    ensures Step(j).Continue? ==> Measure(Step(j).after) < Measure(j)
  {
    match j.state
    case LoopEmptyRightHasData => EmptyRightCompareBound(j);
    case LoopEmptyRight => EmptyRightCompareBound(PullLeft(j));
    case LoopEmptyRightCopyRight =>
      EmptyRightCompareBound(PullLeft(SwapRight(j).(state := LoopEmptyRight)));
    case _ =>
  }

  /** `loopEqualLeft`: step left within the block, or leave it. */
  lemma EqualLeftBound(j: Join)
    requires FullWidth(j)
    requires j.state == LoopEqualLeft || j.state == LoopEqualLeftHasData
    ensures EqualLeft(j).Continue? ==> Measure(EqualLeft(j).after) < Unread(j) * 6 + Rank(j)
  {
    if j.state == LoopEqualLeft {
      var j1 := PullLeft(j);
      if j1.lcur.count != 0 {
        assert Unread(j1) + 1 == Unread(j);
      } else {
        assert Unread(j1) == Unread(j);
        DrainReads(j1);
      }
    }
  }

  /** Mirror of EqualLeftBound. */
  lemma EqualRightBound(j: Join)
    requires FullWidth(j)
    requires j.state == LoopEqualRight || j.state == LoopEqualRightHasData
    ensures EqualRight(j).Continue? ==> Measure(EqualRight(j).after) < Unread(j) * 6 + Rank(j)
  {
    if j.state == LoopEqualRight {
      var j1 := PullRight(j);
      if j1.rcur.count != 0 {
        assert Unread(j1) + 1 == Unread(j);
      } else {
        assert Unread(j1) == Unread(j);
        DrainReads(j1);
      }
    }
  }

  lemma EqualBound(j: Join)
    requires FullWidth(j)
    requires j.state in {LoopEqualLeft, LoopEqualLeftHasData, LoopEqualRight, LoopEqualRightHasData}
    ensures Step(j).Continue? ==> Measure(Step(j).after) < Measure(j)
  {
    match j.state
    case LoopEqualLeft => EqualLeftBound(j);
    case LoopEqualLeftHasData => EqualLeftBound(SwapLeft(j));
    case LoopEqualRight => EqualRightBound(j);
    case LoopEqualRightHasData => EqualRightBound(SwapRight(j));
  }

  /** Under the full-width sentinel, each iteration of the `next()` loop that
      does not return strictly lowers the measure. */
  lemma StepDecreases(j: Join)
    requires FullWidth(j)
    ensures Step(j).Continue? ==> Measure(Step(j).after) < Measure(j)
  {
    if j.state in {ScanHasBothSwapped, ScanStepLeft, ScanStepBoth, ScanStepRight, ScanHasBoth,
                   ScanStepLeftCopyRight, ScanStepRightCopyLeft} {
      ScanBound(j);
    } else if j.state in {Empty, LoopEmptyLeft, LoopEmptyLeftCopyLeft, LoopEmptyRight,
                          LoopEmptyRightCopyRight, LoopEmptyRightHasData} {
      EmptyBound(j);
    } else if j.state in {LoopEqualLeft, LoopEqualLeftHasData, LoopEqualRight, LoopEqualRightHasData} {
      EqualBound(j);
    } else {
      SpooledBound(j);
    }
  }

  /** A larger budget does not change a loop that already returned. */
  lemma {:induction false} IterateMoreFuel(body: Join -> Outcome, j: Join, f: nat, g: nat)
    requires forall x :: Accounted(x, body(x))
    requires f <= g && Iterate(body, j, f).Some?
    ensures Iterate(body, j, g) == Iterate(body, j, f)
    decreases f
  {
    var o := body(j);
    if o.Continue? {
      IterateMoreFuel(body, o.after, f - 1, g - 1);
    }
  }

  lemma NextMoreFuel(j: Join, f: nat, g: nat)
    requires f <= g && Next(j, f).Some?
    ensures Next(j, g) == Next(j, f)
  {
    IterateMoreFuel(Step, j, f, g);
  }

  /** A loop whose body lowers `measure` on every iteration that does not
      return, on states where `inv` holds and keeps holding, returns within
      measure + 1 iterations. */
  lemma {:induction false} IterateTerminates(body: Join -> Outcome, measure: Join -> nat, inv: Join -> bool, j: Join)
    requires forall x :: Accounted(x, body(x))
    requires forall x :: inv(x) && body(x).Continue? ==>
               inv(body(x).after) && measure(body(x).after) < measure(x)
    requires inv(j)
    ensures Iterate(body, j, measure(j) + 1).Some?
    decreases measure(j)
  {
    var o := body(j);
    if o.Continue? {
      IterateTerminates(body, measure, inv, o.after);
      IterateMoreFuel(body, o.after, measure(o.after) + 1, measure(j));
    }
  }

  /** With the full-width sentinel, `next()` returns within Measure + 1
      loop iterations, from any state. */
  lemma NextTerminates(j: Join)
    requires FullWidth(j)
    ensures Next(j, Measure(j) + 1).Some?
  {
    forall x | FullWidth(x) && Step(x).Continue?
      ensures FullWidth(Step(x).after) && Measure(Step(x).after) < Measure(x)
    {
      StepDecreases(x);
    }
    IterateTerminates(Step, Measure, FullWidth, j);
  }

  /** The budget `first()` needs: six iterations per input row and four more. */
  function FirstBudget(j: Join): nat
  {
    (|j.left.rows| + |j.right.rows|) * 6 + 4
  }

  /** With the full-width sentinel, `first()` returns within FirstBudget. */
  lemma FirstTerminates(j: Join)
    requires FullWidth(j)
    ensures First(j, FirstBudget(j)).Some?
  {
    var j0 := j.(observed := 0);
    var (linp, lregs) := Restart(j0.left, j0.lcur);
    var j1 := j0.(left := linp, lcur := lregs);
    var (rinp, rregs) := Restart(j1.right, j1.rcur);
    var j2 := j1.(right := rinp, rcur := rregs).(state := ScanHasBoth);
    if j1.lcur.count != 0 && j2.rcur.count != 0 {
      NextTerminates(j2);
      NextMoreFuel(j2, Measure(j2) + 1, FirstBudget(j));
    }
  }

  // ---------------------------------------------------------------------
  // The narrow sentinel as written

  /** A left-optional inner-right join: left = [key 5], right = [key 2^32]. */
  function WideKeyJoin(sentinel: u64): Join
  {
    Join(Config(true, false, false, sentinel, false),
         Input([Row(1, 5, [])], 0), Input([Row(1, 0x1_0000_0000, [])], 0),
         Row(0, 0, []), Row(0, 0, []), Row(0, 0, []), Row(0, 0, []),
         [], 0, false, Empty, 0)
  }

  /** The state the as-written join reaches after its left child ran out:
      the padded left key 0xFFFF_FFFF is below the right key. */
  function StuckState(): Join
  {
    WideKeyJoin(NarrowSentinel).(
      left := Input([Row(1, 5, [])], 1),
      right := Input([Row(1, 0x1_0000_0000, [])], 1),
      lcur := Row(0, NarrowSentinel, []),
      rcur := Row(1, 0x1_0000_0000, []),
      state := ScanStepLeft)
  }

  lemma {:induction false} StuckStateLoops(fuel: nat)
    ensures Next(StuckState(), fuel) == None
    decreases fuel
  {
    if fuel > 0 {
      assert Step(StuckState()) == Continue(StuckState());
      NextContinues(StuckState(), StuckState(), fuel);
      StuckStateLoops(fuel - 1);
    }
  }

  /** An iteration that continues hands the rest of the budget on. */
  lemma NextContinues(j: Join, a: Join, fuel: nat)
    requires fuel > 0 && Step(j) == Continue(a)
    ensures Next(j, fuel) == Next(a, fuel - 1)
  {
  }

  /** WideKeyJoin with both first rows bound, about to compare. */
  function WideKeyBound(sentinel: u64): Join
  {
    WideKeyJoin(sentinel).(left := Input([Row(1, 5, [])], 1),
                           right := Input([Row(1, 0x1_0000_0000, [])], 1),
                           lcur := Row(1, 5, []), rcur := Row(1, 0x1_0000_0000, []),
                           state := ScanHasBoth)
  }

  /** `first()` binds both first rows and runs `next()`; the left key is
      the smaller and the right side is not optional, so the first
      iteration steps left. */
  lemma WideKeyStarts(sentinel: u64, fuel: nat)
    ensures First(WideKeyJoin(sentinel), fuel) == Next(WideKeyBound(sentinel), fuel)
    ensures fuel > 0 ==> Next(WideKeyBound(sentinel), fuel) ==
                         Next(WideKeyBound(sentinel).(state := ScanStepLeft), fuel - 1)
  {
    if fuel > 0 {
      var j2 := WideKeyBound(sentinel);
      assert Step(j2) == Continue(j2.(state := ScanStepLeft));
      NextContinues(j2, j2.(state := ScanStepLeft), fuel);
    }
  }

  /** As written, stepping left finds the left child exhausted, pads the
      left key to 0xFFFF_FFFF and lands in StuckState. */
  lemma NarrowPadsBelow(fuel: nat)
    requires fuel > 0
    ensures Next(WideKeyBound(NarrowSentinel).(state := ScanStepLeft), fuel) == Next(StuckState(), fuel - 1)
  {
    var j3 := WideKeyBound(NarrowSentinel).(state := ScanStepLeft);
    assert Step(j3) == Continue(StuckState());
    NextContinues(j3, StuckState(), fuel);
  }

  lemma NoFuelNoReturn(j: Join)
    ensures Next(j, 0) == None
  {
  }

  /** As written, `first()` on WideKeyJoin never returns, whatever the budget. */
  lemma NarrowSentinelDiverges(fuel: nat)
    ensures First(WideKeyJoin(NarrowSentinel), fuel) == None
  {
    WideKeyStarts(NarrowSentinel, fuel);
    if fuel == 0 {
      NoFuelNoReturn(WideKeyBound(NarrowSentinel));
    } else if fuel == 1 {
      NoFuelNoReturn(WideKeyBound(NarrowSentinel).(state := ScanStepLeft));
    } else {
      NarrowPadsBelow(fuel - 1);
      StuckStateLoops(fuel - 2);
    }
  }

  /** With the full-width sentinel, stepping left pads the left key to
      2^64 - 1, which is above the right key, and emits the right tuple. */
  lemma FullPadsAbove()
    ensures Step(WideKeyBound(MaxU64).(state := ScanStepLeft)) ==
            Emit(WideKeyBound(MaxU64).(lcur := Row(0, MaxU64, []), state := ScanStepRight), 1, RightOnly)
  {
  }

  /** With the full-width sentinel the same input emits the unmatched right
      tuple once, padded on the left. */
  lemma FullSentinelEmitsWideKey()
    ensures var r := First(WideKeyJoin(MaxU64), FirstBudget(WideKeyJoin(MaxU64)));
            && r.Some? && r.value.count == 1 && r.value.kind == RightOnly
            && r.value.after.rcur.key == 0x1_0000_0000
  {
    WideKeyStarts(MaxU64, 16);
    FullPadsAbove();
  }
}
