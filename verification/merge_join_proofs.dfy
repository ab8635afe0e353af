/**
  Properties of the merge-join state machine: the shadow discipline, the
  outer-join padding on unequal keys, the absorbing `empty` state, the
  spooling of an n:m duplicate run, the invariant that makes every matched
  emission pair two tuples with the same key, and the running
  observed-cardinality counter over a whole session.
*/
module MergeJoinProofs {
  import opened Base
  import opened MergeJoin

  // ---------------------------------------------------------------------
  // Shadows

  /** Swapping twice restores registers and shadow; a copy followed by a
      swap leaves the registers as they were. */
  lemma ShadowSwapRestores(j: Join)
    ensures SwapLeft(SwapLeft(j)) == j
    ensures SwapRight(SwapRight(j)) == j
    ensures SwapLeft(CopyLeft(j)).lcur == j.lcur
    ensures SwapRight(CopyRight(j)).rcur == j.rcur
  {
  }

  // ---------------------------------------------------------------------
  // Unequal keys

  /** Left key smaller: without right-optional the left side is stepped with
      no emission; with it the left multiplicity is emitted against padded
      right registers, the real right tuple goes into the shadow, and the
      following call swaps it back before stepping left. */
  lemma SmallerLeftKey(j: Join)
    requires j.state == ScanHasBoth && j.lcur.key < j.rcur.key
    ensures !j.cfg.rightOptional ==> Step(j) == Continue(j.(state := ScanStepLeft))
    ensures j.cfg.rightOptional && j.rcur.key != j.cfg.sentinel ==>
              var o := Step(j);
              && o.Return? && o.kind == LeftOnly && o.count == j.lcur.count
              && o.after.lcur == j.lcur
              && o.after.rshadow == j.rcur
              && o.after.rcur == Pad(j.rcur, j.cfg.sentinel)
              && o.after.state == ScanStepLeftCopyRight
              && Step(o.after) == Continue(o.after.(rcur := j.rcur,
                                                    rshadow := Pad(j.rcur, j.cfg.sentinel),
                                                    state := ScanStepLeft))
  {
  }

  /** Mirror of SmallerLeftKey. */
  lemma SmallerRightKey(j: Join)
    requires j.state == ScanHasBoth && j.lcur.key > j.rcur.key
    ensures !j.cfg.leftOptional ==> Step(j) == Continue(j.(state := ScanStepRight))
    ensures j.cfg.leftOptional && j.lcur.key != j.cfg.sentinel ==>
              var o := Step(j);
              && o.Return? && o.kind == RightOnly && o.count == j.rcur.count
              && o.after.rcur == j.rcur
              && o.after.lshadow == j.lcur
              && o.after.lcur == Pad(j.lcur, j.cfg.sentinel)
              && o.after.state == ScanStepRightCopyLeft
              && Step(o.after) == Continue(o.after.(lcur := j.lcur,
                                                    lshadow := Pad(j.lcur, j.cfg.sentinel),
                                                    state := ScanStepRight))
  {
  }

  /** A padded row has its key and every tail register set to the sentinel,
      and keeps its multiplicity and its number of tail registers. */
  lemma PadIsPadded(r: Row, s: u64)
    ensures Padded(Pad(r, s), s)
    ensures Pad(r, s).count == r.count && |Pad(r, s).tail| == |r.tail|
  {
  }

  // ---------------------------------------------------------------------
  // The empty state

  /** Once the state is `empty`, `next()` returns 0 and stays `empty`. */
  lemma EmptyIsAbsorbing(j: Join, fuel: nat)
    requires j.state == Empty && fuel > 0
    ensures Next(j, fuel) == Some(Return(j, 0, Silent))
  {
  }

  // ---------------------------------------------------------------------
  // Restoring the shadow (the corrected join)

  /** Corrected `loopEqualLeft`: when an optional left side runs out at the
      end of a left run, the call returns the right tuple parked in the
      right shadow, unmatched, against padded left registers, and leaves the
      right child where it was so the scan goes on from the tuple after it. */
  lemma LeftShadowReturned(j: Join, fuel: nat)
    requires fuel > 0 && j.state == LoopEqualLeft
    requires j.cfg.leftOptional && j.cfg.restoreShadow && j.left.pos >= |j.left.rows|
    ensures var r := Next(j, fuel);
            && r.Some? && r.value.Return? && r.value.kind == RightOnly
            && r.value.count == j.rshadow.count && r.value.after.rcur == j.rshadow
            && r.value.after.right == j.right && r.value.after.state == ScanStepRight
            && Padded(r.value.after.lcur, j.cfg.sentinel)
  {
  }

  /** Corrected `loopEqualRight`, the mirror: the left tuple parked in the
      left shadow is returned unmatched when an optional right side runs
      out. */
  lemma RightShadowReturned(j: Join, fuel: nat)
    requires fuel > 0 && j.state == LoopEqualRight
    requires j.cfg.rightOptional && j.cfg.restoreShadow && j.right.pos >= |j.right.rows|
    ensures var r := Next(j, fuel);
            && r.Some? && r.value.Return? && r.value.kind == LeftOnly
            && r.value.count == j.lshadow.count && r.value.after.lcur == j.lshadow
            && r.value.after.left == j.left && r.value.after.state == ScanStepLeft
            && Padded(r.value.after.rcur, j.cfg.sentinel)
  {
  }

  /** Corrected `loopSpooledRightHasData`: once the spooled run has been
      replayed for the last left tuple and the optional left side runs out,
      the right tuple that ended the run (in the right shadow) is returned
      unmatched before the remaining right tuples are. */
  lemma SpoolShadowReturned(j: Join, fuel: nat)
    requires fuel > 0 && j.state == LoopSpooledRightHasData
    requires j.bufferIter >= |j.buffer| && !j.leftInCopy
    requires j.cfg.leftOptional && j.cfg.restoreShadow && j.left.pos >= |j.left.rows|
    ensures var r := Next(j, fuel);
            && r.Some? && r.value.Return? && r.value.kind == RightOnly
            && r.value.count == j.rshadow.count && r.value.after.rcur == j.rshadow
            && r.value.after.right == j.right && r.value.after.state == LoopEmptyLeft
            && Padded(r.value.after.lcur, j.cfg.sentinel)
  {
  }

  /** Corrected `loopSpooledRightEmpty`: when the right child ran out during
      spooling and the next left tuple ends the left block, an optional
      right side returns that left tuple unmatched, against padded right
      registers, before `loopEmptyRight` pulls the left tuples after it. */
  lemma SpoolEndReturned(j: Join, fuel: nat)
    requires fuel > 0 && j.state == LoopSpooledRightEmpty
    requires j.bufferIter >= |j.buffer| && !j.leftInCopy
    requires j.left.pos < |j.left.rows| && j.left.rows[j.left.pos].count > 0
    requires j.left.rows[j.left.pos].key != j.lshadow.key
    requires j.cfg.rightOptional && j.cfg.restoreShadow
    ensures var r := Next(j, fuel);
            && r.Some? && r.value.Return? && r.value.kind == LeftOnly
            && r.value.count == j.left.rows[j.left.pos].count
            && r.value.after.lcur == j.left.rows[j.left.pos]
            && r.value.after.left.pos == j.left.pos + 1 && r.value.after.state == LoopEmptyRight
            && Padded(r.value.after.rcur, j.cfg.sentinel)
  {
  }

  // ---------------------------------------------------------------------
  // Spooling the n:m case

  /** Every row has a positive multiplicity: the child contract, since 0
      signals the end of the input. */
  ghost predicate PositiveCounts(rows: seq<Row>)
  {
    forall i :: 0 <= i < |rows| ==> rows[i].count > 0
  }

  /** The end of the run of rows with key `k` that starts at `from`: the first
      index at or after `from` whose key differs, or the length. */
  function RunEnd(rows: seq<Row>, from: nat, k: u64): (e: nat)
    requires from <= |rows|
    ensures from <= e <= |rows|
    ensures forall i :: from <= i < e ==> rows[i].key == k
    ensures e < |rows| ==> rows[e].key != k
    decreases |rows| - from
  {
    if from == |rows| || rows[from].key != k then from else RunEnd(rows, from + 1, k)
  }

  /** One round of the spooling loop on a row of the run's key. */
  lemma SpoolRightOnRun(j: Join)
    requires j.right.pos < |j.right.rows|
    requires j.right.rows[j.right.pos].count > 0
    requires j.right.rows[j.right.pos].key == j.rshadow.key
    ensures SpoolRight(j) == SpoolRight(j.(buffer := j.buffer + [j.rcur],
                                           right := j.right.(pos := j.right.pos + 1),
                                           rcur := j.right.rows[j.right.pos]))
  {
  }

  /** The last round of the spooling loop: the child ran out or the next
      row has another key. */
  lemma SpoolRightLast(j: Join)
    requires j.right.pos <= |j.right.rows|
    requires j.right.pos < |j.right.rows| ==>
      j.right.rows[j.right.pos].count > 0 && j.right.rows[j.right.pos].key != j.rshadow.key
    ensures SpoolRight(j).buffer == j.buffer + [j.rcur]
    ensures var r := SpoolRight(j);
            && r.bufferIter == 0 && r.leftInCopy == j.leftInCopy
            && r.lcur == j.lcur && r.lshadow == j.lshadow
            && (r.state == LoopSpooledRightEmpty <==> j.right.pos == |j.right.rows|)
            && (r.state == LoopSpooledRightEmpty || r.state == LoopSpooledRightHasData)
            && (j.right.pos < |j.right.rows| ==>
                  r.right.pos == j.right.pos + 1 && r.rshadow == j.right.rows[j.right.pos] && r.rcur == j.rshadow)
            && (j.right.pos == |j.right.rows| ==> r.right.pos == |j.right.rows|)
  {
  }

  lemma AppendRun<T>(b: seq<T>, x: T, rows: seq<T>, pos: nat, e: nat)
    requires pos < e <= |rows|
    ensures b + [x] + rows[pos .. e] == (b + [x]) + [rows[pos]] + rows[pos + 1 .. e]
  {
    assert rows[pos .. e] == [rows[pos]] + rows[pos + 1 .. e];
  }

  /** What the spooling loop appends: the bound right tuple and the rest
      of its key run. */
  lemma {:induction false} SpoolRightBuffer(j: Join)
    requires j.right.pos <= |j.right.rows|
    requires PositiveCounts(j.right.rows)
    requires j.rcur.key == j.rshadow.key
    ensures var r := SpoolRight(j);
            r.buffer == j.buffer + [j.rcur] + j.right.rows[j.right.pos .. RunEnd(j.right.rows, j.right.pos, j.rshadow.key)]
    decreases |j.right.rows| - j.right.pos
  {
    var rows, pos := j.right.rows, j.right.pos;
    var e := RunEnd(rows, pos, j.rshadow.key);
    if pos == |rows| || rows[pos].key != j.rshadow.key {
      SpoolRightLast(j);
      assert rows[pos .. e] == [];
    } else {
      var j2 := j.(buffer := j.buffer + [j.rcur], right := j.right.(pos := pos + 1), rcur := rows[pos]);
      SpoolRightOnRun(j);
      SpoolRightBuffer(j2);
      assert RunEnd(rows, pos + 1, j.rshadow.key) == e;
      AppendRun(j.buffer, j.rcur, rows, pos, e);
    }
  }

  /** Where the spooling loop stops: at the end of the child, or on the
      first row of another key, which it leaves in the shadow. */
  lemma {:induction false} SpoolRightStops(j: Join)
    requires j.right.pos <= |j.right.rows|
    requires PositiveCounts(j.right.rows)
    requires j.rcur.key == j.rshadow.key
    ensures var r := SpoolRight(j);
            var e := RunEnd(j.right.rows, j.right.pos, j.rshadow.key);
            && r.bufferIter == 0 && r.leftInCopy == j.leftInCopy
            && r.lcur == j.lcur && r.lshadow == j.lshadow
            && (r.state == LoopSpooledRightEmpty <==> e == |j.right.rows|)
            && (r.state == LoopSpooledRightEmpty || r.state == LoopSpooledRightHasData)
            && (e < |j.right.rows| ==>
                  r.right.pos == e + 1 && r.rshadow == j.right.rows[e] && r.rcur == j.rshadow)
            && (e == |j.right.rows| ==> r.right.pos == |j.right.rows|)
    decreases |j.right.rows| - j.right.pos
  {
    var rows, pos := j.right.rows, j.right.pos;
    if pos == |rows| || rows[pos].key != j.rshadow.key {
      SpoolRightLast(j);
    } else {
      var j2 := j.(buffer := j.buffer + [j.rcur], right := j.right.(pos := pos + 1), rcur := rows[pos]);
      SpoolRightOnRun(j);
      SpoolRightStops(j2);
    }
  }

  /** The spooling loop appends the bound right tuple and then every
      following row of the same key, stopping at the first row with another
      key (which it leaves in the shadow) or at the end of the child. */
  lemma SpoolRightCollectsRun(j: Join)
    requires j.right.pos <= |j.right.rows|
    requires PositiveCounts(j.right.rows)
    requires j.rcur.key == j.rshadow.key
    ensures var r := SpoolRight(j);
            var e := RunEnd(j.right.rows, j.right.pos, j.rshadow.key);
            && r.buffer == j.buffer + [j.rcur] + j.right.rows[j.right.pos .. e]
            && r.bufferIter == 0
            && r.leftInCopy == j.leftInCopy
            && r.lcur == j.lcur && r.lshadow == j.lshadow
            && (r.state == LoopSpooledRightEmpty <==> e == |j.right.rows|)
            && (r.state == LoopSpooledRightEmpty || r.state == LoopSpooledRightHasData)
            && (e < |j.right.rows| ==>
                  r.right.pos == e + 1 && r.rshadow == j.right.rows[e] && r.rcur == j.rshadow)
            && (e == |j.right.rows| ==> r.right.pos == |j.right.rows|)
  {
    SpoolRightBuffer(j);
    SpoolRightStops(j);
  }

  /** `handleNM` fills the buffer with the matched right tuple, the peeked
      one and the rest of their duplicate run, rewinds the replay cursor,
      marks the left tuple as being in its copy, and chooses
      loopSpooledRightEmpty exactly when the right child ran out. */
  lemma HandleNMSpoolsRun(j: Join)
    requires j.right.pos <= |j.right.rows|
    requires PositiveCounts(j.right.rows)
    requires j.rcur.key == j.rshadow.key
    ensures var r := HandleNM(j);
            var e := RunEnd(j.right.rows, j.right.pos, j.rcur.key);
            && r.buffer == [j.rcur, j.rshadow] + j.right.rows[j.right.pos .. e]
            && (forall i :: 0 <= i < |r.buffer| ==> r.buffer[i].key == j.rcur.key)
            && r.bufferIter == 0 && r.leftInCopy
            && r.lcur == j.lcur && r.lshadow == j.lshadow
            && (r.state == LoopSpooledRightEmpty <==> e == |j.right.rows|)
            && (r.state == LoopSpooledRightEmpty || r.state == LoopSpooledRightHasData)
            && (e < |j.right.rows| ==> r.rshadow == j.right.rows[e] && r.rcur == j.rcur)
            && r.right.pos <= |j.right.rows| && r.left == j.left
  {
    var j1 := SwapRight(j).(buffer := [], leftInCopy := true);
    var j2 := j1.(buffer := j1.buffer + [j1.rshadow]);
    SpoolRightCollectsRun(j2);
  }

  /** Replaying the spool: while records remain, each call binds the next
      record to the right registers and returns the left multiplicity times
      the spooled one. */
  lemma ReplayEmitsProduct(j: Join)
    requires j.state == LoopSpooledRightEmpty || j.state == LoopSpooledRightHasData
    requires j.bufferIter < |j.buffer|
    ensures var o := Step(j);
            && o.Return? && o.kind == Matched
            && o.count == Mul64(j.lcur.count, j.buffer[j.bufferIter].count)
            && o.after.rcur == j.buffer[j.bufferIter]
            && o.after.bufferIter == j.bufferIter + 1
            && o.after.lcur == j.lcur && o.after.state == j.state
  {
  }

  /** At the end of the spool, a next left tuple with the run's key rewinds
      the replay cursor to the start of the buffer. */
  lemma ReplayRewinds(j: Join)
    requires j.state == LoopSpooledRightEmpty || j.state == LoopSpooledRightHasData
    requires j.bufferIter >= |j.buffer| && !j.leftInCopy
    requires j.left.pos < |j.left.rows| && j.left.rows[j.left.pos].count > 0
    requires j.left.rows[j.left.pos].key == j.lshadow.key
    ensures var o := Step(j);
            && o.Continue? && o.after.bufferIter == 0
            && o.after.lcur == j.left.rows[j.left.pos]
            && o.after.buffer == j.buffer && o.after.state == j.state
  {
  }

  // ---------------------------------------------------------------------
  // Matched emissions pair equal keys

  /** What the blocking and spooling states remember about the current key
      run between calls. */
  ghost predicate RunInvariant(j: Join)
  {
    match j.state
    case LoopEqualLeftHasData => j.lcur.key == j.rcur.key
    case LoopEqualLeft => j.lshadow.key == j.rcur.key
    case LoopEqualRightHasData => j.lcur.key == j.rcur.key
    case LoopEqualRight => j.rshadow.key == j.lcur.key
    case LoopSpooledRightEmpty => SpoolAgrees(j)
    case LoopSpooledRightHasData => SpoolAgrees(j)
    case _ => true
  }

  /** The left tuple and its shadow, and every spooled right record, carry
      the same key. */
  ghost predicate SpoolAgrees(j: Join)
  {
    && j.lcur.key == j.lshadow.key
    && forall i :: 0 <= i < |j.buffer| ==> j.buffer[i].key == j.lcur.key
  }

  /** Inputs the children may legitimately produce. */
  ghost predicate WellFormed(j: Join)
  {
    && PositiveCounts(j.left.rows) && PositiveCounts(j.right.rows)
    && j.left.pos <= |j.left.rows| && j.right.pos <= |j.right.rows|
  }

  /** What one loop iteration has to keep: well-formed inputs, the run
      invariant, and equal keys under every matched emission. */
  ghost predicate KeepsRun(o: Outcome)
  {
    && WellFormed(o.after) && RunInvariant(o.after)
    && (o.Return? && o.kind == Matched ==> o.after.lcur.key == o.after.rcur.key)
  }

  /** The match branch of the comparison. */
  lemma MatchKeepsRun(j: Join)
    requires WellFormed(j) && j.lcur.key == j.rcur.key
    ensures KeepsRun(Match(j))
  {
    var j1 := PullLeft(CopyLeft(j));
    if j1.lcur.count != 0 {
      var j2 := PullRight(CopyRight(SwapLeft(j1)));
      if j2.rcur.count != 0 {
        var j3 := SwapRight(j2);
        if j3.lcur.key == j3.lshadow.key && j3.rcur.key == j3.rshadow.key {
          HandleNMSpoolsRun(j3);
        }
      }
    }
  }

  lemma CompareKeepsRun(j: Join)
    requires WellFormed(j)
    ensures KeepsRun(Compare(j))
  {
    if j.lcur.key == j.rcur.key {
      MatchKeepsRun(j);
    }
  }

  lemma AdvanceRightKeepsRun(j: Join)
    requires WellFormed(j)
    ensures KeepsRun(AdvanceRight(j))
  {
    CompareKeepsRun(j);
    CompareKeepsRun(PullRight(j));
    CompareKeepsRun(PadRight(PullRight(j)));
  }

  lemma AdvanceLeftKeepsRun(j: Join)
    requires WellFormed(j)
    ensures KeepsRun(AdvanceLeft(j))
  {
    AdvanceRightKeepsRun(j);
    AdvanceRightKeepsRun(PullLeft(j));
    AdvanceRightKeepsRun(PadLeft(PullLeft(j)));
  }

  lemma EmptyLeftKeepsRun(j: Join)
    requires WellFormed(j) && j.state == LoopEmptyLeft
    ensures KeepsRun(EmptyLeft(j))
  {
    var j1 := PullRight(j);
    if j1.lcur.key > j1.rcur.key {
      assert WellFormed(SwapLeft(j1));
    }
  }

  lemma EmptyRightCompareKeepsRun(j: Join)
    requires WellFormed(j)
    ensures KeepsRun(EmptyRightCompare(j))
  {
  }

  lemma EmptyRightKeepsRun(j: Join)
    requires WellFormed(j) && j.state == LoopEmptyRight
    ensures KeepsRun(EmptyRight(j))
  {
    EmptyRightCompareKeepsRun(PullLeft(j));
  }

  lemma EqualLeftKeepsRun(j: Join)
    requires WellFormed(j)
    requires j.lshadow.key == j.rcur.key
    ensures KeepsRun(EqualLeft(j))
  {
  }

  lemma EqualRightKeepsRun(j: Join)
    requires WellFormed(j)
    requires j.rshadow.key == j.lcur.key
    ensures KeepsRun(EqualRight(j))
  {
  }

  lemma SpooledKeepsRun(j: Join)
    requires WellFormed(j) && SpoolAgrees(j)
    requires j.state == LoopSpooledRightEmpty || j.state == LoopSpooledRightHasData
    ensures KeepsRun(Spooled(j))
  {
    if j.bufferIter >= |j.buffer| {
      if j.leftInCopy {
        SpooledBlockKeepsRun(SwapLeft(j).(leftInCopy := false));
      } else {
        var j1 := PullLeft(j);
        if j1.lcur.count != 0 {
          SpooledBlockKeepsRun(j1);
        }
      }
    }
  }

  /** Rewinding keeps the spool; leaving the n:m case needs nothing. */
  lemma SpooledBlockKeepsRun(j: Join)
    requires WellFormed(j)
    requires j.state == LoopSpooledRightEmpty || j.state == LoopSpooledRightHasData
    requires forall i :: 0 <= i < |j.buffer| ==> j.buffer[i].key == j.lshadow.key
    ensures KeepsRun(SpooledBlock(j))
  {
  }

  /** One loop iteration keeps the inputs well formed and the run invariant,
      and every matched emission pairs two tuples with the same key. */
  lemma StepKeepsRun(j: Join)
    requires WellFormed(j) && RunInvariant(j)
    ensures KeepsRun(Step(j))
  {
    match j.state
    case Empty =>
    case ScanStepLeftCopyRight =>
    case ScanStepRightCopyLeft =>
    case ScanHasBothSwapped => AdvanceLeftKeepsRun(SwapRight(SwapLeft(j)));
    case ScanStepLeft => AdvanceLeftKeepsRun(j);
    case ScanStepBoth => AdvanceLeftKeepsRun(j);
    case ScanStepRight => AdvanceRightKeepsRun(j);
    case ScanHasBoth => CompareKeepsRun(j);
    case LoopEmptyLeftCopyLeft => EmptyLeftKeepsRun(SwapLeft(j).(state := LoopEmptyLeft));
    case LoopEmptyLeft => EmptyLeftKeepsRun(j);
    case LoopEmptyRightCopyRight => EmptyRightKeepsRun(SwapRight(j).(state := LoopEmptyRight));
    case LoopEmptyRight => EmptyRightKeepsRun(j);
    case LoopEmptyRightHasData => EmptyRightCompareKeepsRun(j);
    case LoopEqualLeftHasData => EqualLeftKeepsRun(SwapLeft(j));
    case LoopEqualLeft => EqualLeftKeepsRun(j);
    case LoopEqualRightHasData => EqualRightKeepsRun(SwapRight(j));
    case LoopEqualRight => EqualRightKeepsRun(j);
    case LoopSpooledRightEmpty => SpooledKeepsRun(j);
    case LoopSpooledRightHasData => SpooledKeepsRun(j);
  }

  /** A loop whose body keeps `inv` and makes every outcome `good` returns
      only good outcomes. */
  lemma {:induction false} IterateKeeps(body: Join -> Outcome, inv: Join -> bool, good: Outcome -> bool,
                                        j: Join, fuel: nat)
    requires forall x :: Accounted(x, body(x))
    requires forall x :: inv(x) ==> good(body(x)) && inv(body(x).after)
    requires inv(j)
    ensures Iterate(body, j, fuel).Some? ==> good(Iterate(body, j, fuel).value)
    decreases fuel
  {
    if fuel > 0 && body(j).Continue? {
      IterateKeeps(body, inv, good, body(j).after, fuel - 1);
    }
  }

  /** `next()` keeps the inputs well formed and the run invariant, and a
      matched multiplicity it returns always pairs equal keys. */
  lemma NextKeepsRun(j: Join, fuel: nat)
    requires WellFormed(j) && RunInvariant(j)
    ensures Next(j, fuel).Some? ==> KeepsRun(Next(j, fuel).value)
  {
    forall x | WellFormed(x) && RunInvariant(x)
      ensures KeepsRun(Step(x))
    {
      StepKeepsRun(x);
    }
    IterateKeeps(Step, x => WellFormed(x) && RunInvariant(x), KeepsRun, j, fuel);
  }

  // ---------------------------------------------------------------------
  // The observed output cardinality over a session

  /** The running `uint64_t` sum, starting at `acc`, of a sequence of counts. */
  function SumFrom(acc: u64, cs: seq<u64>): u64
    decreases |cs|
  {
    if |cs| == 0 then acc else SumFrom(Add64(acc, cs[0]), cs[1..])
  }

  /** What one return shows the caller: the count, what it stands for, and
      the tuples then bound in the left and right registers. */
  datatype Emission = Emission(count: u64, kind: Kind, left: Row, right: Row)

  function Shown(o: Outcome): Emission
    requires o.Return?
  {
    Emission(o.count, o.kind, o.after.lcur, o.after.rcur)
  }

  function Counts(es: seq<Emission>): (cs: seq<u64>)
    ensures |cs| == |es|
  {
    seq(|es|, i requires 0 <= i < |es| => es[i].count)
  }

  /** `n` successive calls of `next()`, with what each of them returns.
      `None` if one of them does not return within its budget. */
  function Drive(j: Join, n: nat, fuel: nat): (r: Option<(Join, seq<Emission>)>)
    ensures r.Some? ==> |r.value.1| == n
    ensures r.Some? ==> r.value.0.observed == SumFrom(j.observed, Counts(r.value.1))
    ensures r.Some? ==> r.value.0.cfg == j.cfg
    decreases n
  {
    if n == 0 then Some((j, []))
    else
      match Next(j, fuel)
      case None => None
      case Some(o) =>
        match Drive(o.after, n - 1, fuel)
        case None => None
        case Some((j', es)) =>
          assert Counts([Shown(o)] + es)[1..] == Counts(es);
          Some((j', [Shown(o)] + es))
  }

  /** `first()` followed by `n` calls of `next()`.  The observed output
      cardinality at the end is the sum of every count returned since
      `first()`. */
  function Session(j: Join, n: nat, fuel: nat): (r: Option<(Join, seq<Emission>)>)
    ensures r.Some? ==> |r.value.1| == n + 1
    ensures r.Some? ==> r.value.0.observed == SumFrom(0, Counts(r.value.1))
  {
    match First(j, fuel)
    case None => None
    case Some(o) =>
      match Drive(o.after, n, fuel)
      case None => None
      case Some((j', es)) =>
        assert Counts([Shown(o)] + es)[1..] == Counts(es);
        assert Add64(0, o.count) == o.count;
        Some((j', [Shown(o)] + es))
  }
}
