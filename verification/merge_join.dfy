/**
  The RDF-3X sort-merge join operator as a pure state machine.

  A child operator is a sequence of rows plus a cursor.  The registers the
  join reads and writes (`leftCount`, `leftValue`, the `leftTail` cells and
  their right-hand counterparts) are the `lcur`/`rcur` rows of the state;
  the shadows and the spool buffer are rows too.  One iteration of the
  `while (true)` loop of `next()` is `Step`, which either continues the loop
  with a new state or returns a multiplicity; `Next` iterates `Step`.

  The loop is not guaranteed to stop for every sentinel (see
  MergeJoinTermination), so `Next` and `First` carry a step budget and yield
  `None` when it runs out.
*/
module MergeJoin {
  import opened Base

  /** One tuple as a child binds it: its multiplicity, its join key, and the
      values of its tail registers. */
  datatype Row = Row(count: u64, key: u64, tail: seq<u64>)

  /** A child operator: the rows it produces, in order, and how many of them
      it has produced so far. */
  datatype Input = Input(rows: seq<Row>, pos: nat)

  /** Construction parameters.  `sentinel` is the value written into padded
      registers; the source writes `~0u` (see NarrowSentinel).
      `restoreShadow` selects the corrected handling of an optional side
      that runs out while a tuple of the other side is still owed: the
      next tuple waiting in its shadow register, or, at the end of a
      spooled block whose right side ran out, the bound left tuple.  That
      tuple is emitted unmatched before the scan resumes.  The source as
      written has `restoreShadow == false` and loses it. */
  datatype Config = Config(leftOptional: bool, rightOptional: bool,
                           disableSkipping: bool, sentinel: u64,
                           restoreShadow: bool)

  /** `~0u`: a 32-bit all-ones constant stored into a 64-bit register. */
  const NarrowSentinel: u64 := 0xFFFF_FFFF

  datatype ScanState =
    | Empty
    | ScanHasBoth | ScanHasBothSwapped
    | ScanStepLeft | ScanStepRight | ScanStepBoth
    | ScanStepLeftCopyRight | ScanStepRightCopyLeft
    | LoopEqualLeftHasData | LoopEqualLeft
    | LoopEqualRightHasData | LoopEqualRight
    | LoopSpooledRightEmpty | LoopSpooledRightHasData
    | LoopEmptyLeft | LoopEmptyLeftCopyLeft
    | LoopEmptyRight | LoopEmptyRightCopyRight | LoopEmptyRightHasData

  /** The complete state of one join instance between calls. */
  datatype Join = Join(
    cfg: Config,
    left: Input, right: Input,
    lcur: Row, rcur: Row,
    lshadow: Row, rshadow: Row,
    buffer: seq<Row>, bufferIter: nat, leftInCopy: bool,
    state: ScanState,
    observed: u64)

  /** What a returned multiplicity stands for. */
  datatype Kind =
    | Silent      // `return false`
    | Matched     // product of the two bound multiplicities
    | LeftOnly    // left tuple with the right side padded
    | RightOnly   // right tuple with the left side padded

  /** The result of one loop iteration. */
  datatype Outcome =
    | Continue(after: Join)
    | Return(after: Join, count: u64, kind: Kind)

  // ---------------------------------------------------------------------
  // Children and registers

  /** `next()` on a child: bind the next row and return its multiplicity in
      the count register; an exhausted child returns 0 and leaves the key
      and tail registers as they were. */
  function Pull(inp: Input, regs: Row): (r: (Input, Row))
    ensures r.0.rows == inp.rows
    ensures inp.pos < |inp.rows| ==> r.0.pos == inp.pos + 1 && r.1 == inp.rows[inp.pos]
    ensures inp.pos >= |inp.rows| ==> r.0 == inp && r.1.count == 0 && r.1.key == regs.key && r.1.tail == regs.tail
  {
    if inp.pos < |inp.rows| then (inp.(pos := inp.pos + 1), inp.rows[inp.pos])
    else (inp, regs.(count := 0))
  }

  /** `first()` on a child: restart it and bind its first row. */
  function Restart(inp: Input, regs: Row): (Input, Row)
  {
    Pull(inp.(pos := 0), regs)
  }

  /** `while (child->next()) ;` -- pull until the child reports 0.  The
      count register is not assigned by this loop. */
  function Drain(inp: Input, regs: Row): (r: (Input, Row))
    ensures r.0.rows == inp.rows && r.0.pos >= inp.pos && r.1.count == regs.count
    ensures inp.pos <= |inp.rows| ==> r.0.pos <= |inp.rows|
    // Every row it passes before the last one it reads is a real tuple ...
    ensures forall i :: inp.pos <= i < r.0.pos - 1 && i < |inp.rows| ==> inp.rows[i].count > 0
    // ... and it stops at the end of the rows or just past a zero count.
    ensures inp.pos < |inp.rows| ==>
              r.0.pos > inp.pos && (r.0.pos == |inp.rows| || inp.rows[r.0.pos - 1].count == 0)
    decreases |inp.rows| - inp.pos
  {
    if inp.pos < |inp.rows| then
      var row := inp.rows[inp.pos];
      var bound := (inp.(pos := inp.pos + 1), Row(regs.count, row.key, row.tail));
      if row.count == 0 then bound else Drain(bound.0, bound.1)
    else (inp, regs)
  }

  /** Overwrite the key and every tail register with the sentinel; the count
      register is left alone. */
  function Pad(r: Row, sentinel: u64): (p: Row)
  {
    Row(r.count, sentinel, seq(|r.tail|, _ => sentinel))
  }

  function PullLeft(j: Join): (r: Join)
    ensures r == j.(left := r.left, lcur := r.lcur)
    ensures r.left.rows == j.left.rows
    ensures j.left.pos <= |j.left.rows| ==> r.left.pos <= |j.left.rows|
    ensures j.left.pos < |j.left.rows| ==> r.lcur == j.left.rows[j.left.pos] && r.left.pos == j.left.pos + 1
    ensures j.left.pos >= |j.left.rows| ==> r.left == j.left && r.lcur == j.lcur.(count := 0)
  {
    var (inp, regs) := Pull(j.left, j.lcur);
    j.(left := inp, lcur := regs)
  }

  function PullRight(j: Join): (r: Join)
    ensures r == j.(right := r.right, rcur := r.rcur)
    ensures r.right.rows == j.right.rows
    ensures j.right.pos <= |j.right.rows| ==> r.right.pos <= |j.right.rows|
    ensures j.right.pos < |j.right.rows| ==> r.rcur == j.right.rows[j.right.pos] && r.right.pos == j.right.pos + 1
    ensures j.right.pos >= |j.right.rows| ==> r.right == j.right && r.rcur == j.rcur.(count := 0)
  {
    var (inp, regs) := Pull(j.right, j.rcur);
    j.(right := inp, rcur := regs)
  }

  function DrainLeft(j: Join): (r: Join)
    ensures r == j.(left := r.left, lcur := r.lcur)
    ensures r.left.rows == j.left.rows && r.left.pos >= j.left.pos
    ensures j.left.pos <= |j.left.rows| ==> r.left.pos <= |j.left.rows|
    ensures !j.cfg.disableSkipping ==> r == j
    // With skipping disabled, a child of real tuples is read to its end.
    ensures && j.cfg.disableSkipping && j.left.pos <= |j.left.rows|
            && (forall i :: j.left.pos <= i < |j.left.rows| ==> j.left.rows[i].count > 0) ==>
              r.left.pos == |j.left.rows|
  {
    if j.cfg.disableSkipping then
      var (inp, regs) := Drain(j.left, j.lcur);
      j.(left := inp, lcur := regs)
    else j
  }

  function DrainRight(j: Join): (r: Join)
    ensures r == j.(right := r.right, rcur := r.rcur)
    ensures r.right.rows == j.right.rows && r.right.pos >= j.right.pos
    ensures j.right.pos <= |j.right.rows| ==> r.right.pos <= |j.right.rows|
    ensures !j.cfg.disableSkipping ==> r == j
    // With skipping disabled, a child of real tuples is read to its end.
    ensures && j.cfg.disableSkipping && j.right.pos <= |j.right.rows|
            && (forall i :: j.right.pos <= i < |j.right.rows| ==> j.right.rows[i].count > 0) ==>
              r.right.pos == |j.right.rows|
  {
    if j.cfg.disableSkipping then
      var (inp, regs) := Drain(j.right, j.rcur);
      j.(right := inp, rcur := regs)
    else j
  }

  function PadLeft(j: Join): Join
  {
    j.(lcur := Pad(j.lcur, j.cfg.sentinel))
  }

  function PadRight(j: Join): Join
  {
    j.(rcur := Pad(j.rcur, j.cfg.sentinel))
  }

  /** `copyLeft`: copy the left registers into the left shadow. */
  function CopyLeft(j: Join): Join
  {
    j.(lshadow := j.lcur)
  }

  /** `copyRight`: copy the right registers into the right shadow. */
  function CopyRight(j: Join): Join
  {
    j.(rshadow := j.rcur)
  }

  /** `swapLeft`: exchange the left registers with the left shadow. */
  function SwapLeft(j: Join): Join
  {
    j.(lcur := j.lshadow, lshadow := j.lcur)
  }

  /** `swapRight`: exchange the right registers with the right shadow. */
  function SwapRight(j: Join): Join
  {
    j.(rcur := j.rshadow, rshadow := j.rcur)
  }

  // ---------------------------------------------------------------------
  // Returning from next()

  /** `observedOutputCardinality += c; return c;` */
  function Emit(j: Join, c: u64, kind: Kind): Outcome
  {
    Return(j.(observed := Add64(j.observed, c)), c, kind)
  }

  /** `return false;` */
  function Stop(j: Join): Outcome
  {
    Return(j, 0, Silent)
  }

  /** The product of the two bound multiplicities. */
  function Product(j: Join): u64
  {
    Mul64(j.lcur.count, j.rcur.count)
  }

  /** What a returned multiplicity is, for each kind of return. */
  ghost predicate KindHolds(o: Outcome)
    requires o.Return?
  {
    match o.kind
    case Silent => o.count == 0
    case Matched => o.count == Product(o.after)
    case LeftOnly => o.count == o.after.lcur.count && o.after.rcur.key == o.after.cfg.sentinel
    case RightOnly => o.count == o.after.rcur.count && o.after.lcur.key == o.after.cfg.sentinel
  }

  /** The bookkeeping every transition keeps: configuration and child rows are
      untouched, the observed cardinality grows by exactly the returned count,
      and the returned count is what its kind says. */
  ghost predicate Accounted(j: Join, o: Outcome)
  {
    && o.after.cfg == j.cfg
    && o.after.left.rows == j.left.rows
    && o.after.right.rows == j.right.rows
    && (o.Continue? ==> o.after.observed == j.observed)
    && (o.Return? ==> o.after.observed == Add64(j.observed, o.count) && KindHolds(o))
  }

  // ---------------------------------------------------------------------
  // The cases of the next() loop

  /** `case scanStepLeft: case scanStepBoth:` -- advance the left child when
      the state asks for it (the source tests `scanState>scanHasBothSwapped`,
      which among the states reaching this label holds for scanStepLeft and
      scanStepBoth), then fall through. */
  function AdvanceLeft(j: Join): (o: Outcome)
    ensures Accounted(j, o)
    // An exhausted left side that is not optional ends the scan silently,
    // without touching the right side or the state.
    ensures && (j.state == ScanStepLeft || j.state == ScanStepBoth) && !j.cfg.leftOptional
            && (j.left.pos >= |j.left.rows| || j.left.rows[j.left.pos].count == 0) ==>
              && o.Return? && o.count == 0 && o.kind == Silent
              && o.after.state == j.state && o.after.observed == j.observed
              && o.after.right == j.right && o.after.rcur == j.rcur
  {
    if j.state == ScanStepLeft || j.state == ScanStepBoth then
      var j1 := PullLeft(j);
      if j1.lcur.count == 0 then
        if j.cfg.leftOptional then AdvanceRight(PadLeft(j1)) else Stop(j1)
      else AdvanceRight(j1)
    else AdvanceRight(j)
  }

  /** `case scanStepRight:` -- advance the right child when the state asks
      for it (`scanState>scanStepLeft`: scanStepRight and scanStepBoth), then
      fall through to the comparison. */
  function AdvanceRight(j: Join): (o: Outcome)
    ensures Accounted(j, o)
    // An exhausted right side that is not optional ends the scan silently,
    // without touching the left side or the state.
    ensures && (j.state == ScanStepRight || j.state == ScanStepBoth) && !j.cfg.rightOptional
            && (j.right.pos >= |j.right.rows| || j.right.rows[j.right.pos].count == 0) ==>
              && o.Return? && o.count == 0 && o.kind == Silent
              && o.after.state == j.state && o.after.observed == j.observed
              && o.after.left == j.left && o.after.lcur == j.lcur
  {
    if j.state == ScanStepRight || j.state == ScanStepBoth then
      var j1 := PullRight(j);
      if j1.rcur.count == 0 then
        if j.cfg.rightOptional then Compare(PadRight(j1)) else Stop(j1)
      else Compare(j1)
    else Compare(j)
  }

  /** `case scanHasBoth:` -- compare the two keys. */
  function Compare(j: Join): (o: Outcome)
    ensures Accounted(j, o)
  {
    var S := j.cfg.sentinel;
    var l, r := j.lcur.key, j.rcur.key;
    if l < r then
      if j.cfg.rightOptional then
        if r == S then Emit(j.(state := ScanStepLeft), j.lcur.count, LeftOnly)
        else Emit(PadRight(CopyRight(j)).(state := ScanStepLeftCopyRight), j.lcur.count, LeftOnly)
      else Continue(j.(state := ScanStepLeft))
    else if l > r then
      if j.cfg.leftOptional then
        if l == S then Emit(j.(state := ScanStepRight), j.rcur.count, RightOnly)
        else Emit(PadLeft(CopyLeft(j)).(state := ScanStepRightCopyLeft), j.rcur.count, RightOnly)
      else Continue(j.(state := ScanStepRight))
    else Match(j)
  }

  /** Equal keys: peek one tuple ahead on each side through the shadows and
      decide between a single match, a left block, a right block and the
      n:m case. */
  function Match(j: Join): (o: Outcome)
    ensures Accounted(j, o)
  {
    var j1 := PullLeft(CopyLeft(j));
    if j1.lcur.count == 0 then
      var j2 := SwapLeft(j1).(state := LoopEmptyLeft);
      Emit(j2, Product(j2), Matched)
    else
      var j2 := PullRight(CopyRight(SwapLeft(j1)));
      if j2.rcur.count == 0 then
        var j3 := SwapRight(j2).(state := LoopEmptyRightHasData);
        Emit(j3, Product(j3), Matched)
      else
        var j3 := SwapRight(j2);
        if j3.lcur.key == j3.lshadow.key then
          if j3.rcur.key == j3.rshadow.key then Continue(HandleNM(j3))
          else Emit(j3.(state := LoopEqualLeftHasData), Product(j3), Matched)
        else if j3.rcur.key == j3.rshadow.key then
          Emit(j3.(state := LoopEqualRightHasData), Product(j3), Matched)
        else Emit(j3.(state := ScanHasBothSwapped), Product(j3), Matched)
  }

  /** `handleNM`: spool the right duplicate run, starting with the matched
      right tuple, into the buffer. */
  function HandleNM(j: Join): (r: Join)
    ensures r.cfg == j.cfg && r.observed == j.observed
    ensures r.left == j.left && r.right.rows == j.right.rows && r.right.pos >= j.right.pos
  {
    var j1 := SwapRight(j).(buffer := [], leftInCopy := true);
    var j2 := j1.(buffer := j1.buffer + [j1.rshadow]);
    if j2.rcur.key != j2.rshadow.key then
      SwapRight(j2).(bufferIter := 0, state := LoopSpooledRightHasData)
    else SpoolRight(j2)
  }

  /** The spooling loop of `handleNM` after its first record: append the
      bound right tuple, pull the next one, and stop at the end of the child
      or at the end of the key run. */
  function SpoolRight(j: Join): (r: Join)
    ensures r.cfg == j.cfg && r.observed == j.observed
    ensures r.left == j.left && r.right.rows == j.right.rows && r.right.pos >= j.right.pos
    decreases |j.right.rows| - j.right.pos
  {
    var j1 := j.(buffer := j.buffer + [j.rcur]);
    var j2 := PullRight(j1);
    if j2.rcur.count == 0 then j2.(bufferIter := 0, state := LoopSpooledRightEmpty)
    else if j2.rcur.key != j2.rshadow.key then
      SwapRight(j2).(bufferIter := 0, state := LoopSpooledRightHasData)
    else SpoolRight(j2)
  }

  /** `case loopEmptyLeft:` -- the left child is exhausted; walk the right. */
  function EmptyLeft(j: Join): (o: Outcome)
    ensures Accounted(j, o)
  {
    var j1 := PullRight(j);
    if j1.rcur.count == 0 then Stop(j1.(state := Empty))
    else
      var S := j1.cfg.sentinel;
      var l, r := j1.lcur.key, j1.rcur.key;
      if l == r then Emit(j1, Product(j1), Matched)
      else if j1.cfg.leftOptional then
        if l != S then
          var j2 := if l > r then SwapLeft(j1).(state := LoopEmptyLeftCopyLeft) else j1;
          Emit(PadLeft(j2), j1.rcur.count, RightOnly)
        else Emit(j1, j1.rcur.count, RightOnly)
      else if l < r then Stop(DrainRight(j1).(state := Empty))
      else Continue(j1)
  }

  /** `case loopEmptyRight:` -- the right child is exhausted; walk the left. */
  function EmptyRight(j: Join): (o: Outcome)
    ensures Accounted(j, o)
  {
    var j1 := PullLeft(j);
    if j1.lcur.count == 0 then Stop(j1.(state := Empty))
    else EmptyRightCompare(j1)
  }

  /** `case loopEmptyRightHasData:` and the comparison shared with
      loopEmptyRight. */
  function EmptyRightCompare(j: Join): (o: Outcome)
    ensures Accounted(j, o)
  {
    var j1 := (if j.state == LoopEmptyRightHasData then SwapLeft(j) else j).(state := LoopEmptyRight);
    var S := j1.cfg.sentinel;
    var l, r := j1.lcur.key, j1.rcur.key;
    if l == r then Emit(j1, Product(j1), Matched)
    else if j1.cfg.rightOptional then
      if r != S then
        var j2 := if r > l then SwapRight(j1).(state := LoopEmptyRightCopyRight) else j1;
        Emit(PadRight(j2), j1.lcur.count, LeftOnly)
      else Emit(j1, j1.lcur.count, LeftOnly)
    else if l > r then Stop(DrainLeft(j1).(state := Empty))
    else Continue(j1)
  }

  /** `case loopEqualLeft:` -- a left duplicate run against one right tuple.
      Entered with state loopEqualLeftHasData right after the swap that
      brings the peeked tuple back. */
  function EqualLeft(j: Join): (o: Outcome)
    ensures Accounted(j, o)
  {
    if j.state == LoopEqualLeft then
      var j1 := PullLeft(j);
      if j1.lcur.count == 0 then
        if j1.cfg.leftOptional then
          if j1.cfg.restoreShadow then
            Emit(SwapRight(PadLeft(j1)).(state := ScanStepRight), j1.rshadow.count, RightOnly)
          else
            var j2 := if j1.lcur.key != j1.cfg.sentinel then PadLeft(j1) else j1;
            Continue(j2.(state := ScanStepRight))
        else Continue(DrainRight(j1).(state := Empty))
      else EqualLeftBlock(j1)
    else EqualLeftBlock(j.(state := LoopEqualLeft))
  }

  /** End of the left block? */
  function EqualLeftBlock(j: Join): (o: Outcome)
    ensures Accounted(j, o)
  {
    if j.lcur.key != j.lshadow.key then Continue(SwapRight(j).(state := ScanHasBoth))
    else Emit(j, Product(j), Matched)
  }

  /** `case loopEqualRight:` -- mirror of EqualLeft. */
  function EqualRight(j: Join): (o: Outcome)
    ensures Accounted(j, o)
  {
    if j.state == LoopEqualRight then
      var j1 := PullRight(j);
      if j1.rcur.count == 0 then
        if j1.cfg.rightOptional then
          if j1.cfg.restoreShadow then
            Emit(SwapLeft(PadRight(j1)).(state := ScanStepLeft), j1.lshadow.count, LeftOnly)
          else
            var j2 := if j1.rcur.key != j1.cfg.sentinel then PadRight(j1) else j1;
            Continue(j2.(state := ScanStepLeft))
        else Continue(DrainLeft(j1).(state := Empty))
      else EqualRightBlock(j1)
    else EqualRightBlock(j.(state := LoopEqualRight))
  }

  /** End of the right block? */
  function EqualRightBlock(j: Join): (o: Outcome)
    ensures Accounted(j, o)
  {
    if j.rcur.key != j.rshadow.key then Continue(SwapLeft(j).(state := ScanHasBoth))
    else Emit(j, Product(j), Matched)
  }

  /** `case loopSpooledRightEmpty: case loopSpooledRightHasData:` -- replay
      the spooled right run against each left tuple of the run. */
  function Spooled(j: Join): (o: Outcome)
    ensures Accounted(j, o)
  {
    if j.bufferIter < |j.buffer| then
      var j1 := j.(rcur := j.buffer[j.bufferIter], bufferIter := j.bufferIter + 1);
      Emit(j1, Product(j1), Matched)
    else if j.leftInCopy then
      SpooledBlock(SwapLeft(j).(leftInCopy := false))
    else
      var j1 := PullLeft(j);
      if j1.lcur.count == 0 then
        if j1.cfg.leftOptional then
          if j1.cfg.restoreShadow && j1.state == LoopSpooledRightHasData then
            Emit(SwapRight(PadLeft(j1)).(state := LoopEmptyLeft), j1.rshadow.count, RightOnly)
          else
            var j2 := if j1.lcur.key != j1.cfg.sentinel then PadLeft(j1) else j1;
            Continue(j2.(state := LoopEmptyLeft))
        else Stop(DrainRight(j1).(state := Empty))
      else SpooledBlock(j1)
  }

  /** Still within the left block?  If so rewind the spool, otherwise leave
      the n:m case. */
  function SpooledBlock(j: Join): (o: Outcome)
    ensures Accounted(j, o)
  {
    if j.lcur.key == j.lshadow.key then Continue(j.(bufferIter := 0))
    else if j.state == LoopSpooledRightEmpty then
      if j.cfg.rightOptional then
        if j.cfg.restoreShadow then
          Emit(PadRight(j).(state := LoopEmptyRight), j.lcur.count, LeftOnly)
        else
          var j1 := if j.rcur.key != j.cfg.sentinel then PadRight(j) else j;
          Continue(j1.(state := LoopEmptyRight))
      else Stop(DrainLeft(j).(state := Empty))
    else Continue(SwapRight(j).(state := ScanHasBoth))
  }

  // ---------------------------------------------------------------------
  // The operator interface

  /** One iteration of the `while (true)` loop of `next()`. */
  function Step(j: Join): (o: Outcome)
    ensures Accounted(j, o)
  {
    match j.state
    case Empty => Stop(j)
    case ScanStepLeftCopyRight => Continue(SwapRight(j).(state := ScanStepLeft))
    case ScanStepRightCopyLeft => Continue(SwapLeft(j).(state := ScanStepRight))
    case ScanHasBothSwapped => AdvanceLeft(SwapRight(SwapLeft(j)))
    case ScanStepLeft => AdvanceLeft(j)
    case ScanStepBoth => AdvanceLeft(j)
    case ScanStepRight => AdvanceRight(j)
    case ScanHasBoth => Compare(j)
    case LoopEmptyLeftCopyLeft => EmptyLeft(SwapLeft(j).(state := LoopEmptyLeft))
    case LoopEmptyLeft => EmptyLeft(j)
    case LoopEmptyRightCopyRight => EmptyRight(SwapRight(j).(state := LoopEmptyRight))
    case LoopEmptyRight => EmptyRight(j)
    case LoopEmptyRightHasData => EmptyRightCompare(j)
    case LoopEqualLeftHasData => EqualLeft(SwapLeft(j))
    case LoopEqualLeft => EqualLeft(j)
    case LoopEqualRightHasData => EqualRight(SwapRight(j))
    case LoopEqualRight => EqualRight(j)
    case LoopSpooledRightEmpty => Spooled(j)
    case LoopSpooledRightHasData => Spooled(j)
  }

  /** Run a loop body until it returns, within `fuel` iterations.  `None`
      means the loop was still running when the budget ran out. */
  function Iterate(body: Join -> Outcome, j: Join, fuel: nat): (r: Option<Outcome>)
    requires forall x :: Accounted(x, body(x))
    ensures r.Some? ==> r.value.Return? && Accounted(j, r.value)
    decreases fuel
  {
    if fuel == 0 then None
    else
      var o := body(j);
      if o.Return? then Some(o) else Iterate(body, o.after, fuel - 1)
  }

  /** `next()`: the loop of `Step`, within `fuel` iterations. */
  function Next(j: Join, fuel: nat): (r: Option<Outcome>)
    ensures r.Some? ==> r.value.Return? && Accounted(j, r.value)
  {
    Iterate(Step, j, fuel)
  }

  /** Every key and tail register holds the sentinel. */
  ghost predicate Padded(r: Row, sentinel: u64)
  {
    r.key == sentinel && forall i :: 0 <= i < |r.tail| ==> r.tail[i] == sentinel
  }

  /** `first()`: reset the observed cardinality, restart both children and
      handle an empty side before handing over to `next()`. */
  function First(j: Join, fuel: nat): (r: Option<Outcome>)
    ensures r.Some? ==> r.value.Return? && r.value.after.observed == r.value.count
    ensures r.Some? ==> && r.value.after.cfg == j.cfg
                        && r.value.after.left.rows == j.left.rows
                        && r.value.after.right.rows == j.right.rows
                        && KindHolds(r.value)
    // An empty non-optional left side ends the join without touching the right child.
    ensures |j.left.rows| == 0 && !j.cfg.leftOptional ==>
              r.Some? && r.value.count == 0 && r.value.after.right == j.right
    // An empty optional left side: pad every left register, emit the first right tuple.
    ensures |j.left.rows| == 0 && j.cfg.leftOptional && |j.right.rows| > 0 && j.right.rows[0].count > 0 ==>
              && r.Some? && r.value.kind == RightOnly
              && r.value.count == j.right.rows[0].count
              && r.value.after.state == LoopEmptyLeft
              && r.value.after.rcur == j.right.rows[0]
              && Padded(r.value.after.lcur, j.cfg.sentinel)
              && |r.value.after.lcur.tail| == |j.lcur.tail|
    // Mirror case: an empty optional right side.
    ensures && |j.left.rows| > 0 && j.left.rows[0].count > 0
            && |j.right.rows| == 0 && j.cfg.rightOptional ==>
              && r.Some? && r.value.kind == LeftOnly
              && r.value.count == j.left.rows[0].count
              && r.value.after.state == LoopEmptyRight
              && r.value.after.lcur == j.left.rows[0]
              && Padded(r.value.after.rcur, j.cfg.sentinel)
              && |r.value.after.rcur.tail| == |j.rcur.tail|
  {
    var j0 := j.(observed := 0);
    var (linp, lregs) := Restart(j0.left, j0.lcur);
    var j1 := j0.(left := linp, lcur := lregs);
    if j1.lcur.count == 0 then
      if j1.cfg.leftOptional then
        var (rinp, rregs) := Restart(j1.right, j1.rcur);
        var j2 := j1.(right := rinp, rcur := rregs);
        if j2.rcur.count == 0 then Some(Stop(j2))
        else Some(Emit(PadLeft(j2).(state := LoopEmptyLeft), j2.rcur.count, RightOnly))
      else Some(Stop(j1))
    else
      var (rinp, rregs) := Restart(j1.right, j1.rcur);
      var j2 := j1.(right := rinp, rcur := rregs);
      if j2.rcur.count == 0 then
        if j2.cfg.rightOptional then
          Some(Emit(PadRight(j2).(state := LoopEmptyRight), j2.lcur.count, LeftOnly))
        else Some(Stop(j2))
      else Next(j2.(state := ScanHasBoth), fuel)
  }
}
