/** The commander: a turtle cursor (coordinates, heading angle in degrees,
    colour) driven by forward/backward/rotate commands, with a linear
    undo/redo log.

    The log is two sequences and two cursors:
    - `commanderStateInstances` holds one snapshot per command, and
      `instanceIndex` points at the present one;
    - `drawings` holds the line elements the moves produced, and
      `drawingsIndex` counts the ones visible in the present.

    Each reducer is first given as a function from the old state to the new
    one (`AfterForward`, ...); the `Commander` class at the end performs the
    same updates in place and is proved against those functions. */
module Commands {
  import opened Elements

  /** `giveNewCoordinates(x, y, angle, distance)`: the trigonometric step of
      the source, kept as an uninterpreted function of its four arguments. */
  type Stepper = (real, real, real, real) -> Point

  /** One entry of the undo log. */
  datatype Snapshot = Snapshot(coordinates: Point, angle: real, color: string, drawingsIndex: int)

  /** The whole commands slice. Indices are JavaScript numbers, hence `int`. */
  datatype CommanderState = CommanderState(
    coordinates: Point,
    angle: real,
    color: string,
    drawings: seq<ElementInfo>,
    commanderStateInstances: seq<Snapshot>,
    drawingsIndex: int,
    instanceIndex: int)
  {
    /** The snapshot a reducer records for the live cursor fields. */
    function Current(): Snapshot {
      Snapshot(coordinates, angle, color, drawingsIndex)
    }
  }

  /** The undo terminal: the origin, heading 0, black, nothing drawn. */
  const Origin := Snapshot(Point(0.0, 0.0), 0.0, "black", 0)

  /** The slice's initial state. */
  function Initial(): (h: CommanderState)
    ensures Consistent(h) && h.Current() == Origin
    ensures AtTip(h) && h.instanceIndex == 0 && h.drawings == []
  {
    CommanderState(Point(0.0, 0.0), 0.0, "black", [], [Origin], 0, 0)
  }

  /** `s.slice(0, end)`: the prefix of `s` up to `end`, where JavaScript
      clamps an end past the length and counts a negative end from the back. */
  function SliceTo<T>(s: seq<T>, end: int): (r: seq<T>)
    ensures r <= s
    ensures 0 <= end <= |s| ==> |r| == end
    ensures |s| <= end ==> r == s
    ensures end < 0 ==> |r| == if |s| + end < 0 then 0 else |s| + end
  {
    if end < 0 then (if |s| + end < 0 then [] else s[..|s| + end])
    else if end <= |s| then s[..end]
    else s
  }

  // ---------------------------------------------------------------------
  // The reducers as state transitions

  /** The part `forward` and `backward` share: cut `drawings` to the visible
      prefix, count one more drawing, append `line`, move the cursor to `p`. */
  function DrawTo(h: CommanderState, p: Point, line: ElementInfo): CommanderState {
    h.(drawings := SliceTo(h.drawings, h.drawingsIndex) + [line],
       drawingsIndex := h.drawingsIndex + 1,
       coordinates := p)
  }

  /** `forward(distance)`: draw, then cut the log after the present snapshot
      and push the new one. */
  function AfterForward(h: CommanderState, giveNewCoordinates: Stepper, distance: real, line: ElementInfo): CommanderState {
    var p := giveNewCoordinates(h.coordinates.x, h.coordinates.y, h.angle, distance);
    var moved := DrawTo(h, p, line);
    var k := h.instanceIndex + 1;
    moved.(instanceIndex := k,
           commanderStateInstances := SliceTo(h.commanderStateInstances, k) + [moved.Current()])
  }

  /** `backward(distance)`: the same step at `angle + 180`, but the snapshot
      is pushed onto the whole log, which is never cut. */
  function AfterBackward(h: CommanderState, giveNewCoordinates: Stepper, distance: real, line: ElementInfo): CommanderState {
    var p := giveNewCoordinates(h.coordinates.x, h.coordinates.y, h.angle + 180.0, distance);
    var moved := DrawTo(h, p, line);
    moved.(commanderStateInstances := h.commanderStateInstances + [moved.Current()],
           instanceIndex := h.instanceIndex + 1)
  }

  /** `rotate(degrees)`: turn, and push a snapshot onto the whole log. */
  function AfterRotate(h: CommanderState, degrees: real): CommanderState {
    var turned := h.(angle := h.angle + degrees);
    turned.(commanderStateInstances := h.commanderStateInstances + [turned.Current()],
            instanceIndex := h.instanceIndex + 1)
  }

  /** `setCoordinates(p)`: move the cursor without recording anything. */
  function AfterSetCoordinates(h: CommanderState, p: Point): CommanderState {
    h.(coordinates := p)
  }

  /** Make snapshot `k` the present one and copy its fields back. */
  function Restore(h: CommanderState, k: int): CommanderState
    requires 0 <= k < |h.commanderStateInstances|
  {
    var s := h.commanderStateInstances[k];
    h.(instanceIndex := k, coordinates := s.coordinates, angle := s.angle,
       color := s.color, drawingsIndex := s.drawingsIndex)
  }

  /** `undo()`. The source reads the snapshot below the present one without a
      guard, so that snapshot must exist. */
  function AfterUndo(h: CommanderState): CommanderState
    requires 0 <= h.instanceIndex - 1 < |h.commanderStateInstances|
  {
    Restore(h, h.instanceIndex - 1)
  }

  /** `redo()`. The source reads the snapshot above the present one without a
      guard, so that snapshot must exist. */
  function AfterRedo(h: CommanderState): CommanderState
    requires 0 <= h.instanceIndex + 1 < |h.commanderStateInstances|
  {
    Restore(h, h.instanceIndex + 1)
  }

  // ---------------------------------------------------------------------
  // What a consistent history is

  /** The drawing counts recorded in the log never decrease. */
  predicate Monotone(s: seq<Snapshot>) {
    forall i, j :: 0 <= i <= j < |s| ==> s[i].drawingsIndex <= s[j].drawingsIndex
  }

  /** The bookkeeping every reachable state keeps: the present index is in
      range, the origin is the undo terminal, the counts never decrease, the
      last snapshot accounts for every drawing, and `drawingsIndex` is the
      present snapshot's. The cursor pose itself is not included, because
      `setCoordinates` moves it without recording it. */
  predicate WellFormed(h: CommanderState) {
    && 0 <= h.instanceIndex < |h.commanderStateInstances|
    && h.commanderStateInstances[0] == Origin
    && Monotone(h.commanderStateInstances)
    && |h.drawings| == h.commanderStateInstances[|h.commanderStateInstances| - 1].drawingsIndex
    && h.drawingsIndex == h.commanderStateInstances[h.instanceIndex].drawingsIndex
  }

  /** The live fields are exactly the present snapshot. */
  predicate AtSnapshot(h: CommanderState) {
    0 <= h.instanceIndex < |h.commanderStateInstances| &&
    h.Current() == h.commanderStateInstances[h.instanceIndex]
  }

  predicate Consistent(h: CommanderState) {
    WellFormed(h) && AtSnapshot(h)
  }

  /** No redo is available. */
  predicate AtTip(h: CommanderState) {
    h.instanceIndex == |h.commanderStateInstances| - 1
  }

  // ---------------------------------------------------------------------
  // Properties of the reducers

  /** In a well-formed state the visible drawings exist, and no snapshot up
      to the present shows more of them than the present does. */
  lemma VisibleDrawingsExist(h: CommanderState)
    requires WellFormed(h)
    ensures 0 <= h.drawingsIndex <= |h.drawings|
    ensures forall j :: 0 <= j <= h.instanceIndex ==>
      0 <= h.commanderStateInstances[j].drawingsIndex <= h.drawingsIndex
  {
    var s := h.commanderStateInstances;
    assert s[0].drawingsIndex == 0;
    assert s[h.instanceIndex].drawingsIndex <= s[|s| - 1].drawingsIndex;
  }

  /** Pushing a snapshot whose count is at least the last one keeps the log
      monotone. */
  lemma PushKeepsMonotone(s: seq<Snapshot>, t: Snapshot)
    requires Monotone(s)
    requires |s| > 0 ==> s[|s| - 1].drawingsIndex <= t.drawingsIndex
    ensures Monotone(s + [t])
  {
    var u := s + [t];
    forall i, j | 0 <= i <= j < |u|
      ensures u[i].drawingsIndex <= u[j].drawingsIndex
    {
      if j == |s| && i < |s| {
        assert s[i].drawingsIndex <= s[|s| - 1].drawingsIndex;
      }
    }
  }

  /** `forward` discards the redo tail of both sequences before appending:
      the drawings become the visible ones plus the new line, and the log
      becomes the snapshots up to the present plus the new one. */
  lemma ForwardDiscardsRedoTail(h: CommanderState, giveNewCoordinates: Stepper, distance: real, line: ElementInfo)
    requires WellFormed(h)
    ensures var h' := AfterForward(h, giveNewCoordinates, distance, line);
      && h'.drawings == h.drawings[..h.drawingsIndex] + [line]
      && |h'.drawings| == h'.drawingsIndex == h.drawingsIndex + 1
      && h'.commanderStateInstances == h.commanderStateInstances[..h.instanceIndex + 1] + [h'.Current()]
      && h'.instanceIndex == h.instanceIndex + 1 == |h'.commanderStateInstances| - 1
      && h'.coordinates == giveNewCoordinates(h.coordinates.x, h.coordinates.y, h.angle, distance)
      && h'.angle == h.angle && h'.color == h.color
  {
    VisibleDrawingsExist(h);
  }

  /** `forward` leaves a consistent state at the tip, from any well-formed
      state, at the tip or not. */
  lemma ForwardEstablishesConsistency(h: CommanderState, giveNewCoordinates: Stepper, distance: real, line: ElementInfo)
    requires WellFormed(h)
    ensures var h' := AfterForward(h, giveNewCoordinates, distance, line);
      Consistent(h') && AtTip(h')
  {
    var h' := AfterForward(h, giveNewCoordinates, distance, line);
    ForwardDiscardsRedoTail(h, giveNewCoordinates, distance, line);
    var kept := h.commanderStateInstances[..h.instanceIndex + 1];
    assert Monotone(kept) by {
      forall i, j | 0 <= i <= j < |kept|
        ensures kept[i].drawingsIndex <= kept[j].drawingsIndex
      {
        assert kept[i] == h.commanderStateInstances[i] && kept[j] == h.commanderStateInstances[j];
      }
    }
    PushKeepsMonotone(kept, h'.Current());
  }

  /** `backward` cuts and appends `drawings` exactly as `forward` does, but
      only ever appends to the log. */
  lemma BackwardOnlyAppendsSnapshots(h: CommanderState, giveNewCoordinates: Stepper, distance: real, line: ElementInfo)
    requires WellFormed(h)
    ensures var h' := AfterBackward(h, giveNewCoordinates, distance, line);
      && h'.drawings == h.drawings[..h.drawingsIndex] + [line]
      && |h'.drawings| == h'.drawingsIndex == h.drawingsIndex + 1
      && h'.commanderStateInstances == h.commanderStateInstances + [h'.Current()]
      && h'.instanceIndex == h.instanceIndex + 1
      && h'.coordinates == giveNewCoordinates(h.coordinates.x, h.coordinates.y, h.angle + 180.0, distance)
      && h'.angle == h.angle && h'.color == h.color
  {
    VisibleDrawingsExist(h);
  }

  /** Called at the tip, `backward` leaves a consistent state at the tip. */
  lemma BackwardAtTipKeepsConsistency(h: CommanderState, giveNewCoordinates: Stepper, distance: real, line: ElementInfo)
    requires WellFormed(h) && AtTip(h)
    ensures var h' := AfterBackward(h, giveNewCoordinates, distance, line);
      Consistent(h') && AtTip(h')
  {
    var h' := AfterBackward(h, giveNewCoordinates, distance, line);
    BackwardOnlyAppendsSnapshots(h, giveNewCoordinates, distance, line);
    PushKeepsMonotone(h.commanderStateInstances, h'.Current());
  }

  /** Called below the tip, `backward` makes the present index point at the
      old snapshot just above the cursor, while the new snapshot lands at the
      end of the log; the live fields match the present snapshot only if that
      stale snapshot happens to equal the new one. */
  lemma BackwardOffTipPointsAtStaleSnapshot(h: CommanderState, giveNewCoordinates: Stepper, distance: real, line: ElementInfo)
    requires WellFormed(h) && !AtTip(h)
    ensures var h' := AfterBackward(h, giveNewCoordinates, distance, line);
      && !AtTip(h')
      && h'.commanderStateInstances[h'.instanceIndex] == h.commanderStateInstances[h.instanceIndex + 1]
      && (AtSnapshot(h') <==> h.commanderStateInstances[h.instanceIndex + 1] == h'.Current())
  {
  }

  /** `rotate` turns the cursor, leaves the drawings and the other cursor
      fields alone, and appends one snapshot without cutting the log. */
  lemma RotateOnlyTurns(h: CommanderState, degrees: real)
    ensures var h' := AfterRotate(h, degrees);
      && h'.angle == h.angle + degrees
      && h'.coordinates == h.coordinates && h'.color == h.color
      && h'.drawings == h.drawings && h'.drawingsIndex == h.drawingsIndex
      && h'.commanderStateInstances == h.commanderStateInstances + [h'.Current()]
      && h'.instanceIndex == h.instanceIndex + 1
  {
  }

  /** Called at the tip, `rotate` leaves a consistent state at the tip. */
  lemma RotateAtTipKeepsConsistency(h: CommanderState, degrees: real)
    requires WellFormed(h) && AtTip(h)
    ensures var h' := AfterRotate(h, degrees);
      Consistent(h') && AtTip(h')
  {
    var h' := AfterRotate(h, degrees);
    PushKeepsMonotone(h.commanderStateInstances, h'.Current());
  }

  /** Called below the tip, `rotate` has the same defect as `backward`. */
  lemma RotateOffTipPointsAtStaleSnapshot(h: CommanderState, degrees: real)
    requires WellFormed(h) && !AtTip(h)
    ensures var h' := AfterRotate(h, degrees);
      && !AtTip(h')
      && h'.commanderStateInstances[h'.instanceIndex] == h.commanderStateInstances[h.instanceIndex + 1]
      && (AtSnapshot(h') <==> h.commanderStateInstances[h.instanceIndex + 1] == h'.Current())
  {
  }

  /** `setCoordinates` changes only the cursor position, so the log stays
      well-formed, but a consistent state stays consistent only when the new
      position is the recorded one. */
  lemma SetCoordinatesOnlyMoves(h: CommanderState, p: Point)
    ensures var h' := AfterSetCoordinates(h, p);
      && h'.coordinates == p
      && h' == h.(coordinates := p)
      && (WellFormed(h) ==> WellFormed(h'))
      && (Consistent(h) ==> (Consistent(h') <==> p == h.coordinates))
  {
  }

  /** `undo` restores the snapshot below the present one, leaves both
      sequences alone, and always lands in a consistent state. */
  lemma UndoRestoresPrevious(h: CommanderState)
    requires WellFormed(h) && 1 <= h.instanceIndex
    ensures var h' := AfterUndo(h);
      && h'.instanceIndex == h.instanceIndex - 1
      && h'.Current() == h.commanderStateInstances[h.instanceIndex - 1]
      && h'.drawings == h.drawings
      && h'.commanderStateInstances == h.commanderStateInstances
      && Consistent(h')
  {
  }

  /** `redo` restores the snapshot above the present one, leaves both
      sequences alone, and always lands in a consistent state. */
  lemma RedoRestoresNext(h: CommanderState)
    requires WellFormed(h) && !AtTip(h)
    ensures var h' := AfterRedo(h);
      && h'.instanceIndex == h.instanceIndex + 1
      && h'.Current() == h.commanderStateInstances[h.instanceIndex + 1]
      && h'.drawings == h.drawings
      && h'.commanderStateInstances == h.commanderStateInstances
      && Consistent(h')
  {
  }

  /** `undo` then `redo` brings back the present snapshot; when the state
      agreed with that snapshot, the pair changes nothing. */
  lemma UndoThenRedo(h: CommanderState)
    requires 1 <= h.instanceIndex < |h.commanderStateInstances|
    ensures var h' := AfterRedo(AfterUndo(h));
      && h'.Current() == h.commanderStateInstances[h.instanceIndex]
      && h'.instanceIndex == h.instanceIndex
      && h'.drawings == h.drawings
      && h'.commanderStateInstances == h.commanderStateInstances
      && (AtSnapshot(h) ==> h' == h)
  {
  }

  /** `redo` then `undo` brings back the present snapshot; when the state
      agreed with that snapshot, the pair changes nothing. */
  lemma RedoThenUndo(h: CommanderState)
    requires 0 <= h.instanceIndex < |h.commanderStateInstances| - 1
    ensures var h' := AfterUndo(AfterRedo(h));
      && h'.Current() == h.commanderStateInstances[h.instanceIndex]
      && h'.instanceIndex == h.instanceIndex
      && h'.drawings == h.drawings
      && h'.commanderStateInstances == h.commanderStateInstances
      && (AtSnapshot(h) ==> h' == h)
  {
  }

  /** `n` undos in a row. */
  function Undone(h: CommanderState, n: nat): (r: CommanderState)
    requires n <= h.instanceIndex < |h.commanderStateInstances|
    ensures r.instanceIndex == h.instanceIndex - n
    ensures r.drawings == h.drawings && r.commanderStateInstances == h.commanderStateInstances
    ensures n > 0 ==> AtSnapshot(r)
  {
    if n == 0 then h else AfterUndo(Undone(h, n - 1))
  }

  /** `n` redos in a row. */
  function Redone(h: CommanderState, n: nat): (r: CommanderState)
    requires 0 <= h.instanceIndex && h.instanceIndex + n < |h.commanderStateInstances|
    ensures r.instanceIndex == h.instanceIndex + n
    ensures r.drawings == h.drawings && r.commanderStateInstances == h.commanderStateInstances
    ensures n > 0 ==> AtSnapshot(r)
    decreases n
  {
    if n == 0 then h else Redone(AfterRedo(h), n - 1)
  }

  /** Any number of undos followed by as many redos changes nothing in a
      state that agrees with its present snapshot. */
  lemma {:induction false} UndoManyThenRedoMany(h: CommanderState, n: nat)
    requires AtSnapshot(h) && n <= h.instanceIndex
    ensures Redone(Undone(h, n), n) == h
  {
    if n > 0 {
      var g := Undone(h, n - 1);
      assert AtSnapshot(g);
      UndoThenRedo(g);
      assert Redone(Undone(h, n), n) == Redone(AfterRedo(AfterUndo(g)), n - 1);
      UndoManyThenRedoMany(h, n - 1);
    }
  }

  /** From a log [S0, S1, S2, S3] at index 3, two undos and a `forward` leave
      exactly [S0, S1, S1'] at index 2: S2 and S3 are gone. */
  lemma UndoUndoForwardTruncates(h: CommanderState, giveNewCoordinates: Stepper, distance: real, line: ElementInfo)
    requires WellFormed(h) && |h.commanderStateInstances| == 4 && h.instanceIndex == 3
    ensures var s := h.commanderStateInstances;
      var h' := AfterForward(AfterUndo(AfterUndo(h)), giveNewCoordinates, distance, line);
      && h'.commanderStateInstances == [s[0], s[1], h'.Current()]
      && h'.instanceIndex == 2
      && h'.drawings == h.drawings[..s[1].drawingsIndex] + [line]
      && h'.coordinates == giveNewCoordinates(s[1].coordinates.x, s[1].coordinates.y, s[1].angle, distance)
  {
    var s := h.commanderStateInstances;
    var g := AfterUndo(AfterUndo(h));
    UndoRestoresPrevious(h);
    UndoRestoresPrevious(AfterUndo(h));
    ForwardDiscardsRedoTail(g, giveNewCoordinates, distance, line);
    assert s[..2] == [s[0], s[1]];
  }

  /** Two moves, two undos and a `backward` from the origin leave a redo
      available; taking it restores the second move's snapshot from the
      abandoned branch, which claims two visible drawings while only one,
      the backward line, exists. */
  lemma BackwardOffTipOverrunsDrawings(giveNewCoordinates: Stepper, d1: real, d2: real, d3: real,
                                       e1: ElementInfo, e2: ElementInfo, e3: ElementInfo)
    ensures var h := AfterRedo(AfterBackward(AfterUndo(AfterUndo(
                       AfterForward(AfterForward(Initial(), giveNewCoordinates, d1, e1), giveNewCoordinates, d2, e2))),
                       giveNewCoordinates, d3, e3));
      && h.drawings == [e3]
      && h.drawingsIndex == 2
      && !WellFormed(h)
  {
    var h1 := AfterForward(Initial(), giveNewCoordinates, d1, e1);
    var h2 := AfterForward(h1, giveNewCoordinates, d2, e2);
    ForwardDiscardsRedoTail(Initial(), giveNewCoordinates, d1, e1);
    ForwardEstablishesConsistency(Initial(), giveNewCoordinates, d1, e1);
    ForwardDiscardsRedoTail(h1, giveNewCoordinates, d2, e2);
    ForwardEstablishesConsistency(h1, giveNewCoordinates, d2, e2);
    var h4 := AfterUndo(AfterUndo(h2));
    UndoRestoresPrevious(h2);
    UndoRestoresPrevious(AfterUndo(h2));
    assert h4.instanceIndex == 0 && h4.drawingsIndex == 0 && |h4.commanderStateInstances| == 3;
    var h5 := AfterBackward(h4, giveNewCoordinates, d3, e3);
    BackwardOnlyAppendsSnapshots(h4, giveNewCoordinates, d3, e3);
    assert h5.drawings == [e3] && h5.instanceIndex == 1;
    assert h5.commanderStateInstances[2] == h2.commanderStateInstances[2];
    assert h2.commanderStateInstances[2].drawingsIndex == 2;
  }

  /** A move, an undo and a `rotate` from the origin leave a redo available
      straight after a new command, and an undo followed by a redo then
      brings back the abandoned move instead of the rotation. */
  lemma RotateOffTipBreaksUndoRedo(giveNewCoordinates: Stepper, distance: real, degrees: real, line: ElementInfo)
    requires degrees != 0.0
    ensures var h := AfterRotate(AfterUndo(AfterForward(Initial(), giveNewCoordinates, distance, line)), degrees);
      && !AtTip(h)
      && AfterRedo(AfterUndo(h)) != h
  {
    var h1 := AfterForward(Initial(), giveNewCoordinates, distance, line);
    ForwardDiscardsRedoTail(Initial(), giveNewCoordinates, distance, line);
    var h2 := AfterUndo(h1);
    var h := AfterRotate(h2, degrees);
    assert h.instanceIndex == 1 && |h.commanderStateInstances| == 3;
    assert AfterRedo(AfterUndo(h)).angle == h1.angle == 0.0;
  }

  // ---------------------------------------------------------------------
  // The reducer as a whole: dispatching actions and running sequences of them

  /** The slice's actions. A move carries the line element its reducer
      appends, because creating an object is not a function of the state. */
  datatype Command =
    | Forward(distance: real, line: ElementInfo)
    | Backward(distance: real, line: ElementInfo)
    | Rotate(degrees: real)
    | SetCoordinates(p: Point)
    | Undo
    | Redo

  /** The action does not read a snapshot that is missing. */
  predicate CanApply(h: CommanderState, c: Command) {
    match c
    case Undo => 0 <= h.instanceIndex - 1 < |h.commanderStateInstances|
    case Redo => 0 <= h.instanceIndex + 1 < |h.commanderStateInstances|
    case _ => true
  }

  /** The reducer: the new state for one dispatched action. */
  function Apply(h: CommanderState, giveNewCoordinates: Stepper, c: Command): CommanderState
    requires CanApply(h, c)
  {
    match c
    case Forward(distance, line) => AfterForward(h, giveNewCoordinates, distance, line)
    case Backward(distance, line) => AfterBackward(h, giveNewCoordinates, distance, line)
    case Rotate(degrees) => AfterRotate(h, degrees)
    case SetCoordinates(p) => AfterSetCoordinates(h, p)
    case Undo => AfterUndo(h)
    case Redo => AfterRedo(h)
  }

  /** The action can run, and if it is `backward` or `rotate`, no redo is
      available when it runs. */
  predicate Guarded(h: CommanderState, c: Command) {
    CanApply(h, c) && ((c.Backward? || c.Rotate?) ==> AtTip(h))
  }

  /** Every action of `cs`, dispatched in turn from `h`, reads only snapshots
      that exist. The source dispatches any such sequence without error. */
  predicate Runnable(h: CommanderState, giveNewCoordinates: Stepper, cs: seq<Command>)
    decreases |cs|
  {
    cs == [] ||
    (CanApply(h, cs[0]) && Runnable(Apply(h, giveNewCoordinates, cs[0]), giveNewCoordinates, cs[1..]))
  }

  /** The state after dispatching every action of `cs` in turn. */
  function Run(h: CommanderState, giveNewCoordinates: Stepper, cs: seq<Command>): CommanderState
    requires Runnable(h, giveNewCoordinates, cs)
    decreases |cs|
  {
    if cs == [] then h else Run(Apply(h, giveNewCoordinates, cs[0]), giveNewCoordinates, cs[1..])
  }

  /** Every action of `cs`, dispatched in turn from `h`, is guarded. */
  predicate GuardedRun(h: CommanderState, giveNewCoordinates: Stepper, cs: seq<Command>)
    ensures GuardedRun(h, giveNewCoordinates, cs) ==> Runnable(h, giveNewCoordinates, cs)
    decreases |cs|
  {
    cs == [] ||
    (Guarded(h, cs[0]) && GuardedRun(Apply(h, giveNewCoordinates, cs[0]), giveNewCoordinates, cs[1..]))
  }

  /** A guarded action keeps the log well-formed, and every guarded action
      except `setCoordinates` leaves the state consistent. A `setCoordinates`
      keeps a consistent state consistent only if it does not move the cursor. */
  lemma ApplyKeepsWellFormed(h: CommanderState, giveNewCoordinates: Stepper, c: Command)
    requires WellFormed(h) && Guarded(h, c)
    ensures WellFormed(Apply(h, giveNewCoordinates, c))
    ensures !c.SetCoordinates? ==> Consistent(Apply(h, giveNewCoordinates, c))
    ensures c.SetCoordinates? && Consistent(h) ==>
      (Consistent(Apply(h, giveNewCoordinates, c)) <==> c.p == h.coordinates)
  {
    match c
    case Forward(distance, line) => ForwardEstablishesConsistency(h, giveNewCoordinates, distance, line);
    case Backward(distance, line) => BackwardAtTipKeepsConsistency(h, giveNewCoordinates, distance, line);
    case Rotate(degrees) => RotateAtTipKeepsConsistency(h, degrees);
    case SetCoordinates(p) => SetCoordinatesOnlyMoves(h, p);
    case Undo => UndoRestoresPrevious(h);
    case Redo => RedoRestoresNext(h);
  }

  /** Every guarded run keeps the log well-formed, and one whose last action
      is not `setCoordinates` ends consistent. */
  lemma {:induction false} GuardedRunKeepsWellFormed(h: CommanderState, giveNewCoordinates: Stepper, cs: seq<Command>)
    requires WellFormed(h) && GuardedRun(h, giveNewCoordinates, cs)
    ensures WellFormed(Run(h, giveNewCoordinates, cs))
    ensures cs != [] && !cs[|cs| - 1].SetCoordinates? ==> Consistent(Run(h, giveNewCoordinates, cs))
    decreases |cs|
  {
    if cs != [] {
      ApplyKeepsWellFormed(h, giveNewCoordinates, cs[0]);
      var next := Apply(h, giveNewCoordinates, cs[0]);
      GuardedRunKeepsWellFormed(next, giveNewCoordinates, cs[1..]);
      if |cs| > 1 {
        assert cs[1..][|cs| - 2] == cs[|cs| - 1];
      }
    }
  }

  /** `forward`, `backward`, `rotate` and `setCoordinates` all leave no redo
      behind, so a sequence of them started at the tip is guarded throughout,
      ends at the tip, and has advanced the present index if it holds any
      action other than `setCoordinates`. */
  lemma {:induction false} MovesFromTipGuarded(h: CommanderState, giveNewCoordinates: Stepper, cs: seq<Command>)
    requires AtTip(h)
    requires forall i :: 0 <= i < |cs| ==> !cs[i].Undo? && !cs[i].Redo?
    ensures GuardedRun(h, giveNewCoordinates, cs)
    ensures AtTip(Run(h, giveNewCoordinates, cs))
    ensures Run(h, giveNewCoordinates, cs).instanceIndex >= h.instanceIndex
    ensures (exists i :: 0 <= i < |cs| && !cs[i].SetCoordinates?) ==>
      Run(h, giveNewCoordinates, cs).instanceIndex > h.instanceIndex
    decreases |cs|
  {
    if cs != [] {
      var next := Apply(h, giveNewCoordinates, cs[0]);
      assert AtTip(next);
      assert forall i :: 0 <= i < |cs| - 1 ==> cs[1..][i] == cs[i + 1];
      MovesFromTipGuarded(next, giveNewCoordinates, cs[1..]);
      if cs[0].SetCoordinates? && (exists i :: 0 <= i < |cs| && !cs[i].SetCoordinates?) {
        var i :| 0 <= i < |cs| && !cs[i].SetCoordinates?;
        assert cs[1..][i - 1] == cs[i];
      }
    }
  }

  /** A session from the initial state made of moves, turns and cursor
      placements (such as centring the cursor first), whose last action is a
      move or turn, ends consistent at the tip with something to undo, and
      there an undo followed by a redo changes nothing. */
  lemma MovesUndoRedoIdentity(giveNewCoordinates: Stepper, cs: seq<Command>)
    requires forall i :: 0 <= i < |cs| ==> !cs[i].Undo? && !cs[i].Redo?
    requires cs != [] && !cs[|cs| - 1].SetCoordinates?
    ensures GuardedRun(Initial(), giveNewCoordinates, cs)
    ensures var h := Run(Initial(), giveNewCoordinates, cs);
      && Consistent(h) && AtTip(h) && h.instanceIndex >= 1
      && AfterRedo(AfterUndo(h)) == h
  {
    MovesFromTipGuarded(Initial(), giveNewCoordinates, cs);
    assert !cs[|cs| - 1].SetCoordinates?;
    GuardedRunKeepsWellFormed(Initial(), giveNewCoordinates, cs);
    UndoThenRedo(Run(Initial(), giveNewCoordinates, cs));
  }

  /** Any guarded run from the initial state whose last action is not
      `setCoordinates` ends consistent, and there an undo followed by a redo
      changes nothing. */
  lemma UndoRedoIdentityAfterRun(giveNewCoordinates: Stepper, cs: seq<Command>)
    requires GuardedRun(Initial(), giveNewCoordinates, cs)
    requires cs == [] || !cs[|cs| - 1].SetCoordinates?
    ensures var h := Run(Initial(), giveNewCoordinates, cs);
      && Consistent(h)
      && (h.instanceIndex >= 1 ==> AfterRedo(AfterUndo(h)) == h)
  {
    var h := Run(Initial(), giveNewCoordinates, cs);
    GuardedRunKeepsWellFormed(Initial(), giveNewCoordinates, cs);
    if h.instanceIndex >= 1 {
      UndoThenRedo(h);
    }
  }

  /** The source also runs sequences that are not guarded: a move, an undo
      and a turn dispatch without error, but the turn is not at the tip and
      leaves a redo available. */
  lemma OffTipTurnRunsUnguarded(giveNewCoordinates: Stepper, distance: real, line: ElementInfo, degrees: real)
    ensures var cs := [Forward(distance, line), Undo, Rotate(degrees)];
      && Runnable(Initial(), giveNewCoordinates, cs)
      && !GuardedRun(Initial(), giveNewCoordinates, cs)
      && !AtTip(Run(Initial(), giveNewCoordinates, cs))
  {
    var cs := [Forward(distance, line), Undo, Rotate(degrees)];
    var h0 := Initial();
    var h1 := Apply(h0, giveNewCoordinates, cs[0]);
    ForwardDiscardsRedoTail(h0, giveNewCoordinates, distance, line);
    assert h1.instanceIndex == 1 && |h1.commanderStateInstances| == 2;
    var h2 := Apply(h1, giveNewCoordinates, Undo);
    assert h2.instanceIndex == 0 && |h2.commanderStateInstances| == 2;
    var h3 := Apply(h2, giveNewCoordinates, Rotate(degrees));
    assert cs[1..] == [Undo, Rotate(degrees)];
    assert cs[1..][1..] == [Rotate(degrees)];
    assert cs[1..][1..][1..] == [];
    assert Runnable(h2, giveNewCoordinates, cs[1..][1..]);
    assert Runnable(h1, giveNewCoordinates, cs[1..]);
    assert !Guarded(h2, Rotate(degrees));
    assert !GuardedRun(h1, giveNewCoordinates, cs[1..]);
    assert Run(h2, giveNewCoordinates, cs[1..][1..]) == h3;
    assert Run(h0, giveNewCoordinates, cs) == h3;
  }

  // ---------------------------------------------------------------------
  // The slice as an object updated in place

  /** `createElement(x1, y1, x2, y2)`: a new element holding the segment and
      a new sketch from the foreign generator. */
  method CreateElement(x1: real, y1: real, x2: real, y2: real) returns (e: ElementInfo)
    ensures fresh(e) && e.Joins(Point(x1, y1), Point(x2, y2))
  {
    var roughElement := new Drawable();
    e := new ElementInfo(x1, y1, x2, y2, roughElement);
  }

  class Commander {
    var coordinates: Point
    var angle: real
    var color: string
    var drawings: seq<ElementInfo>
    var commanderStateInstances: seq<Snapshot>
    var drawingsIndex: int
    var instanceIndex: int
    /** The step function the moves use; fixed for the life of the slice. */
    const giveNewCoordinates: Stepper

    /** The fields as one value. */
    function State(): CommanderState
      reads this
    {
      CommanderState(coordinates, angle, color, drawings, commanderStateInstances, drawingsIndex, instanceIndex)
    }

    constructor (giveNewCoordinates: Stepper)
      ensures State() == Initial() && this.giveNewCoordinates == giveNewCoordinates
    {
      coordinates := Point(0.0, 0.0);
      angle := 0.0;
      color := "black";
      drawings := [];
      commanderStateInstances := [Snapshot(Point(0.0, 0.0), 0.0, "black", 0)];
      drawingsIndex := 0;
      instanceIndex := 0;
      this.giveNewCoordinates := giveNewCoordinates;
    }

    method Forward(distance: real)
      modifies this
      ensures |drawings| > 0 && fresh(drawings[|drawings| - 1])
      ensures drawings[|drawings| - 1].Joins(old(coordinates), coordinates)
      ensures State() == AfterForward(old(State()), giveNewCoordinates, distance, drawings[|drawings| - 1])
      ensures old(WellFormed(State())) ==> Consistent(State()) && AtTip(State())
    {
      ghost var before := State();
      var newCoordinates := giveNewCoordinates(coordinates.x, coordinates.y, angle, distance);
      drawings := SliceTo(drawings, drawingsIndex);
      drawingsIndex := drawingsIndex + 1;
      var line := CreateElement(coordinates.x, coordinates.y, newCoordinates.x, newCoordinates.y);
      drawings := drawings + [line];
      coordinates := newCoordinates;
      instanceIndex := instanceIndex + 1;
      commanderStateInstances := SliceTo(commanderStateInstances, instanceIndex);
      commanderStateInstances := commanderStateInstances + [Snapshot(coordinates, angle, color, drawingsIndex)];
      if WellFormed(before) {
        ForwardEstablishesConsistency(before, giveNewCoordinates, distance, line);
      }
    }

    method Backward(distance: real)
      modifies this
      ensures |drawings| > 0 && fresh(drawings[|drawings| - 1])
      ensures drawings[|drawings| - 1].Joins(old(coordinates), coordinates)
      ensures State() == AfterBackward(old(State()), giveNewCoordinates, distance, drawings[|drawings| - 1])
      ensures old(WellFormed(State()) && AtTip(State())) ==> Consistent(State()) && AtTip(State())
    {
      ghost var before := State();
      var newCoordinates := giveNewCoordinates(coordinates.x, coordinates.y, angle + 180.0, distance);
      drawings := SliceTo(drawings, drawingsIndex);
      drawingsIndex := drawingsIndex + 1;
      var line := CreateElement(coordinates.x, coordinates.y, newCoordinates.x, newCoordinates.y);
      drawings := drawings + [line];
      coordinates := newCoordinates;
      commanderStateInstances := commanderStateInstances + [Snapshot(coordinates, angle, color, drawingsIndex)];
      instanceIndex := instanceIndex + 1;
      if WellFormed(before) && AtTip(before) {
        BackwardAtTipKeepsConsistency(before, giveNewCoordinates, distance, line);
      }
    }

    method Rotate(degrees: real)
      modifies this
      ensures State() == AfterRotate(old(State()), degrees)
      ensures old(WellFormed(State()) && AtTip(State())) ==> Consistent(State()) && AtTip(State())
    {
      ghost var before := State();
      angle := angle + degrees;
      commanderStateInstances := commanderStateInstances + [Snapshot(coordinates, angle, color, drawingsIndex)];
      instanceIndex := instanceIndex + 1;
      if WellFormed(before) && AtTip(before) {
        RotateAtTipKeepsConsistency(before, degrees);
      }
    }

    method SetCoordinates(p: Point)
      modifies this
      ensures State() == AfterSetCoordinates(old(State()), p)
      ensures old(WellFormed(State())) ==> WellFormed(State())
    {
      coordinates := p;
    }

    method Undo()
      requires 0 <= instanceIndex - 1 < |commanderStateInstances|
      modifies this
      ensures State() == AfterUndo(old(State()))
      ensures old(WellFormed(State())) ==> Consistent(State())
    {
      instanceIndex := instanceIndex - 1;
      coordinates := commanderStateInstances[instanceIndex].coordinates;
      angle := commanderStateInstances[instanceIndex].angle;
      color := commanderStateInstances[instanceIndex].color;
      drawingsIndex := commanderStateInstances[instanceIndex].drawingsIndex;
    }

    method Redo()
      requires 0 <= instanceIndex + 1 < |commanderStateInstances|
      modifies this
      ensures State() == AfterRedo(old(State()))
      ensures old(WellFormed(State())) ==> Consistent(State())
    {
      instanceIndex := instanceIndex + 1;
      coordinates := commanderStateInstances[instanceIndex].coordinates;
      angle := commanderStateInstances[instanceIndex].angle;
      color := commanderStateInstances[instanceIndex].color;
      drawingsIndex := commanderStateInstances[instanceIndex].drawingsIndex;
    }
  }
}
