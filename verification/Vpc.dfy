/**
 * The video path of a vpc surface (westeros-compositor.cpp).  Video is shown either by the hardware,
 * seen through a hole punched into the graphics, or by the graphics.  Composing a frame wishes for
 * one of the two; with repeater support the switch is a handover, ended by a commit of the client.
 */
module Vpc {
  datatype Rect = Rect(x: int, y: int, w: int, h: int)

  /** What a frame is composed with: hints, the output size and the renderer's matrix. */
  datatype Frame = Frame(
    noRotation: bool, animating: bool, outputWidth: int, outputHeight: int,
    m11: real, m12: real, m21: real, m22: real, tx: real, ty: real)

  datatype Path = Path(
    videoPathSet: bool, useHWPath: bool, useHWPathNext: bool, pathTransitionPending: bool)

  datatype State = State(
    path: Path,
    told: seq<bool>,        // the path messages sent to the client; true is hardware
    visible: bool,          // of the renderer surface
    hw: Rect,               // where the hardware shows the video
    area: Rect,             // the geometry of the surface
    sizeOverride: bool,
    bridge: bool)           // useHWPathVpcBridge

  datatype Op =
    | Update(f: Frame)                          // wstUpdateVPCSurfaces, while composing a frame
    | Commit(buffer: bool, signal: bool)        // of the surface: with a buffer, or a vpc-bridge signal
    | SetGeometry(r: Rect)
    | Move(r: Rect)                             // the surface gets a new geometry by other requests
    | BridgePath(hardware: bool)
    | SetVisible(v: bool)                       // whoever else shows or hides the renderer surface

  function Start(area: Rect, outputWidth: int, outputHeight: int): State {
    State(Path(false, true, true, false), [], false, Rect(0, 0, outputWidth, outputHeight), area, false, true)
  }

  // ------------------------------------------------------------------ composing a frame

  function Wish(st: State, f: Frame): bool {
    f.noRotation && !f.animating && st.bridge
  }

  /** The path after an update, and the path message it sends, if any. */
  function NextPath(p: Path, wish: bool, repeater: bool): (Path, seq<bool>) {
    if !p.videoPathSet || wish != p.useHWPath then
      (if p.videoPathSet && repeater then p.(useHWPathNext := wish, pathTransitionPending := true)
       else p.(useHWPathNext := wish, useHWPath := wish, videoPathSet := true),
       [wish])
    else (p, [])
  }

  predicate Rotated(f: Frame) {
    (f.m12 > 0.01 && f.m21 > 0.01) || f.m12 < 0.0 || f.m21 < 0.0
  }

  /** Conversion to int drops the fraction. */
  function Trunc(r: real): int {
    if r >= 0.0 then r.Floor else -(-r).Floor
  }

  function Times(v: int, scale: real): real {
    v as real * scale
  }

  function Scaled(v: int, scale: real): int {
    Trunc(Times(v, scale))
  }

  function Shifted(shift: real, v: int, scale: real): int {
    Trunc(Trunc(shift) as real + Times(v, scale))
  }

  /** The extent of what starts at start and must not go beyond limit. */
  function Cut(start: int, size: int, limit: int): int {
    if start + size > limit then limit - start else size
  }

  /** The surface's rectangle, cut off at the right and bottom of the output, under the matrix. */
  function Placed(area: Rect, f: Frame): Rect {
    Rect(Shifted(f.tx, area.x, f.m11), Shifted(f.ty, area.y, f.m22),
         Scaled(Cut(area.x, area.w, f.outputWidth), f.m11), Scaled(Cut(area.y, area.h, f.outputHeight), f.m22))
  }

  /** Whether an update may move the hardware rectangle, given the path it has just chosen. */
  predicate MayMove(p: Path, f: Frame) {
    (p.useHWPath || p.useHWPathNext) && !Rotated(f) && (!p.pathTransitionPending || p.useHWPathNext)
  }

  function DoUpdate(st: State, f: Frame, repeater: bool): State {
    var (p, sent) := NextPath(st.path, Wish(st, f), repeater);
    st.(path := p, told := st.told + sent, hw := if MayMove(p, f) then Placed(st.area, f) else st.hw)
  }

  /** The hole that composing the frame has to punch, if any: the hardware rectangle. */
  function Hole(st: State): seq<Rect> {
    if (st.path.useHWPath || st.path.useHWPathNext) && st.sizeOverride then [st.hw] else []
  }

  // ------------------------------------------------------------------ requests

  /** A commit that ends the pending handover: a picture for the graphics path, or its absence. */
  predicate Ends(p: Path, buffer: bool, signal: bool) {
    p.pathTransitionPending && (((buffer || signal) && !p.useHWPathNext) || (!buffer && p.useHWPathNext))
  }

  function DoCommit(st: State, buffer: bool, signal: bool): State {
    if Ends(st.path, buffer, signal) then
      st.(path := st.path.(useHWPath := st.path.useHWPathNext, pathTransitionPending := false),
          visible := !st.path.useHWPathNext)
    else st
  }

  function Step(repeater: bool, st: State, op: Op): State {
    match op
    case Update(f) => DoUpdate(st, f, repeater)
    case Commit(buffer, signal) => DoCommit(st, buffer, signal)
    case SetGeometry(r) => st.(hw := r, area := r, sizeOverride := true)
    case Move(r) => st.(area := r)
    case BridgePath(hardware) => st.(bridge := hardware)
    case SetVisible(v) => st.(visible := v)
  }

  function Run(repeater: bool, st: State, ops: seq<Op>): State {
    if ops == [] then st else Step(repeater, Run(repeater, st, ops[..|ops| - 1]), ops[|ops| - 1])
  }

  lemma {:induction false} RunAppend(repeater: bool, st: State, a: seq<Op>, b: seq<Op>)
    ensures Run(repeater, st, a + b) == Run(repeater, Run(repeater, st, a), b)
  {
    if b == [] {
      assert a + b == a;
    } else {
      assert (a + b)[..|a + b| - 1] == a + b[..|b| - 1];
      RunAppend(repeater, st, a, b[..|b| - 1]);
    }
  }

  // ------------------------------------------------------------------ every run

  predicate PathInv(repeater: bool, st: State) {
    && (st.path.pathTransitionPending <==> st.path.useHWPath != st.path.useHWPathNext)
    && (st.path.pathTransitionPending ==> repeater)
    && (st.path.videoPathSet <==> st.told != [])
    && (st.told != [] ==> st.told[|st.told| - 1] == st.path.useHWPathNext)
    && (st.told == [] ==> st.path.useHWPath && st.path.useHWPathNext)
  }

  lemma StepKeepsPathInv(repeater: bool, st: State, op: Op)
    requires PathInv(repeater, st)
    ensures PathInv(repeater, Step(repeater, st, op))
  {
  }

  lemma {:induction false} RunKeepsPathInv(repeater: bool, st: State, ops: seq<Op>)
    requires PathInv(repeater, st)
    ensures PathInv(repeater, Run(repeater, st, ops))
  {
    if ops != [] {
      RunKeepsPathInv(repeater, st, ops[..|ops| - 1]);
      StepKeepsPathInv(repeater, Run(repeater, st, ops[..|ops| - 1]), ops[|ops| - 1]);
    }
  }

  /** In every reachable state a handover is pending exactly when the path in use is not the next one,
      and the client was last told the next one. */
  lemma PendingIffPathsDiffer(repeater: bool, area: Rect, outputWidth: int, outputHeight: int, ops: seq<Op>)
    ensures var st := Run(repeater, Start(area, outputWidth, outputHeight), ops);
      && (st.path.pathTransitionPending <==> st.path.useHWPath != st.path.useHWPathNext)
      && (st.told != [] ==> st.told[|st.told| - 1] == st.path.useHWPathNext)
      && (st.told == [] ==> st.path.useHWPath && st.path.useHWPathNext)
  {
    RunKeepsPathInv(repeater, Start(area, outputWidth, outputHeight), ops);
  }

  // ------------------------------------------------------------------ convergence

  predicate Converged(st: State, w: bool) {
    && st.path == Path(true, w, w, false)
    && st.told != [] && st.told[|st.told| - 1] == w
  }

  /** Operations under which the wish stays w. */
  predicate Steady(st: State, op: Op, w: bool) {
    match op
    case Update(f) => Wish(st, f) == w
    case BridgePath(_) => false
    case _ => true
  }

  predicate AllSteady(repeater: bool, st: State, ops: seq<Op>, w: bool) {
    ops == [] ||
      (AllSteady(repeater, st, ops[..|ops| - 1], w)
       && Steady(Run(repeater, st, ops[..|ops| - 1]), ops[|ops| - 1], w))
  }

  /** How many useful steps the path is away from w: a handover the wrong way has to end first, then
      an update has to start one, then that one has to end. */
  function Distance(st: State, w: bool): nat {
    if !st.path.videoPathSet then 2
    else if st.path.pathTransitionPending then (if st.path.useHWPathNext == w then 1 else 3)
    else if st.path.useHWPath == w then 0 else 2
  }

  lemma DistanceZeroIff(repeater: bool, st: State, w: bool)
    requires PathInv(repeater, st)
    ensures Distance(st, w) == 0 <==> Converged(st, w)
  {
  }

  /** With a steady wish no step leads away from it, an update leads closer at distance 2, and a
      commit that ends a handover leads closer at the odd distances. */
  lemma SteadyStep(repeater: bool, st: State, op: Op, w: bool)
    requires PathInv(repeater, st) && Steady(st, op, w)
    ensures Distance(Step(repeater, st, op), w) <= Distance(st, w)
    ensures op.Update? ==> Distance(Step(repeater, st, op), w) != 2
    ensures op.Commit? && (st.path.pathTransitionPending ==> Ends(st.path, op.buffer, op.signal)) ==>
      Distance(Step(repeater, st, op), w) % 2 == 0
  {
  }

  lemma {:induction false} SteadyRun(repeater: bool, st: State, ops: seq<Op>, w: bool)
    requires PathInv(repeater, st) && AllSteady(repeater, st, ops, w)
    ensures Distance(Run(repeater, st, ops), w) <= Distance(st, w)
  {
    if ops != [] {
      var before := ops[..|ops| - 1];
      SteadyRun(repeater, st, before, w);
      RunKeepsPathInv(repeater, st, before);
      SteadyStep(repeater, Run(repeater, st, before), ops[|ops| - 1], w);
    }
  }

  /** A commit that ends the handover, should one be pending. */
  predicate Matching(st: State, op: Op) {
    op.Commit? && (st.path.pathTransitionPending ==> Ends(st.path, op.buffer, op.signal))
  }

  /** From any state, with a steady wish, the path is the wished one after a matching commit, an update
      and a matching commit, whatever else happens before, between and after them. */
  lemma SteadyWishConverges(repeater: bool, st: State, w: bool, a: seq<Op>, c1: Op, b: seq<Op>, u: Op, c: seq<Op>, c2: Op, d: seq<Op>)
    requires PathInv(repeater, st)
    requires AllSteady(repeater, st, a, w)
    requires Matching(Run(repeater, st, a), c1)
    requires AllSteady(repeater, Run(repeater, st, a + [c1]), b, w)
    requires u.Update? && Steady(Run(repeater, st, a + [c1] + b), u, w)
    requires AllSteady(repeater, Run(repeater, st, a + [c1] + b + [u]), c, w)
    requires Matching(Run(repeater, st, a + [c1] + b + [u] + c), c2)
    requires AllSteady(repeater, Run(repeater, st, a + [c1] + b + [u] + c + [c2]), d, w)
    ensures Converged(Run(repeater, st, a + [c1] + b + [u] + c + [c2] + d), w)
  {
    RunPush(repeater, st, a, c1);
    RunAppend(repeater, st, a + [c1], b);
    RunPush(repeater, st, a + [c1] + b, u);
    RunAppend(repeater, st, a + [c1] + b + [u], c);
    RunPush(repeater, st, a + [c1] + b + [u] + c, c2);
    RunAppend(repeater, st, a + [c1] + b + [u] + c + [c2], d);
    hide Run;
    var s1 := Run(repeater, st, a);
    var s2 := Step(repeater, s1, c1);
    var s3 := Run(repeater, s2, b);
    var s4 := Step(repeater, s3, u);
    var s5 := Run(repeater, s4, c);
    var s6 := Step(repeater, s5, c2);
    RunKeepsPathInv(repeater, st, a);
    SteadyStep(repeater, s1, c1, w);
    StepKeepsPathInv(repeater, s1, c1);
    SteadyRun(repeater, s2, b, w);
    RunKeepsPathInv(repeater, s2, b);
    SteadyStep(repeater, s3, u, w);
    StepKeepsPathInv(repeater, s3, u);
    SteadyRun(repeater, s4, c, w);
    RunKeepsPathInv(repeater, s4, c);
    SteadyStep(repeater, s5, c2, w);
    StepKeepsPathInv(repeater, s5, c2);
    SteadyRun(repeater, s6, d, w);
    RunKeepsPathInv(repeater, s6, d);
    DistanceZeroIff(repeater, Run(repeater, s6, d), w);
  }

  lemma RunPush(repeater: bool, st: State, a: seq<Op>, op: Op)
    ensures Run(repeater, st, a + [op]) == Step(repeater, Run(repeater, st, a), op)
  {
    assert (a + [op])[..|a|] == a;
  }

  /** One update and one matching commit are enough exactly when no handover away from the wish was
      pending while the wished path is still in use. */
  lemma OneRoundIff(repeater: bool, st: State, f: Frame, c: Op)
    requires PathInv(repeater, st) && Matching(DoUpdate(st, f, repeater), c)
    ensures Converged(Step(repeater, DoUpdate(st, f, repeater), c), Wish(st, f))
      <==> !(st.path.pathTransitionPending && st.path.useHWPath == Wish(st, f))
  {
  }

  // ------------------------------------------------------------------ the hole stays put

  /** From hardware to graphics, and the first picture for the graphics has not come yet. */
  predicate Leaving(st: State) {
    st.path.useHWPath && !st.path.useHWPathNext && st.path.pathTransitionPending
  }

  /** No geometry request, and no commit that ends the handover. */
  predicate Waiting(st: State, op: Op) {
    match op
    case SetGeometry(_) => false
    case Commit(buffer, signal) => !Ends(st.path, buffer, signal)
    case _ => true
  }

  predicate AllWaiting(repeater: bool, st: State, ops: seq<Op>) {
    ops == [] ||
      (AllWaiting(repeater, st, ops[..|ops| - 1]) && Waiting(Run(repeater, st, ops[..|ops| - 1]), ops[|ops| - 1]))
  }

  lemma WaitingStep(repeater: bool, st: State, op: Op)
    requires PathInv(repeater, st) && Leaving(st) && Waiting(st, op)
    ensures var now := Step(repeater, st, op);
      Leaving(now) && now.hw == st.hw && now.sizeOverride == st.sizeOverride
  {
    hide Placed, Rotated;
  }

  lemma HandoverStarts(repeater: bool, st: State, f: Frame)
    requires PathInv(repeater, st) && !Leaving(st) && Leaving(DoUpdate(st, f, repeater))
    ensures DoUpdate(st, f, repeater).hw == st.hw && DoUpdate(st, f, repeater).sizeOverride == st.sizeOverride
    ensures st.path.useHWPath
  {
    hide Placed, Rotated;
  }

  /** From the update that starts a handover to graphics until the commit that ends it the hardware
      rectangle, and so the hole, stays where it was: also if the wish flips back meanwhile, or the
      surface moves. */
  lemma {:induction false} HoleStaysPut(repeater: bool, st: State, f: Frame, ops: seq<Op>)
    requires PathInv(repeater, st) && !Leaving(st) && Leaving(DoUpdate(st, f, repeater))
    requires AllWaiting(repeater, DoUpdate(st, f, repeater), ops)
    ensures var now := Run(repeater, DoUpdate(st, f, repeater), ops);
      Leaving(now) && now.hw == st.hw && now.sizeOverride == st.sizeOverride && Hole(now) == Hole(st)
  {
    HandoverStarts(repeater, st, f);
    if ops != [] {
      var before := ops[..|ops| - 1];
      HoleStaysPut(repeater, st, f, before);
      StepKeepsPathInv(repeater, st, Update(f));
      RunKeepsPathInv(repeater, DoUpdate(st, f, repeater), before);
      WaitingStep(repeater, Run(repeater, DoUpdate(st, f, repeater), before), ops[|before|]);
    }
    hide DoUpdate, Waiting;
  }

  /** The first picture ends it: the rectangle is still where it was, the surface is shown, graphics are
      in use, and there is no hole any more. */
  lemma PictureEndsHandover(repeater: bool, st: State, f: Frame, ops: seq<Op>, buffer: bool, signal: bool)
    requires PathInv(repeater, st) && !Leaving(st) && Leaving(DoUpdate(st, f, repeater))
    requires AllWaiting(repeater, DoUpdate(st, f, repeater), ops) && (buffer || signal)
    ensures var now := DoCommit(Run(repeater, DoUpdate(st, f, repeater), ops), buffer, signal);
      now.hw == st.hw && now.visible && now.path == Path(true, false, false, false) && Hole(now) == []
  {
    HoleStaysPut(repeater, st, f, ops);
    StepKeepsPathInv(repeater, st, Update(f));
    RunKeepsPathInv(repeater, DoUpdate(st, f, repeater), ops);
    hide DoUpdate, Run;
  }

  // ------------------------------------------------------------------ visibility

  /** Who last said whether the renderer shows the surface. */
  datatype Writer = Nobody | Handover | Request(v: bool)

  predicate EndsIn(st: State, op: Op) {
    op.Commit? && Ends(st.path, op.buffer, op.signal)
  }

  function LastWriter(repeater: bool, st: State, ops: seq<Op>): Writer {
    if ops == [] then Nobody
    else
      var before, op := ops[..|ops| - 1], ops[|ops| - 1];
      if op.SetVisible? then Request(op.v)
      else if EndsIn(Run(repeater, st, before), op) then Handover
      else LastWriter(repeater, st, before)
  }

  /** The path settled on once op has led from was to now, with path settled on before. */
  function Settle(repeater: bool, was: State, op: Op, now: State, path: bool): bool {
    if now.told != [] && (EndsIn(was, op) || (op.Update? && (was.told == [] || !repeater))) then now.told[|now.told| - 1]
    else path
  }

  /** The path in use, read off the messages: the one told last when a handover last ended; before the
      first handover has ended, the one told first, and without repeater support the one told last. */
  function Settled(repeater: bool, st: State, ops: seq<Op>): bool {
    if ops == [] then true
    else
      var before := ops[..|ops| - 1];
      Settle(repeater, Run(repeater, st, before), ops[|before|], Run(repeater, st, ops), Settled(repeater, st, before))
  }

  lemma SettledStep(repeater: bool, st: State, op: Op)
    requires PathInv(repeater, st)
    ensures var st' := Step(repeater, st, op);
      st'.path.useHWPath == Settle(repeater, st, op, st', st.path.useHWPath)
  {
    hide Placed, Rotated;
  }

  lemma SettledLast(repeater: bool, st: State, ops: seq<Op>)
    requires ops != []
    ensures var before, op := ops[..|ops| - 1], ops[|ops| - 1];
      var was := Run(repeater, st, before);
      && Run(repeater, st, ops) == Step(repeater, was, op)
      && Settled(repeater, st, ops) == Settle(repeater, was, op, Step(repeater, was, op), Settled(repeater, st, before))
  {
    hide Step, Settle;
  }

  lemma {:induction false} PathIsSettled(repeater: bool, st: State, ops: seq<Op>)
    requires st.told == [] && PathInv(repeater, st)
    ensures Run(repeater, st, ops).path.useHWPath == Settled(repeater, st, ops)
  {
    if ops == [] {
      hide Step, Settle;
    } else {
      hide *;
      var before, op := ops[..|ops| - 1], ops[|ops| - 1];
      var was := Run(repeater, st, before);
      RunKeepsPathInv(repeater, st, before);
      PathIsSettled(repeater, st, before);
      SettledStep(repeater, was, op);
      SettledLast(repeater, st, ops);
    }
  }

  predicate VisibleInv(repeater: bool, st: State, w: Writer) {
    match w
    case Nobody => !st.visible
    case Handover => st.visible == !st.path.useHWPath && repeater && st.told != []
    case Request(v) => st.visible == v
  }

  lemma VisibleStep(repeater: bool, st: State, op: Op, w: Writer)
    requires PathInv(repeater, st) && VisibleInv(repeater, st, w)
    ensures VisibleInv(repeater, Step(repeater, st, op),
                       if op.SetVisible? then Request(op.v) else if EndsIn(st, op) then Handover else w)
  {
    hide Placed, Rotated;
  }

  lemma {:induction false} VisibleAsWritten(repeater: bool, st: State, ops: seq<Op>)
    requires !st.visible && PathInv(repeater, st)
    ensures VisibleInv(repeater, Run(repeater, st, ops), LastWriter(repeater, st, ops))
  {
    if ops != [] {
      var before := ops[..|ops| - 1];
      RunKeepsPathInv(repeater, st, before);
      VisibleAsWritten(repeater, st, before);
      VisibleStep(repeater, Run(repeater, st, before), ops[|before|], LastWriter(repeater, st, before));
      hide Step, PathInv, VisibleInv, EndsIn;
    }
  }

  /** The renderer shows the surface exactly while graphics are in use if the end of a handover was the
      last to say so; otherwise, if the last request to show or hide it fits the path settled on in the
      messages; and if there was no such request either, while that path is the hardware. */
  lemma VisibleMeansGraphicsIff(repeater: bool, area: Rect, outputWidth: int, outputHeight: int, ops: seq<Op>)
    ensures var first := Start(area, outputWidth, outputHeight);
      var st, hardware := Run(repeater, first, ops), Settled(repeater, first, ops);
      (st.visible <==> !st.path.useHWPath) <==>
        match LastWriter(repeater, first, ops) {
          case Handover => true
          case Request(v) => v != hardware
          case Nobody => hardware
        }
  {
    var first := Start(area, outputWidth, outputHeight);
    VisibleAsWritten(repeater, first, ops);
    PathIsSettled(repeater, first, ops);
    hide Run, LastWriter, Settled;
  }

  // ------------------------------------------------------------------ exceptions reached

  function Still(): Frame {
    Frame(true, false, 1280, 720, 1.0, 0.0, 0.0, 1.0, 0.0, 0.0)
  }

  function Moving(): Frame {
    Still().(animating := true)
  }

  /** A video surface first shown while the scene is animated: graphics are in use, and it is hidden. */
  lemma HiddenGraphicsReached(repeater: bool, area: Rect)
    ensures var st := Run(repeater, Start(area, 1280, 720), [] + [Update(Moving())]);
      !st.path.useHWPath && !st.visible
  {
    RunPush(repeater, Start(area, 1280, 720), [], Update(Moving()));
  }

  /** Shown by request while the hardware path is in use. */
  lemma VisibleHardwareReached(repeater: bool, area: Rect)
    ensures var st := Run(repeater, Start(area, 1280, 720), [] + [Update(Still())] + [SetVisible(true)]);
      st.path.useHWPath && st.visible && st.told == [true]
  {
    var first := Start(area, 1280, 720);
    RunPush(repeater, first, [], Update(Still()));
    RunPush(repeater, first, [] + [Update(Still())], SetVisible(true));
    hide Placed, Rotated;
  }

  /** The animation ends before the first picture for the graphics has come: the handover goes on, and
      ends on graphics although the last frame wished for the hardware. */
  lemma FlippedWishReached(area: Rect)
    ensures var before := [] + [Update(Still())] + [Update(Moving())];
      var st := Run(true, Start(area, 1280, 720), before + [Update(Still())] + [Commit(true, false)]);
      Wish(Run(true, Start(area, 1280, 720), before), Still()) && st.path == Path(true, false, false, false)
      && st.told == [true, false]
  {
    var first, ops := Start(area, 1280, 720), [] + [Update(Still())];
    RunPush(true, first, [], Update(Still()));
    RunPush(true, first, ops, Update(Moving()));
    RunPush(true, first, ops + [Update(Moving())], Update(Still()));
    RunPush(true, first, ops + [Update(Moving())] + [Update(Still())], Commit(true, false));
    hide Placed, Rotated, Run;
    var s1 := DoUpdate(first, Still(), true);
    assert s1.path == Path(true, true, true, false) && s1.told == [true] && s1.bridge;
    var s2 := DoUpdate(s1, Moving(), true);
    assert s2.path == Path(true, true, false, true) && s2.told == [true, false] && s2.bridge;
    assert Run(true, first, []) == first by { NoSteps(true, first); }
    var s3 := DoUpdate(s2, Still(), true);
    assert s3.path == s2.path && s3.told == s2.told;
  }

  lemma NoSteps(repeater: bool, st: State)
    ensures Run(repeater, st, []) == st
  {
  }

  // ------------------------------------------------------------------ the rectangle

  lemma TruncSum(a: real, b: real)
    requires a >= 0.0 && b >= 0.0
    ensures (Trunc(a) + Trunc(b)) as real <= a + b
  {
  }

  lemma TruncNear(r: real)
    ensures r - 1.0 < Trunc(r) as real < r + 1.0
  {
  }

  /** The far edge of a placed surface, up to the three roundings, is on this side of the limit. */
  predicate NotBeyond(edge: int, limit: real, scale: real) {
    (scale >= 0.0 ==> edge as real < limit + 3.0) && (scale <= 0.0 ==> edge as real > limit - 3.0)
  }

  /** Three roundings, each by less than one. */
  lemma NearSum(p: int, q: int, t: int, shift: real, start: real, extent: real, end: real, scale: real)
    requires t as real + start - 1.0 < p as real < t as real + start + 1.0
    requires extent - 1.0 < q as real < extent + 1.0 && shift - 1.0 < t as real < shift + 1.0
    requires (scale >= 0.0 ==> start + extent <= end) && (scale <= 0.0 ==> start + extent >= end)
    ensures NotBeyond(p + q, shift + end, scale)
  {
    assert (p + q) as real == p as real + q as real;
  }

  lemma Near(x: int, w: int, limit: int, scale: real, shift: real)
    ensures NotBeyond(Shifted(shift, x, scale) + Scaled(Cut(x, w, limit), scale), shift + Times(limit, scale), scale)
  {
    var cut := Cut(x, w, limit);
    assert x + cut <= limit;
    hide Trunc, Cut, NotBeyond, Times;
    TruncNear(shift);
    TruncNear(Trunc(shift) as real + Times(x, scale));
    TruncNear(Times(cut, scale));
    Extent(x, cut, limit, scale);
    NearSum(Shifted(shift, x, scale), Scaled(cut, scale), Trunc(shift), shift, Times(x, scale), Times(cut, scale),
            Times(limit, scale), scale);
  }

  lemma Extent(x: int, cut: int, limit: int, scale: real)
    requires x + cut <= limit
    ensures scale >= 0.0 ==> Times(x, scale) + Times(cut, scale) <= Times(limit, scale)
    ensures scale <= 0.0 ==> Times(x, scale) + Times(cut, scale) >= Times(limit, scale)
  {
    var over := (limit - x - cut) as real;
    assert Times(limit, scale) == Times(x, scale) + Times(cut, scale) + over * scale;
  }

  lemma Inside(x: int, w: int, limit: int, scale: real, shift: real)
    requires 0 <= x <= limit && 0 <= w && scale >= 0.0 && shift >= 0.0
    ensures (Shifted(shift, x, scale) + Scaled(Cut(x, w, limit), scale)) as real <= shift + Times(limit, scale)
  {
    var cut := Cut(x, w, limit);
    assert Times(x, scale) >= 0.0 && Times(cut, scale) >= 0.0;
    assert x + cut <= limit && 0.0 <= Trunc(shift) as real <= shift;
    Extent(x, cut, limit, scale);
    TruncSum(Trunc(shift) as real + Times(x, scale), Times(cut, scale));
    hide Trunc, Cut, Times;
  }

  /** Along one axis. */
  lemma Edge(x: int, w: int, limit: int, scale: real, shift: real)
    ensures var edge := Shifted(shift, x, scale) + Scaled(Cut(x, w, limit), scale);
      && NotBeyond(edge, shift + Times(limit, scale), scale)
      && (0 <= x <= limit && 0 <= w && scale >= 0.0 && shift >= 0.0 ==> edge as real <= shift + Times(limit, scale))
  {
    Near(x, w, limit, scale, shift);
    if 0 <= x <= limit && 0 <= w && scale >= 0.0 && shift >= 0.0 {
      Inside(x, w, limit, scale, shift);
    }
    hide Shifted, Scaled, NotBeyond, Cut, Times;
  }

  /** No surface is placed further beyond the image of the output's edge than rounding makes it, to
      whichever side the matrix sends that; and not at all if it starts inside the output and the matrix
      mirrors and shifts nothing to negative coordinates. */
  lemma PlacedInsideOutput(area: Rect, f: Frame)
    ensures var p := Placed(area, f);
      && NotBeyond(p.x + p.w, f.tx + Times(f.outputWidth, f.m11), f.m11)
      && NotBeyond(p.y + p.h, f.ty + Times(f.outputHeight, f.m22), f.m22)
      && (0 <= area.x <= f.outputWidth && 0 <= area.w && f.m11 >= 0.0 && f.tx >= 0.0 ==>
            (p.x + p.w) as real <= f.tx + Times(f.outputWidth, f.m11))
      && (0 <= area.y <= f.outputHeight && 0 <= area.h && f.m22 >= 0.0 && f.ty >= 0.0 ==>
            (p.y + p.h) as real <= f.ty + Times(f.outputHeight, f.m22))
  {
    Edge(area.x, area.w, f.outputWidth, f.m11, f.tx);
    Edge(area.y, area.h, f.outputHeight, f.m22, f.ty);
    hide Shifted, Scaled, NotBeyond, Cut, Times;
  }

  // ------------------------------------------------------------------ what every step does

  /** Was the client told hardware last, or nothing yet? */
  predicate HeadsForHardware(told: seq<bool>) {
    told == [] || told[|told| - 1]
  }

  /** Does the update send a path message?  The first one does, and each whose wish is not the path in use. */
  predicate Tells(st: State, op: Op) {
    op.Update? && (st.told == [] || (op.f.noRotation && !op.f.animating && st.bridge) != st.path.useHWPath)
  }

  /** Does the commit end the way to the path told last: a picture, or the bridge's signal, that to graphics,
      a commit without picture that to hardware? */
  predicate EndsWay(st: State, op: Op) {
    op.Commit? && st.path.useHWPath != HeadsForHardware(st.told)
    && if st.path.useHWPath then op.buffer || op.signal else !op.buffer
  }

  /** The hardware rectangle may move with the surface: the way is to the hardware, and nothing is rotated. */
  predicate Follows(told: seq<bool>, f: Frame) {
    HeadsForHardware(told) && f.m12 >= 0.0 && f.m21 >= 0.0 && (f.m12 <= 0.01 || f.m21 <= 0.01)
  }

  /** What every step does, by the messages alone.  In particular an update moves the hardware rectangle to
      the image of the surface exactly if the matrix does not rotate and the client was last told hardware:
      with hardware in use or coming, and no way to graphics under way. */
  lemma StepAfter(repeater: bool, st: State, op: Op)
    requires PathInv(repeater, st)
    ensures var st' := Step(repeater, st, op);
      && st'.told == st.told + (if Tells(st, op) then [op.f.noRotation && !op.f.animating && st.bridge] else [])
      && st'.path.useHWPath == (if Tells(st, op) && (st.told == [] || !repeater) then st'.told[|st'.told| - 1]
                                else if EndsWay(st, op) then HeadsForHardware(st.told) else st.path.useHWPath)
      && st'.hw == (if op.SetGeometry? then op.r
                    else if op.Update? && Follows(st'.told, op.f) then Placed(st.area, op.f) else st.hw)
      && st'.area == (if op.SetGeometry? || op.Move? then op.r else st.area)
      && st'.visible == (if op.SetVisible? then op.v else if EndsWay(st, op) then !HeadsForHardware(st.told) else st.visible)
      && st'.bridge == (if op.BridgePath? then op.hardware else st.bridge)
      && st'.sizeOverride == (st.sizeOverride || op.SetGeometry?)
  {
    hide Placed;
    match op
    case Update(f) => UpdateAfter(repeater, st, f);
    case Commit(_, _) =>
    case _ =>
  }

  lemma UpdateAfter(repeater: bool, st: State, f: Frame)
    requires PathInv(repeater, st)
    ensures var st', op, wish := DoUpdate(st, f, repeater), Update(f), f.noRotation && !f.animating && st.bridge;
      && st' == st.(path := st'.path, told := st'.told, hw := st'.hw)
      && st'.told == st.told + (if Tells(st, op) then [wish] else [])
      && st'.path.useHWPath == (if Tells(st, op) && (st.told == [] || !repeater) then wish else st.path.useHWPath)
      && st'.hw == if Follows(st'.told, f) then Placed(st.area, f) else st.hw
  {
    hide Placed;
  }

  /** A hole is punched, for the hardware rectangle, exactly while hardware is in use or coming, once a
      geometry has been requested. */
  lemma {:induction false} HoleIff(repeater: bool, st: State, ops: seq<Op>)
    requires PathInv(repeater, st) && !st.sizeOverride
    ensures var now := Run(repeater, st, ops);
      Hole(now) ==
        if (exists i :: 0 <= i < |ops| && ops[i].SetGeometry?) && (now.path.useHWPath || HeadsForHardware(now.told))
        then [now.hw] else []
  {
    OverrideIff(repeater, st, ops);
    RunKeepsPathInv(repeater, st, ops);
    hide Run;
  }

  lemma {:induction false} OverrideIff(repeater: bool, st: State, ops: seq<Op>)
    requires PathInv(repeater, st) && !st.sizeOverride
    ensures Run(repeater, st, ops).sizeOverride <==> exists i :: 0 <= i < |ops| && ops[i].SetGeometry?
  {
    if ops != [] {
      var n := |ops| - 1;
      OverrideIff(repeater, st, ops[..n]);
      RunKeepsPathInv(repeater, st, ops[..n]);
      StepAfter(repeater, Run(repeater, st, ops[..n]), ops[n]);
      if exists i :: 0 <= i < n && ops[..n][i].SetGeometry? {
        var i :| 0 <= i < n && ops[..n][i].SetGeometry?;
        assert ops[i].SetGeometry?;
      }
      if exists i :: 0 <= i < |ops| && ops[i].SetGeometry? {
        var i :| 0 <= i < |ops| && ops[i].SetGeometry?;
        assert i < n ==> ops[..n][i].SetGeometry?;
      }
      hide Step, PathInv;
    }
  }

  /** Along one axis the image is where the matrix sends it, up to rounding, and as long as what it sends of
      the extent inside the limit. */
  lemma AxisNear(start: int, size: int, limit: int, scale: real, shift: real)
    ensures var at, extent := Shifted(shift, start, scale), Scaled(Cut(start, size, limit), scale);
      var seen := if start + size > limit then limit - start else size;
      && shift + start as real * scale - 2.0 < at as real < shift + start as real * scale + 2.0
      && seen as real * scale - 1.0 < extent as real < seen as real * scale + 1.0
  {
    TruncNear(shift);
    TruncNear(Trunc(shift) as real + Times(start, scale));
    TruncNear(Times(Cut(start, size, limit), scale));
    hide Trunc;
  }

  /** The image of a surface: where the matrix sends its corner, and as large as what it sends of the part
      inside the output. */
  lemma PlacedNear(area: Rect, f: Frame)
    ensures var p := Placed(area, f);
      var w := if area.x + area.w > f.outputWidth then f.outputWidth - area.x else area.w;
      var h := if area.y + area.h > f.outputHeight then f.outputHeight - area.y else area.h;
      && f.tx + area.x as real * f.m11 - 2.0 < p.x as real < f.tx + area.x as real * f.m11 + 2.0
      && f.ty + area.y as real * f.m22 - 2.0 < p.y as real < f.ty + area.y as real * f.m22 + 2.0
      && w as real * f.m11 - 1.0 < p.w as real < w as real * f.m11 + 1.0
      && h as real * f.m22 - 1.0 < p.h as real < h as real * f.m22 + 1.0
  {
    AxisNear(area.x, area.w, f.outputWidth, f.m11, f.tx);
    AxisNear(area.y, area.h, f.outputHeight, f.m22, f.ty);
    hide Shifted, Scaled, Cut;
  }

  /** A surface inside the output is placed at its own area when nothing is scaled or shifted. */
  lemma PlacedWhereItIs(area: Rect, f: Frame)
    requires f.m11 == 1.0 && f.m22 == 1.0 && f.tx == 0.0 && f.ty == 0.0
    requires area.x + area.w <= f.outputWidth && area.y + area.h <= f.outputHeight
    ensures Placed(area, f) == area
  {
    WholeNumber(area.x);
    WholeNumber(area.y);
    WholeNumber(area.w);
    WholeNumber(area.h);
    WholeNumber(0);
    hide Trunc;
  }

  lemma WholeNumber(v: int)
    ensures Trunc(v as real) == v
  {
  }

  /** The video of a surface moved to (100, 50) while hardware is in use is shown there, once a frame has been
      composed; before it fills the output. */
  lemma MovedVideoFollows(repeater: bool)
    ensures var first, area := Start(Rect(0, 0, 0, 0), 1280, 720), Rect(100, 50, 640, 360);
      && Run(repeater, first, [] + [Move(area)]).hw == Rect(0, 0, 1280, 720)
      && Run(repeater, first, [] + [Move(area)] + [Update(Still())]).hw == area
  {
    var first, area := Start(Rect(0, 0, 0, 0), 1280, 720), Rect(100, 50, 640, 360);
    RunPush(repeater, first, [], Move(area));
    RunPush(repeater, first, [] + [Move(area)], Update(Still()));
    PlacedWhereItIs(area, Still());
    hide Placed;
  }

  // ------------------------------------------------------------------ the surface and the list

  class VpcSurface {
    const compositor: int
    var videoPathSet: bool
    var useHWPath: bool
    var useHWPathNext: bool
    var pathTransitionPending: bool
    var hw: Rect
    var area: Rect
    var sizeOverride: bool
    var useHWPathVpcBridge: bool
    var visible: bool
    var sent: seq<bool>

    function View(): State
      reads this
    {
      State(Path(videoPathSet, useHWPath, useHWPathNext, pathTransitionPending), sent, visible, hw, area,
            sizeOverride, useHWPathVpcBridge)
    }

    /** wstIVpcGetVpcSurface */
    constructor (compositor: int, area: Rect, outputWidth: int, outputHeight: int)
      ensures View() == Start(area, outputWidth, outputHeight) && this.compositor == compositor
    {
      this.compositor := compositor;
      videoPathSet, useHWPath, useHWPathNext, pathTransitionPending := false, true, true, false;
      hw, this.area, sizeOverride := Rect(0, 0, outputWidth, outputHeight), area, false;
      useHWPathVpcBridge, visible, sent := true, false, [];
    }

    /** The choice of the path for a frame. */
    method ChoosePath(useHWPathEffective: bool, repeater: bool)
      modifies this`useHWPath, this`useHWPathNext, this`pathTransitionPending, this`videoPathSet, this`sent
      ensures var (p, more) := NextPath(old(View()).path, useHWPathEffective, repeater);
        View().path == p && sent == old(sent) + more
    {
      if !videoPathSet || useHWPathEffective != useHWPath {
        useHWPathNext := useHWPathEffective;
        if videoPathSet && repeater {
          pathTransitionPending := true;
        } else {
          useHWPath := useHWPathEffective;
        }
        sent := sent + [useHWPathEffective];
        videoPathSet := true;
      }
    }

    /** The hardware rectangle for a frame. */
    method Place(f: Frame)
      modifies this`hw
      ensures hw == Placed(area, f)
    {
      var vx, vy, vw, vh := area.x, area.y, area.w, area.h;
      if vx + vw > f.outputWidth {
        vw := f.outputWidth - vx;
      }
      if vy + vh > f.outputHeight {
        vh := f.outputHeight - vy;
      }
      hide Shifted, Scaled;
      hw := Rect(Shifted(f.tx, vx, f.m11), Shifted(f.ty, vy, f.m22), Scaled(vw, f.m11), Scaled(vh, f.m22));
    }

    /** The part of an update that places the hardware rectangle and punches the hole. */
    method ShowHardware(f: Frame) returns (rects: seq<Rect>)
      requires useHWPath || useHWPathNext
      modifies this`hw
      ensures hw == if MayMove(View().path, f) then Placed(area, f) else old(hw)
      ensures rects == Hole(View())
    {
      hide Placed, Rotated;
      if !Rotated(f) && (!pathTransitionPending || useHWPathNext) {
        Place(f);
      }
      rects := [];
      if sizeOverride {
        rects := [hw];
      }
    }

    /** The body of the loop of wstUpdateVPCSurfaces. */
    method Update(f: Frame, repeater: bool) returns (rects: seq<Rect>)
      modifies this
      ensures View() == DoUpdate(old(View()), f, repeater)
      ensures rects == Hole(View())
    {
      hide NextPath, Placed, Rotated;
      ChoosePath(f.noRotation && !f.animating && useHWPathVpcBridge, repeater);
      rects := [];
      if useHWPath || useHWPathNext {
        rects := ShowHardware(f);
      }
    }

    /** The part of wstISurfaceCommit that ends a handover. */
    method Committed(buffer: bool, signal: bool)
      modifies this
      ensures View() == DoCommit(old(View()), buffer, signal)
    {
      if pathTransitionPending {
        if ((buffer || signal) && !useHWPathNext) || (!buffer && useHWPathNext) {
          useHWPath := useHWPathNext;
          pathTransitionPending := false;
          visible := !useHWPath;
        }
      }
    }

    /** simpleShellSetVisible, or whoever else shows or hides the renderer surface. */
    method SetVisible(v: bool)
      modifies this`visible
      ensures View() == Step(true, old(View()), Op.SetVisible(v))
    {
      visible := v;
    }

    /** wstIVpcSurfaceSetGeometry */
    method SetGeometry(r: Rect)
      modifies this
      ensures View() == Step(true, old(View()), Op.SetGeometry(r))
    {
      sizeOverride := true;
      hw := r;
      area := r;
    }
  }

  /** The holes of the surfaces of one compositor, in list order. */
  function Holes(list: seq<VpcSurface>, wctx: int): seq<Rect>
    reads list
  {
    if list == [] then []
    else
      var s := list[|list| - 1];
      Holes(list[..|list| - 1], wctx) + if s.compositor == wctx then Hole(s.View()) else []
  }

  function Updated(st: State, mine: bool, f: Frame, repeater: bool): State {
    if mine then DoUpdate(st, f, repeater) else st
  }

  lemma HolesPush(list: seq<VpcSurface>, i: nat, wctx: int)
    requires i < |list|
    ensures Holes(list[..i + 1], wctx) == Holes(list[..i], wctx) + if list[i].compositor == wctx then Hole(list[i].View()) else []
  {
    assert list[..i + 1][..i] == list[..i];
    hide Hole;
  }

  lemma NoHolesYet(list: seq<VpcSurface>, wctx: int)
    ensures Holes(list[..0], wctx) == []
  {
  }

  /** One turn of the loop of wstUpdateVPCSurfaces. */
  method UpdateOne(s: VpcSurface, wctx: int, f: Frame, repeater: bool) returns (rects: seq<Rect>)
    modifies s
    ensures s.View() == Updated(old(s.View()), s.compositor == wctx, f, repeater)
    ensures rects == if s.compositor == wctx then Hole(s.View()) else []
  {
    rects := [];
    if s.compositor == wctx {
      rects := s.Update(f, repeater);
    }
  }

  /** wstUpdateVPCSurfaces: each surface of the compositor makes one update step, the others none, and
      the holes to punch are those of its surfaces, in order. */
  method UpdateVPCSurfaces(vpcSurfaces: seq<VpcSurface>, wctx: int, f: Frame, repeater: bool) returns (rects: seq<Rect>)
    requires forall i, j :: 0 <= i < j < |vpcSurfaces| ==> vpcSurfaces[i] != vpcSurfaces[j]
    modifies vpcSurfaces
    ensures forall i :: 0 <= i < |vpcSurfaces| ==>
      vpcSurfaces[i].View() == Updated(old(vpcSurfaces[i].View()), vpcSurfaces[i].compositor == wctx, f, repeater)
    ensures rects == Holes(vpcSurfaces, wctx)
  {
    rects := [];
    ghost var list := vpcSurfaces;
    NoHolesYet(list, wctx);
    hide *;
    for i := 0 to |vpcSurfaces|
      invariant forall j :: 0 <= j < i ==>
        list[j].View() == Updated(old(list[j].View()), list[j].compositor == wctx, f, repeater)
      invariant forall j :: i <= j < |list| ==> list[j].View() == old(list[j].View())
      invariant rects == Holes(list[..i], wctx)
    {
      assert list[i] !in list[..i];
      var more := UpdateOne(vpcSurfaces[i], wctx, f, repeater);
      rects := rects + more;
      HolesPush(list, i, wctx);
    }
    assert list[..|list|] == list;
  }
}
