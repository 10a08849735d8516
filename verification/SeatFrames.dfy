/**
 * How much of the state each part of a request can change: the frames of the functions of Seat.dfy.
 */
module SeatFrames {
  import opened Seqs
  import opened ZLists
  import opened HitTest
  import opened Devices
  import opened Seat
  import opened SeatSafety

  ghost predicate KeyboardOnly(st: State, st': State) {
    st' == st.(kbd := st'.kbd, log := st'.log, stuck := st'.stuck)
  }

  ghost predicate FocusOnly(st: State, st': State) {
    st' == st.(ptr := st'.ptr, cursor := st'.cursor, log := st'.log)
  }

  lemma KSetFocusOnly(st: State, s: SurfaceId)
    ensures KeyboardOnly(st, KSetFocus(st, s))
  {
    hide Give, GiveLog, HasClient;
  }

  lemma KCheckFocusOnly(st: State, s: SurfaceId)
    ensures KeyboardOnly(st, KCheckFocus(st, s))
  {
    KSetFocusOnly(st, s);
    KSetFocusOnly(st.(kbd := MoveFocus(st.kbd, st.clientOf, None)), s);
    hide KSetFocus, MoveFocus, HasClient, ScanEnds;
  }

  lemma WelcomeOnly(st: State, r: Resource, c: Client, hadFocus: bool)
    ensures KeyboardOnly(st, KAdopt(KWelcome(st, r, c, hadFocus)))
  {
    hide KSetFocus, MoveFocus;
    if c in st.known.latest {
      KSetFocusOnly(st, st.known.latest[c]);
    }
  }

  lemma CheckFocusOnly(st: State)
    ensures FocusOnly(st, PCheckFocus(st))
  {
    hide Found, Give, GiveLog, BlurLog;
  }

  lemma SetNoFocusOnly(st: State)
    ensures FocusOnly(st, PSetFocus(st, None))
  {
    hide Give, GiveLog, BlurLog;
  }

  lemma InvParts(st: State)
    requires Inv(st)
    ensures World(st) && PointerInv(st) && KeyboardInv(st)
  {
  }

  lemma FocusIsLive(st: State)
    requires Inv(st)
    ensures st.ptr.focus.Some? ==> st.Live(st.ptr.focus.value)
    ensures st.kbd.focus.Some? ==> st.Live(st.kbd.focus.value)
    ensures st.cursor.Some? ==> st.Live(st.cursor.value)
    ensures Distinct(st.ptr.All()) && Distinct(st.kbd.All())
    ensures Distinct(st.ptr.focused) && Distinct(st.kbd.focused)
  {
    hide Observe, Exact, OneClient;
    DistinctConcat(st.ptr.focused, st.ptr.idle);
    DistinctConcat(st.kbd.focused, st.kbd.idle);
  }

  /** A state that differs in nothing but areas, where the cursor is, and the messages. */
  ghost predicate SameButAreas(st: State, st': State) {
    && st'.ptr == st.ptr && st'.kbd == st.kbd && st'.clientOf == st.clientOf && st'.cursor == st.cursor && st'.at == st.at
    && st'.nextRes == st.nextRes && st'.known == st.known && st'.nextSurface == st.nextSurface
    && st'.scene.list == st.scene.list
    && (forall s :: st'.Live(s) <==> st.Live(s))
    && (forall s :: st.Live(s) ==> st'.scene.info[s] == st.scene.info[s].(area := st'.scene.info[s].area))
  }

  /** Where a surface of that size is with its hot spot at the pointer. */
  function AtPointer(at: At, area: Rect): Rect {
    Rect(at.px - at.hotX, at.py - at.hotY, area.w, area.h)
  }

  lemma PlaceCursorSame(st: State)
    requires st.cursor.Some? ==> st.Live(st.cursor.value)
    ensures SameButAreas(st, PlaceCursor(st)) && PlaceCursor(st).log == st.log
    ensures forall s :: st.Live(s) ==>
      var area := st.scene.Of(s).area;
      PlaceCursor(st).scene.Of(s).area == if st.cursor == Some(s) then AtPointer(st.at, area) else area
  {
  }

  /** The state in which a move looks for the focus, and the one it finds. */
  function MovedTo(st: State, x: int, y: int): State {
    st.(at := st.at.(px := x, py := y))
  }

  /** The state in which a move has sent its motions. */
  function Moved(st: State): State {
    if st.ptr.focus.Some? then st.(log := st.log + Each(st.ptr.focused, Moving())) else st
  }

  lemma MoveParts(st: State, x: int, y: int)
    requires Inv(st)
    ensures var st0 := MovedTo(st, x, y);
      var st1 := PCheckFocus(st0);
      var placed := st1.ptr.focus.Some? || st1.at.ownCursor;
      && Inv(st0) && Inv(st1) && FocusOnly(st0, st1)
      && st1.ptr.focus == Wanted(st.scene, MASTER, x, y)
      && DoPointerMove(st, x, y) == if placed then PlaceCursor(Moved(st1)) else Moved(st1)
  {
    var st0 := MovedTo(st, x, y);
    MoveToOk(st, x, y);
    PCheckFocusInv(st0);
    CheckFocusOnly(st0);
    hide PCheckFocus, Each, Inv, PlaceCursor;
  }

  lemma MoveSame(st: State, x: int, y: int)
    requires Inv(st)
    ensures var st1, st' := PCheckFocus(MovedTo(st, x, y)), DoPointerMove(st, x, y);
      SameButAreas(st1, st') && st'.log == Moved(st1).log
  {
    var st1 := PCheckFocus(MovedTo(st, x, y));
    MoveParts(st, x, y);
    FocusIsLive(st1);
    PlaceCursorSame(Moved(st1));
    SameAreas(Moved(st1));
    assert Moved(st1) == st1.(log := Moved(st1).log) by { hide Each, PCheckFocus; }
    OnlyLog(st1, Moved(st1), DoPointerMove(st, x, y));
    hide *;
  }

  lemma SameAreas(st: State)
    ensures SameButAreas(st, st)
  {
  }

  lemma OnlyLog(st1: State, st2: State, st': State)
    requires st2 == st1.(log := st2.log) && SameButAreas(st2, st')
    ensures SameButAreas(st1, st')
  {
  }

  lemma MoveArea(st: State, x: int, y: int, s: SurfaceId)
    requires Inv(st) && st.Live(s)
    ensures var st', area := DoPointerMove(st, x, y), st.scene.Of(s).area;
      st'.scene.Of(s).area ==
        if st'.cursor == Some(s) && (st'.ptr.focus.Some? || st'.at.ownCursor) then AtPointer(st'.at, area) else area
  {
    var st1 := PCheckFocus(MovedTo(st, x, y));
    MoveParts(st, x, y);
    MoveSame(st, x, y);
    FocusIsLive(st1);
    PlaceCursorSame(Moved(st1));
    assert Moved(st1) == st1.(log := Moved(st1).log) by { hide Each, PCheckFocus; }
    hide PCheckFocus, DoPointerMove, Moved, Inv, PlaceCursor, AtPointer;
  }

  /** Nothing of the pointer's changes. */
  ghost predicate PtrSame(st: State, st': State) {
    st'.ptr == st.ptr && st'.at.entered == st.at.entered && st'.at.px == st.at.px && st'.at.py == st.at.py
  }

  predicate MovesFocus(op: Op) {
    op.PointerMove? || op.DestroySurface? || op.GetPointer? || op.PointerIn? || op.PointerOut?
  }

  lemma PointerUntouchedBy(st: State, op: Op)
    requires !MovesFocus(op) && !op.ReleasePointer?
    ensures PtrSame(st, Step(st, op))
  {
    hide Put, KCheckFocus, KSetFocus, KWelcome, KAdopt, Each, MoveFocus;
    if !st.stuck {
      match op
      case CreateSurface(c) => KCheckFocusOnly(AddSurface(st, c), st.nextSurface);
      case XdgRole(s) => KCheckFocusOnly(SetRole(st, s, XdgSurface), s);
      case GetKeyboard(c) => WelcomeOnly(AddKeyboard(st, c), st.nextRes, c, HoldsKeyboard(st, c));
      case PointerButton(_) =>
        if st.ptr.focus.Some? {
          KSetFocusOnly(st.(log := st.log + Each(st.ptr.focused, Pressing())), st.ptr.focus.value);
        }
      case FocusRequest(s) => KSetFocusOnly(st, s);
      case _ =>
    }
  }
}
