/**
 * What events reach whom: motion and button events go to every pointer object inside the focused
 * surface, once; the cursor follows; a new pointer object does not always enter the surface it is
 * over; and a surface can get the focus while the pointer is out.
 */
module SeatDelivery {
  import opened Seqs
  import opened ZLists
  import opened HitTest
  import opened Devices
  import opened Seat
  import opened SeatSafety
  import opened SeatFrames

  /** The pointer objects that have entered a surface. */
  function Inside(st: State): map<Resource, SurfaceId> {
    Observe(Pointer, st.log).inside
  }

  /** With a focus, the focus list is exactly those inside it, without repetition. */
  lemma FocusListIsInside(st: State)
    requires Inv(st) && st.ptr.focus.Some?
    ensures Distinct(st.ptr.focused)
    ensures forall r :: r in st.ptr.focused <==> r in Inside(st) && Inside(st)[r] == st.ptr.focus.value
  {
    DistinctConcat(st.ptr.focused, st.ptr.idle);
    hide World, KeyboardInv, Observe;
  }

  lemma LastEach(log: seq<Msg>, list: seq<Resource>, m: Resource -> Msg)
    ensures (log + Each(list, m))[|log|..] == Each(list, m)
  {
  }

  /** After a move the pointer is in focus where it is, and the last thing sent is one motion to each
      object inside the focused surface. */
  lemma MotionDelivered(st: State, x: int, y: int)
    requires Inv(st)
    ensures var st' := DoPointerMove(st, x, y);
      st'.ptr.focus.Some? ==>
        && |st.log| + |st'.ptr.focused| <= |st'.log|
        && st'.log[|st'.log| - |st'.ptr.focused|..] == Each(st'.ptr.focused, Moving())
        && Distinct(st'.ptr.focused)
        && (forall r :: r in st'.ptr.focused <==> r in Inside(st') && Inside(st')[r] == st'.ptr.focus.value)
  {
    var st', st0 := DoPointerMove(st, x, y), st.(at := st.at.(px := x, py := y));
    PointerMoveOk(st, x, y);
    MoveToOk(st, x, y);
    PCheckFocusInv(st0);
    var st1 := PCheckFocus(st0);
    assert st.log <= st1.log;
    LastEach(st1.log, st1.ptr.focused, Moving());
    hide Inv, PCheckFocus, Each, Inside, OnlyPointer;
    if st'.ptr.focus.Some? {
      assert st'.ptr == st1.ptr && st'.log == st1.log + Each(st1.ptr.focused, Moving());
      FocusListIsInside(st');
    }
  }

  /** A button event sends one button to each object inside the focused surface, before anything else;
      a release sends nothing more. */
  lemma ButtonDelivered(st: State, pressed: bool)
    requires Inv(st) && st.ptr.focus.Some?
    ensures var st', n := DoPointerButton(st, pressed), |st.log| + |st.ptr.focused|;
      && n <= |st'.log| && st'.log[..n] == st.log + Each(st.ptr.focused, Pressing())
      && (!pressed ==> |st'.log| == n && st'.kbd == st.kbd)
    ensures Distinct(st.ptr.focused)
    ensures forall r :: r in st.ptr.focused <==> r in Inside(st) && Inside(st)[r] == st.ptr.focus.value
  {
    var s, st1 := st.ptr.focus.value, st.(log := st.log + Each(st.ptr.focused, Pressing()));
    FocusListIsInside(st);
    KSetFocusGrows(st1, s);
    hide Inv, KSetFocus, Inside;
  }

  lemma KSetFocusGrows(st: State, s: SurfaceId)
    ensures st.log <= KSetFocus(st, s).log
  {
    hide HasClient, Give, Each;
  }

  /** A press moves the keyboard focus to the pointer's, unless the client there has no keyboard while
      those of another one are listening. */
  lemma PressTakesKeyboardIff(st: State)
    requires st.ptr.focus.Some?
    ensures var c := st.ClientOf(st.ptr.focus.value);
      DoPointerButton(st, true).kbd.focus == st.ptr.focus <==>
        || st.kbd.focus == st.ptr.focus
        || HasClient(st.kbd.All(), st.clientOf, c)
        || st.kbd.focused == []
  {
    var s, st1 := st.ptr.focus.value, st.(log := st.log + Each(st.ptr.focused, Pressing()));
    HasEither(st.kbd, st.clientOf, st.ClientOf(s));
    GiveFocus(st1, s);
    hide Each, HasClient, Give, GiveLog;
  }

  lemma GiveFocus(st: State, s: SurfaceId)
    ensures Give(st.kbd, s, st.clientOf, st.ClientOf(s)).focus == Some(s)
  {
  }

  lemma HasEither(d: Device, clientOf: map<Resource, Client>, c: Client)
    ensures HasClient(d.All(), clientOf, c) <==> HasClient(d.focused, clientOf, c) || HasClient(d.idle, clientOf, c)
  {
    if HasClient(d.focused, clientOf, c) {
      var r :| r in d.focused && IsOf(clientOf, Some(c), r);
      assert r in d.All();
    }
    if HasClient(d.idle, clientOf, c) {
      var r :| r in d.idle && IsOf(clientOf, Some(c), r);
      assert r in d.All();
    }
  }

  /** A new pointer object enters a surface at once exactly if the pointer has come in and the surface
      under it is of the object's client and not in focus yet: over a surface that has the focus
      already, the object is told nothing. */
  lemma NewPointerEntersIff(st: State, c: Client)
    requires Inv(st)
    ensures var target := Wanted(st.scene, MASTER, st.at.px, st.at.py);
      st.nextRes in Inside(DoGetPointer(st, c)) <==>
        st.at.entered && target.Some? && target != st.ptr.focus && st.ClientOf(target.value) == c
  {
    var r, st1 := st.nextRes, AddPointer(st, c);
    AddPointerOk(st, c);
    NewIsIdle(st, c);
    if st.at.entered {
      PCheckFocusInv(st1);
      FoundLive(st1);
      var target := Found(st1.scene, MASTER, st1.at.px, st1.at.py);
      if target.Some? && target != st1.ptr.focus {
        var s := target.value;
        EnteredIff(st1, s, r);
      } else if target.None? && st1.ptr.focus.Some? {
        NobodyInside(PCheckFocus(st1));
      }
    }
  }

  lemma NewIsIdle(st: State, c: Client)
    requires Inv(st)
    ensures st.nextRes !in Inside(AddPointer(st, c)) && st.nextRes in AddPointer(st, c).ptr.idle
  {
    Append(Pointer, st.log, Bind(Pointer, st.nextRes, c));
    assert st.nextRes !in st.ptr.All();
    hide World, KeyboardInv, Observe, Safe;
    assert st.nextRes !in Inside(st);
  }

  lemma EnteredIff(st: State, s: SurfaceId, r: Resource)
    requires Inv(st) && st.Live(s) && st.ptr.focus != Some(s) && r in st.ptr.All() && r in st.clientOf
    ensures r in Inside(PSetFocus(st, Some(s))) <==> st.clientOf[r] == st.ClientOf(s)
  {
    GiveKeeps(Pointer, st.log, st.ptr, EnvOf(st), s);
    hide World, KeyboardInv, Observe, Safe, Give, GiveLog;
  }

  lemma NobodyInside(st: State)
    requires Inv(st) && st.ptr.focus.None?
    ensures forall r :: r !in Inside(st)
  {
    hide World, KeyboardInv, Observe, Safe;
  }

  /** While a cursor surface follows the pointer, its hot spot is where the pointer is, and its size is
      left alone. */
  lemma CursorFollowsPointer(st: State, x: int, y: int)
    requires Inv(st)
    ensures var st' := DoPointerMove(st, x, y);
      st'.cursor.Some? && (st'.ptr.focus.Some? || st'.at.ownCursor) ==>
        var area := st'.scene.Of(st'.cursor.value).area;
        && area.x + st'.at.hotX == x && area.y + st'.at.hotY == y
        && st'.cursor == st.cursor
        && area.w == st.scene.Of(st.cursor.value).area.w && area.h == st.scene.Of(st.cursor.value).area.h
  {
    var st0 := st.(at := st.at.(px := x, py := y));
    MoveToOk(st, x, y);
    PCheckFocusInv(st0);
    hide PCheckFocus, Inv, Each;
  }

  // ------------------------------------------------------------------ a focus while the pointer is out

  /** No surface is in focus while the pointer is out. */
  predicate OutMeansNoFocus(st: State) {
    st.at.entered || st.ptr.focus.None?
  }

  /** What makes the compositor look for a focus whether the pointer is in or not, and find one. */
  predicate FindsFocus(st: State, op: Op) {
    match op
    case PointerMove(x, y) => Wanted(st.scene, MASTER, x, y).Some?
    case DestroySurface(s, _) => st.Live(s) && Wanted(Unlink(st, s).scene, MASTER, st.at.px, st.at.py).Some?
    case _ => false
  }

  /** Exactly the moves and destructions that find a surface give a focus while the pointer is out. */
  lemma OutMeansNoFocusIff(st: State, op: Op)
    requires Inv(st) && !st.stuck && OutMeansNoFocus(st)
    ensures OutMeansNoFocus(Step(st, op)) <==> st.at.entered || !FindsFocus(st, op)
  {
    hide Inv, Wanted, DoPointerMove, DoDestroySurface, DoPointerOut, DoCreateSurface, DoGetKeyboard, DoPointerButton, PCheckFocus,
      KCheckFocus, KSetFocus, DoSetCursor, Put;
    match op
    case PointerMove(x, y) => MoveFinds(st, x, y);
    case DestroySurface(s, byRequest) =>
      if st.Live(s) {
        DestroyFinds(st, s, byRequest);
      }
    case GetPointer(c) => CheckFocusOnly(AddPointer(st, c));
    case PointerIn(x, y) => CheckFocusOnly(st.(at := st.at.(entered := true, px := x, py := y)));
    case PointerOut => OutBlurs(st);
    case ReleasePointer(_) =>
    case _ => PointerUntouchedBy(st, op);
  }

  lemma MoveFinds(st: State, x: int, y: int)
    requires Inv(st)
    ensures var st' := DoPointerMove(st, x, y);
      st'.at.entered == st.at.entered && st'.ptr.focus == Wanted(st.scene, MASTER, x, y)
  {
    var st0 := st.(at := st.at.(px := x, py := y));
    MoveToOk(st, x, y);
    PCheckFocusInv(st0);
    CheckFocusOnly(st0);
    hide PCheckFocus, Each, Inv;
  }

  lemma DestroyFinds(st: State, s: SurfaceId, byRequest: bool)
    requires Inv(st) && st.Live(s)
    ensures var st' := DoDestroySurface(st, s, byRequest);
      && st'.at.entered == st.at.entered
      && st'.ptr.focus == Wanted(Unlink(st, s).scene, MASTER, st.at.px, st.at.py)
  {
    var st1 := Unlink(st, s);
    UnlinkOk(st, s);
    PCheckFocusInv(st1);
    CheckFocusOnly(st1);
    hide PCheckFocus, Inv, Wanted, World, PointerInv, KeyboardInv;
  }

  lemma OutBlurs(st: State)
    requires OutMeansNoFocus(st)
    ensures OutMeansNoFocus(Step(st, PointerOut))
  {
  }
}
