/**
 * What each request and event comes to for the pointer: where it is, which surface has its focus, who is
 * inside that, and what is sent to whom, how often.  SeatSafety.dfy says what never goes wrong; this
 * module says what does happen.
 */
module PointerOutcomes {
  import opened Seqs
  import opened ZLists
  import opened HitTest
  import opened Devices
  import opened Seat
  import opened SeatSafety
  import opened SeatFrames
  import opened SurfaceOutcomes
  import opened SeatMessages
  import opened SeatDelivery

  // ------------------------------------------------------------------ where it is, and its focus

  /** Where the pointer is after a step, and whether it is in. */
  lemma PositionAfter(st: State, op: Op)
    requires !st.stuck
    ensures var at, at' := st.at, Step(st, op).at;
      match op
      case PointerMove(x, y) => at'.px == x && at'.py == y && at'.entered == at.entered
      case PointerIn(x, y) =>
        at'.entered && if st.cfg.nested then at'.px == x && at'.py == y else at'.px == at.px && at'.py == at.py
      case PointerOut =>
        if at.ownCursor then at' == at else !at'.entered && at'.px == at'.py == 0
      case _ => at'.entered == at.entered && at'.px == at.px && at'.py == at.py
  {
    hide Found, PSetFocus, Put, PCheckFocus;
    match op
    case PointerMove(x, y) =>
      CheckFocusOnly(st.(at := st.at.(px := x, py := y)));
      hide Each;
    case PointerIn(x, y) => CheckFocusOnly(st.(at := st.at.(entered := true, px := x, py := y)));
    case PointerOut => SetNoFocusOnly(st);
    case GetPointer(c) => CheckFocusOnly(AddPointer(st, c));
    case DestroySurface(s, byRequest) =>
      if st.Live(s) {
        CheckFocusOnly(Unlink(st, s));
      }
    case ReleasePointer(_) => hide Forget;
    case _ => PointerUntouchedBy(st, op);
  }

  /** Does the step look for the surface under the pointer? */
  predicate Looks(st: State, op: Op) {
    match op
    case PointerMove(_, _) => true
    case DestroySurface(s, _) => st.Live(s)
    case GetPointer(_) => st.at.entered
    case PointerIn(_, _) => st.cfg.nested
    case _ => false
  }

  lemma ComesIn(st: State, x: int, y: int)
    requires Inv(st)
    ensures var st1 := st.(at := st.at.(entered := true, px := x, py := y));
      Inv(st1) && PCheckFocus(st1).at == st1.at && PCheckFocus(st1).scene == st1.scene
      && PCheckFocus(st1).ptr.focus == Wanted(st1.scene, MASTER, x, y)
  {
    var st1 := st.(at := st.at.(entered := true, px := x, py := y));
    CheckFocusOnly(st1);
    CheckFocusOnly(st1);
    FieldsOk(st, st1);
    hide World, PointerInv, KeyboardInv, KeyboardExact, PCheckFocus;
    PCheckFocusInv(st1);
  }

  /** Where the pointer focus is after a step: under the pointer, if the step looks for it; nowhere, if
      the pointer goes out and the cursor is not the compositor's own; else where it was. */
  lemma PointerFocusAfter(st: State, op: Op)
    requires Inv(st) && !st.stuck
    ensures var st' := Step(st, op);
      st'.ptr.focus ==
        if Looks(st, op) then Wanted(st'.scene, MASTER, st'.at.px, st'.at.py)
        else if op.PointerOut? && !st.at.ownCursor then None
        else st.ptr.focus
  {
    hide Wanted, Found, PSetFocus, Put, PCheckFocus, World, PointerInv, KeyboardInv, KeyboardExact;
    match op
    case PointerMove(x, y) =>
      PointerMoveOk(st, x, y);
      hide DoPointerMove;
    case PointerIn(x, y) => ComesIn(st, x, y);
    case PointerOut => PSetFocusSends(st, None);
    case GetPointer(c) =>
      var st1 := AddPointer(st, c);
      AddPointerOk(st, c);
      PCheckFocusInv(st1);
      CheckFocusOnly(st1);
      CheckFocusOnly(st1);
    case DestroySurface(s, byRequest) =>
      if st.Live(s) {
        DestroySurfaceOk(st, s, byRequest);
        hide DoDestroySurface;
      }
    case ReleasePointer(_) =>
    case _ => PointerUntouchedBy(st, op);
  }

  // ------------------------------------------------------------------ who is inside

  /** A kept focus keeps its listeners, as far as they still exist; a new one has all of its client's. */
  ghost predicate PtrLists(st: State, st': State) {
    && (st'.ptr.focus == st.ptr.focus ==>
          forall r :: r in st'.ptr.focused <==> r in st.ptr.focused && r in st'.ptr.All())
    && (st'.ptr.focus != st.ptr.focus && st'.ptr.focus.Some? ==>
          forall r :: r in st'.ptr.focused <==>
            r in st'.ptr.All() && IsOf(st'.clientOf, Some(st'.ClientOf(st'.ptr.focus.value)), r))
  }

  lemma SetFocusLists(st: State, target: Ref)
    requires Distinct(st.ptr.All())
    ensures PtrLists(st, PSetFocus(st, target)) && PSetFocus(st, target).ptr.focus == target
  {
    if target.Some? {
      MoveFocusPartitions(st.ptr.(focus := target), st.clientOf, Some(st.ClientOf(target.value)));
    }
    hide MoveFocus, GiveLog, BlurLog;
  }

  lemma CheckFocusLists(st: State)
    requires Inv(st)
    ensures PtrLists(st, PCheckFocus(st))
  {
    FocusIsLive(st);
    hide Inv, Found, PSetFocus, PtrLists;
    SetFocusLists(st, Found(st.scene, MASTER, st.at.px, st.at.py));
  }

  lemma ListsKept(st: State, st1: State, st': State)
    requires PtrLists(st, st1) && SameButAreas(st1, st') && (st1.ptr.focus.Some? ==> st1.Live(st1.ptr.focus.value))
    ensures PtrLists(st, st')
  {
  }

  lemma FromMoved(st: State, st0: State, st': State)
    requires st0.ptr.focused == st.ptr.focused && PtrLists(st0, st')
    requires st0.ptr.focus == st.ptr.focus || (st0.ptr.focus.None? && st'.ptr.focus != st.ptr.focus)
    ensures PtrLists(st, st')
  {
  }

  lemma MoveLists(st: State, x: int, y: int)
    requires Inv(st)
    ensures PtrLists(st, DoPointerMove(st, x, y))
  {
    MoveParts(st, x, y);
    CheckFocusLists(MovedTo(st, x, y));
    FocusIsLive(PCheckFocus(MovedTo(st, x, y)));
    hide PCheckFocus, Each, DoPointerMove, Inv, PtrLists, SameButAreas;
    assert PtrLists(st, PCheckFocus(MovedTo(st, x, y))) by { FromMoved(st, MovedTo(st, x, y), PCheckFocus(MovedTo(st, x, y))); }
    ListsKept(st, PCheckFocus(MovedTo(st, x, y)), DoPointerMove(st, x, y));
  }

  lemma GetPointerLists(st: State, c: Client)
    requires Inv(st)
    ensures PtrLists(st, DoGetPointer(st, c))
  {
    var st1 := AddPointer(st, c);
    AddPointerOk(st, c);
    SameLists(st1, st1);
    CheckFocusLists(st1);
    hide PCheckFocus, Inv, PtrLists;
    FromMoved(st, st1, DoGetPointer(st, c));
  }

  lemma DestroyParts(st: State, s: SurfaceId, byRequest: bool)
    requires Inv(st) && st.Live(s)
    ensures var st2, st' := PCheckFocus(Unlink(st, s)), DoDestroySurface(st, s, byRequest);
      && st2.ptr.focus != Some(s)
      && st'.ptr == st2.ptr && st'.clientOf == st2.clientOf && st'.scene == st2.scene
  {
    var st1 := Unlink(st, s);
    UnlinkOk(st, s);
    InvParts(st1);
    PCheckFocusInv(st1);
    CheckFocusOnly(st1);
    FocusIsLive(PCheckFocus(st1));
    hide PCheckFocus, Inv, World, PointerInv, KeyboardInv;
  }

  lemma DestroyLists(st: State, s: SurfaceId, byRequest: bool)
    requires Inv(st) && st.Live(s)
    ensures PtrLists(st, DoDestroySurface(st, s, byRequest))
  {
    var st1 := Unlink(st, s);
    var st2, st' := PCheckFocus(st1), DoDestroySurface(st, s, byRequest);
    UnlinkOk(st, s);
    CheckFocusLists(st1);
    DestroyParts(st, s, byRequest);
    hide PCheckFocus, Inv, DoDestroySurface, PtrLists, Change;
    FromMoved(st, st1, st2);
    OutLists(st, st2, st');
  }

  lemma OutLists(st: State, st1: State, st': State)
    requires PtrLists(st, st1) && st'.ptr == st1.ptr && st'.clientOf == st1.clientOf && st'.scene == st1.scene
    ensures PtrLists(st, st')
  {
  }

  lemma ReleaseLists(st: State, r: Resource)
    requires Inv(st) && !st.stuck
    ensures PtrLists(st, Step(st, ReleasePointer(r)))
  {
    FocusIsLive(st);
    ForgetPartitions(st.ptr, r);
    hide Forget, Inv;
  }

  lemma SameLists(st: State, st': State)
    requires st'.ptr == st.ptr
    ensures PtrLists(st, st')
  {
  }

  lemma PointerLists(st: State, op: Op)
    requires Inv(st) && !st.stuck
    ensures PtrLists(st, Step(st, op))
  {
    hide Inv, PtrLists, PCheckFocus, PSetFocus;
    match op
    case PointerMove(x, y) =>
      MoveLists(st, x, y);
      hide DoPointerMove;
    case GetPointer(c) =>
      GetPointerLists(st, c);
      hide DoGetPointer;
    case DestroySurface(s, byRequest) =>
      SameLists(st, st);
      if st.Live(s) {
        DestroyLists(st, s, byRequest);
      }
      hide DoDestroySurface;
    case PointerIn(x, y) =>
      var st1 := st.(at := st.at.(entered := true, px := x, py := y));
      ComesIn(st, x, y);
      CheckFocusLists(st1);
      assert st1.ptr == st.ptr;
      FromMoved(st, st1, PCheckFocus(st1));
      SameLists(st, st.(at := st.at.(entered := true)));
    case PointerOut =>
      SameLists(st, st);
      FocusIsLive(st);
      SetFocusLists(st, None);
      if !st.at.ownCursor {
        OutLists(st, PSetFocus(st, None), Step(st, op));
      }
    case ReleasePointer(r) => ReleaseLists(st, r);
    case _ =>
      PointerUntouchedBy(st, op);
      hide Step;
      SameLists(st, Step(st, op));
  }

  /** The pointer objects of clients, told by what was bound and released. */
  function Pointers(st: State): map<Resource, Client> { Observe(Pointer, st.log).bound }

  /** Who is inside what after a step.  Without a focus nobody is inside anything; everybody inside is
      inside the surface in focus; a focus that stays keeps exactly those inside that are not released;
      and a new one takes in exactly the pointer objects of its surface's client. */
  lemma InsideAfter(st: State, op: Op)
    requires Inv(st) && !st.stuck
    ensures var st' := Step(st, op);
      && (forall r :: r in Inside(st') ==> Some(Inside(st')[r]) == st'.ptr.focus)
      && (st'.ptr.focus == st.ptr.focus ==> forall r :: r in Inside(st') <==> r in Inside(st) && r in Pointers(st'))
      && (st'.ptr.focus != st.ptr.focus && st'.ptr.focus.Some? ==>
            forall r :: r in Inside(st') <==> r in Pointers(st') && Pointers(st')[r] == st'.ClientOf(st'.ptr.focus.value))
  {
    StepKeepsInv(st, op);
    PointerLists(st, op);
    hide Step, World, KeyboardInv, Observe, Safe;
  }

  // ------------------------------------------------------------------ what is sent

  /** A focus is gone before anything is looked for exactly if its surface dies. */
  lemma FocusDies(st: State, op: Op)
    requires Inv(st) && !st.stuck
    ensures Distinct(st.ptr.focused)
    ensures var f := st.ptr.focus;
      Orphaned(st, op, st.ptr).focus == if f.Some? && !Step(st, op).Live(f.value) then None else f
  {
    FocusIsLive(st);
    if st.ptr.focus.Some? {
      SurfaceAfter(st, op, st.ptr.focus.value);
    }
    hide Inv, Step;
  }

  /** What a step sends to pointer objects, how often.  When the focus changes, each object inside the old
      one is told to leave it, unless that has died, and each inside the new one to enter it; a move is
      told to all inside the focus it ends with, a button to all inside the focus.  Nothing else is sent. */
  lemma PointerMessages(st: State, op: Op, r: Resource, s: SurfaceId)
    requires Inv(st) && !st.stuck
    ensures var st' := Step(st, op);
      var kept := st'.ptr.focus == st.ptr.focus;
      && Sent(st, st', Enter(Pointer, r, s)) == Once(!kept && r in Inside(st') && Inside(st')[r] == s)
      && Sent(st, st', Leave(Pointer, r, s)) == Once(!kept && st'.Live(s) && r in Inside(st) && Inside(st)[r] == s)
      && Sent(st, st', Motion(r)) == Once(op.PointerMove? && r in Inside(st'))
      && Sent(st, st', Button(r)) == Once(op.PointerButton? && r in Inside(st))
  {
    var st' := Step(st, op);
    StepKeepsInv(st, op);
    EntersSent(st, op, Pointer, r, s);
    LeavesSent(st, op, Pointer, r, s);
    EventsSent(st, op, r);
    InsideIs(st, r);
    InsideIs(st', r);
    FocusDies(st, op);
    hide Step, Inv, Sent, Orphaned, Inside, Welcomed;
  }

  lemma InsideIs(st: State, r: Resource)
    requires Inv(st)
    ensures r in Inside(st) <==> st.ptr.focus.Some? && r in st.ptr.focused
    ensures r in Inside(st) ==> Some(Inside(st)[r]) == st.ptr.focus
  {
    hide World, KeyboardInv, Observe, Safe;
  }
}
