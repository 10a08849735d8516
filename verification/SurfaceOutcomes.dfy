/**
 * What each request and event makes of the surfaces, of the cursor, and of what is known of clients.
 */
module SurfaceOutcomes {
  import opened Seqs
  import opened ZLists
  import opened HitTest
  import opened Devices
  import opened Seat
  import opened SeatSafety
  import opened SeatFrames

  // ------------------------------------------------------------------ surfaces

  /** A request for a cursor that is carried out: not for a surface while another client has the focus,
      nor for one that has another role; and only of who may change the cursor. */
  predicate TakesCursor(st: State, op: Op) {
    && op.SetCursor? && (op.mayModify || op.isDefaultClient)
    && (op.cur.Some? ==> GivesCursorRole(st, op, op.cur.value))
  }

  predicate GivesCursorRole(st: State, op: Op, s: SurfaceId) {
    && op.SetCursor? && op.cur == Some(s)
    && (st.ptr.focus.Some? ==> st.ClientOf(st.ptr.focus.value) == op.c)
    && st.Live(s) && (st.scene.Of(s).role == NoRole || st.scene.Of(s).role == Cursor)
  }

  /** The role of a live surface after a step: taken once. */
  function RoleAfter(st: State, op: Op, s: SurfaceId): Role {
    var role := st.scene.Of(s).role;
    if role != NoRole then role
    else match op
      case ShellRole(t) => if t == s then ShellSurface else role
      case XdgRole(t) => if t == s then XdgSurface else role
      case SetCursor(_, _, _, _, _, _) => if GivesCursorRole(st, op, s) then Cursor else role
      case _ => role
  }

  /** Does the step put the cursor surface at the pointer? */
  predicate PlacesCursor(st: State, op: Op, st': State) {
    || (op.PointerMove? && (st'.ptr.focus.Some? || st'.at.ownCursor))
    || TakesCursor(st, op)
  }

  function AreaAfter(st: State, op: Op, st': State, s: SurfaceId): Rect {
    var area := st.scene.Of(s).area;
    if op.Geometry? && op.s == s then op.area
    else if PlacesCursor(st, op, st') && st'.cursor == Some(s)
    then Rect(st'.at.px - st'.at.hotX, st'.at.py - st'.at.hotY, area.w, area.h)
    else area
  }

  /** What a step makes of a surface. */
  ghost predicate SurfaceIs(st: State, op: Op, st': State, s: SurfaceId) {
    && (st'.Live(s) <==> (st.Live(s) && !(op.DestroySurface? && op.s == s)) || (op.CreateSurface? && s == st.nextSurface))
    && (st'.Live(s) && st.Live(s) && s != st.nextSurface ==>
          st'.scene.info[s] ==
            Surface(st.scene.info[s].client, st.scene.info[s].owner, RoleAfter(st, op, s),
                    if op.Video? && op.s == s then op.on else st.scene.info[s].hasVpc, AreaAfter(st, op, st', s)))
    && (op.CreateSurface? && s == st.nextSurface ==>
          st'.Live(s) && st'.scene.info[s] == Surface(op.c, MASTER, NoRole, false, Rect(0, 0, 0, 0)))
  }

  lemma SurfaceKept(st: State, op: Op, st': State, s: SurfaceId)
    requires st'.scene.info == st.scene.info
    requires !op.CreateSurface? && !op.Geometry? && !op.Video? && !op.ShellRole? && !op.XdgRole? && !op.SetCursor?
    requires !op.PointerMove? && !(op.DestroySurface? && st.Live(op.s))
    ensures SurfaceIs(st, op, st', s)
  {
  }

  lemma CreateMakes(st: State, c: Client, s: SurfaceId)
    ensures SurfaceIs(st, CreateSurface(c), DoCreateSurface(st, c), s)
  {
    KCheckFocusOnly(AddSurface(st, c), st.nextSurface);
    hide KCheckFocus, Put;
  }

  lemma DestroyTakes(st: State, s: SurfaceId, byRequest: bool, t: SurfaceId)
    requires st.Live(s)
    ensures SurfaceIs(st, DestroySurface(s, byRequest), DoDestroySurface(st, s, byRequest), t)
  {
    CheckFocusOnly(Unlink(st, s));
    hide PCheckFocus, Drop;
  }

  lemma XdgMakes(st: State, s: SurfaceId, t: SurfaceId)
    requires !st.stuck
    ensures SurfaceIs(st, XdgRole(s), Step(st, XdgRole(s)), t)
  {
    KCheckFocusOnly(SetRole(st, s, XdgSurface), s);
    hide KCheckFocus;
  }

  lemma CursorMakes(st: State, op: Op, s: SurfaceId)
    requires op.SetCursor? && !st.stuck
    ensures SurfaceIs(st, op, Step(st, op), s)
  {
  }

  lemma MovedIs(st: State, op: Op, st': State, s: SurfaceId)
    requires op.PointerMove? && (st'.Live(s) <==> st.Live(s))
    requires st.Live(s) ==> st'.scene.info[s] == st.scene.info[s].(area := AreaAfter(st, op, st', s))
    ensures SurfaceIs(st, op, st', s)
  {
    assert RoleAfter(st, op, s) == st.scene.Of(s).role;
    hide AreaAfter, RoleAfter;
  }

  lemma MoveMakes(st: State, x: int, y: int, s: SurfaceId)
    requires Inv(st)
    ensures SurfaceIs(st, PointerMove(x, y), DoPointerMove(st, x, y), s)
  {
    var op, st' := PointerMove(x, y), DoPointerMove(st, x, y);
    MoveParts(st, x, y);
    MoveSame(st, x, y);
    hide PCheckFocus, DoPointerMove, Inv;
    assert st'.Live(s) <==> st.Live(s);
    if st.Live(s) {
      MoveArea(st, x, y, s);
      assert st'.scene.info[s] == st.scene.info[s].(area := st'.scene.info[s].area);
      hide SameButAreas, FocusOnly;
      assert st'.scene.info[s].area == AreaAfter(st, op, st', s);
    }
    hide *;
    MovedIs(st, op, st', s);
  }

  /** What every step makes of every surface: which are alive, and of those client, role, video, area. */
  lemma SurfaceAfter(st: State, op: Op, s: SurfaceId)
    requires Inv(st) && !st.stuck
    ensures SurfaceIs(st, op, Step(st, op), s)
  {
    var st' := Step(st, op);
    hide Inv, SurfaceIs, Put, Forget, PCheckFocus, KSetFocus;
    match op
    case CreateSurface(c) =>
      CreateMakes(st, c, s);
      hide DoCreateSurface;
    case DestroySurface(t, byRequest) =>
      if st.Live(t) {
        DestroyTakes(st, t, byRequest, s);
      } else {
        SurfaceKept(st, op, st', s);
      }
      hide DoDestroySurface;
    case XdgRole(t) =>
      XdgMakes(st, t, s);
      hide Step;
    case SetCursor(_, _, _, _, _, _) =>
      CursorMakes(st, op, s);
      hide Step;
    case PointerMove(x, y) =>
      MoveMakes(st, x, y, s);
      hide DoPointerMove;
    case Geometry(_, _) => EditMakes(st, op, s);
    case Video(_, _) => EditMakes(st, op, s);
    case ShellRole(_) => EditMakes(st, op, s);
    case GetPointer(c) =>
      CheckFocusOnly(AddPointer(st, c));
      SurfaceKept(st, op, st', s);
    case PointerIn(x, y) =>
      CheckFocusOnly(st.(at := st.at.(entered := true, px := x, py := y)));
      SurfaceKept(st, op, st', s);
    case PointerOut =>
      SetNoFocusOnly(st);
      hide PSetFocus;
      SurfaceKept(st, op, st', s);
    case GetKeyboard(c) =>
      WelcomeOnly(AddKeyboard(st, c), st.nextRes, c, HoldsKeyboard(st, c));
      hide KWelcome, KAdopt;
      SurfaceKept(st, op, st', s);
    case FocusRequest(t) =>
      KSetFocusOnly(st, t);
      SurfaceKept(st, op, st', s);
    case PointerButton(_) =>
      if st.ptr.focus.Some? {
        KSetFocusOnly(st.(log := st.log + Each(st.ptr.focused, Pressing())), st.ptr.focus.value);
      }
      SurfaceKept(st, op, st', s);
    case _ => SurfaceKept(st, op, st', s);
  }

  lemma EditMakes(st: State, op: Op, s: SurfaceId)
    requires (op.Geometry? || op.Video? || op.ShellRole?) && !st.stuck
    ensures SurfaceIs(st, op, Step(st, op), s)
  {
  }

  // ------------------------------------------------------------------ the cursor

  /** Does the step hide the cursor?  It goes with its surface; with the pointer's leaving a surface of the
      same client; and, unless the compositor shows its own, when nothing is left in focus, or what was
      in focus dies, or the pointer goes out. */
  predicate HidesCursor(st: State, op: Op, st': State) {
    var f := st.ptr.focus;
    || (st.cursor.Some? && !st'.Live(st.cursor.value))
    || (f.Some? && st'.ptr.focus != f && st'.Live(f.value)
        && st.cursor.Some? && st.ClientOf(st.cursor.value) == st.ClientOf(f.value))
    || (f.Some? && st'.ptr.focus != f && !st.at.ownCursor && (st'.ptr.focus.None? || !st'.Live(f.value)))
    || (op.PointerOut? && !st.at.ownCursor)
  }

  ghost predicate CursorIs(st: State, op: Op, st': State) {
    && st'.cursor == (if TakesCursor(st, op) then op.cur else if HidesCursor(st, op, st') then None else st.cursor)
    && st'.at.ownCursor == (st.at.ownCursor || (TakesCursor(st, op) && op.isDefaultClient))
    && st'.at.hotX == (if TakesCursor(st, op) && op.cur.Some? then op.hx else st.at.hotX)
    && st'.at.hotY == (if TakesCursor(st, op) && op.cur.Some? then op.hy else st.at.hotY)
  }

  lemma PSetFocusCursor(st: State, target: Ref)
    ensures var st', f := PSetFocus(st, target), st.ptr.focus;
      st'.cursor ==
        if f.Some? && target != f &&
          ((st.cursor.Some? && st.ClientOf(st.cursor.value) == st.ClientOf(f.value)) || (target.None? && !st.at.ownCursor))
        then None else st.cursor
  {
    hide Give, GiveLog, BlurLog;
  }

  lemma CheckFocusCursor(st: State)
    ensures var st', f := PCheckFocus(st), st.ptr.focus;
      st'.cursor ==
        if f.Some? && st'.ptr.focus != f &&
          ((st.cursor.Some? && st.ClientOf(st.cursor.value) == st.ClientOf(f.value)) || (st'.ptr.focus.None? && !st.at.ownCursor))
        then None else st.cursor
  {
    var target := Found(st.scene, MASTER, st.at.px, st.at.py);
    PSetFocusCursor(st, target);
    PSetFocusGives(st, target);
    hide Found, PSetFocus;
  }

  lemma PSetFocusGives(st: State, target: Ref)
    ensures PSetFocus(st, target).ptr.focus == target
  {
    hide Filter, Reverse, GiveLog, BlurLog;
  }

  lemma DestroyCursor(st: State, s: SurfaceId, byRequest: bool)
    requires Inv(st) && st.Live(s)
    ensures CursorIs(st, DestroySurface(s, byRequest), DoDestroySurface(st, s, byRequest))
  {
    var st1, st' := Unlink(st, s), DoDestroySurface(st, s, byRequest);
    var st2 := PCheckFocus(st1);
    FocusIsLive(st);
    UnlinkOk(st, s);
    FocusIsLive(st1);
    CheckFocusLive(st1);
    CheckFocusCursor(st1);
    CheckFocusOnly(st1);
    DestroyedIs(st, s, byRequest);
    hide *;
    DestroyedCursor(st, s, byRequest, st1, st');
  }

  lemma CheckFocusLive(st: State)
    requires Inv(st)
    ensures PCheckFocus(st).ptr.focus.Some? ==> st.Live(PCheckFocus(st).ptr.focus.value)
  {
    InvParts(st);
    PCheckFocusInv(st);
    CheckFocusOnly(st);
    FocusIsLive(PCheckFocus(st));
    hide PCheckFocus, Inv, World, PointerInv, KeyboardInv;
  }

  lemma DestroyedIs(st: State, s: SurfaceId, byRequest: bool)
    requires st.Live(s)
    ensures var st1, st' := Unlink(st, s), DoDestroySurface(st, s, byRequest);
      && st1.ptr.focus == (if st.ptr.focus == Some(s) then None else st.ptr.focus) && st1.at == st.at
      && st1.cursor == (if (st.ptr.focus == Some(s) && !st.at.ownCursor) || st.cursor == Some(s) then None else st.cursor)
      && st1.scene.info == st.scene.info - {s}
      && st'.scene == st1.scene && st'.at == st1.at
      && st'.cursor == PCheckFocus(st1).cursor && st'.ptr == PCheckFocus(st1).ptr
  {
    CheckFocusOnly(Unlink(st, s));
    hide PCheckFocus, Drop;
  }

  lemma DestroyedCursor(st: State, s: SurfaceId, byRequest: bool, st1: State, st': State)
    requires st.Live(s)
    requires st1.ptr.focus == (if st.ptr.focus == Some(s) then None else st.ptr.focus) && st1.at == st.at
    requires st1.cursor == (if (st.ptr.focus == Some(s) && !st.at.ownCursor) || st.cursor == Some(s) then None else st.cursor)
    requires st1.scene.info == st.scene.info - {s}
    requires st'.scene == st1.scene && st'.at == st1.at
    requires st.ptr.focus.Some? ==> st.Live(st.ptr.focus.value)
    requires st.cursor.Some? ==> st.Live(st.cursor.value)
    requires st'.ptr.focus.Some? ==> st1.Live(st'.ptr.focus.value)
    requires st'.cursor ==
      if st1.ptr.focus.Some? && st'.ptr.focus != st1.ptr.focus &&
        ((st1.cursor.Some? && st1.ClientOf(st1.cursor.value) == st1.ClientOf(st1.ptr.focus.value))
         || (st'.ptr.focus.None? && !st1.at.ownCursor))
      then None else st1.cursor
    ensures CursorIs(st, DestroySurface(s, byRequest), st')
  {
    var op := DestroySurface(s, byRequest);
    assert !TakesCursor(st, op);
    hide TakesCursor;
    assert forall t :: t != s ==> st1.ClientOf(t) == st.ClientOf(t) && (st1.Live(t) <==> st.Live(t));
  }

  lemma MoveCursor(st: State, x: int, y: int)
    requires Inv(st)
    ensures CursorIs(st, PointerMove(x, y), DoPointerMove(st, x, y))
  {
    FocusIsLive(st);
    MoveParts(st, x, y);
    MoveSame(st, x, y);
    CheckFocusCursor(MovedTo(st, x, y));
    hide PCheckFocus, DoPointerMove, Inv;
  }

  lemma SetsCursor(st: State, op: Op)
    requires Inv(st) && op.SetCursor? && !st.stuck
    ensures CursorIs(st, op, Step(st, op))
  {
    FocusIsLive(st);
    SetsFields(st, op);
    hide Inv, Step, TakesCursor;
  }

  lemma SetsFields(st: State, op: Op)
    requires op.SetCursor? && !st.stuck
    ensures var st', takes := Step(st, op), TakesCursor(st, op);
      && st'.cursor == (if takes then op.cur else st.cursor) && st'.ptr == st.ptr
      && st'.at.ownCursor == (st.at.ownCursor || (takes && op.isDefaultClient))
      && st'.at.hotX == (if takes && op.cur.Some? then op.hx else st.at.hotX)
      && st'.at.hotY == (if takes && op.cur.Some? then op.hy else st.at.hotY)
      && forall s :: st.Live(s) ==> st'.Live(s)
  {
  }

  /** A step that only looks for the focus. */
  lemma LooksOnly(st: State, op: Op, st1: State, st': State)
    requires Inv(st) && (op.GetPointer? || op.PointerIn?)
    requires st1.ptr.focus == st.ptr.focus && st1.cursor == st.cursor && st1.scene == st.scene
    requires st1.at.(px := st.at.px, py := st.at.py, entered := st.at.entered) == st.at
    requires st' == st1 || st' == PCheckFocus(st1)
    ensures CursorIs(st, op, st')
  {
    FocusIsLive(st);
    CheckFocusCursor(st1);
    CheckFocusOnly(st1);
    hide Inv, PCheckFocus;
  }

  lemma OutCursor(st: State)
    requires Inv(st)
    ensures CursorIs(st, PointerOut, DoPointerOut(st))
  {
    FocusIsLive(st);
    SetNoFocusOnly(st);
    PSetFocusCursor(st, None);
    PSetFocusGives(st, None);
    hide Inv, PSetFocus;
  }

  lemma PointerRequestCursor(st: State, op: Op)
    requires Inv(st) && !st.stuck && (op.GetPointer? || op.PointerIn? || op.PointerOut?)
    ensures CursorIs(st, op, Step(st, op))
  {
    hide Inv, PCheckFocus, CursorIs;
    match op
    case GetPointer(c) => LooksOnly(st, op, AddPointer(st, c), Step(st, op));
    case PointerIn(x, y) =>
      if st.cfg.nested {
        LooksOnly(st, op, st.(at := st.at.(entered := true, px := x, py := y)), Step(st, op));
      } else {
        LooksOnly(st, op, st.(at := st.at.(entered := true)), Step(st, op));
      }
    case PointerOut =>
      OutCursor(st);
      hide DoPointerOut;
  }

  lemma CursorKept(st: State, op: Op, st': State)
    requires Inv(st) && st'.cursor == st.cursor && st'.at == st.at && st'.ptr.focus == st.ptr.focus
    requires !op.SetCursor? && !op.PointerOut? && (st.cursor.Some? ==> st'.Live(st.cursor.value))
    ensures CursorIs(st, op, st')
  {
  }

  lemma OtherCursor(st: State, op: Op)
    requires !st.stuck && !op.SetCursor? && !MovesFocus(op)
    ensures var st' := Step(st, op); st'.cursor == st.cursor && st'.at == st.at && st'.ptr.focus == st.ptr.focus
  {
    hide Put, KCheckFocus, KSetFocus, KWelcome, KAdopt, Each, MoveFocus, Remove;
    match op
    case CreateSurface(c) => KCheckFocusOnly(AddSurface(st, c), st.nextSurface);
    case XdgRole(s) => KCheckFocusOnly(SetRole(st, s, XdgSurface), s);
    case GetKeyboard(c) => WelcomeOnly(AddKeyboard(st, c), st.nextRes, c, HoldsKeyboard(st, c));
    case PointerButton(_) =>
      if st.ptr.focus.Some? {
        KSetFocusOnly(st.(log := st.log + Each(st.ptr.focused, Pressing())), st.ptr.focus.value);
      }
    case FocusRequest(s) => KSetFocusOnly(st, s);
    case _ =>
  }

  /** Which surface is the cursor after a step, if any, and where its hot spot is. */
  lemma CursorAfter(st: State, op: Op)
    requires Inv(st) && !st.stuck
    ensures CursorIs(st, op, Step(st, op))
  {
    FocusIsLive(st);
    if op.PointerMove? {
      MoveCursor(st, op.x, op.y);
      hide Inv, CursorIs, DoPointerMove;
    } else if op.SetCursor? {
      SetsCursor(st, op);
      hide *;
    } else if op.GetPointer? || op.PointerIn? || op.PointerOut? {
      PointerRequestCursor(st, op);
      hide *;
    } else if op.DestroySurface? && st.Live(op.s) {
      DestroyCursor(st, op.s, op.byRequest);
      hide Inv, CursorIs, DoDestroySurface;
    } else {
      if st.cursor.Some? {
        SurfaceAfter(st, op, st.cursor.value);
      }
      hide Inv, CursorIs;
      if op.DestroySurface? {
        assert Step(st, op) == st;
      } else {
        OtherCursor(st, op);
      }
      hide Step, RoleAfter, AreaAfter;
      CursorKept(st, op, Step(st, op));
    }
  }

  // ------------------------------------------------------------------ what is known of clients

  /** The surface of each client, and who uses xdg, after a step: the surface made last, until it or, by
      request, another one of the client is destroyed, or the client is forgotten. */
  lemma KnownAfter(st: State, op: Op, c: Client)
    requires !st.stuck
    ensures var was, now := st.known, Step(st, op).known;
      && (c in now.latest <==>
            (op.CreateSurface? && op.c == c)
            || (c in was.latest && !(op.ForgetClient? && op.c == c)
                && !(op.DestroySurface? && st.Live(op.s)
                     && (was.latest[c] == op.s || (op.byRequest && st.ClientOf(op.s) == c)))))
      && (c in now.latest ==> now.latest[c] == if op.CreateSurface? && op.c == c then st.nextSurface else was.latest[c])
      && (c in now.usesXdg <==> (op.UseXdg? && op.c == c) || (c in was.usesXdg && !(op.ForgetClient? && op.c == c)))
  {
    hide Put, KCheckFocus, KSetFocus, KWelcome, KAdopt, Each, MoveFocus, Remove, PCheckFocus, PSetFocus, PlaceCursor;
    match op
    case CreateSurface(d) => KCheckFocusOnly(AddSurface(st, d), st.nextSurface);
    case DestroySurface(s, _) => CheckFocusOnly(Unlink(st, s));
    case XdgRole(s) => KCheckFocusOnly(SetRole(st, s, XdgSurface), s);
    case GetKeyboard(d) => WelcomeOnly(AddKeyboard(st, d), st.nextRes, d, HoldsKeyboard(st, d));
    case PointerButton(_) =>
      if st.ptr.focus.Some? {
        KSetFocusOnly(st.(log := st.log + Each(st.ptr.focused, Pressing())), st.ptr.focus.value);
      }
    case FocusRequest(s) => KSetFocusOnly(st, s);
    case GetPointer(d) => CheckFocusOnly(AddPointer(st, d));
    case PointerIn(x, y) => CheckFocusOnly(st.(at := st.at.(entered := true, px := x, py := y)));
    case PointerOut => SetNoFocusOnly(st);
    case PointerMove(x, y) => MoveKnown(st, x, y);
    case SetCursor(_, _, _, _, _, _) => CursorKnown(st, op);
    case _ =>
  }

  lemma MoveKnown(st: State, x: int, y: int)
    ensures DoPointerMove(st, x, y).known == st.known
  {
    CheckFocusOnly(MovedTo(st, x, y));
    hide PCheckFocus, Each;
  }

  lemma CursorKnown(st: State, op: Op)
    requires op.SetCursor?
    ensures Step(st, op).known == st.known
  {
  }
}
