/**
 * What each request and event comes to for the keyboard: which surface has its focus, which objects get
 * the keys, and what is sent to whom, how often.
 */
module KeyboardOutcomes {
  import opened Seqs
  import opened ZLists
  import opened HitTest
  import opened Devices
  import opened Seat
  import opened SeatSafety
  import opened SeatFrames
  import opened SurfaceOutcomes
  import opened SeatMessages
  import opened SeatDelivery

  /** The keyboard objects of clients, told by what was bound and released. */
  function Keyboards(st: State): map<Resource, Client> {
    Observe(Keyboard, st.log).bound
  }

  /** Has the client a keyboard object? */
  predicate Holds(st: State, c: Client) {
    exists r :: r in Keyboards(st) && Keyboards(st)[r] == c
  }

  /** Does the object get the keys? */
  predicate Listens(st: State, r: Resource) { r in st.kbd.focused }

  ghost predicate NobodyListens(st: State) { forall r :: !Listens(st, r) }

  lemma HoldsIff(st: State, c: Client)
    requires Inv(st)
    ensures HasClient(st.kbd.focused, st.clientOf, c) || HasClient(st.kbd.idle, st.clientOf, c) <==> Holds(st, c)
  {
    HasEither(st.kbd, st.clientOf, c);
    KeyboardIs(st);
    if Holds(st, c) {
      var r :| r in Keyboards(st) && Keyboards(st)[r] == c;
      assert r in st.kbd.All() && IsOf(st.clientOf, Some(c), r);
    }
    hide Inv, Keyboards;
  }

  lemma KeyboardIs(st: State)
    requires Inv(st)
    ensures forall r :: r in Keyboards(st) <==> r in st.kbd.All()
    ensures forall r :: r in Keyboards(st) ==> r in st.clientOf && st.clientOf[r] == Keyboards(st)[r]
    ensures forall r :: r in st.kbd.focused ==> r in Keyboards(st)
  {
    hide World, PointerInv, Observe;
    assert forall r :: r in st.kbd.focused ==> r in st.kbd.All();
  }

  lemma NobodyIff(st: State)
    ensures NobodyListens(st) <==> st.kbd.focused == []
  {
    if st.kbd.focused != [] {
      assert Listens(st, st.kbd.focused[0]);
    }
  }

  // ------------------------------------------------------------------ the focus

  /** What asking for the keyboard focus leads to: a client without keyboard objects does not get it while
      others are listening. */
  ghost function FocusAsked(st: State, s: SurfaceId): Ref {
    if st.Live(s) && (Holds(st, st.ClientOf(s)) || NobodyListens(st)) then Some(s) else st.kbd.focus
  }

  lemma KSetFocusIs(st: State, s: SurfaceId)
    requires Inv(st) && st.Live(s)
    ensures KSetFocus(st, s).kbd.focus == FocusAsked(st, s)
  {
    HoldsIff(st, st.ClientOf(s));
    NobodyIff(st);
    GiveFocusIs(st.kbd, st.clientOf, s, st.ClientOf(s));
    hide Inv, Give, GiveLog, HasClient, Holds, NobodyListens;
  }

  /** Does a new surface of the client, or one with a new xdg role, ask for the focus that nobody has? */
  ghost predicate Wants(st: State, op: Op) {
    && st.kbd.focus.None?
    && match op
       case CreateSurface(c) => c !in st.known.usesXdg && Holds(st, c)
       case XdgRole(s) =>
         st.Live(s) && (st.scene.Of(s).role == NoRole || st.scene.Of(s).role == XdgSurface) && Holds(st, st.ClientOf(s))
       case _ => false
  }

  /** The client's keyboard objects are exactly those that get the keys, and there are several. */
  ghost predicate AllListen(st: State, c: Client) {
    |st.kbd.focused| >= 2 && forall r :: Listens(st, r) <==> r in Keyboards(st) && Keyboards(st)[r] == c
  }

  lemma KCheckIs(st: State, s: SurfaceId)
    requires Inv(st) && st.Live(s) && !st.stuck
    ensures var st', c := KCheckFocus(st, s), st.ClientOf(s);
      var wants := st.kbd.focus.None? && (c in st.known.usesXdg ==> st.scene.Of(s).role == XdgSurface) && Holds(st, c);
      && (st'.stuck <==> wants && AllListen(st, c))
      && (!st'.stuck ==> st'.kbd.focus == if wants then Some(s) else st.kbd.focus)
  {
    var c := st.ClientOf(s);
    StuckIff(st, s);
    AllListenIff(st, c);
    HoldsIff(st, c);
    CheckGives(st, s);
    hide Inv, AllListen, Holds, KCheckFocus;
  }

  lemma CheckGives(st: State, s: SurfaceId)
    requires !st.stuck
    ensures var st', c := KCheckFocus(st, s), st.ClientOf(s);
      var wants := st.kbd.focus.None? && (c in st.known.usesXdg ==> st.scene.Of(s).role == XdgSurface)
        && (HasClient(st.kbd.focused, st.clientOf, c) || HasClient(st.kbd.idle, st.clientOf, c));
      !st'.stuck ==> st'.kbd.focus == if wants then Some(s) else st.kbd.focus
  {
    var c := st.ClientOf(s);
    var moved := st.(kbd := MoveFocus(st.kbd, st.clientOf, None));
    MovedHas(st.kbd, st.clientOf, c);
    assert moved.ClientOf(s) == c;
    if st.kbd.focus.None? {
      SetWhenFree(st, s);
      SetWhenFree(moved, s);
    }
    hide KSetFocus, HasClient, MoveFocus, ScanEnds;
  }

  lemma SetWhenFree(st: State, s: SurfaceId)
    requires st.kbd.focus.None?
    ensures st.kbd.focused == [] || HasClient(st.kbd.idle, st.clientOf, st.ClientOf(s)) ==> KSetFocus(st, s).kbd.focus == Some(s)
    ensures KSetFocus(st, s).stuck == st.stuck
  {
    GiveFocusIs(st.kbd, st.clientOf, s, st.ClientOf(s));
    hide Give, GiveLog, HasClient;
  }

  lemma MovedHas(d: Device, clientOf: map<Resource, Client>, c: Client)
    ensures var d' := MoveFocus(d, clientOf, None);
      d'.focused == [] && d'.focus == d.focus
  {
    assert forall r :: !Ours(clientOf, None)(r);
    NoneOf(d.All(), Ours(clientOf, None));
    assert |MoveFocus(d, clientOf, None).focused| == 0;
  }

  lemma {:induction false} NoneOf(list: seq<Resource>, p: Resource -> bool)
    requires forall r :: !p(r)
    ensures Filter(list, p) == []
  {
    if list != [] {
      NoneOf(list[1..], p);
      assert !p(list[0]);
    }
  }

  lemma AllListenIff(st: State, c: Client)
    requires Inv(st)
    ensures AllListen(st, c) <==>
      !HasClient(st.kbd.idle, st.clientOf, c) && |st.kbd.focused| >= 2 && IsOf(st.clientOf, Some(c), st.kbd.focused[0])
  {
    KeyboardIs(st);
    var list := st.kbd.focused;
    if |list| >= 2 {
      assert list[0] in list;
      OneClientListens(st);
      assert forall r :: r in st.kbd.idle ==> r in st.kbd.All();
      assert Distinct(st.kbd.All()) by { FocusIsLive(st); }
      DistinctConcat(st.kbd.focused, st.kbd.idle);
    }
    hide Inv, Keyboards;
  }

  lemma OneClientListens(st: State)
    requires Inv(st)
    ensures forall q, r :: q in st.kbd.focused && r in st.kbd.focused ==>
      q in st.clientOf && r in st.clientOf && st.clientOf[q] == st.clientOf[r]
  {
    KeyboardIs(st);
    hide World, PointerInv, Observe, Keyboards;
  }

  // ------------------------------------------------------------------ what every step does

  /** What only the pointer, the cursor and the surfaces are changed by. */
  ghost predicate KbdSame(st: State, st': State) {
    st'.kbd == st.kbd && st'.stuck == st.stuck
  }

  predicate TouchesKeyboard(op: Op) {
    || op.CreateSurface? || op.DestroySurface? || op.XdgRole? || op.GetKeyboard? || op.ReleaseKeyboard?
    || op.FocusRequest? || op.PointerButton?
  }

  lemma KeyboardUntouchedBy(st: State, op: Op)
    requires !TouchesKeyboard(op)
    ensures KbdSame(st, Step(st, op))
  {
    hide Put, PCheckFocus, PSetFocus, PlaceCursor, Each, Forget;
    if !st.stuck {
      match op
      case GetPointer(c) => CheckFocusOnly(AddPointer(st, c));
      case PointerIn(x, y) => CheckFocusOnly(st.(at := st.at.(entered := true, px := x, py := y)));
      case PointerOut => SetNoFocusOnly(st);
      case PointerMove(x, y) => MoveKeyboard(st, x, y);
      case SetCursor(_, _, _, _, _, _) => CursorKeyboard(st, op);
      case _ =>
    }
  }

  lemma MoveKeyboard(st: State, x: int, y: int)
    ensures KbdSame(st, DoPointerMove(st, x, y))
  {
    CheckFocusOnly(MovedTo(st, x, y));
    hide PCheckFocus, Each;
  }

  lemma CursorKeyboard(st: State, op: Op)
    requires op.SetCursor?
    ensures KbdSame(st, Step(st, op))
  {
  }

  lemma DestroyKeyboard(st: State, s: SurfaceId, byRequest: bool)
    ensures var st' := DoDestroySurface(st, s, byRequest);
      st'.kbd == WithoutFocus(st.kbd, s) && st'.stuck == st.stuck
  {
    CheckFocusOnly(Unlink(st, s));
    hide PCheckFocus;
  }

  /** Which surface has the keyboard focus after a step, and whether the compositor hangs. */
  ghost predicate KeyboardFocusIs(st: State, op: Op, st': State) {
    && (st'.stuck <==> Wants(st, op) && AllListen(st, WhoAsks(st, op)))
    && (!st'.stuck ==> st'.kbd.focus == NextFocus(st, op))
  }

  ghost function NextFocus(st: State, op: Op): Ref {
    match op
    case CreateSurface(_) => if Wants(st, op) then Some(st.nextSurface) else st.kbd.focus
    case XdgRole(s) => if Wants(st, op) then Some(s) else st.kbd.focus
    case GetKeyboard(c) => if st.kbd.focus.None? && c in st.known.latest then Some(st.known.latest[c]) else st.kbd.focus
    case FocusRequest(s) => FocusAsked(st, s)
    case PointerButton(pressed) =>
      if pressed && st.ptr.focus.Some? then FocusAsked(st, st.ptr.focus.value) else st.kbd.focus
    case DestroySurface(s, _) => if st.kbd.focus == Some(s) then None else st.kbd.focus
    case _ => st.kbd.focus
  }

  function WhoAsks(st: State, op: Op): Client {
    match op
    case CreateSurface(c) => c
    case XdgRole(s) => st.ClientOf(s)
    case _ => 0
  }

  /** The same objects, clients and listeners. */
  lemma SameHolders(st: State, st': State, c: Client)
    requires Inv(st) && Inv(st') && st'.kbd == st.kbd && st'.clientOf == st.clientOf
    ensures Holds(st', c) == Holds(st, c)
    ensures AllListen(st', c) == AllListen(st, c)
    ensures NobodyListens(st') == NobodyListens(st)
  {
    HoldsIff(st, c);
    HoldsIff(st', c);
    AllListenIff(st, c);
    AllListenIff(st', c);
    NobodyIff(st);
    NobodyIff(st');
    hide *;
  }

  lemma CreateFocus(st: State, c: Client)
    requires Inv(st) && !st.stuck
    ensures KeyboardFocusIs(st, CreateSurface(c), DoCreateSurface(st, c))
  {
    var st1 := AddSurface(st, c);
    AddSurfaceOk(st, c);
    KCheckIs(st1, st.nextSurface);
    SameHolders(st, st1, c);
    hide Inv, KCheckFocus, Holds, AllListen, Put;
  }

  lemma XdgFocus(st: State, s: SurfaceId)
    requires Inv(st) && !st.stuck
    ensures KeyboardFocusIs(st, XdgRole(s), Step(st, XdgRole(s)))
  {
    hide Inv, KCheckFocus, Holds, AllListen;
    if MayTake(st, s, XdgSurface) {
      var st1 := SetRole(st, s, XdgSurface);
      SetRoleOk(st, s, XdgSurface);
      KCheckIs(st1, s);
      SameHolders(st, st1, st.ClientOf(s));
    }
  }

  lemma AskFocus(st: State, op: Op)
    requires Inv(st) && !st.stuck && (op.FocusRequest? || op.PointerButton?)
    ensures KeyboardFocusIs(st, op, Step(st, op))
  {
    FocusIsLive(st);
    hide Inv, KSetFocus, Holds, NobodyListens, AllListen, Each;
    if op.FocusRequest? {
      KSetFocusOk(st, op.s);
      if st.Live(op.s) {
        KSetFocusIs(st, op.s);
      }
    } else if st.ptr.focus.Some? {
      var s, st1 := st.ptr.focus.value, st.(log := st.log + Each(st.ptr.focused, Pressing()));
      NoteOk(st, Pressing());
      KSetFocusOk(st1, s);
      KSetFocusIs(st1, s);
      SameHolders(st, st1, st.ClientOf(s));
    }
  }

  lemma KSetFocusOk(st: State, s: SurfaceId)
    ensures KSetFocus(st, s).stuck == st.stuck
  {
    hide Give, GiveLog, HasClient;
  }

  lemma GetKeyboardFocus(st: State, c: Client)
    requires Inv(st) && !st.stuck
    ensures KeyboardFocusIs(st, GetKeyboard(c), DoGetKeyboard(st, c))
  {
    var st1, had := AddKeyboard(st, c), HoldsKeyboard(st, c);
    AdoptFocus(KWelcome(st1, st.nextRes, c, had));
    AdoptStuck(KWelcome(st1, st.nextRes, c, had));
    InvParts(st);
    if st.kbd.focus.None? && c in st.known.latest {
      var s := st.known.latest[c];
      NewIsHeld(st, c);
      assert st1.ClientOf(s) == c by { hide PointerInv, KeyboardInv; }
      SetWhenFree(st1, s);
    }
    hide Inv, World, PointerInv, KeyboardInv, KSetFocus, KAdopt, Holds, AllListen;
  }

  lemma AdoptStuck(st: State)
    ensures KAdopt(st).stuck == st.stuck
  {
  }

  lemma NewIsHeld(st: State, c: Client)
    requires st.kbd.focus.None?
    ensures HasClient(AddKeyboard(st, c).kbd.idle, AddKeyboard(st, c).clientOf, c)
  {
    assert st.nextRes in AddKeyboard(st, c).kbd.idle;
  }

  /** Which surface has the keyboard focus after a step: a new surface, or one with a new xdg role, gets a
      focus that nobody has if its client has a keyboard object, and, using xdg, the role; a new keyboard
      object takes it for its client's latest surface; a request or a press gives it unless the client has
      no keyboard object while those of others listen; and it goes with its surface.  The step hangs
      exactly if the surface would get the focus and the listeners are all the objects of its client, and
      several. */
  lemma KeyboardFocusAfter(st: State, op: Op)
    requires Inv(st) && !st.stuck
    ensures KeyboardFocusIs(st, op, Step(st, op))
  {
    hide Inv, Holds, AllListen, NobodyListens;
    match op
    case CreateSurface(c) =>
      CreateFocus(st, c);
      hide DoCreateSurface, KeyboardFocusIs;
    case XdgRole(s) =>
      XdgFocus(st, s);
      hide Step, KeyboardFocusIs;
    case FocusRequest(_) =>
      AskFocus(st, op);
      hide Step, KeyboardFocusIs;
    case PointerButton(_) =>
      AskFocus(st, op);
      hide Step, KeyboardFocusIs;
    case GetKeyboard(c) =>
      GetKeyboardFocus(st, c);
      hide DoGetKeyboard, KeyboardFocusIs;
    case DestroySurface(s, byRequest) =>
      FocusIsLive(st);
      DestroyKeyboard(st, s, byRequest);
      hide DoDestroySurface;
    case ReleaseKeyboard(_) =>
    case _ =>
      KeyboardUntouchedBy(st, op);
      hide Step;
  }

  // ------------------------------------------------------------------ who gets the keys

  /** While nobody has the focus, nothing but releases, and the adoption of a new object's client, changes
      who listens. */
  ghost predicate FreeListeners(st: State, op: Op, st': State) {
    !st'.stuck && st'.kbd.focus.None? ==>
      if op.GetKeyboard? && st.kbd.focused == [] then
        forall r :: r in st'.kbd.focused <==> r in st'.kbd.All() && IsOf(st'.clientOf, Some(op.c), r)
      else
        forall r :: r in st'.kbd.focused <==> r in st.kbd.focused && r in st'.kbd.All()
  }

  lemma FreeSame(st: State, op: Op, st': State)
    requires st'.kbd.focused == st.kbd.focused && !op.GetKeyboard?
    ensures FreeListeners(st, op, st')
  {
  }

  lemma KSetFocusFree(st: State, s: SurfaceId)
    ensures KSetFocus(st, s).kbd.focus.None? ==> KSetFocus(st, s).kbd == st.kbd
  {
    GiveFocusIs(st.kbd, st.clientOf, s, st.ClientOf(s));
    hide Give, GiveLog, HasClient;
  }

  lemma KCheckFocusFree(st: State, s: SurfaceId)
    ensures var st' := KCheckFocus(st, s); !st'.stuck && st'.kbd.focus.None? ==> st'.kbd == st.kbd
  {
    var moved := st.(kbd := MoveFocus(st.kbd, st.clientOf, None));
    MovedHas(st.kbd, st.clientOf, st.ClientOf(s));
    if st.kbd.focus.None? {
      SetWhenFree(moved, s);
      KSetFocusFree(st, s);
    }
    hide KSetFocus, HasClient, MoveFocus, ScanEnds;
  }

  lemma AdoptLists(st: State, r: Resource, c: Client)
    requires Distinct(st.kbd.All()) && st.kbd.focus.None? && st.kbd.idle != [] && st.kbd.idle[0] == r
    requires r in st.clientOf && st.clientOf[r] == c
    ensures var st' := KAdopt(st);
      if st.kbd.focused == []
      then forall q :: q in st'.kbd.focused <==> q in st'.kbd.All() && IsOf(st'.clientOf, Some(c), q)
      else st'.kbd == st.kbd
  {
    MoveFocusPartitions(st.kbd, st.clientOf, Some(c));
    hide MoveFocus;
  }

  lemma GetKeyboardFree(st: State, c: Client)
    requires Inv(st) && !st.stuck
    ensures FreeListeners(st, GetKeyboard(c), DoGetKeyboard(st, c))
  {
    var st1, had := AddKeyboard(st, c), HoldsKeyboard(st, c);
    var st2 := KWelcome(st1, st.nextRes, c, had);
    AddKeyboardOk(st, c);
    FocusIsLive(st1);
    AdoptFocus(st2);
    if c in st.known.latest {
      SetWhenFreeOf(st, c);
    }
    hide Inv, KSetFocus, KAdopt;
    if DoGetKeyboard(st, c).kbd.focus.None? {
      assert st2 == st1;
      AdoptLists(st1, st.nextRes, c);
    }
  }

  lemma SetWhenFreeOf(st: State, c: Client)
    requires Inv(st) && c in st.known.latest
    ensures st.kbd.focus.None? ==> KSetFocus(AddKeyboard(st, c), st.known.latest[c]).kbd.focus.Some?
  {
    var st1, s := AddKeyboard(st, c), st.known.latest[c];
    InvParts(st);
    if st.kbd.focus.None? {
      NewIsHeld(st, c);
      assert st1.ClientOf(s) == c by { hide PointerInv, KeyboardInv; }
      SetWhenFree(st1, s);
    }
    hide Inv, World, PointerInv, KeyboardInv, KSetFocus;
  }

  lemma ListsAfter(st: State, op: Op)
    requires Inv(st) && !st.stuck
    ensures FreeListeners(st, op, Step(st, op))
  {
    hide Inv, FreeListeners;
    match op
    case CreateSurface(c) =>
      KCheckFocusFree(AddSurface(st, c), st.nextSurface);
      FreeOr(st, op, Step(st, op));
    case XdgRole(s) =>
      KCheckFocusFree(SetRole(st, s, XdgSurface), s);
      FreeOr(st, op, Step(st, op));
    case FocusRequest(s) =>
      KSetFocusFree(st, s);
      FreeOr(st, op, Step(st, op));
    case PointerButton(_) =>
      var s := if st.ptr.focus.Some? then st.ptr.focus.value else 0;
      KSetFocusFree(st.(log := st.log + Each(st.ptr.focused, Pressing())), s);
      FreeOr(st, op, Step(st, op));
    case GetKeyboard(c) => GetKeyboardFree(st, c);
    case DestroySurface(s, byRequest) =>
      DestroyKeyboard(st, s, byRequest);
      hide DoDestroySurface;
      FreeSame(st, op, Step(st, op));
    case ReleaseKeyboard(r) => ReleaseFree(st, r);
    case _ =>
      KeyboardUntouchedBy(st, op);
      hide Step;
      FreeSame(st, op, Step(st, op));
  }

  lemma FreeOr(st: State, op: Op, st': State)
    requires !st'.stuck && st'.kbd.focus.None? ==> st'.kbd == st.kbd
    requires !op.GetKeyboard?
    ensures FreeListeners(st, op, st')
  {
  }

  lemma ReleaseFree(st: State, r: Resource)
    requires Inv(st) && !st.stuck
    ensures FreeListeners(st, ReleaseKeyboard(r), Step(st, ReleaseKeyboard(r)))
  {
    FocusIsLive(st);
    ForgetPartitions(st.kbd, r);
    hide Inv, Forget;
  }

  /** Who gets the keys after a step: with a focus, exactly the keyboard objects of its surface's client;
      without one, those of the client that has just made an object while nobody was listening; else who
      did before, as far as not released. */
  lemma ListenersAfter(st: State, op: Op, r: Resource)
    requires Inv(st) && !st.stuck && !Step(st, op).stuck
    ensures var st' := Step(st, op);
      Listens(st', r) <==>
        && r in Keyboards(st')
        && if st'.kbd.focus.Some? then Keyboards(st')[r] == st'.ClientOf(st'.kbd.focus.value)
           else if op.GetKeyboard? && NobodyListens(st) then Keyboards(st')[r] == op.c
           else Listens(st, r)
  {
    var st' := Step(st, op);
    StepKeepsInv(st, op);
    ListsAfter(st, op);
    KeyboardIs(st');
    NobodyIff(st);
    if st'.kbd.focus.Some? {
      FocusListens(st', r);
    }
    hide Step, Inv, Keyboards, NobodyListens;
  }

  lemma FocusListens(st: State, r: Resource)
    requires Inv(st) && st.kbd.focus.Some?
    ensures Listens(st, r) <==> r in Keyboards(st) && Keyboards(st)[r] == st.ClientOf(st.kbd.focus.value)
  {
    KeyboardIs(st);
    FocusIsLive(st);
    hide World, PointerInv, Observe, Keyboards;
  }

  // ------------------------------------------------------------------ what is sent

  lemma KeyboardFocusDies(st: State, op: Op)
    requires Inv(st) && !st.stuck
    ensures Distinct(st.kbd.focused)
    ensures var f := st.kbd.focus;
      Orphaned(st, op, st.kbd).focus == if f.Some? && !Step(st, op).Live(f.value) then None else f
  {
    FocusIsLive(st);
    if st.kbd.focus.Some? {
      SurfaceAfter(st, op, st.kbd.focus.value);
    }
    hide Inv, Step;
  }

  /** What a step sends to keyboard objects, how often.  When the focus changes, each listener of the old
      one is told to leave it, unless that has died, and each of the new one to enter it; a new object of
      the client in focus is told to enter that client's latest surface, if there is one; a key is told to
      every listener. */
  lemma KeyboardMessages(st: State, op: Op, r: Resource, s: SurfaceId)
    requires Inv(st) && !st.stuck
    ensures var st' := Step(st, op);
      var kept := st'.kbd.focus == st.kbd.focus;
      && Sent(st, st', Enter(Keyboard, r, s)) ==
           Once(!kept && st'.kbd.focus == Some(s) && Listens(st', r))
           + Once(op.GetKeyboard? && r == st.nextRes && st.kbd.focus.Some? && st.ClientOf(st.kbd.focus.value) == op.c
                  && op.c in st.known.latest && st.known.latest[op.c] == s)
      && Sent(st, st', Leave(Keyboard, r, s)) == Once(!kept && st.kbd.focus == Some(s) && st'.Live(s) && Listens(st, r))
      && Sent(st, st', Key(r)) == Once(op.KeyEvent? && Listens(st, r))
  {
    var st' := Step(st, op);
    StepKeepsInv(st, op);
    EntersSent(st, op, Keyboard, r, s);
    LeavesSent(st, op, Keyboard, r, s);
    EventsSent(st, op, r);
    KeyboardFocusDies(st, op);
    hide Step, Inv, Sent, Orphaned;
  }

  /** News of surfaces and objects, each told once: a surface made or destroyed, an object made or
      released. */
  lemma News(st: State, op: Op, dev: Dev, r: Resource, s: SurfaceId, c: Client)
    requires Inv(st) && !st.stuck
    ensures var st' := Step(st, op);
      && Sent(st, st', SurfaceNew(s, c)) == Once(op == CreateSurface(c) && s == st.nextSurface)
      && Sent(st, st', SurfaceGone(s)) == Once(op.DestroySurface? && op.s == s && st.Live(s))
      && Sent(st, st', Bind(dev, r, c)) == Once(r == st.nextRes && op == if dev == Pointer then GetPointer(c) else GetKeyboard(c))
      && Sent(st, st', Unbind(dev, r)) ==
           Once(op == (if dev == Pointer then ReleasePointer(r) else ReleaseKeyboard(r)) && r in Observe(dev, st.log).bound)
  {
    SentIsCounted(st, op, SurfaceNew(s, c));
    SentIsCounted(st, op, SurfaceGone(s));
    SentIsCounted(st, op, Bind(dev, r, c));
    SentIsCounted(st, op, Unbind(dev, r));
    BoundIsListed(st, dev, r);
    hide Step, Inv, Sent, Orphaned, HoldsKeyboard, Observe;
  }

  lemma BoundIsListed(st: State, dev: Dev, r: Resource)
    requires Inv(st)
    ensures r in Observe(dev, st.log).bound <==> r in if dev == Pointer then st.ptr.All() else st.kbd.All()
  {
    hide World, Observe;
  }
}
