/**
 * Everything a request or event sends, in order: a step's messages are what it sends first, the leaves
 * and enters of a pointer focus that changes, those of a keyboard focus that changes, and what it sends
 * last.
 */
module SeatMessages {
  import opened Seqs
  import opened ZLists
  import opened HitTest
  import opened Devices
  import opened Seat
  import opened SeatSafety
  import opened SeatFrames

  // ------------------------------------------------------------------ counting messages

  function Count(msgs: seq<Msg>, m: Msg): nat { multiset(msgs)[m] }

  /** How often a step sent m. */
  function Sent(st: State, st': State, m: Msg): nat {
    if |st.log| <= |st'.log| then Count(st'.log[|st.log|..], m) else 0
  }

  lemma CountConcat(a: seq<Msg>, b: seq<Msg>, m: Msg)
    ensures Count(a + b, m) == Count(a, m) + Count(b, m)
  {
    assert multiset(a + b) == multiset(a) + multiset(b);
  }

  lemma CountOne(x: Msg, m: Msg)
    ensures Count([x], m) == Once(m == x)
  {
  }

  lemma SentIs(st: State, st': State, ext: seq<Msg>, m: Msg)
    requires st'.log == st.log + ext
    ensures Sent(st, st', m) == Count(ext, m)
  {
    assert st'.log[|st.log|..] == ext;
  }

  /** One message to each object of a list without repetition. */
  lemma {:induction false} CountEach(list: seq<Resource>, f: Resource -> Msg, m: Msg)
    requires Distinct(list) && forall q, r :: f(q) == f(r) ==> q == r
    ensures (forall r :: f(r) != m) ==> Count(Each(list, f), m) == 0
    ensures forall r :: f(r) == m ==> Count(Each(list, f), m) == Once(r in list)
  {
    if list == [] {
      assert Each(list, f) == [];
    } else {
      var n := |list| - 1;
      var rest := list[..n];
      CountEach(rest, f, m);
      EachLast(list, f);
      CountConcat(Each(rest, f), [f(list[n])], m);
      CountOne(f(list[n]), m);
      assert list == rest + [list[n]];
      hide Each, Count;
    }
  }

  lemma CountMotions(list: seq<Resource>, m: Msg)
    requires Distinct(list)
    ensures Count(Each(list, Moving()), m) == Once(m.Motion? && m.r in list)
  {
    assert forall r :: Moving()(r) == Motion(r);
    CountEach(list, Moving(), m);
    hide Count, Each, Moving;
    if m.Motion? { assert Moving()(m.r) == m; }
  }

  lemma CountButtons(list: seq<Resource>, m: Msg)
    requires Distinct(list)
    ensures Count(Each(list, Pressing()), m) == Once(m.Button? && m.r in list)
  {
    assert forall r :: Pressing()(r) == Button(r);
    CountEach(list, Pressing(), m);
    hide Count, Each, Pressing;
    if m.Button? { assert Pressing()(m.r) == m; }
  }

  lemma CountKeys(list: seq<Resource>, m: Msg)
    requires Distinct(list)
    ensures Count(Each(list, Typing()), m) == Once(m.Key? && m.r in list)
  {
    assert forall r :: Typing()(r) == Key(r);
    CountEach(list, Typing(), m);
    hide Count, Each, Typing;
    if m.Key? { assert Typing()(m.r) == m; }
  }

  // ------------------------------------------------------------------ one change of focus

  function Leaves(dev: Dev, d: Device): seq<Msg> {
    if d.focus.Some? then Each(d.focused, Leaving(dev, d.focus.value)) else []
  }

  function Enters(dev: Dev, d: Device): seq<Msg> {
    if d.focus.Some? then Each(d.focused, Entering(dev, d.focus.value)) else []
  }

  lemma CountLeaves(dev: Dev, d: Device, m: Msg)
    requires Distinct(d.focused)
    ensures Count(Leaves(dev, d), m) == Once(m.Leave? && m.dev == dev && d.focus == Some(m.s) && m.r in d.focused)
  {
    if d.focus.Some? {
      var f := Leaving(dev, d.focus.value);
      assert forall r :: f(r) == Leave(dev, r, d.focus.value);
      CountEach(d.focused, f, m);
      hide Each, Count;
      if m.Leave? { assert m.dev == dev && d.focus == Some(m.s) ==> f(m.r) == m; }
    }
  }

  lemma CountEnters(dev: Dev, d: Device, m: Msg)
    requires Distinct(d.focused)
    ensures Count(Enters(dev, d), m) == Once(m.Enter? && m.dev == dev && d.focus == Some(m.s) && m.r in d.focused)
  {
    if d.focus.Some? {
      var f := Entering(dev, d.focus.value);
      assert forall r :: f(r) == Enter(dev, r, d.focus.value);
      CountEach(d.focused, f, m);
      hide Each, Count;
      if m.Enter? { assert m.dev == dev && d.focus == Some(m.s) ==> f(m.r) == m; }
    }
  }

  /** What is sent when the focus goes from d's to that of d'. */
  function Change(dev: Dev, d: Device, d': Device): seq<Msg> {
    if d'.focus == d.focus then [] else Leaves(dev, d) + Enters(dev, d')
  }

  lemma CountChange(dev: Dev, d: Device, d': Device, m: Msg)
    requires Distinct(d.focused) && Distinct(d'.focused)
    ensures Count(Change(dev, d, d'), m) ==
      Once(m.Leave? && m.dev == dev && d.focus == Some(m.s) && d'.focus != Some(m.s) && m.r in d.focused)
      + Once(m.Enter? && m.dev == dev && d'.focus == Some(m.s) && d.focus != Some(m.s) && m.r in d'.focused)
  {
    CountLeaves(dev, d, m);
    CountEnters(dev, d', m);
    CountConcat(Leaves(dev, d), Enters(dev, d'), m);
    hide Leaves, Enters;
    assert Count([], m) == 0;
    hide Count;
  }

  lemma PSetFocusSends(st: State, target: Ref)
    ensures PSetFocus(st, target).log == st.log + Change(Pointer, st.ptr, PSetFocus(st, target).ptr)
    ensures PSetFocus(st, target).ptr.focus == target
  {
    hide Each, MoveFocus;
    var s := if target.Some? then target.value else 0;
    GiveFocusIs(st.ptr, st.clientOf, s, st.ClientOf(s));
    assert st.log + [] == st.log;
  }

  lemma GiveFocusIs(d: Device, clientOf: map<Resource, Client>, s: SurfaceId, c: Client)
    ensures Give(d, s, clientOf, c).focus == Some(s)
  {
  }

  lemma KSetFocusSends(st: State, s: SurfaceId)
    ensures KSetFocus(st, s).log == st.log + Change(Keyboard, st.kbd, KSetFocus(st, s).kbd)
  {
    hide Each, MoveFocus, HasClient;
    GiveFocusIs(st.kbd, st.clientOf, s, st.ClientOf(s));
    assert st.log + [] == st.log;
  }

  // ------------------------------------------------------------------ everything a step sends

  /** A device whose focus, if that is the destroyed surface, is gone before anything is looked for. */
  function Orphaned(st: State, op: Op, d: Device): Device {
    if op.DestroySurface? && st.Live(op.s) then WithoutFocus(d, op.s) else d
  }

  /** What a step sends before a focus changes. */
  function Before(st: State, op: Op): seq<Msg> {
    match op
    case CreateSurface(c) => [SurfaceNew(st.nextSurface, c)]
    case DestroySurface(s, _) => if st.Live(s) then [SurfaceGone(s)] else []
    case GetPointer(c) => [Bind(Pointer, st.nextRes, c)]
    case GetKeyboard(c) => [Bind(Keyboard, st.nextRes, c)]
    case ReleasePointer(r) => if r in st.ptr.All() then [Unbind(Pointer, r)] else []
    case ReleaseKeyboard(r) => if r in st.kbd.All() then [Unbind(Keyboard, r)] else []
    case PointerButton(_) => if st.ptr.focus.Some? then Each(st.ptr.focused, Pressing()) else []
    case KeyEvent => Each(st.kbd.focused, Typing())
    case _ => []
  }

  /** And afterwards. */
  function After(st: State, op: Op, st': State): seq<Msg> {
    match op
    case PointerMove(_, _) => if st'.ptr.focus.Some? then Each(st'.ptr.focused, Moving()) else []
    case GetKeyboard(c) =>
      if HoldsKeyboard(st, c) && c in st.known.latest then [Enter(Keyboard, st.nextRes, st.known.latest[c])] else []
    case _ => []
  }

  ghost predicate SendsAll(st: State, op: Op, st': State) {
    st'.log == st.log + Before(st, op)
      + Change(Pointer, Orphaned(st, op, st.ptr), st'.ptr) + Change(Keyboard, Orphaned(st, op, st.kbd), st'.kbd)
      + After(st, op, st')
  }

  lemma NoChange(dev: Dev, d: Device, d': Device)
    requires d'.focus == d.focus
    ensures Change(dev, d, d') == []
  {
  }

  /** A change depends on the list of the old focus only. */
  lemma SameFocusChange(d: Device, e: Device, d': Device)
    requires d.focus == e.focus && (d.focus.Some? ==> d.focused == e.focused)
    ensures Change(Pointer, d, d') == Change(Pointer, e, d') && Change(Keyboard, d, d') == Change(Keyboard, e, d')
  {
  }

  lemma Nothing(log: seq<Msg>)
    ensures log + [] == log
  {
  }

  /** Put together from its parts. */
  lemma Assembled(st: State, op: Op, st': State, first: seq<Msg>, pointer: seq<Msg>, keyboard: seq<Msg>, last: seq<Msg>)
    requires st'.log == st.log + first + pointer + keyboard + last
    requires first == Before(st, op) && last == After(st, op, st')
    requires pointer == Change(Pointer, Orphaned(st, op, st.ptr), st'.ptr)
    requires keyboard == Change(Keyboard, Orphaned(st, op, st.kbd), st'.kbd)
    ensures SendsAll(st, op, st')
  {
  }

  lemma Padded(log: seq<Msg>, a: seq<Msg>, b: seq<Msg>)
    ensures log + a + b == log + a + b + [] + [] == log + a + [] + b + [] == log + a + [] + [] + b
    ensures log + a == log + a + [] + [] + []
  {
    hide *;
    assert log + a + b + [] == log + a + b;
    assert log + a + [] == log + a;
  }

  lemma CheckFocusSends(st: State)
    ensures PCheckFocus(st).log == st.log + Change(Pointer, st.ptr, PCheckFocus(st).ptr)
  {
    PSetFocusSends(st, Found(st.scene, MASTER, st.at.px, st.at.py));
    hide Found, PSetFocus, Change;
  }

  lemma GetPointerSends(st: State, c: Client)
    requires !st.stuck
    ensures SendsAll(st, GetPointer(c), DoGetPointer(st, c))
  {
    var st1, st' := AddPointer(st, c), DoGetPointer(st, c);
    CheckFocusSends(st1);
    CheckFocusOnly(st1);
    SameFocusChange(st.ptr, st1.ptr, st'.ptr);
    NoChange(Pointer, st.ptr, st1.ptr);
    NoChange(Keyboard, st.kbd, st.kbd);
    hide Change, PCheckFocus;
    Padded(st.log, Before(st, GetPointer(c)), Change(Pointer, st.ptr, st'.ptr));
    Assembled(st, GetPointer(c), st', Before(st, GetPointer(c)), Change(Pointer, st.ptr, st'.ptr), [], []);
  }

  lemma PointerInSends(st: State, x: int, y: int)
    requires !st.stuck
    ensures SendsAll(st, PointerIn(x, y), DoPointerIn(st, x, y))
  {
    var st1, st' := st.(at := st.at.(entered := true, px := x, py := y)), DoPointerIn(st, x, y);
    CheckFocusSends(st1);
    CheckFocusOnly(st1);
    NoChange(Pointer, st.ptr, st.ptr);
    NoChange(Keyboard, st.kbd, st.kbd);
    hide Change, PCheckFocus;
    Nothing(st.log);
    Padded(st.log, [], Change(Pointer, st.ptr, st'.ptr));
    Assembled(st, PointerIn(x, y), st', [], Change(Pointer, st.ptr, st'.ptr), [], []);
  }

  lemma PointerOutSends(st: State)
    requires !st.stuck
    ensures SendsAll(st, PointerOut, DoPointerOut(st))
  {
    var st' := DoPointerOut(st);
    PSetFocusSends(st, None);
    SetNoFocusOnly(st);
    NoChange(Pointer, st.ptr, st.ptr);
    NoChange(Keyboard, st.kbd, st.kbd);
    hide Change, PSetFocus;
    Nothing(st.log);
    Padded(st.log, [], Change(Pointer, st.ptr, st'.ptr));
    Assembled(st, PointerOut, st', [], Change(Pointer, st.ptr, st'.ptr), [], []);
  }

  lemma DestroySends(st: State, s: SurfaceId, byRequest: bool)
    requires !st.stuck && st.Live(s)
    ensures SendsAll(st, DestroySurface(s, byRequest), DoDestroySurface(st, s, byRequest))
  {
    var op, st1, st' := DestroySurface(s, byRequest), Unlink(st, s), DoDestroySurface(st, s, byRequest);
    CheckFocusSends(st1);
    CheckFocusOnly(st1);
    NoChange(Keyboard, st1.kbd, st1.kbd);
    assert st1.ptr == Orphaned(st, op, st.ptr) && st1.kbd == Orphaned(st, op, st.kbd) && st1.log == st.log + Before(st, op);
    hide Change, PCheckFocus, Unlink, Orphaned;
    Padded(st.log, Before(st, op), Change(Pointer, st1.ptr, st'.ptr));
    Assembled(st, op, st', Before(st, op), Change(Pointer, st1.ptr, st'.ptr), [], []);
  }

  lemma MoveSends(st: State, x: int, y: int)
    requires Inv(st) && !st.stuck
    ensures SendsAll(st, PointerMove(x, y), DoPointerMove(st, x, y))
  {
    var op, st1, st' := PointerMove(x, y), PCheckFocus(MovedTo(st, x, y)), DoPointerMove(st, x, y);
    MoveParts(st, x, y);
    MoveSame(st, x, y);
    CheckFocusSends(MovedTo(st, x, y));
    NoChange(Keyboard, st.kbd, st.kbd);
    hide Change, PCheckFocus, DoPointerMove, Inv, Each;
    var sent := Change(Pointer, st.ptr, st'.ptr);
    Nothing(st1.log);
    Nothing(st.log);
    assert st'.log == st.log + sent + After(st, op, st');
    Nothing(st.log + sent);
    Assembled(st, op, st', [], sent, [], After(st, op, st'));
  }

  lemma KCheckFocusSends(st: State, s: SurfaceId)
    ensures KCheckFocus(st, s).log == st.log + Change(Keyboard, st.kbd, KCheckFocus(st, s).kbd)
  {
    var moved := st.(kbd := MoveFocus(st.kbd, st.clientOf, None));
    KSetFocusSends(st, s);
    KSetFocusSends(moved, s);
    NoChange(Keyboard, st.kbd, st.kbd);
    Nothing(st.log);
    assert moved.kbd.focus == st.kbd.focus;
    NoChange(Keyboard, st.kbd, moved.kbd);
    if st.kbd.focus.None? {
      SameFocusChange(st.kbd, moved.kbd, KSetFocus(moved, s).kbd);
    }
    hide KSetFocus, MoveFocus, HasClient, ScanEnds, Change;
  }

  lemma CreateSends(st: State, c: Client)
    requires !st.stuck
    ensures SendsAll(st, CreateSurface(c), DoCreateSurface(st, c))
  {
    var op, st1, st' := CreateSurface(c), AddSurface(st, c), DoCreateSurface(st, c);
    KCheckFocusSends(st1, st.nextSurface);
    KCheckFocusOnly(st1, st.nextSurface);
    NoChange(Pointer, st.ptr, st.ptr);
    hide Change, KCheckFocus, Put;
    Padded(st.log, Before(st, op), Change(Keyboard, st.kbd, st'.kbd));
    Assembled(st, op, st', Before(st, op), [], Change(Keyboard, st.kbd, st'.kbd), []);
  }

  /** Requests that only send what a change of the keyboard focus takes, after what they send first. */
  lemma KeyboardSends(st: State, op: Op, first: seq<Msg>, st': State)
    requires st'.log == st.log + first + Change(Keyboard, st.kbd, st'.kbd) && st'.ptr == st.ptr
    requires first == Before(st, op) && After(st, op, st') == [] && !op.DestroySurface?
    ensures SendsAll(st, op, st')
  {
    NoChange(Pointer, st.ptr, st.ptr);
    hide Change, Before, After;
    Padded(st.log, first, Change(Keyboard, st.kbd, st'.kbd));
    Assembled(st, op, st', first, [], Change(Keyboard, st.kbd, st'.kbd), []);
  }

  lemma FocusRequestSends(st: State, op: Op)
    requires !st.stuck && (op.XdgRole? || op.FocusRequest?)
    ensures SendsAll(st, op, Step(st, op))
  {
    KCheckFocusSends(SetRole(st, op.s, XdgSurface), op.s);
    KCheckFocusOnly(SetRole(st, op.s, XdgSurface), op.s);
    KSetFocusSends(st, op.s);
    KSetFocusOnly(st, op.s);
    NoChange(Keyboard, st.kbd, st.kbd);
    Nothing(st.log);
    hide Change, KCheckFocus, KSetFocus, SendsAll;
    KeyboardSends(st, op, [], Step(st, op));
  }

  lemma ButtonSends(st: State, pressed: bool)
    requires !st.stuck
    ensures SendsAll(st, PointerButton(pressed), DoPointerButton(st, pressed))
  {
    var op, st' := PointerButton(pressed), DoPointerButton(st, pressed);
    var st1 := st.(log := st.log + Before(st, op));
    NoChange(Keyboard, st.kbd, st.kbd);
    Nothing(st.log);
    Nothing(st1.log);
    hide Change, KSetFocus, SendsAll, Each;
    if st.ptr.focus.Some? {
      KSetFocusSends(st1, st.ptr.focus.value);
      KSetFocusOnly(st1, st.ptr.focus.value);
    }
    KeyboardSends(st, op, Before(st, op), st');
  }

  /** Adoption changes no focus and sends nothing. */
  lemma AdoptFocus(st: State)
    ensures KAdopt(st).kbd.focus == st.kbd.focus && KAdopt(st).log == st.log
    ensures KAdopt(st).kbd == st.kbd || st.kbd.focus.None?
  {
    hide Filter, Reverse;
  }

  lemma AdoptChange(d: Device, st: State)
    ensures Change(Keyboard, d, KAdopt(st).kbd) == Change(Keyboard, d, st.kbd) && KAdopt(st).log == st.log
  {
    AdoptFocus(st);
    hide KAdopt;
  }

  lemma WelcomeSends(st: State, r: Resource, c: Client, had: bool)
    requires had ==> st.kbd.focus.Some?
    ensures var st' := KWelcome(st, r, c, had);
      && st'.log == st.log + Change(Keyboard, st.kbd, st'.kbd)
           + (if had && c in st.known.latest then [Enter(Keyboard, r, st.known.latest[c])] else [])
      && (had ==> st'.kbd == st.kbd)
  {
    NoChange(Keyboard, st.kbd, st.kbd);
    Nothing(st.log);
    if c in st.known.latest {
      KSetFocusSends(st, st.known.latest[c]);
      Nothing(KSetFocus(st, st.known.latest[c]).log);
    }
    hide Change, KSetFocus;
  }

  lemma GetKeyboardSends(st: State, c: Client)
    requires !st.stuck
    ensures SendsAll(st, GetKeyboard(c), DoGetKeyboard(st, c))
  {
    var op, st1, had, st' := GetKeyboard(c), AddKeyboard(st, c), HoldsKeyboard(st, c), DoGetKeyboard(st, c);
    var st2 := KWelcome(st1, st.nextRes, c, had);
    NoChange(Pointer, st.ptr, st.ptr);
    WelcomeOnly(st1, st.nextRes, c, had);
    AdoptChange(st.kbd, st2);
    WelcomeSends(st1, st.nextRes, c, had);
    if !had {
      SameFocusChange(st.kbd, st1.kbd, st2.kbd);
    } else {
      NoChange(Keyboard, st.kbd, st1.kbd);
      NoChange(Keyboard, st1.kbd, st1.kbd);
    }
    hide Change, KWelcome, KAdopt;
    var sent := Change(Keyboard, st.kbd, st2.kbd);
    assert st'.log == st.log + Before(st, op) + sent + After(st, op, st');
    Nothing(st.log + Before(st, op));
    Assembled(st, op, st', Before(st, op), [], sent, After(st, op, st'));
  }

  /** Requests that change neither focus. */
  lemma QuietSends(st: State, op: Op, st': State)
    requires st'.log == st.log + Before(st, op)
    requires st'.ptr.focus == st.ptr.focus && st'.kbd.focus == st.kbd.focus
    requires !(op.DestroySurface? && st.Live(op.s)) && !op.PointerMove? && !op.GetKeyboard?
    ensures SendsAll(st, op, st')
  {
    NoChange(Pointer, st.ptr, st'.ptr);
    NoChange(Keyboard, st.kbd, st'.kbd);
    Nothing(st'.log);
    hide Change, Before;
  }

  lemma QuietRequestSends(st: State, op: Op)
    requires !st.stuck
    requires op.Geometry? || op.ZOrder? || op.Video? || op.ShellRole? || op.UseXdg? || op.ForgetClient? || op.SetCursor?
      || op.ReleasePointer? || op.ReleaseKeyboard? || op.KeyEvent? || (op.DestroySurface? && !st.Live(op.s))
    ensures SendsAll(st, op, Step(st, op))
  {
    Nothing(st.log);
    hide SendsAll, Put, Each;
    QuietSends(st, op, Step(st, op));
  }

  /** Everything a step sends, in order. */
  lemma StepSends(st: State, op: Op)
    requires Inv(st) && !st.stuck
    ensures SendsAll(st, op, Step(st, op))
  {
    hide *;
    match op
    case CreateSurface(c) => CreateSends(st, c); StepIs(st, op);
    case DestroySurface(s, byRequest) =>
      if st.Live(s) {
        DestroySends(st, s, byRequest);
        StepIs(st, op);
      } else {
        QuietRequestSends(st, op);
      }
    case XdgRole(s) => FocusRequestSends(st, op);
    case FocusRequest(s) => FocusRequestSends(st, op);
    case GetPointer(c) => GetPointerSends(st, c); StepIs(st, op);
    case GetKeyboard(c) => GetKeyboardSends(st, c); StepIs(st, op);
    case PointerIn(x, y) => PointerInSends(st, x, y); StepIs(st, op);
    case PointerOut => PointerOutSends(st); StepIs(st, op);
    case PointerMove(x, y) => MoveSends(st, x, y); StepIs(st, op);
    case PointerButton(pressed) => ButtonSends(st, pressed); StepIs(st, op);
    case _ => QuietRequestSends(st, op);
  }

  /** Which function a step is. */
  lemma StepIs(st: State, op: Op)
    requires !st.stuck
    ensures match op
      case CreateSurface(c) => Step(st, op) == DoCreateSurface(st, c)
      case DestroySurface(s, byRequest) => Step(st, op) == if st.Live(s) then DoDestroySurface(st, s, byRequest) else st
      case GetPointer(c) => Step(st, op) == DoGetPointer(st, c)
      case GetKeyboard(c) => Step(st, op) == DoGetKeyboard(st, c)
      case PointerIn(x, y) => Step(st, op) == DoPointerIn(st, x, y)
      case PointerOut => Step(st, op) == DoPointerOut(st)
      case PointerMove(x, y) => Step(st, op) == DoPointerMove(st, x, y)
      case PointerButton(pressed) => Step(st, op) == DoPointerButton(st, pressed)
      case _ => true
  {
    hide DoCreateSurface, DoDestroySurface, DoGetPointer, DoGetKeyboard;
    hide DoPointerIn, DoPointerOut, DoPointerMove, DoPointerButton;
  }

  lemma Joined(log: seq<Msg>, a: seq<Msg>, b: seq<Msg>, c: seq<Msg>, d: seq<Msg>)
    ensures log + a + b + c + d == log + (a + b + c + d)
  {
    hide *;
  }

  lemma CountFour(st: State, st': State, a: seq<Msg>, b: seq<Msg>, c: seq<Msg>, d: seq<Msg>, m: Msg)
    requires st'.log == st.log + a + b + c + d
    ensures st.log <= st'.log && Sent(st, st', m) == Count(a, m) + Count(b, m) + Count(c, m) + Count(d, m)
  {
    hide *;
    Joined(st.log, a, b, c, d);
    SentIs(st, st', a + b + c + d, m);
    CountConcat(a + b + c, d, m);
    CountConcat(a + b, c, m);
    CountConcat(a, b, m);
  }

  /** How often a step sends m. */
  lemma SentByParts(st: State, op: Op, m: Msg)
    requires Inv(st) && !st.stuck
    ensures var st' := Step(st, op);
      && st.log <= st'.log
      && Sent(st, st', m) ==
           Count(Before(st, op), m) + Count(Change(Pointer, Orphaned(st, op, st.ptr), st'.ptr), m)
           + Count(Change(Keyboard, Orphaned(st, op, st.kbd), st'.kbd), m) + Count(After(st, op, st'), m)
  {
    var st' := Step(st, op);
    hide Step, Before, Change, After, Orphaned, Inv, Count, Sent;
    StepSends(st, op);
    CountFour(st, st', Before(st, op), Change(Pointer, Orphaned(st, op, st.ptr), st'.ptr),
              Change(Keyboard, Orphaned(st, op, st.kbd), st'.kbd), After(st, op, st'), m);
  }

  /** One for each message a step sends first: news of objects and surfaces, buttons, keys. */
  function First(st: State, op: Op, m: Msg): nat {
    match m
    case SurfaceNew(s, c) => Once(op == CreateSurface(c) && s == st.nextSurface)
    case SurfaceGone(s) => Once(op.DestroySurface? && op.s == s && st.Live(s))
    case Bind(dev, r, c) => Once(r == st.nextRes && op == if dev == Pointer then GetPointer(c) else GetKeyboard(c))
    case Unbind(dev, r) =>
      Once(if dev == Pointer then op == ReleasePointer(r) && r in st.ptr.All() else op == ReleaseKeyboard(r) && r in st.kbd.All())
    case Button(r) => Once(op.PointerButton? && st.ptr.focus.Some? && r in st.ptr.focused)
    case Key(r) => Once(op.KeyEvent? && r in st.kbd.focused)
    case _ => 0
  }

  lemma FirstNews(st: State, op: Op, m: Msg)
    requires !op.PointerButton? && !op.KeyEvent?
    ensures |Before(st, op)| <= 1
    ensures First(st, op, m) == if Before(st, op) == [] then 0 else Once(m == Before(st, op)[0])
  {
    hide Each;
  }

  lemma CountNews(st: State, op: Op, m: Msg)
    requires !op.PointerButton? && !op.KeyEvent?
    ensures Count(Before(st, op), m) == First(st, op, m)
  {
    var first := Before(st, op);
    FirstNews(st, op, m);
    hide *;
    EmptyCount(m);
    if first != [] {
      CountOne(first[0], m);
      assert first == [first[0]];
    }
  }

  lemma CountBefore(st: State, op: Op, m: Msg)
    requires Inv(st)
    ensures Count(Before(st, op), m) == First(st, op, m)
  {
    if op.PointerButton? || op.KeyEvent? {
      FocusIsLive(st);
      CountButtons(st.ptr.focused, m);
      CountKeys(st.kbd.focused, m);
      EmptyCount(m);
      hide Inv, Count, Each, Pressing, Typing;
    } else {
      CountNews(st, op, m);
      hide *;
    }
  }

  lemma EmptyCount(m: Msg)
    ensures Count([], m) == 0
  {
  }

  /** And last: motions, and the enter of a new keyboard whose client has the focus. */
  function Last(st: State, op: Op, st': State, m: Msg): nat {
    match m
    case Motion(r) => Once(op.PointerMove? && st'.ptr.focus.Some? && r in st'.ptr.focused)
    case Enter(Keyboard, r, s) =>
      Once(op.GetKeyboard? && HoldsKeyboard(st, op.c) && op.c in st.known.latest && s == st.known.latest[op.c] && r == st.nextRes)
    case _ => 0
  }

  lemma LastEnter(st: State, op: Op, st': State, m: Msg)
    requires !op.PointerMove?
    ensures |After(st, op, st')| <= 1
    ensures Last(st, op, st', m) == if After(st, op, st') == [] then 0 else Once(m == After(st, op, st')[0])
  {
    hide HoldsKeyboard;
  }

  lemma CountAfter(st: State, op: Op, st': State, m: Msg)
    requires Inv(st')
    ensures Count(After(st, op, st'), m) == Last(st, op, st', m)
  {
    var last := After(st, op, st');
    EmptyCount(m);
    if op.PointerMove? {
      FocusIsLive(st');
      CountMotions(st'.ptr.focused, m);
      hide Inv, Count, Each, Moving;
    } else {
      LastEnter(st, op, st', m);
      hide *;
      if last != [] {
        CountOne(last[0], m);
        assert last == [last[0]];
      }
    }
  }

  /** One if m is a leave or an enter that a change of focus from d to d' takes. */
  function Crossing(dev: Dev, d: Device, d': Device, m: Msg): nat {
    match m
    case Enter(e, r, s) => Once(e == dev && d'.focus == Some(s) && d.focus != Some(s) && r in d'.focused)
    case Leave(e, r, s) => Once(e == dev && d.focus == Some(s) && d'.focus != Some(s) && r in d.focused)
    case _ => 0
  }

  lemma CountCrossing(dev: Dev, d: Device, d': Device, m: Msg)
    requires Distinct(d.focused) && Distinct(d'.focused)
    ensures Count(Change(dev, d, d'), m) == Crossing(dev, d, d', m)
  {
    CountChange(dev, d, d', m);
    hide Count, Change;
  }

  /** How often a step sends m. */
  lemma SentIsCounted(st: State, op: Op, m: Msg)
    requires Inv(st) && !st.stuck
    ensures var st' := Step(st, op);
      && st.log <= st'.log
      && Sent(st, st', m) == First(st, op, m) + Crossing(Pointer, Orphaned(st, op, st.ptr), st'.ptr, m)
           + Crossing(Keyboard, Orphaned(st, op, st.kbd), st'.kbd, m) + Last(st, op, st', m)
  {
    var st' := Step(st, op);
    StepKeepsInv(st, op);
    FocusIsLive(st);
    FocusIsLive(st');
    OrphanedList(st, op, st.ptr);
    OrphanedList(st, op, st.kbd);
    hide *;
    SentByParts(st, op, m);
    CountBefore(st, op, m);
    CountAfter(st, op, st', m);
    CountCrossing(Pointer, Orphaned(st, op, st.ptr), st'.ptr, m);
    CountCrossing(Keyboard, Orphaned(st, op, st.kbd), st'.kbd, m);
  }

  lemma OrphanedList(st: State, op: Op, d: Device)
    requires Distinct(d.focused)
    ensures Orphaned(st, op, d).focused == d.focused && Distinct(Orphaned(st, op, d).focused)
  {
  }

  function DeviceOf(st: State, dev: Dev): Device { if dev == Pointer then st.ptr else st.kbd }

  /** The new keyboard object of a client in focus, and that client's latest surface. */
  predicate Welcomed(st: State, op: Op, r: Resource, s: SurfaceId) {
    op.GetKeyboard? && r == st.nextRes && HoldsKeyboard(st, op.c) && op.c in st.known.latest && st.known.latest[op.c] == s
  }

  lemma EntersSent(st: State, op: Op, dev: Dev, r: Resource, s: SurfaceId)
    requires Inv(st) && !st.stuck
    ensures var st' := Step(st, op);
      Sent(st, st', Enter(dev, r, s)) ==
        Once(DeviceOf(st', dev).focus == Some(s) && Orphaned(st, op, DeviceOf(st, dev)).focus != Some(s)
             && r in DeviceOf(st', dev).focused)
        + Once(dev == Keyboard && Welcomed(st, op, r, s))
  {
    SentIsCounted(st, op, Enter(dev, r, s));
    hide Step, Inv, Sent, Orphaned, HoldsKeyboard;
  }

  lemma LeaveCrosses(st: State, op: Op, st': State, dev: Dev, r: Resource, s: SurfaceId)
    ensures var d, k, m := Orphaned(st, op, st.ptr), Orphaned(st, op, st.kbd), Leave(dev, r, s);
      First(st, op, m) + Crossing(Pointer, d, st'.ptr, m) + Crossing(Keyboard, k, st'.kbd, m) + Last(st, op, st', m) ==
        Once((if dev == Pointer then d else k).focus == Some(s) && DeviceOf(st', dev).focus != Some(s)
             && r in (if dev == Pointer then d else k).focused)
  {
    hide Orphaned;
  }

  lemma LeavesSent(st: State, op: Op, dev: Dev, r: Resource, s: SurfaceId)
    requires Inv(st) && !st.stuck
    ensures var st' := Step(st, op);
      Sent(st, st', Leave(dev, r, s)) ==
        Once(Orphaned(st, op, DeviceOf(st, dev)).focus == Some(s) && DeviceOf(st', dev).focus != Some(s)
             && r in DeviceOf(st, dev).focused)
  {
    SentIsCounted(st, op, Leave(dev, r, s));
    FocusIsLive(st);
    OrphanedList(st, op, st.ptr);
    OrphanedList(st, op, st.kbd);
    LeaveCrosses(st, op, Step(st, op), dev, r, s);
    hide Step, Inv, Sent, Orphaned, First, Crossing, Last;
  }

  lemma EventsSent(st: State, op: Op, r: Resource)
    requires Inv(st) && !st.stuck
    ensures var st' := Step(st, op);
      && Sent(st, st', Motion(r)) == Once(op.PointerMove? && st'.ptr.focus.Some? && r in st'.ptr.focused)
      && Sent(st, st', Button(r)) == Once(op.PointerButton? && st.ptr.focus.Some? && r in st.ptr.focused)
      && Sent(st, st', Key(r)) == Once(op.KeyEvent? && r in st.kbd.focused)
  {
    SentIsCounted(st, op, Motion(r));
    SentIsCounted(st, op, Button(r));
    SentIsCounted(st, op, Key(r));
    hide Step, Inv, Sent, Orphaned, HoldsKeyboard;
  }
}
