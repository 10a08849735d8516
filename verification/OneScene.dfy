/**
 * The seat's scene and the two stacked lists are one thing.  Every run of the seat makes a run of the
 * lists, with the same order and the same roles, so what is proved of either holds of both: the pointer
 * focus is what the renderer's list shows under the pointer, under the condition of Drawn.dfy.
 */
module OneScene {
  import opened Seqs
  import opened ZLists
  import opened HitTest
  import opened Devices
  import opened Drawn
  import opened Seat
  import opened SeatSafety
  import opened SeatFrames
  import K = Stacking

  /** What a request or event of the seat asks of the lists. */
  function Asked(st: State, op: Op): seq<K.Op> {
    if st.stuck then []
    else match op
      case CreateSurface(_) => [K.Create]
      case DestroySurface(s, _) => [K.Destroy(s)]
      case ZOrder(s, z) => [K.SetZOrder(s, z)]
      case ShellRole(s) => [K.AssignRole(s, ShellSurface)]
      case XdgRole(s) => [K.AssignRole(s, XdgSurface)]
      case SetCursor(c, cur, _, _, mayModify, isDefaultClient) =>
        if cur.Some? && !(st.ptr.focus.Some? && st.ClientOf(st.ptr.focus.value) != c)
        then [K.SetCursor(cur.value, mayModify || isDefaultClient)] else []
      case _ => []
  }

  function Requests(base: real, nested: bool, ops: seq<Op>): seq<K.Op> {
    if ops == [] then []
    else
      var before := ops[..|ops| - 1];
      Requests(base, nested, before) + Asked(Run(base, nested, before), ops[|before|])
  }

  ghost predicate Same(st: State, k: K.Stacks) {
    Shows(st.scene, k) && k.next == st.nextSurface && k.base == st.cfg.base
  }

  /** Stacking, roles and numbering are left alone. */
  ghost predicate SceneKept(st: State, st': State) {
    && st'.scene.list == st.scene.list && st'.nextSurface == st.nextSurface && st'.cfg == st.cfg
    && st'.scene.info.Keys == st.scene.info.Keys
    && forall s :: s in st.scene.info ==> st'.scene.info[s].role == st.scene.info[s].role
  }

  lemma KeptSame(st: State, st': State, k: K.Stacks)
    requires Same(st, k) && SceneKept(st, st')
    ensures Same(st', k)
  {
    assert forall s :: s in st'.scene.info <==> s in st'.scene.info.Keys;
  }

  // ------------------------------------------------------------------ requests that ask something of the lists

  lemma CreateSame(st: State, c: Client, k: K.Stacks)
    requires Same(st, k)
    ensures Same(DoCreateSurface(st, c), K.Step(k, K.Create))
  {
    var st1 := AddSurface(st, c);
    KCheckFocusOnly(st1, st.nextSurface);
    assert Same(st1, K.Step(k, K.Create)) by { hide KCheckFocus, SlotFor, Remove; }
    hide *;
    DoCreateIs(st, c);
    KeptSame(st1, DoCreateSurface(st, c), K.Step(k, K.Create));
  }

  lemma DoCreateIs(st: State, c: Client)
    ensures DoCreateSurface(st, c) == KCheckFocus(AddSurface(st, c), st.nextSurface)
  {
    hide KCheckFocus, AddSurface;
  }

  lemma DestroySame(st: State, s: SurfaceId, byRequest: bool, k: K.Stacks)
    requires Same(st, k) && st.Live(s)
    ensures Same(DoDestroySurface(st, s, byRequest), K.Step(k, K.Destroy(s)))
  {
    var st1 := Unlink(st, s);
    assert Same(st1, K.Step(k, K.Destroy(s))) by { hide Drop; }
    CheckFocusOnly(st1);
    hide PCheckFocus, Unlink, Same, SceneKept;
    KeptSame(st1, PCheckFocus(st1), K.Step(k, K.Destroy(s)));
    OnlyKnown(PCheckFocus(st1), DoDestroySurface(st, s, byRequest), K.Step(k, K.Destroy(s)));
  }

  lemma OnlyKnown(st: State, st': State, k: K.Stacks)
    requires Same(st, k) && st' == st.(known := st'.known)
    ensures Same(st', k)
  {
  }

  lemma RoleSame(st: State, s: SurfaceId, role: Role, k: K.Stacks)
    requires Same(st, k) && MayTake(st, s, role) && role != NoRole
    ensures Same(SetRole(st, s, role), K.Step(k, K.AssignRole(s, role)))
  {
  }

  lemma XdgSame(st: State, s: SurfaceId, k: K.Stacks)
    requires Same(st, k) && MayTake(st, s, XdgSurface)
    ensures Same(KCheckFocus(SetRole(st, s, XdgSurface), s), K.Step(k, K.AssignRole(s, XdgSurface)))
  {
    RoleSame(st, s, XdgSurface, k);
    KCheckFocusOnly(SetRole(st, s, XdgSurface), s);
    hide *;
    KeptSame(SetRole(st, s, XdgSurface), KCheckFocus(SetRole(st, s, XdgSurface), s), K.Step(k, K.AssignRole(s, XdgSurface)));
  }

  /** Refused: the surface has another role. */
  lemma RefusedSame(st: State, s: SurfaceId, role: Role, k: K.Stacks)
    requires Same(st, k) && !MayTake(st, s, role)
    ensures K.Step(k, K.AssignRole(s, role)) == k
    ensures role == Cursor ==> forall mayMove :: K.Step(k, K.SetCursor(s, mayMove)) == k
  {
  }

  lemma CursorRole(st: State, s: SurfaceId, mayMove: bool, k: K.Stacks)
    requires Same(st, k) && MayTake(st, s, Cursor)
    ensures Same(SetRole(st, s, Cursor), K.Step(k, K.SetCursor(s, mayMove)))
  {
    hide Put;
  }

  lemma ShownCursorKeeps(st: State, cur: Ref, hx: int, hy: int, isDefaultClient: bool)
    requires cur.Some? ==> st.Live(cur.value)
    ensures SceneKept(st, ShownCursor(st, cur, hx, hy, isDefaultClient))
  {
  }

  lemma CursorSame(st: State, s: SurfaceId, c: Client, hx: int, hy: int, mayModify: bool, isDefaultClient: bool, k: K.Stacks)
    requires Same(st, k) && !(st.ptr.focus.Some? && st.ClientOf(st.ptr.focus.value) != c)
    ensures Same(DoSetCursor(st, c, Some(s), hx, hy, mayModify, isDefaultClient),
                 K.Step(k, K.SetCursor(s, mayModify || isDefaultClient)))
  {
    var move := mayModify || isDefaultClient;
    if MayTake(st, s, Cursor) {
      var st1 := SetRole(st, s, Cursor);
      CursorRole(st, s, move, k);
      assert st1.Live(s);
      hide SetRole, ShownCursor, MayTake, Same, SceneKept;
      if move {
        ShownCursorKeeps(st1, Some(s), hx, hy, isDefaultClient);
        KeptSame(st1, ShownCursor(st1, Some(s), hx, hy, isDefaultClient), K.Step(k, K.SetCursor(s, move)));
      }
    } else {
      RefusedSame(st, s, Cursor, k);
    }
  }

  // ------------------------------------------------------------------ requests and events that ask nothing

  lemma MoveKeeps(st: State, x: int, y: int)
    requires Inv(st)
    ensures SceneKept(st, DoPointerMove(st, x, y))
  {
    CheckFocusOnly(MovedTo(st, x, y));
    MoveSame(st, x, y);
    hide PCheckFocus, DoPointerMove, Inv;
  }

  lemma PointerEventsKeep(st: State, op: Op)
    requires Inv(st) && !st.stuck
    requires op.GetPointer? || op.PointerIn? || op.PointerOut? || op.PointerMove? || op.PointerButton?
    ensures SceneKept(st, Step(st, op))
  {
    hide PCheckFocus, PlaceCursor, KSetFocus, PSetFocus, Each, Inv;
    match op
    case GetPointer(c) => CheckFocusOnly(AddPointer(st, c));
    case PointerIn(x, y) => CheckFocusOnly(st.(at := st.at.(entered := true, px := x, py := y)));
    case PointerOut => SetNoFocusOnly(st);
    case PointerMove(x, y) =>
      MoveKeeps(st, x, y);
      hide DoPointerMove;
    case PointerButton(pressed) =>
      if st.ptr.focus.Some? {
        var st1 := st.(log := st.log + Each(st.ptr.focused, Pressing()));
        KSetFocusOnly(st1, st.ptr.focus.value);
      }
  }

  lemma KeyboardRequestsKeep(st: State, op: Op)
    requires op.GetKeyboard? || op.ReleaseKeyboard? || op.KeyEvent? || op.FocusRequest?
    ensures SceneKept(st, Step(st, op))
  {
    hide KSetFocus, KWelcome, KAdopt, MoveFocus, Forget, Each;
    match op
    case GetKeyboard(c) => WelcomeOnly(AddKeyboard(st, c), st.nextRes, c, HoldsKeyboard(st, c));
    case FocusRequest(s) => KSetFocusOnly(st, s);
    case _ =>
  }

  lemma EditsKeep(st: State, op: Op)
    requires op.Geometry? || op.Video? || op.UseXdg? || op.ForgetClient? || op.ReleasePointer?
      || (op.SetCursor? && op.cur.None?)
    ensures SceneKept(st, Step(st, op))
  {
    hide Forget;
  }

  // ------------------------------------------------------------------ whole runs

  lemma ZOrderSame(st: State, s: SurfaceId, z: real, k: K.Stacks)
    requires Same(st, k) && !st.stuck
    ensures Same(Step(st, ZOrder(s, z)), K.Step(k, K.SetZOrder(s, z)))
  {
    hide Put;
  }

  predicate Asks(op: Op) {
    op.CreateSurface? || op.DestroySurface? || op.ZOrder? || op.ShellRole? || op.XdgRole? || (op.SetCursor? && op.cur.Some?)
  }

  lemma AskNothing(st: State, op: Op)
    requires Inv(st) && !Asks(op)
    ensures Asked(st, op) == [] && SceneKept(st, Step(st, op))
  {
    if !st.stuck {
      hide Step, SceneKept, Inv;
      if op.GetPointer? || op.PointerIn? || op.PointerOut? || op.PointerMove? || op.PointerButton? {
        PointerEventsKeep(st, op);
      } else if op.GetKeyboard? || op.ReleaseKeyboard? || op.KeyEvent? || op.FocusRequest? {
        KeyboardRequestsKeep(st, op);
      } else {
        EditsKeep(st, op);
      }
    }
  }

  lemma SurfaceAsks(st: State, op: Op, k: K.Stacks)
    requires Same(st, k) && !st.stuck && (op.CreateSurface? || op.DestroySurface? || op.ZOrder?)
    ensures |Asked(st, op)| == 1 && Same(Step(st, op), K.Step(k, Asked(st, op)[0]))
  {
    match op
    case CreateSurface(c) =>
      CreateSame(st, c, k);
      hide Same, DoCreateSurface, K.Step;
    case DestroySurface(s, byRequest) =>
      if st.Live(s) {
        DestroySame(st, s, byRequest, k);
        hide Same, DoDestroySurface, K.Step;
      } else {
        hide DoDestroySurface;
      }
    case ZOrder(s, z) =>
      ZOrderSame(st, s, z, k);
      hide Same, Step, K.Step;
  }

  lemma RoleAsks(st: State, op: Op, k: K.Stacks)
    requires Same(st, k) && !st.stuck && (op.ShellRole? || op.XdgRole?)
    ensures |Asked(st, op)| == 1 && Same(Step(st, op), K.Step(k, Asked(st, op)[0]))
  {
    var role := if op.ShellRole? then ShellSurface else XdgSurface;
    hide Same, SetRole, KCheckFocus, K.Step, MayTake;
    if !MayTake(st, op.s, role) {
      RefusedSame(st, op.s, role, k);
    } else if op.ShellRole? {
      RoleSame(st, op.s, role, k);
    } else {
      XdgSame(st, op.s, k);
    }
  }

  lemma CursorAsks(st: State, op: Op, k: K.Stacks)
    requires Same(st, k) && !st.stuck && op.SetCursor? && op.cur.Some?
    ensures Asked(st, op) == [] ==> Step(st, op) == st
    ensures Asked(st, op) != [] ==> |Asked(st, op)| == 1 && Same(Step(st, op), K.Step(k, Asked(st, op)[0]))
  {
    if !(st.ptr.focus.Some? && st.ClientOf(st.ptr.focus.value) != op.c) {
      CursorSame(st, op.cur.value, op.c, op.hx, op.hy, op.mayModify, op.isDefaultClient, k);
      hide Same, DoSetCursor, K.Step;
    }
  }

  /** What a step asks of the lists does there what the step does to the scene. */
  lemma AskedSame(st: State, op: Op, base: real, reqs: seq<K.Op>)
    requires Inv(st) && Same(st, K.Run(base, reqs))
    ensures Same(Step(st, op), K.Run(base, reqs + Asked(st, op)))
  {
    var k, asked := K.Run(base, reqs), Asked(st, op);
    assert reqs + [] == reqs;
    if st.stuck {
      StuckStays(st, op);
    } else if !Asks(op) {
      AskNothing(st, op);
      KeptSame(st, Step(st, op), k);
    } else {
      if op.ShellRole? || op.XdgRole? {
        RoleAsks(st, op, k);
      } else if op.SetCursor? {
        CursorAsks(st, op, k);
      } else {
        SurfaceAsks(st, op, k);
      }
      if asked != [] {
        assert asked == [asked[0]] by { hide *; }
        K.RunPush(base, reqs, asked[0]);
      }
    }
    hide *;
  }

  lemma StuckStays(st: State, op: Op)
    requires st.stuck
    ensures Step(st, op) == st && Asked(st, op) == []
  {
  }

  /** Every run of the seat makes a run of the two lists: the same surfaces in the same order, with the
      same roles. */
  lemma {:induction false} SceneFollowsLists(base: real, nested: bool, ops: seq<Op>)
    ensures Same(Run(base, nested, ops), K.Run(base, Requests(base, nested, ops)))
  {
    if ops != [] {
      var before, op := ops[..|ops| - 1], ops[|ops| - 1];
      RunKeepsInv(base, nested, before);
      SceneFollowsLists(base, nested, before);
      AskedSame(Run(base, nested, before), op, base, Requests(base, nested, before));
      hide Step, Same, Asked, K.Run;
    }
  }

  /** After every pointer move and every destruction of a surface the pointer focus is what is seen under
      the pointer, exactly if what is seen there is a target and every hidden target was put lower. */
  lemma FocusIsSeenIff(base: real, nested: bool, ops: seq<Op>, op: Op, shown: set<SurfaceId>)
    requires !Run(base, nested, ops).stuck
    requires op.PointerMove? || (op.DestroySurface? && Run(base, nested, ops).Live(op.s))
    ensures var st := Run(base, nested, ops + [op]);
      var asked := Requests(base, nested, ops + [op]);
      var seen := TopSeen(st.scene, K.Run(base, asked).rend.items, shown, st.at.px, st.at.py);
      st.ptr.focus == seen <==>
        match seen
        case None => forall t :: !HiddenTarget(st.scene, MASTER, shown, st.at.px, st.at.py, t)
        case Some(s) =>
          && Target(st.scene, MASTER, st.at.px, st.at.py, s)
          && forall t :: HiddenTarget(st.scene, MASTER, shown, st.at.px, st.at.py, t) ==>
               K.Below(K.CompKey(base, asked, t), K.CompKey(base, asked, s))
  {
    var st, asked := Run(base, nested, ops + [op]), Requests(base, nested, ops + [op]);
    assert (ops + [op])[..|ops|] == ops;
    assert st == Step(Run(base, nested, ops), op);
    SceneFollowsLists(base, nested, ops + [op]);
    PointerFocusIsHit(base, nested, ops, op);
    assert Shows(st.scene, K.Run(base, asked));
    hide *;
    HitIsSeenIff(base, asked, st.scene, MASTER, shown, st.at.px, st.at.py);
  }
}
