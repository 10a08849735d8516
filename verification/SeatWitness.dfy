/**
 * Four short runs that show the exceptions stated in SeatSafety.dfy and SeatDelivery.dfy are reached by
 * ordinary clients.
 */
module SeatWitness {
  import opened Seqs
  import opened ZLists
  import opened HitTest
  import opened Devices
  import opened Seat
  import opened SeatDelivery
  import opened SeatSafety

  lemma RunPush(base: real, nested: bool, ops: seq<Op>, op: Op)
    ensures Run(base, nested, ops + [op]) == Step(Run(base, nested, ops), op)
  {
    assert (ops + [op])[..|ops|] == ops;
  }

  /** What the keyboard handlers look at. */
  ghost predicate Looks(st: State, kbd: Device, clientOf: map<Resource, Client>, latest: map<Client, SurfaceId>,
                        owner: map<SurfaceId, Client>) {
    && !st.stuck && st.known.usesXdg == {} && st.kbd == kbd && st.clientOf == clientOf && st.known.latest == latest
    && st.nextRes == |clientOf| && st.scene.info.Keys == owner.Keys
    && forall s :: s in owner ==> st.ClientOf(s) == owner[s]
  }

  lemma MoveSingle(r: Resource, f: Ref, clientOf: map<Resource, Client>, c: Client)
    requires IsOf(clientOf, Some(c), r)
    ensures MoveFocus(Device([r], [], f), clientOf, Some(c)) == Device([], [r], f)
    ensures MoveFocus(Device([], [r], f), clientOf, None) == Device([r], [], f)
  {
    assert Device([r], [], f).All() == [r] && Device([], [r], f).All() == [r];
    FilterSingle(r, Ours(clientOf, Some(c)));
    FilterSingle(r, Others(clientOf, Some(c)));
    FilterSingle(r, Ours(clientOf, None));
    FilterSingle(r, Others(clientOf, None));
  }

  lemma FilterSingle(r: Resource, p: Resource -> bool)
    ensures Filter([r], p) == if p(r) then [r] else []
  {
    assert [r][1..] == [];
  }

  /** The first keyboard of the first client is adopted. */
  lemma FirstKeyboard(st: State)
    requires Looks(st, Device([], [], None), map[], map[], map[])
    ensures Looks(Step(st, GetKeyboard(1)), Device([], [0], None), map[0 := 1], map[], map[])
  {
    hide MoveFocus, KSetFocus, Observe;
    var st1 := AddKeyboard(st, 1);
    assert st1.kbd == Device([0], [], None) by { assert [0] + [] == [0]; }
    assert st1.clientOf == map[0 := 1];
    MoveSingle(0, None, st1.clientOf, 1);
    assert KWelcome(st1, 0, 1, false) == st1;
    assert Step(st, GetKeyboard(1)) == KAdopt(st1);
  }

  /** Its first surface takes the focus. */
  lemma FirstSurface(st: State)
    requires Looks(st, Device([], [0], None), map[0 := 1], map[], map[]) && st.nextSurface == 0
    ensures Looks(Step(st, CreateSurface(1)), Device([], [0], Some(0)), map[0 := 1], map[1 := 0], map[0 := 1])
    ensures Step(st, CreateSurface(1)).nextSurface == 1
  {
    hide MoveFocus, Put, Each, BlurLog;
    var st1 := AddSurface(st, 1);
    assert st1.ClientOf(0) == 1 && st1.clientOf == map[0 := 1];
    assert 0 in st1.kbd.focused;
    assert ScanEnds([0], st1.clientOf, 1);
    MoveSingle(0, None, st1.clientOf, 1);
    MoveSingle(0, Some(0), st1.clientOf, 1);
    var moved := st1.(kbd := Device([0], [], None));
    assert KCheckFocus(st1, 0) == KSetFocus(moved, 0) by { hide KSetFocus; }
    assert moved.kbd.(focus := Some(0)) == Device([0], [], Some(0));
    assert KSetFocus(moved, 0).kbd == Device([], [0], Some(0));
  }

  /** A second keyboard joins the focus list. */
  lemma SecondKeyboard(st: State)
    requires Looks(st, Device([], [0], Some(0)), map[0 := 1], map[1 := 0], map[0 := 1])
    ensures Looks(Step(st, GetKeyboard(1)), Device([], [1, 0], Some(0)), map[0 := 1, 1 := 1], map[1 := 0], map[0 := 1])
  {
    var st1 := AddKeyboard(st, 1);
    assert st1.kbd == Device([], [1, 0], Some(0)) by { assert [1] + [0] == [1, 0]; }
    assert st1.clientOf == map[0 := 1, 1 := 1];
    hide Observe, Safe;
    assert Step(st, GetKeyboard(1)) == st1.(log := st1.log + [Enter(Keyboard, 1, 0)]);
  }

  lemma CheckFocusLeavesKeyboard(st: State)
    ensures PCheckFocus(st) == st.(ptr := PCheckFocus(st).ptr, log := PCheckFocus(st).log, cursor := PCheckFocus(st).cursor)
  {
    hide Found, MoveFocus;
  }

  /** The surface goes away; both keyboards stay on the focus list. */
  lemma SurfaceGoesAway(st: State)
    requires Looks(st, Device([], [1, 0], Some(0)), map[0 := 1, 1 := 1], map[1 := 0], map[0 := 1])
    ensures Looks(Step(st, DestroySurface(0, true)), Device([], [1, 0], None), map[0 := 1, 1 := 1], map[], map[])
  {
    hide PCheckFocus, Drop;
    assert 0 in map[0 := 1].Keys;
    assert st.Live(0) by { assert 0 in st.scene.info.Keys; }
    var st1 := Unlink(st, 0);
    assert st1.known.latest == map[];
    assert st1.scene.info.Keys == {};
    CheckFocusLeavesKeyboard(st1);
  }

  /** The next surface of the client hangs the compositor. */
  lemma NextSurfaceHangs(st: State)
    requires Looks(st, Device([], [1, 0], None), map[0 := 1, 1 := 1], map[], map[])
    ensures Step(st, CreateSurface(1)).stuck
  {
    var st1 := AddSurface(st, 1);
    var list := st1.kbd.focused;
    assert st1.ClientOf(st.nextSurface) == 1;
    assert list[0] in list && list[0] in list[..1];
    assert list[..|list| - 1] == list[..1];
    assert HasClient(list, st1.clientOf, 1) && !ScanEnds(list, st1.clientOf, 1);
    hide MoveFocus;
  }

  /** A second surface while the first has the focus. */
  lemma SecondSurface(st: State)
    requires Looks(st, Device([], [0], Some(0)), map[0 := 1], map[1 := 0], map[0 := 1]) && st.nextSurface == 1
    ensures Looks(Step(st, CreateSurface(1)), Device([], [0], Some(0)), map[0 := 1], map[1 := 1], map[0 := 1, 1 := 1])
  {
    var st1 := AddSurface(st, 1);
    assert Step(st, CreateSurface(1)) == st1;
    assert st1.scene.info.Keys == {0, 1};
  }

  function Common(): seq<Op> { [] + [GetKeyboard(1)] + [CreateSurface(1)] }

  lemma AfterCommon()
    ensures Looks(Run(0.5, false, Common()), Device([], [0], Some(0)), map[0 := 1], map[1 := 0], map[0 := 1])
    ensures Run(0.5, false, Common()).nextSurface == 1
  {
    hide Step;
    var st0 := Run(0.5, false, []);
    assert Looks(st0, Device([], [], None), map[], map[], map[]);
    RunPush(0.5, false, [], GetKeyboard(1));
    RunPush(0.5, false, [] + [GetKeyboard(1)], CreateSurface(1));
    FirstKeyboard(st0);
    assert Step(st0, GetKeyboard(1)).nextSurface == 0 by { FirstKeyboardSurfaces(st0); }
    FirstSurface(Step(st0, GetKeyboard(1)));
  }

  lemma FirstKeyboardSurfaces(st: State)
    requires st.kbd.focus.None? && st.known.latest == map[]
    ensures Step(st, GetKeyboard(1)).nextSurface == st.nextSurface
  {
  }

  /** Two keyboards, the focused surface destroyed, another one created: the compositor hangs. */
  lemma HangReached()
    ensures Run(0.5, false, Common() + [GetKeyboard(1)] + [DestroySurface(0, true)] + [CreateSurface(1)]).stuck
  {
    hide Step;
    AfterCommon();
    var ops := Common();
    RunPush(0.5, false, ops, GetKeyboard(1));
    RunPush(0.5, false, ops + [GetKeyboard(1)], DestroySurface(0, true));
    RunPush(0.5, false, ops + [GetKeyboard(1)] + [DestroySurface(0, true)], CreateSurface(1));
    var st := Run(0.5, false, ops);
    SecondKeyboard(st);
    SurfaceGoesAway(Step(st, GetKeyboard(1)));
    NextSurfaceHangs(Step(Step(st, GetKeyboard(1)), DestroySurface(0, true)));
  }

  /** Two surfaces, the first in focus, then a second keyboard, then focus to the second surface:
      the client is told to leave a surface that keyboard never entered. */
  lemma WrongLeaveReached()
    ensures !Safe(Keyboard, Run(0.5, false, Common() + [CreateSurface(1)] + [GetKeyboard(1)] + [FocusRequest(1)]).log)
  {
    AfterCommon();
    var ops := Common();
    var st := Run(0.5, false, ops);
    SecondSurface(st);
    RunKeepsInv(0.5, false, ops + [CreateSurface(1)]);
    RunPush(0.5, false, ops, CreateSurface(1));
    RunPush(0.5, false, ops + [CreateSurface(1)], GetKeyboard(1));
    RunPush(0.5, false, ops + [CreateSurface(1)] + [GetKeyboard(1)], FocusRequest(1));
    hide Step, Inv, Safe, Run;
    ImpoliteBreaksProtocol(Step(st, CreateSurface(1)), 1);
  }

  // ------------------------------------------------------------------ a pointer that is told nothing

  /** One surface of client 1, ten by ten, and the pointer moved onto it. */
  function Onto(): seq<Op> {
    [] + [CreateSurface(1)] + [Geometry(0, Rect(0, 0, 10, 10))] + [PointerIn(5, 5)]
  }

  /** What the pointer handlers look at. */
  ghost predicate Alone(st: State, area: Rect) {
    && !st.stuck && st.cursor == None && st.scene.list.items == [0] && !st.cfg.nested && !st.at.ownCursor
    && st.kbd == Device([], [], None)
    && st.scene.info == map[0 := Surface(1, MASTER, NoRole, false, area)]
  }

  lemma FirstAlone()
    ensures var st := Step(Start(0.5, false), CreateSurface(1)); Alone(st, DEFAULT_AREA) && st.nextSurface == 1
  {
    var st := Start(0.5, false);
    assert Remove([], 0) == [];
    assert Put(st.scene.list, 0, 0.5).items == [0];
    var st1 := AddSurface(st, 1);
    assert KCheckFocus(st1, 0) == st1 by {
      assert forall c :: !HasClient([], st1.clientOf, c);
    }
  }

  lemma OntoRun()
    ensures var st := Run(0.5, false, Onto()); Alone(st, Rect(0, 0, 10, 10)) && st.at.entered && st.nextSurface == 1
  {
    var c1 := [] + [CreateSurface(1)];
    RunPush(0.5, false, [], CreateSurface(1));
    RunPush(0.5, false, c1, Geometry(0, Rect(0, 0, 10, 10)));
    RunPush(0.5, false, c1 + [Geometry(0, Rect(0, 0, 10, 10))], PointerIn(5, 5));
    assert Run(0.5, false, []) == Start(0.5, false);
    FirstAlone();
    hide Run, DoCreateSurface;
  }

  lemma MoveKeepsScene(st: State, x: int, y: int)
    requires Alone(st, Rect(0, 0, 10, 10))
    ensures var st' := DoPointerMove(st, x, y); Alone(st', Rect(0, 0, 10, 10)) && st'.at.entered == st.at.entered
  {
    var st0 := st.(at := st.at.(px := x, py := y));
    CheckFocusLeavesKeyboard(st0);
    NoCursorAppears(st0);
    hide PCheckFocus, Each;
  }

  lemma NoCursorAppears(st: State)
    requires st.cursor == None
    ensures PCheckFocus(st).cursor == None
  {
    hide Found, Give, GiveLog, BlurLog;
  }

  lemma UnderPointer(st: State, x: int, y: int)
    requires Alone(st, Rect(0, 0, 10, 10)) && 0 <= x < 10 && 0 <= y < 10
    ensures Wanted(st.scene, MASTER, x, y) == Some(0)
  {
    var items, sc := st.scene.list.items, st.scene;
    assert items[..0] == [];
    assert !RoledHits(sc, MASTER, x, y)(0) && PlainHits(sc, MASTER, x, y)(0);
    assert TopMost(items, RoledHits(sc, MASTER, x, y)) == TopMost([], RoledHits(sc, MASTER, x, y)) == None;
    assert TopMost(items, PlainHits(sc, MASTER, x, y)) == Some(0);
  }

  /** The pointer is on a surface of the client, which has the focus; its new pointer object is not told. */
  lemma SilentPointerReached()
    ensures var st := Run(0.5, false, Onto() + [PointerMove(5, 5)]);
      && st.ptr.focus == Some(0) && st.ClientOf(0) == 1
      && st.nextRes !in Inside(Run(0.5, false, Onto() + [PointerMove(5, 5)] + [GetPointer(1)]))
  {
    hide *;
    var st0, st := Run(0.5, false, Onto()), Run(0.5, false, Onto() + [PointerMove(5, 5)]);
    OntoRun();
    assert !st0.stuck by { AloneRuns(st0); }
    RunPush(0.5, false, Onto(), PointerMove(5, 5));
    RunPush(0.5, false, Onto() + [PointerMove(5, 5)], GetPointer(1));
    MoveIs(st0);
    MoveKeepsScene(st0, 5, 5);
    PointerFocusIsHit(0.5, false, Onto(), PointerMove(5, 5));
    UnderPointer(st, 5, 5);
    GetIs(st);
    RunKeepsInv(0.5, false, Onto() + [PointerMove(5, 5)]);
    NewPointerEntersIff(st, 1);
  }

  lemma AloneRuns(st: State)
    requires Alone(st, Rect(0, 0, 10, 10))
    ensures !st.stuck && st.ClientOf(0) == 1
  {
  }

  lemma MoveIs(st: State)
    requires !st.stuck
    ensures Step(st, PointerMove(5, 5)) == DoPointerMove(st, 5, 5)
  {
  }

  lemma GetIs(st: State)
    requires Alone(st, Rect(0, 0, 10, 10))
    ensures Step(st, GetPointer(1)) == DoGetPointer(st, 1) && st.ClientOf(0) == 1
  {
  }

  // ------------------------------------------------------------------ a focus while the pointer is out

  lemma PointerGoesOut(st: State)
    requires Alone(st, Rect(0, 0, 10, 10))
    ensures var st' := Step(st, PointerOut);
      && Alone(st', Rect(0, 0, 10, 10)) && st'.nextSurface == st.nextSurface
      && !st'.at.entered && st'.at.px == st'.at.py == 0
  {
    hide Give, GiveLog, BlurLog, MoveFocus;
  }

  lemma PutAndRemove(s: SurfaceId, t: SurfaceId, z: map<SurfaceId, real>, lvl: real)
    requires s != t
    ensures Remove(Put(ZList([s], z), t, lvl).items, t) == [s]
  {
    var k := SlotFor([s], z[t := lvl], lvl);
    assert Remove([s], t) == [s];
    assert Put(ZList([s], z), t, lvl).items == [s][..k] + [t] + [s][k..];
    assert [s][..0] + [t] + [s][0..] == [t, s] && [s][..1] + [t] + [s][1..] == [s, t];
    assert [t, s][1..] == [s] && [s, t][1..] == [t] && [t][1..] == [];
    assert Remove([t], t) == [];
    assert [s] + [] == [s];
  }

  /** A second surface comes and goes. */
  lemma PassingSurface(st: State)
    requires Alone(st, Rect(0, 0, 10, 10)) && st.nextSurface == 1
    ensures var st1 := Step(st, CreateSurface(1));
      && !st1.stuck && st1.Live(1) && st1.at == st.at && Alone(Unlink(st1, 1), Rect(0, 0, 10, 10))
  {
    var st1 := AddSurface(st, 1);
    assert KCheckFocus(st1, 1) == st1 by {
      hide Put;
      assert forall c :: !HasClient([], st1.clientOf, c);
    }
    PutAndRemove(0, 1, st.scene.list.z, st.cfg.base);
    hide Put, Remove, KCheckFocus;
    assert st.scene.list == ZList([0], st.scene.list.z);
    assert Step(st, CreateSurface(1)) == st1;
    assert Unlink(st1, 1).scene.info == st.scene.info;
  }

  /** The pointer is out, another surface comes and goes: the one at the origin gets the focus. */
  lemma FocusWhileOutReached()
    ensures var st := Run(0.5, false, Onto() + [PointerOut] + [CreateSurface(1)] + [DestroySurface(1, true)]);
      !st.at.entered && st.ptr.focus == Some(0)
  {
    hide *;
    var ops := Onto() + [PointerOut];
    var st0, st := Run(0.5, false, Onto()), Run(0.5, false, ops);
    OntoRun();
    RunPush(0.5, false, Onto(), PointerOut);
    PointerGoesOut(st0);
    PassingSurface(st);
    RunPush(0.5, false, ops, CreateSurface(1));
    var st1 := Run(0.5, false, ops + [CreateSurface(1)]);
    RunPush(0.5, false, ops + [CreateSurface(1)], DestroySurface(1, true));
    RunKeepsInv(0.5, false, ops + [CreateSurface(1)]);
    DestroyFinds(st1, 1, true);
    UnderPointer(Unlink(st1, 1), 0, 0);
    DestroyIs(st1);
  }

  lemma DestroyIs(st: State)
    requires !st.stuck && st.Live(1)
    ensures Step(st, DestroySurface(1, true)) == DoDestroySurface(st, 1, true)
    ensures Unlink(st, 1).at == st.at
  {
    hide PCheckFocus;
  }
}
