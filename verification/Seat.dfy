/**
 * Focus routing: surfaces, pointer and keyboard of one compositor as a state machine.  Its steps
 * are the client requests and input events of westeros-compositor.cpp (not a repeater, no virtual
 * compositors).  These functions say what each handler does; SeatSafety.dfy proves properties of
 * their runs and SeatHandlers.dfy refines them with the imperative handlers.
 */
module Seat {
  import opened Seqs
  import opened ZLists
  import opened HitTest
  import opened Devices

  const MASTER: CompositorId := 0
  const DEFAULT_AREA := Rect(0, 0, 0, 0)

  datatype Config = Config(
    base: real,                       // z-order of a new surface
    nested: bool)

  /** Where the pointer is and how its cursor is shown. */
  datatype At = At(
    hotX: int, hotY: int,
    px: int, py: int,                 // pointerX, pointerY
    entered: bool,
    ownCursor: bool)                  // dcDefaultCursor

  /** clientInfoMap. */
  datatype Known = Known(
    latest: map<Client, SurfaceId>,   // the surface of each client, when not null
    usesXdg: set<Client>)

  datatype State = State(
    scene: Scene,
    cfg: Config,
    nextSurface: SurfaceId,
    ptr: Device,
    kbd: Device,
    clientOf: map<Resource, Client>,  // client of every pointer and keyboard object made so far
    nextRes: Resource,
    cursor: Ref,        // pointerSurface
    at: At,
    known: Known,
    log: seq<Msg>,                    // what was sent, in order
    stuck: bool)                      // the compositor thread is in an endless loop
  {
    function ClientOf(s: SurfaceId): Client { scene.Of(s).client }
    predicate Live(s: SurfaceId) { s in scene.info }
  }

  function Start(base: real, nested: bool): State {
    State(Scene(ZList([], map[]), map[]), Config(base, nested), 0, Device([], [], None), Device([], [], None), map[], 0,
          None, At(0, 0, 0, 0, false, false), Known(map[], {}), [], false)
  }

  datatype Op =
    | CreateSurface(c: Client)
    | DestroySurface(s: SurfaceId, byRequest: bool)
    | Geometry(s: SurfaceId, area: Rect)
    | ZOrder(s: SurfaceId, z: real)
    | Video(s: SurfaceId, on: bool)                // get_vpc_surface, or its destruction
    | ShellRole(s: SurfaceId)
    | UseXdg(c: Client)
    | XdgRole(s: SurfaceId)
    | ForgetClient(c: Client)                      // its wl_compositor object is gone
    | GetPointer(c: Client)
    | ReleasePointer(r: Resource)
    | GetKeyboard(c: Client)
    | ReleaseKeyboard(r: Resource)
    | SetCursor(c: Client, cur: Ref, hx: int, hy: int, mayModify: bool, isDefaultClient: bool)
    | PointerIn(x: int, y: int)
    | PointerOut
    | PointerMove(x: int, y: int)
    | PointerButton(pressed: bool)
    | KeyEvent
    | FocusRequest(s: SurfaceId)                   // simple shell set_focus, WstCompositorFocusClientById

  // ------------------------------------------------------------------ pointer

  /** wstPointerSetFocus: leave what was in focus (hiding the cursor if it is of that client), then
      enter the new surface, or hide the cursor when there is none. */
  function PSetFocus(st: State, target: Ref): State {
    if st.ptr.focus == target then st
    else
      var left := st.ptr.focus.Some? && st.cursor.Some? && st.ClientOf(st.cursor.value) == st.ClientOf(st.ptr.focus.value);
      var cursor := if left then None else st.cursor;
      match target
      case Some(s) =>
        var d := Give(st.ptr, s, st.clientOf, st.ClientOf(s));
        st.(ptr := d, cursor := cursor, log := GiveLog(Pointer, st.ptr, d, s, st.log))
      case None =>
        st.(ptr := Blur(st.ptr), cursor := if st.at.ownCursor then cursor else None, log := BlurLog(Pointer, st.ptr, st.log))
  }

  function PCheckFocus(st: State): State {
    PSetFocus(st, Found(st.scene, MASTER, st.at.px, st.at.py))
  }

  function WithInfo(st: State, s: SurfaceId, surf: Surface): State {
    st.(scene := st.scene.(info := st.scene.info[s := surf]))
  }

  /** wstPointerUpdatePosition: the cursor surface follows the pointer. */
  function PlaceCursor(st: State): State {
    match st.cursor
    case None => st
    case Some(s) =>
      var cur := st.scene.Of(s);
      WithInfo(st, s, cur.(area := Rect(st.at.px - st.at.hotX, st.at.py - st.at.hotY, cur.area.w, cur.area.h)))
  }

  // ------------------------------------------------------------------ keyboard

  /** wstKeyboardSetFocus with a surface.  A client without keyboards does not take the focus
      list away from one that has them. */
  function KSetFocus(st: State, s: SurfaceId): State {
    var c := st.ClientOf(s);
    if st.kbd.focus == Some(s) then st
    else if !HasClient(st.kbd.focused, st.clientOf, c) && !HasClient(st.kbd.idle, st.clientOf, c) && st.kbd.focused != []
    then st
    else
      var d := Give(st.kbd, s, st.clientOf, c);
      st.(kbd := d, log := GiveLog(Keyboard, st.kbd, d, s, st.log))
  }

  /** The scan at line 9188 splices the list it walks.  It ends only if the first match is the last
      entry of the focus list; see FocusScan.dfy. */
  predicate ScanEnds(list: seq<Resource>, clientOf: map<Resource, Client>, c: Client) {
    list != [] && !HasClient(list[..|list| - 1], clientOf, c)
  }

  function KCheckFocus(st: State, s: SurfaceId): State {
    var c := st.ClientOf(s);
    if st.kbd.focus.Some? then st
    else if c in st.known.usesXdg && st.scene.Of(s).role != XdgSurface then st
    else if HasClient(st.kbd.idle, st.clientOf, c) then KSetFocus(st, s)
    else if HasClient(st.kbd.focused, st.clientOf, c) then
      var moved := st.(kbd := MoveFocus(st.kbd, st.clientOf, None));
      if ScanEnds(st.kbd.focused, st.clientOf, c) then KSetFocus(moved, s) else moved.(stuck := true)
    else st
  }

  /** After a keyboard is made: give the new object the focus its client has, or take the focus. */
  function KWelcome(st: State, r: Resource, c: Client, hadFocus: bool): State {
    if c !in st.known.latest then st
    else if st.kbd.focus.None? then KSetFocus(st, st.known.latest[c])
    else if hadFocus then st.(log := st.log + [Enter(Keyboard, r, st.known.latest[c])])
    else st
  }

  /** Without any focus, the keyboards of the newest object's client are made to get the keys. */
  function KAdopt(st: State): State {
    if st.kbd.focus.None? && st.kbd.focused == [] && st.kbd.idle != [] && st.kbd.idle[0] in st.clientOf
    then st.(kbd := MoveFocus(st.kbd, st.clientOf, Some(st.clientOf[st.kbd.idle[0]])))
    else st
  }

  /** Does the client own the surface in keyboard focus? */
  predicate HoldsKeyboard(st: State, c: Client) {
    st.kbd.focus.Some? && st.ClientOf(st.kbd.focus.value) == c
  }

  // ------------------------------------------------------------------ the requests

  function NewSurface(c: Client): Surface { Surface(c, MASTER, NoRole, false, DEFAULT_AREA) }

  function AddSurface(st: State, c: Client): State {
    var s := st.nextSurface;
    st.(scene := Scene(Put(st.scene.list, s, st.cfg.base), st.scene.info[s := NewSurface(c)]), nextSurface := s + 1,
        known := st.known.(latest := st.known.latest[c := s]), log := st.log + [SurfaceNew(s, c)])
  }

  function DoCreateSurface(st: State, c: Client): State {
    KCheckFocus(AddSurface(st, c), st.nextSurface)
  }

  function WithoutFocus(d: Device, s: SurfaceId): Device {
    if d.focus == Some(s) then d.(focus := None) else d
  }

  /** No client info names the surface any more. */
  function Unlisted(latest: map<Client, SurfaceId>, s: SurfaceId): map<Client, SurfaceId> {
    map c | c in latest && latest[c] != s :: latest[c]
  }

  /** wstSurfaceDestroy up to the point where the surface is freed. */
  function Unlink(st: State, s: SurfaceId): State {
    var conceal := (st.ptr.focus == Some(s) && !st.at.ownCursor) || st.cursor == Some(s);
    st.(log := st.log + [SurfaceGone(s)],
        kbd := WithoutFocus(st.kbd, s),
        ptr := WithoutFocus(st.ptr, s),
        cursor := if conceal then None else st.cursor,
        scene := Scene(Drop(st.scene.list, s), st.scene.info - {s}),
        known := st.known.(latest := Unlisted(st.known.latest, s)))
  }

  function DoDestroySurface(st: State, s: SurfaceId, byRequest: bool): State {
    var st' := PCheckFocus(Unlink(st, s));
    if byRequest then st'.(known := st'.known.(latest := st'.known.latest - {st.ClientOf(s)})) else st'
  }

  function SetRole(st: State, s: SurfaceId, role: Role): State {
    WithInfo(st, s, st.scene.Of(s).(role := role))
  }

  predicate MayTake(st: State, s: SurfaceId, role: Role) {
    st.Live(s) && (st.scene.Of(s).role == NoRole || st.scene.Of(s).role == role)
  }

  /** A new object goes to the front of one of the lists. */
  function Listed(d: Device, r: Resource, focused: bool): Device {
    if focused then d.(focused := [r] + d.focused) else d.(idle := [r] + d.idle)
  }

  function AddPointer(st: State, c: Client): State {
    var r := st.nextRes;
    st.(nextRes := r + 1, clientOf := st.clientOf[r := c], log := st.log + [Bind(Pointer, r, c)],
        ptr := Listed(st.ptr, r, false))
  }

  function DoGetPointer(st: State, c: Client): State {
    if st.at.entered then PCheckFocus(AddPointer(st, c)) else AddPointer(st, c)
  }

  function AddKeyboard(st: State, c: Client): State {
    var r := st.nextRes;
    st.(nextRes := r + 1, clientOf := st.clientOf[r := c], log := st.log + [Bind(Keyboard, r, c)],
        kbd := Listed(st.kbd, r, HoldsKeyboard(st, c)))
  }

  function DoGetKeyboard(st: State, c: Client): State {
    KAdopt(KWelcome(AddKeyboard(st, c), st.nextRes, c, HoldsKeyboard(st, c)))
  }

  function ShownCursor(st: State, cur: Ref, hx: int, hy: int, isDefaultClient: bool): State {
    var st' := st.(at := st.at.(ownCursor := st.at.ownCursor || isDefaultClient), cursor := cur);
    if cur.Some? then PlaceCursor(st'.(at := st'.at.(hotX := hx, hotY := hy))) else st'
  }

  function DoSetCursor(st: State, c: Client, cur: Ref, hx: int, hy: int, mayModify: bool,
                       isDefaultClient: bool): State {
    if cur.Some? && st.ptr.focus.Some? && st.ClientOf(st.ptr.focus.value) != c then st
    else if cur.Some? && !MayTake(st, cur.value, Cursor) then st
    else
      var st' := if cur.Some? then SetRole(st, cur.value, Cursor) else st;
      if mayModify || isDefaultClient then ShownCursor(st', cur, hx, hy, isDefaultClient) else st'
  }

  function DoPointerIn(st: State, x: int, y: int): State {
    if st.cfg.nested then PCheckFocus(st.(at := st.at.(entered := true, px := x, py := y))) else st.(at := st.at.(entered := true))
  }

  function DoPointerOut(st: State): State {
    if st.at.ownCursor then st
    else PSetFocus(st, None).(cursor := None, at := st.at.(px := 0, py := 0, entered := false))
  }

  function DoPointerMove(st: State, x: int, y: int): State {
    var st' := PCheckFocus(st.(at := st.at.(px := x, py := y)));
    var moved := if st'.ptr.focus.Some? then st'.(log := st'.log + Each(st'.ptr.focused, Moving())) else st';
    if st'.ptr.focus.Some? || st'.at.ownCursor then PlaceCursor(moved) else moved
  }

  function DoPointerButton(st: State, pressed: bool): State {
    match st.ptr.focus
    case None => st
    case Some(s) =>
      var st' := st.(log := st.log + Each(st.ptr.focused, Pressing()));
      if pressed then KSetFocus(st', s) else st'
  }

  function DoKeyEvent(st: State): State {
    st.(log := st.log + Each(st.kbd.focused, Typing()))
  }

  /** One request or event.  Requests naming something that does not exist cannot reach a handler. */
  function Step(st: State, op: Op): State {
    if st.stuck then st
    else match op
      case CreateSurface(c) => DoCreateSurface(st, c)
      case DestroySurface(s, byRequest) => if st.Live(s) then DoDestroySurface(st, s, byRequest) else st
      case Geometry(s, area) => if st.Live(s) then WithInfo(st, s, st.scene.Of(s).(area := area)) else st
      case ZOrder(s, z) => if st.Live(s) then st.(scene := st.scene.(list := Put(st.scene.list, s, z))) else st
      case Video(s, on) => if st.Live(s) then WithInfo(st, s, st.scene.Of(s).(hasVpc := on)) else st
      case ShellRole(s) => if MayTake(st, s, ShellSurface) then SetRole(st, s, ShellSurface) else st
      case UseXdg(c) => st.(known := st.known.(usesXdg := st.known.usesXdg + {c}))
      case XdgRole(s) => if MayTake(st, s, XdgSurface) then KCheckFocus(SetRole(st, s, XdgSurface), s) else st
      case ForgetClient(c) => st.(known := Known(st.known.latest - {c}, st.known.usesXdg - {c}))
      case GetPointer(c) => DoGetPointer(st, c)
      case ReleasePointer(r) =>
        if r in st.ptr.All() then st.(ptr := Forget(st.ptr, r), log := st.log + [Unbind(Pointer, r)]) else st
      case GetKeyboard(c) => DoGetKeyboard(st, c)
      case ReleaseKeyboard(r) =>
        if r in st.kbd.All() then st.(kbd := Forget(st.kbd, r), log := st.log + [Unbind(Keyboard, r)]) else st
      case SetCursor(c, cur, hx, hy, mayModify, isDefaultClient) => DoSetCursor(st, c, cur, hx, hy, mayModify, isDefaultClient)
      case PointerIn(x, y) => DoPointerIn(st, x, y)
      case PointerOut => DoPointerOut(st)
      case PointerMove(x, y) => DoPointerMove(st, x, y)
      case PointerButton(pressed) => DoPointerButton(st, pressed)
      case KeyEvent => DoKeyEvent(st)
      case FocusRequest(s) => if st.Live(s) then KSetFocus(st, s) else st
  }

  function Run(base: real, nested: bool, ops: seq<Op>): State {
    if ops == [] then Start(base, nested) else Step(Run(base, nested, ops[..|ops| - 1]), ops[|ops| - 1])
  }
}
