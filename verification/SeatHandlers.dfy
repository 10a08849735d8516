/**
 * The handlers themselves: fields updated in place, lists walked by loops, messages sent one at a
 * time.  Each is proved to do what the functions of Seat.dfy say, so the properties of runs proved
 * in SeatSafety.dfy hold of sequences of handler calls.
 */
module SeatHandlers {
  import opened Seqs
  import opened ZLists
  import opened HitTest
  import opened Devices
  import opened Seat
  import opened SeatSafety

  class Compositor {
    const base: real
    const nested: bool
    const surfaces: SurfaceVector
    const pointer: InputDevice
    const keyboard: InputDevice
    var info: map<SurfaceId, Surface>
    var nextSurface: SurfaceId
    var clientOf: map<Resource, Client>
    var nextRes: Resource
    var pointerSurface: Ref
    var hotSpotX: int
    var hotSpotY: int
    var pointerX: int
    var pointerY: int
    var entered: bool
    var dcDefaultCursor: bool
    var clientSurface: map<Client, SurfaceId>
    var usesXdgShell: set<Client>
    var wire: seq<Msg>
    var stuck: bool

    ghost predicate Valid() {
      pointer != keyboard
    }

    ghost function View(): State
      reads this, surfaces, pointer, keyboard
    {
      State(Scene(surfaces.View(), info), Config(base, nested), nextSurface, pointer.View(), keyboard.View(), clientOf, nextRes,
            pointerSurface, At(hotSpotX, hotSpotY, pointerX, pointerY, entered, dcDefaultCursor),
            Known(clientSurface, usesXdgShell), wire, stuck)
    }

    constructor (base: real, nested: bool)
      ensures Valid() && View() == Start(base, nested)
      ensures fresh(surfaces) && fresh(pointer) && fresh(keyboard)
    {
      this.base, this.nested := base, nested;
      surfaces := new SurfaceVector();
      pointer := new InputDevice();
      keyboard := new InputDevice();
      info, nextSurface, clientOf, nextRes := map[], 0, map[], 0;
      pointerSurface, hotSpotX, hotSpotY, pointerX, pointerY := None, 0, 0, 0, 0;
      entered, dcDefaultCursor, clientSurface, usesXdgShell := false, false, map[], {};
      wire, stuck := [], false;
    }

    function SurfaceOf(s: SurfaceId): (r: Surface)
      reads this, surfaces
      ensures r == Scene(surfaces.View(), info).Of(s)
    {
      if s in info then info[s] else Surface(0, 0, NoRole, false, Rect(0, 0, 0, 0))
    }

    /** wl_resource_for_each( resource, list ) send( resource ) */
    method SendEach(list: seq<Resource>, m: Resource -> Msg)
      modifies this`wire
      ensures wire == old(wire) + Each(list, m)
    {
      for i := 0 to |list|
        invariant wire == old(wire) + Each(list[..i], m)
      {
        assert list[..i + 1] == list[..i] + [list[i]];
        EachLast(list[..i + 1], m);
        wire := wire + [m(list[i])];
      }
      assert list[..|list|] == list;
    }

    // ---------------------------------------------------------------- pointer

    method PointerSetFocus(target: Ref)
      requires Valid()
      modifies this, pointer
      ensures View() == PSetFocus(old(View()), target)
    {
      hide MoveFocus, Each;
      if pointer.focus == target { return; }
      if pointer.focus.Some? {
        var left := pointer.focus.value;
        SendEach(pointer.focusResourceList, Leaving(Pointer, left));
        pointer.focus := None;
        if pointerSurface.Some? && SurfaceOf(pointerSurface.value).client == SurfaceOf(left).client {
          pointerSurface := None;
        }
      }
      pointer.focus := target;
      if target.Some? {
        pointer.MoveFocusToClient(clientOf, Some(SurfaceOf(target.value).client));
        SendEach(pointer.focusResourceList, Entering(Pointer, target.value));
      } else if !dcDefaultCursor {
        pointerSurface := None;
      }
    }

    method PointerCheckFocus()
      requires Valid()
      modifies this, pointer
      ensures View() == PCheckFocus(old(View()))
    {
      hide PSetFocus, Found;
      var hit := GetSurfaceFromPoint(Scene(ZList(surfaces.surfaces, surfaces.zorder), info), MASTER, pointerX, pointerY);
      PointerSetFocus(hit);
    }

    method PointerUpdatePosition()
      modifies this`info
      ensures View() == PlaceCursor(old(View()))
    {
      if pointerSurface.Some? {
        var cur := SurfaceOf(pointerSurface.value);
        info := info[pointerSurface.value :=
          cur.(area := Rect(pointerX - hotSpotX, pointerY - hotSpotY, cur.area.w, cur.area.h))];
      }
    }

    method PointerEnter(x: int, y: int)
      requires Valid()
      modifies this, pointer
      ensures View() == DoPointerIn(old(View()), x, y)
    {
      hide PCheckFocus;
      entered := true;
      if nested {
        pointerX, pointerY := x, y;
        PointerCheckFocus();
      }
    }

    method PointerLeave()
      requires Valid()
      modifies this, pointer
      ensures View() == DoPointerOut(old(View()))
    {
      hide MoveFocus, Each, Give, GiveLog, BlurLog;
      if !dcDefaultCursor {
        if pointer.focus.Some? {
          PointerSetFocus(None);
        }
        pointerSurface := None;
        pointerX, pointerY := 0, 0;
        entered := false;
      }
    }

    method PointerMoveEvent(x: int, y: int)
      requires Valid()
      modifies this, pointer
      ensures View() == DoPointerMove(old(View()), x, y)
    {
      hide PCheckFocus, PlaceCursor, Each;
      pointerX, pointerY := x, y;
      PointerCheckFocus();
      if pointer.focus.Some? || dcDefaultCursor {
        if pointer.focus.Some? {
          SendEach(pointer.focusResourceList, Moving());
        }
        PointerUpdatePosition();
      }
    }

    method PointerButtonEvent(pressed: bool)
      requires Valid()
      modifies this, keyboard
      ensures View() == DoPointerButton(old(View()), pressed)
    {
      hide KSetFocus, Each;
      if pointer.focus.Some? {
        SendEach(pointer.focusResourceList, Pressing());
        if pressed {
          KeyboardSetFocus(pointer.focus.value);
        }
      }
    }

    // ---------------------------------------------------------------- keyboard

    method KeyboardSetFocus(s: SurfaceId)
      requires Valid()
      modifies this, keyboard
      ensures View() == KSetFocus(old(View()), s)
    {
      hide MoveFocus, Each, HasClient;
      if keyboard.focus == Some(s) { return; }
      var c := SurfaceOf(s).client;
      var clientHasFocus := keyboard.Has(true, clientOf, c);
      if !clientHasFocus {
        var clientHasListeners := keyboard.Has(false, clientOf, c);
        if !clientHasListeners && keyboard.focusResourceList != [] {
          return;
        }
      }
      if keyboard.focus.Some? {
        SendEach(keyboard.focusResourceList, Leaving(Keyboard, keyboard.focus.value));
        keyboard.focus := None;
      }
      keyboard.focus := Some(s);
      keyboard.MoveFocusToClient(clientOf, Some(c));
      SendEach(keyboard.focusResourceList, Entering(Keyboard, s));
    }

    /** The scan of the focus list.  The first match splices the list away under the loop, which
        then ends only if that was the last entry. */
    method SpliceScan(c: Client) returns (found: bool, ends: bool)
      requires Valid()
      modifies keyboard
      ensures found == HasClient(old(keyboard.focusResourceList), clientOf, c)
      ensures found ==> ends == ScanEnds(old(keyboard.focusResourceList), clientOf, c)
      ensures keyboard.View() == if found then MoveFocus(old(keyboard.View()), clientOf, None) else old(keyboard.View())
    {
      var list := keyboard.focusResourceList;
      var it := 0;
      while it < |list|
        invariant 0 <= it <= |list| && keyboard.View() == old(keyboard.View())
        invariant !HasClient(list[..it], clientOf, c)
      {
        assert list[..it + 1] == list[..it] + [list[it]];
        if IsOf(clientOf, Some(c), list[it]) {
          assert list[it] in list;
          if it < |list| - 1 {
            assert list[..|list| - 1][it] == list[it];
            assert list[it] in list[..|list| - 1];
          }
          keyboard.MoveFocusToClient(clientOf, None);
          return true, it == |list| - 1;
        }
        it := it + 1;
      }
      assert list[..it] == list;
      return false, true;
    }

    method KeyboardCheckFocus(s: SurfaceId)
      requires Valid()
      modifies this, keyboard
      ensures View() == KCheckFocus(old(View()), s)
    {
      hide MoveFocus, HasClient, KSetFocus, ScanEnds;
      if keyboard.focus.None? {
        var c := SurfaceOf(s).client;
        if c !in usesXdgShell || SurfaceOf(s).role == XdgSurface {
          var clientHasListeners := keyboard.Has(false, clientOf, c);
          if !clientHasListeners {
            var found, ends := SpliceScan(c);
            if found && !ends {
              stuck := true;
              return;
            }
            clientHasListeners := found;
          }
          if clientHasListeners {
            KeyboardSetFocus(s);
          }
        }
      }
    }

    method KeyEvent()
      requires Valid()
      modifies this`wire
      ensures View() == DoKeyEvent(old(View()))
    {
      SendEach(keyboard.focusResourceList, Typing());
    }

    // ---------------------------------------------------------------- requests

    /** The new surface, known to its client, on the list, and without a role. */
    method MakeSurface(c: Client)
      requires Valid()
      modifies this`nextSurface, this`info, this`wire, this`clientSurface, surfaces
      ensures View() == AddSurface(old(View()), c)
    {
      hide Put;
      var s := nextSurface;
      nextSurface := s + 1;
      surfaces.SetZOrder(s, base);
      info := info[s := NewSurface(c)];
      wire := wire + [SurfaceNew(s, c)];
      clientSurface := clientSurface[c := s];
    }

    method CreateSurface(c: Client)
      requires Valid()
      modifies this, surfaces, keyboard
      ensures View() == DoCreateSurface(old(View()), c)
    {
      hide KCheckFocus, AddSurface;
      var s := nextSurface;
      MakeSurface(c);
      KeyboardCheckFocus(s);
    }

    /** wstSurfaceDestroy: out of every focus. */
    method Unfocus(s: SurfaceId)
      requires Valid()
      modifies this`pointerSurface, pointer`focus, keyboard`focus
      ensures pointer.View() == WithoutFocus(old(pointer.View()), s) && keyboard.View() == WithoutFocus(old(keyboard.View()), s)
      ensures pointerSurface ==
        if (old(pointer.focus) == Some(s) && !dcDefaultCursor) || old(pointerSurface) == Some(s) then None else old(pointerSurface)
    {
      if keyboard.focus == Some(s) {
        keyboard.focus := None;
      }
      if pointer.focus == Some(s) {
        pointer.focus := None;
        if !dcDefaultCursor {
          pointerSurface := None;
        }
      }
      if pointerSurface == Some(s) {
        pointerSurface := None;
      }
    }

    /** wstSurfaceDestroy: off the list, and out of the client infos, of which at most one names it. */
    method Delist(s: SurfaceId)
      requires Valid()
      modifies this`clientSurface, this`info, surfaces
      ensures var st := old(View());
        View() == st.(scene := Scene(Drop(st.scene.list, s), st.scene.info - {s}),
                      known := st.known.(latest := Unlisted(st.known.latest, s)))
    {
      hide Drop, Unlisted;
      surfaces.Destroy(s);
      ForgetLatest(s);
      info := info - {s};
    }

    /** wstSurfaceDestroy, up to freeing the surface. */
    method UnlinkSurface(s: SurfaceId)
      requires Valid()
      modifies this`wire, this`pointerSurface, this`clientSurface, this`info, surfaces, pointer`focus, keyboard`focus
      ensures View() == Unlink(old(View()), s)
    {
      hide Drop, WithoutFocus, Unlisted;
      wire := wire + [SurfaceGone(s)];
      Unfocus(s);
      Delist(s);
    }

    method ForgetLatest(s: SurfaceId)
      modifies this`clientSurface
      ensures clientSurface == Unlisted(old(clientSurface), s)
    {
      clientSurface := map c | c in clientSurface && clientSurface[c] != s :: clientSurface[c];
    }

    method DestroySurface(s: SurfaceId, byRequest: bool)
      requires Valid()
      modifies this, surfaces, pointer, keyboard
      ensures View() == DoDestroySurface(old(View()), s, byRequest)
    {
      hide PCheckFocus, Unlink;
      var c := SurfaceOf(s).client;
      UnlinkSurface(s);
      PointerCheckFocus();
      if byRequest {
        clientSurface := clientSurface - {c};
      }
    }

    method SetRoleOf(s: SurfaceId, role: Role) returns (ok: bool)
      modifies this`info
      ensures ok == MayTake(old(View()), s, role)
      ensures View() == if ok then SetRole(old(View()), s, role) else old(View())
    {
      ok := s in info && (SurfaceOf(s).role == NoRole || SurfaceOf(s).role == role);
      if ok {
        info := info[s := SurfaceOf(s).(role := role)];
      }
    }

    method GetPointer(c: Client)
      requires Valid()
      modifies this, pointer
      ensures View() == DoGetPointer(old(View()), c)
    {
      hide PCheckFocus;
      var r := nextRes;
      nextRes := r + 1;
      clientOf := clientOf[r := c];
      wire := wire + [Bind(Pointer, r, c)];
      pointer.Insert(false, r);
      if entered {
        PointerCheckFocus();
      }
    }

    method GetKeyboard(c: Client)
      requires Valid()
      modifies this, keyboard
      ensures View() == DoGetKeyboard(old(View()), c)
    {
      hide KSetFocus, MoveFocus;
      var r := nextRes;
      nextRes := r + 1;
      clientOf := clientOf[r := c];
      wire := wire + [Bind(Keyboard, r, c)];
      var had := keyboard.focus.Some? && SurfaceOf(keyboard.focus.value).client == c;
      keyboard.Insert(had, r);
      assert View() == AddKeyboard(old(View()), c);
      if c in clientSurface && (keyboard.focus.None? || had) {
        if keyboard.focus.Some? {
          wire := wire + [Enter(Keyboard, r, clientSurface[c])];
        } else {
          KeyboardSetFocus(clientSurface[c]);
        }
      }
      assert View() == KWelcome(AddKeyboard(old(View()), c), r, c, had);
      if keyboard.focus.None? && keyboard.focusResourceList == [] && keyboard.resourceList != [] {
        var first := keyboard.resourceList[0];
        if first in clientOf {
          keyboard.MoveFocusToClient(clientOf, Some(clientOf[first]));
        }
      }
    }

    /** The part of wstIPointerSetCursor after the checks. */
    method ShowCursor(cur: Ref, hx: int, hy: int, isDefaultClient: bool)
      requires Valid()
      modifies this`dcDefaultCursor, this`pointerSurface, this`hotSpotX, this`hotSpotY, this`info
      ensures View() == ShownCursor(old(View()), cur, hx, hy, isDefaultClient)
    {
      hide PlaceCursor;
      if isDefaultClient {
        dcDefaultCursor := true;
      }
      pointerSurface := cur;
      if pointerSurface.Some? {
        hotSpotX, hotSpotY := hx, hy;
        ghost var st := old(View());
        assert View() == st.(cursor := cur, at := st.at.(ownCursor := st.at.ownCursor || isDefaultClient, hotX := hx, hotY := hy));
        PointerUpdatePosition();
      }
    }

    method SetCursor(c: Client, cur: Ref, hx: int, hy: int, mayModify: bool, isDefaultClient: bool)
      requires Valid()
      modifies this
      ensures View() == DoSetCursor(old(View()), c, cur, hx, hy, mayModify, isDefaultClient)
    {
      hide PlaceCursor, SetRole, MayTake;
      if cur.Some? {
        if pointer.focus.Some? && SurfaceOf(pointer.focus.value).client != c { return; }
        var ok := SetRoleOf(cur.value, Cursor);
        if !ok { return; }
      }
      if mayModify || isDefaultClient {
        ShowCursor(cur, hx, hy, isDefaultClient);
      }
    }

    // ---------------------------------------------------------------- dispatch

    method HandleSurfaceRequest(op: Op)
      requires Valid() && !stuck
      requires op.CreateSurface? || op.DestroySurface? || op.Geometry? || op.ZOrder? || op.Video? || op.ShellRole?
      modifies this, surfaces, pointer, keyboard
      ensures View() == Step(old(View()), op)
    {
      hide DoCreateSurface, DoDestroySurface, SetRole, Put;
      match op
      case CreateSurface(c) => CreateSurface(c);
      case DestroySurface(s, byRequest) => if s in info { DestroySurface(s, byRequest); }
      case Geometry(s, area) => if s in info { info := info[s := SurfaceOf(s).(area := area)]; }
      case ZOrder(s, z) => if s in info { surfaces.SetZOrder(s, z); }
      case Video(s, on) => if s in info { info := info[s := SurfaceOf(s).(hasVpc := on)]; }
      case ShellRole(s) => var _ := SetRoleOf(s, ShellSurface);
    }

    method HandleFocusRequest(op: Op)
      requires Valid() && !stuck
      requires op.XdgRole? || op.FocusRequest?
      modifies this, keyboard
      ensures View() == Step(old(View()), op)
    {
      hide KSetFocus, KCheckFocus, SetRole, MayTake;
      match op
      case XdgRole(s) =>
        var ok := SetRoleOf(s, XdgSurface);
        if ok { KeyboardCheckFocus(s); }
      case FocusRequest(s) => if s in info { KeyboardSetFocus(s); }
    }

    method HandleClientRequest(op: Op)
      requires Valid() && !stuck
      requires op.UseXdg? || op.ForgetClient? || op.SetCursor?
      modifies this
      ensures View() == Step(old(View()), op)
    {
      hide DoSetCursor;
      match op
      case UseXdg(c) => usesXdgShell := usesXdgShell + {c};
      case ForgetClient(c) =>
        clientSurface := clientSurface - {c};
        usesXdgShell := usesXdgShell - {c};
      case SetCursor(c, cur, hx, hy, mayModify, isDefaultClient) => SetCursor(c, cur, hx, hy, mayModify, isDefaultClient);
    }

    method HandleObjectRequest(op: Op)
      requires Valid() && !stuck
      requires op.GetPointer? || op.ReleasePointer? || op.GetKeyboard? || op.ReleaseKeyboard?
      modifies this, pointer, keyboard
      ensures View() == Step(old(View()), op)
    {
      assert !View().stuck;
      hide DoGetPointer, DoGetKeyboard, Forget;
      match op
      case GetPointer(c) => GetPointer(c);
      case ReleasePointer(r) => Release(pointer, Pointer, r);
      case GetKeyboard(c) => GetKeyboard(c);
      case ReleaseKeyboard(r) => Release(keyboard, Keyboard, r);
    }

    method HandleMotion(op: Op)
      requires Valid() && !stuck
      requires op.PointerIn? || op.PointerOut? || op.PointerMove?
      modifies this, pointer, keyboard
      ensures View() == Step(old(View()), op)
    {
      assert !View().stuck;
      hide View, DoPointerIn, DoPointerOut, DoPointerMove;
      match op
      case PointerIn(x, y) => PointerEnter(x, y);
      case PointerOut => PointerLeave();
      case PointerMove(x, y) => PointerMoveEvent(x, y);
    }

    method HandlePress(op: Op)
      requires Valid() && !stuck
      requires op.PointerButton? || op.KeyEvent?
      modifies this, pointer, keyboard
      ensures View() == Step(old(View()), op)
    {
      assert !View().stuck;
      hide View, DoPointerButton, DoKeyEvent;
      match op
      case PointerButton(pressed) => PointerButtonEvent(pressed);
      case KeyEvent => KeyEvent();
    }

    /** Any request or event, as libwayland or the event queue hands it to its handler. */
    method Handle(op: Op)
      requires Valid() && Inv(View()) && !stuck
      modifies this, surfaces, pointer, keyboard
      ensures View() == Step(old(View()), op) && Inv(View())
    {
      StepKeepsInv(View(), op);
      hide View, Inv, Step;
      match op
      case CreateSurface(_) => HandleSurfaceRequest(op);
      case DestroySurface(_, _) => HandleSurfaceRequest(op);
      case Geometry(_, _) => HandleSurfaceRequest(op);
      case ZOrder(_, _) => HandleSurfaceRequest(op);
      case Video(_, _) => HandleSurfaceRequest(op);
      case ShellRole(_) => HandleSurfaceRequest(op);
      case GetPointer(_) => HandleObjectRequest(op);
      case ReleasePointer(_) => HandleObjectRequest(op);
      case GetKeyboard(_) => HandleObjectRequest(op);
      case ReleaseKeyboard(_) => HandleObjectRequest(op);
      case PointerIn(_, _) => HandleMotion(op);
      case PointerOut => HandleMotion(op);
      case PointerMove(_, _) => HandleMotion(op);
      case PointerButton(_) => HandlePress(op);
      case KeyEvent => HandlePress(op);
      case XdgRole(_) => HandleFocusRequest(op);
      case FocusRequest(_) => HandleFocusRequest(op);
      case _ => HandleClientRequest(op);
    }

    /** wstResourceUnBindCallback */
    method Release(device: InputDevice, dev: Dev, r: Resource)
      requires Valid() && device == (if dev == Pointer then pointer else keyboard)
      modifies this`wire, device
      ensures r in old(device.View()).All() ==>
        device.View() == Forget(old(device.View()), r) && wire == old(wire) + [Unbind(dev, r)]
      ensures r !in old(device.View()).All() ==> device.View() == old(device.View()) && wire == old(wire)
    {
      if r in device.focusResourceList || r in device.resourceList {
        device.resourceList := Remove(device.resourceList, r);
        device.focusResourceList := Remove(device.focusResourceList, r);
        wire := wire + [Unbind(dev, r)];
      }
    }
  }
}
