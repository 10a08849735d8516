/**
 * The input event queue of a compositor (westeros-compositor.cpp): a fixed array that other threads
 * fill slot by slot, writing only the fields an event type needs, and that the compositor's thread
 * drains in one go.
 */
module EventQueue {
  import opened Seqs

  const WST_EVENT_QUEUE_SIZE := 64
  const WST_MAX_TOUCH := 10

  type int32 = x: int | -0x8000_0000 <= x < 0x8000_0000
  type uint32 = x: int | 0 <= x < 0x1_0000_0000

  datatype EventType = key | pointerEnter | pointerLeave | pointerMove | pointerButton | touchDown | touchUp | touchMotion | touchFrame

  /** A slot of the array; it keeps whatever was in a field that is not written. */
  datatype Event = Event(ty: EventType, p1: Ref, v1: uint32, v2: uint32, v3: uint32, v4: uint32)

  /** A call into the keyboard, the pointer or the touch device. */
  datatype Action =
    | KeyEvent(keyCode: uint32, keyState: uint32, modifiers: uint32)
    | PointerEnter(x: int32, y: int32, surfaceNested: Ref)
    | PointerLeave(surfaceNested: Ref)
    | PointerMove(x: int32, y: int32)
    | PointerButton(button: uint32, buttonState: uint32, at: Ref)       // None: the time of dispatch
    | TouchDown(time: uint32, id: int32, x: int32, y: int32, surfaceNested: Ref)
    | TouchUp(time: uint32, id: int32)
    | TouchMotion(time: uint32, id: int32, x: int32, y: int32)
    | TouchFrame

  datatype TouchInfo = TouchInfo(id: int32, x: int32, y: int32, valid: bool, starting: bool, stopping: bool, moved: bool)

  // ------------------------------------------------------------------ integers in and out of a slot

  function ToUnsigned(x: int32): uint32 {
    x % 0x1_0000_0000
  }

  function ToSigned(v: uint32): int32 {
    if v >= 0x8000_0000 then v - 0x1_0000_0000 else v
  }

  /** A coordinate survives being kept in an unsigned field. */
  lemma SignedKept(x: int32)
    ensures ToSigned(ToUnsigned(x)) == x
  {
  }

  /** What dispatching a slot calls. */
  function Meaning(e: Event): Action {
    match e.ty
    case key => KeyEvent(e.v1, e.v2, e.v3)
    case pointerEnter => PointerEnter(ToSigned(e.v1), ToSigned(e.v2), e.p1)
    case pointerLeave => PointerLeave(e.p1)
    case pointerMove => PointerMove(ToSigned(e.v1), ToSigned(e.v2))
    case pointerButton => PointerButton(e.v1, e.v2, if e.v3 != 0 then Some(e.v4) else None)
    case touchDown => TouchDown(e.v1, ToSigned(e.v2), ToSigned(e.v3), ToSigned(e.v4), e.p1)
    case touchUp => TouchUp(e.v1, ToSigned(e.v2))
    case touchMotion => TouchMotion(e.v1, ToSigned(e.v2), ToSigned(e.v3), ToSigned(e.v4))
    case touchFrame => TouchFrame
  }

  function Meanings(q: seq<Event>): (r: seq<Action>)
    ensures |r| == |q| && forall i :: 0 <= i < |q| ==> r[i] == Meaning(q[i])
  {
    if q == [] then [] else Meanings(q[..|q| - 1]) + [Meaning(q[|q| - 1])]
  }

  lemma MeaningsPush(q: seq<Event>, e: Event)
    ensures Meanings(q + [e]) == Meanings(q) + [Meaning(e)]
  {
    assert (q + [e])[..|q|] == q;
  }

  // ------------------------------------------------------------------ touch sets

  predicate Active(t: TouchInfo) {
    t.valid && (t.starting || t.stopping || t.moved)
  }

  /** The one event an active touch point contributes. */
  function TouchAction(t: TouchInfo, time: uint32): Action
    requires Active(t)
  {
    if t.starting then TouchDown(time, t.id, t.x, t.y, None)
    else if t.stopping then TouchUp(time, t.id)
    else TouchMotion(time, t.id, t.x, t.y)
  }

  /** The active points among the first n, in slot order. */
  function ActiveSlots(touch: seq<TouchInfo>, n: nat): (r: seq<int>)
    requires n <= |touch|
    ensures forall k :: 0 <= k < |r| ==> 0 <= r[k] < n && Active(touch[r[k]])
    ensures |r| <= n
  {
    if n == 0 then []
    else ActiveSlots(touch, n - 1) + if Active(touch[n - 1]) then [n - 1] else []
  }

  /** They are all of the active points, in ascending order. */
  lemma {:induction false} ActiveSlotsComplete(touch: seq<TouchInfo>, n: nat)
    requires n <= |touch|
    ensures forall i :: 0 <= i < n && Active(touch[i]) ==> i in ActiveSlots(touch, n)
    ensures forall j, k :: 0 <= j < k < |ActiveSlots(touch, n)| ==> ActiveSlots(touch, n)[j] < ActiveSlots(touch, n)[k]
  {
    if n > 0 {
      ActiveSlotsComplete(touch, n - 1);
      var rest := ActiveSlots(touch, n - 1);
      if Active(touch[n - 1]) {
        assert (rest + [n - 1])[|rest|] == n - 1;
      }
      forall i | 0 <= i < n && Active(touch[i]) ensures i in ActiveSlots(touch, n) {
        assert i < n - 1 ==> i in rest;
      }
    }
  }

  function PointActions(touch: seq<TouchInfo>, n: nat, time: uint32): seq<Action>
    requires n <= |touch|
  {
    var slots := ActiveSlots(touch, n);
    seq(|slots|, k requires 0 <= k < |slots| => TouchAction(touch[slots[k]], time))
  }

  /** One event for each active point in slot order, then one frame event if there was any. */
  function TouchSetActions(touch: seq<TouchInfo>, time: uint32): seq<Action> {
    var points := PointActions(touch, |touch|, time);
    points + if points != [] then [TouchFrame] else []
  }

  /** A touch set says something exactly if a point is active; then every active point has its one
      event, in slot order, and the last event, and no other, is the frame. */
  lemma TouchSetShape(touch: seq<TouchInfo>, time: uint32)
    ensures var a, slots := TouchSetActions(touch, time), ActiveSlots(touch, |touch|);
      && (a == [] <==> forall i :: 0 <= i < |touch| ==> !Active(touch[i]))
      && (a != [] ==> |a| == |slots| + 1)
      && (forall k :: 0 <= k < |a| ==> (a[k] == TouchFrame <==> k == |a| - 1))
      && (forall k :: 0 <= k < |a| - 1 ==> a[k] == TouchAction(touch[slots[k]], time))
      && (forall i :: 0 <= i < |touch| ==> (i in slots <==> Active(touch[i])))
      && (forall j, k :: 0 <= j < k < |slots| ==> slots[j] < slots[k])
  {
    ActiveSlotsComplete(touch, |touch|);
    PointActionsAre(touch, time);
    var slots := ActiveSlots(touch, |touch|);
    hide ActiveSlots, PointActions, TouchAction, Active;
    assert slots != [] ==> Active(touch[slots[0]]);
  }

  lemma PointActionsAre(touch: seq<TouchInfo>, time: uint32)
    ensures var points, slots := PointActions(touch, |touch|, time), ActiveSlots(touch, |touch|);
      && |points| == |slots|
      && forall k :: 0 <= k < |slots| ==> points[k] == TouchAction(touch[slots[k]], time) && points[k] != TouchFrame
  {
    hide ActiveSlots;
  }

  /** The active points of a touch set, in slot order, and the calls they lead to: a starting point goes
      down, a stopping one up, and any other moves. */
  lemma TouchKinds(touch: seq<TouchInfo>, time: uint32, k: nat)
    requires k < |ActiveSlots(touch, |touch|)|
    ensures var t, a := touch[ActiveSlots(touch, |touch|)[k]], TouchSetActions(touch, time);
      && t.valid && (t.starting || t.stopping || t.moved) && k < |a|
      && (t.starting ==> a[k] == TouchDown(time, t.id, t.x, t.y, None))
      && (!t.starting && t.stopping ==> a[k] == TouchUp(time, t.id))
      && (!t.starting && !t.stopping ==> a[k] == TouchMotion(time, t.id, t.x, t.y))
  {
    PointActionsAre(touch, time);
    hide ActiveSlots, PointActions;
  }

  lemma PointActionsPush(touch: seq<TouchInfo>, n: nat, time: uint32)
    requires n < |touch|
    ensures PointActions(touch, n + 1, time) ==
      PointActions(touch, n, time) + if Active(touch[n]) then [TouchAction(touch[n], time)] else []
  {
  }

  // ------------------------------------------------------------------ the queue

  /** Which devices exist when the queue is drained. */
  datatype Devices = Devices(keyboard: bool, pointer: bool, touch: bool) {
    predicate Has(a: Action) {
      match a
      case KeyEvent(_, _, _) => keyboard
      case PointerEnter(_, _, _) => pointer
      case PointerLeave(_) => pointer
      case PointerMove(_, _) => pointer
      case PointerButton(_, _, _) => pointer
      case _ => touch
    }
  }

  function For(devices: Devices): Action -> bool {
    (a: Action) => devices.Has(a)
  }

  lemma ForHas(devices: Devices, a: Action)
    ensures For(devices)(a) == devices.Has(a)
  {
  }

  /** What draining the queue calls: exactly the posted events whose device exists. */
  lemma CalledIff(q: seq<Action>, devices: Devices, a: Action)
    ensures a in Filter(q, For(devices)) <==>
      && a in q
      && (a.KeyEvent? ==> devices.keyboard)
      && (a.PointerEnter? || a.PointerLeave? || a.PointerMove? || a.PointerButton? ==> devices.pointer)
      && (a.TouchDown? || a.TouchUp? || a.TouchMotion? || a.TouchFrame? ==> devices.touch)
  {
    ForHas(devices, a);
    hide For;
  }

  lemma NoneYet(all: seq<Action>, devices: Devices)
    ensures Filter(all[..0], For(devices)) == []
  {
  }

  class Queue {
    const eventQueue: array<Event>
    var eventIndex: int
    const accepting: bool           // there is a seat, and the compositor is not nested
    ghost var posted: seq<Action>   // everything ever posted
    ghost var drained: seq<Action>  // everything ever taken out

    ghost predicate Valid()
      reads this, eventQueue
    {
      && eventQueue.Length == WST_EVENT_QUEUE_SIZE
      && 0 <= eventIndex < WST_EVENT_QUEUE_SIZE
      && posted == drained + Pending()
    }

    ghost function Pending(): seq<Action>
      reads this, eventQueue
    {
      if 0 <= eventIndex <= eventQueue.Length then Meanings(eventQueue[..eventIndex]) else []
    }

    constructor (accepting: bool)
      ensures Valid() && Pending() == [] && this.accepting == accepting && fresh(eventQueue)
    {
      this.accepting := accepting;
      eventQueue := new Event[WST_EVENT_QUEUE_SIZE];
      eventIndex, posted, drained := 0, [], [];
    }

    /** The slot at the index is filled with e, which must leave the index inside the array. */
    method Push(e: Event)
      requires Valid() && eventIndex + 1 < WST_EVENT_QUEUE_SIZE
      modifies this`eventIndex, this`posted, eventQueue
      ensures Valid() && eventIndex == old(eventIndex) + 1
      ensures posted == old(posted) + [Meaning(e)] && Pending() == old(Pending()) + [Meaning(e)]
    {
      MeaningsPush(eventQueue[..eventIndex], e);
      hide Meaning;
      ghost var before := eventQueue[..eventIndex];
      eventQueue[eventIndex] := e;
      eventIndex := eventIndex + 1;
      posted := posted + [Meaning(e)];
      assert eventQueue[..eventIndex] == before + [e];
    }

    /** WstCompositorKeyEvent */
    method PostKey(keyCode: uint32, keyState: uint32, modifiers: uint32)
      requires Valid() && (accepting ==> eventIndex + 1 < WST_EVENT_QUEUE_SIZE)
      modifies this`eventIndex, this`posted, eventQueue
      ensures Valid()
      ensures posted == old(posted) + if accepting then [KeyEvent(keyCode, keyState, modifiers)] else []
      ensures Pending() == old(Pending()) + if accepting then [KeyEvent(keyCode, keyState, modifiers)] else []
    {
      if accepting {
        var slot := eventQueue[eventIndex];
        Push(slot.(ty := key, v1 := keyCode, v2 := keyState, v3 := modifiers));
      }
    }

    /** WstCompositorPointerEnter */
    method PostPointerEnter()
      requires Valid() && (accepting ==> eventIndex + 1 < WST_EVENT_QUEUE_SIZE)
      modifies this`eventIndex, this`posted, eventQueue
      ensures Valid()
      ensures posted == old(posted) + if accepting then [PointerEnter(0, 0, None)] else []
      ensures Pending() == old(Pending()) + if accepting then [PointerEnter(0, 0, None)] else []
    {
      if accepting {
        var slot := eventQueue[eventIndex];
        Push(slot.(ty := pointerEnter, v1 := 0, v2 := 0, p1 := None));
      }
    }

    /** WstCompositorPointerLeave */
    method PostPointerLeave()
      requires Valid() && (accepting ==> eventIndex + 1 < WST_EVENT_QUEUE_SIZE)
      modifies this`eventIndex, this`posted, eventQueue
      ensures Valid()
      ensures posted == old(posted) + if accepting then [PointerLeave(None)] else []
      ensures Pending() == old(Pending()) + if accepting then [PointerLeave(None)] else []
    {
      if accepting {
        var slot := eventQueue[eventIndex];
        Push(slot.(ty := pointerLeave, p1 := None));
      }
    }

    /** WstCompositorPointerMoveEvent */
    method PostPointerMove(x: int32, y: int32)
      requires Valid() && (accepting ==> eventIndex + 1 < WST_EVENT_QUEUE_SIZE)
      modifies this`eventIndex, this`posted, eventQueue
      ensures Valid()
      ensures posted == old(posted) + if accepting then [PointerMove(x, y)] else []
      ensures Pending() == old(Pending()) + if accepting then [PointerMove(x, y)] else []
    {
      if accepting {
        SignedKept(x);
        SignedKept(y);
        var slot := eventQueue[eventIndex];
        Push(slot.(ty := pointerMove, v1 := ToUnsigned(x), v2 := ToUnsigned(y)));
      }
    }

    /** WstCompositorPointerButtonEvent */
    method PostPointerButton(button: uint32, buttonState: uint32)
      requires Valid() && (accepting ==> eventIndex + 1 < WST_EVENT_QUEUE_SIZE)
      modifies this`eventIndex, this`posted, eventQueue
      ensures Valid()
      ensures posted == old(posted) + if accepting then [PointerButton(button, buttonState, None)] else []
      ensures Pending() == old(Pending()) + if accepting then [PointerButton(button, buttonState, None)] else []
    {
      if accepting {
        var slot := eventQueue[eventIndex];
        Push(slot.(ty := pointerButton, v1 := button, v2 := buttonState, v3 := 0));
      }
    }

    /** The event of one touch point. */
    method PushTouch(t: TouchInfo, time: uint32)
      requires Valid() && Active(t) && eventIndex + 1 < WST_EVENT_QUEUE_SIZE
      modifies this`eventIndex, this`posted, eventQueue
      ensures Valid() && eventIndex == old(eventIndex) + 1
      ensures posted == old(posted) + [TouchAction(t, time)] && Pending() == old(Pending()) + [TouchAction(t, time)]
    {
      SignedKept(t.id);
      SignedKept(t.x);
      SignedKept(t.y);
      hide Meanings;
      var slot := eventQueue[eventIndex].(v1 := time, v2 := ToUnsigned(t.id));
      var x, y := ToUnsigned(t.x), ToUnsigned(t.y);
      if t.starting {
        Push(slot.(ty := touchDown, v3 := x, v4 := y, p1 := None));
      } else if t.stopping {
        Push(slot.(ty := touchUp));
      } else {
        Push(slot.(ty := touchMotion, v3 := x, v4 := y));
      }
    }

    /** The loop over the touch points. */
    method PushPoints(touch: seq<TouchInfo>, time: uint32) returns (queuedEvents: bool)
      requires Valid() && |touch| == WST_MAX_TOUCH
      requires eventIndex + |PointActions(touch, WST_MAX_TOUCH, time)| < WST_EVENT_QUEUE_SIZE
      modifies this`eventIndex, this`posted, eventQueue
      ensures Valid() && eventIndex == old(eventIndex) + |PointActions(touch, WST_MAX_TOUCH, time)|
      ensures posted == old(posted) + PointActions(touch, WST_MAX_TOUCH, time)
      ensures Pending() == old(Pending()) + PointActions(touch, WST_MAX_TOUCH, time)
      ensures queuedEvents <==> PointActions(touch, WST_MAX_TOUCH, time) != []
    {
      queuedEvents := false;
      NoPointsYet(touch, time);
      hide Valid, Pending, PointActions, Active, TouchAction;
      for i := 0 to WST_MAX_TOUCH
        invariant Valid()
        invariant posted == old(posted) + PointActions(touch, i, time)
        invariant Pending() == old(Pending()) + PointActions(touch, i, time)
        invariant eventIndex == old(eventIndex) + |PointActions(touch, i, time)|
        invariant queuedEvents <==> PointActions(touch, i, time) != []
      {
        PointActionsPush(touch, i, time);
        PointsGrow(touch, i + 1, WST_MAX_TOUCH, time);
        if Active(touch[i]) {
          PushTouch(touch[i], time);
          queuedEvents := true;
        }
      }
    }

    /** WstCompositorTouchEvent */
    method PostTouch(touch: seq<TouchInfo>, time: uint32)
      requires Valid() && |touch| == WST_MAX_TOUCH
      requires eventIndex + |TouchSetActions(touch, time)| < WST_EVENT_QUEUE_SIZE
      modifies this`eventIndex, this`posted, eventQueue
      ensures Valid()
      ensures posted == old(posted) + TouchSetActions(touch, time)
      ensures Pending() == old(Pending()) + TouchSetActions(touch, time)
    {
      hide Pending, PointActions, Meaning;
      var queuedEvents := PushPoints(touch, time);
      if queuedEvents {
        var slot := eventQueue[eventIndex];
        FrameMeaning(slot);
        Push(slot.(ty := touchFrame));
      }
    }

    /** The loop of wstCompositorProcessEvents. */
    method Dispatch(devices: Devices) returns (calls: seq<Action>)
      requires 0 <= eventIndex <= eventQueue.Length
      ensures calls == Filter(Meanings(eventQueue[..eventIndex]), For(devices))
    {
      calls := [];
      ghost var all := Meanings(eventQueue[..eventIndex]);
      NoneYet(all, devices);
      hide Filter, Meaning, Meanings, For;
      for i := 0 to eventIndex
        invariant calls == Filter(all[..i], For(devices))
      {
        FilterPush(all, i, For(devices));
        var action := Meaning(eventQueue[i]);
        ForHas(devices, action);
        if devices.Has(action) {
          calls := calls + [action];
        }
      }
      assert all[..eventIndex] == all;
    }

    /** wstCompositorProcessEvents: each pending event is dispatched once, in posting order, to its
        device if there is one; the queue is empty afterwards. */
    method ProcessEvents(devices: Devices) returns (calls: seq<Action>)
      requires Valid()
      modifies this`eventIndex, this`drained
      ensures Valid() && eventIndex == 0 && Pending() == []
      ensures drained == posted == old(posted)
      ensures calls == Filter(old(Pending()), For(devices))
    {
      hide Filter, For;
      calls := Dispatch(devices);
      drained := posted;
      eventIndex := 0;
    }
  }

  lemma NoPointsYet(touch: seq<TouchInfo>, time: uint32)
    ensures PointActions(touch, 0, time) == []
  {
  }

  lemma {:induction false} PointsGrow(touch: seq<TouchInfo>, m: nat, n: nat, time: uint32)
    requires m <= n <= |touch|
    ensures |PointActions(touch, m, time)| <= |PointActions(touch, n, time)|
    decreases n
  {
    if m < n {
      PointsGrow(touch, m, n - 1, time);
      PointActionsPush(touch, n - 1, time);
    }
  }

  lemma FrameMeaning(e: Event)
    ensures Meaning(e.(ty := touchFrame)) == TouchFrame
  {
  }
}
