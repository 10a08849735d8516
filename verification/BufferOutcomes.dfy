/**
 * What each operation comes to for buffers: which slots hold what afterwards, what is at the host, and
 * which events it adds, how often.  Buffers.dfy says that nothing gets lost; this module says where each
 * buffer goes.
 */
module BufferOutcomes {
  import opened Seqs
  import opened ZLists
  import opened Buffers
  import R = RemoteReleases

  // ------------------------------------------------------------------ slots

  /** Does the operation release the detached buffers of all surfaces? */
  predicate Sweeps(st: State, op: Op) {
    match op
    case Commit(s, _) => s in st.surf.slots && st.surf.slots[s].attached.None?
    case ComposeFrame => st.mode == Direct
    case _ => false
  }

  /** Does it hand the attached buffer of the surface over to the host? */
  predicate HandsOver(st: State, op: Op, s: SurfaceId) {
    R.HandsOver(st, op) && op.s == s
  }

  predicate Attaches(st: State, op: Op, s: SurfaceId) {
    op.Attach? && op.s == s && s in st.surf.slots && st.surf.slots[s].attached != op.buffer
  }

  function AttachedAfter(st: State, op: Op, s: SurfaceId): Ref
    requires s in st.surf.slots
  {
    var was := st.surf.slots[s].attached;
    if Attaches(st, op, s) then op.buffer
    else if HandsOver(st, op, s) then None
    else if op.DestroyBuffer? && was == Some(op.b) then None
    else was
  }

  function DetachedAfter(st: State, op: Op, s: SurfaceId): Ref
    requires s in st.surf.slots
  {
    var was := st.surf.slots[s].detached;
    if Attaches(st, op, s) then st.surf.slots[s].attached
    else if Sweeps(st, op) then None
    else if op.DestroyBuffer? && was == Some(op.b) then None
    else was
  }

  ghost predicate SlotsAre(st: State, op: Op, st': State, s: SurfaceId) {
    && (s in st'.surf.slots <==> (s in st.surf.slots && op != DestroySurface(s)) || (op.CreateSurface? && s == st.surf.next))
    && (op.CreateSurface? && s == st.surf.next ==> s in st'.surf.slots && st'.surf.slots[s] == Slots(None, None))
    && (s in st.surf.slots && s in st'.surf.slots && s != st.surf.next ==>
          st'.surf.slots[s] == Slots(AttachedAfter(st, op, s), DetachedAfter(st, op, s)))
  }

  lemma AttachSlots(st: State, s: SurfaceId, buffer: Ref, t: SurfaceId)
    requires Inv(st) && s in st.surf.slots
    ensures SlotsAre(st, Attach(s, buffer), DoAttach(st, s, buffer), t)
  {
    hide ClonesOk, NestedOk, Known, Balanced, Listening;
  }

  lemma {:induction false} SweepSlots(st: State, list: seq<SurfaceId>, t: SurfaceId)
    ensures var st' := ReleaseDetached(st, list);
      && (t in st'.surf.slots <==> t in st.surf.slots)
      && (t in st.surf.slots ==>
            st'.surf.slots[t] == st.surf.slots[t].(detached := if t in list then None else st.surf.slots[t].detached))
      && st'.surf.order == st.surf.order && st'.surf.next == st.surf.next && st'.mode == st.mode && st'.host == st.host
  {
    if list != [] {
      var rest, s := list[..|list| - 1], list[|list| - 1];
      assert list == rest + [s];
      SweepSlots(st, rest, t);
      SweepOne(ReleaseDetached(st, rest), s, t);
      hide ReleaseSlot;
    }
  }

  lemma SweepOne(st: State, s: SurfaceId, t: SurfaceId)
    ensures var st' := ReleaseSlot(st, Det(s));
      && (t in st'.surf.slots <==> t in st.surf.slots)
      && (t in st.surf.slots ==>
            st'.surf.slots[t] == st.surf.slots[t].(detached := if t == s then None else st.surf.slots[t].detached))
      && st'.surf.order == st.surf.order && st'.surf.next == st.surf.next && st'.mode == st.mode && st'.host == st.host
  {
  }

  lemma CommitSlots(st: State, s: SurfaceId, handOver: bool, t: SurfaceId)
    requires Inv(st) && s in st.surf.slots
    ensures SlotsAre(st, Commit(s, handOver), DoCommit(st, s, handOver), t)
  {
    SweepSlots(st, st.surf.order, t);
    hide ClonesOk, NestedOk, Known, Balanced, ReleaseDetached, Distinct;
  }

  lemma DestroySlots(st: State, s: SurfaceId, t: SurfaceId)
    requires Inv(st) && s in st.surf.slots
    ensures SlotsAre(st, DestroySurface(s), DoDestroySurface(st, s), t)
  {
    hide ClonesOk, NestedOk, Known, Balanced, Listening, Remove, Filter;
  }

  lemma BufferSlots(st: State, b: Buffer, t: SurfaceId)
    requires Inv(st)
    ensures SlotsAre(st, DestroyBuffer(b), DoDestroyBuffer(st, b), t)
  {
    hide ClonesOk, NestedOk, Known, Balanced, Distinct;
    assert t in st.surf.slots ==> st.surf.slots[t] == Slots(st.surf.Slot(Att(t)), st.surf.Slot(Det(t)));
  }

  lemma CreateSlots(st: State, t: SurfaceId)
    requires Inv(st)
    ensures SlotsAre(st, CreateSurface, DoCreateSurface(st), t)
  {
    hide ClonesOk, NestedOk, Known, Balanced, Distinct;
  }

  /** What every surface's two slots hold after an operation. */
  lemma SlotsAfter(st: State, op: Op, s: SurfaceId)
    requires Inv(st)
    ensures SlotsAre(st, op, Step(st, op), s)
  {
    hide Inv;
    match op
    case Attach(t, buffer) =>
      if t in st.surf.slots {
        AttachSlots(st, t, buffer, s);
        hide DoAttach, SlotsAre;
      }
    case Commit(t, handOver) =>
      if t in st.surf.slots {
        CommitSlots(st, t, handOver, s);
        hide DoCommit, SlotsAre;
      }
    case DestroySurface(t) =>
      if t in st.surf.slots {
        DestroySlots(st, t, s);
        hide DoDestroySurface, SlotsAre;
      }
    case DestroyBuffer(b) =>
      BufferSlots(st, b, s);
      hide DoDestroyBuffer, SlotsAre;
    case CreateSurface =>
      CreateSlots(st, s);
      hide DoCreateSurface, SlotsAre;
    case ComposeFrame =>
      SweepSlots(st, st.surf.order, s);
      hide ReleaseDetached;
      assert s in st.surf.slots ==> s in st.surf.order by { Ordered(st, s); }
    case HostRelease(_) =>
    case Tick =>
  }

  lemma Ordered(st: State, s: SurfaceId)
    requires Inv(st)
    ensures s in st.surf.slots <==> s in st.surf.order
  {
    hide ClonesOk, NestedOk, Known, Balanced, Distinct;
  }

  // ------------------------------------------------------------------ events

  /** How many detached slots hold the buffer. */
  function DetachedWith(st: State, b: Buffer): nat {
    |set s | s in st.surf.slots && st.surf.slots[s].detached == Some(b)|
  }

  /** How many slots hold it: each that holds something has its listener linked. */
  function SlotsWith(st: State, b: Buffer): nat {
    |set k | k in st.surf.linked && st.surf.Slot(k) == Some(b)|
  }

  /** The clone that goes with a surface. */
  predicate GoesWith(st: State, s: SurfaceId, c: Clone) {
    s in st.host.tracked && st.host.tracked[s] == Some(c)
  }

  /** How often an operation adds the event. */
  function Adds(st: State, op: Op, e: Ev): nat {
    match e
    case Acquire(b) => Once(op.Attach? && op.buffer == Some(b) && Attaches(st, op, op.s))
    case Release(b) => Releasing(st, op, b)
    case Gone(b) => if op == DestroyBuffer(b) then SlotsWith(st, b) else 0
    case Abandon(b) => Abandoning(st, op, b)
    case CloneDestroyed(c) =>
      Once((op == HostRelease(c) && c in st.host.flying) || (op.DestroySurface? && op.s in st.surf.slots && GoesWith(st, op.s, c)))
    case BufferDestroyed(b) => Once(op == DestroyBuffer(b))
  }

  /** A buffer is released when its surface, having another one attached, lets go of it; when its surface is
      destroyed; or, having been at the host, by a tick. */
  function Releasing(st: State, op: Op, b: Buffer): nat {
    match op
    case Attach(s, _) => Once(Attaches(st, op, s) && st.surf.slots[s].detached == Some(b))
    case DestroySurface(s) =>
      if s in st.surf.slots then Once(st.surf.slots[s].detached == Some(b)) + Once(st.surf.slots[s].attached == Some(b)) else 0
    case Tick => CountEntries(st.host.queue, b)
    case _ => if Sweeps(st, op) then DetachedWith(st, b) else 0
  }

  /** It is given up when it is at the host, or has come back from there, and its surface is destroyed; or
      when it comes back after that. */
  function Abandoning(st: State, op: Op, b: Buffer): nat {
    match op
    case DestroySurface(s) =>
      if s in st.surf.slots then
        CountEntries(Filter(st.host.queue, OfSurface(s)), b)
        + Once(s in st.host.tracked && st.host.tracked[s].Some? && st.host.tracked[s].value in st.host.flying
               && st.host.flying[st.host.tracked[s].value] == b)
      else 0
    case HostRelease(c) =>
      Once(c in st.host.flying && st.host.flying[c] == b && c in st.host.home && st.host.home[c] !in st.host.tracked)
    case _ => 0
  }

  lemma SlotEv(st: State, k: Listener, e: Ev)
    ensures CountEv(ReleaseSlot(st, k).log, e) ==
      CountEv(st.log, e) + Once(st.surf.Slot(k).Some? && e == Release(st.surf.Slot(k).value))
  {
    if st.surf.Slot(k).Some? {
      CountEvOne(st.log, Release(st.surf.Slot(k).value), e);
    }
    hide CountEv;
  }

  lemma AddsOfAttach(st: State, s: SurfaceId, buffer: Ref, e: Ev)
    requires s in st.surf.slots
    ensures var det, more := st.surf.slots[s].detached, st.surf.slots[s].attached != buffer;
      Adds(st, Attach(s, buffer), e) ==
        Once(more && det.Some? && e == Release(det.value)) + Once(more && buffer.Some? && e == Acquire(buffer.value))
  {
    hide SlotsWith;
  }

  lemma AttachEv(st: State, s: SurfaceId, buffer: Ref, e: Ev)
    requires s in st.surf.slots
    ensures CountEv(DoAttach(st, s, buffer).log, e) == CountEv(st.log, e) + Adds(st, Attach(s, buffer), e)
  {
    var st1 := ReleaseSlot(st, Det(s));
    AddsOfAttach(st, s, buffer, e);
    SlotEv(st, Det(s), e);
    if buffer.Some? {
      CountEvOne(st1.log, Acquire(buffer.value), e);
    }
    hide CountEv, ReleaseSlot, Demote, Adds;
  }

  /** Of a list without repetition: the surfaces whose detached slot holds the buffer. */
  function In(st: State, list: seq<SurfaceId>, b: Buffer): set<SurfaceId> {
    set s | s in list && s in st.surf.slots && st.surf.slots[s].detached == Some(b)
  }

  lemma InPush(st: State, rest: seq<SurfaceId>, s: SurfaceId, b: Buffer)
    requires s !in rest
    ensures |In(st, rest + [s], b)| == |In(st, rest, b)| + Once(s in st.surf.slots && st.surf.slots[s].detached == Some(b))
  {
    var more := s in st.surf.slots && st.surf.slots[s].detached == Some(b);
    assert In(st, rest + [s], b) == In(st, rest, b) + if more then {s} else {};
    assert s !in In(st, rest, b);
  }

  lemma {:induction false} SweepEv(st: State, list: seq<SurfaceId>, e: Ev)
    requires Distinct(list)
    ensures CountEv(ReleaseDetached(st, list).log, e) == CountEv(st.log, e) + if e.Release? then |In(st, list, e.b)| else 0
  {
    if list == [] {
      assert e.Release? ==> In(st, list, e.b) == {};
    } else {
      var rest, s := list[..|list| - 1], list[|list| - 1];
      assert list == rest + [s] && s !in rest;
      SweepEv(st, rest, e);
      SweepSlots(st, rest, s);
      var st1 := ReleaseDetached(st, rest);
      SlotEv(st1, Det(s), e);
      if e.Release? {
        InPush(st, rest, s, e.b);
      }
      assert st1.surf.Slot(Det(s)) == if s in st.surf.slots then st.surf.slots[s].detached else None;
      assert ReleaseDetached(st, list) == ReleaseSlot(st1, Det(s));
      hide CountEv, ReleaseSlot, In, ReleaseDetached;
    }
  }

  lemma SweepAll(st: State, e: Ev)
    requires Inv(st)
    ensures CountEv(ReleaseDetached(st, st.surf.order).log, e)
      == CountEv(st.log, e) + if e.Release? then DetachedWith(st, e.b) else 0
  {
    assert Distinct(st.surf.order) by { hide ClonesOk, NestedOk, Known, Balanced, Distinct; }
    SweepEv(st, st.surf.order, e);
    if e.Release? {
      forall s ensures s in st.surf.slots <==> s in st.surf.order { Ordered(st, s); }
      assert In(st, st.surf.order, e.b) == set s | s in st.surf.slots && st.surf.slots[s].detached == Some(e.b);
    }
    hide Inv, CountEv, ReleaseDetached;
  }

  lemma CommitEv(st: State, s: SurfaceId, handOver: bool, e: Ev)
    requires Inv(st) && s in st.surf.slots
    ensures CountEv(DoCommit(st, s, handOver).log, e) == CountEv(st.log, e) + Adds(st, Commit(s, handOver), e)
  {
    SweepAll(st, e);
    hide Inv, CountEv, ReleaseDetached, DetachedWith;
  }

  /** The destroy signal of a buffer reaches each slot that holds it. */
  lemma HitsSlots(st: State, b: Buffer)
    requires Inv(st)
    ensures |Hit(st.surf, b)| == SlotsWith(st, b)
  {
    hide ClonesOk, NestedOk, Known, Balanced, Distinct;
    assert Hit(st.surf, b) == set k | k in st.surf.linked && st.surf.Slot(k) == Some(b);
  }

  lemma AddsOfBuffer(st: State, b: Buffer, e: Ev)
    ensures Adds(st, DestroyBuffer(b), e) == Once(e == BufferDestroyed(b)) + if e == Gone(b) then SlotsWith(st, b) else 0
  {
    hide SlotsWith;
  }

  lemma BufferEv(st: State, b: Buffer, e: Ev)
    requires Inv(st)
    ensures CountEv(DoDestroyBuffer(st, b).log, e) == CountEv(st.log, e) + Adds(st, DestroyBuffer(b), e)
  {
    HitsSlots(st, b);
    AddsOfBuffer(st, b, e);
    CountEvOne(st.log, BufferDestroyed(b), e);
    CountEvAppend(st.log + [BufferDestroyed(b)], Gones(|Hit(st.surf, b)|, b), e);
    CountSame(|Hit(st.surf, b)|, b, e);
    hide Inv, CountEv, Hit, SlotsWith, Gones, Signal, Adds;
  }

  lemma AddsOfDestroy(st: State, s: SurfaceId, e: Ev)
    requires s in st.surf.slots
    ensures var det, att := st.surf.slots[s].detached, st.surf.slots[s].attached;
      Adds(st, DestroySurface(s), e) ==
        Once(det.Some? && e == Release(det.value)) + Once(att.Some? && e == Release(att.value))
        + Once(e.CloneDestroyed? && GoesWith(st, s, e.c))
        + if e.Abandon? then Abandoning(st, DestroySurface(s), e.b) else 0
  {
    hide SlotsWith, Filter, CountEntries;
  }

  lemma DestroyEv(st: State, s: SurfaceId, e: Ev)
    requires s in st.surf.slots
    ensures CountEv(DoDestroySurface(st, s).log, e) == CountEv(st.log, e) + Adds(st, DestroySurface(s), e)
  {
    var st1 := ReleaseSlot(st, Det(s));
    var st2 := ReleaseSlot(st1, Att(s));
    AddsOfDestroy(st, s, e);
    SlotEv(st, Det(s), e);
    SlotEv(st1, Att(s), e);
    SlotBeside(st, s);
    ForgetEv(st2, s, e);
    DestroyParts(st, s);
    assert st2.host == st.host;
    hide CountEv, ReleaseSlot, DoDestroySurface, Filter, CountEntries, UntrackLog, Abandoned, Adds;
  }

  lemma SlotBeside(st: State, s: SurfaceId)
    requires s in st.surf.slots
    ensures var st1 := ReleaseSlot(st, Det(s));
      st1.surf.Slot(Att(s)) == st.surf.slots[s].attached && st.surf.Slot(Det(s)) == st.surf.slots[s].detached
      && st1.host == st.host
      && ReleaseSlot(st1, Att(s)).host == st.host
  {
  }

  lemma DestroyParts(st: State, s: SurfaceId)
    ensures DoDestroySurface(st, s).log ==
      ReleaseSlot(ReleaseSlot(st, Det(s)), Att(s)).log + UntrackLog(st.host, s) + Abandoned(Filter(st.host.queue, OfSurface(s)))
  {
    hide Filter, UntrackLog, Abandoned;
  }

  lemma ForgetEv(st: State, s: SurfaceId, e: Ev)
    ensures CountEv(st.log + UntrackLog(st.host, s) + Abandoned(Filter(st.host.queue, OfSurface(s))), e) ==
      CountEv(st.log, e) + CountEv(UntrackLog(st.host, s), e)
      + if e.Abandon? then CountEntries(Filter(st.host.queue, OfSurface(s)), e.b) else 0
    ensures CountEv(UntrackLog(st.host, s), e) ==
      Once(e.CloneDestroyed? && GoesWith(st, s, e.c))
      + Once(e.Abandon? && s in st.host.tracked && st.host.tracked[s].Some? && st.host.tracked[s].value in st.host.flying
             && st.host.flying[st.host.tracked[s].value] == e.b)
  {
    var out := Filter(st.host.queue, OfSurface(s));
    CountEvAppend(st.log, UntrackLog(st.host, s), e);
    CountEvAppend(st.log + UntrackLog(st.host, s), Abandoned(out), e);
    CountAbandoned(out, e);
    UntrackedEv(st.host, s, e);
    hide CountEv, UntrackLog, Abandoned, Filter, CountEntries;
  }

  lemma UntrackedEv(h: Host, s: SurfaceId, e: Ev)
    ensures CountEv(UntrackLog(h, s), e) ==
      Once(s in h.tracked && h.tracked[s].Some? && e == CloneDestroyed(h.tracked[s].value))
      + Once(s in h.tracked && h.tracked[s].Some? && h.tracked[s].value in h.flying
             && e == Abandon(h.flying[h.tracked[s].value]))
  {
    assert CountEv([], e) == 0;
    if s in h.tracked && h.tracked[s].Some? {
      var c := h.tracked[s].value;
      var first := [CloneDestroyed(c)];
      CountEvOne([], CloneDestroyed(c), e);
      assert [] + first == first && first + [] == first;
      if c in h.flying {
        CountEvOne(first, Abandon(h.flying[c]), e);
      }
      hide CountEv;
    }
  }

  lemma ReleaseEv(st: State, c: Clone, e: Ev)
    requires Inv(st)
    ensures CountEv(DoHostRelease(st, c).log, e) == CountEv(st.log, e) + Adds(st, HostRelease(c), e)
  {
    assert c in st.host.flying ==> c in st.host.home by { hide Listening, NestedOk, Known, Balanced, CountEv; }
    if c in st.host.flying {
      HostReleaseEv(st, c, e);
    }
    hide Inv, CountEv;
  }

  lemma TickAdds(st: State, e: Ev)
    ensures CountEv(DoTick(st).log, e) == CountEv(st.log, e) + Adds(st, Tick, e)
  {
    TickEv(st, e);
    hide CountEv, CountEntries, DoTick;
  }

  /** How often every operation adds every event. */
  lemma EventsAfter(st: State, op: Op, e: Ev)
    requires Inv(st)
    ensures CountEv(Step(st, op).log, e) == CountEv(st.log, e) + Adds(st, op, e)
  {
    hide Inv, CountEv, DoTick, DoHostRelease, DoDestroySurface, DoDestroyBuffer, DoCommit, DoAttach;
    hide ReleaseDetached, DetachedWith, SlotsWith, Filter, CountEntries;
    match op
    case CreateSurface =>
    case Attach(s, buffer) => if s in st.surf.slots { AttachEv(st, s, buffer, e); }
    case Commit(s, handOver) => if s in st.surf.slots { CommitEv(st, s, handOver, e); }
    case DestroySurface(s) => if s in st.surf.slots { DestroyEv(st, s, e); }
    case DestroyBuffer(b) => BufferEv(st, b, e);
    case HostRelease(c) => ReleaseEv(st, c, e);
    case ComposeFrame => SweepAll(st, e);
    case Tick => TickAdds(st, e);
  }

  /** The buffers of a destroyed surface go back to their clients first, the detached one before the attached
      one. */
  lemma DestroyReleases(st: State, s: SurfaceId)
    requires s in st.surf.slots
    ensures var held, log' := st.surf.slots[s], DoDestroySurface(st, s).log;
      var first := st.log + (if held.detached.Some? then [Release(held.detached.value)] else [])
        + (if held.attached.Some? then [Release(held.attached.value)] else []);
      first <= log'
  {
    DestroyParts(st, s);
    SlotBeside(st, s);
    hide Filter, UntrackLog, Abandoned, DoDestroySurface;
    assert st.log + [] == st.log;
    var st1 := ReleaseSlot(st, Det(s));
    assert st1.log + [] == st1.log;
  }

  // ------------------------------------------------------------------ the host

  /** Is the operation the release of a clone that is at the host? */
  predicate Lands(st: State, op: Op, c: Clone) {
    op == HostRelease(c) && c in st.host.flying
  }

  /** The host's side after a step. */
  lemma HostIs(st: State, op: Op)
    requires Inv(st)
    ensures var h, h' := st.host, Step(st, op).host;
      match op
      case CreateSurface => h' == if st.mode == Repeater then Track(h, st.surf.next) else h
      case Commit(s, _) => h' == if HandsOver(st, op, s) then Launch(h, s, st.surf.slots[s].attached.value) else h
      case DestroySurface(s) => h' == if s in st.surf.slots then Purge(Untrack(h, s), s) else h
      case HostRelease(c) => h' == if c in h.flying && c in h.home then Land(h, c) else h
      case Tick => h' == h.(queue := [], sentOrder := h.sentOrder + Clones(h.queue))
      case _ => h' == h
  {
    hide Inv, Launch, Land, Track, Signal;
    match op
    case Attach(s, buffer) =>
      AttachHost(st, s, buffer);
      hide DoAttach;
    case Commit(s, _) =>
      SweepSlots(st, st.surf.order, s);
      hide ReleaseDetached;
    case DestroySurface(s) =>
      DestroySurfaceHost(st, s);
      hide DoDestroySurface, Purge, Untrack;
    case ComposeFrame =>
      SweepSlots(st, st.surf.order, 0);
      hide ReleaseDetached;
    case _ =>
  }

  lemma HomesKnown(st: State, c: Clone)
    requires Inv(st)
    ensures c in st.host.flying ==> c in st.host.home && 0 <= c < st.host.nextClone
  {
    hide Listening, NestedOk, Known, Balanced, CountEv;
  }

  lemma KnownIff(st: State, s: SurfaceId)
    requires Inv(st)
    ensures s in st.host.tracked <==> st.mode == Repeater && s in st.surf.slots
  {
    hide Listening, NestedOk, ClonesOk, Balanced;
    assert s in st.host.tracked <==> s in st.host.tracked.Keys;
  }

  predicate AtHostAfter(st: State, op: Op, c: Clone) {
    || (c in st.host.flying && !Lands(st, op, c) && !(op.DestroySurface? && op.s in st.surf.slots && GoesWith(st, op.s, c)))
    || (op.Commit? && HandsOver(st, op, op.s) && c == st.host.nextClone)
  }

  ghost predicate ClonesAre(st: State, op: Op, st': State, c: Clone) {
    && (c in st'.host.flying <==> AtHostAfter(st, op, c))
    && (c in st'.host.flying ==>
          st'.host.flying[c] ==
            if op.Commit? && HandsOver(st, op, op.s) && c == st.host.nextClone then st.surf.slots[op.s].attached.value
            else if c in st.host.flying then st.host.flying[c] else 0)
    && st'.host.nextClone == st.host.nextClone + Once(op.Commit? && HandsOver(st, op, op.s))
  }

  lemma HandedClones(st: State, s: SurfaceId, c: Clone)
    requires c in st.host.flying ==> c != st.host.nextClone
    requires HandsOver(st, Commit(s, true), s)
    ensures ClonesAre(st, Commit(s, true), st.(host := Launch(st.host, s, st.surf.slots[s].attached.value)), c)
  {
  }

  lemma GoneClones(st: State, op: Op, h: Host, c: Clone)
    requires c in st.host.flying ==> c != st.host.nextClone
    requires !(op.Commit? && HandsOver(st, op, op.s)) && h.nextClone == st.host.nextClone
    requires forall d :: d in h.flying ==> d in st.host.flying && h.flying[d] == st.host.flying[d]
    requires c in st.host.flying ==>
      (c in h.flying <==> !Lands(st, op, c) && !(op.DestroySurface? && op.s in st.surf.slots && GoesWith(st, op.s, c)))
    ensures ClonesAre(st, op, st.(host := h), c)
  {
  }

  lemma OnlyHost(st: State, op: Op, a: State, b: State, c: Clone)
    requires a.host == b.host
    ensures ClonesAre(st, op, a, c) <==> ClonesAre(st, op, b, c)
  {
  }

  /** What is at the host after an operation. */
  lemma ClonesAfter(st: State, op: Op, c: Clone)
    requires Inv(st)
    ensures ClonesAre(st, op, Step(st, op), c)
  {
    var h' := Step(st, op).host;
    HostIs(st, op);
    HomesKnown(st, c);
    if op.HostRelease? {
      HomesKnown(st, op.c);
    }
    hide Inv, Step, Filter, Clones, ClonesAre;
    if op.Commit? && HandsOver(st, op, op.s) {
      assert op == Commit(op.s, true);
      HandedClones(st, op.s, c);
    } else {
      GoneClones(st, op, h', c);
    }
    OnlyHost(st, op, st.(host := h'), Step(st, op), c);
  }

  /** Which clone a surface tracks after an operation: its last one handed over, until one of its clones
      comes back. */
  function TrackedAfter(st: State, op: Op, s: SurfaceId): Ref
    requires s in st.host.tracked
  {
    if HandsOver(st, op, s) then Some(st.host.nextClone)
    else if op.HostRelease? && Lands(st, op, op.c) && op.c in st.host.home && st.host.home[op.c] == s then None
    else st.host.tracked[s]
  }

  ghost predicate TrackingIs(st: State, op: Op, st': State, s: SurfaceId) {
    && (s in st.host.tracked && s in st'.host.tracked && s != st.surf.next ==> st'.host.tracked[s] == TrackedAfter(st, op, s))
    && (op.CreateSurface? && s == st.surf.next && st.mode == Repeater ==> s in st'.host.tracked && st'.host.tracked[s] == None)
  }

  lemma TrackingAfter(st: State, op: Op, s: SurfaceId)
    requires Inv(st)
    ensures TrackingIs(st, op, Step(st, op), s)
  {
    HostIs(st, op);
    KnownIff(st, s);
    if op.HostRelease? {
      HomesKnown(st, op.c);
    }
    hide Inv, Step, Filter, Clones;
  }

  /** What is queued for release after an operation. */
  lemma QueueAfter(st: State, op: Op)
    requires Inv(st)
    ensures var q, q' := st.host.queue, Step(st, op).host.queue;
      match op
      case Tick => q' == []
      case HostRelease(c) =>
        if c in st.host.flying && c in st.host.home && st.host.home[c] in st.host.tracked
        then q' == q + [Entry(st.host.home[c], st.host.flying[c], c)] else q' == q
      case DestroySurface(s) => q' == if s in st.surf.slots then Filter(q, OfOthers(s)) else q
      case _ => q' == q
  {
    HostIs(st, op);
    hide Inv, Step, Filter, Clones;
  }

  // ------------------------------------------------------------------ what is given up

  lemma {:induction false} SomeEntry(q: seq<Entry>, b: Buffer)
    ensures CountEntries(q, b) > 0 ==> exists i :: 0 <= i < |q| && q[i].remote == b
  {
    if q != [] {
      var n := |q| - 1;
      SomeEntry(q[..n], b);
      if q[n].remote != b && CountEntries(q[..n], b) > 0 {
        var i :| 0 <= i < n && q[..n][i].remote == b;
        assert q[i].remote == b;
      }
    }
  }

  /** An operation gives up only what is at the host or has come back from there. */
  lemma GivenUpWasAtHost(st: State, op: Op, b: Buffer)
    ensures Abandoning(st, op, b) > 0 ==>
      || (exists c :: c in st.host.flying && st.host.flying[c] == b)
      || (exists i :: 0 <= i < |st.host.queue| && st.host.queue[i].remote == b)
  {
    if op.DestroySurface? {
      var out := Filter(st.host.queue, OfSurface(op.s));
      SomeEntry(out, b);
      if CountEntries(out, b) > 0 {
        var i :| 0 <= i < |out| && out[i].remote == b;
        assert out[i] in out && out[i] in st.host.queue;
      }
    }
    hide Filter, CountEntries;
  }

  ghost predicate WasMade(mode: Mode, ops: seq<Op>, b: Buffer) {
    exists c :: c in R.Made(mode, ops) && R.Made(mode, ops)[c] == b
  }

  /** In every run a buffer is given up only if it was handed over to the host. */
  lemma {:induction false} GivenUpWasHandedOver(mode: Mode, ops: seq<Op>, b: Buffer)
    ensures CountEv(Run(mode, ops).log, Abandon(b)) > 0 ==> WasMade(mode, ops, b)
  {
    if ops != [] && CountEv(Run(mode, ops).log, Abandon(b)) > 0 {
      var before, op := ops[..|ops| - 1], ops[|ops| - 1];
      var st := Run(mode, before);
      RunKeepsInv(mode, before);
      EventsAfter(st, op, Abandon(b));
      assert Run(mode, ops) == Step(st, op);
      GivenUpWasHandedOver(mode, before, b);
      assert WasMade(mode, before, b) by {
        if Abandoning(st, op, b) > 0 {
          GivenUpWasAtHost(st, op, b);
          R.RunTraced(mode, before);
        }
        hide Inv, CountEv, Step, Run, Abandoning, R.Made;
      }
      hide Inv, CountEv, Step, Run, R.Made;
      var c :| c in R.Made(mode, before) && R.Made(mode, before)[c] == b;
      R.MadeGrows(mode, ops, c);
    }
  }

  /** Without a host nothing is ever given up: every buffer taken is still held, was released, or was
      destroyed by its client while held. */
  lemma NothingGivenUp(mode: Mode, ops: seq<Op>, b: Buffer)
    requires mode != Repeater
    ensures var st := Run(mode, ops);
      && CountEv(st.log, Abandon(b)) == 0
      && CountEv(st.log, Acquire(b)) == CountOf(st.surf.linked, b) + CountEv(st.log, Release(b)) + CountEv(st.log, Gone(b))
  {
    GivenUpWasHandedOver(mode, ops, b);
    NothingMade(mode, ops);
    HostEmpty(mode, ops, b);
    BuffersConserved(mode, ops, b);
    hide Run, CountEv, R.Made, CountOf, CountEntries;
  }

  lemma HostEmpty(mode: Mode, ops: seq<Op>, b: Buffer)
    requires R.Made(mode, ops) == map[]
    ensures CountOf(Run(mode, ops).host.flying, b) == 0 && CountEntries(Run(mode, ops).host.queue, b) == 0
  {
    R.RunTraced(mode, ops);
    var h := Run(mode, ops).host;
    hide Run, R.Made;
    SomeEntry(h.queue, b);
    forall c ensures c !in h.flying {
      assert c in h.flying ==> c in R.Made(mode, ops);
    }
    CountNone(h.flying, b);
  }

  lemma CountNone<K(!new)>(m: map<K, Buffer>, b: Buffer)
    requires forall k :: k !in m
    ensures CountOf(m, b) == 0
  {
    assert (set k | k in m && m[k] == b) == {};
  }

  lemma {:induction false} NothingMade(mode: Mode, ops: seq<Op>)
    requires mode != Repeater
    ensures R.Made(mode, ops) == map[]
  {
    if ops != [] {
      NothingMade(mode, ops[..|ops| - 1]);
      ModeKept(mode, ops[..|ops| - 1]);
      hide Run;
    }
  }
}
