/**
 * The buffer handlers of westeros-compositor.cpp and westeros-nested.cpp, field by field and loop by
 * loop, proved to do what the functions of Buffers.dfy say.
 */
module BufferHandlers {
  import opened Seqs
  import opened ZLists
  import opened Buffers

  /** Of the entries of all, those up to seen have been looked at: cur[..it] is what was kept of them. */
  ghost predicate Purging(all: seq<Entry>, seen: nat, cur: seq<Entry>, it: nat, s: SurfaceId)
    requires seen <= |all| && it <= |cur|
  {
    cur[it..] == all[seen..] && cur[..it] == Filter(all[..seen], OfOthers(s))
  }

  lemma PurgeStep(all: seq<Entry>, seen: nat, cur: seq<Entry>, it: nat, s: SurfaceId)
    requires seen <= |all| && it < |cur| && Purging(all, seen, cur, it, s)
    ensures seen < |all|
    ensures cur[it].s == s ==>
      && Purging(all, seen + 1, cur[..it] + cur[it + 1..], it, s)
      && Abandoned(Filter(all[..seen + 1], OfSurface(s))) == Abandoned(Filter(all[..seen], OfSurface(s))) + [Abandon(cur[it].remote)]
    ensures cur[it].s != s ==>
      Purging(all, seen + 1, cur, it + 1, s) && Filter(all[..seen + 1], OfSurface(s)) == Filter(all[..seen], OfSurface(s))
  {
    assert |cur[it..]| == |all[seen..]|;
    assert cur[it] == cur[it..][0] == all[seen];
    FilterPush(all, seen, OfOthers(s));
    FilterPush(all, seen, OfSurface(s));
    var kept, dropped := Filter(all[..seen], OfOthers(s)), Filter(all[..seen], OfSurface(s));
    hide Filter;
    Advance(all, seen, cur, it);
    if cur[it].s == s {
      assert kept + [] == kept;
      AbandonedPush(dropped, cur[it]);
    } else {
      assert dropped + [] == dropped;
    }
  }

  lemma AbandonedPush(q: seq<Entry>, e: Entry)
    ensures Abandoned(q + [e]) == Abandoned(q) + [Abandon(e.remote)]
  {
  }

  lemma Advance(all: seq<Entry>, seen: nat, cur: seq<Entry>, it: nat)
    requires seen < |all| && it < |cur| && cur[it..] == all[seen..]
    ensures var cut := cur[..it] + cur[it + 1..]; cut[it..] == all[seen + 1..] && cut[..it] == cur[..it]
    ensures cur[it + 1..] == all[seen + 1..] && cur[..it + 1] == cur[..it] + [all[seen]]
  {
    assert cur[it + 1..] == cur[it..][1..] && all[seen + 1..] == all[seen..][1..];
    assert cur[it] == cur[it..][0];
  }

  lemma PurgeDone(all: seq<Entry>, seen: nat, cur: seq<Entry>, it: nat, s: SurfaceId)
    requires seen <= |all| && it == |cur| && Purging(all, seen, cur, it, s)
    ensures seen == |all| && all[..seen] == all && cur == Filter(all, OfOthers(s))
  {
    assert |cur[it..]| == |all[seen..]|;
    assert cur[..it] == cur && all[..seen] == all;
  }

  /** The slots once the listeners of the surfaces in done have been called. */
  ghost function Called(f: Surfaces, b: Buffer, done: seq<SurfaceId>): map<SurfaceId, Slots> {
    map s | s in f.slots :: if s in done then Signal(f, b).slots[s] else f.slots[s]
  }

  lemma CallOne(f: Surfaces, b: Buffer, done: seq<SurfaceId>, s: SurfaceId)
    requires s in f.slots && s !in done
    ensures var slots0, hit := Called(f, b, done), Hit(f, b);
      var slots1 := if Att(s) in hit then SetSlot(slots0, Att(s), None) else slots0;
      var slots2 := if Det(s) in hit then SetSlot(slots1, Det(s), None) else slots1;
      slots2 == Called(f, b, done + [s])
  {
    hide Hit;
  }

  lemma CallNext(f: Surfaces, b: Buffer, i: nat)
    requires Listening(f) && i < |f.order|
    ensures var s, slots0, hit := f.order[i], Called(f, b, f.order[..i]), Hit(f, b);
      var slots1 := if Att(s) in hit then SetSlot(slots0, Att(s), None) else slots0;
      var slots2 := if Det(s) in hit then SetSlot(slots1, Det(s), None) else slots1;
      slots2 == Called(f, b, f.order[..i + 1])
  {
    assert f.order[..i + 1] == f.order[..i] + [f.order[i]];
    CallOne(f, b, f.order[..i], f.order[i]);
  }

  lemma CalledAll(f: Surfaces, b: Buffer)
    requires Listening(f)
    ensures Called(f, b, f.order) == Signal(f, b).slots
  {
    hide Hit;
  }

  class BufferKeeper {
    const mode: Mode
    var nextSurface: SurfaceId
    var slots: map<SurfaceId, Slots>
    var surfaces: seq<SurfaceId>
    var listeners: map<Listener, Buffer>
    var surfaceInfoMap: map<SurfaceId, Ref>
    var clones: map<Clone, Buffer>
    var bufferInfo: map<Clone, SurfaceId>
    var nextClone: Clone
    var buffersToRelease: seq<Entry>
    ghost var hostOrder: seq<Clone>
    ghost var sentOrder: seq<Clone>
    var wire: seq<Ev>

    function Surf(): Surfaces
      reads this
    {
      Surfaces(nextSurface, slots, surfaces, listeners)
    }

    ghost function Nested(): Host
      reads this
    {
      Host(surfaceInfoMap, clones, bufferInfo, nextClone, buffersToRelease, hostOrder, sentOrder)
    }

    ghost function View(): State
      reads this
    {
      State(mode, Surf(), Nested(), wire)
    }

    constructor (mode: Mode)
      ensures View() == Start(mode)
    {
      this.mode := mode;
      nextSurface, slots, surfaces, listeners := 0, map[], [], map[];
      surfaceInfoMap, clones, bufferInfo, nextClone := map[], map[], map[], 0;
      buffersToRelease, hostOrder, sentOrder, wire := [], [], [], [];
    }

    /** wstSurfaceCreate and WstNestedConnectionCreateSurface, as far as buffers are concerned. */
    method CreateSurface()
      modifies this`nextSurface, this`slots, this`surfaces, this`surfaceInfoMap
      ensures View() == DoCreateSurface(old(View()))
    {
      slots := slots[nextSurface := Slots(None, None)];
      surfaces := surfaces + [nextSurface];
      if mode == Repeater {
        surfaceInfoMap := surfaceInfoMap[nextSurface := None];
      }
      nextSurface := nextSurface + 1;
    }

    /** wl_list_remove of the listener, and the slot is null. */
    method Clear(k: Listener)
      modifies this`slots, this`listeners
      ensures Surf() == LetGo(old(Surf()), k)
    {
      slots := SetSlot(slots, k, None);
      listeners := listeners - {k};
    }

    method ReleaseIfHeld(k: Listener)
      modifies this`slots, this`listeners, this`wire
      ensures View() == ReleaseSlot(old(View()), k)
    {
      var held := Surf().Slot(k);
      if held.Some? {
        Clear(k);
        wire := wire + [Release(held.value)];
      }
    }

    /** wstISurfaceAttach */
    method Attach(s: SurfaceId, buffer: Ref)
      requires s in slots
      modifies this`slots, this`listeners, this`wire
      ensures View() == DoAttach(old(View()), s, buffer)
    {
      if slots[s].attached != buffer {
        ReleaseIfHeld(Det(s));
        var attached := slots[s].attached;
        if attached.Some? {
          Clear(Att(s));
          slots := SetSlot(slots, Det(s), attached);
          listeners := listeners[Det(s) := attached.value];
        }
        if buffer.Some? {
          slots := SetSlot(slots, Att(s), buffer);
          listeners := listeners[Att(s) := buffer.value];
          wire := wire + [Acquire(buffer.value)];
        }
      }
    }

    /** wstCompositorReleaseDetachedBuffers */
    method ReleaseDetachedBuffers()
      modifies this`slots, this`listeners, this`wire
      ensures View() == ReleaseDetached(old(View()), old(surfaces))
    {
      for it := 0 to |surfaces|
        invariant View() == ReleaseDetached(old(View()), surfaces[..it])
      {
        assert surfaces[..it + 1][..it] == surfaces[..it];
        ReleaseIfHeld(Det(surfaces[it]));
      }
      assert surfaces[..|surfaces|] == surfaces;
    }

    /** WstNestedConnectionAttachAndCommitClone */
    method AttachAndCommitClone(s: SurfaceId, b: Buffer)
      modifies this`nextClone, this`clones, this`bufferInfo, this`surfaceInfoMap
      ensures Nested() == Launch(old(Nested()), s, b)
    {
      var clone := nextClone;
      nextClone := clone + 1;
      clones := clones[clone := b];
      bufferInfo := bufferInfo[clone := s];
      if s in surfaceInfoMap {
        surfaceInfoMap := surfaceInfoMap[s := Some(clone)];
      }
    }

    /** wstISurfaceCommit */
    method Commit(s: SurfaceId, canClone: bool)
      requires s in slots
      modifies this
      ensures View() == DoCommit(old(View()), s, canClone)
    {
      var committed := slots[s].attached;
      if committed.Some? {
        if mode == Repeater && canClone {
          AttachAndCommitClone(s, committed.value);
          Clear(Att(s));
        }
      } else {
        ReleaseDetachedBuffers();
      }
    }

    /** buffer_release, run when the host releases a clone. */
    method BufferRelease(clone: Clone)
      modifies this
      ensures View() == DoHostRelease(old(View()), clone)
    {
      if clone !in clones || clone !in bufferInfo {
        return;
      }
      var remote, s := clones[clone], bufferInfo[clone];
      clones := clones - {clone};
      hostOrder := hostOrder + [clone];
      wire := wire + [CloneDestroyed(clone)];
      if s in surfaceInfoMap {
        surfaceInfoMap := surfaceInfoMap[s := None];
        buffersToRelease := buffersToRelease + [Entry(s, remote, clone)];
        assert old(wire) + [CloneDestroyed(clone)] + [] == old(wire) + [CloneDestroyed(clone)];
      } else {
        wire := wire + [Abandon(remote)];
      }
    }

    /** WstNestedConnectionReleaseRemoteBuffers: release and erase the first entry until none is left. */
    method ReleaseRemoteBuffers()
      modifies this`buffersToRelease, this`wire, this`sentOrder
      ensures View() == DoTick(old(View()))
    {
      ghost var all, sent := buffersToRelease, 0;
      while |buffersToRelease| > 0
        invariant 0 <= sent <= |all| && buffersToRelease == all[sent..]
        invariant wire == old(wire) + Releases(all[..sent])
        invariant sentOrder == old(sentOrder) + Clones(all[..sent])
        decreases |buffersToRelease|
      {
        assert buffersToRelease[0] == all[sent] && all[..sent + 1] == all[..sent] + [all[sent]];
        wire := wire + [Release(buffersToRelease[0].remote)];
        sentOrder := sentOrder + [buffersToRelease[0].clone];
        buffersToRelease := buffersToRelease[1..];
        sent := sent + 1;
      }
      assert all[..sent] == all;
    }

    /** The erase-or-advance loop over buffersToRelease. */
    method PurgeEntries(s: SurfaceId)
      modifies this`buffersToRelease, this`wire
      ensures Nested() == Purge(old(Nested()), s)
      ensures wire == old(wire) + Abandoned(Filter(old(buffersToRelease), OfSurface(s)))
    {
      ghost var all, seen := buffersToRelease, 0;
      var it := 0;
      assert Abandoned(Filter(all[..seen], OfSurface(s))) == [] && Purging(all, seen, buffersToRelease, it, s);
      hide Purging, Filter, Abandoned, OfOthers, OfSurface;
      while it < |buffersToRelease|
        invariant 0 <= seen <= |all| && 0 <= it <= |buffersToRelease|
        invariant Purging(all, seen, buffersToRelease, it, s)
        invariant wire == old(wire) + Abandoned(Filter(all[..seen], OfSurface(s)))
        decreases |all| - seen
      {
        PurgeStep(all, seen, buffersToRelease, it, s);
        if buffersToRelease[it].s == s {
          wire := wire + [Abandon(buffersToRelease[it].remote)];
          buffersToRelease := buffersToRelease[..it] + buffersToRelease[it + 1..];
        } else {
          it := it + 1;
        }
        seen := seen + 1;
      }
      PurgeDone(all, seen, buffersToRelease, it, s);
    }

    /** WstNestedConnectionDestroySurface */
    method NestedDestroySurface(s: SurfaceId)
      modifies this
      ensures View() == Buffers.ForgetSurface(old(View()), s)
    {
      hide Filter;
      if s in surfaceInfoMap {
        var buffer := surfaceInfoMap[s];
        if buffer.Some? {
          wire := wire + [CloneDestroyed(buffer.value)];
          if buffer.value in clones {
            wire := wire + [Abandon(clones[buffer.value])];
          }
          clones := clones - {buffer.value};
        }
      }
      assert wire == old(wire) + UntrackLog(old(Nested()), s);
      surfaceInfoMap := surfaceInfoMap - {s};
      PurgeEntries(s);
    }

    /** wstSurfaceDestroy, as far as buffers are concerned. */
    method DestroySurface(s: SurfaceId)
      modifies this
      ensures View() == DoDestroySurface(old(View()), s)
    {
      hide Buffers.ForgetSurface, ReleaseSlot;
      ReleaseIfHeld(Det(s));
      ReleaseIfHeld(Att(s));
      surfaces := Remove(surfaces, s);
      slots := slots - {s};
      NestedDestroySurface(s);
    }

    /** wstAttachedBufferDestroyCallback, or wstDetachedBufferDestroyCallback. */
    method BufferDestroyCallback(k: Listener)
      modifies this`slots
      ensures slots == SetSlot(old(slots), k, None)
    {
      slots := SetSlot(slots, k, None);
    }

    /** The destroy callbacks of the listeners in hit. */
    method CallListeners(b: Buffer, hit: set<Listener>)
      requires Listening(Surf()) && hit == Hit(Surf(), b)
      modifies this`slots
      ensures slots == Called(old(Surf()), b, surfaces)
    {
      ghost var before := Surf();
      var it := 0;
      while it < |surfaces|
        invariant 0 <= it <= |surfaces|
        invariant slots == Called(before, b, surfaces[..it])
      {
        CallNext(before, b, it);
        hide Called, SetSlot, Hit, Listening;
        if Att(surfaces[it]) in hit {
          BufferDestroyCallback(Att(surfaces[it]));
        }
        if Det(surfaces[it]) in hit {
          BufferDestroyCallback(Det(surfaces[it]));
        }
        it := it + 1;
      }
      assert surfaces[..|surfaces|] == surfaces;
    }

    /** The destroy signal of the buffer: it takes each listener off its list and calls it. */
    method DestroyBuffer(b: Buffer)
      requires Listening(Surf())
      modifies this`slots, this`listeners, this`wire
      ensures View() == DoDestroyBuffer(old(View()), b)
    {
      hide Gones, Hit;
      var hit := Hit(Surf(), b);
      CalledAll(Surf(), b);
      CallListeners(b, hit);
      listeners := listeners - hit;
      wire := wire + [BufferDestroyed(b)] + Gones(|hit|, b);
    }

    /** Each request, event and tick does what Buffers.Step says, and keeps the invariant. */
    method Handle(op: Op)
      requires Inv(View())
      modifies this
      ensures View() == Step(old(View()), op)
      ensures Inv(View())
    {
      StepKeepsInv(View(), op);
      hide Inv, DoAttach, DoCommit, DoDestroySurface, DoDestroyBuffer, DoHostRelease, DoTick, ReleaseDetached, DoCreateSurface;
      match op
      case CreateSurface => CreateSurface();
      case DestroySurface(s) => if s in slots { DestroySurface(s); }
      case Attach(s, buffer) => if s in slots { Attach(s, buffer); }
      case Commit(s, handOver) => if s in slots { Commit(s, handOver); }
      case ComposeFrame => if mode == Direct { ReleaseDetachedBuffers(); }
      case DestroyBuffer(b) => DestroyBuffer(b);
      case HostRelease(c) => BufferRelease(c);
      case Tick => ReleaseRemoteBuffers();
    }
  }
}
