/** What single requests and the whole way of a buffer to the host and back do to it. */
module BufferCycles {
  import opened Seqs
  import opened ZLists
  import opened Buffers

  function Freed(b: Ref): seq<Ev> {
    if b.Some? then [Release(b.value)] else []
  }

  function Taken(b: Ref): seq<Ev> {
    if b.Some? then [Acquire(b.value)] else []
  }

  /** Attaching another buffer releases the detached one, detaches the attached one, and touches no other
      surface; attaching the same buffer again does nothing. */
  lemma AttachMoves(st: State, s: SurfaceId, buffer: Ref)
    requires Listening(st.surf) && s in st.surf.slots
    ensures var st' := DoAttach(st, s, buffer);
      && st'.surf.Slot(Att(s)) == buffer
      && (st.surf.Slot(Att(s)) == buffer ==> st' == st)
      && (st.surf.Slot(Att(s)) != buffer ==>
            && st'.surf.Slot(Det(s)) == st.surf.Slot(Att(s))
            && st'.log == st.log + Freed(st.surf.Slot(Det(s))) + Taken(buffer))
      && (forall k: Listener :: k.s != s ==> st'.surf.Slot(k) == st.surf.Slot(k))
      && st'.host == st.host
  {
    if st.surf.Slot(Att(s)) != buffer {
      var st1 := ReleaseSlot(st, Det(s));
      ReleaseSlotOk(st, Det(s));
      assert st1.log == st.log + Freed(st.surf.Slot(Det(s)));
      DemoteOk(st1.surf, s);
      DemoteOthers(st1.surf, s);
      hide Listening, ReleaseSlot, Demote, SlotsStep;
      assert st1.log + [] == st1.log;
    }
  }

  /** A client that attaches three buffers in turn gets the first one back when it attaches the third:
      once, after the second was taken and before the third is. */
  lemma ReleasedByThirdAttach(st: State, s: SurfaceId, a: Buffer, b: Buffer, c: Buffer)
    requires Listening(st.surf) && s in st.surf.slots && st.surf.Slot(Att(s)) != Some(a) && a != b && b != c
    ensures var st' := DoAttach(DoAttach(DoAttach(st, s, Some(a)), s, Some(b)), s, Some(c));
      && st'.surf.Slot(Att(s)) == Some(c) && st'.surf.Slot(Det(s)) == Some(b)
      && st'.log == st.log + Freed(st.surf.Slot(Det(s))) + [Acquire(a)] + Freed(st.surf.Slot(Att(s))) + [Acquire(b)]
                    + [Release(a)] + [Acquire(c)]
  {
    var st1 := DoAttach(st, s, Some(a));
    var st2 := DoAttach(st1, s, Some(b));
    AttachMoves(st, s, Some(a));
    AttachOk(st, s, Some(a));
    StillThere(st, st1, s);
    AttachMoves(st1, s, Some(b));
    AttachOk(st1, s, Some(b));
    StillThere(st1, st2, s);
    AttachMoves(st2, s, Some(c));
    hide DoAttach, Listening, SlotsStep;
  }

  lemma StillThere(st: State, st': State, s: SurfaceId)
    requires SlotsStep(st, st') && s in st.surf.slots
    ensures Listening(st'.surf) && s in st'.surf.slots
  {
    assert s in st.surf.slots.Keys;
  }

  lemma DemoteOthers(f: Surfaces, s: SurfaceId)
    ensures forall k: Listener :: k.s != s ==> Demote(f, s).Slot(k) == f.Slot(k)
  {
  }

  /** A buffer handed over by a commit leaves its surface at once, is in flight and tracked by its
      surface; when the host releases it, it is queued behind those released before; and the next tick
      releases it to its client, after these.  The queue is empty then, the same clones are at the host as
      before, and the surface tracks none: one it tracked before is forgotten, see NoOrphansIff. */
  lemma HandOverCycle(st: State, s: SurfaceId, b: Buffer)
    requires Inv(st) && st.mode == Repeater && s in st.surf.slots && st.surf.Slot(Att(s)) == Some(b)
    ensures var c := st.host.nextClone;
      var st1 := DoCommit(st, s, true);
      var st2 := DoHostRelease(st1, c);
      var st3 := DoTick(st2);
      && st1.surf.Slot(Att(s)) == None && st1.log == st.log
      && c in st1.host.flying && st1.host.flying[c] == b && st1.host.tracked == st.host.tracked[s := Some(c)]
      && st2.host.queue == st.host.queue + [Entry(s, b, c)] && st2.log == st.log + [CloneDestroyed(c)]
      && st3.log == st2.log + Releases(st.host.queue) + [Release(b)]
      && st3.host.queue == [] && st3.host.flying == st.host.flying && st3.host.tracked == st.host.tracked[s := None]
      && st3.surf == st1.surf
  {
    var c := st.host.nextClone;
    assert s in st.host.tracked by {
      assert s in st.host.tracked.Keys;
    }
    assert c !in st.host.flying;
    hide Listening, NestedOk, ClonesOk, Balance, Balanced, Known;
    var h1 := Launch(st.host, s, b);
    var st2 := DoHostRelease(DoCommit(st, s, true), c);
    assert st2.host == Land(h1, c);
    assert h1.flying - {c} == st.host.flying;
    assert st.log + [CloneDestroyed(c)] + [] == st.log + [CloneDestroyed(c)];
    assert Releases(st.host.queue + [Entry(s, b, c)]) == Releases(st.host.queue) + [Release(b)];
  }

  /** If its surface goes first, the clone is destroyed with it and the buffer is given up, once; a later
      release by the host finds nothing. */
  lemma SurfaceGoesFirst(st: State, s: SurfaceId, b: Buffer)
    requires Inv(st) && st.mode == Repeater && s in st.surf.slots && st.surf.Slot(Att(s)) == Some(b)
    ensures var c := st.host.nextClone;
      var st1 := DoDestroySurface(DoCommit(st, s, true), s);
      && c !in st1.host.flying && s !in st1.host.tracked
      && CountEv(st1.log, CloneDestroyed(c)) == 1
      && DoHostRelease(st1, c) == st1
  {
    var c, handed := st.host.nextClone, DoCommit(st, s, true);
    var st1 := DoDestroySurface(handed, s);
    CommitOk(st, s, true);
    DestroySurfaceOk(handed, s);
    assert s in st.host.tracked by {
      assert s in st.host.tracked.Keys;
    }
    var held := ReleaseSlot(ReleaseSlot(handed, Det(s)), Att(s));
    assert held.host == handed.host;
    assert handed.host.tracked[s] == Some(c) && handed.host.nextClone == c + 1;
    hide ReleaseSlot, Filter, CountEv, Listening, NestedOk, Balance;
    assert st1.host == Purge(Untrack(handed.host, s), s);
    assert c >= 0;
  }

  // ------------------------------------------------------------------ forgotten clones

  /** A clone at the host that its surface, if still known, does not track. */
  predicate Untended(h: Host, c: Clone, s: SurfaceId) {
    c in h.flying && c in h.home && h.home[c] == s && !(s in h.tracked && h.tracked[s] == Some(c))
  }

  /** Every clone at the host is one of a live surface. */
  ghost predicate NoOrphans(st: State) {
    forall c :: c in st.host.flying ==> c in st.host.home && st.host.home[c] in st.host.tracked
  }

  ghost predicate HasUntended(st: State, s: SurfaceId) {
    exists c :: Untended(st.host, c, s)
  }

  /** What a destroyed surface leaves at the host: the clones it did not track. */
  lemma LeftAtHost(st: State, s: SurfaceId)
    requires Inv(st)
    ensures var h := DoDestroySurface(st, s).host;
      && s !in h.tracked && h.home == st.host.home
      && (forall c :: c in h.flying && c in h.home && h.home[c] == s <==> Untended(st.host, c, s))
      && (forall c :: c in h.flying ==> c in st.host.flying)
      && (forall c :: c in st.host.flying && c in h.home && h.home[c] != s ==> c in h.flying)
      && (forall t :: t != s ==> (t in h.tracked <==> t in st.host.tracked))
  {
    DestroySurfaceHost(st, s);
    hide Listening, ClonesOk, Balance, Within, DoDestroySurface, Filter;
  }

  lemma OtherHost(st: State, op: Op)
    requires Inv(st) && NoOrphans(st) && !op.DestroySurface?
    ensures NoOrphans(Step(st, op))
  {
    hide Listening, Balance, Within, CountEv, Demote, ReleaseSlot, ReleaseDetached, Signal;
    match op
    case CreateSurface =>
    case Attach(s, buffer) => AttachHost(st, s, buffer);
    case Commit(s, handOver) =>
      if s in st.surf.slots {
        assert st.mode == Repeater ==> s in st.host.tracked.Keys;
        DetachedHost(st, st.surf.order);
      }
    case ComposeFrame => DetachedHost(st, st.surf.order);
    case DestroyBuffer(_) =>
    case HostRelease(_) =>
    case Tick =>
  }

  /** A step leaves at the host only clones of live surfaces, exactly if it is not the destruction of a
      surface with a clone there that it does not track: two at the host are enough. */
  lemma NoOrphansIff(st: State, op: Op)
    requires Inv(st) && NoOrphans(st)
    ensures NoOrphans(Step(st, op)) <==> !(op.DestroySurface? && op.s in st.surf.slots && HasUntended(st, op.s))
  {
    if op.DestroySurface? {
      LeftAtHost(st, op.s);
      hide Inv, DoDestroySurface, Untended;
      if op.s in st.surf.slots && HasUntended(st, op.s) {
        var c :| Untended(st.host, c, op.s);
        assert !NoOrphans(Step(st, op)) by {
          assert c in Step(st, op).host.flying;
        }
      }
    } else {
      OtherHost(st, op);
      hide *;
    }
  }

  /** Two buffers handed over one after the other, and the surface destroyed. */
  function Double(): seq<Op> {
    [] + [CreateSurface] + [Attach(0, Some(1))] + [Commit(0, true)] + [Attach(0, Some(2))] + [Commit(0, true)]
  }

  /** The clone of the first buffer stays at the host; when it is released, its buffer is given up. */
  lemma OrphanReached()
    ensures var st := Run(Repeater, Double() + [DestroySurface(0)]);
      && st.surf.slots == map[] && st.host.flying == map[0 := 1]
      && Run(Repeater, Double() + [DestroySurface(0)] + [HostRelease(0)]).log == st.log + [CloneDestroyed(0), Abandon(1)]
  {
    DoubleRun();
    RunPush(Repeater, Double(), DestroySurface(0));
    RunPush(Repeater, Double() + [DestroySurface(0)], HostRelease(0));
    var st := Run(Repeater, Double());
    hide Run, Double;
    DestroySurfaceHost(st, 0);
    var st' := DoDestroySurface(st, 0);
    assert st'.surf.slots == map[];
    assert st'.host.flying == map[0 := 1] && 0 in st'.host.home && st'.host.home[0] == 0 && st'.host.tracked == map[];
    hide DoDestroySurface;
    assert [CloneDestroyed(0)] + [Abandon(1)] == [CloneDestroyed(0), Abandon(1)];
  }

  lemma DoubleRun()
    ensures var st := Run(Repeater, Double());
      && st.surf.slots == map[0 := Slots(None, None)] && st.mode == Repeater
      && st.host.flying == map[0 := 1, 1 := 2] && st.host.home == map[0 := 0, 1 := 0] && st.host.tracked == map[0 := Some(1)]
  {
    var c1, c2 := [] + [CreateSurface], [] + [CreateSurface] + [Attach(0, Some(1))];
    var c3, c4 := c2 + [Commit(0, true)], c2 + [Commit(0, true)] + [Attach(0, Some(2))];
    RunPush(Repeater, [], CreateSurface);
    RunPush(Repeater, c1, Attach(0, Some(1)));
    RunPush(Repeater, c2, Commit(0, true));
    RunPush(Repeater, c3, Attach(0, Some(2)));
    RunPush(Repeater, c4, Commit(0, true));
    assert Run(Repeater, []) == Start(Repeater);
    hide Run;
    var s3 := Run(Repeater, c3);
    assert s3.mode == Repeater && s3.surf.slots == map[0 := Slots(None, None)];
    assert s3.host.flying == map[0 := 1] && s3.host.home == map[0 := 0] && s3.host.tracked == map[0 := Some(0)] && s3.host.nextClone == 1;
  }

  // ------------------------------------------------------------------ a late release

  lemma RunPush(mode: Mode, ops: seq<Op>, op: Op)
    ensures Run(mode, ops + [op]) == Step(Run(mode, ops), op)
  {
    assert (ops + [op])[..|ops|] == ops;
  }

  /** A surface of a repeater with buffer b attached, handed over as clone 0, destroyed by its client,
      and released by the host. */
  function Hasty(b: Buffer): seq<Op> {
    [] + [CreateSurface] + [Attach(0, Some(b))] + [Commit(0, true)] + [DestroyBuffer(b)] + [HostRelease(0)]
  }

  lemma HastyRun(b: Buffer)
    ensures var st := Run(Repeater, Hasty(b));
      st.host.queue == [Entry(0, b, 0)] && st.log == [Acquire(b), BufferDestroyed(b), CloneDestroyed(0)]
  {
    var c1, c2 := [] + [CreateSurface], [] + [CreateSurface] + [Attach(0, Some(b))];
    RunPush(Repeater, [], CreateSurface);
    RunPush(Repeater, c1, Attach(0, Some(b)));
    RunPush(Repeater, c2, Commit(0, true));
    RunPush(Repeater, c2 + [Commit(0, true)], DestroyBuffer(b));
    RunPush(Repeater, c2 + [Commit(0, true)] + [DestroyBuffer(b)], HostRelease(0));
    assert Run(Repeater, []) == Start(Repeater);
    hide Run;
    var s2 := Run(Repeater, c2);
    var s3 := DoCommit(s2, 0, true);
    assert s2.surf.Slot(Att(0)) == Some(b) && s2.log == [Acquire(b)] && s2.mode == Repeater && 0 in s2.surf.slots;
    assert s3.surf.linked == map[] && s3.log == [Acquire(b)] && s3.host.flying == map[0 := b];
    NobodyListens(s3, b);
  }

  lemma NobodyListens(st: State, b: Buffer)
    requires st.surf.linked == map[]
    ensures DoDestroyBuffer(st, b).log == st.log + [BufferDestroyed(b)] && DoDestroyBuffer(st, b).host == st.host
  {
    assert Hit(st.surf, b) == {};
  }

  /** The next tick sends a release for the buffer its client has destroyed. */
  lemma LateReleaseReached(b: Buffer)
    ensures Dead(Run(Repeater, Hasty(b)).log, b) && !NoDeadRefs(Run(Repeater, Hasty(b)))
    ensures Run(Repeater, Hasty(b) + [Tick]).log == Run(Repeater, Hasty(b)).log + [Release(b)]
  {
    var st := Run(Repeater, Hasty(b));
    HastyRun(b);
    RunPush(Repeater, Hasty(b), Tick);
    hide Run, Hasty;
    CountEvOne([Acquire(b)], BufferDestroyed(b), BufferDestroyed(b));
    CountEvOne([Acquire(b), BufferDestroyed(b)], CloneDestroyed(0), BufferDestroyed(b));
    assert [Acquire(b)] + [BufferDestroyed(b)] == [Acquire(b), BufferDestroyed(b)];
    assert [Acquire(b), BufferDestroyed(b)] + [CloneDestroyed(0)] == st.log;
    CountEntriesOne([], Entry(0, b, 0), b);
    assert [] + [Entry(0, b, 0)] == st.host.queue;
    assert Refs(st, b) > 0;
  }
}
