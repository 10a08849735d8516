/**
 * Client buffers from attach to release, across the compositor and its nested connection.  A
 * surface holds at most an attached and a detached buffer, each watched by a destroy listener; in
 * repeater mode a commit may hand the attached buffer over to the host, wrapped in a clone, and the
 * nested connection gives it back when the host is done with the clone.
 */
module Buffers {
  import opened Seqs
  import opened ZLists

  type Buffer = int
  type Clone = int

  datatype Mode = Direct | Embedded | Repeater

  /** One of the two destroy listeners of a surface. */
  datatype Listener = Listener(s: SurfaceId, attached: bool)

  datatype Slots = Slots(attached: Ref, detached: Ref)

  /** An entry of buffersToRelease. */
  datatype Entry = Entry(s: SurfaceId, remote: Buffer, clone: Clone)

  datatype Ev =
    | Acquire(b: Buffer)            // a surface took the buffer by attach
    | Release(b: Buffer)            // wl_buffer.release was sent
    | Gone(b: Buffer)               // the client destroyed it while a surface held it
    | Abandon(b: Buffer)            // handed over, and its surface was destroyed
    | CloneDestroyed(c: Clone)      // wl_buffer_destroy on the clone
    | BufferDestroyed(b: Buffer)    // the client destroyed the buffer

  /** ctx->surfaces and what hangs on their slots. */
  datatype Surfaces = Surfaces(
    next: SurfaceId,
    slots: map<SurfaceId, Slots>,
    order: seq<SurfaceId>,
    linked: map<Listener, Buffer>)      // which buffer's destroy signal a listener hangs on
  {
    function Slot(k: Listener): Ref {
      if k.s !in slots then None else if k.attached then slots[k.s].attached else slots[k.s].detached
    }
  }

  /** The nested connection. */
  datatype Host = Host(
    tracked: map<SurfaceId, Ref>,       // surfaceInfoMap[..]->buffer
    flying: map<Clone, Buffer>,         // clones at the host, and the buffer each stands for
    home: map<Clone, SurfaceId>,        // the surface each clone was made for
    nextClone: Clone,
    queue: seq<Entry>,                  // buffersToRelease
    hostOrder: seq<Clone>,              // clones in the order the host released them
    sentOrder: seq<Clone>)              // clones in the order their buffers went back to clients

  datatype State = State(mode: Mode, surf: Surfaces, host: Host, log: seq<Ev>)

  function Start(mode: Mode): State {
    State(mode, Surfaces(0, map[], [], map[]), Host(map[], map[], map[], 0, [], [], []), [])
  }

  datatype Op =
    | CreateSurface
    | DestroySurface(s: SurfaceId)
    | Attach(s: SurfaceId, buffer: Ref)
    | Commit(s: SurfaceId, handOver: bool)   // whether the repeater can clone the attached buffer
    | ComposeFrame
    | DestroyBuffer(b: Buffer)
    | HostRelease(c: Clone)
    | Tick                                    // wstContextProcessEvents: ReleaseRemoteBuffers

  // ------------------------------------------------------------------ one slot

  function SetSlot(slots: map<SurfaceId, Slots>, k: Listener, v: Ref): map<SurfaceId, Slots> {
    if k.s !in slots then slots
    else if k.attached then slots[k.s := slots[k.s].(attached := v)]
    else slots[k.s := slots[k.s].(detached := v)]
  }

  /** The slot is emptied and its listener taken off the buffer's signal. */
  function LetGo(f: Surfaces, k: Listener): Surfaces {
    f.(slots := SetSlot(f.slots, k, None), linked := f.linked - {k})
  }

  function Take(f: Surfaces, k: Listener, b: Buffer): Surfaces {
    f.(slots := SetSlot(f.slots, k, Some(b)), linked := f.linked[k := b])
  }

  /** Release what the slot holds, if anything. */
  function ReleaseSlot(st: State, k: Listener): State {
    match st.surf.Slot(k)
    case Some(b) => st.(surf := LetGo(st.surf, k), log := st.log + [Release(b)])
    case None => st
  }

  // ------------------------------------------------------------------ the requests

  function Att(s: SurfaceId): Listener { Listener(s, true) }
  function Det(s: SurfaceId): Listener { Listener(s, false) }

  /** The attached buffer, if any, becomes the detached one. */
  function Demote(f: Surfaces, s: SurfaceId): Surfaces {
    match f.Slot(Att(s))
    case Some(b) => Take(LetGo(f, Att(s)), Det(s), b)
    case None => f
  }

  /** wstISurfaceAttach */
  function DoAttach(st: State, s: SurfaceId, buffer: Ref): State {
    if st.surf.Slot(Att(s)) == buffer then st
    else
      var st' := ReleaseSlot(st, Det(s));
      var f := Demote(st'.surf, s);
      match buffer
      case Some(b) => st'.(surf := Take(f, Att(s), b), log := st'.log + [Acquire(b)])
      case None => st'.(surf := f)
  }

  /** wstCompositorReleaseDetachedBuffers */
  function ReleaseDetached(st: State, list: seq<SurfaceId>): State {
    if list == [] then st else ReleaseSlot(ReleaseDetached(st, list[..|list| - 1]), Det(list[|list| - 1]))
  }

  /** WstNestedConnectionAttachAndCommitClone (or ..Device with a remote buffer). */
  function Launch(h: Host, s: SurfaceId, b: Buffer): Host {
    var c := h.nextClone;
    h.(nextClone := c + 1, flying := h.flying[c := b], home := h.home[c := s],
       tracked := if s in h.tracked then h.tracked[s := Some(c)] else h.tracked)
  }

  /** wstISurfaceCommit */
  function DoCommit(st: State, s: SurfaceId, handOver: bool): State {
    match st.surf.Slot(Att(s))
    case Some(b) =>
      if st.mode == Repeater && handOver
      then st.(surf := LetGo(st.surf, Att(s)), host := Launch(st.host, s, b)) else st
    case None => ReleaseDetached(st, st.surf.order)
  }

  function AddSurface(f: Surfaces): Surfaces {
    f.(next := f.next + 1, slots := f.slots[f.next := Slots(None, None)], order := f.order + [f.next])
  }

  /** WstNestedConnectionCreateSurface */
  function Track(h: Host, s: SurfaceId): Host {
    h.(tracked := h.tracked[s := None])
  }

  function DoCreateSurface(st: State): State {
    st.(surf := AddSurface(st.surf),
        host := if st.mode == Repeater then Track(st.host, st.surf.next) else st.host)
  }

  function OfSurface(s: SurfaceId): Entry -> bool { (e: Entry) => e.s == s }
  function OfOthers(s: SurfaceId): Entry -> bool { (e: Entry) => e.s != s }

  function Abandoned(q: seq<Entry>): seq<Ev> {
    seq(|q|, i requires 0 <= i < |q| => Abandon(q[i].remote))
  }

  /** WstNestedConnectionDestroySurface: the tracked clone is destroyed, the entries are purged. */
  function Untrack(h: Host, s: SurfaceId): Host {
    h.(tracked := h.tracked - {s},
       flying := if s in h.tracked && h.tracked[s].Some? then h.flying - {h.tracked[s].value} else h.flying)
  }

  function UntrackLog(h: Host, s: SurfaceId): seq<Ev> {
    if s in h.tracked && h.tracked[s].Some? then
      var c := h.tracked[s].value;
      [CloneDestroyed(c)] + if c in h.flying then [Abandon(h.flying[c])] else []
    else []
  }

  function Purge(h: Host, s: SurfaceId): Host {
    h.(queue := Filter(h.queue, OfOthers(s)))
  }

  function ForgetSurface(st: State, s: SurfaceId): State {
    st.(host := Purge(Untrack(st.host, s), s),
        log := st.log + UntrackLog(st.host, s) + Abandoned(Filter(st.host.queue, OfSurface(s))))
  }

  function DropSurface(f: Surfaces, s: SurfaceId): Surfaces {
    f.(order := Remove(f.order, s), slots := f.slots - {s})
  }

  /** wstSurfaceDestroy */
  function DoDestroySurface(st: State, s: SurfaceId): State {
    var st' := ReleaseSlot(ReleaseSlot(st, Det(s)), Att(s));
    ForgetSurface(st'.(surf := DropSurface(st'.surf, s)), s)
  }

  function Hit(f: Surfaces, b: Buffer): set<Listener> {
    set k | k in f.linked && f.linked[k] == b
  }

  /** The destroy signal of b runs every listener linked to it. */
  function Signal(f: Surfaces, b: Buffer): Surfaces {
    var hit := Hit(f, b);
    f.(linked := f.linked - hit,
       slots := map s | s in f.slots ::
         Slots(if Att(s) in hit then None else f.slots[s].attached, if Det(s) in hit then None else f.slots[s].detached))
  }

  /** One event for each slot that held the buffer. */
  function Gones(n: nat, b: Buffer): seq<Ev> {
    seq(n, _ => Gone(b))
  }

  function DoDestroyBuffer(st: State, b: Buffer): State {
    st.(surf := Signal(st.surf, b), log := st.log + [BufferDestroyed(b)] + Gones(|Hit(st.surf, b)|, b))
  }

  /** buffer_release: the clone is destroyed; if its surface is still known the buffer is queued. */
  function Land(h: Host, c: Clone): Host
    requires c in h.flying && c in h.home
  {
    var b, s := h.flying[c], h.home[c];
    var h' := h.(flying := h.flying - {c}, hostOrder := h.hostOrder + [c]);
    if s in h.tracked then h'.(tracked := h.tracked[s := None], queue := h.queue + [Entry(s, b, c)]) else h'
  }

  function DoHostRelease(st: State, c: Clone): State {
    if c !in st.host.flying || c !in st.host.home then st
    else
      st.(host := Land(st.host, c),
          log := st.log + [CloneDestroyed(c)]
                 + if st.host.home[c] in st.host.tracked then [] else [Abandon(st.host.flying[c])])
  }

  function Releases(q: seq<Entry>): seq<Ev> {
    seq(|q|, i requires 0 <= i < |q| => Release(q[i].remote))
  }

  function Clones(q: seq<Entry>): seq<Clone> {
    seq(|q|, i requires 0 <= i < |q| => q[i].clone)
  }

  /** WstNestedConnectionReleaseRemoteBuffers drains the queue from the front. */
  function DoTick(st: State): State {
    st.(host := st.host.(queue := [], sentOrder := st.host.sentOrder + Clones(st.host.queue)),
        log := st.log + Releases(st.host.queue))
  }

  function Step(st: State, op: Op): State {
    match op
    case CreateSurface => DoCreateSurface(st)
    case DestroySurface(s) => if s in st.surf.slots then DoDestroySurface(st, s) else st
    case Attach(s, buffer) => if s in st.surf.slots then DoAttach(st, s, buffer) else st
    case Commit(s, handOver) => if s in st.surf.slots then DoCommit(st, s, handOver) else st
    case ComposeFrame => if st.mode == Direct then ReleaseDetached(st, st.surf.order) else st
    case DestroyBuffer(b) => DoDestroyBuffer(st, b)
    case HostRelease(c) => DoHostRelease(st, c)
    case Tick => DoTick(st)
  }

  function Run(mode: Mode, ops: seq<Op>): State {
    if ops == [] then Start(mode) else Step(Run(mode, ops[..|ops| - 1]), ops[|ops| - 1])
  }

  // ------------------------------------------------------------------ invariants

  /** A listener is linked exactly when its slot is not null, to the buffer in the slot; and the two
      slots of a surface never hold the same buffer. */
  ghost predicate Listening(f: Surfaces) {
    && (forall k :: k in f.linked ==> f.Slot(k) == Some(f.linked[k]))
    && (forall k: Listener :: f.Slot(k).Some? ==> k in f.linked)
    && (forall s :: s in f.slots && f.slots[s].attached.Some? ==> f.slots[s].attached != f.slots[s].detached)
    && (forall s :: s in f.slots <==> s in f.order)
    && Distinct(f.order)
    && (forall s :: s in f.slots ==> s < f.next)
  }

  // counting

  function CountOf<K>(m: map<K, Buffer>, b: Buffer): nat {
    |set k | k in m && m[k] == b|
  }

  function CountEntries(q: seq<Entry>, b: Buffer): nat {
    if q == [] then 0 else CountEntries(q[..|q| - 1], b) + if q[|q| - 1].remote == b then 1 else 0
  }

  function CountEv(log: seq<Ev>, e: Ev): nat {
    if log == [] then 0 else CountEv(log[..|log| - 1], e) + if log[|log| - 1] == e then 1 else 0
  }

  /** Where the acquisitions of a buffer are now: held by surfaces, at the host, queued, released,
      destroyed by the client while held, or abandoned with their surface. */
  function Accounted(st: State, b: Buffer): nat {
    CountOf(st.surf.linked, b) + CountOf(st.host.flying, b) + CountEntries(st.host.queue, b)
    + CountEv(st.log, Release(b)) + CountEv(st.log, Gone(b)) + CountEv(st.log, Abandon(b))
  }

  function Balance(st: State, b: Buffer): int {
    CountEv(st.log, Acquire(b)) - Accounted(st, b)
  }

  ghost predicate SameBalance(st: State, st': State) {
    forall b :: Balance(st', b) == Balance(st, b)
  }

  ghost predicate Balanced(st: State) {
    forall b :: Balance(st, b) == 0
  }

  // ------------------------------------------------------------------ counting lemmas

  lemma CountPut<K>(m: map<K, Buffer>, k: K, v: Buffer, b: Buffer)
    requires k !in m
    ensures CountOf(m[k := v], b) == CountOf(m, b) + if v == b then 1 else 0
  {
    var m' := m[k := v];
    var old', new' := set x | x in m && m[x] == b, set x | x in m' && m'[x] == b;
    assert new' == if v == b then old' + {k} else old';
  }

  lemma CountDrop<K>(m: map<K, Buffer>, k: K, b: Buffer)
    ensures CountOf(m - {k}, b) == CountOf(m, b) - if k in m && m[k] == b then 1 else 0
  {
    var m' := m - {k};
    var old', new' := set x | x in m && m[x] == b, set x | x in m' && m'[x] == b;
    assert new' == old' - {k};
  }

  lemma {:induction false} CountEvAppend(log: seq<Ev>, ext: seq<Ev>, e: Ev)
    ensures CountEv(log + ext, e) == CountEv(log, e) + CountEv(ext, e)
  {
    if ext == [] {
      assert log + ext == log;
    } else {
      CountEvAppend(log, ext[..|ext| - 1], e);
      assert (log + ext)[..|log + ext| - 1] == log + ext[..|ext| - 1];
    }
  }

  lemma CountEvOne(log: seq<Ev>, x: Ev, e: Ev)
    ensures CountEv(log + [x], e) == CountEv(log, e) + if x == e then 1 else 0
  {
    assert (log + [x])[..|log|] == log;
  }

  lemma CountAllOne(log: seq<Ev>, x: Ev)
    ensures forall e :: CountEv(log + [x], e) == CountEv(log, e) + if x == e then 1 else 0
  {
    forall e ensures CountEv(log + [x], e) == CountEv(log, e) + if x == e then 1 else 0 {
      CountEvOne(log, x, e);
    }
  }

  lemma {:induction false} CountRelease(q: seq<Entry>, e: Ev)
    ensures CountEv(Releases(q), e) == if e.Release? then CountEntries(q, e.b) else 0
  {
    if q != [] {
      var n := |q| - 1;
      CountRelease(q[..n], e);
      assert Releases(q)[..n] == Releases(q[..n]);
    }
  }

  lemma {:induction false} CountAbandoned(q: seq<Entry>, e: Ev)
    ensures CountEv(Abandoned(q), e) == if e.Abandon? then CountEntries(q, e.b) else 0
  {
    if q != [] {
      var n := |q| - 1;
      CountAbandoned(q[..n], e);
      assert Abandoned(q)[..n] == Abandoned(q[..n]);
    }
  }

  lemma FilterLast(q: seq<Entry>, p: Entry -> bool)
    requires q != []
    ensures var n := |q| - 1;
      Filter(q, p) == if p(q[n]) then Filter(q[..n], p) + [q[n]] else Filter(q[..n], p)
  {
    var n := |q| - 1;
    assert q == q[..n + 1];
    hide *;
    FilterPush(q, n, p);
    assert Filter(q[..n], p) + [] == Filter(q[..n], p);
  }

  lemma {:induction false} CountSplit(q: seq<Entry>, s: SurfaceId, b: Buffer)
    ensures CountEntries(q, b) == CountEntries(Filter(q, OfSurface(s)), b) + CountEntries(Filter(q, OfOthers(s)), b)
  {
    if q != [] {
      var n := |q| - 1;
      var rest, last := q[..n], q[n];
      CountSplit(rest, s, b);
      FilterLast(q, OfSurface(s));
      FilterLast(q, OfOthers(s));
      hide Filter;
      CountEntriesOne(Filter(rest, OfSurface(s)), last, b);
      CountEntriesOne(Filter(rest, OfOthers(s)), last, b);
    }
  }

  lemma CountEntriesOne(q: seq<Entry>, x: Entry, b: Buffer)
    ensures CountEntries(q + [x], b) == CountEntries(q, b) + if x.remote == b then 1 else 0
  {
    assert (q + [x])[..|q|] == q;
  }

  lemma {:induction false} CountSame(n: nat, b: Buffer, e: Ev)
    ensures CountEv(Gones(n, b), e) == if e == Gone(b) then n else 0
  {
    if n > 0 {
      CountSame(n - 1, b, e);
      assert Gones(n, b)[..n - 1] == Gones(n - 1, b);
    }
  }

  // ------------------------------------------------------------------ slots

  ghost predicate SameClones(log: seq<Ev>, log': seq<Ev>) {
    forall c :: CountEv(log', CloneDestroyed(c)) == CountEv(log, CloneDestroyed(c))
  }

  /** A step on slots: well linked afterwards, accounts kept, the same surfaces, host untouched. */
  ghost predicate SlotsStep(st: State, st': State) {
    && Listening(st'.surf) && SameBalance(st, st') && SameClones(st.log, st'.log)
    && st'.mode == st.mode && st'.host == st.host && st'.surf.slots.Keys == st.surf.slots.Keys
  }

  lemma LinkedSlot(f: Surfaces, k: Listener)
    requires Listening(f)
    ensures f.Slot(k).Some? ==> k in f.linked && f.linked[k] == f.Slot(k).value
    ensures f.Slot(k).None? ==> k !in f.linked
  {
  }

  lemma LetGoListening(f: Surfaces, k: Listener)
    requires Listening(f)
    ensures var f' := LetGo(f, k);
      && Listening(f') && f'.slots.Keys == f.slots.Keys && f'.order == f.order && f'.Slot(k) == None
      && (forall j: Listener :: j != k ==> f'.Slot(j) == f.Slot(j))
  {
    var f' := LetGo(f, k);
    assert f'.slots.Keys == f.slots.Keys;
    assert forall j: Listener :: j != k ==> f'.Slot(j) == f.Slot(j);
  }

  lemma TakeListening(f: Surfaces, k: Listener, b: Buffer)
    requires Listening(f) && k.s in f.slots && f.Slot(k) == None && f.Slot(Listener(k.s, !k.attached)) != Some(b)
    ensures var f' := Take(f, k, b);
      && Listening(f') && f'.slots.Keys == f.slots.Keys && f'.order == f.order && f'.Slot(k) == Some(b)
      && (forall j: Listener :: j != k ==> f'.Slot(j) == f.Slot(j))
  {
    var f' := Take(f, k, b);
    assert f'.slots.Keys == f.slots.Keys;
    assert forall j: Listener :: j != k ==> f'.Slot(j) == f.Slot(j);
  }

  lemma ReleaseSlotOk(st: State, k: Listener)
    requires Listening(st.surf)
    ensures var st' := ReleaseSlot(st, k);
      && SlotsStep(st, st') && st'.surf.Slot(k) == None && st'.surf.order == st.surf.order
      && (forall j: Listener :: j != k ==> st'.surf.Slot(j) == st.surf.Slot(j))
  {
    var st' := ReleaseSlot(st, k);
    if st.surf.Slot(k).Some? {
      LinkedSlot(st.surf, k);
      LetGoListening(st.surf, k);
      CountAllOne(st.log, Release(st.surf.Slot(k).value));
      hide Listening, CountOf, CountEv, CountEntries;
      forall b ensures Balance(st', b) == Balance(st, b) {
        CountDrop(st.surf.linked, k, b);
      }
    }
  }

  lemma DemoteOk(f: Surfaces, s: SurfaceId)
    requires Listening(f) && f.Slot(Det(s)) == None && s in f.slots
    ensures var f' := Demote(f, s);
      && Listening(f') && f'.slots.Keys == f.slots.Keys && f'.Slot(Att(s)) == None && f'.Slot(Det(s)) == f.Slot(Att(s))
      && (forall b :: CountOf(f'.linked, b) == CountOf(f.linked, b))
  {
    if f.Slot(Att(s)).Some? {
      var held, f1 := f.Slot(Att(s)).value, LetGo(f, Att(s));
      LinkedSlot(f, Att(s));
      LetGoListening(f, Att(s));
      LinkedSlot(f1, Det(s));
      TakeListening(f1, Det(s), held);
      forall b ensures CountOf(Demote(f, s).linked, b) == CountOf(f.linked, b) {
        CountDrop(f.linked, Att(s), b);
        CountPut(f1.linked, Det(s), held, b);
      }
    }
  }

  function Acquired(st: State, s: SurfaceId, b: Buffer): State {
    st.(surf := Take(st.surf, Att(s), b), log := st.log + [Acquire(b)])
  }

  lemma AcquireBalance(st: State, s: SurfaceId, b: Buffer)
    requires Att(s) !in st.surf.linked
    ensures SameBalance(st, Acquired(st, s, b)) && SameClones(st.log, Acquired(st, s, b).log)
  {
    CountAllOne(st.log, Acquire(b));
    hide CountOf, CountEv, CountEntries;
    forall c ensures Balance(Acquired(st, s, b), c) == Balance(st, c) {
      CountPut(st.surf.linked, Att(s), b, c);
    }
  }

  /** Taking a buffer into an empty attached slot is one acquisition. */
  lemma AcquireOk(st: State, s: SurfaceId, b: Buffer)
    requires Listening(st.surf) && s in st.surf.slots && st.surf.Slot(Att(s)) == None && st.surf.Slot(Det(s)) != Some(b)
    ensures SlotsStep(st, Acquired(st, s, b))
  {
    TakeListening(st.surf, Att(s), b);
    LinkedSlot(st.surf, Att(s));
    AcquireBalance(st, s, b);
    hide Listening, Balance, CountEv, Take;
  }

  lemma DemoteStep(st: State, s: SurfaceId)
    requires Listening(st.surf) && st.surf.Slot(Det(s)) == None && s in st.surf.slots
    ensures SlotsStep(st, st.(surf := Demote(st.surf, s)))
  {
    DemoteOk(st.surf, s);
    hide Listening, CountOf, CountEv, CountEntries, Demote;
  }

  lemma SlotsStepTrans(a: State, b: State, c: State)
    requires SlotsStep(a, b) && SlotsStep(b, c)
    ensures SlotsStep(a, c)
  {
    hide Listening, Balance, CountEv;
  }

  lemma SlotsStepSame(st: State)
    requires Listening(st.surf)
    ensures SlotsStep(st, st)
  {
  }

  /** What attach consists of. */
  lemma AttachParts(st: State, s: SurfaceId, buffer: Ref)
    ensures var st1 := ReleaseSlot(st, Det(s));
      var st2 := st1.(surf := Demote(st1.surf, s));
      DoAttach(st, s, buffer) ==
        if st.surf.Slot(Att(s)) == buffer then st
        else if buffer.Some? then Acquired(st2, s, buffer.value)
        else st2
  {
    hide ReleaseSlot, Demote, Take;
  }

  lemma AttachOk(st: State, s: SurfaceId, buffer: Ref)
    requires Listening(st.surf) && s in st.surf.slots
    ensures SlotsStep(st, DoAttach(st, s, buffer))
  {
    AttachParts(st, s, buffer);
    if st.surf.Slot(Att(s)) == buffer {
      SlotsStepSame(st);
    } else {
      var st1 := ReleaseSlot(st, Det(s));
      var st2 := st1.(surf := Demote(st1.surf, s));
      ReleaseSlotOk(st, Det(s));
      assert Listening(st1.surf) && s in st1.surf.slots.Keys;
      DemoteOk(st1.surf, s);
      DemoteStep(st1, s);
      SlotsStepTrans(st, st1, st2);
      assert s in st2.surf.slots.Keys;
      hide *;
      if buffer.Some? {
        AcquireOk(st2, s, buffer.value);
        SlotsStepTrans(st, st2, DoAttach(st, s, buffer));
      }
    }
  }

  /** Releasing over a list of surfaces empties their detached slots and touches no attached one. */
  lemma {:induction false} ReleaseDetachedOk(st: State, list: seq<SurfaceId>)
    requires Listening(st.surf)
    ensures var st' := ReleaseDetached(st, list);
      && SlotsStep(st, st') && st'.surf.order == st.surf.order
      && (forall s :: s in list ==> st'.surf.Slot(Det(s)) == None)
      && (forall s :: st'.surf.Slot(Att(s)) == st.surf.Slot(Att(s)))
      && (forall s :: st'.surf.Slot(Det(s)) == None || st'.surf.Slot(Det(s)) == st.surf.Slot(Det(s)))
  {
    if list == [] {
      SlotsStepSame(st);
      hide SlotsStep;
    } else {
      var rest, s := list[..|list| - 1], list[|list| - 1];
      var mid := ReleaseDetached(st, rest);
      assert list == rest + [s] && ReleaseDetached(st, list) == ReleaseSlot(mid, Det(s));
      ReleaseDetachedOk(st, rest);
      assert Listening(mid.surf);
      ReleaseSlotOk(mid, Det(s));
      SlotsStepTrans(st, mid, ReleaseSlot(mid, Det(s)));
      hide ReleaseDetached, ReleaseSlot, SlotsStep, Listening;
    }
  }

  lemma AttachHost(st: State, s: SurfaceId, buffer: Ref)
    ensures DoAttach(st, s, buffer).host == st.host && DoAttach(st, s, buffer).mode == st.mode
  {
  }

  lemma DestroySurfaceHost(st: State, s: SurfaceId)
    ensures DoDestroySurface(st, s).host == Purge(Untrack(st.host, s), s)
  {
    hide Purge, Untrack, UntrackLog, Abandoned, Filter;
  }

  lemma {:induction false} DetachedHost(st: State, list: seq<SurfaceId>)
    ensures ReleaseDetached(st, list).host == st.host
  {
    if list != [] {
      DetachedHost(st, list[..|list| - 1]);
    }
  }

  lemma DestroyBufferEv(log: seq<Ev>, buf: Buffer, n: nat, e: Ev)
    requires !e.BufferDestroyed?
    ensures CountEv(log + [BufferDestroyed(buf)] + Gones(n, buf), e)
      == CountEv(log, e) + if e == Gone(buf) then n else 0
  {
    CountEvOne(log, BufferDestroyed(buf), e);
    CountEvAppend(log + [BufferDestroyed(buf)], Gones(n, buf), e);
    CountSame(n, buf, e);
  }

  lemma DestroyBufferCounts(st: State, buf: Buffer)
    ensures SameBalance(st, DoDestroyBuffer(st, buf)) && SameClones(st.log, DoDestroyBuffer(st, buf).log)
  {
    var st', hit := DoDestroyBuffer(st, buf), Hit(st.surf, buf);
    forall c ensures CountEv(st'.log, CloneDestroyed(c)) == CountEv(st.log, CloneDestroyed(c)) {
      DestroyBufferEv(st.log, buf, |hit|, CloneDestroyed(c));
    }
    forall b ensures Balance(st', b) == Balance(st, b) {
      assert CountOf(st'.surf.linked, b) == if b == buf then 0 else CountOf(st.surf.linked, b) by {
        var was, now := Hit(st.surf, b), Hit(st'.surf, b);
        assert now == if b == buf then {} else was;
      }
      DestroyBufferEv(st.log, buf, |hit|, Acquire(b));
      DestroyBufferEv(st.log, buf, |hit|, Release(b));
      DestroyBufferEv(st.log, buf, |hit|, Gone(b));
      DestroyBufferEv(st.log, buf, |hit|, Abandon(b));
    }
  }

  lemma SignalSlot(f: Surfaces, buf: Buffer, k: Listener)
    requires Listening(f)
    ensures Signal(f, buf).Slot(k) == if f.Slot(k) == Some(buf) then None else f.Slot(k)
  {
    assert k == if k.attached then Att(k.s) else Det(k.s);
    assert k in Hit(f, buf) <==> f.Slot(k) == Some(buf);
  }

  lemma SignalLinked(f: Surfaces, buf: Buffer, k: Listener)
    requires Listening(f)
    ensures var f' := Signal(f, buf);
      && (k in f'.linked ==> f'.Slot(k) == Some(f'.linked[k]))
      && (f'.Slot(k).Some? ==> k in f'.linked)
  {
    SignalSlot(f, buf, k);
    SignalLists(f, buf);
    LinkedSlot(f, k);
    hide Signal, Hit, Listening;
  }

  lemma SignalApart(f: Surfaces, buf: Buffer, s: SurfaceId)
    requires Listening(f) && s in f.slots
    ensures var now := Signal(f, buf).slots;
      s in now && (now[s].attached.Some? ==> now[s].attached != now[s].detached)
  {
    SignalSlot(f, buf, Att(s));
    SignalSlot(f, buf, Det(s));
    SignalLists(f, buf);
    assert s in Signal(f, buf).slots.Keys;
    hide Signal, Hit;
  }

  /** Destroying a buffer clears every slot that holds it, and no other. */
  lemma SignalOk(f: Surfaces, buf: Buffer)
    requires Listening(f)
    ensures var f' := Signal(f, buf);
      && Listening(f') && f'.slots.Keys == f.slots.Keys
      && forall k: Listener :: f'.Slot(k) == if f.Slot(k) == Some(buf) then None else f.Slot(k)
  {
    var f' := Signal(f, buf);
    SignalLists(f, buf);
    hide Signal, Hit;
    forall k: Listener ensures f'.Slot(k) == if f.Slot(k) == Some(buf) then None else f.Slot(k) {
      SignalSlot(f, buf, k);
    }
    forall k: Listener
      ensures k in f'.linked ==> f'.Slot(k) == Some(f'.linked[k])
      ensures f'.Slot(k).Some? ==> k in f'.linked
    {
      SignalLinked(f, buf, k);
    }
    assert forall s :: s in f'.slots <==> s in f'.slots.Keys;
    assert forall s :: s in f.slots <==> s in f.slots.Keys;
    forall s | s in f'.slots && f'.slots[s].attached.Some? ensures f'.slots[s].attached != f'.slots[s].detached {
      SignalApart(f, buf, s);
    }
  }

  lemma SignalLists(f: Surfaces, buf: Buffer)
    ensures var f' := Signal(f, buf);
      && f'.slots.Keys == f.slots.Keys && f'.order == f.order && f'.next == f.next
      && (forall k :: k in f'.linked <==> k in f.linked && f.linked[k] != buf)
      && (forall k :: k in f'.linked ==> f'.linked[k] == f.linked[k])
  {
    assert Signal(f, buf).slots.Keys == f.slots.Keys;
  }

  // ------------------------------------------------------------------ the nested connection

  /** One sequence is the other with some elements left out. */
  ghost predicate Within(a: seq<Clone>, b: seq<Clone>) {
    if a == [] then true
    else if b == [] then false
    else Within(a, b[..|b| - 1]) || (a[|a| - 1] == b[|b| - 1] && Within(a[..|a| - 1], b[..|b| - 1]))
  }

  lemma WithinPush(a: seq<Clone>, b: seq<Clone>, x: Clone)
    requires Within(a, b)
    ensures Within(a + [x], b + [x])
  {
    assert (a + [x])[..|a|] == a && (b + [x])[..|b|] == b;
  }

  lemma {:induction false} WithinTrans(a: seq<Clone>, b: seq<Clone>, c: seq<Clone>)
    requires Within(a, b) && Within(b, c)
    ensures Within(a, c)
    decreases |b| + |c|
  {
    if a != [] {
      var a', b', c' := a[..|a| - 1], b[..|b| - 1], c[..|c| - 1];
      if Within(b, c') {
        WithinTrans(a, b, c');
      } else if Within(a, b') {
        WithinTrans(a, b', c');
      } else {
        WithinTrans(a', b', c');
      }
    }
  }

  lemma {:induction false} WithinSelf(a: seq<Clone>)
    ensures Within(a, a)
  {
    if a != [] {
      WithinSelf(a[..|a| - 1]);
    }
  }

  lemma WithinSkip(a: seq<Clone>, b: seq<Clone>, x: Clone)
    requires Within(a, b)
    ensures Within(a, b + [x])
  {
    assert (b + [x])[..|b|] == b;
  }

  lemma ClonesPush(p: seq<Clone>, q: seq<Entry>, x: Entry)
    ensures p + Clones(q + [x]) == (p + Clones(q)) + [x.clone]
  {
  }

  lemma {:induction false} WithinFilter(p: seq<Clone>, q: seq<Entry>, f: Entry -> bool)
    ensures Within(p + Clones(Filter(q, f)), p + Clones(q))
  {
    if q == [] {
      assert p + Clones(q) == p;
      WithinSelf(p);
    } else {
      var rest, x := q[..|q| - 1], q[|q| - 1];
      assert q == rest + [x];
      WithinFilter(p, rest, f);
      FilterLast(q, f);
      hide Filter, Within, Clones;
      ClonesPush(p, rest, x);
      if f(x) {
        ClonesPush(p, Filter(rest, f), x);
        WithinPush(p + Clones(Filter(rest, f)), p + Clones(rest), x.clone);
      } else {
        WithinSkip(p + Clones(Filter(rest, f)), p + Clones(rest), x.clone);
      }
    }
  }

  /** Clones: made for a surface, at the host until destroyed, destroyed exactly once. */
  ghost predicate ClonesOk(h: Host, log: seq<Ev>) {
    && (forall c :: c in h.flying ==> 0 <= c < h.nextClone && c in h.home)
    && (forall c :: CountEv(log, CloneDestroyed(c)) == if 0 <= c < h.nextClone && c !in h.flying then 1 else 0)
    && (forall c :: c in h.hostOrder ==> 0 <= c < h.nextClone && c !in h.flying)
    && Distinct(h.hostOrder)
    && 0 <= h.nextClone
  }

  /** What is tracked is alive and of that surface; what is queued is of known surfaces, and goes
      back in host-release order. */
  ghost predicate NestedOk(h: Host) {
    && (forall s :: s in h.tracked && h.tracked[s].Some? ==>
          var c := h.tracked[s].value; c in h.flying && c in h.home && h.home[c] == s)
    && (forall i :: 0 <= i < |h.queue| ==> h.queue[i].s in h.tracked)
    && Within(h.sentOrder + Clones(h.queue), h.hostOrder)
  }

  /** The host side knows exactly the live surfaces, in repeater mode. */
  ghost predicate Known(st: State) {
    st.host.tracked.Keys == if st.mode == Repeater then st.surf.slots.Keys else {}
  }

  ghost predicate Inv(st: State) {
    Listening(st.surf) && ClonesOk(st.host, st.log) && NestedOk(st.host) && Known(st) && Balanced(st)
  }

  lemma LaunchOk(h: Host, log: seq<Ev>, s: SurfaceId, b: Buffer)
    requires ClonesOk(h, log) && NestedOk(h)
    ensures ClonesOk(Launch(h, s, b), log) && NestedOk(Launch(h, s, b)) && Launch(h, s, b).tracked.Keys == h.tracked.Keys
  {
    hide Within, CountEv;
    assert Launch(h, s, b).tracked.Keys == h.tracked.Keys;
  }

  lemma LandClones(h: Host, log: seq<Ev>, log': seq<Ev>, c: Clone)
    requires ClonesOk(h, log) && c in h.flying
    requires forall d :: CountEv(log', CloneDestroyed(d)) == CountEv(log, CloneDestroyed(d)) + if d == c then 1 else 0
    ensures ClonesOk(Land(h, c), log')
  {
    DistinctConcat(h.hostOrder, [c]);
    hide CountEv;
  }

  lemma LandNested(h: Host, log: seq<Ev>, c: Clone)
    requires ClonesOk(h, log) && NestedOk(h) && c in h.flying
    ensures NestedOk(Land(h, c)) && Land(h, c).tracked.Keys == h.tracked.Keys
  {
    var s, h', back := h.home[c], Land(h, c), h.sentOrder + Clones(h.queue);
    hide Within, CountEv;
    if s in h.tracked {
      WithinPush(back, h.hostOrder, c);
      assert h'.sentOrder + Clones(h'.queue) == back + [c];
      assert h'.tracked.Keys == h.tracked.Keys;
    } else {
      WithinSkip(back, h.hostOrder, c);
    }
  }

  lemma HostReleaseEv(st: State, c: Clone, e: Ev)
    requires c in st.host.flying && c in st.host.home
    ensures CountEv(DoHostRelease(st, c).log, e) == CountEv(st.log, e)
      + (if e == CloneDestroyed(c) then 1 else 0)
      + if e == Abandon(st.host.flying[c]) && st.host.home[c] !in st.host.tracked then 1 else 0
  {
    CountEvOne(st.log, CloneDestroyed(c), e);
    CountEvOne(st.log + [CloneDestroyed(c)], Abandon(st.host.flying[c]), e);
    hide CountEv;
    assert st.log + [CloneDestroyed(c)] + [] == st.log + [CloneDestroyed(c)];
  }

  lemma HostReleaseCounts(st: State, c: Clone)
    requires c in st.host.flying && c in st.host.home
    ensures SameBalance(st, DoHostRelease(st, c))
    ensures forall d :: CountEv(DoHostRelease(st, c).log, CloneDestroyed(d))
                     == CountEv(st.log, CloneDestroyed(d)) + if d == c then 1 else 0
  {
    var b0, s, st' := st.host.flying[c], st.host.home[c], DoHostRelease(st, c);
    hide CountOf, CountEv, CountEntries;
    forall b ensures Balance(st', b) == Balance(st, b) {
      HostReleaseEv(st, c, Acquire(b));
      HostReleaseEv(st, c, Release(b));
      HostReleaseEv(st, c, Gone(b));
      HostReleaseEv(st, c, Abandon(b));
      CountDrop(st.host.flying, c, b);
      CountEntriesOne(st.host.queue, Entry(s, b0, c), b);
    }
    forall d ensures CountEv(st'.log, CloneDestroyed(d)) == CountEv(st.log, CloneDestroyed(d)) + if d == c then 1 else 0 {
      HostReleaseEv(st, c, CloneDestroyed(d));
    }
  }

  function Untracked(st: State, s: SurfaceId): State {
    st.(host := Untrack(st.host, s), log := st.log + UntrackLog(st.host, s))
  }

  /** What untracking adds to the log: at most the end of one clone and of one handover. */
  lemma UntrackEv(h: Host, log: seq<Ev>, s: SurfaceId, e: Ev)
    requires s in h.tracked && h.tracked[s].Some? && h.tracked[s].value in h.flying
    ensures var c := h.tracked[s].value;
      CountEv(log + UntrackLog(h, s), e)
        == CountEv(log, e) + (if e == CloneDestroyed(c) then 1 else 0) + (if e == Abandon(h.flying[c]) then 1 else 0)
  {
    var c := h.tracked[s].value;
    CountEvOne(log, CloneDestroyed(c), e);
    CountEvOne(log + [CloneDestroyed(c)], Abandon(h.flying[c]), e);
    assert log + UntrackLog(h, s) == log + [CloneDestroyed(c)] + [Abandon(h.flying[c])];
  }

  lemma UntrackBalance(st: State, s: SurfaceId, b: Buffer)
    requires s in st.host.tracked && st.host.tracked[s].Some? && st.host.tracked[s].value in st.host.flying
    ensures Balance(Untracked(st, s), b) == Balance(st, b)
  {
    UntrackEv(st.host, st.log, s, Acquire(b));
    UntrackEv(st.host, st.log, s, Release(b));
    UntrackEv(st.host, st.log, s, Gone(b));
    UntrackEv(st.host, st.log, s, Abandon(b));
    CountDrop(st.host.flying, st.host.tracked[s].value, b);
    hide CountOf, CountEv, CountEntries, UntrackLog;
  }

  lemma UntrackCounts(st: State, s: SurfaceId)
    requires s in st.host.tracked && st.host.tracked[s].Some? ==> st.host.tracked[s].value in st.host.flying
    ensures var st' := Untracked(st, s);
      && SameBalance(st, st')
      && forall d :: CountEv(st'.log, CloneDestroyed(d)) == CountEv(st.log, CloneDestroyed(d))
           + if s in st.host.tracked && st.host.tracked[s] == Some(d) then 1 else 0
  {
    if s in st.host.tracked && st.host.tracked[s].Some? {
      forall b ensures Balance(Untracked(st, s), b) == Balance(st, b) {
        UntrackBalance(st, s, b);
      }
      forall d ensures CountEv(Untracked(st, s).log, CloneDestroyed(d)) == CountEv(st.log, CloneDestroyed(d))
                         + if st.host.tracked[s] == Some(d) then 1 else 0
      {
        UntrackEv(st.host, st.log, s, CloneDestroyed(d));
      }
      hide Balance, CountEv;
    } else {
      assert st.log + [] == st.log;
    }
  }

  lemma PurgeCounts(st: State, s: SurfaceId)
    ensures var st' := st.(host := Purge(st.host, s), log := st.log + Abandoned(Filter(st.host.queue, OfSurface(s))));
      SameBalance(st, st') && SameClones(st.log, st'.log)
  {
    var out := Filter(st.host.queue, OfSurface(s));
    var st' := st.(host := Purge(st.host, s), log := st.log + Abandoned(out));
    forall e ensures CountEv(st'.log, e) == CountEv(st.log, e) + if e.Abandon? then CountEntries(out, e.b) else 0 {
      CountEvAppend(st.log, Abandoned(out), e);
      CountAbandoned(out, e);
    }
    hide CountOf, CountEv, CountEntries, Filter;
    forall b ensures Balance(st', b) == Balance(st, b) {
      CountSplit(st.host.queue, s, b);
    }
  }

  lemma UntrackClones(h: Host, log: seq<Ev>, log': seq<Ev>, s: SurfaceId)
    requires ClonesOk(h, log) && NestedOk(h)
    requires forall d :: CountEv(log', CloneDestroyed(d)) == CountEv(log, CloneDestroyed(d))
                           + if s in h.tracked && h.tracked[s] == Some(d) then 1 else 0
    ensures ClonesOk(Purge(Untrack(h, s), s), log')
  {
    hide CountEv, Within;
  }

  lemma UntrackNested(h: Host, log: seq<Ev>, s: SurfaceId)
    requires ClonesOk(h, log) && NestedOk(h)
    ensures NestedOk(Purge(Untrack(h, s), s))
  {
    var h', back := Purge(Untrack(h, s), s), h.sentOrder + Clones(h.queue);
    WithinFilter(h.sentOrder, h.queue, OfOthers(s));
    WithinTrans(h'.sentOrder + Clones(h'.queue), back, h.hostOrder);
    hide Within, CountEv, Filter;
    forall i | 0 <= i < |h'.queue| ensures h'.queue[i].s in h'.tracked {
      assert h'.queue[i] in Filter(h.queue, OfOthers(s));
      assert h'.queue[i] in h.queue && h'.queue[i].s != s;
    }
    forall t | t in h'.tracked && h'.tracked[t].Some?
      ensures var c := h'.tracked[t].value; c in h'.flying && c in h'.home && h'.home[c] == t
    {
      assert t in h.tracked && t != s;
    }
  }

  lemma ForgetSurfaceOk(st: State, s: SurfaceId)
    requires ClonesOk(st.host, st.log) && NestedOk(st.host)
    ensures var st' := ForgetSurface(st, s);
      ClonesOk(st'.host, st'.log) && NestedOk(st'.host) && SameBalance(st, st')
  {
    var st1 := Untracked(st, s);
    UntrackCounts(st, s);
    PurgeCounts(st1, s);
    assert ForgetSurface(st, s) == st1.(host := Purge(st1.host, s), log := st1.log + Abandoned(Filter(st1.host.queue, OfSurface(s))));
    hide Balance, CountEv, Untrack, Purge, UntrackLog, Abandoned;
    UntrackClones(st.host, st.log, ForgetSurface(st, s).log, s);
    UntrackNested(st.host, st.log, s);
  }

  // ------------------------------------------------------------------ every step

  lemma SlotsStepInv(st: State, st': State)
    requires Inv(st) && SlotsStep(st, st')
    ensures Inv(st')
  {
    hide Listening, NestedOk, Balance, CountEv;
  }

  lemma CreateListening(f: Surfaces)
    requires Listening(f)
    ensures Listening(AddSurface(f))
  {
    var f' := AddSurface(f);
    assert f.next !in f.slots && f.next !in f.order;
    DistinctConcat(f.order, [f.next]);
    assert forall k: Listener :: f'.Slot(k) == f.Slot(k);
  }

  lemma CreateNested(h: Host, log: seq<Ev>, s: SurfaceId)
    requires NestedOk(h) && ClonesOk(h, log)
    ensures NestedOk(Track(h, s)) && ClonesOk(Track(h, s), log)
  {
    hide Within, CountEv;
  }

  lemma CreateBalance(st: State)
    ensures SameBalance(st, DoCreateSurface(st))
  {
    hide CountEv, CountOf, CountEntries;
  }

  lemma CreateKnown(st: State)
    requires Known(st)
    ensures Known(DoCreateSurface(st))
  {
    var st', s := DoCreateSurface(st), st.surf.next;
    assert st'.surf.slots.Keys == st.surf.slots.Keys + {s};
    if st.mode == Repeater {
      assert st'.host.tracked.Keys == st.host.tracked.Keys + {s};
    }
  }

  lemma CreateOk(st: State)
    requires Inv(st)
    ensures Inv(DoCreateSurface(st))
  {
    CreateListening(st.surf);
    CreateNested(st.host, st.log, st.surf.next);
    CreateBalance(st);
    CreateKnown(st);
    hide Listening, NestedOk, ClonesOk, Known, Balance, AddSurface, Track;
  }

  lemma HandOverBalance(st: State, s: SurfaceId, buf: Buffer)
    requires Listening(st.surf) && ClonesOk(st.host, st.log) && st.surf.Slot(Att(s)) == Some(buf)
    ensures SameBalance(st, st.(surf := LetGo(st.surf, Att(s)), host := Launch(st.host, s, buf)))
  {
    LinkedSlot(st.surf, Att(s));
    var st' := st.(surf := LetGo(st.surf, Att(s)), host := Launch(st.host, s, buf));
    assert st.host.nextClone !in st.host.flying;
    hide Listening, ClonesOk, CountOf, CountEv;
    forall b ensures Balance(st', b) == Balance(st, b) {
      CountDrop(st.surf.linked, Att(s), b);
      CountPut(st.host.flying, st.host.nextClone, buf, b);
    }
  }

  lemma CommitOk(st: State, s: SurfaceId, handOver: bool)
    requires Inv(st) && s in st.surf.slots
    ensures Inv(DoCommit(st, s, handOver))
  {
    match st.surf.Slot(Att(s))
    case Some(b) =>
      if st.mode == Repeater && handOver {
        HandOverBalance(st, s, b);
        LetGoListening(st.surf, Att(s));
        LaunchOk(st.host, st.log, s, b);
        hide Listening, NestedOk, ClonesOk, Balance, LetGo, Launch;
      }
    case None =>
      ReleaseDetachedOk(st, st.surf.order);
      SlotsStepInv(st, ReleaseDetached(st, st.surf.order));
  }

  lemma HostReleaseOk(st: State, c: Clone)
    requires Inv(st)
    ensures Inv(DoHostRelease(st, c))
  {
    if c in st.host.flying && c in st.host.home {
      HostReleaseCounts(st, c);
      LandClones(st.host, st.log, DoHostRelease(st, c).log, c);
      LandNested(st.host, st.log, c);
      hide Listening, NestedOk, ClonesOk, Balance, Land;
    }
  }

  lemma TickEv(st: State, e: Ev)
    ensures CountEv(DoTick(st).log, e) == CountEv(st.log, e) + if e.Release? then CountEntries(st.host.queue, e.b) else 0
  {
    CountEvAppend(st.log, Releases(st.host.queue), e);
    CountRelease(st.host.queue, e);
    hide CountEv, CountEntries, Releases;
  }

  lemma TickBalance(st: State, b: Buffer)
    ensures Balance(DoTick(st), b) == Balance(st, b)
  {
    TickEv(st, Acquire(b));
    TickEv(st, Release(b));
    TickEv(st, Gone(b));
    TickEv(st, Abandon(b));
    assert CountEntries([], b) == 0;
    hide CountEv, CountEntries, CountOf, Releases, Clones;
  }

  lemma TickOk(st: State)
    requires Inv(st)
    ensures Inv(DoTick(st))
  {
    var st' := DoTick(st);
    assert st'.host.sentOrder + Clones(st'.host.queue) == st.host.sentOrder + Clones(st.host.queue);
    hide Listening, Within, CountEv, Balance, Clones, Releases;
    forall c ensures CountEv(st'.log, CloneDestroyed(c)) == CountEv(st.log, CloneDestroyed(c)) {
      TickEv(st, CloneDestroyed(c));
    }
    forall b ensures Balance(st', b) == 0 {
      TickBalance(st, b);
      assert Balance(st, b) == 0;
    }
  }

  lemma DropListening(f: Surfaces, s: SurfaceId)
    requires Listening(f) && f.Slot(Att(s)) == None && f.Slot(Det(s)) == None
    ensures Listening(DropSurface(f, s))
  {
    var f' := DropSurface(f, s);
    RemoveDistinct(f.order, s);
    forall k: Listener ensures f'.Slot(k) == f.Slot(k) {
      assert k == if k.attached then Att(k.s) else Det(k.s);
    }
  }

  lemma DestroySurfaceOk(st: State, s: SurfaceId)
    requires Inv(st)
    ensures Inv(DoDestroySurface(st, s))
  {
    var st1 := ReleaseSlot(st, Det(s));
    ReleaseSlotOk(st, Det(s));
    SlotsStepInv(st, st1);
    var st2 := ReleaseSlot(st1, Att(s));
    ReleaseSlotOk(st1, Att(s));
    SlotsStepInv(st1, st2);
    DropListening(st2.surf, s);
    var st3 := st2.(surf := DropSurface(st2.surf, s));
    assert forall b :: Balance(st3, b) == Balance(st2, b);
    hide Listening, ClonesOk, NestedOk, Balance, ReleaseSlot;
    ForgetSurfaceOk(st3, s);
    assert ForgetSurface(st3, s).host.tracked == st3.host.tracked - {s};
  }

  lemma AttachInv(st: State, s: SurfaceId, buffer: Ref)
    requires Inv(st) && s in st.surf.slots
    ensures Inv(DoAttach(st, s, buffer))
  {
    AttachOk(st, s, buffer);
    hide DoAttach, SlotsStep;
    SlotsStepInv(st, DoAttach(st, s, buffer));
  }

  lemma ReleaseDetachedInv(st: State)
    requires Inv(st)
    ensures Inv(ReleaseDetached(st, st.surf.order))
  {
    ReleaseDetachedOk(st, st.surf.order);
    hide ReleaseDetached, SlotsStep;
    SlotsStepInv(st, ReleaseDetached(st, st.surf.order));
  }

  lemma DestroyBufferInv(st: State, b: Buffer)
    requires Inv(st)
    ensures Inv(DoDestroyBuffer(st, b))
  {
    SignalOk(st.surf, b);
    DestroyBufferCounts(st, b);
    hide Signal, Hit, Gones, Balance, CountEv, Listening;
    SlotsStepInv(st, DoDestroyBuffer(st, b));
  }

  lemma StepKeepsInv(st: State, op: Op)
    requires Inv(st)
    ensures Inv(Step(st, op))
  {
    hide Inv, DoCreateSurface, DoDestroySurface, DoAttach, DoCommit, ReleaseDetached, DoDestroyBuffer, DoHostRelease, DoTick;
    match op
    case CreateSurface => CreateOk(st);
    case DestroySurface(s) => DestroySurfaceOk(st, s);
    case Attach(s, buffer) => if s in st.surf.slots { AttachInv(st, s, buffer); }
    case Commit(s, handOver) => if s in st.surf.slots { CommitOk(st, s, handOver); }
    case ComposeFrame => ReleaseDetachedInv(st);
    case DestroyBuffer(b) => DestroyBufferInv(st, b);
    case HostRelease(c) => HostReleaseOk(st, c);
    case Tick => TickOk(st);
  }

  lemma StartInv(mode: Mode)
    ensures Inv(Start(mode))
  {
  }

  lemma {:induction false} RunKeepsInv(mode: Mode, ops: seq<Op>)
    ensures Inv(Run(mode, ops))
  {
    hide Inv, Step, Start;
    if ops == [] {
      StartInv(mode);
    } else {
      var before := ops[..|ops| - 1];
      RunKeepsInv(mode, before);
      StepKeepsInv(Run(mode, before), ops[|before|]);
    }
  }

  // ------------------------------------------------------------------ what every run satisfies

  /** Conservation across both modules: every acquisition of a buffer by an attach is still held, at
      the host or queued, or it was released, destroyed while held, or abandoned with its surface. */
  lemma BuffersConserved(mode: Mode, ops: seq<Op>, b: Buffer)
    ensures var st := Run(mode, ops);
      CountEv(st.log, Acquire(b)) ==
        CountOf(st.surf.linked, b) + CountOf(st.host.flying, b) + CountEntries(st.host.queue, b)
        + CountEv(st.log, Release(b)) + CountEv(st.log, Gone(b)) + CountEv(st.log, Abandon(b))
  {
    RunKeepsInv(mode, ops);
    assert Balance(Run(mode, ops), b) == 0;
  }

  /** A destroy listener hangs on a buffer exactly when its slot holds that buffer, and a surface never
      holds one buffer in both slots. */
  lemma ListenersMatchSlots(mode: Mode, ops: seq<Op>, k: Listener)
    ensures var f := Run(mode, ops).surf;
      && (f.Slot(k).Some? <==> k in f.linked)
      && (k in f.linked ==> f.Slot(k) == Some(f.linked[k]))
      && (f.Slot(Att(k.s)).Some? ==> f.Slot(Att(k.s)) != f.Slot(Det(k.s)))
  {
    RunKeepsInv(mode, ops);
  }

  /** Each clone is destroyed exactly once, when it leaves the host; in particular what a surface
      tracks is a clone that is alive and its own. */
  lemma ClonesDestroyedOnce(mode: Mode, ops: seq<Op>, c: Clone)
    ensures var st := Run(mode, ops);
      && (0 <= c < st.host.nextClone ==> CountEv(st.log, CloneDestroyed(c)) == if c in st.host.flying then 0 else 1)
      && (forall s :: s in st.host.tracked && st.host.tracked[s] == Some(c) ==>
            s in st.surf.slots && c in st.host.flying && c in st.host.home && st.host.home[c] == s)
  {
    RunKeepsInv(mode, ops);
  }

  /** The release queue holds entries of live surfaces only; buffers handed over go back at most once
      each, in the order the host released their clones. */
  lemma RemoteReleasesInHostOrder(mode: Mode, ops: seq<Op>)
    ensures var h := Run(mode, ops).host;
      && Within(h.sentOrder + Clones(h.queue), h.hostOrder) && Distinct(h.hostOrder)
      && forall i :: 0 <= i < |h.queue| ==> h.queue[i].s in Run(mode, ops).surf.slots
  {
    RunKeepsInv(mode, ops);
    hide Within;
    var st := Run(mode, ops);
    assert forall s :: s in st.host.tracked ==> s in st.host.tracked.Keys;
  }

  /** A commit without a buffer, or composing a frame when not embedded and not a repeater, leaves no
      detached buffer behind. */
  lemma DetachedReleased(mode: Mode, ops: seq<Op>, op: Op)
    requires op.Commit? || op.ComposeFrame?
    requires var st := Run(mode, ops);
      if op.Commit? then op.s in st.surf.slots && st.surf.Slot(Att(op.s)) == None else mode == Direct
    ensures forall s :: Step(Run(mode, ops), op).surf.Slot(Det(s)) == None
  {
    var st := Run(mode, ops);
    RunKeepsInv(mode, ops);
    ModeKept(mode, ops);
    ReleaseDetachedOk(st, st.surf.order);
    var st' := ReleaseDetached(st, st.surf.order);
    assert Step(st, op) == st';
    forall s ensures st'.surf.Slot(Det(s)) == None {
      if s in st.surf.order {
      } else {
        assert s !in st'.surf.slots.Keys;
      }
    }
  }

  lemma {:induction false} ModeKept(mode: Mode, ops: seq<Op>)
    ensures Run(mode, ops).mode == mode
  {
    if ops != [] {
      ModeKept(mode, ops[..|ops| - 1]);
      StepMode(Run(mode, ops[..|ops| - 1]), ops[|ops| - 1]);
    }
  }

  lemma {:induction false} DetachedMode(st: State, list: seq<SurfaceId>)
    ensures ReleaseDetached(st, list).mode == st.mode
  {
    if list != [] {
      DetachedMode(st, list[..|list| - 1]);
    }
  }

  lemma StepMode(st: State, op: Op)
    ensures Step(st, op).mode == st.mode
  {
    DetachedMode(st, st.surf.order);
    hide ReleaseDetached;
  }

  // ------------------------------------------------------------------ releases reach live buffers

  /** How often the buffer is still referred to by surfaces, at the host, or in the queue. */
  function Refs(st: State, b: Buffer): nat {
    CountOf(st.surf.linked, b) + CountOf(st.host.flying, b) + CountEntries(st.host.queue, b)
  }

  predicate Dead(log: seq<Ev>, b: Buffer) {
    CountEv(log, BufferDestroyed(b)) > 0
  }

  ghost predicate NoDeadRefs(st: State) {
    forall b :: Dead(st.log, b) ==> Refs(st, b) == 0
  }

  /** A client that does not destroy a buffer it has handed over and not got back.  (It cannot attach
      one that it has destroyed.) */
  predicate Courteous(st: State, op: Op) {
    match op
    case DestroyBuffer(b) => CountOf(st.host.flying, b) + CountEntries(st.host.queue, b) == 0
    case Attach(_, buffer) => buffer.Some? ==> !Dead(st.log, buffer.value)
    case _ => true
  }

  /** Events that end or move an acquisition. */
  predicate Ending(e: Ev) {
    e.Release? || e.Gone? || e.Abandon? || e.CloneDestroyed?
  }

  ghost predicate Ends(log: seq<Ev>, log': seq<Ev>) {
    log <= log' && forall i :: |log| <= i < |log'| ==> Ending(log'[i])
  }

  lemma {:induction false} ReleaseDetachedEnds(st: State, list: seq<SurfaceId>)
    ensures Ends(st.log, ReleaseDetached(st, list).log)
  {
    if list != [] {
      ReleaseDetachedEnds(st, list[..|list| - 1]);
    }
  }

  lemma DestroySurfaceEnds(st: State, s: SurfaceId)
    ensures Ends(st.log, DoDestroySurface(st, s).log)
  {
    var st' := ReleaseSlot(ReleaseSlot(st, Det(s)), Att(s));
    assert Ends(st.log, st'.log);
    var out := Abandoned(Filter(st'.host.queue, OfSurface(s)));
    assert DoDestroySurface(st, s).log == st'.log + UntrackLog(st'.host, s) + out;
    hide ReleaseSlot, Filter;
    assert forall i :: 0 <= i < |out| ==> Ending(out[i]);
  }

  /** Only attach acquires and only the client destroys buffers. */
  lemma StepEnds(st: State, op: Op)
    requires !op.Attach? && !op.DestroyBuffer?
    ensures Ends(st.log, Step(st, op).log)
  {
    ReleaseDetachedEnds(st, st.surf.order);
    match op
    case DestroySurface(s) => DestroySurfaceEnds(st, s);
    case _ =>
  }

  lemma {:induction false} EndsCounts(log: seq<Ev>, log': seq<Ev>, e: Ev)
    requires Ends(log, log')
    ensures CountEv(log', e) >= CountEv(log, e)
    ensures !Ending(e) ==> CountEv(log', e) == CountEv(log, e)
    decreases |log'|
  {
    if |log'| > |log| {
      EndsCounts(log, log'[..|log'| - 1], e);
    } else {
      assert log' == log;
    }
  }

  lemma {:induction false} CountPrefix(log: seq<Ev>, log': seq<Ev>, e: Ev)
    requires log <= log'
    ensures CountEv(log', e) >= CountEv(log, e)
    decreases |log'|
  {
    if |log'| > |log| {
      CountPrefix(log, log'[..|log'| - 1], e);
    } else {
      assert log' == log;
    }
  }

  /** References only come from acquisitions, and every release uses one up. */
  lemma RefsBalance(st: State, b: Buffer)
    requires Inv(st)
    ensures Refs(st, b) == CountEv(st.log, Acquire(b)) - CountEv(st.log, Release(b)) - CountEv(st.log, Gone(b)) - CountEv(st.log, Abandon(b))
  {
    assert Balance(st, b) == 0;
  }

  /** A step that acquires nothing adds no reference, and takes one away for each release. */
  lemma RefsShrink(st: State, st': State, b: Buffer)
    requires Inv(st) && Inv(st') && st.log <= st'.log && CountEv(st'.log, Acquire(b)) == CountEv(st.log, Acquire(b))
    ensures Refs(st', b) + CountEv(st'.log, Release(b)) <= Refs(st, b) + CountEv(st.log, Release(b))
    ensures Refs(st', b) <= Refs(st, b)
  {
    RefsBalance(st, b);
    RefsBalance(st', b);
    CountPrefix(st.log, st'.log, Release(b));
    CountPrefix(st.log, st'.log, Gone(b));
    CountPrefix(st.log, st'.log, Abandon(b));
  }

  lemma AttachLog(st: State, s: SurfaceId, buffer: Ref)
    ensures var log' := DoAttach(st, s, buffer).log;
      && st.log <= log'
      && (forall b :: Some(b) != buffer ==> CountEv(log', Acquire(b)) == CountEv(st.log, Acquire(b)))
      && (forall b :: Dead(log', b) <==> Dead(st.log, b))
  {
    var st1 := ReleaseSlot(st, Det(s));
    if st.surf.Slot(Det(s)).Some? {
      CountAllOne(st.log, Release(st.surf.Slot(Det(s)).value));
    }
    if buffer.Some? {
      CountAllOne(st1.log, Acquire(buffer.value));
    }
    hide CountEv, Demote;
  }

  lemma DestroyBufferDead(st: State, b: Buffer)
    ensures var log' := DoDestroyBuffer(st, b).log;
      && st.log <= log'
      && (forall c :: CountEv(log', Acquire(c)) == CountEv(st.log, Acquire(c)) && CountEv(log', Release(c)) == CountEv(st.log, Release(c)))
      && (forall c :: Dead(log', c) <==> Dead(st.log, c) || c == b)
  {
    var n := |Hit(st.surf, b)|;
    forall c
      ensures CountEv(DoDestroyBuffer(st, b).log, Acquire(c)) == CountEv(st.log, Acquire(c))
      ensures CountEv(DoDestroyBuffer(st, b).log, Release(c)) == CountEv(st.log, Release(c))
      ensures CountEv(DoDestroyBuffer(st, b).log, BufferDestroyed(c))
        == CountEv(st.log, BufferDestroyed(c)) + if c == b then 1 else 0
    {
      DestroyBufferEv(st.log, b, n, Acquire(c));
      DestroyBufferEv(st.log, b, n, Release(c));
      CountEvOne(st.log, BufferDestroyed(b), BufferDestroyed(c));
      CountEvAppend(st.log + [BufferDestroyed(b)], Gones(n, b), BufferDestroyed(c));
      CountSame(n, b, BufferDestroyed(c));
    }
  }

  lemma DestroyBufferRefs(st: State, b: Buffer)
    ensures Refs(DoDestroyBuffer(st, b), b) == CountOf(st.host.flying, b) + CountEntries(st.host.queue, b)
  {
    var now := Hit(DoDestroyBuffer(st, b).surf, b);
    assert now == {};
  }

  lemma OtherStepDead(st: State, op: Op)
    requires Inv(st) && NoDeadRefs(st) && !op.Attach? && !op.DestroyBuffer?
    ensures NoDeadRefs(Step(st, op))
    ensures forall b :: Dead(st.log, b) ==> CountEv(Step(st, op).log, Release(b)) == CountEv(st.log, Release(b))
  {
    var st' := Step(st, op);
    StepKeepsInv(st, op);
    StepEnds(st, op);
    hide Inv, Step, CountEv, Refs;
    forall b ensures Dead(st.log, b) <==> Dead(st'.log, b)
      ensures Refs(st', b) <= Refs(st, b)
      ensures Dead(st.log, b) ==> CountEv(st'.log, Release(b)) == CountEv(st.log, Release(b))
    {
      EndsCounts(st.log, st'.log, BufferDestroyed(b));
      EndsCounts(st.log, st'.log, Acquire(b));
      EndsCounts(st.log, st'.log, Release(b));
      RefsShrink(st, st', b);
    }
  }

  /** A step to st' that takes at most buffer, and only that one anew. */
  lemma DeadStaysReleased(st: State, st': State, buffer: Ref)
    requires Inv(st) && Inv(st') && NoDeadRefs(st) && (buffer.Some? ==> !Dead(st.log, buffer.value)) && st.log <= st'.log
    requires forall b :: Some(b) != buffer ==> CountEv(st'.log, Acquire(b)) == CountEv(st.log, Acquire(b))
    requires forall b :: Dead(st'.log, b) <==> Dead(st.log, b)
    ensures NoDeadRefs(st')
    ensures forall b :: Dead(st.log, b) ==> CountEv(st'.log, Release(b)) == CountEv(st.log, Release(b))
  {
    hide Inv, CountEv, Refs, Dead;
    forall b | Dead(st'.log, b)
      ensures Refs(st', b) == 0 && CountEv(st'.log, Release(b)) == CountEv(st.log, Release(b))
    {
      assert Dead(st.log, b) && Some(b) != buffer;
      RefsShrink(st, st', b);
      CountPrefix(st.log, st'.log, Release(b));
    }
  }

  lemma AttachDead(st: State, s: SurfaceId, buffer: Ref)
    requires Inv(st) && NoDeadRefs(st) && s in st.surf.slots && (buffer.Some? ==> !Dead(st.log, buffer.value))
    ensures NoDeadRefs(DoAttach(st, s, buffer))
    ensures forall b :: Dead(st.log, b) ==> CountEv(DoAttach(st, s, buffer).log, Release(b)) == CountEv(st.log, Release(b))
  {
    hide *;
    AttachInv(st, s, buffer);
    AttachLog(st, s, buffer);
    DeadStaysReleased(st, DoAttach(st, s, buffer), buffer);
  }

  /** Exactly the courteous requests keep the state free of references to destroyed buffers. */
  lemma NoDeadRefsIff(st: State, op: Op)
    requires Inv(st) && NoDeadRefs(st) && (op.Attach? ==> Courteous(st, op))
    ensures NoDeadRefs(Step(st, op)) <==> Courteous(st, op)
    ensures forall b :: Dead(st.log, b) ==> CountEv(Step(st, op).log, Release(b)) == CountEv(st.log, Release(b))
  {
    match op
    case Attach(s, buffer) => if s in st.surf.slots { AttachDead(st, s, buffer); }
    case DestroyBuffer(b) =>
      var st' := DoDestroyBuffer(st, b);
      StepKeepsInv(st, op);
      DestroyBufferDead(st, b);
      DestroyBufferRefs(st, b);
      hide Inv, DoDestroyBuffer, CountEv, Refs, Dead, CountOf, CountEntries;
      forall c ensures Refs(st', c) <= Refs(st, c) { RefsShrink(st, st', c); }
    case _ => OtherStepDead(st, op);
  }

  ghost predicate AllCourteous(mode: Mode, ops: seq<Op>) {
    ops == [] ||
      (AllCourteous(mode, ops[..|ops| - 1]) && Courteous(Run(mode, ops[..|ops| - 1]), ops[|ops| - 1]))
  }

  /** As long as clients are courteous nothing refers to a destroyed buffer, so no step ever sends a
      release for one. */
  lemma {:induction false} ReleasesReachLiveBuffers(mode: Mode, ops: seq<Op>, op: Op, b: Buffer)
    requires AllCourteous(mode, ops) && (op.Attach? ==> Courteous(Run(mode, ops), op))
    ensures NoDeadRefs(Run(mode, ops))
    ensures Dead(Run(mode, ops).log, b) ==>
      CountEv(Step(Run(mode, ops), op).log, Release(b)) == CountEv(Run(mode, ops).log, Release(b))
    decreases |ops|
  {
    var st := Run(mode, ops);
    RunKeepsInv(mode, ops);
    if ops != [] {
      var before, last := ops[..|ops| - 1], ops[|ops| - 1];
      ReleasesReachLiveBuffers(mode, before, last, b);
      RunKeepsInv(mode, before);
      NoDeadRefsIff(Run(mode, before), last);
    }
    NoDeadRefsIff(st, op);
  }
}
