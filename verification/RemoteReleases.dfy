/**
 * The release messages for buffers that went through the host: each is for the buffer its clone was
 * made of, and they come in the order in which the host released the clones.
 */
module RemoteReleases {
  import opened Seqs
  import opened ZLists
  import opened Buffers

  /** A commit that hands its surface's buffer over to the host. */
  predicate HandsOver(st: State, op: Op) {
    op.Commit? && op.handOver && st.mode == Repeater && st.surf.Slot(Att(op.s)).Some?
  }

  /** The buffer each clone was made of. */
  function Made(mode: Mode, ops: seq<Op>): map<Clone, Buffer> {
    if ops == [] then map[]
    else
      var before, op := ops[..|ops| - 1], ops[|ops| - 1];
      var st := Run(mode, before);
      if HandsOver(st, op) then Made(mode, before)[st.host.nextClone := st.surf.Slot(Att(op.s)).value] else Made(mode, before)
  }

  /** What the ticks have sent, in order. */
  ghost function TickLog(mode: Mode, ops: seq<Op>): seq<Ev> {
    if ops == [] then []
    else
      var before := ops[..|ops| - 1];
      var was, now := Run(mode, before).log, Run(mode, ops).log;
      if ops[|before|].Tick? && |was| <= |now| then TickLog(mode, before) + now[|was|..] else TickLog(mode, before)
  }

  // ------------------------------------------------------------------ where clones come from

  ghost predicate Traced(h: Host, made: map<Clone, Buffer>) {
    && (forall c :: c in h.flying ==> c in made && made[c] == h.flying[c])
    && (forall i :: 0 <= i < |h.queue| ==> h.queue[i].clone in made && made[h.queue[i].clone] == h.queue[i].remote)
    && (forall c :: c in made ==> c < h.nextClone)
  }

  lemma LaunchTraced(h: Host, made: map<Clone, Buffer>, s: SurfaceId, b: Buffer)
    requires Traced(h, made)
    ensures Traced(Launch(h, s, b), made[h.nextClone := b])
  {
  }

  lemma LandTraced(h: Host, made: map<Clone, Buffer>, c: Clone)
    requires Traced(h, made) && c in h.flying && c in h.home
    ensures Traced(Land(h, c), made)
  {
  }

  lemma ForgetTraced(h: Host, made: map<Clone, Buffer>, s: SurfaceId)
    requires Traced(h, made)
    ensures Traced(Purge(Untrack(h, s), s), made)
  {
    var h' := Purge(Untrack(h, s), s);
    hide Filter;
    forall i | 0 <= i < |h'.queue| ensures h'.queue[i].clone in made && made[h'.queue[i].clone] == h'.queue[i].remote {
      assert h'.queue[i] in h.queue;
    }
  }

  lemma StepTraced(st: State, op: Op, made: map<Clone, Buffer>)
    requires Traced(st.host, made) && (HandsOver(st, op) ==> op.s in st.surf.slots)
    ensures Traced(Step(st, op).host,
                  if HandsOver(st, op) then made[st.host.nextClone := st.surf.Slot(Att(op.s)).value] else made)
  {
    DetachedHost(st, st.surf.order);
    match op
    case DestroySurface(s) =>
      DestroySurfaceHost(st, s);
      ForgetTraced(st.host, made, s);
      hide DoDestroySurface, Purge, Untrack, Traced;
    case Commit(s, handOver) =>
      if HandsOver(st, op) {
        LaunchTraced(st.host, made, s, st.surf.Slot(Att(s)).value);
      }
      hide Launch, ReleaseDetached, Traced;
    case HostRelease(c) =>
      if c in st.host.flying && c in st.host.home {
        LandTraced(st.host, made, c);
      }
      hide Land, Traced;
    case Tick =>
    case _ => hide Traced, ReleaseDetached, Signal, Take, Demote;
  }

  lemma SlotIsOfSurface(st: State, op: Op)
    ensures HandsOver(st, op) ==> op.s in st.surf.slots
  {
  }

  lemma {:induction false} RunTraced(mode: Mode, ops: seq<Op>)
    ensures Traced(Run(mode, ops).host, Made(mode, ops))
  {
    if ops != [] {
      var before := ops[..|ops| - 1];
      RunTraced(mode, before);
      SlotIsOfSurface(Run(mode, before), ops[|before|]);
      StepTraced(Run(mode, before), ops[|before|], Made(mode, before));
      hide Traced, Step, HandsOver;
    }
  }

  // ------------------------------------------------------------------ the messages

  /** Message i is the release of the buffer that clone i of the order stands for. */
  ghost predicate Matches(messages: seq<Ev>, order: seq<Clone>, made: map<Clone, Buffer>) {
    && |messages| == |order|
    && forall i :: 0 <= i < |order| ==> order[i] in made && messages[i] == Release(made[order[i]])
  }

  lemma OtherStepsSend(st: State, op: Op)
    requires !op.Tick?
    ensures Step(st, op).host.sentOrder == st.host.sentOrder
  {
    DetachedHost(st, st.surf.order);
    match op
    case DestroySurface(s) =>
      DestroySurfaceHost(st, s);
      hide DoDestroySurface;
    case _ => hide ReleaseDetached, Signal, Take, Demote;
  }

  lemma TickMatches(st: State, made: map<Clone, Buffer>, messages: seq<Ev>)
    requires Traced(st.host, made) && Matches(messages, st.host.sentOrder, made)
    ensures var st' := DoTick(st);
      st.log <= st'.log && Matches(messages + st'.log[|st.log|..], st'.host.sentOrder, made)
  {
    var st', q := DoTick(st), st.host.queue;
    assert st'.log[|st.log|..] == Releases(q);
  }

  lemma MadeGrows(mode: Mode, ops: seq<Op>, c: Clone)
    requires ops != [] && c in Made(mode, ops[..|ops| - 1])
    ensures c in Made(mode, ops) && Made(mode, ops)[c] == Made(mode, ops[..|ops| - 1])[c]
  {
    var before := ops[..|ops| - 1];
    RunTraced(mode, before);
  }

  lemma {:induction false} TickLogMatches(mode: Mode, ops: seq<Op>)
    ensures Matches(TickLog(mode, ops), Run(mode, ops).host.sentOrder, Made(mode, ops))
  {
    if ops != [] {
      var before, op := ops[..|ops| - 1], ops[|ops| - 1];
      var st := Run(mode, before);
      TickLogMatches(mode, before);
      RunTraced(mode, before);
      if op.Tick? {
        TickMatches(st, Made(mode, before), TickLog(mode, before));
        assert Made(mode, ops) == Made(mode, before) && Run(mode, ops) == DoTick(st);
        hide DoTick, Run, Made, Matches;
      } else {
        OtherStepsSend(st, op);
        forall c | c in Made(mode, before) ensures c in Made(mode, ops) && Made(mode, ops)[c] == Made(mode, before)[c] {
          MadeGrows(mode, ops, c);
        }
        assert Run(mode, ops) == Step(st, op);
        assert TickLog(mode, ops) == TickLog(mode, before);
        hide Run, Made, Step, TickLog;
      }
    }
  }

  lemma {:induction false} WithinPrefix(a: seq<Clone>, c: seq<Clone>, b: seq<Clone>)
    requires Within(a + c, b)
    ensures Within(a, b)
    decreases |c|
  {
    if c == [] {
      assert a + c == a;
    } else {
      var rest, x := c[..|c| - 1], c[|c| - 1];
      assert a + c == (a + rest) + [x];
      WithinSelf(a + rest);
      WithinSkip(a + rest, a + rest, x);
      WithinTrans(a + rest, a + c, b);
      hide Within;
      WithinPrefix(a, rest, b);
    }
  }

  /** In every run, the i-th release sent for buffers that were at the host is for the buffer that the
      i-th clone of some order was made of; and that order picks clones, each at most once, from the order
      in which the host released them. */
  lemma RemoteReleasesMatchHost(mode: Mode, ops: seq<Op>)
    ensures var h, made, messages := Run(mode, ops).host, Made(mode, ops), TickLog(mode, ops);
      && |messages| == |h.sentOrder|
      && (forall i :: 0 <= i < |messages| ==> h.sentOrder[i] in made && messages[i] == Release(made[h.sentOrder[i]]))
      && Within(h.sentOrder, h.hostOrder) && Distinct(h.hostOrder)
  {
    TickLogMatches(mode, ops);
    RemoteReleasesInHostOrder(mode, ops);
    var h := Run(mode, ops).host;
    WithinPrefix(h.sentOrder, Clones(h.queue), h.hostOrder);
    hide Run, Made, TickLog, Within;
  }
}
