/**
 * Shared memory pools of a repeating compositor (westeros-compositor.cpp).  Each pool has a twin in the
 * nested connection; a pool is kept alive by its resource and by the buffers made from it, and takes
 * its twin along when it goes.
 */
module ShmPool {
  type PoolId = int
  type BufferId = int

  datatype Pool = Pool(refCount: int, resource: bool)

  /** What the nested connection is asked to do. */
  datatype Ev =
    | MakePool(p: PoolId)
    | ResizePool(p: PoolId)
    | MakeBuffer(p: PoolId, b: BufferId)
    | DropBuffer(p: PoolId, b: BufferId)
    | DropPool(p: PoolId)

  datatype State = State(
    pools: map<PoolId, Pool>,           // the pools in memory
    buffers: map<BufferId, PoolId>,     // the live buffers, each with the pool it points to
    nextPool: PoolId,
    nextBuffer: BufferId,
    log: seq<Ev>)

  datatype Op =
    | CreatePool
    | CreateBuffer(p: PoolId)
    | Resize(p: PoolId)
    | DestroyBuffer(b: BufferId)
    | DestroyPool(p: PoolId)

  function Start(): State {
    State(map[], map[], 0, 0, [])
  }

  // ------------------------------------------------------------------ requests

  function Of(buffers: map<BufferId, PoolId>, p: PoolId): (r: set<BufferId>)
    ensures forall b :: b in r <==> b in buffers && buffers[b] == p
  {
    set b | b in buffers && buffers[b] == p
  }

  /** The number of live buffers of a pool. */
  function Count(st: State, p: PoolId): int {
    |Of(st.buffers, p)|
  }

  /** Requests reach a pool through its resource. */
  predicate Open(st: State, p: PoolId) {
    p in st.pools && st.pools[p].resource
  }

  function DoCreatePool(st: State): State {
    st.(pools := st.pools[st.nextPool := Pool(1, true)], nextPool := st.nextPool + 1,
        log := st.log + [MakePool(st.nextPool)])
  }

  function DoCreateBuffer(st: State, p: PoolId): State
    requires Open(st, p)
  {
    var pool := st.pools[p];
    st.(buffers := st.buffers[st.nextBuffer := p], nextBuffer := st.nextBuffer + 1,
        pools := st.pools[p := pool.(refCount := pool.refCount + 1)],
        log := st.log + [MakeBuffer(p, st.nextBuffer)])
  }

  /** wstShmPoolUnRef */
  function UnRef(st: State, p: PoolId): State
    requires p in st.pools
  {
    var pool := st.pools[p].(refCount := st.pools[p].refCount - 1);
    if pool.refCount != 0 then st.(pools := st.pools[p := pool])
    else st.(pools := st.pools - {p}, log := st.log + [DropPool(p)])
  }

  function Forget(st: State, b: BufferId): State
    requires b in st.buffers
  {
    st.(buffers := st.buffers - {b}, log := st.log + [DropBuffer(st.buffers[b], b)])
  }

  /** wstShmBufferDestroy */
  function DoDestroyBuffer(st: State, b: BufferId): State
    requires b in st.buffers && st.buffers[b] in st.pools
  {
    UnRef(Forget(st, b), st.buffers[b])
  }

  function Close(st: State, p: PoolId): State
    requires p in st.pools
  {
    st.(pools := st.pools[p := st.pools[p].(resource := false)])
  }

  function Step(st: State, op: Op): State
    requires forall b :: b in st.buffers ==> st.buffers[b] in st.pools
  {
    match op
    case CreatePool => DoCreatePool(st)
    case CreateBuffer(p) => if Open(st, p) then DoCreateBuffer(st, p) else st
    case Resize(p) => if Open(st, p) then st.(log := st.log + [ResizePool(p)]) else st
    case DestroyBuffer(b) => if b in st.buffers then DoDestroyBuffer(st, b) else st
    case DestroyPool(p) => if Open(st, p) then UnRef(Close(st, p), p) else st
  }

  // ------------------------------------------------------------------ invariants

  /** Reference counts are exact, up to one reference p has too many (extra is 1 in the middle of an
      UnRef), and no buffer points to a pool that is not in memory. */
  ghost predicate Counted(st: State, p: PoolId, extra: int) {
    && (forall q :: q in st.pools ==>
          st.pools[q].refCount == (if st.pools[q].resource then 1 else 0) + Count(st, q) + (if q == p then extra else 0))
    && (forall q :: q in st.pools ==> st.pools[q].refCount > 0 && 0 <= q < st.nextPool)
    && (forall b :: b in st.buffers ==> st.buffers[b] in st.pools && 0 <= b < st.nextBuffer)
    && 0 <= st.nextPool && 0 <= st.nextBuffer
  }

  /** Once a pool or a buffer has been dropped, nothing more is said about it. */
  ghost predicate Ordered(log: seq<Ev>) {
    && (forall i, j :: 0 <= i < j < |log| && log[i].DropPool? ==> log[j].p != log[i].p)
    && (forall i, j :: 0 <= i < j < |log| && log[i].DropBuffer? && (log[j].DropBuffer? || log[j].MakeBuffer?) ==> log[j].b != log[i].b)
  }

  predicate About(e: Ev, b: BufferId) {
    (e.MakeBuffer? || e.DropBuffer?) && e.b == b
  }

  /** The log tells exactly which pools and buffers have come and gone. */
  ghost predicate Told(st: State) {
    && (forall p :: DropPool(p) in st.log <==> 0 <= p < st.nextPool && p !in st.pools)
    && (forall i :: 0 <= i < |st.log| ==> 0 <= st.log[i].p < st.nextPool)
    && (forall i :: 0 <= i < |st.log| && (st.log[i].MakeBuffer? || st.log[i].DropBuffer?) ==>
          0 <= st.log[i].b < st.nextBuffer && (st.log[i].b in st.buffers ==> st.log[i] == MakeBuffer(st.buffers[st.log[i].b], st.log[i].b)))
    && (forall p, b :: MakeBuffer(p, b) in st.log && b !in st.buffers ==> DropBuffer(p, b) in st.log)
  }

  ghost predicate Inv(st: State) {
    Counted(st, 0, 0) && Ordered(st.log) && Told(st)
  }

  lemma OrderedPush(log: seq<Ev>, e: Ev)
    requires Ordered(log) && DropPool(e.p) !in log
    requires e.MakeBuffer? || e.DropBuffer? ==> forall i :: 0 <= i < |log| && log[i].DropBuffer? ==> log[i].b != e.b
    ensures Ordered(log + [e])
  {
  }

  lemma CountZeroIff(st: State, p: PoolId)
    ensures Count(st, p) >= 0
    ensures Count(st, p) == 0 <==> forall b :: b in st.buffers ==> st.buffers[b] != p
  {
    if forall b :: b in st.buffers ==> st.buffers[b] != p {
      assert Of(st.buffers, p) == {};
    }
  }

  lemma CountMore(st: State, p: PoolId, q: PoolId)
    requires Counted(st, 0, 0)
    ensures Count(st.(buffers := st.buffers[st.nextBuffer := p]), q) == Count(st, q) + if q == p then 1 else 0
  {
    var st' := st.(buffers := st.buffers[st.nextBuffer := p]);
    var was, now := Of(st.buffers, q), Of(st'.buffers, q);
    assert st.nextBuffer !in st.buffers;
    hide Counted;
    assert now == if q == p then was + {st.nextBuffer} else was;
  }

  lemma CountLess(st: State, b: BufferId, q: PoolId)
    requires b in st.buffers
    ensures Count(Forget(st, b), q) == Count(st, q) - if q == st.buffers[b] then 1 else 0
  {
    var st' := Forget(st, b);
    var was, now := Of(st.buffers, q), Of(st'.buffers, q);
    assert now == was - {b};
  }

  // ------------------------------------------------------------------ every step

  lemma CreatePoolOk(st: State)
    requires Inv(st)
    ensures Inv(DoCreatePool(st))
  {
    var st', e := DoCreatePool(st), MakePool(st.nextPool);
    CountZeroIff(st, st.nextPool);
    assert forall q :: Count(st', q) == Count(st, q);
    hide Count;
    OrderedPush(st.log, e);
    LogPush(st.log, e);
  }

  /** What appending an event says about membership. */
  lemma LogPush(log: seq<Ev>, e: Ev)
    ensures forall x :: x in log + [e] <==> x in log || x == e
  {
  }

  lemma CreateBufferCounts(st: State, p: PoolId)
    requires Counted(st, 0, 0) && Open(st, p)
    ensures Counted(DoCreateBuffer(st, p), 0, 0)
  {
    var st' := DoCreateBuffer(st, p);
    forall q ensures Count(st', q) == Count(st, q) + if q == p then 1 else 0 {
      CountMore(st, p, q);
    }
    hide Count;
  }

  lemma CreateBufferOk(st: State, p: PoolId)
    requires Inv(st) && Open(st, p)
    ensures Inv(DoCreateBuffer(st, p))
  {
    CreateBufferCounts(st, p);
    hide Counted;
    OrderedPush(st.log, MakeBuffer(p, st.nextBuffer));
    LogPush(st.log, MakeBuffer(p, st.nextBuffer));
  }

  lemma ForgetCounts(st: State, b: BufferId)
    requires Counted(st, 0, 0) && b in st.buffers
    ensures Counted(Forget(st, b), st.buffers[b], 1)
  {
    forall q ensures Count(Forget(st, b), q) == Count(st, q) - if q == st.buffers[b] then 1 else 0 {
      CountLess(st, b, q);
    }
    hide Count;
  }

  lemma ForgetLog(st: State, b: BufferId)
    requires Counted(st, 0, 0) && Ordered(st.log) && Told(st) && b in st.buffers
    ensures Ordered(Forget(st, b).log) && Told(Forget(st, b))
  {
    hide Count;
    OrderedPush(st.log, DropBuffer(st.buffers[b], b));
    LogPush(st.log, DropBuffer(st.buffers[b], b));
  }

  lemma UnRefCounts(st: State, p: PoolId)
    requires p in st.pools && Counted(st, p, 1)
    ensures Counted(UnRef(st, p), 0, 0)
  {
    var st' := UnRef(st, p);
    assert forall q :: Count(st', q) == Count(st, q);
    CountZeroIff(st, p);
    hide Count;
  }

  lemma UnRefLog(st: State, p: PoolId)
    requires p in st.pools && Counted(st, p, 1) && Ordered(st.log) && Told(st)
    ensures Ordered(UnRef(st, p).log) && Told(UnRef(st, p))
  {
    hide Count;
    OrderedPush(st.log, DropPool(p));
    LogPush(st.log, DropPool(p));
  }

  lemma CloseOk(st: State, p: PoolId)
    requires Inv(st) && Open(st, p)
    ensures Counted(Close(st, p), p, 1) && Told(Close(st, p))
  {
    var st' := Close(st, p);
    assert forall q :: Count(st', q) == Count(st, q);
    hide Count;
  }

  lemma StepKeepsInv(st: State, op: Op)
    requires Inv(st)
    ensures Inv(Step(st, op))
  {
    match op
    case CreatePool => CreatePoolOk(st);
    case CreateBuffer(p) => if Open(st, p) { CreateBufferOk(st, p); }
    case Resize(p) =>
      if Open(st, p) {
        OrderedPush(st.log, ResizePool(p));
        LogPush(st.log, ResizePool(p));
        assert forall q :: Count(Step(st, op), q) == Count(st, q);
        hide Count;
      }
    case DestroyBuffer(b) =>
      if b in st.buffers {
        ForgetCounts(st, b);
        ForgetLog(st, b);
        UnRefCounts(Forget(st, b), st.buffers[b]);
        UnRefLog(Forget(st, b), st.buffers[b]);
        hide Counted, Told, Ordered, UnRef;
      }
    case DestroyPool(p) =>
      if Open(st, p) {
        CloseOk(st, p);
        UnRefCounts(Close(st, p), p);
        UnRefLog(Close(st, p), p);
        hide Counted, Told, Ordered, UnRef;
      }
  }

  ghost function Run(ops: seq<Op>): (st: State)
    ensures Inv(st)
  {
    if ops == [] then Start()
    else
      var before := Run(ops[..|ops| - 1]);
      StepKeepsInv(before, ops[|ops| - 1]);
      Step(before, ops[|ops| - 1])
  }

  // ------------------------------------------------------------------ what every run satisfies

  /** The reference count of a pool is one for its resource, if that is alive, and one for each of its
      live buffers; the pool is in memory exactly while that is not nothing. */
  lemma RefCountExact(ops: seq<Op>, p: PoolId)
    ensures var st := Run(ops);
      && (p in st.pools ==> st.pools[p].refCount == (if st.pools[p].resource then 1 else 0) + Count(st, p))
      && (p in st.pools <==> Open(st, p) || Count(st, p) > 0)
  {
    CountZeroIff(Run(ops), p);
    hide Run, Count;
  }

  /** No live buffer points to a pool that has been freed. */
  lemma NoDanglingPool(ops: seq<Op>, b: BufferId)
    ensures b in Run(ops).buffers ==> Run(ops).buffers[b] in Run(ops).pools
  {
    hide Run, Count;
  }

  /** The nested pool is dropped exactly once, when the last of its resource and buffers has gone, and
      nothing is asked of it afterwards. */
  lemma NestedPoolDroppedOnce(ops: seq<Op>, p: PoolId)
    ensures var st := Run(ops);
      && (0 <= p < st.nextPool ==> (DropPool(p) in st.log <==> !Open(st, p) && Count(st, p) == 0))
      && (forall i, j :: 0 <= i < j < |st.log| && st.log[i] == DropPool(p) ==> st.log[j].p != p)
  {
    RefCountExact(ops, p);
    CountZeroIff(Run(ops), p);
    hide Run, Count;
  }

  /** Every nested buffer made in a pool is dropped, exactly once, before the pool is. */
  lemma NestedBuffersDroppedBefore(ops: seq<Op>, i: nat, k: nat)
    ensures var log := Run(ops).log;
      i < |log| && k < |log| && log[i].DropPool? && log[k].MakeBuffer? && log[k].p == log[i].p ==>
        && DropBuffer(log[k].p, log[k].b) in log
        && forall m :: 0 <= m < |log| && log[m] == DropBuffer(log[k].p, log[k].b) ==>
             k < m < i && forall n :: m < n < |log| ==> log[n] != log[m]
  {
    var log := Run(ops).log;
    hide Run, Counted, Told;
    if i < |log| && k < |log| && log[i].DropPool? && log[k].MakeBuffer? && log[k].p == log[i].p {
      MadeOfDropped(Run(ops), k);
      assert DropPool(log[k].p) in log;
      DroppedBetween(log, i, k);
      hide Ordered;
    }
  }

  lemma DroppedBetween(log: seq<Ev>, i: nat, k: nat)
    requires Ordered(log) && i < |log| && k < |log|
    requires log[i].DropPool? && log[k].MakeBuffer? && log[k].p == log[i].p
    ensures forall m :: 0 <= m < |log| && log[m] == DropBuffer(log[k].p, log[k].b) ==>
      k < m < i && forall n :: m < n < |log| ==> log[n] != log[m]
  {
  }

  lemma MadeOfDropped(st: State, k: nat)
    requires Inv(st) && k < |st.log| && st.log[k].MakeBuffer?
    ensures DropPool(st.log[k].p) in st.log ==> DropBuffer(st.log[k].p, st.log[k].b) in st.log
  {
    hide Count;
    assert st.log[k] == MakeBuffer(st.log[k].p, st.log[k].b);
  }

  // ------------------------------------------------------------------ what a request does

  /** The buffers of the pool, other than b. */
  predicate Others(st: State, p: PoolId, b: BufferId) {
    exists c :: c in st.buffers && c != b && st.buffers[c] == p
  }

  predicate Populated(st: State, p: PoolId) {
    exists c :: c in st.buffers && st.buffers[c] == p
  }

  /** What the nested connection is asked for: the same request, and, when the last of a pool's resource and
      buffers goes, to drop the pool. */
  function Asks(st: State, op: Op): seq<Ev> {
    match op
    case CreatePool => [MakePool(st.nextPool)]
    case CreateBuffer(p) => if Open(st, p) then [MakeBuffer(p, st.nextBuffer)] else []
    case Resize(p) => if Open(st, p) then [ResizePool(p)] else []
    case DestroyBuffer(b) =>
      if b !in st.buffers then []
      else
        var p := st.buffers[b];
        [DropBuffer(p, b)] + if Open(st, p) || Others(st, p, b) then [] else [DropPool(p)]
    case DestroyPool(p) => if Open(st, p) && !Populated(st, p) then [DropPool(p)] else []
  }

  /** What every request does, told without reference counts. */
  lemma RequestAfter(ops: seq<Op>, op: Op, p: PoolId, b: BufferId)
    ensures var st := Run(ops);
      var st' := Step(st, op);
      && st'.log == st.log + Asks(st, op)
      && (Open(st', p) <==> (Open(st, p) && op != DestroyPool(p)) || (op.CreatePool? && p == st.nextPool))
      && (b in st'.buffers <==>
            (b in st.buffers && op != DestroyBuffer(b)) || (op.CreateBuffer? && Open(st, op.p) && b == st.nextBuffer))
      && (b in st'.buffers ==> st'.buffers[b] == if b in st.buffers then st.buffers[b] else if op.CreateBuffer? then op.p else 0)
  {
    var st := Run(ops);
    hide Run;
    match op
    case CreatePool => hide Count;
    case CreateBuffer(q) => hide Count;
    case Resize(_) => hide Count;
    case DestroyBuffer(c) =>
      if c in st.buffers {
        LastBuffer(st, c);
      }
      hide Count, Ordered, Told;
    case DestroyPool(q) =>
      if Open(st, q) {
        CountZeroIff(st, q);
      }
      hide Count, Ordered, Told;
  }

  /** The reference a destroyed buffer gives up is the last exactly if the pool has no resource and no other
      buffer. */
  lemma LastBuffer(st: State, b: BufferId)
    requires Inv(st) && b in st.buffers
    ensures var p := st.buffers[b];
      p in st.pools && (st.pools[p].refCount == 1 <==> !Open(st, p) && !Others(st, p, b))
  {
    var p, rest := st.buffers[b], Forget(st, b).buffers;
    CountLess(st, b, p);
    CountZeroIff(Forget(st, b), p);
    CountZeroIff(st, p);
    if Others(st, p, b) {
      var c :| c in st.buffers && c != b && st.buffers[c] == p;
      assert c in rest && rest[c] == p;
    }
    if !(forall c :: c in rest ==> rest[c] != p) {
      var c :| c in rest && rest[c] == p;
      assert c in st.buffers && c != b;
    }
    hide Count, Ordered, Told;
  }

  // ------------------------------------------------------------------ the handlers

  class Shm {
    var pools: map<PoolId, Pool>
    var buffers: map<BufferId, PoolId>
    var nextPool: PoolId
    var nextBuffer: BufferId
    var nested: seq<Ev>

    function View(): State
      reads this
    {
      State(pools, buffers, nextPool, nextBuffer, nested)
    }

    constructor ()
      ensures View() == Start()
    {
      pools, buffers, nextPool, nextBuffer, nested := map[], map[], 0, 0, [];
    }

    /** wstIShmCreatePool */
    method CreatePool()
      modifies this
      ensures View() == DoCreatePool(old(View()))
    {
      var pool := nextPool;
      nextPool := nextPool + 1;
      pools := pools[pool := Pool(1, true)];
      nested := nested + [MakePool(pool)];
    }

    /** wstIShmPoolCreateBuffer */
    method CreateBuffer(p: PoolId)
      requires Open(View(), p)
      modifies this
      ensures View() == DoCreateBuffer(old(View()), p)
    {
      var buffer := nextBuffer;
      nextBuffer := nextBuffer + 1;
      buffers := buffers[buffer := p];
      pools := pools[p := pools[p].(refCount := pools[p].refCount + 1)];
      nested := nested + [MakeBuffer(p, buffer)];
    }

    /** wstShmPoolUnRef */
    method PoolUnRef(p: PoolId)
      requires p in pools
      modifies this
      ensures View() == UnRef(old(View()), p)
    {
      var left := pools[p].refCount - 1;
      pools := pools[p := pools[p].(refCount := left)];
      if left == 0 {
        nested := nested + [DropPool(p)];
        pools := pools - {p};
      }
    }

    /** wstShmBufferDestroy */
    method BufferDestroy(b: BufferId)
      requires b in buffers && buffers[b] in pools
      modifies this
      ensures View() == DoDestroyBuffer(old(View()), b)
    {
      var pool := buffers[b];
      nested := nested + [DropBuffer(pool, b)];
      buffers := buffers - {b};
      PoolUnRef(pool);
    }

    /** wstShmDestroyPool */
    method DestroyPool(p: PoolId)
      requires Open(View(), p)
      modifies this
      ensures View() == UnRef(Close(old(View()), p), p)
    {
      pools := pools[p := pools[p].(resource := false)];
      PoolUnRef(p);
    }

    /** Each request does what Step says and keeps the reference counts exact. */
    method Handle(op: Op)
      requires Inv(View())
      modifies this
      ensures View() == Step(old(View()), op) && Inv(View())
    {
      StepKeepsInv(View(), op);
      hide Ordered, Told, Count, UnRef, DoCreatePool, DoCreateBuffer;
      match op
      case CreatePool => CreatePool();
      case CreateBuffer(p) => if Open(View(), p) { CreateBuffer(p); }
      case Resize(p) => if Open(View(), p) { nested := nested + [ResizePool(p)]; }
      case DestroyBuffer(b) => if b in buffers { BufferDestroy(b); }
      case DestroyPool(p) => if Open(View(), p) { DestroyPool(p); }
    }
  }
}
