/**
 * Frame callbacks (westeros-compositor.cpp): requested one by one, kept in a list per surface, all
 * answered when a frame has been composed, and destroyed unanswered when their surface goes first.
 */
module FrameCallbacks {
  import opened Seqs

  type SurfaceId = int
  type Callback = int

  datatype Kind = Asked | Done | Dropped

  datatype Ev = Ev(kind: Kind, s: SurfaceId, c: Callback)

  datatype State = State(
    lists: map<SurfaceId, seq<Callback>>,     // frameCallbackList of every surface in surfaceInfoMap
    nextSurface: SurfaceId,
    nextCallback: Callback,
    log: seq<Ev>)

  datatype Op =
    | CreateSurface
    | Frame(s: SurfaceId)
    | ComposeFrame(order: seq<SurfaceId>)     // the order in which the map lists its surfaces
    | DestroySurface(s: SurfaceId)

  function Start(): State {
    State(map[], 0, 0, [])
  }

  // ------------------------------------------------------------------ steps

  function Each(kind: Kind, s: SurfaceId, list: seq<Callback>): seq<Ev> {
    seq(|list|, i requires 0 <= i < |list| => Ev(kind, s, list[i]))
  }

  function Ask(st: State, s: SurfaceId): State
    requires s in st.lists
  {
    st.(lists := st.lists[s := st.lists[s] + [st.nextCallback]], nextCallback := st.nextCallback + 1,
        log := st.log + [Ev(Asked, s, st.nextCallback)])
  }

  /** The callbacks of one surface are answered, first come first served. */
  function Answer(st: State, s: SurfaceId): State {
    if s in st.lists then st.(lists := st.lists[s := []], log := st.log + Each(Done, s, st.lists[s])) else st
  }

  function AnswerAll(st: State, order: seq<SurfaceId>): State {
    if order == [] then st else Answer(AnswerAll(st, order[..|order| - 1]), order[|order| - 1])
  }

  function Forget(st: State, s: SurfaceId): State
    requires s in st.lists
  {
    st.(lists := st.lists - {s}, log := st.log + Each(Dropped, s, st.lists[s]))
  }

  function Step(st: State, op: Op): State {
    match op
    case CreateSurface => st.(lists := st.lists[st.nextSurface := []], nextSurface := st.nextSurface + 1)
    case Frame(s) => if s in st.lists then Ask(st, s) else st
    case ComposeFrame(order) => AnswerAll(st, order)
    case DestroySurface(s) => if s in st.lists then Forget(st, s) else st
  }

  // ------------------------------------------------------------------ the history of a surface

  /** The callbacks of surface s that the log tells were asked for, answered or dropped, in order. */
  function Of(log: seq<Ev>, kind: Kind, s: SurfaceId): seq<Callback> {
    if log == [] then []
    else
      var rest, e := Of(log[..|log| - 1], kind, s), log[|log| - 1];
      if e.kind == kind && e.s == s then rest + [e.c] else rest
  }

  lemma {:induction false} OfAppend(log: seq<Ev>, ext: seq<Ev>, kind: Kind, s: SurfaceId)
    ensures Of(log + ext, kind, s) == Of(log, kind, s) + Of(ext, kind, s)
  {
    if ext == [] {
      assert log + ext == log;
    } else {
      var n := |ext| - 1;
      assert (log + ext)[..|log + ext| - 1] == log + ext[..n];
      OfAppend(log, ext[..n], kind, s);
    }
  }

  lemma {:induction false} OfEach(k: Kind, u: SurfaceId, list: seq<Callback>, kind: Kind, s: SurfaceId)
    ensures Of(Each(k, u, list), kind, s) == if kind == k && s == u then list else []
  {
    if list != [] {
      var n := |list| - 1;
      assert Each(k, u, list)[..n] == Each(k, u, list[..n]);
      OfEach(k, u, list[..n], kind, s);
      assert list[..n] + [list[n]] == list;
    }
  }

  function Waiting(st: State, s: SurfaceId): seq<Callback> {
    if s in st.lists then st.lists[s] else []
  }

  /** What was asked for is what was answered, then dropped, and then is still waiting; only the
      callbacks of dead surfaces are dropped. */
  ghost predicate Accounted(st: State, s: SurfaceId) {
    && Of(st.log, Asked, s) == Of(st.log, Done, s) + Of(st.log, Dropped, s) + Waiting(st, s)
    && (s in st.lists ==> Of(st.log, Dropped, s) == [])
    && (s >= st.nextSurface ==> s !in st.lists && Of(st.log, Asked, s) == [])
  }

  /** Callbacks are numbered as they are asked for. */
  ghost predicate Numbered(st: State) {
    && (forall i :: 0 <= i < |st.log| && st.log[i].kind == Asked ==> st.log[i].c < st.nextCallback)
    && (forall i, j :: 0 <= i < j < |st.log| && st.log[i].kind == Asked && st.log[j].kind == Asked ==> st.log[i].c != st.log[j].c)
  }

  ghost predicate Inv(st: State) {
    (forall s :: Accounted(st, s)) && Numbered(st)
  }

  lemma AskOk(st: State, s: SurfaceId)
    requires Inv(st) && s in st.lists
    ensures Inv(Ask(st, s))
  {
    var st', e := Ask(st, s), Ev(Asked, s, st.nextCallback);
    forall u ensures Accounted(st', u) {
      assert Accounted(st, u);
      forall k: Kind ensures Of(st'.log, k, u) == Of(st.log, k, u) + if k == Asked && u == s then [e.c] else [] {
        assert st'.log[..|st.log|] == st.log;
      }
      hide Of;
    }
    hide Accounted;
  }

  lemma EachOk(st: State, kind: Kind, s: SurfaceId, u: SurfaceId, k: Kind)
    requires s in st.lists
    ensures Of(st.log + Each(kind, s, st.lists[s]), k, u) == Of(st.log, k, u) + if k == kind && u == s then st.lists[s] else []
  {
    OfAppend(st.log, Each(kind, s, st.lists[s]), k, u);
    OfEach(kind, s, st.lists[s], k, u);
  }

  lemma AnswerOk(st: State, s: SurfaceId)
    requires Inv(st)
    ensures Inv(Answer(st, s)) && Answer(st, s).lists.Keys == st.lists.Keys
    ensures Waiting(Answer(st, s), s) == [] && forall u :: u != s ==> Waiting(Answer(st, s), u) == Waiting(st, u)
  {
    if s in st.lists {
      var st' := Answer(st, s);
      forall u ensures Accounted(st', u) {
        assert Accounted(st, u);
        forall k: Kind { EachOk(st, Done, s, u, k); }
        hide Of, Each;
      }
      assert st'.lists.Keys == st.lists.Keys;
      hide Accounted;
    }
  }

  lemma ForgetOk(st: State, s: SurfaceId)
    requires Inv(st) && s in st.lists
    ensures Inv(Forget(st, s))
  {
    var st' := Forget(st, s);
    forall u ensures Accounted(st', u) {
      assert Accounted(st, u);
      forall k: Kind { EachOk(st, Dropped, s, u, k); }
      hide Of, Each;
    }
    hide Accounted;
  }

  lemma {:induction false} AnswerAllOk(st: State, order: seq<SurfaceId>)
    requires Inv(st)
    ensures Inv(AnswerAll(st, order)) && AnswerAll(st, order).lists.Keys == st.lists.Keys
    ensures forall u :: Waiting(AnswerAll(st, order), u) == if u in order then [] else Waiting(st, u)
  {
    hide Inv, Waiting, Answer;
    if order != [] {
      var rest, s := order[..|order| - 1], order[|order| - 1];
      AnswerAllOk(st, rest);
      AnswerOk(AnswerAll(st, rest), s);
      assert order == rest + [s];
    }
  }

  lemma StepKeepsInv(st: State, op: Op)
    requires Inv(st)
    ensures Inv(Step(st, op))
  {
    match op
    case CreateSurface =>
      var st' := Step(st, op);
      forall u ensures Accounted(st', u) { assert Accounted(st, u); assert Accounted(st, st.nextSurface); }
      hide Accounted;
    case Frame(s) => if s in st.lists { AskOk(st, s); }
    case ComposeFrame(order) => AnswerAllOk(st, order);
    case DestroySurface(s) => if s in st.lists { ForgetOk(st, s); }
  }

  ghost function Run(ops: seq<Op>): (st: State)
    ensures Inv(st)
  {
    if ops == [] then Start()
    else
      var before := Run(ops[..|ops| - 1]);
      StepKeepsInv(before, ops[|ops| - 1]);
      Step(before, ops[|ops| - 1])
  }

  // ------------------------------------------------------------------ what every run satisfies

  lemma {:induction false} OfMembers(log: seq<Ev>, kind: Kind, s: SurfaceId, c: Callback)
    ensures c in Of(log, kind, s) <==> Ev(kind, s, c) in log
  {
    if log != [] {
      OfMembers(log[..|log| - 1], kind, s, c);
      assert log == log[..|log| - 1] + [log[|log| - 1]];
    }
  }

  lemma {:induction false} OfDistinct(log: seq<Ev>, s: SurfaceId)
    requires forall i, j :: 0 <= i < j < |log| && log[i].kind == Asked && log[j].kind == Asked ==> log[i].c != log[j].c
    ensures Distinct(Of(log, Asked, s))
  {
    if log != [] {
      var rest, e := log[..|log| - 1], log[|log| - 1];
      OfDistinct(rest, s);
      if e.kind == Asked && e.s == s {
        OfMembers(rest, Asked, s, e.c);
        assert Ev(Asked, s, e.c) !in rest;
        DistinctConcat(Of(rest, Asked, s), [e.c]);
      }
    }
  }

  /** The callbacks of a surface are answered exactly once each, in the order they were asked for, save
      those still waiting when the surface is destroyed: these come last, and are dropped once each. */
  lemma AnsweredInOrder(ops: seq<Op>, s: SurfaceId)
    ensures var st := Run(ops);
      && Of(st.log, Asked, s) == Of(st.log, Done, s) + Of(st.log, Dropped, s) + Waiting(st, s)
      && Distinct(Of(st.log, Asked, s))
      && (s in st.lists ==> Of(st.log, Dropped, s) == [])
  {
    assert Accounted(Run(ops), s);
    OfDistinct(Run(ops).log, s);
    hide Run, Of;
  }

  /** No callback belongs to two surfaces. */
  lemma OneSurfacePerCallback(ops: seq<Op>, s: SurfaceId, u: SurfaceId, c: Callback)
    requires c in Of(Run(ops).log, Asked, s) && c in Of(Run(ops).log, Asked, u)
    ensures s == u
  {
    var log := Run(ops).log;
    OfMembers(log, Asked, s, c);
    OfMembers(log, Asked, u, c);
    hide Run, Of;
    var i :| 0 <= i < |log| && log[i] == Ev(Asked, s, c);
    var j :| 0 <= j < |log| && log[j] == Ev(Asked, u, c);
    assert i == j;
  }

  /** Composing a frame, in whatever order the map lists its surfaces, leaves no callback waiting. */
  lemma NoneWaitingAfterCompose(ops: seq<Op>, order: seq<SurfaceId>, s: SurfaceId)
    requires forall u :: u in order <==> u in Run(ops).lists
    ensures var st := Step(Run(ops), ComposeFrame(order));
      Waiting(st, s) == [] && (s in st.lists ==> Of(st.log, Asked, s) == Of(st.log, Done, s))
  {
    AnswerAllOk(Run(ops), order);
    assert Accounted(AnswerAll(Run(ops), order), s);
    hide Run, Of, AnswerAll;
  }

  lemma OfOne(log: seq<Ev>, e: Ev, kind: Kind, s: SurfaceId)
    ensures Of(log + [e], kind, s) == Of(log, kind, s) + if e.kind == kind && e.s == s then [e.c] else []
  {
    assert (log + [e])[..|log|] == log;
  }

  lemma AnswerAdds(st: State, u: SurfaceId, kind: Kind, s: SurfaceId)
    ensures var st' := Answer(st, u);
      && Of(st'.log, kind, s) == Of(st.log, kind, s) + (if kind == Done && s == u then Waiting(st, s) else [])
      && Waiting(st', s) == (if s == u then [] else Waiting(st, s))
      && (s in st'.lists <==> s in st.lists)
  {
    if u in st.lists {
      EachOk(st, Done, u, s, kind);
    }
    hide Of, Each;
  }

  lemma {:induction false} AnswerAllAdds(st: State, order: seq<SurfaceId>, kind: Kind, s: SurfaceId)
    ensures var st' := AnswerAll(st, order);
      && Of(st'.log, kind, s) == Of(st.log, kind, s) + (if kind == Done && s in order then Waiting(st, s) else [])
      && Waiting(st', s) == (if s in order then [] else Waiting(st, s))
      && (s in st'.lists <==> s in st.lists)
  {
    if order != [] {
      var rest, u := order[..|order| - 1], order[|order| - 1];
      assert order == rest + [u];
      assert AnswerAll(st, order) == Answer(AnswerAll(st, rest), u);
      var waiting := Waiting(st, s);
      hide *;
      assert s in order <==> s in rest || s == u;
      AnswerAllAdds(st, rest, kind, s);
      AnswerAdds(AnswerAll(st, rest), u, kind, s);
      assert Of(st.log, kind, s) + [] == Of(st.log, kind, s);
      assert Of(st.log, kind, s) + waiting + [] == Of(st.log, kind, s) + waiting;
    }
  }

  /** What every step does to the callbacks of every surface: a request adds one at the end, composing a
      frame answers all of them, and destroying the surface drops them. */
  lemma CallbacksAfter(st: State, op: Op, s: SurfaceId)
    requires Inv(st)
    ensures var st', asked := Step(st, op), op == Frame(s) && s in st.lists;
      && (s in st'.lists <==> (s in st.lists && op != DestroySurface(s)) || (op.CreateSurface? && s == st.nextSurface))
      && Of(st'.log, Asked, s) == Of(st.log, Asked, s) + (if asked then [st.nextCallback] else [])
      && Of(st'.log, Done, s) == Of(st.log, Done, s) + (if op.ComposeFrame? && s in op.order then Waiting(st, s) else [])
      && Of(st'.log, Dropped, s) == Of(st.log, Dropped, s) + (if op == DestroySurface(s) then Waiting(st, s) else [])
      && Waiting(st', s) ==
           if asked then Waiting(st, s) + [st.nextCallback]
           else if (op.ComposeFrame? && s in op.order) || op == DestroySurface(s) then []
           else Waiting(st, s)
  {
    assert Accounted(st, s) && Accounted(st, st.nextSurface);
    forall k: Kind ensures Of(st.log + [], k, s) == Of(st.log, k, s) { assert st.log + [] == st.log; }
    match op
    case CreateSurface => hide Of;
    case Frame(u) =>
      forall k: Kind { OfOne(st.log, Ev(Asked, u, st.nextCallback), k, s); }
      hide Of;
    case ComposeFrame(order) =>
      AnswerAllAdds(st, order, Asked, s);
      AnswerAllAdds(st, order, Done, s);
      AnswerAllAdds(st, order, Dropped, s);
      hide Of, AnswerAll;
    case DestroySurface(u) =>
      if u in st.lists {
        forall k: Kind { EachOk(st, Dropped, u, s, k); }
      }
      hide Of, Each;
  }

  // ------------------------------------------------------------------ the handlers

  /** The callback lists of all surfaces. */
  class CallbackLists {
    var lists: map<SurfaceId, seq<Callback>>
    var nextSurface: SurfaceId
    var nextCallback: Callback
    var wire: seq<Ev>

    function View(): State
      reads this
    {
      State(lists, nextSurface, nextCallback, wire)
    }

    constructor ()
      ensures View() == Start()
    {
      lists, nextSurface, nextCallback, wire := map[], 0, 0, [];
    }

    /** wstISurfaceFrame */
    method Frame(s: SurfaceId)
      requires s in lists
      modifies this
      ensures View() == Ask(old(View()), s)
    {
      var fcb := nextCallback;
      nextCallback := nextCallback + 1;
      lists := lists[s := lists[s] + [fcb]];
      wire := wire + [Ev(Asked, s, fcb)];
    }

    /** Taking callbacks off the front of a surface's list until it is empty. */
    method Drain(s: SurfaceId, kind: Kind)
      requires s in lists
      modifies this`lists, this`wire
      ensures lists == old(lists)[s := []]
      ensures wire == old(wire) + Each(kind, s, old(lists[s]))
    {
      ghost var all, n := lists[s], 0;
      while lists[s] != []
        invariant 0 <= n <= |all| && lists == old(lists)[s := all[n..]]
        invariant wire == old(wire) + Each(kind, s, all[..n])
        decreases |all| - n
      {
        var fcb := lists[s][0];
        lists := lists[s := lists[s][1..]];
        wire := wire + [Ev(kind, s, fcb)];
        assert Each(kind, s, all[..n + 1]) == Each(kind, s, all[..n]) + [Ev(kind, s, all[n])];
        n := n + 1;
      }
      assert all[..n] == all;
    }

    /** The loop of wstCompositorComposeFrame over surfaceInfoMap. */
    method ComposeFrame(order: seq<SurfaceId>)
      modifies this`lists, this`wire
      ensures View() == AnswerAll(old(View()), order)
    {
      hide Each;
      for i := 0 to |order|
        invariant View() == AnswerAll(old(View()), order[..i])
      {
        assert order[..i + 1][..i] == order[..i];
        if order[i] in lists {
          Drain(order[i], Done);
        }
      }
      assert order[..|order|] == order;
    }

    /** The part of wstSurfaceDestroy about frame callbacks. */
    method DestroySurface(s: SurfaceId)
      requires s in lists
      modifies this`lists, this`wire
      ensures View() == Forget(old(View()), s)
    {
      Drain(s, Dropped);
      lists := lists - {s};
    }

    /** Each request, frame and destruction does what Step says, and keeps the accounts. */
    method Handle(op: Op)
      requires Inv(View())
      modifies this
      ensures View() == Step(old(View()), op) && Inv(View())
    {
      StepKeepsInv(View(), op);
      hide Inv, Ask, AnswerAll, Forget;
      match op
      case CreateSurface =>
        lists := lists[nextSurface := []];
        nextSurface := nextSurface + 1;
      case Frame(s) => if s in lists { Frame(s); }
      case ComposeFrame(order) => ComposeFrame(order);
      case DestroySurface(s) => if s in lists { DestroySurface(s); }
    }
  }
}
