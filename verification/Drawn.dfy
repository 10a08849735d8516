/**
 * What gets the pointer and what is seen under it.  The hit test walks the compositor's list, the scene
 * is drawn from the renderer's; the two lists are interchangeable for the hit test, but it does not look
 * at what is shown, so a hidden surface can be hit and a role-less one be seen through.
 */
module Drawn {
  import opened Seqs
  import opened ZLists
  import opened HitTest
  import opened Stacking

  /** The live surfaces without the cursor role. */
  function Plain(st: Stacks): SurfaceId -> bool {
    (s: SurfaceId) => s in st.role && st.role[s] != Cursor
  }

  lemma {:induction false} FilterCongruent(stack: seq<SurfaceId>, p: SurfaceId -> bool, q: SurfaceId -> bool)
    requires forall s :: p(s) == q(s)
    ensures Filter(stack, p) == Filter(stack, q)
  {
    if stack != [] {
      FilterCongruent(stack[1..], p, q);
    }
  }

  lemma SamePlain(base: real, ops: seq<Op>)
    ensures var st := Run(base, ops); Filter(st.comp.items, Plain(st)) == Filter(st.rend.items, Plain(st))
  {
    var st := Run(base, ops);
    var plain := (s: SurfaceId) => s in st.role && st.role[s] != Cursor;
    SameStackExceptCursors(base, ops);
    FilterCongruent(st.comp.items, plain, Plain(st));
    FilterCongruent(st.rend.items, plain, Plain(st));
  }

  lemma TopMostPush(stack: seq<SurfaceId>, s: SurfaceId, p: SurfaceId -> bool)
    ensures TopMost(stack + [s], p) == if p(s) then Some(s) else TopMost(stack, p)
  {
    assert (stack + [s])[..|stack|] == stack;
  }

  lemma FilterLast(stack: seq<SurfaceId>, s: SurfaceId, q: SurfaceId -> bool)
    ensures Filter(stack + [s], q) == if q(s) then Filter(stack, q) + [s] else Filter(stack, q)
  {
    FilterAppend(stack, [s], q);
    assert Filter([s], q) == if q(s) then [s] else [] by {
      assert [s][1..] == [];
    }
    hide Filter;
    assert Filter(stack, q) + [] == Filter(stack, q);
  }

  /** Leaving out what p rejects anyway does not change what is top-most. */
  lemma {:induction false} TopMostFiltered(stack: seq<SurfaceId>, p: SurfaceId -> bool, q: SurfaceId -> bool)
    requires forall s :: p(s) ==> q(s)
    ensures TopMost(stack, p) == TopMost(Filter(stack, q), p)
  {
    if stack != [] {
      hide *;
      var rest, s := stack[..|stack| - 1], stack[|stack| - 1];
      assert stack == rest + [s];
      TopMostFiltered(rest, p, q);
      FilterLast(rest, s, q);
      TopMostPush(rest, s, p);
      TopMostPush(Filter(rest, q), s, p);
    }
  }

  /** In every run both lists have the same top-most surface of any kind that no cursor surface and no
      dead one is of. */
  lemma SameTopMost(base: real, ops: seq<Op>, p: SurfaceId -> bool)
    requires forall s :: p(s) ==> Plain(Run(base, ops))(s)
    ensures TopMost(Run(base, ops).comp.items, p) == TopMost(Run(base, ops).rend.items, p)
  {
    var st := Run(base, ops);
    SamePlain(base, ops);
    TopMostFiltered(st.comp.items, p, Plain(st));
    TopMostFiltered(st.rend.items, p, Plain(st));
    hide *;
  }

  /** A scene of the stacked surfaces: the compositor's list, and infos that know their roles. */
  ghost predicate Shows(sc: Scene, st: Stacks) {
    && sc.list == st.comp
    && (forall s :: s in st.role <==> s in sc.info)
    && (forall s :: s in st.role ==> sc.info[s].role == st.role[s])
  }

  /** What the hit test looks for is alive and no cursor. */
  lemma CandidatesArePlain(sc: Scene, st: Stacks, w: CompositorId, x: int, y: int)
    requires Shows(sc, st)
    ensures forall s :: RoledHits(sc, w, x, y)(s) ==> Plain(st)(s)
    ensures forall s :: PlainHits(sc, w, x, y)(s) ==> Plain(st)(s)
  {
  }

  lemma SameMembers(base: real, ops: seq<Op>, s: SurfaceId)
    ensures s in Run(base, ops).comp.items <==> s in Run(base, ops).rend.items
  {
    ListsAreStacked(base, ops);
    hide Run;
  }

  /** The two lists are interchangeable for the hit test. */
  lemma ListsInterchangeable(base: real, ops: seq<Op>, sc: Scene, w: CompositorId, x: int, y: int)
    requires Shows(sc, Run(base, ops))
    ensures Wanted(sc, w, x, y) == Wanted(sc.(list := Run(base, ops).rend), w, x, y)
  {
    var st := Run(base, ops);
    var drawn := sc.(list := st.rend);
    CandidatesArePlain(sc, st, w, x, y);
    SameTopMost(base, ops, RoledHits(sc, w, x, y));
    SameTopMost(base, ops, PlainHits(sc, w, x, y));
    assert forall s :: Roled(drawn, w, s) == Roled(sc, w, s);
    TopMostCongruent(st.rend.items, RoledHits(sc, w, x, y), RoledHits(drawn, w, x, y));
    TopMostCongruent(st.rend.items, PlainHits(sc, w, x, y), PlainHits(drawn, w, x, y));
    forall s ensures s in st.comp.items <==> s in st.rend.items {
      SameMembers(base, ops, s);
    }
    hide Run, TopMost, RoledHits, PlainHits, Plain, Roled;
  }

  // ------------------------------------------------------------------ seen and hit

  /** Drawn over the point, and no cursor.  `shown` are the surfaces the renderer draws: visible, and
      with a picture. */
  predicate SeenAt(sc: Scene, shown: set<SurfaceId>, x: int, y: int, s: SurfaceId) {
    s in sc.info && s in shown && sc.Of(s).role != Cursor && sc.Of(s).area.Contains(x, y)
  }

  function AllSeen(sc: Scene, shown: set<SurfaceId>, x: int, y: int): SurfaceId -> bool {
    s => SeenAt(sc, shown, x, y, s)
  }

  /** What is seen at the point, the cursor aside: the top-most of the renderer's list. */
  function TopSeen(sc: Scene, rend: seq<SurfaceId>, shown: set<SurfaceId>, x: int, y: int): Ref {
    TopMost(rend, AllSeen(sc, shown, x, y))
  }

  /** A surface the hit test would take if nothing stood above it. */
  ghost predicate Target(sc: Scene, w: CompositorId, x: int, y: int, s: SurfaceId) {
    && s in sc.list.items
    && if AnyRoled(sc, w, sc.list.items) then RoledHit(sc, w, x, y, s) else PlainHit(sc, w, x, y, s)
  }

  ghost predicate HiddenTarget(sc: Scene, w: CompositorId, shown: set<SurfaceId>, x: int, y: int, s: SurfaceId) {
    Target(sc, w, x, y, s) && s !in shown
  }

  /** The hit is the highest target, by the heights read off the requests. */
  lemma WantedIsHighest(base: real, ops: seq<Op>, sc: Scene, w: CompositorId, x: int, y: int)
    requires Shows(sc, Run(base, ops))
    ensures match Wanted(sc, w, x, y)
      case None => forall t :: !Target(sc, w, x, y, t)
      case Some(s) =>
        && Target(sc, w, x, y, s)
        && forall t :: Target(sc, w, x, y, t) && t != s ==> Below(CompKey(base, ops, t), CompKey(base, ops, s))
  {
    var items := sc.list.items;
    TopMostIsTopMost(items, RoledHits(sc, w, x, y));
    TopMostIsTopMost(items, PlainHits(sc, w, x, y));
    CompositorListIsStacked(base, ops);
    assert Ascending(items, CompKeys(base, ops));
    var p := if AnyRoled(sc, w, items) then RoledHits(sc, w, x, y) else PlainHits(sc, w, x, y);
    assert forall t :: Target(sc, w, x, y, t) <==> t in items && p(t);
    assert Wanted(sc, w, x, y) == TopMost(items, p);
    hide Run, CompKey, RoledHit, PlainHit, TopMost;
    TopMostIsHighest(items, p, CompKeys(base, ops));
  }

  /** In an ascending list what is top-most is the highest. */
  lemma TopMostIsHighest(items: seq<SurfaceId>, p: SurfaceId -> bool, key: SurfaceId -> Key)
    requires Ascending(items, key)
    ensures match TopMost(items, p)
      case None => forall t :: t in items ==> !p(t)
      case Some(s) => s in items && p(s) && forall t :: t in items && p(t) && t != s ==> Below(key(t), key(s))
  {
    TopMostIsTopMost(items, p);
    match TopMost(items, p)
    case None =>
    case Some(s) =>
      var i :| 0 <= i < |items| && items[i] == s && forall j :: i < j < |items| ==> !p(items[j]);
      forall t | t in items && p(t) && t != s ensures Below(key(t), key(s)) {
        var j :| 0 <= j < |items| && items[j] == t;
        assert j < i;
      }
  }

  /** What is seen is the highest seen surface: cursors apart, the heights are the compositor's. */
  lemma SeenIsHighest(base: real, ops: seq<Op>, sc: Scene, shown: set<SurfaceId>, x: int, y: int)
    requires Shows(sc, Run(base, ops))
    ensures match TopSeen(sc, Run(base, ops).rend.items, shown, x, y)
      case None => forall t :: !SeenAt(sc, shown, x, y, t)
      case Some(s) =>
        && SeenAt(sc, shown, x, y, s)
        && forall t :: SeenAt(sc, shown, x, y, t) && t != s ==> Below(CompKey(base, ops, t), CompKey(base, ops, s))
  {
    var st := Run(base, ops);
    assert forall s :: AllSeen(sc, shown, x, y)(s) ==> Plain(st)(s);
    SameTopMost(base, ops, AllSeen(sc, shown, x, y));
    CompositorListIsStacked(base, ops);
    assert forall t :: SeenAt(sc, shown, x, y, t) ==> t in st.comp.items;
    hide Run, CompKey, TopMost;
    TopMostIsHighest(st.comp.items, AllSeen(sc, shown, x, y), CompKeys(base, ops));
  }

  /** Exactly when the hit is what is seen: what is seen is a target, and every target that is hidden
      was put lower than it; and if nothing is seen, no target is hidden there. */
  lemma HitIsSeenIff(base: real, ops: seq<Op>, sc: Scene, w: CompositorId, shown: set<SurfaceId>, x: int, y: int)
    requires Shows(sc, Run(base, ops))
    ensures var seen := TopSeen(sc, Run(base, ops).rend.items, shown, x, y);
      Wanted(sc, w, x, y) == seen <==>
        match seen
        case None => forall t :: !HiddenTarget(sc, w, shown, x, y, t)
        case Some(s) =>
          && Target(sc, w, x, y, s)
          && forall t :: HiddenTarget(sc, w, shown, x, y, t) ==> Below(CompKey(base, ops, t), CompKey(base, ops, s))
  {
    var hit, seen := Wanted(sc, w, x, y), TopSeen(sc, Run(base, ops).rend.items, shown, x, y);
    WantedIsHighest(base, ops, sc, w, x, y);
    SeenIsHighest(base, ops, sc, shown, x, y);
    TargetSeen(base, ops, sc, w, shown, x, y);
    assert forall t :: SeenAt(sc, shown, x, y, t) ==> t in shown;
    assert forall t :: HiddenTarget(sc, w, shown, x, y, t) <==> Target(sc, w, x, y, t) && t !in shown;
    hide *;
    if hit.Some? && seen.Some? && hit != seen && Target(sc, w, x, y, seen.value) {
      NotBelow(CompKey(base, ops, hit.value), CompKey(base, ops, seen.value));
    }
  }

  lemma NotBelow(a: Key, b: Key)
    requires Below(b, a)
    ensures !Below(a, b)
  {
  }

  /** A target is hidden or seen. */
  lemma TargetSeen(base: real, ops: seq<Op>, sc: Scene, w: CompositorId, shown: set<SurfaceId>, x: int, y: int)
    requires Shows(sc, Run(base, ops))
    ensures forall t :: Target(sc, w, x, y, t) && t in shown ==> SeenAt(sc, shown, x, y, t)
  {
    CompositorListIsStacked(base, ops);
    hide Run, CompKey;
  }

  // ------------------------------------------------------------------ two scenes

  /** Two surfaces of one client, the later one on top, the lower one with a role. */
  function Two(): seq<Op> { [] + [Create] + [Create] + [AssignRole(0, XdgSurface)] }

  /** Both cover the point (5, 5). */
  function Overlapping(st: Stacks, top: Role): Scene {
    var area := Rect(0, 0, 10, 10);
    Scene(st.comp, map[0 := Surface(1, 0, XdgSurface, false, area), 1 := Surface(1, 0, top, false, area)])
  }

  lemma TwoRun()
    ensures var st := Run(0.5, Two());
      st.comp.items == [0, 1] && st.rend.items == [0, 1] && st.role == map[0 := XdgSurface, 1 := NoRole]
  {
    RunPush(0.5, [], Create);
    RunPush(0.5, [] + [Create], Create);
    RunPush(0.5, [] + [Create] + [Create], AssignRole(0, XdgSurface));
    assert Run(0.5, []) == Init(0.5);
    var one := Run(0.5, [] + [Create]);
    hide Run;
    assert one.comp.items == [0] && one.rend.items == [0];
  }

  lemma TopOfTwo(p: SurfaceId -> bool)
    ensures TopMost([0, 1], p) == if p(1) then Some(1) else if p(0) then Some(0) else None
  {
    assert [0, 1][..1] == [0] && [0][..0] == [];
  }

  /** The upper surface is hidden: the lower one is seen, the hidden one is hit. */
  lemma HiddenSurfaceHit()
    ensures var st := Run(0.5, Two() + [AssignRole(1, XdgSurface)]);
      var sc := Overlapping(st, XdgSurface);
      && Shows(sc, st)
      && TopSeen(sc, st.rend.items, {0}, 5, 5) == Some(0) && Wanted(sc, 0, 5, 5) == Some(1)
  {
    TwoRun();
    RunPush(0.5, Two(), AssignRole(1, XdgSurface));
    hide Run;
    var st := Run(0.5, Two() + [AssignRole(1, XdgSurface)]);
    var sc := Overlapping(st, XdgSurface);
    TopOfTwo(RoledHits(sc, 0, 5, 5));
    TopOfTwo(AllSeen(sc, {0}, 5, 5));
  }

  /** Nothing is hidden, but the upper surface has no role: it is seen, the lower one is hit. */
  lemma RolelessSeenNotHit()
    ensures var st := Run(0.5, Two());
      var sc := Overlapping(st, NoRole);
      && Shows(sc, st)
      && TopSeen(sc, st.rend.items, {0, 1}, 5, 5) == Some(1) && Wanted(sc, 0, 5, 5) == Some(0)
  {
    TwoRun();
    hide Run;
    var sc := Overlapping(Run(0.5, Two()), NoRole);
    TopOfTwo(RoledHits(sc, 0, 5, 5));
    TopOfTwo(AllSeen(sc, {0, 1}, 5, 5));
  }
}
