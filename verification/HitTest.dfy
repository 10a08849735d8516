/**
 * The scene a compositor shows, and wstGetSurfaceFromPoint: which surface lies under a point.
 */
module HitTest {
  import opened Seqs
  import opened ZLists

  type Client = int
  type CompositorId = int

  datatype Rect = Rect(x: int, y: int, w: int, h: int)
  {
    predicate Contains(px: int, py: int) {
      x <= px < x + w && y <= py < y + h
    }
  }

  /** A surface, as far as focus routing looks at it. */
  datatype Surface = Surface(client: Client, owner: CompositorId, role: Role, hasVpc: bool, area: Rect)

  /** The z-ordered list of a context (bottom first) and its surfaces. */
  datatype Scene = Scene(list: ZList, info: map<SurfaceId, Surface>)
  {
    function Of(s: SurfaceId): Surface {
      if s in info then info[s] else Surface(0, 0, NoRole, false, Rect(0, 0, 0, 0))
    }
  }

  /** A surface of compositor w whose role makes it a target for input. */
  predicate Roled(sc: Scene, w: CompositorId, s: SurfaceId) {
    sc.Of(s).owner == w && sc.Of(s).role != NoRole && sc.Of(s).role != Cursor
  }

  predicate RoledHit(sc: Scene, w: CompositorId, x: int, y: int, s: SurfaceId) {
    Roled(sc, w, s) && sc.Of(s).area.Contains(x, y)
  }

  /** The fallback candidates: no role, no video. */
  predicate PlainHit(sc: Scene, w: CompositorId, x: int, y: int, s: SurfaceId) {
    sc.Of(s).owner == w && sc.Of(s).role == NoRole && !sc.Of(s).hasVpc && sc.Of(s).area.Contains(x, y)
  }

  function RoledHits(sc: Scene, w: CompositorId, x: int, y: int): SurfaceId -> bool {
    s => RoledHit(sc, w, x, y, s)
  }

  function PlainHits(sc: Scene, w: CompositorId, x: int, y: int): SurfaceId -> bool {
    s => PlainHit(sc, w, x, y, s)
  }

  /** The last element satisfying p, that is the top-most one. */
  function TopMost(stack: seq<SurfaceId>, p: SurfaceId -> bool): Ref {
    if stack == [] then None
    else if p(stack[|stack| - 1]) then Some(stack[|stack| - 1])
    else TopMost(stack[..|stack| - 1], p)
  }

  /** What the comments of the source ask for: the top-most hit among surfaces with a role; only
      when no surface of this compositor has one, the top-most hit without. */
  function Wanted(sc: Scene, w: CompositorId, x: int, y: int): Ref {
    var hit := TopMost(sc.list.items, RoledHits(sc, w, x, y));
    if hit.Some? then hit
    else if exists s :: s in sc.list.items && Roled(sc, w, s) then None
    else TopMost(sc.list.items, PlainHits(sc, w, x, y))
  }

  /** What the loop returns: its variable still holds the bottom entry when that entry was
      skipped because it belongs to another compositor. */
  function Found(sc: Scene, w: CompositorId, x: int, y: int): Ref {
    var stack := sc.list.items;
    var hit := TopMost(stack, RoledHits(sc, w, x, y));
    if hit.None? && stack != [] && sc.Of(stack[0]).owner != w then Some(stack[0]) else Wanted(sc, w, x, y)
  }

  ghost predicate IsTopMost(stack: seq<SurfaceId>, p: SurfaceId -> bool, s: SurfaceId) {
    exists i :: 0 <= i < |stack| && stack[i] == s && p(s) && forall j :: i < j < |stack| ==> !p(stack[j])
  }

  lemma {:induction false} TopMostIsTopMost(stack: seq<SurfaceId>, p: SurfaceId -> bool)
    ensures match TopMost(stack, p)
      case Some(s) => IsTopMost(stack, p, s)
      case None => forall s :: s in stack ==> !p(s)
  {
    if stack != [] {
      var n := |stack| - 1;
      if p(stack[n]) {
        assert IsTopMost(stack, p, stack[n]);
      } else {
        TopMostIsTopMost(stack[..n], p);
        match TopMost(stack, p)
        case Some(s) =>
          var i :| 0 <= i < n && stack[..n][i] == s && forall j :: i < j < n ==> !p(stack[..n][j]);
          assert forall j :: i < j < |stack| ==> !p(stack[j]) by {
            assert forall j :: i < j < n ==> stack[..n][j] == stack[j];
          }
          assert stack[i] == s;
        case None =>
      }
    }
  }

  /** Hit-test correctness in plain words, for a context whose bottom entry is the compositor's own. */
  lemma HitTestCorrect(sc: Scene, w: CompositorId, x: int, y: int)
    requires sc.list.items != [] ==> sc.Of(sc.list.items[0]).owner == w
    ensures var stack := sc.list.items;
      var roled, plain := RoledHits(sc, w, x, y), PlainHits(sc, w, x, y);
      match Found(sc, w, x, y)
      case Some(s) =>
        || IsTopMost(stack, roled, s)
        || ((forall t :: t in stack ==> !Roled(sc, w, t)) && IsTopMost(stack, plain, s))
      case None =>
        && (forall t :: t in stack ==> !roled(t))
        && ((exists t :: t in stack && Roled(sc, w, t)) || forall t :: t in stack ==> !plain(t))
  {
    TopMostIsTopMost(sc.list.items, RoledHits(sc, w, x, y));
    TopMostIsTopMost(sc.list.items, PlainHits(sc, w, x, y));
  }

  /** At the point, with the bounds spelled out. */
  predicate Covers(sc: Scene, s: SurfaceId, x: int, y: int) {
    var a := sc.Of(s).area;
    a.x <= x && x < a.x + a.w && a.y <= y && y < a.y + a.h
  }

  /** With one of the roles that make a surface a window. */
  predicate Windowed(sc: Scene, w: CompositorId, s: SurfaceId) {
    sc.Of(s).owner == w && (sc.Of(s).role == ShellSurface || sc.Of(s).role == XdgSurface)
  }

  predicate Bare(sc: Scene, w: CompositorId, s: SurfaceId) {
    sc.Of(s).owner == w && sc.Of(s).role == NoRole && !sc.Of(s).hasVpc
  }

  /** The same by positions: of several windows at the point the top-most is found; of several bare surfaces
      the top-most, if the compositor has no window at all; and if neither is at the point, nothing is. */
  lemma HitByPositions(sc: Scene, w: CompositorId, x: int, y: int)
    requires sc.list.items != [] ==> sc.Of(sc.list.items[0]).owner == w
    ensures var stack, found := sc.list.items, Found(sc, w, x, y);
      && (forall i :: 0 <= i < |stack| && Windowed(sc, w, stack[i]) && Covers(sc, stack[i], x, y)
            && (forall j :: i < j < |stack| ==> !(Windowed(sc, w, stack[j]) && Covers(sc, stack[j], x, y)))
            ==> found == Some(stack[i]))
      && (forall i :: 0 <= i < |stack| && (forall j :: 0 <= j < |stack| ==> !Windowed(sc, w, stack[j]))
            && Bare(sc, w, stack[i]) && Covers(sc, stack[i], x, y)
            && (forall j :: i < j < |stack| ==> !(Bare(sc, w, stack[j]) && Covers(sc, stack[j], x, y)))
            ==> found == Some(stack[i]))
      && (found.Some? ==>
            found.value in stack && Covers(sc, found.value, x, y)
            && (Windowed(sc, w, found.value) || (Bare(sc, w, found.value) && forall s :: s in stack ==> !Windowed(sc, w, s))))
  {
    var stack := sc.list.items;
    var roled, plain := RoledHits(sc, w, x, y), PlainHits(sc, w, x, y);
    assert forall s :: roled(s) <==> Windowed(sc, w, s) && Covers(sc, s, x, y);
    assert forall s :: plain(s) <==> Bare(sc, w, s) && Covers(sc, s, x, y);
    assert forall s :: Roled(sc, w, s) <==> Windowed(sc, w, s);
    TopMostIsTopMost(stack, roled);
    TopMostIsTopMost(stack, plain);
    hide TopMost, RoledHits, PlainHits, Covers, Windowed, Bare, Roled;
  }

  /** Exactly when the code returns what is wanted: some roled surface is hit, or the bottom entry
      of the context does not belong to another compositor. */
  lemma FoundIsWantedIff(sc: Scene, w: CompositorId, x: int, y: int)
    ensures Found(sc, w, x, y) == Wanted(sc, w, x, y) <==>
      || (exists s :: s in sc.list.items && RoledHit(sc, w, x, y, s))
      || sc.list.items == []
      || sc.Of(sc.list.items[0]).owner == w
  {
    TopMostIsTopMost(sc.list.items, RoledHits(sc, w, x, y));
    TopMostIsTopMost(sc.list.items, PlainHits(sc, w, x, y));
  }

  /** Two virtual compositors, nothing under the point: the other compositor's surface is returned. */
  lemma ForeignSurfaceReturned()
    ensures var theirs := Surface(1, 1, XdgSurface, false, Rect(0, 0, 10, 10));
      var sc := Scene(ZList([0], map[0 := 0.5]), map[0 := theirs]);
      Found(sc, 0, 500, 500) == Some(0) && Wanted(sc, 0, 500, 500) == None
  {
    var theirs := Surface(1, 1, XdgSurface, false, Rect(0, 0, 10, 10));
    var sc := Scene(ZList([0], map[0 := 0.5]), map[0 := theirs]);
    TopMostIsTopMost([0], RoledHits(sc, 0, 500, 500));
    TopMostIsTopMost([0], PlainHits(sc, 0, 500, 500));
  }

  lemma {:induction false} TopMostCongruent(stack: seq<SurfaceId>, p: SurfaceId -> bool, q: SurfaceId -> bool)
    requires forall s :: s in stack ==> p(s) == q(s)
    ensures TopMost(stack, p) == TopMost(stack, q)
  {
    if stack != [] {
      var top, rest := stack[|stack| - 1], stack[..|stack| - 1];
      assert top in stack && p(top) == q(top);
      TopMostCongruent(rest, p, q);
    }
  }

  /** Moving or resizing a cursor surface never changes what is under a point. */
  lemma CursorAreaIrrelevant(sc: Scene, w: CompositorId, x: int, y: int, cursor: SurfaceId, area: Rect)
    requires cursor in sc.info && sc.info[cursor].role == Cursor
    ensures Found(sc.(info := sc.info[cursor := sc.info[cursor].(area := area)]), w, x, y) == Found(sc, w, x, y)
  {
    var sc' := sc.(info := sc.info[cursor := sc.info[cursor].(area := area)]);
    assert forall s :: Roled(sc', w, s) == Roled(sc, w, s);
    TopMostCongruent(sc.list.items, RoledHits(sc', w, x, y), RoledHits(sc, w, x, y));
    TopMostCongruent(sc.list.items, PlainHits(sc', w, x, y), PlainHits(sc, w, x, y));
  }

  ghost predicate AnyRoled(sc: Scene, w: CompositorId, stack: seq<SurfaceId>) {
    exists s :: s in stack && Roled(sc, w, s)
  }

  /** What one more entry, seen from the top, adds. */
  lemma ScanStep(sc: Scene, w: CompositorId, stack: seq<SurfaceId>, it: nat, p: SurfaceId -> bool)
    requires it < |stack|
    ensures TopMost(stack[..it + 1], p) == if p(stack[it]) then Some(stack[it]) else TopMost(stack[..it], p)
    ensures AnyRoled(sc, w, stack[it..]) <==> Roled(sc, w, stack[it]) || AnyRoled(sc, w, stack[it + 1..])
  {
    assert stack[..it + 1][..it] == stack[..it];
    assert stack[it..] == [stack[it]] + stack[it + 1..];
    assert forall t :: t in stack[it..] <==> t == stack[it] || t in stack[it + 1..];
  }

  /** The reverse scan of wstGetSurfaceFromPoint. */
  method GetSurfaceFromPoint(sc: Scene, w: CompositorId, x: int, y: int) returns (r: Ref)
    ensures r == Found(sc, w, x, y)
  {
    var stack := sc.list.items;
    ghost var roled, plain := RoledHits(sc, w, x, y), PlainHits(sc, w, x, y);
    ghost var topRoled, topPlain := TopMost(stack, roled), TopMost(stack, plain);
    var surface: Ref, haveRoles, noRole: Ref := None, false, None;
    var hit, it := false, |stack|;
    assert stack[..it] == stack;
    while it > 0 && !hit
      invariant 0 <= it <= |stack|
      invariant haveRoles <==> AnyRoled(sc, w, stack[it..])
      invariant hit ==> surface.Some? && topRoled == surface
      invariant !hit ==> topRoled == TopMost(stack[..it], roled)
      invariant !hit ==> topPlain == if noRole.Some? then noRole else TopMost(stack[..it], plain)
      invariant !hit && it == |stack| ==> surface == None
      invariant !hit && it < |stack| ==>
        surface == if sc.Of(stack[it]).owner != w then Some(stack[it]) else None
      decreases it, !hit
    {
      it := it - 1;
      ScanStep(sc, w, stack, it, roled);
      ScanStep(sc, w, stack, it, plain);
      var s := stack[it];
      surface := Some(s);
      if sc.Of(s).owner != w { continue; }
      if sc.Of(s).role != NoRole && sc.Of(s).role != Cursor {
        haveRoles := true;
      }
      if sc.Of(s).area.Contains(x, y) {
        if sc.Of(s).role == NoRole {
          if !sc.Of(s).hasVpc && noRole.None? {
            noRole := Some(s);
          }
        } else if sc.Of(s).role != Cursor {
          hit := true;
        }
      }
      if !hit {
        surface := None;
      }
    }
    assert !hit ==> stack[..it] == [] && stack[it..] == stack;
    if surface.None? && !haveRoles {
      surface := noRole;
    }
    return surface;
  }
}
