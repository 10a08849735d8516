/**
 * Composing a virtual compositor (WstCompositorComposeEmbedded in westeros-compositor.cpp): the
 * surfaces of the others are hidden while the scene is drawn, and then shown again as they were.
 */
module VirtualCompose {
  import opened Seqs

  type SurfaceId = int
  type CompositorId = int

  /** Whether a renderer surface is visible, and the place its visibility is kept meanwhile. */
  datatype Shown = Shown(visible: bool, tempVisible: bool)

  type Surfaces = map<SurfaceId, Shown>

  /** Which compositor a surface belongs to. */
  type Owner = SurfaceId -> CompositorId

  predicate Listed(list: seq<SurfaceId>, m: Surfaces) {
    forall s :: s in list ==> s in m
  }

  // ------------------------------------------------------------------ the two loops

  /** The first loop: what is not the caller's is noted and hidden. */
  function HideOthers(list: seq<SurfaceId>, m: Surfaces, owner: Owner, wctx: CompositorId): (r: Surfaces)
    requires Listed(list, m)
    ensures r.Keys == m.Keys
  {
    if list == [] then m
    else
      var s := list[|list| - 1];
      var r := HideOthers(list[..|list| - 1], m, owner, wctx);
      if owner(s) == wctx then r else r[s := Shown(false, r[s].visible)]
  }

  /** The second loop. */
  function ShowOthers(list: seq<SurfaceId>, m: Surfaces, owner: Owner, wctx: CompositorId): (r: Surfaces)
    requires Listed(list, m)
    ensures r.Keys == m.Keys
  {
    if list == [] then m
    else
      var s := list[|list| - 1];
      var r := ShowOthers(list[..|list| - 1], m, owner, wctx);
      if owner(s) == wctx then r else r[s := r[s].(visible := r[s].tempVisible)]
  }

  /** How often a surface is listed. */
  function Times(list: seq<SurfaceId>, s: SurfaceId): nat {
    if list == [] then 0 else Times(list[..|list| - 1], s) + if list[|list| - 1] == s then 1 else 0
  }

  lemma {:induction false} HiddenAt(list: seq<SurfaceId>, m: Surfaces, owner: Owner, wctx: CompositorId, s: SurfaceId)
    requires Listed(list, m) && s in m
    ensures HideOthers(list, m, owner, wctx)[s] ==
      if owner(s) == wctx || Times(list, s) == 0 then m[s]
      else Shown(false, Times(list, s) == 1 && m[s].visible)
  {
    if list != [] {
      HiddenAt(list[..|list| - 1], m, owner, wctx, s);
    }
  }

  lemma {:induction false} ShownAt(list: seq<SurfaceId>, m: Surfaces, owner: Owner, wctx: CompositorId, s: SurfaceId)
    requires Listed(list, m) && s in m
    ensures ShowOthers(list, m, owner, wctx)[s] ==
      if owner(s) == wctx || Times(list, s) == 0 then m[s] else m[s].(visible := m[s].tempVisible)
  {
    if list != [] {
      ShownAt(list[..|list| - 1], m, owner, wctx, s);
    }
  }

  lemma {:induction false} TimesMember(list: seq<SurfaceId>, s: SurfaceId)
    ensures Times(list, s) > 0 <==> s in list
  {
    if list != [] {
      TimesMember(list[..|list| - 1], s);
      assert list == list[..|list| - 1] + [list[|list| - 1]];
    }
  }

  lemma {:induction false} TimesDistinct(list: seq<SurfaceId>, s: SurfaceId)
    requires Distinct(list)
    ensures Times(list, s) <= 1
  {
    if list != [] {
      var rest := list[..|list| - 1];
      TimesDistinct(rest, s);
      TimesMember(rest, s);
    }
  }

  // ------------------------------------------------------------------ what the caller sees

  /** While the scene is drawn exactly those of the listed surfaces are visible that are the caller's own
      and were visible before. */
  lemma OnlyOwnDrawn(list: seq<SurfaceId>, m: Surfaces, owner: Owner, wctx: CompositorId, s: SurfaceId)
    requires Listed(list, m) && s in list
    ensures HideOthers(list, m, owner, wctx)[s].visible <==> owner(s) == wctx && m[s].visible
  {
    HiddenAt(list, m, owner, wctx, s);
    TimesMember(list, s);
  }

  /** Afterwards every surface is as visible as before, for any pattern of ownership, exactly when no
      visible surface of another compositor is listed twice. */
  lemma TransparentIff(list: seq<SurfaceId>, m: Surfaces, owner: Owner, wctx: CompositorId)
    requires Listed(list, m)
    ensures var r := ShowOthers(list, HideOthers(list, m, owner, wctx), owner, wctx);
      (forall s :: s in m ==> r[s].visible == m[s].visible)
      <==> (forall s :: s in m && owner(s) != wctx && m[s].visible ==> Times(list, s) <= 1)
  {
    var hidden := HideOthers(list, m, owner, wctx);
    var r := ShowOthers(list, hidden, owner, wctx);
    hide HideOthers, ShowOthers, Times;
    forall s | s in m
      ensures r[s].visible == m[s].visible <==> (owner(s) != wctx && m[s].visible ==> Times(list, s) <= 1)
    {
      HiddenAt(list, m, owner, wctx, s);
      ShownAt(list, hidden, owner, wctx, s);
    }
  }

  // ------------------------------------------------------------------ the call

  class Context {
    var surfaces: seq<SurfaceId>
    var shown: Surfaces

    ghost predicate Valid()
      reads this
    {
      Listed(surfaces, shown) && Distinct(surfaces)
    }

    method HideForeign(owner: Owner, wctx: CompositorId)
      requires Valid()
      modifies this`shown
      ensures Valid() && shown == HideOthers(surfaces, old(shown), owner, wctx)
    {
      ghost var before := shown;
      for it := 0 to |surfaces|
        invariant Listed(surfaces, shown) && Listed(surfaces[..it], before)
        invariant shown == HideOthers(surfaces[..it], before, owner, wctx)
      {
        var surface := surfaces[it];
        assert surfaces[..it + 1][..it] == surfaces[..it];
        if owner(surface) != wctx {
          shown := shown[surface := shown[surface].(tempVisible := shown[surface].visible)];
          shown := shown[surface := shown[surface].(visible := false)];
        }
      }
      assert surfaces[..|surfaces|] == surfaces;
    }

    method ShowForeign(owner: Owner, wctx: CompositorId)
      requires Valid()
      modifies this`shown
      ensures Valid() && shown == ShowOthers(surfaces, old(shown), owner, wctx)
    {
      ghost var before := shown;
      for it := 0 to |surfaces|
        invariant Listed(surfaces, shown) && Listed(surfaces[..it], before)
        invariant shown == ShowOthers(surfaces[..it], before, owner, wctx)
      {
        var surface := surfaces[it];
        assert surfaces[..it + 1][..it] == surfaces[..it];
        if owner(surface) != wctx {
          shown := shown[surface := shown[surface].(visible := shown[surface].tempVisible)];
        }
      }
      assert surfaces[..|surfaces|] == surfaces;
    }

    /** WstCompositorComposeEmbedded, as far as visibility is concerned.  drawn is what the renderer finds
        when it draws the scene; nothing is drawn under the hint to stay hidden. */
    method ComposeEmbedded(owner: Owner, wctx: CompositorId, isVirtual: bool, hidden: bool) returns (drawn: map<SurfaceId, bool>)
      requires Valid()
      modifies this`shown
      ensures Valid() && shown.Keys == old(shown).Keys
      ensures forall s :: s in shown ==> shown[s].visible == old(shown)[s].visible
      ensures hidden ==> drawn == map[]
      ensures !hidden ==> forall s :: s in surfaces ==>
        s in drawn && drawn[s] == (old(shown)[s].visible && (isVirtual ==> owner(s) == wctx))
    {
      ghost var before := shown;
      if isVirtual {
        HideForeign(owner, wctx);
      }
      drawn := if hidden then map[] else map s | s in shown :: shown[s].visible;
      if isVirtual {
        ShowForeign(owner, wctx);
        Transparent(surfaces, before, owner, wctx);
      }
    }
  }

  lemma Transparent(list: seq<SurfaceId>, m: Surfaces, owner: Owner, wctx: CompositorId)
    requires Listed(list, m) && Distinct(list)
    ensures var r := ShowOthers(list, HideOthers(list, m, owner, wctx), owner, wctx);
      forall s :: s in m ==> r[s].visible == m[s].visible
    ensures forall s :: s in list ==> (HideOthers(list, m, owner, wctx)[s].visible <==> owner(s) == wctx && m[s].visible)
  {
    forall s ensures Times(list, s) <= 1 {
      TimesDistinct(list, s);
    }
    TransparentIff(list, m, owner, wctx);
    forall s | s in list ensures HideOthers(list, m, owner, wctx)[s].visible <==> owner(s) == wctx && m[s].visible {
      OnlyOwnDrawn(list, m, owner, wctx, s);
    }
  }
}
