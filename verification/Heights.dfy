/**
 * The stacking order by positions in the request history: which request placed a surface last, and with
 * which z.  Roles and life of the surfaces, and the numbers that the requests stand for, are spelled out.
 */
module Heights {
  import opened Seqs
  import opened ZLists
  import opened Stacking

  // ------------------------------------------------------------------ life and roles

  predicate TakesRole(st: Stacks, op: Op, s: SurfaceId) {
    s in st.role && st.role[s] == NoRole &&
    ((op.AssignRole? && op.s == s && op.role != NoRole) || (op.SetCursor? && op.s == s))
  }

  /** Which surfaces are alive after a request, and their roles: numbered as they are made, made without a
      role, given one once, by the first request that asks for one. */
  lemma RoleAfter(st: Stacks, op: Op, s: SurfaceId)
    ensures var st' := Step(st, op);
      && (s in st'.role <==> (s in st.role && op != Destroy(s)) || (op.Create? && s == st.next))
      && (op.Create? && s == st.next ==> st'.role[s] == NoRole)
      && (s in st.role && s in st'.role && !(op.Create? && s == st.next) ==>
            st'.role[s] == if !TakesRole(st, op, s) then st.role[s] else if op.SetCursor? then Cursor else op.role)
      && st'.next == (if op.Create? then st.next + 1 else st.next) && st'.base == st.base
  {
    hide Put, Drop;
  }

  // ------------------------------------------------------------------ the request that placed a surface last

  /** Does a request place the surface in the list?  Being made, a set-zorder, and, in the renderer's list,
      becoming the moving cursor do. */
  predicate Places(st: Stacks, op: Op, s: SurfaceId, renderer: bool) {
    match op
    case Create => s == st.next
    case SetZOrder(t, _) => s == t && s in st.role
    case SetCursor(t, mayMove) => renderer && s == t && mayMove && s in st.role && (st.role[s] == NoRole || st.role[s] == Cursor)
    case _ => false
  }

  /** The z it is placed with. */
  function PlacedZ(base: real, op: Op): real {
    match op
    case SetZOrder(_, z) => z
    case SetCursor(_, _) => 1000000.0
    case _ => base
  }

  predicate PlacesAt(base: real, ops: seq<Op>, i: nat, s: SurfaceId, renderer: bool)
    requires i < |ops|
  {
    Places(Run(base, ops[..i]), ops[i], s, renderer)
  }

  /** Request i was the last to place the surface. */
  ghost predicate PlacedBy(base: real, ops: seq<Op>, i: nat, s: SurfaceId, renderer: bool) {
    && i < |ops| && PlacesAt(base, ops, i, s, renderer)
    && forall k :: i < k < |ops| ==> !PlacesAt(base, ops, k, s, renderer)
  }

  function KeyIn(base: real, ops: seq<Op>, s: SurfaceId, renderer: bool): Key {
    if renderer then RendKey(base, ops, s) else CompKey(base, ops, s)
  }

  lemma {:induction false} BaseKept(base: real, ops: seq<Op>)
    ensures Run(base, ops).base == base
  {
    if ops != [] {
      BaseKept(base, ops[..|ops| - 1]);
      hide Put, Drop;
    }
  }

  /** One request, and the key. */
  lemma Rekeyed(base: real, ops: seq<Op>, s: SurfaceId, renderer: bool)
    requires ops != []
    ensures var before, op := ops[..|ops| - 1], ops[|ops| - 1];
      KeyIn(base, ops, s, renderer) ==
        if Places(Run(base, before), op, s, renderer) then Key(PlacedZ(base, op), |ops|) else KeyIn(base, before, s, renderer)
  {
    BaseKept(base, ops[..|ops| - 1]);
    hide Run;
  }

  lemma {:induction false} KeyIsPlaced(base: real, ops: seq<Op>, i: nat, s: SurfaceId, renderer: bool)
    requires PlacedBy(base, ops, i, s, renderer)
    ensures KeyIn(base, ops, s, renderer) == Key(PlacedZ(base, ops[i]), i + 1)
  {
    Rekeyed(base, ops, s, renderer);
    var n := |ops| - 1;
    if i < n {
      var before := ops[..n];
      assert !PlacesAt(base, ops, n, s, renderer);
      assert before[..i] == ops[..i];
      forall k | i < k < n ensures !PlacesAt(base, before, k, s, renderer) {
        assert before[..k] == ops[..k];
        assert !PlacesAt(base, ops, k, s, renderer);
      }
      KeyIsPlaced(base, before, i, s, renderer);
    }
    hide Run, KeyIn, Places;
  }

  function ItemsIn(st: Stacks, renderer: bool): seq<SurfaceId> {
    if renderer then st.rend.items else st.comp.items
  }

  function KeysIn(base: real, ops: seq<Op>, renderer: bool): SurfaceId -> Key {
    (s: SurfaceId) => KeyIn(base, ops, s, renderer)
  }

  lemma ItemsAscend(base: real, ops: seq<Op>, renderer: bool)
    ensures Ascending(ItemsIn(Run(base, ops), renderer), KeysIn(base, ops, renderer))
    ensures forall s :: s in ItemsIn(Run(base, ops), renderer) <==> s in Run(base, ops).role
  {
    ListsAreStacked(base, ops);
    var items := ItemsIn(Run(base, ops), renderer);
    SameKeysAscending(items, if renderer then RendKeys(base, ops) else CompKeys(base, ops), KeysIn(base, ops, renderer));
    hide Run, CompKey, RendKey;
  }

  /** In every run and either list, of two live surfaces the one stands above that was placed with the
      higher z or, at the same z, placed later. */
  lemma AboveIff(base: real, ops: seq<Op>, renderer: bool, a: nat, b: nat, i: nat, j: nat)
    requires var items := ItemsIn(Run(base, ops), renderer);
      a < |items| && b < |items| && a != b
      && PlacedBy(base, ops, i, items[a], renderer) && PlacedBy(base, ops, j, items[b], renderer)
    ensures a < b <==>
      var zi, zj := PlacedZ(base, ops[i]), PlacedZ(base, ops[j]); zi < zj || (zi == zj && i < j)
  {
    var items := ItemsIn(Run(base, ops), renderer);
    ItemsAscend(base, ops, renderer);
    KeyIsPlaced(base, ops, i, items[a], renderer);
    KeyIsPlaced(base, ops, j, items[b], renderer);
    hide Run, KeyIn, ItemsIn, PlacedBy, PlacedZ;
    var key := KeysIn(base, ops, renderer);
    assert if a < b then Below(key(items[a]), key(items[b])) else Below(key(items[b]), key(items[a]));
  }

  /** Every live surface was placed by some request last. */
  lemma {:induction false} PlacedBySome(base: real, ops: seq<Op>, s: SurfaceId, renderer: bool)
    requires s in Run(base, ops).role
    ensures exists i: nat :: PlacedBy(base, ops, i, s, renderer)
  {
    var n := |ops| - 1;
    var before := ops[..n];
    if PlacesAt(base, ops, n, s, renderer) {
      assert PlacedBy(base, ops, n, s, renderer);
    } else {
      RoleAfter(Run(base, before), ops[n], s);
      PlacedBySome(base, before, s, renderer);
      var i: nat :| PlacedBy(base, before, i, s, renderer);
      assert before[..i] == ops[..i];
      forall k | i < k < |ops| ensures !PlacesAt(base, ops, k, s, renderer) {
        if k < n {
          assert before[..k] == ops[..k];
          assert !PlacesAt(base, before, k, s, renderer);
        }
      }
      assert PlacedBy(base, ops, i, s, renderer);
    }
  }

  /** A cursor raised last stands above every surface that was placed below 1000000 last, whatever has come
      since. */
  lemma RaisedCursorOnTop(base: real, ops: seq<Op>, a: nat, b: nat, i: nat, j: nat)
    requires var items := Run(base, ops).rend.items;
      a < |items| && b < |items|
      && PlacedBy(base, ops, i, items[a], true) && ops[i].SetCursor?
      && PlacedBy(base, ops, j, items[b], true)
      && (ops[j].Create? ==> base < 1000000.0) && (ops[j].SetZOrder? ==> ops[j].z < 1000000.0) && !ops[j].SetCursor?
    ensures b < a
  {
    if a != b {
      AboveIff(base, ops, true, a, b, i, j);
    } else {
      SameRequest(base, ops, i, j, Run(base, ops).rend.items[a]);
    }
  }

  lemma SameRequest(base: real, ops: seq<Op>, i: nat, j: nat, s: SurfaceId)
    requires PlacedBy(base, ops, i, s, true) && PlacedBy(base, ops, j, s, true)
    ensures i == j
  {
  }

  /** A surface made after the cursor was raised stays below it. */
  lemma LaterBelowCursor()
    ensures Run(0.5, [] + [Create] + [SetCursor(0, true)] + [Create]).rend.items == [1, 0]
  {
    var c1, c2 := [] + [Create], [] + [Create] + [SetCursor(0, true)];
    RunPush(0.5, [], Create);
    RunPush(0.5, c1, SetCursor(0, true));
    RunPush(0.5, c2, Create);
    assert Run(0.5, []) == Init(0.5);
    hide Run;
    assert Run(0.5, c1).rend.items == [0] && Run(0.5, c1).role == map[0 := NoRole] && Run(0.5, c1).next == 1;
    assert Run(0.5, c2).rend.items == [0] && Run(0.5, c2).rend.z == map[0 := 1000000.0] && Run(0.5, c2).next == 1;
  }
}
