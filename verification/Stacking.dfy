/**
 * Two z-ordered surface lists over whole runs.  The compositor (wstSurfaceInsertSurface) and the
 * renderer (wstRendererSurfaceCreate/Destroy/SetZOrder, twice: embedded and gl) each keep a vector
 * of surfaces sorted by their own copy of the z-order.  A cursor surface is raised in the
 * renderer's vector only, so the two drift apart; this module says exactly how far.
 */
module Stacking {
  import opened Seqs
  import opened ZLists

  const CURSOR_Z := 1000000.0

  /** Both lists, the permanent roles, and the next surface id. */
  datatype Stacks = Stacks(comp: ZList, rend: ZList, role: map<SurfaceId, Role>, next: SurfaceId, base: real)

  datatype Op =
    | Create
    | Destroy(s: SurfaceId)
    | SetZOrder(s: SurfaceId, z: real)
    | AssignRole(s: SurfaceId, role: Role)
    | SetCursor(s: SurfaceId, mayMove: bool)

  function Init(base: real): Stacks {
    Stacks(ZList([], map[]), ZList([], map[]), map[], 0, base)
  }

  /** wstSurfaceSetRole: a role is taken once; asking for the same one again succeeds. */
  predicate RoleOk(role: map<SurfaceId, Role>, s: SurfaceId, r: Role) {
    s in role && r != NoRole && (role[s] == NoRole || role[s] == r)
  }

  function Step(st: Stacks, op: Op): Stacks {
    match op
    case Create =>
      var rend := Put(st.rend, st.next, st.base);
      st.(comp := Put(st.comp, st.next, Level(rend.z, st.next)), rend := rend,
          role := st.role[st.next := NoRole], next := st.next + 1)
    case Destroy(s) =>
      if s in st.role then st.(comp := Drop(st.comp, s), rend := Drop(st.rend, s), role := st.role - {s}) else st
    case SetZOrder(s, z) =>
      if s in st.role then st.(comp := Put(st.comp, s, z), rend := Put(st.rend, s, z)) else st
    case AssignRole(s, r) =>
      if RoleOk(st.role, s, r) then st.(role := st.role[s := r]) else st
    case SetCursor(s, mayMove) =>
      if !RoleOk(st.role, s, Cursor) then st
      else
        st.(role := st.role[s := Cursor], rend := if mayMove then Put(st.rend, s, CURSOR_Z) else st.rend)
  }

  function Run(base: real, ops: seq<Op>): Stacks {
    if ops == [] then Init(base) else Step(Run(base, ops[..|ops| - 1]), ops[|ops| - 1])
  }

  lemma RunPush(base: real, ops: seq<Op>, op: Op)
    ensures Run(base, ops + [op]) == Step(Run(base, ops), op)
  {
    assert (ops + [op])[..|ops|] == ops;
  }

  // ------------------------------------------------------------------ what the order should be

  /** Height of a surface as the request history defines it: the z last given to it, then the
      moment it was last (re)inserted. */
  datatype Key = Key(z: real, at: nat)

  predicate Below(a: Key, b: Key) {
    a.z < b.z || (a.z == b.z && a.at < b.at)
  }

  /** How one request moves s in the compositor's list, the request being number `now`. */
  function CompRekey(st: Stacks, op: Op, s: SurfaceId, key: Key, now: nat): Key {
    match op
    case Create => if s == st.next then Key(st.base, now) else key
    case SetZOrder(t, z) => if s == t && s in st.role then Key(z, now) else key
    case _ => key
  }

  /** In the renderer's list, becoming the moving cursor counts too. */
  function RendRekey(st: Stacks, op: Op, s: SurfaceId, key: Key, now: nat): Key {
    match op
    case SetCursor(t, mayMove) =>
      if s == t && mayMove && RoleOk(st.role, t, Cursor) then Key(CURSOR_Z, now) else key
    case _ => CompRekey(st, op, s, key, now)
  }

  /** Keys read off the requests alone. */
  function CompKey(base: real, ops: seq<Op>, s: SurfaceId): Key {
    if ops == [] then Key(0.0, 0)
    else
      var before := ops[..|ops| - 1];
      CompRekey(Run(base, before), ops[|before|], s, CompKey(base, before, s), |ops|)
  }

  function RendKey(base: real, ops: seq<Op>, s: SurfaceId): Key {
    if ops == [] then Key(0.0, 0)
    else
      var before := ops[..|ops| - 1];
      RendRekey(Run(base, before), ops[|before|], s, RendKey(base, before, s), |ops|)
  }

  function CompKeys(base: real, ops: seq<Op>): SurfaceId -> Key {
    (s: SurfaceId) => CompKey(base, ops, s)
  }

  function RendKeys(base: real, ops: seq<Op>): SurfaceId -> Key {
    (s: SurfaceId) => RendKey(base, ops, s)
  }

  ghost predicate Ascending(items: seq<SurfaceId>, key: SurfaceId -> Key) {
    forall i, j :: 0 <= i < j < |items| ==> Below(key(items[i]), key(items[j]))
  }

  /** The z recorded for each live surface is the one its key names, and no key is from the future. */
  ghost predicate Recorded(z: map<SurfaceId, real>, live: set<SurfaceId>, key: SurfaceId -> Key, now: nat) {
    forall s :: s in live ==> s in z && z[s] == key(s).z && key(s).at <= now
  }

  /** A list that is exactly the live surfaces, in strictly ascending key order. */
  ghost predicate Stacked(l: ZList, live: set<SurfaceId>, key: SurfaceId -> Key, now: nat) {
    && (forall s :: s in l.items <==> s in live)
    && Recorded(l.z, live, key, now)
    && Ascending(l.items, key)
  }

  lemma {:induction false} SlotSplits(items: seq<SurfaceId>, z: map<SurfaceId, real>, lvl: real)
    ensures var k := SlotFor(items, z, lvl);
      && (forall i :: 0 <= i < k ==> Level(z, items[i]) <= lvl)
      && (k < |items| ==> lvl < Level(z, items[k]))
  {
    if items != [] && !(lvl < Level(z, items[0])) {
      SlotSplits(items[1..], z, lvl);
    }
  }

  lemma InsertAscending(rest: seq<SurfaceId>, k: nat, s: SurfaceId, key: SurfaceId -> Key)
    requires k <= |rest| && Ascending(rest, key)
    requires forall i :: 0 <= i < k ==> Below(key(rest[i]), key(s))
    requires forall i :: k <= i < |rest| ==> Below(key(s), key(rest[i]))
    ensures Ascending(rest[..k] + [s] + rest[k..], key)
  {
    var r := rest[..k] + [s] + rest[k..];
    assert r[k] == s;
    assert forall i :: 0 <= i < k ==> r[i] == rest[i];
    assert forall i :: k < i < |r| ==> r[i] == rest[i - 1];
  }

  lemma AscendingDistinct(items: seq<SurfaceId>, key: SurfaceId -> Key)
    requires Ascending(items, key)
    ensures Distinct(items)
  {
    forall i, j | 0 <= i < j < |items| ensures items[i] != items[j] {
      assert Below(key(items[i]), key(items[j]));
    }
  }

  lemma SameKeysAscending(items: seq<SurfaceId>, key: SurfaceId -> Key, key': SurfaceId -> Key)
    requires Ascending(items, key)
    requires forall s :: s in items ==> key'(s) == key(s)
    ensures Ascending(items, key')
  {
    forall i, j | 0 <= i < j < |items| ensures Below(key'(items[i]), key'(items[j])) {
      var a, b := items[i], items[j];
      assert a in items && b in items;
      assert key'(a) == key(a) && key'(b) == key(b) && Below(key(a), key(b));
    }
  }

  /** The slot found separates the keys below (lvl, now) from those above it. */
  lemma SlotSeparates(rest: seq<SurfaceId>, z: map<SurfaceId, real>, key: SurfaceId -> Key, top: Key)
    requires Ascending(rest, key)
    requires forall t :: t in rest ==> Level(z, t) == key(t).z && key(t).at < top.at
    ensures var k := SlotFor(rest, z, top.z);
      && (forall i :: 0 <= i < k ==> Below(key(rest[i]), top))
      && (forall i :: k <= i < |rest| ==> Below(top, key(rest[i])))
  {
    var k := SlotFor(rest, z, top.z);
    SlotSplits(rest, z, top.z);
    forall i | 0 <= i < |rest| ensures if i < k then Below(key(rest[i]), top) else Below(top, key(rest[i])) {
      assert rest[i] in rest;
      if i > k {
        assert rest[k] in rest && Below(key(rest[k]), key(rest[i]));
      }
    }
  }

  /** Inserting at a fresh, latest moment keeps a list stacked. */
  lemma PutStacked(l: ZList, live: set<SurfaceId>, live': set<SurfaceId>, key: SurfaceId -> Key, key': SurfaceId -> Key,
                   s: SurfaceId, lvl: real, now: nat)
    requires Stacked(l, live, key, now) && live' == live + {s}
    requires forall t :: t != s ==> key'(t) == key(t)
    requires key'(s) == Key(lvl, now + 1)
    ensures Stacked(Put(l, s, lvl), live', key', now + 1)
  {
    var z := l.z[s := lvl];
    var rest := Remove(l.items, s);
    AscendingDistinct(l.items, key);
    RemoveDistinct(l.items, s);
    RestAscending(l.items, s, key);
    SameKeysAscending(rest, key, key');
    SlotSeparates(rest, z, key', key'(s));
    var k := SlotFor(rest, z, lvl);
    InsertAscending(rest, k, s, key');
    InsertMembers(rest, k, s);
  }

  lemma RestAscending(items: seq<SurfaceId>, s: SurfaceId, key: SurfaceId -> Key)
    requires Ascending(items, key)
    ensures Ascending(Remove(items, s), key)
  {
    if s in items {
      var k := FirstIndex(items, s);
      RemoveAt(items, s, k);
      var r := Remove(items, s);
      assert forall i :: 0 <= i < |r| ==> r[i] == items[if i < k then i else i + 1];
    } else {
      RemoveAbsent(items, s);
    }
  }

  /** Equal keys and a later clock change nothing. */
  lemma StackedKeys(l: ZList, live: set<SurfaceId>, live': set<SurfaceId>, key: SurfaceId -> Key, key': SurfaceId -> Key,
                    now: nat)
    requires Stacked(l, live, key, now) && live' == live
    requires forall s :: key'(s) == key(s)
    ensures Stacked(l, live', key', now + 1)
  {
    SameKeysAscending(l.items, key, key');
  }

  lemma DropStacked(l: ZList, live: set<SurfaceId>, live': set<SurfaceId>, key: SurfaceId -> Key, key': SurfaceId -> Key,
                    s: SurfaceId, now: nat)
    requires Stacked(l, live, key, now) && live' == live - {s}
    requires forall t :: key'(t) == key(t)
    ensures Stacked(Drop(l, s), live', key', now + 1)
  {
    AscendingDistinct(l.items, key);
    RemoveDistinct(l.items, s);
    RestAscending(l.items, s, key);
    SameKeysAscending(Remove(l.items, s), key, key');
  }

  ghost predicate CompRekeyed(st: Stacks, op: Op, key: SurfaceId -> Key, key': SurfaceId -> Key, now: nat) {
    forall s :: key'(s) == CompRekey(st, op, s, key(s), now)
  }

  ghost predicate RendRekeyed(st: Stacks, op: Op, key: SurfaceId -> Key, key': SurfaceId -> Key, now: nat) {
    forall s :: key'(s) == RendRekey(st, op, s, key(s), now)
  }

  lemma LastKeys(base: real, ops: seq<Op>)
    requires ops != []
    ensures var before, op := ops[..|ops| - 1], ops[|ops| - 1];
      && Run(base, ops) == Step(Run(base, before), op)
      && CompRekeyed(Run(base, before), op, CompKeys(base, before), CompKeys(base, ops), |ops|)
      && RendRekeyed(Run(base, before), op, RendKeys(base, before), RendKeys(base, ops), |ops|)
  {
  }

  /** The last request of a run keeps the compositor's list stacked. */
  lemma CompositorStep(base: real, ops: seq<Op>)
    requires ops != []
    ensures var was, now := Run(base, ops[..|ops| - 1]), Run(base, ops);
      Stacked(was.comp, was.role.Keys, CompKeys(base, ops[..|ops| - 1]), |ops| - 1) ==>
        Stacked(now.comp, now.role.Keys, CompKeys(base, ops), |ops|)
  {
    LastKeys(base, ops);
    var before, op := ops[..|ops| - 1], ops[|ops| - 1];
    var st, key, key' := Run(base, before), CompKeys(base, before), CompKeys(base, ops);
    hide Run, CompKeys;
    var live, live', now := st.role.Keys, Step(st, op).role.Keys, |ops| - 1;
    if Stacked(st.comp, live, key, now) {
      match op
      case Create => PutStacked(st.comp, live, live', key, key', st.next, st.base, now);
      case Destroy(s) =>
        if s in st.role {
          DropStacked(st.comp, live, live', key, key', s, now);
        } else {
          StackedKeys(st.comp, live, live', key, key', now);
        }
      case SetZOrder(s, z) =>
        if s in st.role {
          PutStacked(st.comp, live, live', key, key', s, z, now);
        } else {
          StackedKeys(st.comp, live, live', key, key', now);
        }
      case _ => StackedKeys(st.comp, live, live', key, key', now);
    }
  }

  /** And the renderer's. */
  lemma RendererStep(base: real, ops: seq<Op>)
    requires ops != []
    ensures var was, now := Run(base, ops[..|ops| - 1]), Run(base, ops);
      Stacked(was.rend, was.role.Keys, RendKeys(base, ops[..|ops| - 1]), |ops| - 1) ==>
        Stacked(now.rend, now.role.Keys, RendKeys(base, ops), |ops|)
  {
    LastKeys(base, ops);
    var before, op := ops[..|ops| - 1], ops[|ops| - 1];
    var st, key, key' := Run(base, before), RendKeys(base, before), RendKeys(base, ops);
    hide Run, RendKeys;
    var live, live', now := st.role.Keys, Step(st, op).role.Keys, |ops| - 1;
    if Stacked(st.rend, live, key, now) {
      match op
      case Create => PutStacked(st.rend, live, live', key, key', st.next, st.base, now);
      case Destroy(s) =>
        if s in st.role {
          DropStacked(st.rend, live, live', key, key', s, now);
        } else {
          StackedKeys(st.rend, live, live', key, key', now);
        }
      case SetZOrder(s, z) =>
        if s in st.role {
          PutStacked(st.rend, live, live', key, key', s, z, now);
        } else {
          StackedKeys(st.rend, live, live', key, key', now);
        }
      case AssignRole(s, r) => StackedKeys(st.rend, live, live', key, key', now);
      case SetCursor(s, mayMove) =>
        if mayMove && RoleOk(st.role, s, Cursor) {
          PutStacked(st.rend, live, live', key, key', s, CURSOR_Z, now);
        } else {
          StackedKeys(st.rend, live, live', key, key', now);
        }
    }
  }

  lemma {:induction false} CompositorListIsStacked(base: real, ops: seq<Op>)
    ensures Stacked(Run(base, ops).comp, Run(base, ops).role.Keys, CompKeys(base, ops), |ops|)
  {
    if ops != [] {
      CompositorListIsStacked(base, ops[..|ops| - 1]);
      CompositorStep(base, ops);
      hide *;
    }
  }

  lemma {:induction false} RendererListIsStacked(base: real, ops: seq<Op>)
    ensures Stacked(Run(base, ops).rend, Run(base, ops).role.Keys, RendKeys(base, ops), |ops|)
  {
    if ops != [] {
      RendererListIsStacked(base, ops[..|ops| - 1]);
      RendererStep(base, ops);
      hide *;
    }
  }

  /** In every run both lists are exactly the live surfaces, ordered by the z last requested in
      that list and, among equals, by the later insertion on top. */
  lemma ListsAreStacked(base: real, ops: seq<Op>)
    ensures var st := Run(base, ops);
      && Stacked(st.comp, st.role.Keys, CompKeys(base, ops), |ops|)
      && Stacked(st.rend, st.role.Keys, RendKeys(base, ops), |ops|)
  {
    CompositorListIsStacked(base, ops);
    RendererListIsStacked(base, ops);
  }

  // ------------------------------------------------------------------ the two lists agree

  /** Only a surface with the cursor role can stand at a different height in the two lists. */
  lemma {:induction false} HeightsAgree(base: real, ops: seq<Op>, s: SurfaceId)
    ensures var st := Run(base, ops);
      s in st.role && st.role[s] != Cursor ==> CompKey(base, ops, s) == RendKey(base, ops, s)
  {
    if ops != [] {
      HeightsAgree(base, ops[..|ops| - 1], s);
    }
  }

  /** Strictly ascending lists over one key with the same members are the same list. */
  lemma {:induction false} AscendingUnique(a: seq<SurfaceId>, b: seq<SurfaceId>, key: SurfaceId -> Key)
    requires Ascending(a, key) && Ascending(b, key)
    requires forall s :: s in a <==> s in b
    ensures a == b
  {
    if a != [] {
      var s := a[0];
      assert s in a && s in b;
    }
    if b != [] {
      var s := b[0];
      assert s in b && s in a;
    }
    if a != [] && b != [] {
      var i :| 0 <= i < |b| && b[i] == a[0];
      var j :| 0 <= j < |a| && a[j] == b[0];
      assert a[0] == b[0];
      forall s | s in a[1..] ensures s in b[1..] { assert s in b && s != b[0]; }
      forall s | s in b[1..] ensures s in a[1..] { assert s in a && s != a[0]; }
      AscendingUnique(a[1..], b[1..], key);
      assert a == [a[0]] + a[1..] && b == [b[0]] + b[1..];
    } else {
      assert a == [] && b == [];
    }
  }

  lemma FilterAscending(items: seq<SurfaceId>, key: SurfaceId -> Key, p: SurfaceId -> bool)
    requires Ascending(items, key)
    ensures Ascending(Filter(items, p), key)
  {
    if items != [] {
      FilterAscending(items[1..], key, p);
      var r := Filter(items[1..], p);
      forall j | 0 <= j < |r| ensures Below(key(items[0]), key(r[j])) {
        assert r[j] in items[1..];
      }
    }
  }

  /** The refinement: leaving out surfaces with the cursor role, compositor and renderer hold the
      very same sequence after every run. */
  lemma SameStackExceptCursors(base: real, ops: seq<Op>)
    ensures var st := Run(base, ops);
      var plain := (s: SurfaceId) => s in st.role && st.role[s] != Cursor;
      Filter(st.comp.items, plain) == Filter(st.rend.items, plain)
  {
    var st := Run(base, ops);
    var plain := (s: SurfaceId) => s in st.role && st.role[s] != Cursor;
    var ck, rk := CompKeys(base, ops), RendKeys(base, ops);
    ListsAreStacked(base, ops);
    var a, b := Filter(st.comp.items, plain), Filter(st.rend.items, plain);
    FilterAscending(st.comp.items, ck, plain);
    FilterAscending(st.rend.items, rk, plain);
    forall s | s in b ensures ck(s) == rk(s) { HeightsAgree(base, ops, s); }
    assert Ascending(b, ck);
    AscendingUnique(a, b, ck);
  }

  /** The restriction is needed: one cursor is enough to make the lists differ. */
  lemma CursorSplitsLists()
    ensures var st := Run(0.5, [Create, Create, SetCursor(0, true)]);
      st.comp.items == [0, 1] && st.rend.items == [1, 0]
  {
    var ops := [Create, Create, SetCursor(0, true)];
    assert ops[..2] == [Create, Create];
    assert ops[..2][..1] == [Create];
    assert Run(0.5, []) == Init(0.5);
    assert Run(0.5, [Create]) == Step(Init(0.5), Create) by { assert [Create][..0] == []; }
    assert Run(0.5, [Create]).comp.items == [0] && Run(0.5, [Create]).rend.items == [0];
    var two := Run(0.5, ops[..2]);
    assert two == Step(Run(0.5, [Create]), Create);
    assert two.comp.items == [0, 1] && two.rend.items == [0, 1];
  }
}
