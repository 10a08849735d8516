/**
 * One z-ordered surface vector: the compositor's ctx->surfaces, or the surfaces of a renderer.
 */
module ZLists {
  import opened Seqs

  type SurfaceId = int

  /** A surface's role, given once (roleName); NoRole is the null pointer. */
  datatype Role = NoRole | Cursor | ShellSurface | XdgSurface

  /** A list and the z-order of each surface in it. */
  datatype ZList = ZList(items: seq<SurfaceId>, z: map<SurfaceId, real>)

  function Level(z: map<SurfaceId, real>, s: SurfaceId): real {
    if s in z then z[s] else 0.0
  }

  /** Where the insertion loop stops: in front of the first entry that is strictly higher. */
  function SlotFor(items: seq<SurfaceId>, z: map<SurfaceId, real>, lvl: real): (k: nat)
    ensures k <= |items|
  {
    if items == [] || lvl < Level(z, items[0]) then 0 else 1 + SlotFor(items[1..], z, lvl)
  }

  function Put(l: ZList, s: SurfaceId, lvl: real): ZList {
    var z := l.z[s := lvl];
    var rest := Remove(l.items, s);
    var k := SlotFor(rest, z, lvl);
    ZList(rest[..k] + [s] + rest[k..], z)
  }

  function Drop(l: ZList, s: SurfaceId): ZList {
    ZList(Remove(l.items, s), l.z - {s})
  }

  lemma InsertMembers(rest: seq<SurfaceId>, k: nat, s: SurfaceId)
    requires k <= |rest|
    ensures forall t :: t in rest[..k] + [s] + rest[k..] <==> t in rest || t == s
  {
    assert rest == rest[..k] + rest[k..];
  }

  lemma PutDistinct(l: ZList, s: SurfaceId, lvl: real)
    requires Distinct(l.items)
    ensures Distinct(Put(l, s, lvl).items)
    ensures forall t :: t in Put(l, s, lvl).items <==> t in l.items || t == s
  {
    var rest := Remove(l.items, s);
    var k := SlotFor(rest, l.z[s := lvl], lvl);
    RemoveDistinct(l.items, s);
    InsertMembers(rest, k, s);
    assert rest == rest[..k] + rest[k..];
    DistinctConcat(rest[..k], rest[k..]);
    assert s !in rest;
    assert forall t :: t in rest[..k] ==> t in rest;
    assert forall t :: t in rest[k..] ==> t in rest;
    DistinctConcat(rest[..k], [s]);
    DistinctConcat(rest[..k] + [s], rest[k..]);
  }

  /** One sorted vector, as ctx->surfaces or the renderer's surfaces. */
  class SurfaceVector {
    var surfaces: seq<SurfaceId>
    var zorder: map<SurfaceId, real>

    constructor ()
      ensures View() == ZList([], map[])
    {
      surfaces, zorder := [], map[];
    }

    ghost function View(): ZList
      reads this
    {
      ZList(surfaces, zorder)
    }

    method Erase(s: SurfaceId)
      modifies this`surfaces
      ensures surfaces == Remove(old(surfaces), s)
    {
      var it := 0;
      while it < |surfaces|
        invariant 0 <= it <= |surfaces| && surfaces == old(surfaces)
        invariant s !in surfaces[..it]
      {
        if surfaces[it] == s {
          RemoveAt(surfaces, s, it);
          surfaces := surfaces[..it] + surfaces[it + 1..];
          return;
        }
        it := it + 1;
      }
      RemoveAbsent(surfaces, s);
    }

    /** Record the z-order, take the surface out, walk to the first higher entry, insert there. */
    method SetZOrder(s: SurfaceId, z: real)
      modifies this
      ensures View() == Put(old(View()), s, z)
    {
      zorder := zorder[s := z];
      Erase(s);
      var it := 0;
      while it < |surfaces|
        invariant 0 <= it <= |surfaces|
        invariant surfaces == Remove(old(surfaces), s) && zorder == old(zorder)[s := z]
        invariant SlotFor(surfaces, zorder, z) == it + SlotFor(surfaces[it..], zorder, z)
      {
        if z < Level(zorder, surfaces[it]) {
          break;
        }
        assert surfaces[it..][1..] == surfaces[it + 1..];
        it := it + 1;
      }
      surfaces := surfaces[..it] + [s] + surfaces[it..];
    }

    method Destroy(s: SurfaceId)
      modifies this
      ensures View() == Drop(old(View()), s)
    {
      Erase(s);
      zorder := zorder - {s};
    }
  }
}
