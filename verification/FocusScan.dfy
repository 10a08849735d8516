/**
 * The scan in wstKeyboardCheckFocus walks the focus list while wstKeyboardMoveFocusToClient splices
 * that very list into the resource list.  Here the lists are what they are in memory: rings of next
 * pointers, each through its head.  The walk ends when it is back at the head of the focus list.
 */
module FocusScan {
  import opened Seqs
  import opened Devices
  import opened HitTest
  import opened Seat

  datatype Node = FocusHead | ResourceHead | Link(r: Resource)

  type Links = map<Node, Node>

  /** The nodes form one ring, in order, with the head first. */
  ghost predicate Ring(next: Links, nodes: seq<Node>) {
    && nodes != [] && Distinct(nodes)
    && forall i :: 0 <= i < |nodes| ==> nodes[i] in next && next[nodes[i]] == nodes[if i + 1 < |nodes| then i + 1 else 0]
  }

  function Nodes(head: Node, list: seq<Resource>): (n: seq<Node>)
    ensures |n| == |list| + 1 && n[0] == head
  {
    [head] + seq(|list|, i requires 0 <= i < |list| => Link(list[i]))
  }

  /** wl_list_insert_list( &resourceList, &focusResourceList ), then wl_list_init of the latter;
      `last` is the focus list's last node (its head when empty). */
  function Splice(next: Links, last: Node): Links
    requires FocusHead in next && ResourceHead in next
  {
    if next[FocusHead] == FocusHead then next
    else next[last := next[ResourceHead]][ResourceHead := next[FocusHead]][FocusHead := FocusHead]
  }

  /** Following next pointers k times. */
  function Walk(next: Links, n: Node, k: nat): Node
    decreases k
  {
    if k == 0 || n !in next then n else Walk(next, next[n], k - 1)
  }

  ghost predicate Reaches(next: Links, from: Node, target: Node) {
    exists k: nat :: Walk(next, from, k) == target
  }

  ghost predicate Disjoint(a: seq<Node>, b: seq<Node>) {
    forall n :: n in a ==> n !in b
  }

  lemma NodesDistinct(focused: seq<Resource>, idle: seq<Resource>)
    requires Distinct(Nodes(FocusHead, focused)) && Distinct(Nodes(ResourceHead, idle))
    requires Disjoint(Nodes(FocusHead, focused), Nodes(ResourceHead, idle))
    ensures Distinct(Nodes(ResourceHead, focused + idle))
  {
    var f, r, all := Nodes(FocusHead, focused), Nodes(ResourceHead, idle), Nodes(ResourceHead, focused + idle);
    var k := |focused|;
    assert forall i :: 1 <= i <= k ==> all[i] == f[i] && f[i] in f;
    assert forall i :: k < i < |all| ==> all[i] == r[i - k] && r[i - k] in r;
    forall i, j | 0 <= i < j < |all| ensures all[i] != all[j] {
      if 0 < i && j <= k {
        assert f[i] != f[j];
      } else if i > k {
        assert r[i - k] != r[j - k];
      }
    }
  }

  /** One link of the spliced ring. */
  lemma SpliceLink(next: Links, focused: seq<Resource>, idle: seq<Resource>, i: nat)
    requires Ring(next, Nodes(FocusHead, focused)) && Ring(next, Nodes(ResourceHead, idle))
    requires Disjoint(Nodes(FocusHead, focused), Nodes(ResourceHead, idle))
    requires focused != [] && i < |Nodes(ResourceHead, focused + idle)|
    ensures var all := Nodes(ResourceHead, focused + idle);
      var next' := Splice(next, Nodes(FocusHead, focused)[|focused|]);
      all[i] in next' && next'[all[i]] == all[if i + 1 < |all| then i + 1 else 0]
  {
    var f, r, all, k := Nodes(FocusHead, focused), Nodes(ResourceHead, idle), Nodes(ResourceHead, focused + idle), |focused|;
    assert f[0] in f && r[0] in r && f[1] == Link(focused[0]);
    assert next[f[0]] == f[1];
    if i == 0 {
    } else if i < k {
      assert all[i] == f[i] && all[i + 1] == f[i + 1];
      assert f[i] in f && f[i] !in r && next[f[i]] == f[i + 1];
    } else if i == k {
      assert all[k] == f[k] && f[k] in f;
      assert next[r[0]] == r[if 1 < |r| then 1 else 0];
    } else {
      assert all[i] == r[i - k] && r[i - k] in r && r[i - k] !in f;
      assert next[r[i - k]] == r[if i - k + 1 < |r| then i - k + 1 else 0];
    }
  }

  /** The splice leaves the focus head alone in its ring and everything else in the other. */
  lemma SpliceRings(next: Links, focused: seq<Resource>, idle: seq<Resource>)
    requires Ring(next, Nodes(FocusHead, focused)) && Ring(next, Nodes(ResourceHead, idle))
    requires Disjoint(Nodes(FocusHead, focused), Nodes(ResourceHead, idle))
    ensures var f := Nodes(FocusHead, focused);
      var next' := Splice(next, f[|focused|]);
      Ring(next', Nodes(ResourceHead, focused + idle)) && Ring(next', [FocusHead])
  {
    var f, r, all := Nodes(FocusHead, focused), Nodes(ResourceHead, idle), Nodes(ResourceHead, focused + idle);
    var next' := Splice(next, f[|focused|]);
    assert f[0] == FocusHead && r[0] == ResourceHead;
    if focused == [] {
      assert next[f[0]] == FocusHead && f == [FocusHead];
      assert focused + idle == idle;
    } else {
      assert next[f[0]] == f[1] == Link(focused[0]);
      forall i | 0 <= i < |all| ensures all[i] in next' && next'[all[i]] == all[if i + 1 < |all| then i + 1 else 0] {
        SpliceLink(next, focused, idle, i);
      }
      NodesDistinct(focused, idle);
      hide Nodes, Disjoint;
    }
  }

  lemma {:induction false} WalkStays(next: Links, nodes: seq<Node>, n: Node, k: nat)
    requires Ring(next, nodes) && n in nodes
    ensures Walk(next, n, k) in nodes
    decreases k
  {
    if k > 0 {
      var i :| 0 <= i < |nodes| && nodes[i] == n;
      assert next[n] == nodes[if i + 1 < |nodes| then i + 1 else 0];
      WalkStays(next, nodes, next[n], k - 1);
    }
  }

  /** With the first match at position i, the loop's saved successor leads back to the focus head
      exactly if i is the last position. */
  lemma WalkEndsIff(next: Links, focused: seq<Resource>, idle: seq<Resource>, i: nat)
    requires Ring(next, Nodes(FocusHead, focused)) && Ring(next, Nodes(ResourceHead, idle))
    requires Disjoint(Nodes(FocusHead, focused), Nodes(ResourceHead, idle))
    requires i < |focused|
    ensures var f := Nodes(FocusHead, focused);
      var saved := next[f[i + 1]];
      Reaches(Splice(next, f[|focused|]), saved, FocusHead) <==> i == |focused| - 1
  {
    var f := Nodes(FocusHead, focused);
    var next' := Splice(next, f[|focused|]);
    var all := Nodes(ResourceHead, focused + idle);
    SpliceRings(next, focused, idle);
    if i == |focused| - 1 {
      assert next[f[i + 1]] == FocusHead;
      assert Walk(next', FocusHead, 0) == FocusHead;
    } else {
      var saved := next[f[i + 1]];
      assert saved == f[i + 2] == Link(focused[i + 1]) == all[i + 2];
      assert FocusHead !in all;
      forall k: nat ensures Walk(next', saved, k) != FocusHead {
        WalkStays(next', all, saved, k);
      }
    }
  }

  /** The condition the seat model uses is the one the rings give. */
  lemma ScanEndsIff(next: Links, d: Device, clientOf: map<Resource, Client>, c: Client, i: nat)
    requires Ring(next, Nodes(FocusHead, d.focused)) && Ring(next, Nodes(ResourceHead, d.idle))
    requires Disjoint(Nodes(FocusHead, d.focused), Nodes(ResourceHead, d.idle))
    requires i < |d.focused| && IsOf(clientOf, Some(c), d.focused[i]) && !HasClient(d.focused[..i], clientOf, c)
    ensures var f := Nodes(FocusHead, d.focused);
      ScanEnds(d.focused, clientOf, c) <==>
        Reaches(Splice(next, f[|d.focused|]), next[f[i + 1]], FocusHead)
  {
    WalkEndsIff(next, d.focused, d.idle, i);
    var n := |d.focused| - 1;
    if i < n {
      assert d.focused[..n][i] == d.focused[i];
      assert d.focused[i] in d.focused[..n];
    }
  }
}
