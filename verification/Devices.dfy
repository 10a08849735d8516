/**
 * What pointer and keyboard have in common: two lists of client resources, the surface in focus,
 * and the messages that reach clients.  The protocol is stated on the messages alone (`Safe`),
 * from a client's point of view, without looking at the compositor's state.
 */
module Devices {
  import opened Seqs
  import opened ZLists
  import opened HitTest

  type Resource = int

  datatype Dev = Pointer | Keyboard

  datatype Msg =
    | SurfaceNew(s: SurfaceId, c: Client)
    | SurfaceGone(s: SurfaceId)
    | Bind(dev: Dev, r: Resource, c: Client)
    | Unbind(dev: Dev, r: Resource)
    | Enter(dev: Dev, r: Resource, s: SurfaceId)
    | Leave(dev: Dev, r: Resource, s: SurfaceId)
    | Motion(r: Resource)
    | Button(r: Resource)
    | Key(r: Resource)

  // ------------------------------------------------------------------ the protocol

  /** What the clients of one device can tell from the messages so far: the surfaces and their
      clients, the device objects and their clients, and the surface each object has entered. */
  datatype Seen = Seen(owner: map<SurfaceId, Client>, bound: map<Resource, Client>, inside: map<Resource, SurfaceId>)

  function See(dev: Dev, o: Seen, m: Msg): Seen {
    match m
    case SurfaceNew(s, c) => o.(owner := o.owner[s := c])
    case SurfaceGone(s) =>
      o.(owner := o.owner - {s}, inside := map r | r in o.inside && o.inside[r] != s :: o.inside[r])
    case Bind(d, r, c) => if d == dev then o.(bound := o.bound[r := c]) else o
    case Unbind(d, r) => if d == dev then o.(bound := o.bound - {r}, inside := o.inside - {r}) else o
    case Enter(d, r, s) => if d == dev then o.(inside := o.inside[r := s]) else o
    case Leave(d, r, s) => if d == dev then o.(inside := o.inside - {r}) else o
    case _ => o
  }

  function Observe(dev: Dev, log: seq<Msg>): Seen {
    if log == [] then Seen(map[], map[], map[]) else See(dev, Observe(dev, log[..|log| - 1]), log[|log| - 1])
  }

  /** wl_pointer and wl_keyboard: enter only when outside and only a live surface of one's own
      client; leave only the surface entered; motion and button only while inside. */
  predicate Legal(dev: Dev, o: Seen, m: Msg) {
    match m
    case Enter(d, r, s) => d == dev ==> r in o.bound && r !in o.inside && s in o.owner && o.owner[s] == o.bound[r]
    case Leave(d, r, s) => d == dev ==> r in o.bound && r in o.inside && o.inside[r] == s
    case Motion(r) => dev == Pointer ==> r in o.bound && r in o.inside
    case Button(r) => dev == Pointer ==> r in o.bound && r in o.inside
    case Key(r) => dev == Keyboard ==> r in o.bound
    case _ => true
  }

  /** Every message is legal after those before it. */
  predicate Safe(dev: Dev, log: seq<Msg>) {
    log == [] || (Safe(dev, log[..|log| - 1]) && Legal(dev, Observe(dev, log[..|log| - 1]), log[|log| - 1]))
  }

  lemma Append(dev: Dev, log: seq<Msg>, m: Msg)
    ensures Observe(dev, log + [m]) == See(dev, Observe(dev, log), m)
    ensures Safe(dev, log + [m]) <==> Safe(dev, log) && Legal(dev, Observe(dev, log), m)
  {
    assert (log + [m])[..|log|] == log;
  }

  /** `Safe` in terms of positions. */
  lemma {:induction false} SafeAt(dev: Dev, log: seq<Msg>, k: nat)
    requires Safe(dev, log) && k < |log|
    ensures Legal(dev, Observe(dev, log[..k]), log[k])
  {
    if k < |log| - 1 {
      SafeAt(dev, log[..|log| - 1], k);
      assert log[..|log| - 1][..k] == log[..k];
    }
  }

  /** Messages that are legal and tell the clients of dev nothing new. */
  lemma {:induction false} Quiet(dev: Dev, log: seq<Msg>, ext: seq<Msg>)
    requires forall k :: 0 <= k < |ext| ==> See(dev, Observe(dev, log), ext[k]) == Observe(dev, log)
    requires forall k :: 0 <= k < |ext| ==> Legal(dev, Observe(dev, log), ext[k])
    ensures Observe(dev, log + ext) == Observe(dev, log)
    ensures Safe(dev, log) ==> Safe(dev, log + ext)
  {
    if ext == [] {
      assert log + ext == log;
    } else {
      var n := |ext| - 1;
      var rest, m, o := ext[..n], ext[n], Observe(dev, log);
      assert forall k :: 0 <= k < n ==> rest[k] == ext[k];
      Quiet(dev, log, rest);
      assert See(dev, o, m) == o && Legal(dev, o, m);
      Append(dev, log + rest, m);
      assert log + rest + [m] == log + ext;
    }
  }

  // ------------------------------------------------------------------ sending to a list

  /** One message per resource, in list order. */
  function Each(list: seq<Resource>, m: Resource -> Msg): seq<Msg> {
    seq(|list|, i requires 0 <= i < |list| => m(list[i]))
  }

  function Entering(dev: Dev, s: SurfaceId): Resource -> Msg { r => Enter(dev, r, s) }
  function Leaving(dev: Dev, s: SurfaceId): Resource -> Msg { r => Leave(dev, r, s) }
  function Moving(): Resource -> Msg { r => Motion(r) }
  function Pressing(): Resource -> Msg { r => Button(r) }
  function Typing(): Resource -> Msg { r => Key(r) }

  lemma EachLast(list: seq<Resource>, m: Resource -> Msg)
    requires list != []
    ensures Each(list, m) == Each(list[..|list| - 1], m) + [m(list[|list| - 1])]
  {
  }

  /** Everyone in the list is inside s now. */
  function PutAll(m: map<Resource, SurfaceId>, list: seq<Resource>, s: SurfaceId): (r: map<Resource, SurfaceId>)
    ensures forall x :: x in r <==> x in m || x in list
    ensures forall x :: x in r ==> r[x] == if x in list then s else m[x]
  {
    if list == [] then m else
    var n := |list| - 1;
    assert list == list[..n] + [list[n]];
    PutAll(m, list[..n], s)[list[n] := s]
  }

  /** Nobody in the list is inside anything now. */
  function DropAll(m: map<Resource, SurfaceId>, list: seq<Resource>): (r: map<Resource, SurfaceId>)
    ensures forall x :: x in r <==> x in m && x !in list
    ensures forall x :: x in r ==> r[x] == m[x]
  {
    if list == [] then m else
    var n := |list| - 1;
    assert list == list[..n] + [list[n]];
    DropAll(m, list[..n]) - {list[n]}
  }

  /** A list of distinct objects, all outside, may be told to enter a surface of their client. */
  lemma {:induction false} EnterAll(dev: Dev, log: seq<Msg>, list: seq<Resource>, s: SurfaceId)
    requires Distinct(list)
    requires var o := Observe(dev, log);
      s in o.owner && forall r :: r in list ==> r in o.bound && r !in o.inside && o.bound[r] == o.owner[s]
    ensures var o := Observe(dev, log);
      Observe(dev, log + Each(list, Entering(dev, s))) == o.(inside := PutAll(o.inside, list, s))
    ensures Safe(dev, log) ==> Safe(dev, log + Each(list, Entering(dev, s)))
  {
    if list == [] {
      assert log + Each(list, Entering(dev, s)) == log;
    } else {
      var n, o := |list| - 1, Observe(dev, log);
      var rest, r := list[..n], list[n];
      var log' := log + Each(rest, Entering(dev, s));
      assert r !in rest && r in list;
      EnterAll(dev, log, rest, s);
      var o' := o.(inside := PutAll(o.inside, rest, s));
      assert Legal(dev, o', Enter(dev, r, s));
      Append(dev, log', Enter(dev, r, s));
      EachLast(list, Entering(dev, s));
      assert log' + [Enter(dev, r, s)] == log + Each(list, Entering(dev, s));
    }
  }

  /** One more object leaves. */
  lemma LeaveOne(dev: Dev, log: seq<Msg>, o: Seen, r: Resource, s: SurfaceId)
    requires Observe(dev, log) == o && r in o.bound && r in o.inside && o.inside[r] == s
    ensures Observe(dev, log + [Leave(dev, r, s)]) == o.(inside := o.inside - {r})
    ensures Safe(dev, log) ==> Safe(dev, log + [Leave(dev, r, s)])
  {
    Append(dev, log, Leave(dev, r, s));
    hide Observe, Safe;
  }

  lemma DropLast(m: map<Resource, SurfaceId>, list: seq<Resource>)
    requires list != []
    ensures DropAll(m, list) == DropAll(m, list[..|list| - 1]) - {list[|list| - 1]}
  {
    assert list == list[..|list| - 1] + [list[|list| - 1]];
  }

  /** A list of distinct objects, all inside s, may be told to leave it. */
  lemma {:induction false} LeaveAll(dev: Dev, log: seq<Msg>, list: seq<Resource>, s: SurfaceId)
    requires Distinct(list)
    requires var o := Observe(dev, log);
      forall r :: r in list ==> r in o.bound && r in o.inside && o.inside[r] == s
    ensures var o := Observe(dev, log);
      Observe(dev, log + Each(list, Leaving(dev, s))) == o.(inside := DropAll(o.inside, list))
    ensures Safe(dev, log) ==> Safe(dev, log + Each(list, Leaving(dev, s)))
  {
    if list == [] {
      assert log + Each(list, Leaving(dev, s)) == log;
    } else {
      var n, o := |list| - 1, Observe(dev, log);
      var rest, r := list[..n], list[n];
      var log' := log + Each(rest, Leaving(dev, s));
      assert r !in rest && r in list;
      LeaveAll(dev, log, rest, s);
      DropLast(o.inside, list);
      hide Observe, Safe;
      LeaveOne(dev, log', o.(inside := DropAll(o.inside, rest)), r, s);
      EachLast(list, Leaving(dev, s));
      assert log' + [Leave(dev, r, s)] == log + Each(list, Leaving(dev, s));
    }
  }

  // ------------------------------------------------------------------ the two lists

  /** resourceList, focusResourceList and focus of WstPointer or WstKeyboard. */
  datatype Device = Device(idle: seq<Resource>, focused: seq<Resource>, focus: Ref)
  {
    function All(): seq<Resource> { focused + idle }
  }

  predicate IsOf(clientOf: map<Resource, Client>, c: Ref, r: Resource) {
    c.Some? && r in clientOf && clientOf[r] == c.value
  }

  predicate HasClient(list: seq<Resource>, clientOf: map<Resource, Client>, c: Client) {
    exists r :: r in list && IsOf(clientOf, Some(c), r)
  }

  function Ours(clientOf: map<Resource, Client>, c: Ref): Resource -> bool {
    r => IsOf(clientOf, c, r)
  }

  function Others(clientOf: map<Resource, Client>, c: Ref): Resource -> bool {
    r => !IsOf(clientOf, c, r)
  }

  /** wst{Pointer,Keyboard}MoveFocusToClient: the focus list is put in front of the resource list,
      then the client's resources are pushed, one by one, onto the emptied focus list. */
  function MoveFocus(d: Device, clientOf: map<Resource, Client>, c: Ref): Device {
    d.(idle := Filter(d.All(), Others(clientOf, c)), focused := Reverse(Filter(d.All(), Ours(clientOf, c))))
  }

  /** Taking the focus away: the objects in the focus list are told to leave, and stay there. */
  function Blur(d: Device): Device { d.(focus := None) }

  function BlurLog(dev: Dev, d: Device, log: seq<Msg>): seq<Msg> {
    if d.focus.Some? then log + Each(d.focused, Leaving(dev, d.focus.value)) else log
  }

  /** Giving the focus to surface s of client c: after a blur its objects are listed and told to enter. */
  function Give(d: Device, s: SurfaceId, clientOf: map<Resource, Client>, c: Client): Device {
    MoveFocus(d.(focus := Some(s)), clientOf, Some(c))
  }

  function GiveLog(dev: Dev, d: Device, d': Device, s: SurfaceId, log: seq<Msg>): seq<Msg> {
    BlurLog(dev, d, log) + Each(d'.focused, Entering(dev, s))
  }

  function Forget(d: Device, r: Resource): Device {
    d.(idle := Remove(d.idle, r), focused := Remove(d.focused, r))
  }

  lemma {:induction false} FilterPartition(s: seq<Resource>, p: Resource -> bool, q: Resource -> bool)
    requires forall r :: q(r) == !p(r)
    requires Distinct(s)
    ensures Distinct(Filter(s, p)) && Distinct(Filter(s, q))
    ensures forall r :: r in Filter(s, p) ==> r !in Filter(s, q)
  {
    FilterDistinct(s, p);
    FilterDistinct(s, q);
  }

  /** Moving the focus keeps the two lists a partition of the same resources, and afterwards the
      focus list is exactly the client's. */
  lemma MoveFocusPartitions(d: Device, clientOf: map<Resource, Client>, c: Ref)
    requires Distinct(d.All())
    ensures var d' := MoveFocus(d, clientOf, c);
      && Distinct(d'.All())
      && (forall r :: r in d'.All() <==> r in d.All())
      && (forall r :: r in d'.focused <==> r in d.All() && IsOf(clientOf, c, r))
      && (forall r :: r in d'.idle <==> r in d.All() && !IsOf(clientOf, c, r))
      && d'.focus == d.focus
  {
    var ours, others := Filter(d.All(), Ours(clientOf, c)), Filter(d.All(), Others(clientOf, c));
    FilterPartition(d.All(), Ours(clientOf, c), Others(clientOf, c));
    ReverseMembers(ours);
    DistinctConcat(Reverse(ours), others);
  }

  lemma ForgetPartitions(d: Device, r: Resource)
    requires Distinct(d.All())
    ensures var d' := Forget(d, r);
      && Distinct(d'.All())
      && (forall t :: t in d'.focused <==> t in d.focused && t != r)
      && (forall t :: t in d'.idle <==> t in d.idle && t != r)
  {
    DistinctConcat(d.focused, d.idle);
    RemoveDistinct(d.focused, r);
    RemoveDistinct(d.idle, r);
    DistinctConcat(Remove(d.focused, r), Remove(d.idle, r));
  }

  // ------------------------------------------------------------------ the lists in place

  /** The merge list after its first `seen` entries were looked at: those kept stand before `it`. */
  ghost predicate Sifted(all: seq<Resource>, seen: nat, kept: seq<Resource>, it: nat, taken: seq<Resource>,
                         ours: Resource -> bool, others: Resource -> bool) {
    && seen <= |all| && it <= |kept|
    && kept[..it] == Filter(all[..seen], others) && kept[it..] == all[seen..]
    && taken == Reverse(Filter(all[..seen], ours))
  }

  lemma SiftOne(all: seq<Resource>, seen: nat, kept: seq<Resource>, it: nat, taken: seq<Resource>,
                ours: Resource -> bool, others: Resource -> bool)
    requires Sifted(all, seen, kept, it, taken, ours, others) && it < |kept|
    requires forall r :: others(r) == !ours(r)
    ensures seen < |all| && kept[it] == all[seen]
    ensures ours(kept[it]) ==> Sifted(all, seen + 1, kept[..it] + kept[it + 1..], it, [kept[it]] + taken, ours, others)
    ensures !ours(kept[it]) ==> Sifted(all, seen + 1, kept, it + 1, taken, ours, others)
  {
    assert |kept[it..]| == |all[seen..]|;
    CutOne(kept, it);
    CutOne(all, seen);
    assert kept[it] == kept[it..][0] && all[seen] == all[seen..][0];
    var was := Filter(all[..seen], ours);
    FilterPush(all, seen, others);
    FilterPush(all, seen, ours);
    ReversePush(was, kept[it]);
    hide Filter, Reverse;
    assert kept[it + 1..] == all[seen + 1..] by {
      assert kept[it + 1..] == kept[it..][1..] && all[seen + 1..] == all[seen..][1..];
    }
    if ours(kept[it]) {
      assert Filter(all[..seen], others) + [] == Filter(all[..seen], others);
    } else {
      assert was + [] == was;
    }
  }

  lemma SiftStart(all: seq<Resource>, ours: Resource -> bool, others: Resource -> bool)
    ensures Sifted(all, 0, all, 0, [], ours, others)
  {
  }

  lemma SiftDone(all: seq<Resource>, seen: nat, kept: seq<Resource>, it: nat, taken: seq<Resource>,
                 ours: Resource -> bool, others: Resource -> bool)
    requires Sifted(all, seen, kept, it, taken, ours, others) && it == |kept|
    ensures kept == Filter(all, others) && taken == Reverse(Filter(all, ours))
  {
    assert |kept[it..]| == |all[seen..]|;
    assert all[..seen] == all && kept[..it] == kept;
  }

  lemma OursAre(clientOf: map<Resource, Client>, c: Ref)
    ensures forall r :: Ours(clientOf, c)(r) == IsOf(clientOf, c, r)
    ensures forall r :: Others(clientOf, c)(r) == !Ours(clientOf, c)(r)
  {
  }

  lemma CutOne<T>(s: seq<T>, k: nat)
    requires k < |s|
    ensures s[k..] == [s[k]] + s[k + 1..] && s[..k + 1] == s[..k] + [s[k]]
    ensures (s[..k] + s[k + 1..])[..k] == s[..k] && (s[..k] + s[k + 1..])[k..] == s[k + 1..]
  {
  }

  /** A device whose lists are rewired in place. */
  class InputDevice {
    var resourceList: seq<Resource>
    var focusResourceList: seq<Resource>
    var focus: Ref

    constructor ()
      ensures View() == Device([], [], None)
    {
      resourceList, focusResourceList, focus := [], [], None;
    }

    ghost function View(): Device
      reads this
    {
      Device(resourceList, focusResourceList, focus)
    }

    method MoveFocusToClient(clientOf: map<Resource, Client>, client: Ref)
      modifies this
      ensures View() == MoveFocus(old(View()), clientOf, client)
    {
      resourceList := focusResourceList + resourceList;
      focusResourceList := [];
      hide Filter, Reverse;
      Sift(clientOf, client);
    }

    /** The loop that moves the objects of the client, one by one, to the empty focus list. */
    method Sift(clientOf: map<Resource, Client>, client: Ref)
      requires focusResourceList == []
      modifies this`resourceList, this`focusResourceList
      ensures resourceList == Filter(old(resourceList), Others(clientOf, client))
      ensures focusResourceList == Reverse(Filter(old(resourceList), Ours(clientOf, client)))
    {
      ghost var ours, others := Ours(clientOf, client), Others(clientOf, client);
      ghost var all, seen := resourceList, 0;
      var it := 0;
      SiftStart(all, ours, others);
      OursAre(clientOf, client);
      hide *;
      while it < |resourceList|
        invariant seen <= |all| && 0 <= it <= |resourceList|
        invariant Sifted(all, seen, resourceList, it, focusResourceList, ours, others)
        decreases |all| - seen
      {
        SiftOne(all, seen, resourceList, it, focusResourceList, ours, others);
        var resource := resourceList[it];
        if IsOf(clientOf, client, resource) {
          resourceList := resourceList[..it] + resourceList[it + 1..];
          focusResourceList := [resource] + focusResourceList;
        } else {
          it := it + 1;
        }
        seen := seen + 1;
      }
      SiftDone(all, seen, resourceList, it, focusResourceList, ours, others);
    }

    method Insert(focused: bool, r: Resource)
      modifies this`resourceList, this`focusResourceList
      ensures View() == if focused then old(View()).(focused := [r] + old(View()).focused)
                        else old(View()).(idle := [r] + old(View()).idle)
    {
      if focused {
        focusResourceList := [r] + focusResourceList;
      } else {
        resourceList := [r] + resourceList;
      }
    }

    method Has(focused: bool, clientOf: map<Resource, Client>, client: Client) returns (has: bool)
      ensures has == HasClient(if focused then focusResourceList else resourceList, clientOf, client)
    {
      var list := if focused then focusResourceList else resourceList;
      has := false;
      for i := 0 to |list|
        invariant has == HasClient(list[..i], clientOf, client)
      {
        assert list[..i + 1] == list[..i] + [list[i]];
        if IsOf(clientOf, Some(client), list[i]) {
          has := true;
        }
      }
      assert list[..|list|] == list;
    }
  }
}
