/**
 * The protocol of pointers and keyboards in terms of positions in the message log: what was sent earlier
 * and not undone since.  Devices.Safe says the same message by message.
 */
module Protocol {
  import opened Seqs
  import opened ZLists
  import opened HitTest
  import opened Devices
  import opened Seat
  import opened SeatSafety

  /** A message of one kind was sent, and none of another kind after it. */
  ghost predicate Since(log: seq<Msg>, starts: Msg -> bool, ends: Msg -> bool) {
    exists i :: 0 <= i < |log| && starts(log[i]) && forall k :: i < k < |log| ==> !ends(log[k])
  }

  lemma SincePush(log: seq<Msg>, m: Msg, starts: Msg -> bool, ends: Msg -> bool)
    ensures Since(log + [m], starts, ends) <==> starts(m) || (Since(log, starts, ends) && !ends(m))
  {
    var log' := log + [m];
    if starts(m) {
      assert log'[|log|] == m;
    }
    if Since(log, starts, ends) && !ends(m) {
      var i :| 0 <= i < |log| && starts(log[i]) && forall k :: i < k < |log| ==> !ends(log[k]);
      assert starts(log'[i]) && forall k :: i < k < |log'| ==> !ends(log'[k]);
    }
    if Since(log', starts, ends) && !starts(m) {
      var i :| 0 <= i < |log'| && starts(log'[i]) && forall k :: i < k < |log'| ==> !ends(log'[k]);
      assert log'[|log|] == m && i < |log|;
      assert starts(log[i]) && forall k :: i < k < |log| ==> !ends(log[k]) by {
        assert forall k :: i <= k < |log| ==> log[k] == log'[k];
      }
    }
  }

  function Is(m: Msg): Msg -> bool { (x: Msg) => x == m }

  function EndsSurface(s: SurfaceId): Msg -> bool {
    (m: Msg) => (m.SurfaceNew? || m.SurfaceGone?) && m.s == s
  }

  function EndsObject(dev: Dev, r: Resource): Msg -> bool {
    (m: Msg) => (m.Bind? || m.Unbind?) && m.dev == dev && m.r == r
  }

  function EndsVisit(dev: Dev, r: Resource, s: SurfaceId): Msg -> bool {
    (m: Msg) => ((m.Enter? || m.Leave? || m.Unbind?) && m.dev == dev && m.r == r) || m == SurfaceGone(s)
  }

  /** Surface s of client c has been announced and not gone. */
  ghost predicate Alive(log: seq<Msg>, s: SurfaceId, c: Client) {
    Since(log, Is(SurfaceNew(s, c)), EndsSurface(s))
  }

  /** Client c has made the object r and not released it. */
  ghost predicate Held(dev: Dev, log: seq<Msg>, r: Resource, c: Client) {
    Since(log, Is(Bind(dev, r, c)), EndsObject(dev, r))
  }

  /** The last word on r is that it has entered s, and s has not gone. */
  ghost predicate Visiting(dev: Dev, log: seq<Msg>, r: Resource, s: SurfaceId) {
    Since(log, Is(Enter(dev, r, s)), EndsVisit(dev, r, s))
  }

  ghost predicate HeldBySome(dev: Dev, log: seq<Msg>, r: Resource) {
    exists c :: Held(dev, log, r, c)
  }

  ghost predicate VisitingSome(dev: Dev, log: seq<Msg>, r: Resource) {
    exists s :: Visiting(dev, log, r, s)
  }

  /** May m be sent after log?  Enter only what is alive, of the object's client, and while visiting
      nothing; leave only what is visited; motion and button only while visiting. */
  ghost predicate InOrder(dev: Dev, log: seq<Msg>, m: Msg) {
    match m
    case Enter(d, r, s) => d == dev ==> !VisitingSome(dev, log, r) && exists c :: Held(dev, log, r, c) && Alive(log, s, c)
    case Leave(d, r, s) => d == dev ==> HeldBySome(dev, log, r) && Visiting(dev, log, r, s)
    case Motion(r) => dev == Pointer ==> HeldBySome(dev, log, r) && VisitingSome(dev, log, r)
    case Button(r) => dev == Pointer ==> HeldBySome(dev, log, r) && VisitingSome(dev, log, r)
    case Key(r) => dev == Keyboard ==> HeldBySome(dev, log, r)
    case _ => true
  }

  ghost predicate Orderly(dev: Dev, log: seq<Msg>) {
    forall j :: 0 <= j < |log| ==> InOrder(dev, log[..j], log[j])
  }

  // ------------------------------------------------------------------ what clients can tell, by positions

  lemma {:induction false} OwnerIsAlive(dev: Dev, log: seq<Msg>, s: SurfaceId, c: Client)
    ensures var o := Observe(dev, log).owner; (s in o && o[s] == c) <==> Alive(log, s, c)
  {
    if log != [] {
      var rest, m := log[..|log| - 1], log[|log| - 1];
      assert log == rest + [m];
      OwnerIsAlive(dev, rest, s, c);
      SincePush(rest, m, Is(SurfaceNew(s, c)), EndsSurface(s));
      hide Since;
    }
  }

  lemma {:induction false} BoundIsHeld(dev: Dev, log: seq<Msg>, r: Resource, c: Client)
    ensures var o := Observe(dev, log).bound; (r in o && o[r] == c) <==> Held(dev, log, r, c)
  {
    if log != [] {
      var rest, m := log[..|log| - 1], log[|log| - 1];
      assert log == rest + [m];
      BoundIsHeld(dev, rest, r, c);
      SincePush(rest, m, Is(Bind(dev, r, c)), EndsObject(dev, r));
      hide Since;
    }
  }

  lemma {:induction false} InsideIsVisiting(dev: Dev, log: seq<Msg>, r: Resource, s: SurfaceId)
    ensures var o := Observe(dev, log).inside; (r in o && o[r] == s) <==> Visiting(dev, log, r, s)
  {
    if log != [] {
      var rest, m := log[..|log| - 1], log[|log| - 1];
      assert log == rest + [m];
      InsideIsVisiting(dev, rest, r, s);
      SincePush(rest, m, Is(Enter(dev, r, s)), EndsVisit(dev, r, s));
      hide Since;
    }
  }

  lemma ObservedByPositions(dev: Dev, log: seq<Msg>, r: Resource, s: SurfaceId)
    ensures var o := Observe(dev, log);
      && (s in o.owner ==> Alive(log, s, o.owner[s])) && (forall c :: Alive(log, s, c) ==> s in o.owner && o.owner[s] == c)
      && (r in o.bound ==> Held(dev, log, r, o.bound[r]))
      && (forall c :: Held(dev, log, r, c) ==> r in o.bound && o.bound[r] == c)
      && (r in o.inside ==> Visiting(dev, log, r, o.inside[r]))
      && (forall t :: Visiting(dev, log, r, t) ==> r in o.inside && o.inside[r] == t)
  {
    forall c ensures var o := Observe(dev, log).owner; (s in o && o[s] == c) <==> Alive(log, s, c) {
      OwnerIsAlive(dev, log, s, c);
    }
    forall c ensures var o := Observe(dev, log).bound; (r in o && o[r] == c) <==> Held(dev, log, r, c) {
      BoundIsHeld(dev, log, r, c);
    }
    forall t ensures var o := Observe(dev, log).inside; (r in o && o[r] == t) <==> Visiting(dev, log, r, t) {
      InsideIsVisiting(dev, log, r, t);
    }
    hide Observe, Alive, Held, Visiting;
  }

  lemma LegalIsInOrder(dev: Dev, log: seq<Msg>, m: Msg)
    ensures Legal(dev, Observe(dev, log), m) <==> InOrder(dev, log, m)
  {
    var r := if m.Enter? || m.Leave? || m.Motion? || m.Button? || m.Key? then m.r else 0;
    var s := if m.Enter? || m.Leave? then m.s else 0;
    ObservedByPositions(dev, log, r, s);
    hide Observe, Alive, Held, Visiting;
  }

  /** The two descriptions of the protocol are one. */
  lemma {:induction false} SafeIsOrderly(dev: Dev, log: seq<Msg>)
    ensures Safe(dev, log) <==> Orderly(dev, log)
  {
    if Safe(dev, log) {
      forall j | 0 <= j < |log| ensures InOrder(dev, log[..j], log[j]) {
        SafeAt(dev, log, j);
        LegalIsInOrder(dev, log[..j], log[j]);
      }
    } else {
      UnsafeSomewhere(dev, log);
    }
  }

  lemma {:induction false} UnsafeSomewhere(dev: Dev, log: seq<Msg>)
    requires !Safe(dev, log)
    ensures exists j :: 0 <= j < |log| && !InOrder(dev, log[..j], log[j])
  {
    var n := |log| - 1;
    if Safe(dev, log[..n]) {
      LegalIsInOrder(dev, log[..n], log[n]);
    } else {
      UnsafeSomewhere(dev, log[..n]);
      var j :| 0 <= j < n && !InOrder(dev, log[..n][..j], log[..n][j]);
      assert log[..n][..j] == log[..j];
    }
  }

  // ------------------------------------------------------------------ every run

  /** In every run, whatever its clients do, every pointer message comes in order. */
  lemma PointerOrderly(base: real, nested: bool, ops: seq<Op>)
    ensures Orderly(Pointer, Run(base, nested, ops).log)
  {
    PointerTraceSafe(base, nested, ops);
    SafeIsOrderly(Pointer, Run(base, nested, ops).log);
    hide *;
  }

  /** In every polite run so does every keyboard message. */
  lemma KeyboardOrderly(base: real, nested: bool, ops: seq<Op>)
    requires AllPolite(base, nested, ops)
    ensures Orderly(Keyboard, Run(base, nested, ops).log)
  {
    KeyboardTraceSafe(base, nested, ops);
    hide Safe, Run, Orderly, AllPolite;
    SafeIsOrderly(Keyboard, Run(base, nested, ops).log);
  }
}
