/**
 * Properties of every run of the seat: what clients see of the pointer follows the protocol, the
 * pointer focus is the surface under the pointer, and the keyboard lists never mix clients.
 */
module SeatSafety {
  import opened Seqs
  import opened ZLists
  import opened HitTest
  import opened Devices
  import opened Seat

  // ------------------------------------------------------------------ invariants

  /** The scene and what refers to it. */
  ghost predicate World(st: State) {
    && Distinct(st.scene.list.items)
    && (forall s :: s in st.scene.list.items ==> s in st.scene.info)
    && (forall s :: s in st.scene.info ==> s < st.nextSurface && st.scene.info[s].owner == MASTER)
    && (st.cursor.Some? ==> st.Live(st.cursor.value) && st.scene.Of(st.cursor.value).role == Cursor)
    && (forall c :: c in st.known.latest ==> st.Live(st.known.latest[c]) && st.ClientOf(st.known.latest[c]) == c)
  }

  /** What the devices depend on: surfaces and their clients, objects and theirs. */
  datatype Env = Env(info: map<SurfaceId, Surface>, clientOf: map<Resource, Client>, nextRes: Resource)

  function EnvOf(st: State): Env { Env(st.scene.info, st.clientOf, st.nextRes) }

  /** The two lists of a device partition the objects its clients hold, and its focus is live. */
  ghost predicate Tracked(d: Device, o: Seen, e: Env) {
    && Distinct(d.All())
    && (forall s :: s in o.owner <==> s in e.info)
    && (forall s :: s in o.owner ==> o.owner[s] == e.info[s].client)
    && (forall r :: r in o.bound <==> r in d.All())
    && (forall r :: r in o.bound ==> r in e.clientOf && e.clientOf[r] == o.bound[r] && r < e.nextRes)
    && (d.focus.Some? ==> d.focus.value in e.info)
  }

  /** Exactly the objects in the focus list have entered a surface, namely the one in focus. */
  ghost predicate Exact(d: Device, o: Seen) {
    && (forall r :: r in o.inside <==> d.focus.Some? && r in d.focused)
    && (forall r :: r in o.inside ==> o.inside[r] == d.focus.value)
  }

  ghost predicate PointerInv(st: State) {
    && Tracked(st.ptr, Observe(Pointer, st.log), EnvOf(st))
    && Exact(st.ptr, Observe(Pointer, st.log))
    && Safe(Pointer, st.log)
  }

  /** The focus list never mixes clients; with a focus it is exactly that client's objects. */
  ghost predicate OneClient(d: Device, e: Env) {
    && (forall q, r :: q in d.focused && r in d.focused && q in e.clientOf && r in e.clientOf ==> e.clientOf[q] == e.clientOf[r])
    && (d.focus.Some? && d.focus.value in e.info ==>
          forall r :: r in d.focused <==> r in d.All() && IsOf(e.clientOf, Some(e.info[d.focus.value].client), r))
  }

  ghost predicate KeyboardInv(st: State) {
    Tracked(st.kbd, Observe(Keyboard, st.log), EnvOf(st)) && OneClient(st.kbd, EnvOf(st))
  }

  ghost predicate KeyboardExact(st: State) {
    Exact(st.kbd, Observe(Keyboard, st.log)) && Safe(Keyboard, st.log)
  }

  // ------------------------------------------------------------------ messages of one device

  predicate About(dev: Dev, m: Msg) {
    match m
    case Enter(d, _, _) => d == dev
    case Leave(d, _, _) => d == dev
    case Motion(_) => dev == Pointer
    case Button(_) => dev == Pointer
    case Key(_) => dev == Keyboard
    case _ => false
  }

  ghost predicate Grown(log: seq<Msg>, log': seq<Msg>, dev: Dev) {
    log <= log' && forall k :: |log| <= k < |log'| ==> About(dev, log'[k])
  }

  /** The messages of one device change nothing for the clients of the other. */
  lemma OtherDevice(dev: Dev, log: seq<Msg>, log': seq<Msg>)
    requires exists other :: other != dev && Grown(log, log', other)
    ensures Observe(dev, log') == Observe(dev, log)
    ensures Safe(dev, log) ==> Safe(dev, log')
  {
    var ext := log'[|log|..];
    assert log' == log + ext;
    assert forall k :: 0 <= k < |ext| ==> ext[k] == log'[|log| + k];
    Quiet(dev, log, ext);
  }

  /** Its own messages change at most who is inside what. */
  lemma {:induction false} OwnChatter(dev: Dev, log: seq<Msg>, log': seq<Msg>)
    requires Grown(log, log', dev)
    ensures Observe(dev, log').owner == Observe(dev, log).owner && Observe(dev, log').bound == Observe(dev, log).bound
    decreases |log'|
  {
    if |log'| > |log| {
      var init := log'[..|log'| - 1];
      assert log <= init;
      OwnChatter(dev, log, init);
      assert About(dev, log'[|log'| - 1]);
    } else {
      assert log' == log;
    }
  }

  lemma GrownEach(log: seq<Msg>, list: seq<Resource>, m: Resource -> Msg, dev: Dev)
    requires forall r :: About(dev, m(r))
    ensures Grown(log, log + Each(list, m), dev)
  {
    var log' := log + Each(list, m);
    forall k | |log| <= k < |log'| ensures About(dev, log'[k]) {
      var r := list[k - |log|];
      assert log'[k] == m(r) && About(dev, m(r));
    }
  }

  lemma GrownTwice(a: seq<Msg>, b: seq<Msg>, c: seq<Msg>, dev: Dev)
    requires Grown(a, b, dev) && Grown(b, c, dev)
    ensures Grown(a, c, dev)
  {
  }

  // ------------------------------------------------------------------ taking and giving focus

  lemma BlurKeeps(dev: Dev, log: seq<Msg>, d: Device, e: Env)
    requires Tracked(d, Observe(dev, log), e)
    ensures var log' := BlurLog(dev, d, log);
      && Grown(log, log', dev) && Tracked(Blur(d), Observe(dev, log'), e)
      && (Exact(d, Observe(dev, log)) && Safe(dev, log) ==> Exact(Blur(d), Observe(dev, log')) && Safe(dev, log'))
  {
    if d.focus.Some? {
      var s := d.focus.value;
      var log' := log + Each(d.focused, Leaving(dev, s));
      GrownEach(log, d.focused, Leaving(dev, s), dev);
      OwnChatter(dev, log, log');
      assert Blur(d).All() == d.All();
      if Exact(d, Observe(dev, log)) && Safe(dev, log) {
        DistinctConcat(d.focused, d.idle);
        LeaveAll(dev, log, d.focused, s);
      }
    }
  }

  /** Moving the lists, whoever has been told what meanwhile. */
  lemma MoveKeeps(d: Device, o: Seen, e: Env, focus: Ref, c: Ref)
    requires Tracked(d, o, e) && (focus.Some? ==> focus.value in e.info)
    ensures var d' := MoveFocus(d.(focus := focus), e.clientOf, c);
      && Tracked(d', o, e)
      && (forall r :: r in d'.focused <==> r in d.All() && IsOf(e.clientOf, c, r))
      && (forall r :: r in d'.All() <==> r in d.All())
  {
    assert d.(focus := focus).All() == d.All();
    MoveFocusPartitions(d.(focus := focus), e.clientOf, c);
  }

  /** Entering: outside before, exactly the focus list inside afterwards. */
  lemma EnterKeeps(dev: Dev, log: seq<Msg>, d: Device, e: Env, s: SurfaceId)
    requires Tracked(d, Observe(dev, log), e) && d.focus == Some(s)
    requires forall r :: r in d.focused ==> IsOf(e.clientOf, Some(e.info[s].client), r)
    ensures var log' := log + Each(d.focused, Entering(dev, s));
      && Grown(log, log', dev) && Tracked(d, Observe(dev, log'), e)
      && (Exact(Blur(d), Observe(dev, log)) && Safe(dev, log) ==> Exact(d, Observe(dev, log')) && Safe(dev, log'))
  {
    var log' := log + Each(d.focused, Entering(dev, s));
    GrownEach(log, d.focused, Entering(dev, s), dev);
    OwnChatter(dev, log, log');
    if Exact(Blur(d), Observe(dev, log)) && Safe(dev, log) {
      DistinctConcat(d.focused, d.idle);
      EnterAll(dev, log, d.focused, s);
    }
  }

  lemma GiveKeeps(dev: Dev, log: seq<Msg>, d: Device, e: Env, s: SurfaceId)
    requires Tracked(d, Observe(dev, log), e) && s in e.info
    ensures var d' := Give(d, s, e.clientOf, e.info[s].client);
      var log' := GiveLog(dev, d, d', s, log);
      && Grown(log, log', dev) && Tracked(d', Observe(dev, log'), e) && OneClient(d', e) && d'.focus == Some(s)
      && (forall r :: r in d'.focused <==> r in d.All() && IsOf(e.clientOf, Some(e.info[s].client), r))
      && (Exact(d, Observe(dev, log)) && Safe(dev, log) ==> Exact(d', Observe(dev, log')) && Safe(dev, log'))
  {
    var d' := Give(d, s, e.clientOf, e.info[s].client);
    var blurred := BlurLog(dev, d, log);
    BlurKeeps(dev, log, d, e);
    assert Blur(d).(focus := Some(s)) == d.(focus := Some(s)) && Blur(d).All() == d.All();
    MoveKeeps(Blur(d), Observe(dev, blurred), e, Some(s), Some(e.info[s].client));
    assert Exact(Blur(d), Observe(dev, blurred)) ==> Exact(Blur(d'), Observe(dev, blurred));
    EnterKeeps(dev, blurred, d', e, s);
    GrownTwice(log, blurred, GiveLog(dev, d, d', s, log), dev);
  }

  // ------------------------------------------------------------------ what each device's steps touch

  ghost predicate OnlyPointer(st: State, st': State) {
    && st' == st.(ptr := st'.ptr, log := st'.log, cursor := st'.cursor)
    && Grown(st.log, st'.log, Pointer)
    && (st'.cursor == st.cursor || st'.cursor == None)
  }

  ghost predicate OnlyKeyboard(st: State, st': State) {
    && st' == st.(kbd := st'.kbd, log := st'.log, stuck := st'.stuck)
    && Grown(st.log, st'.log, Keyboard)
  }

  lemma WorldUntouched(st: State, st': State)
    requires OnlyPointer(st, st') && World(st)
    ensures World(st')
  {
    WorldSame(st, st');
  }

  /** Pointer steps leave the keyboard as it is, and the other way round. */
  lemma KeyboardUntouched(st: State, st': State)
    requires OnlyPointer(st, st') && KeyboardInv(st)
    ensures KeyboardInv(st') && (KeyboardExact(st) ==> KeyboardExact(st'))
  {
    hide Tracked, Exact, OneClient;
    assert EnvOf(st') == EnvOf(st);
    OtherDevice(Keyboard, st.log, st'.log);
  }

  lemma PointerUntouched(st: State, st': State)
    requires OnlyKeyboard(st, st') && PointerInv(st)
    ensures PointerInv(st')
  {
    hide Tracked, Exact;
    assert EnvOf(st') == EnvOf(st);
    OtherDevice(Pointer, st.log, st'.log);
  }

  // ------------------------------------------------------------------ pointer steps

  lemma PSetFocusInv(st: State, target: Ref)
    requires PointerInv(st) && (target.Some? ==> st.Live(target.value))
    ensures var st' := PSetFocus(st, target);
      PointerInv(st') && st'.ptr.focus == target && OnlyPointer(st, st')
  {
    hide Tracked, Exact, OneClient, Safe, Observe, Give, GiveLog, BlurLog;
    var st' := PSetFocus(st, target);
    assert EnvOf(st') == EnvOf(st);
    if st.ptr.focus != target {
      if target.Some? {
        GiveKeeps(Pointer, st.log, st.ptr, EnvOf(st), target.value);
      } else {
        BlurKeeps(Pointer, st.log, st.ptr, EnvOf(st));
      }
    }
  }

  /** In a context of one compositor the scan finds what is wanted, and it is live. */
  lemma FoundLive(st: State)
    requires World(st)
    ensures var r := Found(st.scene, MASTER, st.at.px, st.at.py);
      r == Wanted(st.scene, MASTER, st.at.px, st.at.py) && (r.Some? ==> st.Live(r.value))
  {
    var items := st.scene.list.items;
    assert items != [] ==> items[0] in items;
    FoundIsWantedIff(st.scene, MASTER, st.at.px, st.at.py);
    TopMostIsTopMost(items, RoledHits(st.scene, MASTER, st.at.px, st.at.py));
    TopMostIsTopMost(items, PlainHits(st.scene, MASTER, st.at.px, st.at.py));
  }

  lemma PCheckFocusInv(st: State)
    requires World(st) && PointerInv(st) && KeyboardInv(st)
    ensures var st' := PCheckFocus(st);
      && Inv(st') && OnlyPointer(st, st') && (KeyboardExact(st) ==> KeyboardExact(st'))
      && st'.ptr.focus == Wanted(st.scene, MASTER, st.at.px, st.at.py)
  {
    hide World, PointerInv, KeyboardInv, KeyboardExact, OnlyPointer, PSetFocus;
    FoundLive(st);
    PSetFocusInv(st, Found(st.scene, MASTER, st.at.px, st.at.py));
    WorldUntouched(st, PCheckFocus(st));
    KeyboardUntouched(st, PCheckFocus(st));
  }

  // ------------------------------------------------------------------ keyboard steps

  ghost predicate KeyboardStepOk(st: State, st': State) {
    OnlyKeyboard(st, st') && KeyboardInv(st') && (KeyboardExact(st) ==> KeyboardExact(st'))
  }

  lemma KSetFocusInv(st: State, s: SurfaceId)
    requires KeyboardInv(st) && st.Live(s)
    ensures KeyboardStepOk(st, KSetFocus(st, s))
  {
    hide Tracked, Exact, OneClient, Safe, Observe, Give, GiveLog;
    assert EnvOf(KSetFocus(st, s)) == EnvOf(st);
    GiveKeeps(Keyboard, st.log, st.kbd, EnvOf(st), s);
  }

  /** Moving the lists without a focus (to no client, or to one client). */
  lemma KMoveInv(st: State, c: Ref)
    requires KeyboardInv(st) && st.kbd.focus.None?
    ensures KeyboardStepOk(st, st.(kbd := MoveFocus(st.kbd, st.clientOf, c)))
  {
    assert st.kbd.(focus := None) == st.kbd;
    MoveKeeps(st.kbd, Observe(Keyboard, st.log), EnvOf(st), None, c);
  }

  lemma KTwice(a: State, b: State, c: State)
    requires KeyboardStepOk(a, b) && KeyboardStepOk(b, c)
    ensures KeyboardStepOk(a, c)
  {
    GrownTwice(a.log, b.log, c.log, Keyboard);
  }

  /** The splice branch: all objects to the resource list, then the focus is given. */
  lemma KSpliceInv(st: State, s: SurfaceId)
    requires KeyboardInv(st) && st.Live(s) && st.kbd.focus.None?
    ensures var moved := st.(kbd := MoveFocus(st.kbd, st.clientOf, None));
      KeyboardStepOk(st, moved.(stuck := true)) && KeyboardStepOk(st, KSetFocus(moved, s))
  {
    hide Tracked, Exact, OneClient, Safe, Observe, KSetFocus;
    var moved := st.(kbd := MoveFocus(st.kbd, st.clientOf, None));
    KMoveInv(st, None);
    KSetFocusInv(moved, s);
    KTwice(st, moved, KSetFocus(moved, s));
    assert EnvOf(moved.(stuck := true)) == EnvOf(moved);
  }

  lemma KCheckFocusInv(st: State, s: SurfaceId)
    requires KeyboardInv(st) && st.Live(s)
    ensures KeyboardStepOk(st, KCheckFocus(st, s))
  {
    KNothing(st);
    KSetFocusInv(st, s);
    hide KeyboardInv, KeyboardExact, KeyboardStepOk, KSetFocus, MoveFocus, HasClient, ScanEnds;
    if st.kbd.focus.None? {
      KSpliceInv(st, s);
      var moved := st.(kbd := MoveFocus(st.kbd, st.clientOf, None));
      var st' := KCheckFocus(st, s);
      assert st' == st || st' == KSetFocus(st, s) || st' == KSetFocus(moved, s) || st' == moved.(stuck := true);
    } else {
      assert KCheckFocus(st, s) == st;
    }
  }

  lemma KNothing(st: State)
    requires KeyboardInv(st)
    ensures KeyboardStepOk(st, st)
  {
  }

  // ------------------------------------------------------------------ objects come and go

  /** Both devices at once, as far as surfaces and objects are concerned. */
  ghost predicate DeviceOk(dev: Dev, log: seq<Msg>, d: Device, e: Env, log': seq<Msg>, d': Device, e': Env) {
    && Tracked(d', Observe(dev, log'), e')
    && (OneClient(d, e) ==> OneClient(d', e'))
    && (Exact(d, Observe(dev, log)) && Safe(dev, log) ==> Exact(d', Observe(dev, log')) && Safe(dev, log'))
  }

  lemma SurfaceNewKeeps(dev: Dev, log: seq<Msg>, d: Device, e: Env, s: SurfaceId, surf: Surface)
    requires Tracked(d, Observe(dev, log), e) && s !in e.info
    ensures DeviceOk(dev, log, d, e, log + [SurfaceNew(s, surf.client)], d, e.(info := e.info[s := surf]))
  {
    Append(dev, log, SurfaceNew(s, surf.client));
    hide Observe, Safe;
    assert Tracked(d, Observe(dev, log + [SurfaceNew(s, surf.client)]), e.(info := e.info[s := surf]));
  }

  lemma SurfaceGoneTracked(dev: Dev, d: Device, o: Seen, e: Env, s: SurfaceId)
    requires Tracked(d, o, e)
    ensures Tracked(WithoutFocus(d, s), See(dev, o, SurfaceGone(s)), e.(info := e.info - {s}))
    ensures Exact(d, o) ==> Exact(WithoutFocus(d, s), See(dev, o, SurfaceGone(s)))
  {
    assert WithoutFocus(d, s).All() == d.All();
  }

  lemma SurfaceGoneOneClient(d: Device, e: Env, s: SurfaceId)
    requires OneClient(d, e)
    ensures OneClient(WithoutFocus(d, s), e.(info := e.info - {s}))
  {
    assert WithoutFocus(d, s).All() == d.All();
  }

  lemma SurfaceGoneKeeps(dev: Dev, log: seq<Msg>, d: Device, e: Env, s: SurfaceId)
    requires Tracked(d, Observe(dev, log), e)
    ensures DeviceOk(dev, log, d, e, log + [SurfaceGone(s)], WithoutFocus(d, s), e.(info := e.info - {s}))
  {
    Append(dev, log, SurfaceGone(s));
    SurfaceGoneTracked(dev, d, Observe(dev, log), e, s);
    if OneClient(d, e) {
      SurfaceGoneOneClient(d, e, s);
    }
    hide Observe, Safe, Tracked, OneClient, Exact, WithoutFocus, See;
  }

  function WithObject(e: Env, r: Resource, c: Client): Env {
    e.(clientOf := e.clientOf[r := c], nextRes := r + 1)
  }

  lemma ListedPartitions(d: Device, r: Resource, focused: bool)
    requires Distinct(d.All()) && r !in d.All()
    ensures Distinct(Listed(d, r, focused).All())
    ensures forall q :: q in Listed(d, r, focused).All() <==> q in d.All() || q == r
  {
    var d' := Listed(d, r, focused);
    DistinctConcat(d.focused, d.idle);
    DistinctConcat([r], if focused then d.focused else d.idle);
    DistinctConcat(d'.focused, d'.idle);
  }

  /** A new object put on the resource list has entered nothing. */
  lemma BindIdleKeeps(dev: Dev, log: seq<Msg>, d: Device, e: Env, c: Client)
    requires Tracked(d, Observe(dev, log), e)
    ensures var r := e.nextRes;
      var d', e', log' := Listed(d, r, false), WithObject(e, r, c), log + [Bind(dev, r, c)];
      && Tracked(d', Observe(dev, log'), e')
      && (OneClient(d, e) && !(d.focus.Some? && e.info[d.focus.value].client == c) ==> OneClient(d', e'))
      && (Exact(d, Observe(dev, log)) && Safe(dev, log) ==> Exact(d', Observe(dev, log')) && Safe(dev, log'))
  {
    Append(dev, log, Bind(dev, e.nextRes, c));
    ListedPartitions(d, e.nextRes, false);
  }

  /** One put on the focus list is the focused client's, but has to be told to enter. */
  lemma BindFocusedKeeps(dev: Dev, log: seq<Msg>, d: Device, e: Env, c: Client)
    requires Tracked(d, Observe(dev, log), e)
    requires d.focus.Some? && e.info[d.focus.value].client == c
    ensures var r := e.nextRes;
      var d', e', log' := Listed(d, r, true), WithObject(e, r, c), log + [Bind(dev, r, c)];
      && Tracked(d', Observe(dev, log'), e')
      && (OneClient(d, e) ==> OneClient(d', e'))
      && (Exact(d, Observe(dev, log)) && Safe(dev, log) ==>
            && Safe(dev, log') && r !in Observe(dev, log').inside
            && (forall q :: q != r ==> (q in Observe(dev, log').inside <==> q in d.focused))
            && (forall q :: q in Observe(dev, log').inside ==> Observe(dev, log').inside[q] == d.focus.value))
  {
    Append(dev, log, Bind(dev, e.nextRes, c));
    ListedPartitions(d, e.nextRes, true);
  }

  lemma OtherBindKeeps(dev: Dev, log: seq<Msg>, d: Device, e: Env, other: Dev, c: Client)
    requires Tracked(d, Observe(dev, log), e) && other != dev
    ensures var r := e.nextRes;
      DeviceOk(dev, log, d, e, log + [Bind(other, r, c)], d, WithObject(e, r, c))
  {
    Append(dev, log, Bind(other, e.nextRes, c));
  }

  lemma UnbindKeeps(dev: Dev, log: seq<Msg>, d: Device, e: Env, r: Resource)
    requires Tracked(d, Observe(dev, log), e)
    ensures DeviceOk(dev, log, d, e, log + [Unbind(dev, r)], Forget(d, r), e)
  {
    Append(dev, log, Unbind(dev, r));
    ForgetPartitions(d, r);
    var d', o' := Forget(d, r), Observe(dev, log + [Unbind(dev, r)]);
    assert forall q :: q in d'.All() <==> q in d.All() && q != r;
    assert Tracked(d', o', e);
    assert OneClient(d, e) ==> OneClient(d', e);
  }

  lemma OtherUnbindKeeps(dev: Dev, log: seq<Msg>, d: Device, e: Env, other: Dev, r: Resource)
    requires Tracked(d, Observe(dev, log), e) && other != dev
    ensures DeviceOk(dev, log, d, e, log + [Unbind(other, r)], d, e)
  {
    Append(dev, log, Unbind(other, r));
  }

  // ------------------------------------------------------------------ all together

  /** Everything that holds in every reachable state. */
  ghost predicate Inv(st: State) {
    World(st) && PointerInv(st) && KeyboardInv(st)
  }

  /** The one request that can break the keyboard protocol: a client that holds the keyboard focus
      makes another keyboard while its latest surface is not the one in focus. */
  predicate Polite(st: State, op: Op) {
    op.GetKeyboard? && HoldsKeyboard(st, op.c) ==> op.c in st.known.latest && st.known.latest[op.c] == st.kbd.focus.value
  }

  ghost predicate StepOk(st: State, st': State) {
    Inv(st') && (KeyboardExact(st) ==> KeyboardExact(st'))
  }

  /** Edits that keep the surfaces, their clients and the devices. */
  lemma EditOk(st: State, st': State)
    requires Inv(st) && World(st')
    requires st'.ptr == st.ptr && st'.kbd == st.kbd && st'.log == st.log && st'.clientOf == st.clientOf && st'.nextRes == st.nextRes
    requires st'.scene.info.Keys == st.scene.info.Keys
    requires forall s :: s in st.scene.info ==> st'.scene.info[s].client == st.scene.info[s].client
    ensures StepOk(st, st')
  {
    hide World, Safe, Observe;
    EnvSame(st.ptr, Observe(Pointer, st.log), EnvOf(st), EnvOf(st'));
    EnvSame(st.kbd, Observe(Keyboard, st.log), EnvOf(st), EnvOf(st'));
  }

  lemma EnvSame(d: Device, o: Seen, e: Env, e': Env)
    requires Tracked(d, o, e) && e' == e.(info := e'.info) && e'.info.Keys == e.info.Keys
    requires forall s :: s in e.info ==> e'.info[s].client == e.info[s].client
    ensures Tracked(d, o, e') && (OneClient(d, e) ==> OneClient(d, e'))
  {
    forall s ensures s in e'.info <==> s in e.info {
      assert s in e'.info.Keys <==> s in e.info.Keys;
    }
    if d.focus.Some? {
      assert e'.info[d.focus.value].client == e.info[d.focus.value].client;
    }
  }

  lemma WorldSame(st: State, st': State)
    requires World(st) && st'.scene == st.scene && st'.nextSurface == st.nextSurface && st'.known.latest == st.known.latest
    requires st'.cursor == st.cursor || st'.cursor == None
    ensures World(st')
  {
  }

  lemma KeyboardStep(st: State, st': State)
    requires Inv(st) && KeyboardStepOk(st, st')
    ensures StepOk(st, st')
  {
    hide World, PointerInv, KeyboardInv, KeyboardExact;
    WorldSame(st, st');
    PointerUntouched(st, st');
  }

  lemma AddSurfaceWorld(st: State, c: Client)
    requires World(st)
    ensures World(AddSurface(st, c)) && st.nextSurface !in st.scene.info
  {
    PutDistinct(st.scene.list, st.nextSurface, st.cfg.base);
  }

  lemma AddSurfaceOk(st: State, c: Client)
    requires Inv(st)
    ensures StepOk(st, AddSurface(st, c))
  {
    var s := st.nextSurface;
    AddSurfaceWorld(st, c);
    hide World, Tracked, Exact, OneClient, Safe, Observe;
    SurfaceNewKeeps(Pointer, st.log, st.ptr, EnvOf(st), s, NewSurface(c));
    SurfaceNewKeeps(Keyboard, st.log, st.kbd, EnvOf(st), s, NewSurface(c));
  }

  lemma CreateSurfaceOk(st: State, c: Client)
    requires Inv(st)
    ensures StepOk(st, DoCreateSurface(st, c))
  {
    hide World, PointerInv, KeyboardInv, KeyboardExact, KCheckFocus, KeyboardStepOk;
    AddSurfaceOk(st, c);
    KCheckFocusInv(AddSurface(st, c), st.nextSurface);
    KeyboardStep(AddSurface(st, c), DoCreateSurface(st, c));
  }

  lemma UnlinkWorld(st: State, s: SurfaceId)
    requires World(st)
    ensures World(Unlink(st, s))
  {
    RemoveDistinct(st.scene.list.items, s);
  }

  lemma UnlinkOk(st: State, s: SurfaceId)
    requires Inv(st) && st.Live(s)
    ensures StepOk(st, Unlink(st, s))
  {
    UnlinkWorld(st, s);
    hide World, Tracked, Exact, OneClient, Safe, Observe;
    SurfaceGoneKeeps(Pointer, st.log, st.ptr, EnvOf(st), s);
    SurfaceGoneKeeps(Keyboard, st.log, st.kbd, EnvOf(st), s);
  }

  lemma DestroySurfaceOk(st: State, s: SurfaceId, byRequest: bool)
    requires Inv(st) && st.Live(s)
    ensures var st' := DoDestroySurface(st, s, byRequest);
      StepOk(st, st') && st'.ptr.focus == Wanted(st'.scene, MASTER, st'.at.px, st'.at.py)
  {
    hide Unlink, PCheckFocus, World, PointerInv, KeyboardInv, KeyboardExact, Wanted;
    UnlinkOk(st, s);
    PCheckFocusInv(Unlink(st, s));
    BookkeepingOk(PCheckFocus(Unlink(st, s)), DoDestroySurface(st, s, byRequest));
  }

  lemma ZOrderOk(st: State, s: SurfaceId, z: real)
    requires Inv(st) && st.Live(s)
    ensures StepOk(st, st.(scene := st.scene.(list := Put(st.scene.list, s, z))))
  {
    PutDistinct(st.scene.list, s, z);
    hide PointerInv, KeyboardInv, KeyboardExact, Put;
    EditOk(st, st.(scene := st.scene.(list := Put(st.scene.list, s, z))));
  }

  lemma AddPointerOk(st: State, c: Client)
    requires Inv(st)
    ensures StepOk(st, AddPointer(st, c))
  {
    hide World, Tracked, Exact, OneClient, Safe, Observe;
    WorldSame(st, AddPointer(st, c));
    BindIdleKeeps(Pointer, st.log, st.ptr, EnvOf(st), c);
    OtherBindKeeps(Keyboard, st.log, st.kbd, EnvOf(st), Pointer, c);
    assert EnvOf(AddPointer(st, c)) == WithObject(EnvOf(st), st.nextRes, c);
  }

  lemma GetPointerOk(st: State, c: Client)
    requires Inv(st)
    ensures StepOk(st, DoGetPointer(st, c))
  {
    hide World, PointerInv, KeyboardInv, KeyboardExact, AddPointer, PCheckFocus;
    AddPointerOk(st, c);
    if st.at.entered {
      PCheckFocusInv(AddPointer(st, c));
    }
  }

  lemma ReleasePointerOk(st: State, r: Resource)
    requires Inv(st)
    ensures StepOk(st, st.(ptr := Forget(st.ptr, r), log := st.log + [Unbind(Pointer, r)]))
  {
    hide World, Tracked, Exact, OneClient, Safe, Observe, Forget;
    WorldSame(st, st.(ptr := Forget(st.ptr, r), log := st.log + [Unbind(Pointer, r)]));
    UnbindKeeps(Pointer, st.log, st.ptr, EnvOf(st), r);
    OtherUnbindKeeps(Keyboard, st.log, st.kbd, EnvOf(st), Pointer, r);
  }

  lemma ReleaseKeyboardOk(st: State, r: Resource)
    requires Inv(st)
    ensures StepOk(st, st.(kbd := Forget(st.kbd, r), log := st.log + [Unbind(Keyboard, r)]))
  {
    hide World, Tracked, Exact, OneClient, Safe, Observe, Forget;
    WorldSame(st, st.(kbd := Forget(st.kbd, r), log := st.log + [Unbind(Keyboard, r)]));
    UnbindKeeps(Keyboard, st.log, st.kbd, EnvOf(st), r);
    OtherUnbindKeeps(Pointer, st.log, st.ptr, EnvOf(st), Keyboard, r);
  }

  lemma AddKeyboardOk(st: State, c: Client)
    requires Inv(st)
    ensures Inv(AddKeyboard(st, c))
    ensures KeyboardExact(st) && !HoldsKeyboard(st, c) ==> KeyboardExact(AddKeyboard(st, c))
  {
    hide World, Exact, OneClient, Safe, Observe;
    var e := EnvOf(st);
    WorldSame(st, AddKeyboard(st, c));
    if HoldsKeyboard(st, c) {
      BindFocusedKeeps(Keyboard, st.log, st.kbd, e, c);
    } else {
      BindIdleKeeps(Keyboard, st.log, st.kbd, e, c);
    }
    OtherBindKeeps(Pointer, st.log, st.ptr, e, Keyboard, c);
    assert EnvOf(AddKeyboard(st, c)) == WithObject(e, st.nextRes, c);
  }

  lemma KAdoptOk(st: State)
    requires Inv(st)
    ensures StepOk(st, KAdopt(st))
  {
    if KAdopt(st) != st {
      KMoveInv(st, Some(st.clientOf[st.kbd.idle[0]]));
      KeyboardStep(st, KAdopt(st));
    }
  }

  /** A keyboard made by a client that does not hold the focus. */
  lemma GetKeyboardIdleOk(st: State, c: Client)
    requires Inv(st) && !HoldsKeyboard(st, c)
    ensures StepOk(st, DoGetKeyboard(st, c))
  {
    AddKeyboardOk(st, c);
    var st1 := AddKeyboard(st, c);
    var st2 := KWelcome(st1, st.nextRes, c, false);
    if c in st1.known.latest && st1.kbd.focus.None? {
      KSetFocusInv(st1, st1.known.latest[c]);
      KeyboardStep(st1, st2);
    }
    KAdoptOk(st2);
  }

  /** Being told to enter a surface, with everything else as it is. */
  lemma OneEnterOk(st: State, r: Resource, s: SurfaceId)
    requires Inv(st)
    ensures Inv(st.(log := st.log + [Enter(Keyboard, r, s)]))
  {
    WorldSame(st, st.(log := st.log + [Enter(Keyboard, r, s)]));
    hide World, Safe, Observe;
    Append(Keyboard, st.log, Enter(Keyboard, r, s));
    Append(Pointer, st.log, Enter(Keyboard, r, s));
  }

  /** With every object but r inside the focused surface, entering s completes the picture exactly
      if s is that surface. */
  lemma LastEnter(log: seq<Msg>, d: Device, e: Env, r: Resource, s: SurfaceId)
    requires Tracked(d, Observe(Keyboard, log), e) && Safe(Keyboard, log) && d.focus.Some?
    requires var o := Observe(Keyboard, log);
      && r in d.focused && r !in o.inside && IsOf(e.clientOf, Some(e.info[d.focus.value].client), r)
      && (forall q :: q != r ==> (q in o.inside <==> q in d.focused))
      && (forall q :: q in o.inside ==> o.inside[q] == d.focus.value)
    requires s in e.info && e.info[s].client == e.info[d.focus.value].client
    ensures var log' := log + [Enter(Keyboard, r, s)];
      Safe(Keyboard, log') && (Exact(d, Observe(Keyboard, log')) <==> s == d.focus.value)
  {
    Append(Keyboard, log, Enter(Keyboard, r, s));
    var o, o' := Observe(Keyboard, log), Observe(Keyboard, log + [Enter(Keyboard, r, s)]);
    assert o' == o.(inside := o.inside[r := s]);
    assert r in o'.inside && o'.inside[r] == s;
  }

  /** The new object of the client in focus ends up inside the right surface exactly when the
      client's latest surface is the one in focus. */
  lemma WelcomeExact(st: State, c: Client)
    requires Inv(st) && HoldsKeyboard(st, c) && KeyboardExact(st)
    ensures KeyboardExact(DoGetKeyboard(st, c)) <==> Polite(st, GetKeyboard(c))
  {
    hide Observe, Safe, OneClient;
    var r, st1 := st.nextRes, AddKeyboard(st, c);
    AddKeyboardOk(st, c);
    BindFocusedKeeps(Keyboard, st.log, st.kbd, EnvOf(st), c);
    assert r in st1.kbd.focused && r !in Observe(Keyboard, st1.log).inside;
    if c in st.known.latest {
      LastEnter(st1.log, st1.kbd, EnvOf(st1), r, st.known.latest[c]);
    }
  }

  /** One made by the client in focus joins the focus list; it is told to enter its client's latest
      surface, if any, whichever surface has the focus. */
  lemma GetKeyboardFocusedOk(st: State, c: Client)
    requires Inv(st) && HoldsKeyboard(st, c)
    ensures Inv(DoGetKeyboard(st, c))
    ensures KeyboardExact(st) ==> (KeyboardExact(DoGetKeyboard(st, c)) <==> Polite(st, GetKeyboard(c)))
  {
    AddKeyboardOk(st, c);
    if c in st.known.latest {
      OneEnterOk(AddKeyboard(st, c), st.nextRes, st.known.latest[c]);
    }
    if KeyboardExact(st) {
      WelcomeExact(st, c);
    }
  }

  /** One surface's attributes change, but not whose it is. */
  lemma WithInfoOk(st: State, s: SurfaceId, surf: Surface)
    requires Inv(st) && st.Live(s)
    requires surf.client == st.ClientOf(s) && surf.owner == MASTER && (st.cursor == Some(s) ==> surf.role == Cursor)
    ensures StepOk(st, WithInfo(st, s, surf))
  {
    hide PointerInv, KeyboardInv, KeyboardExact;
    assert WithInfo(st, s, surf).scene.info.Keys == st.scene.info.Keys;
    EditOk(st, WithInfo(st, s, surf));
  }

  /** Pointer position and cursor change. */
  lemma FieldsOk(st: State, st': State)
    requires Inv(st)
    requires st' == st.(cursor := st'.cursor, at := st'.at)
    requires st'.cursor.Some? ==> st.Live(st'.cursor.value) && st.scene.Of(st'.cursor.value).role == Cursor
    ensures StepOk(st, st')
  {
    hide PointerInv, KeyboardInv, KeyboardExact;
    EditOk(st, st');
  }

  lemma PlaceCursorOk(st: State)
    requires Inv(st)
    ensures StepOk(st, PlaceCursor(st))
    ensures var st' := PlaceCursor(st);
      && Found(st'.scene, MASTER, st.at.px, st.at.py) == Found(st.scene, MASTER, st.at.px, st.at.py)
      && st'.ptr == st.ptr && st'.at.px == st.at.px && st'.at.py == st.at.py
  {
    hide PointerInv, KeyboardInv, KeyboardExact, Found;
    if st.cursor.Some? {
      var s := st.cursor.value;
      var cur := st.scene.Of(s);
      var area := Rect(st.at.px - st.at.hotX, st.at.py - st.at.hotY, cur.area.w, cur.area.h);
      WithInfoOk(st, s, cur.(area := area));
      CursorAreaIrrelevant(st.scene, MASTER, st.at.px, st.at.py, s, area);
    }
  }

  lemma SetRoleOk(st: State, s: SurfaceId, role: Role)
    requires Inv(st) && MayTake(st, s, role)
    ensures StepOk(st, SetRole(st, s, role))
  {
    hide PointerInv, KeyboardInv, KeyboardExact, WithInfo;
    WithInfoOk(st, s, st.scene.Of(s).(role := role));
  }

  lemma SetCursorOk(st: State, c: Client, cur: Ref, hx: int, hy: int, mayModify: bool, isDefaultClient: bool)
    requires Inv(st)
    ensures StepOk(st, DoSetCursor(st, c, cur, hx, hy, mayModify, isDefaultClient))
  {
    hide World, PointerInv, KeyboardInv, KeyboardExact, PlaceCursor;
    if cur.None? || MayTake(st, cur.value, Cursor) {
      var st1 := if cur.Some? then SetRole(st, cur.value, Cursor) else st;
      if cur.Some? { SetRoleOk(st, cur.value, Cursor); }
      var st2 := st1.(at := st1.at.(ownCursor := st1.at.ownCursor || isDefaultClient), cursor := cur);
      FieldsOk(st1, st2);
      if cur.Some? {
        FieldsOk(st1, st2.(at := st2.at.(hotX := hx, hotY := hy)));
        PlaceCursorOk(st2.(at := st2.at.(hotX := hx, hotY := hy)));
      }
    }
  }

  /** Motion and button events reach only objects that have entered the surface in focus. */
  lemma NoteOk(st: State, m: Resource -> Msg)
    requires Inv(st) && st.ptr.focus.Some?
    requires forall r :: m(r) == Motion(r) || m(r) == Button(r)
    ensures StepOk(st, st.(log := st.log + Each(st.ptr.focused, m)))
  {
    var st' := st.(log := st.log + Each(st.ptr.focused, m));
    var o, ext := Observe(Pointer, st.log), Each(st.ptr.focused, m);
    forall k | 0 <= k < |ext| ensures See(Pointer, o, ext[k]) == o && Legal(Pointer, o, ext[k]) {
      var r := st.ptr.focused[k];
      assert r in st.ptr.focused && ext[k] == m(r);
    }
    Quiet(Pointer, st.log, ext);
    GrownEach(st.log, st.ptr.focused, m, Pointer);
    KeyboardUntouched(st, st');
    WorldUntouched(st, st');
  }

  lemma PointerOutOk(st: State)
    requires Inv(st)
    ensures StepOk(st, DoPointerOut(st))
  {
    hide PointerInv, KeyboardInv, KeyboardExact, PSetFocus;
    PSetFocusInv(st, None);
    var st1 := PSetFocus(st, None);
    WorldUntouched(st, st1);
    KeyboardUntouched(st, st1);
    if !st.at.ownCursor {
      FieldsOk(st1, DoPointerOut(st));
    }
  }

  lemma PointerInOk(st: State, x: int, y: int)
    requires Inv(st)
    ensures StepOk(st, DoPointerIn(st, x, y))
  {
    var st1 := st.(at := st.at.(entered := true, px := x, py := y));
    FieldsOk(st, st.(at := st.at.(entered := true)));
    FieldsOk(st, st1);
    hide World, PointerInv, KeyboardInv, KeyboardExact, PCheckFocus;
    PCheckFocusInv(st1);
  }

  lemma MoveToOk(st: State, x: int, y: int)
    requires Inv(st)
    ensures StepOk(st, st.(at := st.at.(px := x, py := y)))
  {
    FieldsOk(st, st.(at := st.at.(px := x, py := y)));
  }

  lemma PointerMoveOk(st: State, x: int, y: int)
    requires Inv(st)
    ensures var st' := DoPointerMove(st, x, y);
      StepOk(st, st') && st'.ptr.focus == Wanted(st'.scene, MASTER, x, y) && st'.at.px == x && st'.at.py == y
  {
    hide World, PointerInv, KeyboardInv, KeyboardExact, PCheckFocus, PlaceCursor, Found, Wanted, Each;
    var st0 := st.(at := st.at.(px := x, py := y));
    MoveToOk(st, x, y);
    PCheckFocusInv(st0);
    var st1 := PCheckFocus(st0);
    var st2 := if st1.ptr.focus.Some? then st1.(log := st1.log + Each(st1.ptr.focused, Moving())) else st1;
    if st1.ptr.focus.Some? {
      NoteOk(st1, Moving());
    }
    PlaceCursorOk(st2);
    FoundLive(st2);
    FoundLive(DoPointerMove(st, x, y));
  }

  lemma PointerButtonOk(st: State, pressed: bool)
    requires Inv(st)
    ensures StepOk(st, DoPointerButton(st, pressed))
  {
    hide World, KeyboardInv, KeyboardExact, KSetFocus, Each;
    if st.ptr.focus.Some? {
      NoteOk(st, Pressing());
      var st1 := st.(log := st.log + Each(st.ptr.focused, Pressing()));
      KSetFocusInv(st1, st.ptr.focus.value);
      KeyboardStep(st1, KSetFocus(st1, st.ptr.focus.value));
    }
  }

  lemma KeyEventOk(st: State)
    requires Inv(st)
    ensures StepOk(st, DoKeyEvent(st))
  {
    var m := Typing();
    var o, ext := Observe(Keyboard, st.log), Each(st.kbd.focused, m);
    forall k | 0 <= k < |ext| ensures See(Keyboard, o, ext[k]) == o && Legal(Keyboard, o, ext[k]) {
      var r := st.kbd.focused[k];
      assert r in st.kbd.focused && ext[k] == m(r);
    }
    Quiet(Keyboard, st.log, ext);
    GrownEach(st.log, st.kbd.focused, m, Keyboard);
    hide World, Tracked, Exact, OneClient, Safe, Observe, Each;
    KeyboardStep(st, DoKeyEvent(st));
  }

  lemma BookkeepingOk(st: State, st': State)
    requires Inv(st) && st' == st.(known := st'.known)
    requires forall c :: c in st'.known.latest ==> c in st.known.latest && st'.known.latest[c] == st.known.latest[c]
    ensures StepOk(st, st')
  {
    hide PointerInv, KeyboardInv, KeyboardExact;
    EditOk(st, st');
  }

  lemma XdgRoleOk(st: State, s: SurfaceId)
    requires Inv(st) && MayTake(st, s, XdgSurface)
    ensures StepOk(st, KCheckFocus(SetRole(st, s, XdgSurface), s))
  {
    hide World, PointerInv, KeyboardInv, KeyboardExact, KCheckFocus, KeyboardStepOk;
    var st1 := SetRole(st, s, XdgSurface);
    SetRoleOk(st, s, XdgSurface);
    KCheckFocusInv(st1, s);
    KeyboardStep(st1, KCheckFocus(st1, s));
  }

  lemma FocusRequestOk(st: State, s: SurfaceId)
    requires Inv(st) && st.Live(s)
    ensures StepOk(st, KSetFocus(st, s))
  {
    KSetFocusInv(st, s);
    KeyboardStep(st, KSetFocus(st, s));
  }

  lemma LiveMaster(st: State)
    requires Inv(st)
    ensures forall s :: st.Live(s) ==> st.scene.Of(s).owner == MASTER && (st.cursor == Some(s) ==> st.scene.Of(s).role == Cursor)
  {
  }

  ghost predicate Keeps(st: State, op: Op) {
    Inv(Step(st, op)) && (KeyboardExact(st) && Polite(st, op) ==> KeyboardExact(Step(st, op)))
  }

  lemma SurfaceRequests(st: State, op: Op)
    requires Inv(st) && !st.stuck
    requires op.CreateSurface? || op.DestroySurface? || op.Geometry? || op.ZOrder? || op.Video? || op.ShellRole?
    ensures Keeps(st, op)
  {
    LiveMaster(st);
    hide Inv, KeyboardExact, DoCreateSurface, DoDestroySurface, SetRole, WithInfo, Put;
    match op
    case CreateSurface(c) => CreateSurfaceOk(st, c);
    case DestroySurface(s, byRequest) => if st.Live(s) { DestroySurfaceOk(st, s, byRequest); }
    case Geometry(s, area) => if st.Live(s) { WithInfoOk(st, s, st.scene.Of(s).(area := area)); }
    case ZOrder(s, z) => if st.Live(s) { ZOrderOk(st, s, z); }
    case Video(s, on) => if st.Live(s) { WithInfoOk(st, s, st.scene.Of(s).(hasVpc := on)); }
    case ShellRole(s) => if MayTake(st, s, ShellSurface) { SetRoleOk(st, s, ShellSurface); }
  }

  lemma ClientRequests(st: State, op: Op)
    requires Inv(st) && !st.stuck
    requires op.UseXdg? || op.XdgRole? || op.ForgetClient? || op.SetCursor? || op.FocusRequest?
    ensures Keeps(st, op)
  {
    hide Inv, KeyboardExact, DoSetCursor, KSetFocus, KCheckFocus, SetRole;
    match op
    case UseXdg(c) => BookkeepingOk(st, Step(st, op));
    case XdgRole(s) => if MayTake(st, s, XdgSurface) { XdgRoleOk(st, s); }
    case ForgetClient(c) => BookkeepingOk(st, Step(st, op));
    case SetCursor(c, cur, hx, hy, mayModify, isDefaultClient) => SetCursorOk(st, c, cur, hx, hy, mayModify, isDefaultClient);
    case FocusRequest(s) => if st.Live(s) { FocusRequestOk(st, s); }
  }

  lemma ObjectRequests(st: State, op: Op)
    requires Inv(st) && !st.stuck
    requires op.GetPointer? || op.ReleasePointer? || op.GetKeyboard? || op.ReleaseKeyboard?
    ensures Keeps(st, op)
  {
    hide Inv, KeyboardExact, DoGetPointer, DoGetKeyboard, Forget;
    match op
    case GetPointer(c) => GetPointerOk(st, c);
    case ReleasePointer(r) => ReleasePointerOk(st, r);
    case GetKeyboard(c) =>
      if HoldsKeyboard(st, c) { GetKeyboardFocusedOk(st, c); } else { GetKeyboardIdleOk(st, c); }
    case ReleaseKeyboard(r) => ReleaseKeyboardOk(st, r);
  }

  lemma InputEvents(st: State, op: Op)
    requires Inv(st) && !st.stuck
    requires op.PointerIn? || op.PointerOut? || op.PointerMove? || op.PointerButton? || op.KeyEvent?
    ensures Keeps(st, op)
  {
    hide Inv, KeyboardExact, DoPointerIn, DoPointerOut, DoPointerMove, DoPointerButton, DoKeyEvent;
    match op
    case PointerIn(x, y) => PointerInOk(st, x, y);
    case PointerOut => PointerOutOk(st);
    case PointerMove(x, y) => PointerMoveOk(st, x, y);
    case PointerButton(pressed) => PointerButtonOk(st, pressed);
    case KeyEvent => KeyEventOk(st);
  }

  /** Every step of every handler keeps the invariant. */
  lemma StepKeepsInv(st: State, op: Op)
    requires Inv(st)
    ensures Inv(Step(st, op))
    ensures KeyboardExact(st) && Polite(st, op) ==> KeyboardExact(Step(st, op))
  {
    if !st.stuck {
      hide Inv, KeyboardExact, Step, Polite;
      match op
      case CreateSurface(_) => SurfaceRequests(st, op);
      case DestroySurface(_, _) => SurfaceRequests(st, op);
      case Geometry(_, _) => SurfaceRequests(st, op);
      case ZOrder(_, _) => SurfaceRequests(st, op);
      case Video(_, _) => SurfaceRequests(st, op);
      case ShellRole(_) => SurfaceRequests(st, op);
      case GetPointer(_) => ObjectRequests(st, op);
      case ReleasePointer(_) => ObjectRequests(st, op);
      case GetKeyboard(_) => ObjectRequests(st, op);
      case ReleaseKeyboard(_) => ObjectRequests(st, op);
      case PointerIn(_, _) => InputEvents(st, op);
      case PointerOut => InputEvents(st, op);
      case PointerMove(_, _) => InputEvents(st, op);
      case PointerButton(_) => InputEvents(st, op);
      case KeyEvent => InputEvents(st, op);
      case _ => ClientRequests(st, op);
    }
  }

  lemma StartInv(base: real, nested: bool)
    ensures Inv(Start(base, nested)) && KeyboardExact(Start(base, nested))
  {
  }

  lemma {:induction false} RunKeepsInv(base: real, nested: bool, ops: seq<Op>)
    ensures Inv(Run(base, nested, ops))
  {
    hide Inv, Step, Polite, KeyboardExact, Start;
    if ops == [] {
      StartInv(base, nested);
    } else {
      var before := ops[..|ops| - 1];
      RunKeepsInv(base, nested, before);
      StepKeepsInv(Run(base, nested, before), ops[|before|]);
    }
  }

  // ------------------------------------------------------------------ what every run satisfies

  /** Pointer trace safety.  In every run each pointer object sees enter S, then motion and buttons,
      then leave S; what it is inside, if anything, is the surface in focus, and that is live. */
  lemma PointerTraceSafe(base: real, nested: bool, ops: seq<Op>)
    ensures var st := Run(base, nested, ops);
      && Safe(Pointer, st.log)
      && (forall r :: r in Observe(Pointer, st.log).inside ==> Some(Observe(Pointer, st.log).inside[r]) == st.ptr.focus)
      && (st.ptr.focus.Some? ==> st.Live(st.ptr.focus.value))
  {
    RunKeepsInv(base, nested, ops);
  }

  /** After every pointer motion and every surface destruction the pointer focus is what the hit
      test wants at the stored position. */
  lemma PointerFocusIsHit(base: real, nested: bool, ops: seq<Op>, op: Op)
    requires !Run(base, nested, ops).stuck
    requires op.PointerMove? || (op.DestroySurface? && Run(base, nested, ops).Live(op.s))
    ensures var st := Step(Run(base, nested, ops), op);
      && st.ptr.focus == Wanted(st.scene, MASTER, st.at.px, st.at.py)
      && (op.PointerMove? ==> st.at.px == op.x && st.at.py == op.y)
  {
    var before := Run(base, nested, ops);
    RunKeepsInv(base, nested, ops);
    hide Inv, DoPointerMove, DoDestroySurface, Run, Wanted;
    match op
    case PointerMove(x, y) => PointerMoveOk(before, x, y);
    case DestroySurface(s, byRequest) => DestroySurfaceOk(before, s, byRequest);
  }

  /** The keyboard lists: a partition of the objects clients hold, the focus list never mixes
      clients, and with a focus it is exactly the objects of the focused surface's client. */
  lemma KeyboardListInvariant(base: real, nested: bool, ops: seq<Op>)
    ensures var st := Run(base, nested, ops);
      var bound := Observe(Keyboard, st.log).bound;
      && Distinct(st.kbd.All())
      && (forall r :: r in bound <==> r in st.kbd.All())
      && (forall q, r :: q in st.kbd.focused && r in st.kbd.focused ==> bound[q] == bound[r])
      && (st.kbd.focus.Some? ==>
            && st.Live(st.kbd.focus.value)
            && forall r :: r in st.kbd.focused <==> r in bound && bound[r] == st.ClientOf(st.kbd.focus.value))
  {
    RunKeepsInv(base, nested, ops);
  }

  /** Giving the focus to a surface never empties a focus list that was not empty. */
  lemma SetFocusKeepsListeners(st: State, s: SurfaceId)
    requires Inv(st) && st.Live(s) && st.kbd.focused != []
    ensures KSetFocus(st, s).kbd.focused != []
  {
    var st', c := KSetFocus(st, s), st.ClientOf(s);
    if st' != st {
      var r :| r in st.kbd.All() && IsOf(st.clientOf, Some(c), r);
      GiveKeeps(Keyboard, st.log, st.kbd, EnvOf(st), s);
      assert r in st'.kbd.focused;
    }
  }

  /** A key event goes to each object of the focus list once, and these are objects of one client:
      no key reaches two clients. */
  lemma KeyReachesOneClient(base: real, nested: bool, ops: seq<Op>)
    ensures var st := Run(base, nested, ops);
      var sent := DoKeyEvent(st).log[|st.log|..];
      var bound := Observe(Keyboard, st.log).bound;
      && |sent| == |st.kbd.focused|
      && (forall i :: 0 <= i < |sent| ==> sent[i] == Key(st.kbd.focused[i]) && sent[i].r in bound)
      && (forall i, j :: 0 <= i < j < |sent| ==> sent[i].r != sent[j].r && bound[sent[i].r] == bound[sent[j].r])
      && (st.kbd.focus.Some? ==> forall i :: 0 <= i < |sent| ==> bound[sent[i].r] == st.ClientOf(st.kbd.focus.value))
  {
    KeyboardListInvariant(base, nested, ops);
    var st := Run(base, nested, ops);
    DistinctConcat(st.kbd.focused, st.kbd.idle);
    assert forall i :: 0 <= i < |st.kbd.focused| ==> st.kbd.focused[i] in st.kbd.focused;
  }

  // ------------------------------------------------------------------ the keyboard protocol

  ghost predicate AllPolite(base: real, nested: bool, ops: seq<Op>) {
    ops == [] ||
      (AllPolite(base, nested, ops[..|ops| - 1]) && Polite(Run(base, nested, ops[..|ops| - 1]), ops[|ops| - 1]))
  }

  /** Keyboards follow enter/leave as pointers do as long as every request is polite. */
  lemma {:induction false} KeyboardTraceSafe(base: real, nested: bool, ops: seq<Op>)
    requires AllPolite(base, nested, ops)
    ensures KeyboardExact(Run(base, nested, ops))
  {
    hide Inv, Step, Polite, KeyboardExact, Start;
    if ops == [] {
      StartInv(base, nested);
    } else {
      var before := ops[..|ops| - 1];
      KeyboardTraceSafe(base, nested, before);
      RunKeepsInv(base, nested, before);
      StepKeepsInv(Run(base, nested, before), ops[|before|]);
    }
  }

  /** And exactly then: from a state where every object is inside the surface in focus, a request
      keeps it so if and only if it is polite. */
  lemma KeyboardExactIff(st: State, op: Op)
    requires Inv(st) && KeyboardExact(st) && !st.stuck
    ensures KeyboardExact(Step(st, op)) <==> Polite(st, op)
  {
    hide Inv, KeyboardExact, DoGetKeyboard;
    StepKeepsInv(st, op);
    if op.GetKeyboard? && HoldsKeyboard(st, op.c) {
      GetKeyboardFocusedOk(st, op.c);
    }
  }

  lemma {:induction false} SafePrefix(dev: Dev, a: seq<Msg>, b: seq<Msg>)
    requires a <= b && Safe(dev, b)
    ensures Safe(dev, a)
    decreases |b|
  {
    if a != b {
      SafePrefix(dev, a, b[..|b| - 1]);
    }
  }

  /** Giving the focus away tells every listed object to leave. */
  lemma KSetFocusLeaves(st: State, s: SurfaceId)
    requires st.kbd.focus.Some? && st.kbd.focus.value != s && HasClient(st.kbd.focused, st.clientOf, st.ClientOf(s))
    ensures st.log + Each(st.kbd.focused, Leaving(Keyboard, st.kbd.focus.value)) <= KSetFocus(st, s).log
  {
    hide HasClient, Give, Each;
  }

  lemma BadLeave(log: seq<Msg>, r: Resource, f: SurfaceId)
    requires r in Observe(Keyboard, log).inside ==> Observe(Keyboard, log).inside[r] != f
    ensures !Safe(Keyboard, log + [Leave(Keyboard, r, f)])
  {
    Append(Keyboard, log, Leave(Keyboard, r, f));
    hide Observe, Safe;
  }

  lemma FirstLeave(log: seq<Msg>, list: seq<Resource>, f: SurfaceId)
    requires list != []
    ensures log + [Leave(Keyboard, list[0], f)] <= log + Each(list, Leaving(Keyboard, f))
  {
    assert Each(list, Leaving(Keyboard, f))[0] == Leave(Keyboard, list[0], f);
  }

  lemma FirstHas(list: seq<Resource>, clientOf: map<Resource, Client>, c: Client)
    requires list != [] && IsOf(clientOf, Some(c), list[0])
    ensures HasClient(list, clientOf, c)
  {
    assert list[0] in list;
  }

  lemma UnsafePrefix(dev: Dev, a: seq<Msg>, b: seq<Msg>)
    requires a <= b && !Safe(dev, a)
    ensures !Safe(dev, b)
  {
    hide Safe;
    if Safe(dev, b) {
      SafePrefix(dev, a, b);
    }
  }

  /** An object first in the focus list that is told to leave a surface it is not inside. */
  lemma WrongLeave(st: State, s: SurfaceId, r: Resource)
    requires st.kbd.focus.Some? && st.kbd.focus.value != s
    requires st.kbd.focused != [] && st.kbd.focused[0] == r && IsOf(st.clientOf, Some(st.ClientOf(s)), r)
    requires var o := Observe(Keyboard, st.log); r in o.inside ==> o.inside[r] != st.kbd.focus.value
    ensures !Safe(Keyboard, KSetFocus(st, s).log)
  {
    hide *;
    var f, list := st.kbd.focus.value, st.kbd.focused;
    FirstHas(list, st.clientOf, st.ClientOf(s));
    KSetFocusLeaves(st, s);
    FirstLeave(st.log, list, f);
    BadLeave(st.log, r, f);
    UnsafePrefix(Keyboard, st.log + [Leave(Keyboard, r, f)], KSetFocus(st, s).log);
  }

  lemma WorldLatest(st: State, c: Client)
    requires World(st) && c in st.known.latest
    ensures st.Live(st.known.latest[c]) && st.ClientOf(st.known.latest[c]) == c
  {
  }

  /** What an impolite request leads to: the client is told to enter one surface and, when the
      focus moves there, to leave another. */
  lemma ImpoliteBreaksProtocol(st: State, c: Client)
    requires Inv(st) && !st.stuck && HoldsKeyboard(st, c)
    requires c in st.known.latest && st.known.latest[c] != st.kbd.focus.value
    ensures !Safe(Keyboard, Step(Step(st, GetKeyboard(c)), FocusRequest(st.known.latest[c])).log)
  {
    hide Inv, Safe, World, Each, GiveLog, Give, KSetFocus;
    var r, s, st1 := st.nextRes, st.known.latest[c], AddKeyboard(st, c);
    assert World(st) by { InvWorld(st); }
    WorldLatest(st, c);
    var st2 := Step(st, GetKeyboard(c));
    assert st2 == st1.(log := st1.log + [Enter(Keyboard, r, s)]);
    Append(Keyboard, st1.log, Enter(Keyboard, r, s));
    WrongLeave(st2, s, r);
  }

  /** Without a surface to enter the new object is told nothing; when its client has made a surface and
      the focus moves there, it is told to leave the one before. */
  lemma UnwelcomeBreaksProtocol(st: State, c: Client)
    requires Inv(st) && !st.stuck && KeyboardExact(st) && HoldsKeyboard(st, c) && c !in st.known.latest
    ensures !Safe(Keyboard, Step(Step(Step(st, GetKeyboard(c)), CreateSurface(c)), FocusRequest(st.nextSurface)).log)
  {
    hide *;
    var r, s, st1, st2 := st.nextRes, st.nextSurface, AddKeyboard(st, c), AddSurface(AddKeyboard(st, c), c);
    GetKeyboardTellsNothing(st, c);
    SurfaceWhileFocused(st1, c);
    NewKeyboardOutside(st, c);
    FocusIsOld(st, c);
    Append(Keyboard, st1.log, SurfaceNew(s, c));
    StaysOutside(Observe(Keyboard, st1.log), s, c, r);
    BothNew(st, c);
    WrongLeave(st2, s, r);
  }

  lemma GetKeyboardTellsNothing(st: State, c: Client)
    requires !st.stuck && HoldsKeyboard(st, c) && c !in st.known.latest
    ensures Step(st, GetKeyboard(c)) == AddKeyboard(st, c)
    ensures AddKeyboard(st, c).kbd.focus.Some? && !AddKeyboard(st, c).stuck
  {
  }

  lemma SurfaceWhileFocused(st: State, c: Client)
    requires !st.stuck && st.kbd.focus.Some?
    ensures Step(st, CreateSurface(c)) == AddSurface(st, c)
    ensures AddSurface(st, c).log == st.log + [SurfaceNew(st.nextSurface, c)]
    ensures Step(AddSurface(st, c), FocusRequest(st.nextSurface)) == KSetFocus(AddSurface(st, c), st.nextSurface)
  {
    hide KSetFocus, Put;
  }

  /** The new surface and the new object are of the client, the object first in the focus list. */
  lemma BothNew(st: State, c: Client)
    requires HoldsKeyboard(st, c)
    ensures var st2 := AddSurface(AddKeyboard(st, c), c);
      && st2.kbd.focus == st.kbd.focus && st2.kbd.focused != [] && st2.kbd.focused[0] == st.nextRes
      && IsOf(st2.clientOf, Some(st2.ClientOf(st.nextSurface)), st.nextRes)
      && AddKeyboard(st, c).nextSurface == st.nextSurface
  {
    hide Put;
  }

  lemma StaysOutside(o: Seen, s: SurfaceId, c: Client, r: Resource)
    requires r !in o.inside
    ensures r !in See(Keyboard, o, SurfaceNew(s, c)).inside
  {
  }

  lemma FocusIsOld(st: State, c: Client)
    requires Inv(st) && HoldsKeyboard(st, c)
    ensures st.kbd.focus.Some? && st.kbd.focus.value < st.nextSurface
  {
    hide PointerInv, OneClient, Observe;
  }

  lemma NewKeyboardOutside(st: State, c: Client)
    requires Inv(st) && KeyboardExact(st) && HoldsKeyboard(st, c)
    ensures st.nextRes !in Observe(Keyboard, AddKeyboard(st, c).log).inside
  {
    hide World, PointerInv, OneClient, Safe, Observe;
    BindFocusedKeeps(Keyboard, st.log, st.kbd, EnvOf(st), c);
  }

  // ------------------------------------------------------------------ politeness, from outside

  /** What follows from a state. */
  function RunFrom(st: State, ops: seq<Op>): State {
    if ops == [] then st else Step(RunFrom(st, ops[..|ops| - 1]), ops[|ops| - 1])
  }

  ghost predicate PoliteFrom(st: State, ops: seq<Op>) {
    ops == [] ||
      (PoliteFrom(st, ops[..|ops| - 1]) && Polite(RunFrom(st, ops[..|ops| - 1]), ops[|ops| - 1]))
  }

  /** Whatever clients do from here on, as long as they are polite, no keyboard message is against the
      protocol. */
  ghost predicate SafeForPolite(st: State) {
    forall ops :: PoliteFrom(st, ops) ==> Safe(Keyboard, RunFrom(st, ops).log)
  }

  lemma {:induction false} PoliteStaysExact(st: State, ops: seq<Op>)
    requires Inv(st) && KeyboardExact(st) && PoliteFrom(st, ops)
    ensures Inv(RunFrom(st, ops)) && KeyboardExact(RunFrom(st, ops))
  {
    hide Inv, KeyboardExact, Step, Polite;
    if ops != [] {
      var before := ops[..|ops| - 1];
      PoliteStaysExact(st, before);
      StepKeepsInv(RunFrom(st, before), ops[|before|]);
    }
  }

  lemma RunFromOne(st: State, op: Op)
    ensures RunFrom(st, [op]) == Step(st, op)
    ensures PoliteFrom(st, [op]) <==> Polite(st, op)
  {
    assert [op][..0] == [];
    hide Step, Polite;
  }

  lemma RunFromTwo(st: State, a: Op, b: Op)
    ensures RunFrom(st, [a, b]) == Step(Step(st, a), b)
    ensures PoliteFrom(st, [a, b]) <==> Polite(st, a) && Polite(Step(st, a), b)
  {
    assert [a, b][..1] == [a];
    RunFromOne(st, a);
    hide Step, Polite;
  }

  /** The politeness asked of clients is what the protocol needs: from a state with every object inside
      the surface in focus, a request is polite exactly if no polite continuation of it is unsafe. */
  lemma PoliteIffSafeForPolite(st: State, op: Op)
    requires Inv(st) && KeyboardExact(st) && !st.stuck
    ensures Polite(st, op) <==> SafeForPolite(Step(st, op))
  {
    var next := Step(st, op);
    if Polite(st, op) {
      StepKeepsInv(st, op);
      hide Inv, Step, Polite;
      forall ops | PoliteFrom(next, ops) ensures Safe(Keyboard, RunFrom(next, ops).log) {
        PoliteStaysExact(next, ops);
      }
    } else {
      ImpoliteContinues(st, op);
    }
  }

  lemma ImpoliteContinues(st: State, op: Op)
    requires Inv(st) && KeyboardExact(st) && !st.stuck && !Polite(st, op)
    ensures !SafeForPolite(Step(st, op))
  {
    var c, next := op.c, Step(st, op);
    hide Inv, KeyboardExact, Step, Safe;
    if c in st.known.latest {
      var focus := FocusRequest(st.known.latest[c]);
      ImpoliteBreaksProtocol(st, c);
      RunFromOne(next, focus);
      assert PoliteFrom(next, [focus]) && !Safe(Keyboard, RunFrom(next, [focus]).log);
    } else {
      var make, focus := CreateSurface(c), FocusRequest(st.nextSurface);
      UnwelcomeBreaksProtocol(st, c);
      RunFromTwo(next, make, focus);
      assert PoliteFrom(next, [make, focus]) && !Safe(Keyboard, RunFrom(next, [make, focus]).log);
    }
  }

  lemma InvWorld(st: State)
    requires Inv(st)
    ensures World(st)
  {
  }

  /** In every run, what is remembered of surfaces is alive and right: the cursor has its role, both
      focuses are live, client infos name surfaces of their clients, and the stacking order lists live
      surfaces only, each once. */
  lemma RefsAreLive(base: real, nested: bool, ops: seq<Op>)
    ensures var st := Run(base, nested, ops);
      && (st.cursor.Some? ==> st.Live(st.cursor.value) && st.scene.Of(st.cursor.value).role == Cursor)
      && (st.ptr.focus.Some? ==> st.Live(st.ptr.focus.value))
      && (st.kbd.focus.Some? ==> st.Live(st.kbd.focus.value))
      && (forall c :: c in st.known.latest ==> st.Live(st.known.latest[c]) && st.ClientOf(st.known.latest[c]) == c)
      && (forall s :: s in st.scene.list.items ==> st.Live(s)) && Distinct(st.scene.list.items)
  {
    RunKeepsInv(base, nested, ops);
    hide Run, Observe, Safe, OneClient, Exact;
  }

  // ------------------------------------------------------------------ the endless loop

  /** The focus check at surface creation (or at an xdg role) hangs the compositor exactly when
      there is no keyboard focus, the client may take it, and the focus list still holds two or more
      of the client's objects while none is on the resource list. */
  lemma StuckIff(st: State, s: SurfaceId)
    requires Inv(st) && st.Live(s) && !st.stuck
    ensures var c := st.ClientOf(s);
      KCheckFocus(st, s).stuck <==>
        && st.kbd.focus.None?
        && (c in st.known.usesXdg ==> st.scene.Of(s).role == XdgSurface)
        && !HasClient(st.kbd.idle, st.clientOf, c)
        && |st.kbd.focused| >= 2 && IsOf(st.clientOf, Some(c), st.kbd.focused[0])
  {
    var c, list := st.ClientOf(s), st.kbd.focused;
    if list != [] {
      assert list[0] in list;
      assert HasClient(list, st.clientOf, c) <==> IsOf(st.clientOf, Some(c), list[0]) by {
        forall r | r in list ensures IsOf(st.clientOf, Some(c), r) <==> IsOf(st.clientOf, Some(c), list[0]) {
          assert r in st.kbd.All() && list[0] in st.kbd.All();
        }
      }
      if |list| >= 2 {
        assert list[0] in list[..|list| - 1];
      }
    }
  }
}
