/**
 * Ownership of GL textures in westeros-render-embedded.cpp.  A surface has two texture slots.  Textures
 * are generated while rendering; a texture that is no longer wanted is put on a list of dead ones, as
 * only the end of a frame is a good time to delete it.
 */
module Textures {
  import opened Seqs

  type SurfaceId = int
  type Texture = int

  const GL_NONE: Texture := 0

  const MAX_TEXTURES := 2

  /** The texture slots of a surface, and how many of them it uses. */
  datatype Slots = Slots(first: Texture, second: Texture, count: int) {
    function Id(i: int): Texture {
      if i == 0 then first else second
    }

    function With(i: int, t: Texture): Slots {
      if i == 0 then this.(first := t) else this.(second := t)
    }
  }

  datatype State = State(
    surfaces: map<SurfaceId, Slots>,
    dead: seq<Texture>,         // deadTextures
    deleted: seq<Texture>,      // what glDeleteTextures was called for, in order
    next: Texture)              // the next name glGenTextures gives out

  datatype Op =
    | CreateSurface(s: SurfaceId)
    | NewImage(s: SurfaceId, i: int, now: bool)     // a new image for a slot; its texture may be deleted at once
    | Use(s: SurfaceId, count: int)                 // how many slots the surface uses from now on
    | Render(s: SurfaceId, renew: bool)             // renew: its memory is dirty, or it shows an external image
    | Flush(s: SurfaceId)
    | DestroySurface(s: SurfaceId)
    | ProcessDead                                   // the end of a frame

  function Start(): State {
    State(map[], [], [], 1)
  }

  // ------------------------------------------------------------------ steps

  function At(st: State, s: SurfaceId, i: int): Texture {
    if s in st.surfaces then st.surfaces[s].Id(i) else GL_NONE
  }

  function Put(st: State, s: SurfaceId, i: int, t: Texture): State
    requires s in st.surfaces
  {
    st.(surfaces := st.surfaces[s := st.surfaces[s].With(i, t)])
  }

  /** The slot is emptied; its texture is deleted now or later. */
  function Retire(st: State, s: SurfaceId, i: int, now: bool): State
    requires s in st.surfaces
  {
    var t := At(st, s, i);
    if t == GL_NONE then st
    else if now then Put(st, s, i, GL_NONE).(deleted := st.deleted + [t])
    else Put(st, s, i, GL_NONE).(dead := st.dead + [t])
  }

  function Fill(st: State, s: SurfaceId, i: int): State
    requires s in st.surfaces
  {
    if At(st, s, i) == GL_NONE then Put(st, s, i, st.next).(next := st.next + 1) else st
  }

  /** wstRendererEMBFlushSurface */
  function DoFlush(st: State, s: SurfaceId): State
    requires s in st.surfaces
  {
    Retire(Retire(st, s, 0, false), s, 1, false)
  }

  /** The part of wstRendererEMBRenderSurface that generates textures. */
  function DoRender(st: State, s: SurfaceId, renew: bool): State
    requires s in st.surfaces
  {
    if At(st, s, 0) == GL_NONE || renew then
      var st' := Fill(st, s, 0);
      if st.surfaces[s].count == 2 then Fill(st', s, 1) else st'
    else st
  }

  /** wstRendererProcessDeadTextures: from the back of the list to the front. */
  function DoProcessDead(st: State): State {
    st.(dead := [], deleted := st.deleted + Reverse(st.dead))
  }

  function Step(st: State, op: Op): State {
    match op
    case CreateSurface(s) =>
      if s in st.surfaces then st else st.(surfaces := st.surfaces[s := Slots(GL_NONE, GL_NONE, 1)])
    case NewImage(s, i, now) => if s in st.surfaces && 0 <= i < MAX_TEXTURES then Retire(st, s, i, now) else st
    case Use(s, count) =>
      if s in st.surfaces && 1 <= count <= MAX_TEXTURES then st.(surfaces := st.surfaces[s := st.surfaces[s].(count := count)])
      else st
    case Render(s, renew) => if s in st.surfaces then DoRender(st, s, renew) else st
    case Flush(s) => if s in st.surfaces then DoFlush(st, s) else st
    case DestroySurface(s) => if s in st.surfaces then (var st' := DoFlush(st, s); st'.(surfaces := st'.surfaces - {s})) else st
    case ProcessDead => DoProcessDead(st)
  }

  // ------------------------------------------------------------------ ownership

  ghost predicate InSlot(st: State, t: Texture) {
    t != GL_NONE && exists s, i :: 0 <= i < MAX_TEXTURES && At(st, s, i) == t
  }

  /** No two slots share a texture. */
  ghost predicate Single(st: State) {
    forall s, i, u, j :: 0 <= i < MAX_TEXTURES && 0 <= j < MAX_TEXTURES && At(st, s, i) == At(st, u, j) != GL_NONE ==> s == u && i == j
  }

  /** Each generated texture is in a slot, or dead, or deleted, but never two of these, and no texture
      is dead twice or deleted twice. */
  ghost predicate Partition(st: State) {
    && (forall t :: InSlot(st, t) ==> 0 < t < st.next && t !in st.dead && t !in st.deleted)
    && (forall t :: t in st.dead ==> 0 < t < st.next && t !in st.deleted)
    && (forall t :: t in st.deleted ==> 0 < t < st.next)
    && (forall t :: 0 < t < st.next ==> InSlot(st, t) || t in st.dead || t in st.deleted)
    && Distinct(st.dead) && Distinct(st.deleted)
  }

  ghost predicate Inv(st: State) {
    Single(st) && Partition(st) && 0 < st.next
    && forall s :: s in st.surfaces ==> 1 <= st.surfaces[s].count <= MAX_TEXTURES
  }

  lemma PutAt(st: State, s: SurfaceId, i: int, t: Texture)
    requires s in st.surfaces && 0 <= i < MAX_TEXTURES
    ensures forall u, j :: 0 <= j < MAX_TEXTURES ==>
      At(Put(st, s, i, t), u, j) == if u == s && j == i then t else At(st, u, j)
  {
  }

  lemma ClearSlot(st: State, s: SurfaceId, i: int)
    requires s in st.surfaces && 0 <= i < MAX_TEXTURES && Single(st)
    ensures Single(Put(st, s, i, GL_NONE))
    ensures forall t :: InSlot(Put(st, s, i, GL_NONE), t) <==> InSlot(st, t) && t != At(st, s, i)
  {
    var st' := Put(st, s, i, GL_NONE);
    PutAt(st, s, i, GL_NONE);
    hide At, Put;
    forall t | InSlot(st, t) && t != At(st, s, i) ensures InSlot(st', t) {
      var u, j :| 0 <= j < MAX_TEXTURES && At(st, u, j) == t;
      assert At(st', u, j) == t;
    }
    forall t | InSlot(st', t) ensures InSlot(st, t) && t != At(st, s, i) {
      var u, j :| 0 <= j < MAX_TEXTURES && At(st', u, j) == t;
      assert At(st, u, j) == t;
    }
  }

  lemma RetireOk(st: State, s: SurfaceId, i: int, now: bool)
    requires s in st.surfaces && 0 <= i < MAX_TEXTURES && Inv(st)
    ensures Inv(Retire(st, s, i, now)) && At(Retire(st, s, i, now), s, i) == GL_NONE
    ensures Retire(st, s, i, now).surfaces.Keys == st.surfaces.Keys
    ensures forall j :: 0 <= j < MAX_TEXTURES && j != i ==> At(Retire(st, s, i, now), s, j) == At(st, s, j)
  {
    var t, st' := At(st, s, i), Retire(st, s, i, now);
    if t != GL_NONE {
      ClearSlot(st, s, i);
      assert InSlot(st, t);
      SameSlots(Put(st, s, i, GL_NONE), st');
      assert st'.surfaces.Keys == st.surfaces.Keys;
      hide InSlot, Single, At;
      DistinctConcat(st.dead, [t]);
      DistinctConcat(st.deleted, [t]);
    }
  }

  /** Slots depend on the surfaces alone. */
  lemma SameSlots(st: State, st': State)
    requires st'.surfaces == st.surfaces
    ensures Single(st') <==> Single(st)
    ensures forall t :: InSlot(st', t) <==> InSlot(st, t)
  {
    assert forall s, i :: At(st', s, i) == At(st, s, i);
  }

  lemma SetSlot(st: State, s: SurfaceId, i: int, t: Texture)
    requires s in st.surfaces && 0 <= i < MAX_TEXTURES && Single(st) && At(st, s, i) == GL_NONE && t != GL_NONE && !InSlot(st, t)
    ensures Single(Put(st, s, i, t))
    ensures forall x :: InSlot(Put(st, s, i, t), x) <==> InSlot(st, x) || x == t
  {
    var st' := Put(st, s, i, t);
    PutAt(st, s, i, t);
    assert forall u, j :: 0 <= j < MAX_TEXTURES ==> At(st, u, j) != t;
    hide At, Put;
    assert At(st', s, i) == t;
    forall x | InSlot(st, x) ensures InSlot(st', x) {
      var u, j :| 0 <= j < MAX_TEXTURES && At(st, u, j) == x;
      assert At(st', u, j) == x;
    }
    forall x | InSlot(st', x) && x != t ensures InSlot(st, x) {
      var u, j :| 0 <= j < MAX_TEXTURES && At(st', u, j) == x;
      assert At(st, u, j) == x;
    }
  }

  /** A step that only fills slots. */
  ghost predicate Filled(st: State, st': State) {
    Inv(st') && st'.surfaces.Keys == st.surfaces.Keys && st'.dead == st.dead && st'.deleted == st.deleted
  }

  lemma FillOk(st: State, s: SurfaceId, i: int)
    requires s in st.surfaces && 0 <= i < MAX_TEXTURES && Inv(st)
    ensures Filled(st, Fill(st, s, i)) && At(Fill(st, s, i), s, i) != GL_NONE
  {
    if At(st, s, i) == GL_NONE {
      var st' := Put(st, s, i, st.next);
      SetSlot(st, s, i, st.next);
      PutAt(st, s, i, st.next);
      SameSlots(st', Fill(st, s, i));
      assert st'.surfaces.Keys == st.surfaces.Keys;
      hide InSlot, Single, At;
    }
  }

  lemma RenderOk(st: State, s: SurfaceId, renew: bool)
    requires s in st.surfaces && Inv(st)
    ensures Filled(st, DoRender(st, s, renew))
  {
    FillOk(st, s, 0);
    FillOk(Fill(st, s, 0), s, 1);
    hide Inv, Fill, At;
  }

  /** Rendering a surface that needs it leaves no slot in use without a texture, and takes none away. */
  lemma RenderFills(st: State, s: SurfaceId, renew: bool)
    requires s in st.surfaces && Inv(st)
    ensures var st' := DoRender(st, s, renew);
      && At(st', s, 0) != GL_NONE
      && (At(st, s, 0) == GL_NONE || renew ==> forall i :: 0 <= i < st.surfaces[s].count ==> At(st', s, i) != GL_NONE)
      && (forall u, i :: 0 <= i < MAX_TEXTURES && At(st, u, i) != GL_NONE ==> At(st', u, i) == At(st, u, i))
  {
    var st1 := Fill(st, s, 0);
    FillOk(st, s, 0);
    FillOk(st1, s, 1);
    PutAt(st, s, 0, st.next);
    PutAt(st1, s, 1, st1.next);
    hide At, Put;
  }

  lemma FlushOk(st: State, s: SurfaceId)
    requires s in st.surfaces && Inv(st)
    ensures Inv(DoFlush(st, s)) && DoFlush(st, s).surfaces.Keys == st.surfaces.Keys
    ensures forall i :: 0 <= i < MAX_TEXTURES ==> At(DoFlush(st, s), s, i) == GL_NONE
  {
    RetireOk(st, s, 0, false);
    RetireOk(Retire(st, s, 0, false), s, 1, false);
    hide Inv, Retire, At;
  }

  /** Adding or removing a surface whose slots are empty changes no slot. */
  lemma EmptySurface(st: State, st': State, s: SurfaceId)
    requires Inv(st) && forall u, i :: 0 <= i < MAX_TEXTURES ==> At(st', u, i) == At(st, u, i)
    requires st'.dead == st.dead && st'.deleted == st.deleted && st'.next == st.next
    requires forall u :: u in st'.surfaces ==> 1 <= st'.surfaces[u].count <= MAX_TEXTURES
    ensures Inv(st')
  {
    forall t ensures InSlot(st', t) <==> InSlot(st, t) {
      if InSlot(st, t) {
        var u, i :| 0 <= i < MAX_TEXTURES && At(st, u, i) == t;
        assert At(st', u, i) == t;
      }
      if InSlot(st', t) {
        var u, i :| 0 <= i < MAX_TEXTURES && At(st', u, i) == t;
        assert At(st, u, i) == t;
      }
    }
    hide InSlot, At;
  }

  lemma ProcessDeadOk(st: State)
    requires Inv(st)
    ensures Inv(DoProcessDead(st))
  {
    var st', drained := DoProcessDead(st), Reverse(st.dead);
    SameSlots(st, st');
    ReverseMembers(st.dead);
    assert forall t :: t in st'.deleted <==> t in st.deleted || t in st.dead;
    forall i, j | 0 <= i < j < |st'.deleted| ensures st'.deleted[i] != st'.deleted[j] {
      assert j >= |st.deleted| ==> st'.deleted[j] == drained[j - |st.deleted|] && st'.deleted[j] in drained;
      assert i >= |st.deleted| ==> st'.deleted[i] == drained[i - |st.deleted|];
    }
  }

  lemma StepKeepsInv(st: State, op: Op)
    requires Inv(st)
    ensures Inv(Step(st, op))
  {
    match op
    case CreateSurface(s) => if s !in st.surfaces { EmptySurface(st, Step(st, op), s); }
    case NewImage(s, i, now) => if s in st.surfaces && 0 <= i < MAX_TEXTURES { RetireOk(st, s, i, now); }
    case Use(s, count) => if s in st.surfaces && 1 <= count <= MAX_TEXTURES { EmptySurface(st, Step(st, op), s); }
    case Render(s, renew) => if s in st.surfaces { RenderOk(st, s, renew); }
    case Flush(s) => if s in st.surfaces { FlushOk(st, s); }
    case DestroySurface(s) =>
      if s in st.surfaces {
        FlushOk(st, s);
        hide DoFlush;
        EmptySurface(DoFlush(st, s), Step(st, op), s);
      }
    case ProcessDead => ProcessDeadOk(st);
  }

  ghost function Run(ops: seq<Op>): (st: State)
    ensures Inv(st)
  {
    if ops == [] then Start()
    else
      var before := Run(ops[..|ops| - 1]);
      StepKeepsInv(before, ops[|ops| - 1]);
      Step(before, ops[|ops| - 1])
  }

  // ------------------------------------------------------------------ what every run satisfies

  /** Every generated texture is in exactly one place: one slot of one surface, the list of the dead, or
      deleted; and it is deleted at most once. */
  lemma TextureInOnePlace(ops: seq<Op>, t: Texture)
    requires 0 < t < Run(ops).next
    ensures var st := Run(ops);
      && (InSlot(st, t) || t in st.dead || t in st.deleted)
      && !(InSlot(st, t) && t in st.dead) && !(InSlot(st, t) && t in st.deleted) && !(t in st.dead && t in st.deleted)
      && (forall s, i, u, j :: 0 <= i < MAX_TEXTURES && 0 <= j < MAX_TEXTURES && At(st, s, i) == At(st, u, j) == t ==> s == u && i == j)
      && Distinct(st.deleted)
  {
    hide Run, InSlot, At;
  }

  /** After the end of a frame the textures not deleted yet are exactly those in slots; so if all
      surfaces have gone, every texture ever generated has been deleted. */
  lemma FrameLeavesOnlySlots(ops: seq<Op>, t: Texture)
    ensures var st := Step(Run(ops), ProcessDead);
      && (0 < t < st.next && t !in st.deleted <==> InSlot(st, t))
      && (st.surfaces == map[] ==> (0 < t < st.next <==> t in st.deleted))
  {
    var st := Step(Run(ops), ProcessDead);
    StepKeepsInv(Run(ops), ProcessDead);
    hide Run;
    assert st.dead == [];
    if st.surfaces == map[] {
      assert !InSlot(st, t);
    }
    hide InSlot;
  }

  /** A deleted texture stays deleted, and is never given out or put in a slot again. */
  lemma DeletedForGood(ops: seq<Op>, op: Op, t: Texture)
    requires t in Run(ops).deleted
    ensures t in Step(Run(ops), op).deleted && !InSlot(Step(Run(ops), op), t)
  {
    var st := Run(ops);
    StepKeepsInv(st, op);
    DeletedGrows(st, op);
    hide Run, Step, InSlot;
    assert t in Step(st, op).deleted;
  }

  lemma DeletedGrows(st: State, op: Op)
    ensures st.deleted <= Step(st, op).deleted
  {
  }

  // ------------------------------------------------------------------ what a step does

  /** Does the step empty the slot?  A new image does, a flush, and the end of the surface. */
  predicate Empties(op: Op, s: SurfaceId, i: int) {
    (op.NewImage? && op.s == s && op.i == i) || op == Flush(s) || op == DestroySurface(s)
  }

  /** Does it look for textures to fill the surface with?  Rendering does, if the first slot is empty or what
      it shows is to be renewed. */
  predicate Fills(st: State, op: Op, s: SurfaceId) {
    op.Render? && op.s == s && s in st.surfaces && (At(st, s, 0) == 0 || op.renew)
  }

  /** What every step makes of every slot: emptied, filled with a new texture if it is in use and empty, or
      left alone. */
  lemma SlotsAfter(st: State, op: Op, s: SurfaceId, i: int)
    requires Inv(st) && 0 <= i < 2
    ensures var st' := Step(st, op);
      && (s in st'.surfaces <==> (s in st.surfaces && op != DestroySurface(s)) || op == CreateSurface(s))
      && (if Empties(op, s, i) then At(st', s, i) == 0
          else if Fills(st, op, s) && i < st.surfaces[s].count && At(st, s, i) == 0
          then st.next <= At(st', s, i) < st'.next
          else At(st', s, i) == At(st, s, i))
      && (s in st.surfaces && s in st'.surfaces ==>
            st'.surfaces[s].count == if op.Use? && op.s == s && 1 <= op.count <= 2 then op.count else st.surfaces[s].count)
  {
  }

  /** Where textures go that leave their slot: deleted at once if a new image asks for that, else dead; and
      at the end of a frame every dead one is deleted. */
  lemma GoneAfter(st: State, op: Op, t: Texture)
    requires Inv(st)
    ensures var st' := Step(st, op);
      && (t in st'.deleted <==>
            || t in st.deleted
            || (op.ProcessDead? && t in st.dead)
            || (op.NewImage? && op.now && 0 <= op.i < 2 && t != 0 && At(st, op.s, op.i) == t))
      && (t in st'.dead <==>
            || (t in st.dead && !op.ProcessDead?)
            || (op.NewImage? && !op.now && 0 <= op.i < 2 && t != 0 && At(st, op.s, op.i) == t)
            || ((op.Flush? || op.DestroySurface?) && t != 0 && (At(st, op.s, 0) == t || At(st, op.s, 1) == t)))
  {
    ReverseMembers(st.dead);
    hide Reverse, Inv;
  }

  // ------------------------------------------------------------------ the renderer

  class Renderer {
    var surfaces: map<SurfaceId, Slots>
    var deadTextures: seq<Texture>
    var deleted: seq<Texture>
    var next: Texture

    function View(): State
      reads this
    {
      State(surfaces, deadTextures, deleted, next)
    }

    constructor ()
      ensures View() == Start()
    {
      surfaces, deadTextures, deleted, next := map[], [], [], 1;
    }

    /** wstRendererDeleteTexture */
    method DeleteTexture(t: Texture)
      modifies this`deadTextures
      ensures deadTextures == old(deadTextures) + [t]
    {
      deadTextures := deadTextures + [t];
    }

    /** A new image for a slot: as in wstRendererEMBPrepareResource and the other commit functions. */
    method NewImage(s: SurfaceId, i: int, now: bool)
      requires s in surfaces && 0 <= i < MAX_TEXTURES
      modifies this
      ensures View() == Retire(old(View()), s, i, now)
    {
      var t := surfaces[s].Id(i);
      if t != GL_NONE {
        if now {
          deleted := deleted + [t];
        } else {
          DeleteTexture(t);
        }
        surfaces := surfaces[s := surfaces[s].With(i, GL_NONE)];
      }
    }

    /** wstRendererEMBFlushSurface */
    method FlushSurface(s: SurfaceId)
      requires s in surfaces
      modifies this`surfaces, this`deadTextures
      ensures View() == DoFlush(old(View()), s)
    {
      ghost var before := View();
      for i := 0 to MAX_TEXTURES
        invariant s in surfaces
        invariant View() == if i == 0 then before else if i == 1 then Retire(before, s, 0, false) else DoFlush(before, s)
      {
        if surfaces[s].Id(i) != GL_NONE {
          DeleteTexture(surfaces[s].Id(i));
          surfaces := surfaces[s := surfaces[s].With(i, GL_NONE)];
        }
      }
    }

    /** wstRendererEMBDestroySurface, after the surface has been taken off the list */
    method DestroySurface(s: SurfaceId)
      requires s in surfaces
      modifies this`surfaces, this`deadTextures
      ensures View() == Step(old(View()), Op.DestroySurface(s))
    {
      FlushSurface(s);
      surfaces := surfaces - {s};
    }

    /** The part of wstRendererEMBRenderSurface that generates textures. */
    method RenderSurface(s: SurfaceId, renew: bool)
      requires s in surfaces && 1 <= surfaces[s].count <= MAX_TEXTURES
      modifies this`surfaces, this`next
      ensures View() == DoRender(old(View()), s, renew)
    {
      ghost var before := View();
      if surfaces[s].first == GL_NONE || renew {
        var textureCount := surfaces[s].count;
        for i := 0 to textureCount
          invariant s in surfaces
          invariant View() == if i == 0 then before else if i == 1 then Fill(before, s, 0) else Fill(Fill(before, s, 0), s, 1)
        {
          if surfaces[s].Id(i) == GL_NONE {
            surfaces := surfaces[s := surfaces[s].With(i, next)];
            next := next + 1;
          }
        }
      }
    }

    /** wstRendererProcessDeadTextures: a loop from the last index down, popping the back each time. */
    method ProcessDeadTextures()
      modifies this`deadTextures, this`deleted
      ensures View() == DoProcessDead(old(View()))
    {
      ghost var dead := deadTextures;
      var i := |deadTextures| - 1;
      while i >= 0
        invariant -1 <= i < |dead| && deadTextures == dead[..i + 1]
        invariant deleted == old(deleted) + Reverse(dead[i + 1..])
      {
        assert dead[i..] == [dead[i]] + dead[i + 1..];
        assert Reverse(dead[i..]) == Reverse(dead[i + 1..]) + [dead[i]];
        deleted := deleted + [deadTextures[i]];
        deadTextures := deadTextures[..|deadTextures| - 1];
        i := i - 1;
      }
      assert dead[0..] == dead;
    }

    /** Whatever the renderer is asked to do, it does what Step says and keeps every texture in one place. */
    method Handle(op: Op)
      requires Inv(View())
      modifies this
      ensures View() == Step(old(View()), op) && Inv(View())
    {
      StepKeepsInv(View(), op);
      hide Single, Partition, DoRender, Retire, DoFlush, DoProcessDead;
      match op
      case CreateSurface(s) => if s !in surfaces { surfaces := surfaces[s := Slots(GL_NONE, GL_NONE, 1)]; }
      case NewImage(s, i, now) => if s in surfaces && 0 <= i < MAX_TEXTURES { NewImage(s, i, now); }
      case Use(s, count) =>
        if s in surfaces && 1 <= count <= MAX_TEXTURES {
          surfaces := surfaces[s := surfaces[s].(count := count)];
        }
      case Render(s, renew) => if s in surfaces { RenderSurface(s, renew); }
      case Flush(s) => if s in surfaces { FlushSurface(s); }
      case DestroySurface(s) => if s in surfaces { DestroySurface(s); }
      case ProcessDead => ProcessDeadTextures();
    }
  }
}
