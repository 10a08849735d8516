/**
 * The parameters of a dmabuf (linux-dmabuf/westeros-linux-dmabuf.cpp, interface
 * zwp_linux_buffer_params_v1): planes are added one by one, each with a file descriptor, create turns
 * them into a buffer, and destroying closes descriptors.
 */
module Dmabuf {
  const MAX_PLANES := 4

  const MOD_INVALID: bv64 := 0x00FF_FFFF_FFFF_FFFF

  const MODIFIER_SINCE_VERSION := 3

  datatype Error = NoError | AlreadyUsed | PlaneIdx | PlaneSet | InvalidDimensions | Incomplete

  /** Whose the planes are: the params', the buffer's, or nobody's since they were destroyed.  A
      rejected create destroys them and ends the client, so nothing follows it. */
  datatype Owner = ParamsResource | BufferResource | Nobody

  datatype State = State(
    owner: Owner,
    fd: seq<int>,             // one slot per plane; -1 is free
    planeCount: int,
    given: seq<int>,          // every descriptor that came with a request, in order
    closed: seq<int>)         // every descriptor closed, in order

  datatype Op =
    | Add(fd: nat, plane: nat)      // libwayland hands over real descriptors only
    | Create(width: int, height: int)
    | DestroyParams
    | DestroyBuffer

  function Start(): State {
    State(ParamsResource, seq(MAX_PLANES, _ => -1), 0, [], [])
  }

  // ------------------------------------------------------------------ requests

  function CloseOne(closed: seq<int>, fd: int): seq<int> {
    if fd >= 0 then closed + [fd] else closed
  }

  function AddError(st: State, plane: nat): Error
    requires |st.fd| == MAX_PLANES
  {
    if st.owner != ParamsResource then AlreadyUsed
    else if plane >= MAX_PLANES then PlaneIdx
    else if st.fd[plane] != -1 then PlaneSet
    else NoError
  }

  function DoAdd(st: State, fd: int, plane: nat): State
    requires |st.fd| == MAX_PLANES
  {
    var st' := st.(given := st.given + [fd]);
    if AddError(st, plane) == NoError then st'.(fd := st.fd[plane := fd], planeCount := st.planeCount + 1)
    else st'.(closed := CloseOne(st.closed, fd))
  }

  datatype Slots = Slots(fd: seq<int>, closed: seq<int>)

  /** The first n slots, closed in order and marked free. */
  function CloseSlots(fd: seq<int>, closed: seq<int>, n: nat): (r: Slots)
    requires n <= |fd|
    ensures |r.fd| == |fd|
  {
    if n == 0 then Slots(fd, closed)
    else
      var r := CloseSlots(fd, closed, n - 1);
      Slots(r.fd[n - 1 := -1], CloseOne(r.closed, r.fd[n - 1]))
  }

  /** wstLDBBufferDestroy: only the slots below planeCount. */
  function DoDestroy(st: State): State
    requires 0 <= st.planeCount <= |st.fd|
  {
    var r := CloseSlots(st.fd, st.closed, st.planeCount);
    State(Nobody, r.fd, 0, st.given, r.closed)
  }

  function CreateError(st: State, width: int, height: int): Error
    requires st.planeCount <= |st.fd|
  {
    if st.owner != ParamsResource then AlreadyUsed
    else if width < 0 || height < 0 then InvalidDimensions
    else if st.planeCount == 0 then Incomplete
    else if exists i :: 0 <= i < st.planeCount && st.fd[i] == -1 then Incomplete
    else NoError
  }

  function DoCreate(st: State, width: int, height: int): State
    requires 0 <= st.planeCount <= |st.fd|
  {
    match CreateError(st, width, height)
    case NoError => st.(owner := BufferResource)
    case AlreadyUsed => st
    case _ => DoDestroy(st)
  }

  function Step(st: State, op: Op): State
    requires |st.fd| == MAX_PLANES && 0 <= st.planeCount <= MAX_PLANES
  {
    if st.owner == Nobody then st
    else match op
    case Add(fd, plane) => DoAdd(st, fd, plane)
    case Create(width, height) => DoCreate(st, width, height)
    case DestroyParams => if st.owner == ParamsResource then DoDestroy(st) else st
    case DestroyBuffer => if st.owner == BufferResource then DoDestroy(st) else st
  }

  // ------------------------------------------------------------------ planes

  function Assigned(fd: seq<int>): set<int> {
    set i | 0 <= i < |fd| && fd[i] != -1
  }

  function Below(n: nat): (r: set<int>)
    ensures forall i :: i in r <==> 0 <= i < n
    ensures |r| == n
  {
    if n == 0 then {} else Below(n - 1) + {n - 1}
  }

  lemma SubsetSize(a: set<int>, b: set<int>)
    requires a <= b
    ensures |a| <= |b|
    ensures |a| == |b| ==> a == b
  {
    assert b == a + (b - a);
  }

  lemma AssignedBounded(fd: seq<int>)
    ensures |Assigned(fd)| <= |fd|
  {
    SubsetSize(Assigned(fd), Below(|fd|));
  }

  /** By the pigeonhole principle: if as many planes are assigned as are counted, then none is missing
      below the count exactly when the assigned planes are those below the count. */
  lemma NoneMissingIffPrefix(fd: seq<int>, n: nat)
    requires |Assigned(fd)| == n && n <= |fd|
    ensures (forall i :: 0 <= i < n ==> fd[i] != -1) <==> Assigned(fd) == Below(n)
  {
    if forall i :: 0 <= i < n ==> fd[i] != -1 {
      SubsetSize(Below(n), Assigned(fd));
    } else {
      var i :| 0 <= i < n && fd[i] == -1;
      assert i in Below(n) && i !in Assigned(fd);
    }
  }

  lemma AssignOne(fd: seq<int>, plane: nat, x: int)
    requires plane < |fd| && fd[plane] == -1 && x != -1
    ensures |Assigned(fd[plane := x])| == |Assigned(fd)| + 1
  {
    assert Assigned(fd[plane := x]) == Assigned(fd) + {plane};
  }

  /** planeCount keeps step with the assigned planes exactly if the descriptor added is not the mark of
      a free slot. */
  lemma CountKeptIff(st: State, fd: int, plane: nat)
    requires |st.fd| == MAX_PLANES && AddError(st, plane) == NoError && st.planeCount == |Assigned(st.fd)|
    ensures var st' := DoAdd(st, fd, plane); st'.planeCount == |Assigned(st'.fd)| <==> fd != -1
  {
    if fd != -1 {
      AssignOne(st.fd, plane, fd);
    } else {
      assert st.fd[plane := fd] == st.fd;
    }
  }

  // ------------------------------------------------------------------ descriptors

  predicate Clean(fd: seq<int>) {
    forall i :: 0 <= i < |fd| ==> fd[i] >= -1
  }

  /** Each descriptor given is in a slot or was closed, as often as it was given. */
  ghost predicate Conserved(given: seq<int>, closed: seq<int>, fd: seq<int>) {
    forall x :: x != -1 ==> multiset(given)[x] == multiset(closed)[x] + multiset(fd)[x]
  }

  lemma {:induction false} CloseSlotsAt(fd: seq<int>, closed: seq<int>, n: nat, i: nat)
    requires n <= |fd| && i < |fd|
    ensures CloseSlots(fd, closed, n).fd[i] == if i < n then -1 else fd[i]
  {
    if n > 0 {
      CloseSlotsAt(fd, closed, n - 1, i);
    }
  }

  lemma CloseSlotsShape(fd: seq<int>, closed: seq<int>, n: nat)
    requires n <= |fd|
    ensures forall i :: 0 <= i < |fd| ==> CloseSlots(fd, closed, n).fd[i] == if i < n then -1 else fd[i]
  {
    forall i | 0 <= i < |fd| ensures CloseSlots(fd, closed, n).fd[i] == if i < n then -1 else fd[i] {
      CloseSlotsAt(fd, closed, n, i);
    }
  }

  /** Closing slots loses no descriptor: each goes from its slot to the closed ones. */
  lemma {:induction false} CloseSlotsKeeps(fd: seq<int>, closed: seq<int>, n: nat, x: int)
    requires n <= |fd| && Clean(fd) && x != -1
    ensures var r := CloseSlots(fd, closed, n);
      multiset(r.closed)[x] + multiset(r.fd)[x] == multiset(closed)[x] + multiset(fd)[x]
  {
    assert n > 0 ==> fd[n - 1] >= -1;
    hide Clean, CloseOne;
    if n > 0 {
      CloseSlotsKeeps(fd, closed, n - 1, x);
      CloseSlotsAt(fd, closed, n - 1, n - 1);
      var r := CloseSlots(fd, closed, n - 1);
      CloseLast(r.fd, r.closed, n - 1, x);
    }
  }

  lemma CloseLast(fd: seq<int>, closed: seq<int>, i: nat, x: int)
    requires i < |fd| && fd[i] >= -1 && x != -1
    ensures multiset(CloseOne(closed, fd[i]))[x] + multiset(fd[i := -1])[x] == multiset(closed)[x] + multiset(fd)[x]
  {
    assert multiset(fd[i := -1]) == multiset(fd) - multiset{fd[i]} + multiset{-1};
    assert fd[i] in multiset(fd);
  }

  lemma FillOne(fd: seq<int>, plane: nat, name: int, x: int)
    requires plane < |fd| && fd[plane] == -1 && x != -1
    ensures multiset(fd[plane := name])[x] == multiset(fd)[x] + if x == name then 1 else 0
  {
    assert multiset(fd[plane := name]) == multiset(fd) - multiset{-1} + multiset{name};
  }

  // ------------------------------------------------------------------ every run

  ghost predicate Inv(st: State) {
    && |st.fd| == MAX_PLANES && Clean(st.fd) && 0 <= st.planeCount <= MAX_PLANES
    && (st.owner != Nobody ==> st.planeCount == |Assigned(st.fd)|)
    && (st.owner == BufferResource ==> st.planeCount > 0 && Assigned(st.fd) == Below(st.planeCount))
    && Conserved(st.given, st.closed, st.fd)
  }

  lemma StartInv()
    ensures Inv(Start())
  {
    assert Assigned(Start().fd) == {};
    assert forall x :: x != -1 ==> x !in Start().fd;
  }

  lemma DestroyInv(st: State)
    requires Inv(st) && st.owner != Nobody
    ensures Inv(DoDestroy(st)) && DoDestroy(st).owner == Nobody
  {
    var st' := DoDestroy(st);
    CloseSlotsShape(st.fd, st.closed, st.planeCount);
    hide Assigned, Below;
    assert Clean(st'.fd);
    hide Clean, CloseSlots;
    forall x | x != -1 ensures multiset(st'.given)[x] == multiset(st'.closed)[x] + multiset(st'.fd)[x] {
      CloseSlotsKeeps(st.fd, st.closed, st.planeCount, x);
    }
  }

  lemma AddInv(st: State, fd: int, plane: nat)
    requires Inv(st) && fd >= 0
    ensures Inv(DoAdd(st, fd, plane))
  {
    if AddError(st, plane) == NoError {
      AssignOne(st.fd, plane, fd);
      forall x | x != -1 ensures multiset(st.fd[plane := fd])[x] == multiset(st.fd)[x] + if x == fd then 1 else 0 {
        FillOne(st.fd, plane, fd, x);
      }
      AssignedBounded(st.fd[plane := fd]);
    }
  }

  lemma StepKeepsInv(st: State, op: Op)
    requires Inv(st)
    ensures Inv(Step(st, op))
  {
    if st.owner != Nobody {
      DestroyInv(st);
      match op
      case Add(fd, plane) => AddInv(st, fd, plane);
      case Create(width, height) => NoneMissingIffPrefix(st.fd, st.planeCount);
      case _ =>
    }
  }

  /** Every run of requests, from wstILDBCreateParams on. */
  ghost function Run(ops: seq<Op>): (st: State)
    ensures Inv(st)
  {
    if ops == [] then
      StartInv();
      Start()
    else
      var before := Run(ops[..|ops| - 1]);
      StepKeepsInv(before, ops[|ops| - 1]);
      Step(before, ops[|ops| - 1])
  }

  lemma RunPush(ops: seq<Op>, op: Op)
    ensures Run(ops + [op]) == Step(Run(ops), op)
  {
    assert (ops + [op])[..|ops|] == ops;
  }

  /** planeCount is the number of assigned planes, and create succeeds exactly when the dimensions are
      not negative and the assigned planes are 0 up to some count, at least one. */
  lemma CreateSucceedsIff(ops: seq<Op>, width: int, height: int)
    ensures var st := Run(ops);
      st.owner == ParamsResource ==>
        && st.planeCount == |Assigned(st.fd)| <= |st.fd|
        && (CreateError(st, width, height) == NoError <==>
              width >= 0 && height >= 0 && exists n: nat {:trigger Below(n)} :: n > 0 && Assigned(st.fd) == Below(n))
  {
    var st := Run(ops);
    hide Run;
    if st.owner == ParamsResource {
      NoneMissingIffPrefix(st.fd, st.planeCount);
      if st.planeCount > 0 && Assigned(st.fd) == Below(st.planeCount) {
        assert exists n: nat {:trigger Below(n)} :: n > 0 && Assigned(st.fd) == Below(n);
      }
    }
  }

  /** No descriptor is ever lost sight of, or closed twice: each one given is in a slot or was closed,
      as often as it was given. */
  lemma DescriptorsConserved(ops: seq<Op>, x: nat)
    ensures var st := Run(ops);
      multiset(st.given)[x] == multiset(st.closed)[x] + multiset(st.fd)[x]
  {
    assert Conserved(Run(ops).given, Run(ops).closed, Run(ops).fd);
    hide Run;
  }

  lemma NothingLeftIff(st: State)
    requires Inv(st) && st.owner != Nobody
    ensures Assigned(DoDestroy(st).fd) == {} <==> Assigned(st.fd) == Below(st.planeCount)
  {
    var fd' := DoDestroy(st).fd;
    CloseSlotsShape(st.fd, st.closed, st.planeCount);
    if Assigned(fd') == {} {
      forall i | i in Assigned(st.fd) ensures i in Below(st.planeCount) {
        assert i !in Assigned(fd');
      }
      SubsetSize(Assigned(st.fd), Below(st.planeCount));
    } else {
      var i :| i in Assigned(fd');
      assert i in Assigned(st.fd) && i !in Below(st.planeCount);
    }
  }

  lemma ClosesAllIff(st: State)
    requires Inv(st) && st.owner != Nobody
    ensures (forall x :: x >= 0 ==> multiset(DoDestroy(st).closed)[x] == multiset(st.given)[x])
      <==> Assigned(st.fd) == Below(st.planeCount)
  {
    var st' := DoDestroy(st);
    NothingLeftIff(st);
    DestroyInv(st);
    hide DoDestroy, CloseSlots;
    if Assigned(st'.fd) != {} {
      var i :| i in Assigned(st'.fd);
      assert st'.fd[i] in multiset(st'.fd);
      assert multiset(st'.given)[st'.fd[i]] > multiset(st'.closed)[st'.fd[i]];
    } else {
      forall i | 0 <= i < |st'.fd| ensures st'.fd[i] == -1 {
        assert i !in Assigned(st'.fd);
      }
      assert forall x :: x >= 0 ==> x !in st'.fd;
    }
  }

  /** Destroying closes everything that was given, each descriptor as often as it was given, exactly
      when the assigned planes are those below planeCount; otherwise those above it stay open. */
  lemma DestroyClosesAllIff(ops: seq<Op>)
    ensures var st := Run(ops);
      st.owner != Nobody ==>
        ((forall x :: x >= 0 ==> multiset(DoDestroy(st).closed)[x] == multiset(st.given)[x])
         <==> Assigned(st.fd) == Below(st.planeCount))
  {
    var st := Run(ops);
    hide Inv, Run, DoDestroy;
    if st.owner != Nobody {
      ClosesAllIff(st);
    }
  }

  /** Destroying a created buffer closes every descriptor it was given, each exactly as often as given. */
  lemma CreatedBufferClosesAll(ops: seq<Op>)
    ensures var st, st' := Run(ops), Step(Run(ops), DestroyBuffer);
      st.owner == BufferResource ==>
        && st'.owner == Nobody && Assigned(st'.fd) == {}
        && forall x :: x >= 0 ==> multiset(st'.closed)[x] == multiset(st.given)[x]
  {
    var st := Run(ops);
    hide Run, CloseSlots;
    if st.owner == BufferResource {
      ClosesAllIff(st);
      NothingLeftIff(st);
    }
  }

  /** A plane assigned out of order stays open when the params are destroyed before create. */
  lemma SparsePlaneStaysOpen(fd: int)
    requires fd >= 0
    ensures var st := Run([Add(fd, 1), DestroyParams]);
      st.owner == Nobody && st.fd[1] == fd && st.closed == []
  {
    var add := Add(fd, 1);
    RunPush([], add);
    RunPush([add], DestroyParams);
    assert [] + [add] == [add] && [add] + [DestroyParams] == [add, DestroyParams];
    FirstSteps(fd);
    AddSecond(fd);
    CloseFirst(fd);
    hide *;
  }

  lemma FirstSteps(fd: int)
    requires fd >= 0
    ensures Run([]) == Start()
    ensures Step(Start(), Add(fd, 1)) == DoAdd(Start(), fd, 1)
    ensures var st := State(ParamsResource, [-1, fd, -1, -1], 1, [fd], []); Step(st, DestroyParams) == DoDestroy(st)
  {
    hide DoAdd, DoDestroy, Inv;
  }

  lemma AddSecond(fd: int)
    requires fd >= 0
    ensures DoAdd(Start(), fd, 1) == State(ParamsResource, [-1, fd, -1, -1], 1, [fd], [])
  {
    assert seq(MAX_PLANES, _ => -1) == [-1, -1, -1, -1];
  }

  lemma CloseFirst(fd: int)
    ensures DoDestroy(State(ParamsResource, [-1, fd, -1, -1], 1, [fd], [])) == State(Nobody, [-1, fd, -1, -1], 0, [fd], [])
  {
    var slots := [-1, fd, -1, -1];
    assert CloseSlots(slots, [], 0) == Slots(slots, []);
    assert slots[0 := -1] == slots;
  }

  // ------------------------------------------------------------------ what a request does

  /** Adding: the descriptor of a free plane 0 to 3 is kept there, before create; any other one is closed,
      and the error says why. */
  lemma AddAfter(ops: seq<Op>, fd: nat, plane: nat)
    ensures var st, st' := Run(ops), Step(Run(ops), Add(fd, plane));
      st.owner != Nobody ==>
        var error := AddError(st, plane);
        && (error == AlreadyUsed <==> st.owner == BufferResource)
        && (error == PlaneIdx <==> st.owner == ParamsResource && plane > 3)
        && (error == PlaneSet <==> st.owner == ParamsResource && plane <= 3 && st.fd[plane] != -1)
        && (error == NoError <==> st.owner == ParamsResource && plane <= 3 && st.fd[plane] == -1)
        && st'.owner == st.owner && st'.given == st.given + [fd]
        && (error == NoError ==> st'.fd == st.fd[plane := fd] && st'.closed == st.closed)
        && (error != NoError ==> st'.fd == st.fd && st'.closed == st.closed + [fd])
  {
    hide Run;
  }

  /** Create: what is accepted belongs to the buffer; a refusal says why, and ends the params unless they were
      used up already. */
  lemma CreateAfter(ops: seq<Op>, width: int, height: int)
    ensures var st, st' := Run(ops), Step(Run(ops), Create(width, height));
      st.owner != Nobody ==>
        var error := CreateError(st, width, height);
        && (error == AlreadyUsed <==> st.owner == BufferResource)
        && (error == InvalidDimensions <==> st.owner == ParamsResource && (width < 0 || height < 0))
        && error != PlaneIdx && error != PlaneSet
        && (error == NoError ==> st' == st.(owner := BufferResource))
        && (error == AlreadyUsed ==> st' == st)
        && (error == InvalidDimensions || error == Incomplete ==> st'.owner == Nobody)
  {
    hide Run, CloseSlots;
  }

  // ------------------------------------------------------------------ modifiers

  /** The format modifier of a plane; clients of old versions cannot give one. */
  function PlaneModifier(version: int, hi: bv32, lo: bv32): bv64 {
    if version < MODIFIER_SINCE_VERSION then MOD_INVALID else ((hi as bv64) << 32) | (lo as bv64)
  }

  /** From version 3 on both halves can be read back from the modifier; before, it is the invalid one. */
  lemma ModifierKeepsHalves(version: int, hi: bv32, lo: bv32)
    ensures var m := PlaneModifier(version, hi, lo);
      if version >= 3 then m >> 32 == hi as bv64 && m & 0xFFFF_FFFF == lo as bv64 else m == 0x00FF_FFFF_FFFF_FFFF
  {
  }

  // ------------------------------------------------------------------ the buffer object

  class LdbBuffer {
    const fd: array<int>
    const offset: array<bv32>
    const stride: array<bv32>
    const modifier: array<bv64>
    var planeCount: int
    var width: int
    var height: int
    var owner: Owner
    ghost var given: seq<int>
    var closed: seq<int>

    ghost function View(): State
      reads this, fd
    {
      State(owner, fd[..], planeCount, given, closed)
    }

    /** Four separate arrays of the right length. */
    ghost predicate Laid() {
      && fd.Length == offset.Length == stride.Length == modifier.Length == MAX_PLANES
      && offset != stride && fd as object != offset && fd as object != stride && fd as object != modifier
      && offset as object != modifier && stride as object != modifier
    }

    ghost predicate Valid()
      reads this, fd
    {
      Laid() && Inv(View())
    }

    /** wstILDBCreateParams */
    constructor ()
      ensures Valid() && View() == Start() && fresh(fd) && fresh(offset) && fresh(stride) && fresh(modifier)
      ensures forall i :: 0 <= i < MAX_PLANES ==> modifier[i] == MOD_INVALID
    {
      var fds := new int[MAX_PLANES](_ => -1);
      fd := fds;
      offset, stride := new bv32[MAX_PLANES](_ => 0), new bv32[MAX_PLANES](_ => 0);
      modifier := new bv64[MAX_PLANES](_ => MOD_INVALID);
      planeCount, width, height, owner, given, closed := 0, 0, 0, ParamsResource, [], [];
      new;
      assert fd[..] == Start().fd;
      StartInv();
    }

    method Close(name: int)
      modifies this`closed
      ensures closed == CloseOne(old(closed), name)
    {
      if name >= 0 {
        closed := closed + [name];
      }
    }

    /** The plane takes the descriptor and what comes with it. */
    method Fill(name: int, plane: nat, planeOffset: bv32, planeStride: bv32, planeModifier: bv64)
      requires Laid() && plane < MAX_PLANES
      modifies this`planeCount, fd, offset, stride, modifier
      ensures View() == old(View()).(fd := old(View()).fd[plane := name], planeCount := old(planeCount) + 1)
      ensures offset[plane] == planeOffset && stride[plane] == planeStride && modifier[plane] == planeModifier
      ensures forall i :: 0 <= i < MAX_PLANES && i != plane ==>
        offset[i] == old(offset[i]) && stride[i] == old(stride[i]) && modifier[i] == old(modifier[i])
    {
      fd[plane] := name;
      offset[plane] := planeOffset;
      stride[plane] := planeStride;
      modifier[plane] := planeModifier;
      planeCount := planeCount + 1;
    }

    /** The checks of wstILDBParamsAdd, in order. */
    method Refusal(plane: nat) returns (error: Error)
      requires Laid()
      ensures error == AddError(View(), plane)
    {
      if owner != ParamsResource {
        return AlreadyUsed;
      }
      if plane >= MAX_PLANES {
        return PlaneIdx;
      }
      if fd[plane] != -1 {
        return PlaneSet;
      }
      return NoError;
    }

    /** wstILDBParamsAdd; the planes stay in order for every real descriptor. */
    method Add(version: int, name: int, plane: nat, planeOffset: bv32, planeStride: bv32, hi: bv32, lo: bv32)
      returns (error: Error)
      requires Valid() && owner != Nobody
      modifies this, fd, offset, stride, modifier
      ensures Laid() && error == AddError(old(View()), plane)
      ensures View() == DoAdd(old(View()), name, plane)
      ensures name >= 0 ==> Valid()
      ensures error == NoError ==>
        offset[plane] == planeOffset && stride[plane] == planeStride && modifier[plane] == PlaneModifier(version, hi, lo)
      ensures forall i :: 0 <= i < MAX_PLANES && (i != plane || error != NoError) ==>
        offset[i] == old(offset[i]) && stride[i] == old(stride[i]) && modifier[i] == old(modifier[i])
    {
      ghost var st := View();
      assert Laid() && Inv(st) && |st.fd| == MAX_PLANES;
      hide *;
      error := Take(version, name, plane, planeOffset, planeStride, hi, lo);
      if name >= 0 {
        AddInv(st, name, plane);
      }
      NowValid(st, name, plane);
    }

    lemma NowValid(st: State, name: int, plane: nat)
      requires Laid() && |st.fd| == MAX_PLANES && View() == DoAdd(st, name, plane) && (name >= 0 ==> Inv(DoAdd(st, name, plane)))
      ensures name >= 0 ==> Valid()
    {
    }

    method Take(version: int, name: int, plane: nat, planeOffset: bv32, planeStride: bv32, hi: bv32, lo: bv32)
      returns (error: Error)
      requires Laid()
      modifies this, fd, offset, stride, modifier
      ensures error == AddError(old(View()), plane) && View() == DoAdd(old(View()), name, plane)
      ensures error == NoError ==>
        offset[plane] == planeOffset && stride[plane] == planeStride && modifier[plane] == PlaneModifier(version, hi, lo)
      ensures forall i :: 0 <= i < MAX_PLANES && (i != plane || error != NoError) ==>
        offset[i] == old(offset[i]) && stride[i] == old(stride[i]) && modifier[i] == old(modifier[i])
    {
      hide PlaneModifier, CloseOne;
      error := Refusal(plane);
      hide AddError;
      if error != NoError {
        Close(name);
      } else {
        Fill(name, plane, planeOffset, planeStride, PlaneModifier(version, hi, lo));
      }
      given := given + [name];
    }

    /** wstLDBBufferDestroy */
    method Destroy()
      requires Valid() && owner != Nobody
      modifies this, fd
      ensures Valid() && View() == DoDestroy(old(View()))
    {
      DestroyInv(View());
      hide Inv;
      ghost var before := fd[..];
      for i := 0 to planeCount
        invariant Slots(fd[..], closed) == CloseSlots(before, old(closed), i)
        invariant planeCount == old(planeCount) && given == old(given)
      {
        Close(fd[i]);
        fd[i] := -1;
      }
      planeCount := 0;
      owner := Nobody;
    }

    /** wstLDBParamsCreate, when the resource for the buffer can be made. */
    method Create(newWidth: int, newHeight: int) returns (error: Error)
      requires Valid() && owner != Nobody
      modifies this, fd
      ensures Valid() && error == CreateError(old(View()), newWidth, newHeight)
      ensures View() == DoCreate(old(View()), newWidth, newHeight)
      ensures error == NoError ==> width == newWidth && height == newHeight
    {
      StepKeepsInv(View(), Op.Create(newWidth, newHeight));
      hide Inv, DoDestroy;
      if owner != ParamsResource {
        return AlreadyUsed;
      }
      if newWidth < 0 || newHeight < 0 {
        Destroy();
        return InvalidDimensions;
      }
      if planeCount == 0 {
        Destroy();
        return Incomplete;
      }
      for i := 0 to planeCount
        invariant forall k :: 0 <= k < i ==> fd[k] != -1
      {
        if fd[i] == -1 {
          assert View().fd[i] == -1;
          Destroy();
          return Incomplete;
        }
      }
      width := newWidth;
      height := newHeight;
      owner := BufferResource;
      return NoError;
    }
  }
}
