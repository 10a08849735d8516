/**
 * Which virtual compositor serves a client (wstGetCompositorFromPid in westeros-compositor.cpp): the
 * one bound to the client's process or to its nearest ancestor, else the master compositor.
 */
module Ancestor {
  import opened Seqs

  type Pid = int

  /** The parent named in the stat file of a process; None if there is no such file, or it ends early. */
  type ProcessTable = Pid -> Ref

  function Next(parent: ProcessTable, pid: Pid): Pid {
    match parent(pid)
    case Some(p) => p
    case None => 1
  }

  /** Going up from a process never goes round in circles before it reaches process 1. */
  ghost predicate WellFounded(parent: ProcessTable, rank: Pid -> nat) {
    forall pid :: Next(parent, pid) != 1 ==> rank(Next(parent, pid)) < rank(pid)
  }

  /** The k-th process upwards. */
  function Up(parent: ProcessTable, pid: Pid, k: nat): Pid {
    if k == 0 then pid else Next(parent, Up(parent, pid, k - 1))
  }

  /** The search gets as far as the k-th process upwards. */
  ghost predicate Within(parent: ProcessTable, pid: Pid, k: nat) {
    forall j: nat :: 0 < j <= k ==> Up(parent, pid, j) != 1
  }

  /** The first virtual compositor in list order whose client is the process. */
  function First(virt: seq<Pid>, pid: Pid): (r: Ref)
    ensures r.None? <==> pid !in virt
    ensures r.Some? ==> 0 <= r.value < |virt| && virt[r.value] == pid && pid !in virt[..r.value]
  {
    if virt == [] then None
    else if First(virt[..|virt| - 1], pid).Some? then
      var r := First(virt[..|virt| - 1], pid);
      assert virt[..|virt| - 1][..r.value] == virt[..r.value];
      r
    else
      assert virt == virt[..|virt| - 1] + [virt[|virt| - 1]];
      if virt[|virt| - 1] == pid then Some(|virt| - 1) else None
  }

  /** Index of the compositor found; None is the master compositor. */
  ghost function Search(parent: ProcessTable, rank: Pid -> nat, virt: seq<Pid>, pid: Pid): Ref
    requires WellFounded(parent, rank)
    decreases rank(pid)
  {
    if First(virt, pid).Some? then First(virt, pid)
    else if Next(parent, pid) == 1 then None
    else Search(parent, rank, virt, Next(parent, pid))
  }

  lemma {:induction false} UpNext(parent: ProcessTable, pid: Pid, k: nat)
    ensures Up(parent, Next(parent, pid), k) == Up(parent, pid, k + 1)
  {
    if k > 0 {
      UpNext(parent, pid, k - 1);
    }
  }

  lemma WithinNext(parent: ProcessTable, pid: Pid, k: nat)
    ensures Within(parent, pid, k + 1) <==> Next(parent, pid) != 1 && Within(parent, Next(parent, pid), k)
  {
    forall j: nat ensures Up(parent, Next(parent, pid), j) == Up(parent, pid, j + 1) {
      UpNext(parent, pid, j);
    }
    assert Up(parent, pid, 1) == Next(parent, pid);
    if Next(parent, pid) != 1 && Within(parent, Next(parent, pid), k) {
      forall j: nat | 0 < j <= k + 1 ensures Up(parent, pid, j) != 1 {
        if j > 1 {
          assert Up(parent, Next(parent, pid), j - 1) != 1;
        }
      }
    }
    if Within(parent, pid, k + 1) {
      forall j: nat | 0 < j <= k ensures Up(parent, Next(parent, pid), j) != 1 {
        assert Up(parent, pid, j + 1) != 1;
      }
    }
  }

  /** The search finds a compositor exactly if one is bound to the client's process or an ancestor below
      process 1, and then it is the first one in list order bound to the nearest of these. */
  lemma {:induction false} FindsNearest(parent: ProcessTable, rank: Pid -> nat, virt: seq<Pid>, pid: Pid, k: nat)
    requires WellFounded(parent, rank)
    requires Within(parent, pid, k) && First(virt, Up(parent, pid, k)).Some?
    requires forall j: nat :: j < k ==> First(virt, Up(parent, pid, j)).None?
    ensures Search(parent, rank, virt, pid) == First(virt, Up(parent, pid, k))
    decreases k
  {
    if k > 0 {
      WithinNext(parent, pid, k - 1);
      forall j: nat ensures Up(parent, Next(parent, pid), j) == Up(parent, pid, j + 1) {
        UpNext(parent, pid, j);
      }
      assert First(virt, Up(parent, pid, 0)).None?;
      FindsNearest(parent, rank, virt, Next(parent, pid), k - 1);
    }
  }

  lemma {:induction false} MasterIff(parent: ProcessTable, rank: Pid -> nat, virt: seq<Pid>, pid: Pid)
    requires WellFounded(parent, rank)
    ensures Search(parent, rank, virt, pid) == None <==>
      forall k: nat :: Within(parent, pid, k) ==> Up(parent, pid, k) !in virt
    decreases rank(pid)
  {
    var next := Next(parent, pid);
    assert Up(parent, pid, 0) == pid && Within(parent, pid, 0);
    if pid !in virt {
      forall k: nat | k > 0 ensures Within(parent, pid, k) <==> next != 1 && Within(parent, next, k - 1)
                            ensures Up(parent, pid, k) == Up(parent, next, k - 1)
      {
        WithinNext(parent, pid, k - 1);
        UpNext(parent, pid, k - 1);
      }
      if next != 1 {
        MasterIff(parent, rank, virt, next);
        forall k: nat
          ensures Within(parent, next, k) ==> Within(parent, pid, k + 1) && Up(parent, pid, k + 1) == Up(parent, next, k)
        {
          WithinNext(parent, pid, k);
          UpNext(parent, pid, k);
        }
      }
    }
  }

  /** A process, its parent as its stat file names it, and so on, none of them process 1 after the first. */
  ghost predicate Chain(parent: ProcessTable, pid: Pid, c: seq<Pid>) {
    && c != [] && c[0] == pid
    && forall i :: 0 < i < |c| ==> parent(c[i - 1]) == Some(c[i]) && c[i] != 1
  }

  lemma {:induction false} ChainIsUp(parent: ProcessTable, pid: Pid, c: seq<Pid>, k: nat)
    requires Chain(parent, pid, c) && k < |c|
    ensures Up(parent, pid, k) == c[k]
  {
    if k > 0 {
      ChainIsUp(parent, pid, c, k - 1);
    }
  }

  /** Searching by the stat files: if a process of the chain is bound, and none before it, its first
      compositor in list order is found; and if the chain ends, at process 1 or where no parent can be
      read, with none of it bound, the master is. */
  lemma FoundInChain(parent: ProcessTable, rank: Pid -> nat, virt: seq<Pid>, pid: Pid, c: seq<Pid>, i: nat)
    requires WellFounded(parent, rank) && Chain(parent, pid, c)
    requires forall k :: 0 <= k < |c| - 1 ==> c[k] !in virt
    ensures var last := c[|c| - 1];
      && (i < |virt| && virt[i] == last && last !in virt[..i] ==> Search(parent, rank, virt, pid) == Some(i))
      && (last !in virt && (parent(last) == None || parent(last) == Some(1)) ==> Search(parent, rank, virt, pid) == None)
  {
    var n := |c| - 1;
    forall k: nat | k <= n ensures Up(parent, pid, k) == c[k] {
      ChainIsUp(parent, pid, c, k);
    }
    assert Within(parent, pid, n);
    if i < |virt| && virt[i] == c[n] && c[n] !in virt[..i] {
      FirstAt(virt, c[n], i);
      FindsNearest(parent, rank, virt, pid, n);
    }
    if c[n] !in virt && (parent(c[n]) == None || parent(c[n]) == Some(1)) {
      assert Up(parent, pid, n + 1) == 1;
      forall k: nat | Within(parent, pid, k) ensures Up(parent, pid, k) !in virt {
        assert k <= n;
      }
      MasterIff(parent, rank, virt, pid);
    }
  }

  /** wstGetCompositorFromPid, with the stat files as a table. */
  method GetCompositorFromPid(parent: ProcessTable, ghost rank: Pid -> nat, virt: seq<Pid>, isEmbedded: bool, pid: Pid)
    returns (wctx: Ref)
    requires WellFounded(parent, rank)
    ensures wctx == if isEmbedded then Search(parent, rank, virt, pid) else None
  {
    wctx := None;
    if isEmbedded {
      if |virt| > 0 {
        var found, pidNext := false, pid;
        while !found
          invariant found ==> wctx == Search(parent, rank, virt, pid)
          invariant !found ==> wctx == None && Search(parent, rank, virt, pid) == Search(parent, rank, virt, pidNext)
          decreases if found then 0 else rank(pidNext) + 1
        {
          for it := 0 to |virt|
            invariant !found && wctx == None && pidNext !in virt[..it]
          {
            if virt[it] == pidNext {
              found := true;
              wctx := Some(it);
              FirstAt(virt, pidNext, it);
              break;
            }
          }
          if !found {
            pidNext := Next(parent, pidNext);
            if pidNext == 1 {
              break;
            }
          }
        }
      } else {
        EmptySearch(parent, rank, virt, pid);
      }
    }
  }

  lemma FirstAt(virt: seq<Pid>, pid: Pid, i: nat)
    requires i < |virt| && virt[i] == pid && pid !in virt[..i]
    ensures First(virt, pid) == Some(i)
  {
    var r := First(virt, pid).value;
    assert forall j :: 0 <= j < i ==> virt[..i][j] == virt[j];
    assert forall j :: 0 <= j < r ==> virt[..r][j] == virt[j];
  }

  lemma {:induction false} EmptySearch(parent: ProcessTable, rank: Pid -> nat, virt: seq<Pid>, pid: Pid)
    requires WellFounded(parent, rank) && virt == []
    ensures Search(parent, rank, virt, pid) == None
    decreases rank(pid)
  {
    if Next(parent, pid) != 1 {
      EmptySearch(parent, rank, virt, Next(parent, pid));
    }
  }
}
