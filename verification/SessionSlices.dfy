/**
 * The loop's helpers as they are written: client objects, and slices compacted
 * in place in their backing arrays. A slice is an array and a length.
 */
module SessionSlices {
  import opened Bytes
  import opened Sizes
  import opened Session

  /** The part of a session client the loop's helpers touch; `outCh` is a buffered channel. */
  class SessionClient {
    const readOnly: bool
    var size: TermSize
    var outCh: seq<Msg>
    var closed: bool
    var writeDone: bool

    constructor (readOnly: bool, size: TermSize)
      ensures this.readOnly == readOnly && this.size == size
      ensures outCh == [] && !closed && !writeDone
    {
      this.readOnly, this.size := readOnly, size;
      outCh, closed, writeDone := [], false, false;
    }

    /** A send that gives up when the buffer is full; sending on a closed channel panics. */
    method TrySend(m: Msg) returns (sent: bool)
      requires !closed
      modifies `outCh
      ensures sent == (|old(outCh)| < OUT_BUFFER)
      ensures outCh == if sent then old(outCh) + [m] else old(outCh)
    {
      sent := |outCh| < OUT_BUFFER;
      if sent {
        outCh := outCh + [m];
      }
    }

    /** Closing a channel twice panics. */
    method CloseOut()
      requires !closed
      modifies `closed
      ensures closed
    {
      closed := true;
    }
  }

  ghost predicate Distinct<T>(xs: seq<T>)
  {
    forall i, j :: 0 <= i < j < |xs| ==> xs[i] != xs[j]
  }

  lemma DistinctFrom<T>(xs: seq<T>, i: nat)
    requires Distinct(xs) && i < |xs|
    ensures forall j :: 0 <= j < |xs| && j != i ==> xs[j] != xs[i]
  {
  }

  // --- removeClient ----------------------------------------------------------

  lemma {:induction false} RemoveFound<T>(xs: seq<T>, i: nat)
    requires i < |xs| && xs[i] !in xs[..i]
    ensures Remove(xs, xs[i]) == xs[..i] + xs[i + 1..]
  {
    if i == 0 {
      assert xs[..0] + xs[1..] == xs[1..];
    } else {
      assert xs[0] in xs[..i];
      assert xs[1..][..i - 1] == xs[..i][1..];
      assert xs[1..][i - 1] == xs[i];
      RemoveFound(xs[1..], i - 1);
      assert xs[..i] + xs[i + 1..] == [xs[0]] + (xs[1..][..i - 1] + xs[1..][i..]);
    }
  }

  lemma {:induction false} RemoveMissing<T>(xs: seq<T>, x: T)
    requires x !in xs
    ensures Remove(xs, x) == xs
  {
    if xs != [] {
      RemoveMissing(xs[1..], x);
    }
  }

  /** Shifts the rest of the slice over the client; the backing array beyond the result is not cleared. */
  method RemoveClient<T(==)>(a: array<T>, n: nat, target: T) returns (m: nat)
    requires n <= a.Length
    modifies a
    ensures m <= n && a[..m] == Remove(old(a[..n]), target)
    ensures forall j :: m <= j < a.Length ==> a[j] == old(a[j])
  {
    ghost var was := a[..];
    var i := 0;
    while i < n && a[i] != target
      invariant i <= n && target !in was[..i] && a[..] == was
    {
      i := i + 1;
    }
    if i == n {
      RemoveMissing(was[..n], target);
      return n;
    }
    assert was[..n][..i] == was[..i];
    RemoveFound(was[..n], i);
    for j := i to n - 1
      invariant forall x :: 0 <= x < i || j <= x < a.Length ==> a[x] == was[x]
      invariant forall x :: i <= x < j ==> a[x] == was[x + 1]
    {
      a[j] := a[j + 1];
    }
    assert a[..n - 1] == was[..n][..i] + was[..n][i + 1..];
    return n - 1;
  }

  // --- What a filtering loop leaves --------------------------------------------

  /** Those of the first `i` elements that are not dropped. */
  function Kept<T>(xs: seq<T>, dropped: seq<bool>, i: nat): seq<T>
    requires i <= |xs| <= |dropped|
  {
    if i == 0 then []
    else Kept(xs, dropped, i - 1) + if dropped[i - 1] then [] else [xs[i - 1]]
  }

  /** How many of the first `i` are kept. */
  function Rank(dropped: seq<bool>, i: nat): nat
    requires i <= |dropped|
  {
    if i == 0 then 0 else Rank(dropped, i - 1) + if dropped[i - 1] then 0 else 1
  }

  lemma {:induction false} KeptCount<T>(xs: seq<T>, dropped: seq<bool>, n: nat)
    requires n <= |xs| <= |dropped|
    ensures |Kept(xs, dropped, n)| == Rank(dropped, n)
  {
    if n > 0 {
      KeptCount(xs, dropped, n - 1);
    }
  }

  /** Every element that is not dropped is where its rank says. */
  lemma {:induction false} KeptAtRank<T>(xs: seq<T>, dropped: seq<bool>, n: nat, j: nat)
    requires j < n <= |xs| <= |dropped| && !dropped[j]
    ensures Rank(dropped, j) < |Kept(xs, dropped, n)| && Kept(xs, dropped, n)[Rank(dropped, j)] == xs[j]
  {
    if j == n - 1 {
      KeptCount(xs, dropped, j);
    } else {
      KeptAtRank(xs, dropped, n - 1, j);
    }
  }

  // --- queueOutput -----------------------------------------------------------

  /** Which clients a delivery need not come back to: finished, or with room in their queue. */
  ghost function Served(clients: seq<SessionClient>): (f: seq<bool>)
    reads clients
    ensures |f| == |clients|
    ensures forall i :: 0 <= i < |f| ==> f[i] == (clients[i].writeDone || |clients[i].outCh| < OUT_BUFFER)
  {
    if clients == [] then [] else [clients[0].writeDone || |clients[0].outCh| < OUT_BUFFER] + Served(clients[1..])
  }

  method QueueOutput(clients: seq<SessionClient>, msg: Msg) returns (pending: seq<SessionClient>)
    requires Distinct(clients)
    requires forall i :: 0 <= i < |clients| && !clients[i].writeDone ==> !clients[i].closed
    modifies (set c <- clients)`outCh
    ensures pending == Kept(clients, old(Served(clients)), |clients|)
    ensures forall i :: 0 <= i < |clients| ==>
              clients[i].outCh == if !clients[i].writeDone && |old(clients[i].outCh)| < OUT_BUFFER
                                  then old(clients[i].outCh) + [msg] else old(clients[i].outCh)
  {
    ghost var served := Served(clients);
    pending := [];
    for i := 0 to |clients|
      invariant pending == Kept(clients, served, i)
      invariant forall k :: 0 <= k < i ==>
                  clients[k].outCh == if !clients[k].writeDone && |old(clients[k].outCh)| < OUT_BUFFER
                                      then old(clients[k].outCh) + [msg] else old(clients[k].outCh)
      invariant forall k :: i <= k < |clients| ==> clients[k].outCh == old(clients[k].outCh)
    {
      var c := clients[i];
      if c.writeDone {
        continue;
      }
      var sent := c.TrySend(msg);
      if !sent {
        pending := pending + [c];
      }
    }
  }

  // --- pruneFinishedClients --------------------------------------------------

  /** Which clients' writers have finished. */
  ghost function WritersDone(clients: seq<SessionClient>): (f: seq<bool>)
    reads clients
    ensures |f| == |clients| && forall i :: 0 <= i < |f| ==> f[i] == clients[i].writeDone
  {
    if clients == [] then [] else [clients[0].writeDone] + WritersDone(clients[1..])
  }

  /** `waiting` without the finished ones among the first `i` clients. */
  function StillWaiting<T(==)>(waiting: seq<T>, clients: seq<T>, finished: seq<bool>, i: nat): seq<T>
    requires i <= |clients| <= |finished|
  {
    if i == 0 then waiting
    else
      var rest := StillWaiting(waiting, clients, finished, i - 1);
      if finished[i - 1] then Remove(rest, clients[i - 1]) else rest
  }

  /** One client `c` of the walk: kept in the front of its array, or discarded. */
  method VisitOne(c: SessionClient, a: array<SessionClient>, kept: nat, p: array<SessionClient>, left: nat)
    returns (kept': nat, left': nat)
    requires a != p && kept < a.Length && left <= p.Length && (c.writeDone ==> !c.closed)
    modifies a, p, c`closed
    ensures kept' == kept + if c.writeDone then 0 else 1
    ensures a[..kept'] == old(a[..kept]) + if c.writeDone then [] else [c]
    ensures forall j :: kept < j < a.Length || (j == kept && c.writeDone) ==> a[j] == old(a[j])
    ensures left' <= left && p[..left'] == if c.writeDone then Remove(old(p[..left]), c) else old(p[..left])
    ensures forall j :: left <= j < p.Length ==> p[j] == old(p[j])
    ensures c.closed == (old(c.closed) || c.writeDone)
  {
    kept', left' := kept, left;
    if c.writeDone {
      left' := RemoveClient(p, left, c);
      c.CloseOut();
    } else {
      a[kept] := c;
      kept' := kept + 1;
    }
  }

  /** The walk, given what the two slices held before it. */
  method VisitAll(a: array<SessionClient>, n: nat, p: array<SessionClient>, m: nat,
                  ghost was: seq<SessionClient>, ghost waiting: seq<SessionClient>, ghost finished: seq<bool>)
    returns (kept: nat, left: nat)
    requires a != p && n <= a.Length && m <= p.Length
    requires was == a[..n] && waiting == p[..m] && Distinct(was)
    requires |finished| == n && forall i :: 0 <= i < n ==> finished[i] == was[i].writeDone
    requires forall c <- was :: c.writeDone ==> !c.closed
    modifies a, p, (set c <- was)`closed
    ensures kept <= n && a[..kept] == Kept(was, finished, n)
    ensures left <= m && p[..left] == StillWaiting(waiting, was, finished, n)
    ensures forall j :: n <= j < a.Length ==> a[j] == old(a[j])
    ensures forall j :: m <= j < p.Length ==> p[j] == old(p[j])
    ensures forall j :: 0 <= j < n ==> was[j].closed == (old(was[j].closed) || finished[j])
  {
    hide Distinct;
    kept, left := 0, m;
    for i := 0 to n
      invariant kept <= i && left <= m
      invariant forall j :: i <= j < a.Length ==> a[j] == old(a[j])
      invariant a[..kept] == Kept(was, finished, i)
      invariant p[..left] == StillWaiting(waiting, was, finished, i)
      invariant forall j :: m <= j < p.Length ==> p[j] == old(p[j])
      invariant forall j :: 0 <= j < n ==> was[j].closed == (old(was[j].closed) || (j < i && finished[j]))
    {
      var c := a[i];
      assert c == was[i];
      DistinctFrom(was, i);
      kept, left := VisitOne(c, a, kept, p, left);
    }
  }

  /**
   * Compacts the finished clients out of the backing array while walking it, closes
   * their queues, and compacts them out of the pending list, which has an array of its own.
   */
  method PruneFinishedClients(a: array<SessionClient>, n: nat, p: array<SessionClient>, m: nat)
    returns (kept: nat, left: nat, changed: bool)
    requires a != p && n <= a.Length && m <= p.Length && Distinct(a[..n])
    requires forall c <- a[..n] :: c.writeDone ==> !c.closed
    modifies a, p, (set c <- a[..n])`closed
    ensures kept <= n && a[..kept] == Kept(old(a[..n]), old(WritersDone(a[..n])), n)
    ensures left <= m && p[..left] == StillWaiting(old(p[..m]), old(a[..n]), old(WritersDone(a[..n])), n)
    ensures changed <==> kept < n
    ensures forall j :: n <= j < a.Length ==> a[j] == old(a[j])
    ensures forall j :: m <= j < p.Length ==> p[j] == old(p[j])
    ensures forall c <- old(a[..n]) :: c.closed == (old(c.closed) || c.writeDone)
  {
    kept, left := VisitAll(a, n, p, m, a[..n], p[..m], WritersDone(a[..n]));
    changed := kept < n;
  }

  // --- collectClientSizes ----------------------------------------------------

  ghost function ReadOnly(clients: seq<SessionClient>): (f: seq<bool>)
    ensures |f| == |clients| && forall i :: 0 <= i < |f| ==> f[i] == clients[i].readOnly
  {
    if clients == [] then [] else [clients[0].readOnly] + ReadOnly(clients[1..])
  }

  ghost function SizesOf(clients: seq<SessionClient>): (f: seq<TermSize>)
    reads clients
    ensures |f| == |clients| && forall i :: 0 <= i < |f| ==> f[i] == clients[i].size
  {
    if clients == [] then [] else [clients[0].size] + SizesOf(clients[1..])
  }

  /** The size of every client with a say, at its rank among them; and no other size. */
  method CollectClientSizes(clients: seq<SessionClient>) returns (sizes: seq<TermSize>)
    ensures |sizes| == Rank(ReadOnly(clients), |clients|)
    ensures forall i :: 0 <= i < |clients| && !clients[i].readOnly ==>
              Rank(ReadOnly(clients), i) < |sizes| && sizes[Rank(ReadOnly(clients), i)] == clients[i].size
    ensures sizes == Kept(SizesOf(clients), ReadOnly(clients), |clients|)
  {
    hide ReadOnly, SizesOf, Rank;
    sizes := [];
    for i := 0 to |clients|
      invariant sizes == Kept(SizesOf(clients), ReadOnly(clients), i)
    {
      if clients[i].readOnly {
        continue;
      }
      sizes := sizes + [clients[i].size];
    }
    KeptCount(SizesOf(clients), ReadOnly(clients), |clients|);
    forall i | 0 <= i < |clients| && !clients[i].readOnly
      ensures Rank(ReadOnly(clients), i) < |sizes| && sizes[Rank(ReadOnly(clients), i)] == clients[i].size
    {
      KeptAtRank(SizesOf(clients), ReadOnly(clients), |clients|, i);
    }
  }
}
