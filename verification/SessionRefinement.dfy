/** The loop's helpers on client objects, and the transition system on its table, do the same. */
module SessionRefinement {
  import opened Bytes
  import opened Sizes
  import opened Session
  import opened SessionChannels
  import opened SessionDelivery
  import opened SessionFeed
  import opened SessionRuns
  import Scan = SessionScan
  import opened SessionSizes
  import opened SessionSlices
  import opened SessionTrace
  import opened SessionWakeup

  /** The object shows what the table says of the client. */
  ghost predicate Mirrors(c: SessionClient, cl: Client)
    reads c
  {
    && c.readOnly == cl.readOnly && c.size == cl.size && c.outCh == cl.queue
    && (c.closed <==> !cl.ending.Open?) && (c.writeDone <==> WriteDone(cl))
  }

  /** Object `i` stands for client `i` of the table. */
  ghost predicate Represents(objects: seq<SessionClient>, table: seq<Client>)
    reads objects
  {
    Distinct(objects) && |objects| == |table| && forall i :: 0 <= i < |table| ==> Mirrors(objects[i], table[i])
  }

  /** The objects of the listed clients. */
  function Listed(objects: seq<SessionClient>, ids: seq<nat>): (cs: seq<SessionClient>)
    requires Below(ids, |objects|)
    ensures |cs| == |ids| && forall k :: 0 <= k < |cs| ==> cs[k] == objects[ids[k]]
  {
    seq(|ids|, k requires 0 <= k < |ids| => objects[ids[k]])
  }

  lemma {:induction false} ListedKept(objects: seq<SessionClient>, ids: seq<nat>, dropped: seq<bool>, n: nat)
    requires Below(ids, |objects|) && n <= |ids| <= |dropped|
    ensures Below(Kept(ids, dropped, n), |objects|)
    ensures Listed(objects, Kept(ids, dropped, n)) == Kept(Listed(objects, ids), dropped, n)
  {
    if n > 0 {
      ListedKept(objects, ids, dropped, n - 1);
    }
  }

  lemma {:induction false} ListedRemove(objects: seq<SessionClient>, ids: seq<nat>, x: nat)
    requires Distinct(objects) && Below(ids, |objects|) && x < |objects|
    ensures Below(Remove(ids, x), |objects|)
    ensures Listed(objects, Remove(ids, x)) == Remove(Listed(objects, ids), objects[x])
  {
    RemoveBelow(ids, x, |objects|);
    if ids != [] {
      assert Listed(objects, ids)[1..] == Listed(objects, ids[1..]);
      ListedRemove(objects, ids[1..], x);
    }
  }

  lemma {:induction false} ListedWaiting(
      objects: seq<SessionClient>, waiting: seq<nat>, ids: seq<nat>, finished: seq<bool>, n: nat)
    requires Distinct(objects) && Below(ids, |objects|) && Below(waiting, |objects|) && n <= |ids| <= |finished|
    ensures Below(StillWaiting(waiting, ids, finished, n), |objects|)
    ensures Listed(objects, StillWaiting(waiting, ids, finished, n))
         == StillWaiting(Listed(objects, waiting), Listed(objects, ids), finished, n)
  {
    if n > 0 {
      ListedWaiting(objects, waiting, ids, finished, n - 1);
      ListedRemove(objects, StillWaiting(waiting, ids, finished, n - 1), ids[n - 1]);
    }
  }

  lemma {:induction false} SortedIndices(xs: seq<nat>, i: nat, j: nat)
    requires Sorted(xs) && i < j < |xs|
    ensures xs[i] < xs[j]
  {
    if i == 0 {
      assert xs[j] == xs[1..][j - 1];
      SortedHeadLeast(xs, xs[j]);
    } else {
      SortedIndices(xs[1..], i - 1, j - 1);
    }
  }

  lemma ListedDistinct(objects: seq<SessionClient>, ids: seq<nat>)
    requires Distinct(objects) && Below(ids, |objects|) && Sorted(ids)
    ensures Distinct(Listed(objects, ids))
  {
    forall i, j | 0 <= i < j < |ids| ensures ids[i] != ids[j] {
      SortedIndices(ids, i, j);
    }
  }

  // --- collectClientSizes ----------------------------------------------------

  /** What the helper collects is what the transition system arbitrates with. */
  lemma {:induction false} CollectedSizes(objects: seq<SessionClient>, table: seq<Client>, ids: seq<nat>, n: nat)
    requires Represents(objects, table) && Below(ids, |table|) && n <= |ids|
    ensures var cs := Listed(objects, ids);
            Below(ids[..n], |table|) && WritableSizes(table, ids[..n]) == Kept(SizesOf(cs), ReadOnly(cs), n)
  {
    hide SizesOf, ReadOnly, Distinct, Listed;
    if n > 0 {
      assert ids[..n][..n - 1] == ids[..n - 1];
      CollectedSizes(objects, table, ids, n - 1);
      assert Mirrors(objects[ids[n - 1]], table[ids[n - 1]]);
    } else {
      assert ids[..0] == [];
    }
  }

  // --- queueOutput -----------------------------------------------------------

  function Sent(cl: Client, m: Msg): Client
  {
    if WriteDone(cl) then cl else TrySend(cl, m)
  }

  /** The objects after a delivery, in terms of the table before it. */
  ghost predicate Delivered(objects: seq<SessionClient>, was: seq<Client>, todo: seq<nat>, m: Msg)
    reads objects
  {
    && |objects| == |was|
    && forall i :: 0 <= i < |was| ==>
         Mirrors(objects[i], if i in todo then Sent(was[i], m) else was[i])
  }

  lemma DeliveredRepresents(objects: seq<SessionClient>, was: seq<Client>, table: seq<Client>, todo: seq<nat>, m: Msg)
    requires Distinct(objects) && Delivered(objects, was, todo, m) && Scan.Delivered(was, table, todo, m)
    ensures Represents(objects, table)
  {
  }

  lemma RepresentsEach(objects: seq<SessionClient>, table: seq<Client>)
    requires Represents(objects, table)
    ensures Distinct(objects) && |objects| == |table| && forall i :: 0 <= i < |table| ==> Mirrors(objects[i], table[i])
  {
  }

  lemma ListedIn(objects: seq<SessionClient>, ids: seq<nat>, i: nat)
    requires Distinct(objects) && Below(ids, |objects|) && i < |objects|
    ensures objects[i] in Listed(objects, ids) <==> i in ids
  {
    if i in ids {
      var k :| 0 <= k < |ids| && ids[k] == i;
      assert Listed(objects, ids)[k] == objects[i];
    } else {
      forall k | 0 <= k < |ids| ensures objects[ids[k]] != objects[i] {
        DistinctFrom(objects, i);
      }
    }
  }

  /** The object shows what the table says, but for its queue, to which a message may have been sent. */
  ghost predicate ShowsQueued(c: SessionClient, cl: Client, sending: bool, m: Msg)
    reads c
  {
    && c.readOnly == cl.readOnly && c.size == cl.size
    && (c.closed <==> !cl.ending.Open?) && (c.writeDone <==> WriteDone(cl))
    && c.outCh == if sending && !WriteDone(cl) && |cl.queue| < OUT_BUFFER then cl.queue + [m] else cl.queue
  }

  lemma QueuedMirrors(
      objects: seq<SessionClient>, clients: seq<SessionClient>, was: seq<Client>, todo: seq<nat>, m: Msg)
    requires |objects| == |was| && Below(todo, |was|) && clients == Listed(objects, todo)
    requires forall k: nat :: k < |todo| ==> ShowsQueued(clients[k], was[todo[k]], true, m)
    requires forall i: nat :: i < |was| && i !in todo ==> ShowsQueued(objects[i], was[i], false, m)
    ensures Delivered(objects, was, todo, m)
  {
    forall i: nat | i < |was| ensures Mirrors(objects[i], if i in todo then Sent(was[i], m) else was[i]) {
      if i in todo {
        var k :| 0 <= k < |todo| && todo[k] == i;
        assert ShowsQueued(clients[k], was[todo[k]], true, m);
      }
    }
  }

  method QueueOn(clients: seq<SessionClient>, msg: Msg, ghost was: seq<Client>)
    returns (pending: seq<SessionClient>)
    requires |was| == |clients| && Distinct(clients) && forall k :: 0 <= k < |clients| ==> !clients[k].closed
    requires forall k :: 0 <= k < |clients| ==> ShowsQueued(clients[k], was[k], false, msg)
    modifies (set c <- clients)`outCh
    ensures pending == Kept(clients, old(Served(clients)), |clients|)
    ensures forall k :: 0 <= k < |clients| ==> ShowsQueued(clients[k], was[k], true, msg)
  {
    hide Served, Kept, Distinct, WriteDone;
    pending := QueueOutput(clients, msg);
    forall k | 0 <= k < |clients| ensures ShowsQueued(clients[k], was[k], true, msg) {
      assert old(ShowsQueued(clients[k], was[k], false, msg));
    }
  }

  method SendAll(objects: seq<SessionClient>, clients: seq<SessionClient>, msg: Msg,
                 ghost table: seq<Client>, ghost ids: seq<nat>)
    returns (pending: seq<SessionClient>)
    requires Represents(objects, table) && Below(ids, |table|) && clients == Listed(objects, ids)
    requires Distinct(clients) && forall c <- clients :: !c.closed
    modifies (set c <- clients)`outCh
    ensures pending == Kept(clients, old(Served(clients)), |clients|)
    ensures Delivered(objects, table, ids, msg)
  {
    RepresentsEach(objects, table);
    hide Served, Kept, Listed, Distinct, Represents, Sent, Delivered;
    forall i: nat | i < |table| ensures objects[i] in clients <==> i in ids {
      ListedIn(objects, ids, i);
    }
    forall i: nat | i < |table| ensures ShowsQueued(objects[i], table[i], false, msg) {
      assert Mirrors(objects[i], table[i]);
    }
    ghost var was := seq(|ids|, k requires 0 <= k < |ids| => table[ids[k]]);
    pending := QueueOn(clients, msg, was);
    QueuedMirrors(objects, clients, table, ids, msg);
  }

  /** The clients a scan has still to visit are attached, in attach order, and open. */
  lemma TodoOpen(s: State)
    requires Inv(s) && s.loop.pc.Offer?
    ensures Sorted(s.loop.todo) && Below(s.loop.todo, |s.table|)
    ensures forall c <- s.loop.todo :: s.table[c].ending.Open?
  {
    hide FeedOk, Accounts, Traces, Wakes, SizesOk, Bounded;
    var both := s.loop.pending + s.loop.todo;
    SortedTail(both, |s.loop.pending|);
    assert both[|s.loop.pending|..] == s.loop.todo;
    forall c | c in s.loop.todo ensures s.table[c].ending.Open? {
      assert c in both;
      ListedIsOpen(s.loop, s.table, c);
    }
  }

  lemma ServedAgree(objects: seq<SessionClient>, table: seq<Client>, ids: seq<nat>)
    requires Represents(objects, table) && Below(ids, |table|)
    ensures Served(Listed(objects, ids)) == Scan.Served(table, ids)
  {
    forall k | 0 <= k < |ids| ensures Served(Listed(objects, ids))[k] == Scan.Served(table, ids)[k] {
      assert Mirrors(objects[ids[k]], table[ids[k]]);
    }
  }

  lemma OpenIsNotClosed(objects: seq<SessionClient>, table: seq<Client>, ids: seq<nat>)
    requires Represents(objects, table) && Below(ids, |table|)
    requires forall c <- ids :: table[c].ending.Open?
    ensures forall c <- Listed(objects, ids) :: !c.closed
  {
    forall c | c in Listed(objects, ids) ensures !c.closed {
      var k :| 0 <= k < |ids| && Listed(objects, ids)[k] == c;
      assert ids[k] in ids;
      assert Mirrors(objects[ids[k]], table[ids[k]]);
    }
  }

  lemma ListedAppend(objects: seq<SessionClient>, a: seq<nat>, b: seq<nat>)
    requires Below(a + b, |objects|)
    ensures Below(a, |objects|) && Below(b, |objects|)
    ensures Listed(objects, a + b) == Listed(objects, a) + Listed(objects, b)
  {
    assert forall k :: 0 <= k < |a| ==> a[k] == (a + b)[k];
    assert forall k :: 0 <= k < |b| ==> b[k] == (a + b)[|a| + k];
  }

  /** One call of the helper is an uninterrupted delivery scan. */
  method QueueOutputIsScan(objects: seq<SessionClient>, clients: seq<SessionClient>, msg: Msg, ghost s: State)
    returns (pending: seq<SessionClient>, ghost labels: seq<Label>, ghost t: State)
    requires Inv(s) && s.loop.pc.Offer? && s.loop.output.Some? && msg == Output(s.loop.output.value)
    requires Represents(objects, s.table) && InRange(s.loop, |s.table|) && clients == Listed(objects, s.loop.todo)
    modifies (set c <- clients)`outCh
    ensures Run(s, labels, t) && t.loop.todo == [] && |t.table| == |s.table| && InRange(t.loop, |t.table|)
    ensures Represents(objects, t.table)
    ensures Listed(objects, t.loop.pending) == Listed(objects, s.loop.pending) + pending
  {
    ghost var ids := s.loop.todo;
    labels, t := Scan.ScanUninterrupted(s);
    Scan.InvInRange(t);
    TodoOpen(s);
    hide Inv, Run;
    ListedDistinct(objects, ids);
    ServedAgree(objects, s.table, ids);
    OpenIsNotClosed(objects, s.table, ids);
    ListedKept(objects, ids, Scan.Served(s.table, ids), |ids|);
    ListedAppend(objects, s.loop.pending, Kept(ids, Scan.Served(s.table, ids), |ids|));
    pending := SendAll(objects, clients, msg, s.table, ids);
    assert |t.table| == |s.table|;
    DeliveredRepresents(objects, s.table, t.table, ids, msg);
  }

  // --- pruneFinishedClients --------------------------------------------------

  function Ended(cl: Client): Client
  {
    if WriteDone(cl) then cl.(ending := Ending.Pruned) else cl
  }

  lemma FinishedAgree(objects: seq<SessionClient>, table: seq<Client>, ids: seq<nat>)
    requires Represents(objects, table) && Below(ids, |table|)
    ensures WritersDone(Listed(objects, ids)) == Scan.WritersDone(table, ids)
  {
    forall k | 0 <= k < |ids| ensures WritersDone(Listed(objects, ids))[k] == Scan.WritersDone(table, ids)[k] {
      assert Mirrors(objects[ids[k]], table[ids[k]]);
    }
  }

  lemma PrunedRepresents(
      objects: seq<SessionClient>, clients: seq<SessionClient>, was: seq<Client>, table: seq<Client>, ids: seq<nat>)
    requires Distinct(objects) && |objects| == |was| && Below(ids, |was|) && clients == Listed(objects, ids)
    requires forall k :: 0 <= k < |ids| ==> Mirrors(clients[k], Ended(was[ids[k]]))
    requires forall i: nat :: i < |was| && i !in ids ==> Mirrors(objects[i], was[i])
    requires Scan.Pruned(was, table, ids)
    ensures Represents(objects, table)
  {
    forall i: nat | i < |was| ensures Mirrors(objects[i], table[i]) {
      if i in ids {
        var k :| 0 <= k < |ids| && ids[k] == i;
        assert Mirrors(clients[k], Ended(was[ids[k]]));
      }
    }
  }

  /** Between requests the loop's clients are in attach order and open. */
  lemma ClientsOpen(s: State)
    requires Inv(s) && s.loop.pc.Prune?
    ensures Sorted(s.loop.clients) && InRange(s.loop, |s.table|)
    ensures forall c <- s.loop.clients :: s.table[c].ending.Open?
  {
    hide FeedOk, Accounts, Traces, Wakes, SizesOk, Bounded;
    forall c | c in s.loop.clients ensures s.table[c].ending.Open? {
      ListedIsOpen(s.loop, s.table, c);
    }
  }

  method PruneOn(a: array<SessionClient>, n: nat, p: array<SessionClient>, m: nat, ghost was: seq<Client>)
    returns (kept: nat, left: nat, changed: bool)
    requires a != p && n <= a.Length && m <= p.Length && Distinct(a[..n]) && |was| == n
    requires forall k :: 0 <= k < n ==> Mirrors(a[k], was[k]) && was[k].ending.Open?
    modifies a, p, (set c <- a[..n])`closed
    ensures kept <= n && a[..kept] == Kept(old(a[..n]), old(WritersDone(a[..n])), n)
    ensures left <= m && p[..left] == StillWaiting(old(p[..m]), old(a[..n]), old(WritersDone(a[..n])), n)
    ensures changed <==> kept < n
    ensures forall k :: 0 <= k < n ==> Mirrors(old(a[..n])[k], Ended(was[k]))
  {
    ghost var clients := a[..n];
    kept, left, changed := PruneFinishedClients(a, n, p, m);
    forall k | 0 <= k < n ensures Mirrors(clients[k], Ended(was[k])) {
      assert clients[k] in clients;
    }
  }

  method PruneAll(objects: seq<SessionClient>, a: array<SessionClient>, n: nat, p: array<SessionClient>, m: nat,
                  ghost table: seq<Client>, ghost ids: seq<nat>)
    returns (kept: nat, left: nat, changed: bool)
    requires a != p && n <= a.Length && m <= p.Length
    requires Represents(objects, table) && Below(ids, |table|) && a[..n] == Listed(objects, ids)
    requires Distinct(a[..n]) && forall c <- ids :: table[c].ending.Open?
    modifies a, p, (set c <- a[..n])`closed
    ensures kept <= n && a[..kept] == Kept(Listed(objects, ids), old(WritersDone(a[..n])), n)
    ensures left <= m && p[..left] == StillWaiting(old(p[..m]), Listed(objects, ids), old(WritersDone(a[..n])), n)
    ensures changed <==> kept < n
    ensures forall k :: 0 <= k < n ==> Mirrors(Listed(objects, ids)[k], Ended(table[ids[k]]))
    ensures forall i: nat :: i < |table| && i !in ids ==> Mirrors(objects[i], table[i])
  {
    RepresentsEach(objects, table);
    hide WritersDone, Kept, StillWaiting, Listed, Distinct, Represents, Ended;
    forall i: nat | i < |table| ensures objects[i] in a[..n] <==> i in ids {
      ListedIn(objects, ids, i);
    }
    ghost var was := seq(|ids|, k requires 0 <= k < |ids| => table[ids[k]]);
    ghost var clients := a[..n];
    forall k | 0 <= k < n ensures Mirrors(a[k], was[k]) && was[k].ending.Open? {
      assert a[k] == clients[k] && ids[k] in ids;
    }
    kept, left, changed := PruneOn(a, n, p, m, was);
    forall i: nat | i < |table| && i !in ids ensures Mirrors(objects[i], table[i]) {
      assert objects[i] !in clients && old(Mirrors(objects[i], table[i]));
    }
  }

  /** One call of the helper is an uninterrupted prune scan. */
  method PruneIsScan(objects: seq<SessionClient>, a: array<SessionClient>, n: nat, p: array<SessionClient>, m: nat,
               ghost s: State, ghost next: Next)
    returns (kept: nat, left: nat, changed: bool, ghost labels: seq<Label>, ghost t: State)
    requires a != p && n <= a.Length && m <= p.Length
    requires Inv(s) && s.loop.pc == LoopPc.Prune(0, false, next) && InRange(s.loop, |s.table|)
    requires Represents(objects, s.table)
    requires a[..n] == Listed(objects, s.loop.clients) && p[..m] == Listed(objects, s.loop.pending)
    modifies a, p, (set c <- a[..n])`closed
    ensures Run(s, labels, t) && |t.table| == |s.table| && InRange(t.loop, |t.table|)
    ensures Represents(objects, t.table)
    ensures kept <= n && a[..kept] == Listed(objects, t.loop.clients)
    ensures left <= m && p[..left] == Listed(objects, t.loop.pending)
    ensures t.loop.pc == LoopPc.Prune(kept, changed, next)
  {
    ghost var ids := s.loop.clients;
    labels, t := Scan.PruneUninterrupted(s, next);
    Scan.InvInRange(t);
    ClientsOpen(s);
    hide Inv, Run;
    ListedDistinct(objects, ids);
    FinishedAgree(objects, s.table, ids);
    ListedKept(objects, ids, Scan.WritersDone(s.table, ids), |ids|);
    ListedWaiting(objects, s.loop.pending, ids, Scan.WritersDone(s.table, ids), |ids|);
    kept, left, changed := PruneAll(objects, a, n, p, m, s.table, ids);
    PrunedRepresents(objects, Listed(objects, ids), s.table, t.table, ids);
  }
}
