/**
 * The scans of the client list, when nothing interrupts them, do what the loop's
 * helpers do in one call: the same filters of the same lists, and the same effect on each client.
 */
module SessionScan {
  import opened Bytes
  import opened Session
  import opened SessionChannels
  import opened SessionDelivery
  import opened SessionFeed
  import opened SessionRuns
  import opened SessionSizes
  import Slices = SessionSlices
  import opened SessionTrace
  import opened SessionWakeup

  predicate HasRoom(cl: Client)
  {
    |cl.queue| < OUT_BUFFER
  }

  /** Which of the listed clients a delivery need not come back to. */
  function Served(table: seq<Client>, ids: seq<nat>): (f: seq<bool>)
    requires Below(ids, |table|)
    ensures |f| == |ids| && forall k :: 0 <= k < |f| ==> f[k] == (WriteDone(table[ids[k]]) || HasRoom(table[ids[k]]))
  {
    seq(|ids|, k requires 0 <= k < |ids| => WriteDone(table[ids[k]]) || HasRoom(table[ids[k]]))
  }

  /** Which of the listed clients' writers have finished. */
  function WritersDone(table: seq<Client>, ids: seq<nat>): (f: seq<bool>)
    requires Below(ids, |table|)
    ensures |f| == |ids| && forall k :: 0 <= k < |f| ==> f[k] == WriteDone(table[ids[k]])
  {
    seq(|ids|, k requires 0 <= k < |ids| => WriteDone(table[ids[k]]))
  }

  // --- The delivery scan -----------------------------------------------------

  lemma {:induction false} KeptFromFront(xs: seq<nat>, dropped: seq<bool>, n: nat)
    requires 0 < n <= |xs| <= |dropped|
    ensures Slices.Kept(xs, dropped, n)
         == (if dropped[0] then [] else [xs[0]]) + Slices.Kept(xs[1..], dropped[1..], n - 1)
  {
    if n > 1 {
      KeptFromFront(xs, dropped, n - 1);
    }
  }

  predicate Delivered(table: seq<Client>, table': seq<Client>, todo: seq<nat>, m: Msg)
  {
    && |table'| == |table|
    && forall c :: 0 <= c < |table| ==>
         table'[c] == if c in todo && !WriteDone(table[c]) then TrySend(table[c], m) else table[c]
  }

  lemma DeliveredNone(s: State)
    ensures s.loop.output.Some? ==> Delivered(s.table, s.table, [], Output(s.loop.output.value))
  {
  }

  lemma DeliveredMore(a: seq<Client>, b: seq<Client>, c: seq<Client>, x: nat, rest: seq<nat>, m: Msg)
    requires Delivered(a, b, [x], m) && Delivered(b, c, rest, m) && x !in rest
    ensures Delivered(a, c, [x] + rest, m)
  {
    hide TrySend, WriteDone;
    forall y: nat ensures y in [x] + rest <==> y == x || y in rest {}
  }

  lemma ServedRest(a: seq<Client>, b: seq<Client>, x: nat, rest: seq<nat>, m: Msg)
    requires Delivered(a, b, [x], m) && x !in rest && Below([x] + rest, |a|)
    ensures Below(rest, |b|) && Served(a, [x] + rest)[1..] == Served(b, rest)
  {
    hide TrySend, WriteDone, HasRoom;
    forall k | 0 <= k < |rest| ensures rest[k] < |a| && b[rest[k]] == a[rest[k]] {
      assert rest[k] == ([x] + rest)[k + 1] && rest[k] in rest;
    }
  }

  lemma ScanStep(s: State)
    requires !s.panicked && InRange(s.loop, |s.table|) && s.loop.pc.Offer? && s.loop.todo != [] && s.loop.output.Some?
    ensures Enabled(s, Loop(Advance))
    ensures var t := Apply(s, Loop(Advance)); var x := s.loop.todo[0];
            && t.loop == s.loop.(todo := s.loop.todo[1..],
                                 pending := s.loop.pending + if Served(s.table, s.loop.todo)[0] then [] else [x])
            && Delivered(s.table, t.table, [x], Output(s.loop.output.value))
  {
    assert s.loop.pending + [] == s.loop.pending;
  }

  /** One step of the scan. */
  lemma ScanOne(s: State)
    requires Inv(s) && s.loop.pc.Offer? && s.loop.todo != [] && s.loop.output.Some?
    ensures Below(s.loop.todo, |s.table|) && s.loop.todo[0] !in s.loop.todo[1..]
    ensures !s.panicked && InRange(s.loop, |s.table|) && Enabled(s, Loop(Advance)) && Inv(Apply(s, Loop(Advance)))
  {
    hide FeedOk, Accounts, Traces, Wakes, SizesOk, Bounded;
    VisitOnce(s.loop);
    ScanStep(s);
    StepInv(s, Loop(Advance));
  }

  lemma WaitersNext(before: seq<nat>, a: seq<Client>, b: seq<Client>, x: nat, rest: seq<nat>)
    requires Below([x] + rest, |a|) && Below(rest, |b|) && Served(a, [x] + rest)[1..] == Served(b, rest)
    ensures var todo, first := [x] + rest, if Served(a, [x] + rest)[0] then [] else [x];
            (before + first) + Slices.Kept(rest, Served(b, rest), |rest|)
              == before + Slices.Kept(todo, Served(a, todo), |todo|)
  {
    var todo := [x] + rest;
    assert todo[1..] == rest;
    KeptFromFront(todo, Served(a, todo), |todo|);
  }

  /**
   * A delivery scan that no other component interrupts leaves pending, in order, exactly
   * the clients that are not served, and queues the message of each live one with room.
   */
  lemma {:induction false} ScanUninterrupted(s: State) returns (labels: seq<Label>, t: State)
    requires Inv(s) && s.loop.pc.Offer? && (s.loop.todo != [] ==> s.loop.output.Some?)
    ensures Run(s, labels, t) && |labels| == |s.loop.todo| && Inv(t)
    ensures Below(s.loop.todo, |s.table|)
    ensures var waiters := Slices.Kept(s.loop.todo, Served(s.table, s.loop.todo), |s.loop.todo|);
            t.loop == s.loop.(todo := [], pending := s.loop.pending + waiters)
    ensures s.loop.output.Some? ==> Delivered(s.table, t.table, s.loop.todo, Output(s.loop.output.value))
    decreases |s.loop.todo|
  {
    hide Inv, Delivered, Apply, Enabled, HasRoom, InRange, Served;
    if s.loop.todo == [] {
      labels, t := [], s;
      assert Slices.Kept(s.loop.todo, Served(s.table, s.loop.todo), 0) == [];
      assert s.loop.pending + [] == s.loop.pending;
      DeliveredNone(s);
    } else {
      ScanOne(s);
      ScanStep(s);
      var x, rest := s.loop.todo[0], s.loop.todo[1..];
      var s1 := Apply(s, Loop(Advance));
      var more;
      more, t := ScanUninterrupted(s1);
      labels := [Loop(Advance)] + more;
      assert labels[1..] == more && s.loop.todo == [x] + rest;
      ServedRest(s.table, s1.table, x, rest, Output(s.loop.output.value));
      DeliveredMore(s.table, s1.table, t.table, x, rest, Output(s.loop.output.value));
      WaitersNext(s.loop.pending, s.table, s1.table, x, rest);
    }
  }

  // --- The prune scan --------------------------------------------------------

  predicate Pruned(table: seq<Client>, table': seq<Client>, ids: seq<nat>)
  {
    && |table'| == |table|
    && forall c :: 0 <= c < |table| ==>
         table'[c] == if c in ids && WriteDone(table[c]) then table[c].(ending := Ending.Pruned) else table[c]
  }

  /** The scan has visited the first `i` clients of `ids` in `table`, and kept some. */
  ghost predicate Visited(s: State, table: seq<Client>, ids: seq<nat>, waiting: seq<nat>, i: nat, next: Next)
  {
    && Below(ids, |table|) && i <= |ids|
    && var finished := WritersDone(table, ids);
       var kept := Slices.Kept(ids, finished, i);
       && s.loop.pc == Prune(|kept|, |kept| < i, next)
       && s.loop.clients == kept + ids[i..]
       && s.loop.pending == Slices.StillWaiting(waiting, ids, finished, i)
       && Pruned(table, s.table, ids[..i])
  }

  lemma {:induction false} NotBefore(xs: seq<nat>, i: nat)
    requires Sorted(xs) && i < |xs|
    ensures xs[i] !in xs[..i]
  {
    if i > 0 {
      SortedTail(xs, 1);
      NotBefore(xs[1..], i - 1);
      assert xs[..i] == [xs[0]] + xs[1..][..i - 1];
      SortedHeadLeast(xs, xs[i]);
    }
  }

  /** What one step of the scan does at its client `x`. */
  lemma PruneShape(s: State, k: nat, x: nat, changed: bool, next: Next)
    requires !s.panicked && InRange(s.loop, |s.table|) && s.loop.pc == Prune(k, changed, next)
    requires k < |s.loop.clients| && s.loop.clients[k] == x
    ensures Enabled(s, Loop(Advance))
    ensures var t := Apply(s, Loop(Advance));
            if WriteDone(s.table[x]) then
              && t.loop.pc == Prune(k, true, next)
              && t.loop.clients == s.loop.clients[..k] + s.loop.clients[k + 1..]
              && t.loop.pending == Remove(s.loop.pending, x)
              && t.table == s.table[x := s.table[x].(ending := Ending.Pruned)]
            else t.loop == s.loop.(pc := Prune(k + 1, changed, next)) && t.table == s.table
  {
  }

  lemma PrunedNext(table: seq<Client>, now: seq<Client>, ids: seq<nat>, i: nat)
    requires Below(ids, |table|) && i < |ids| && ids[i] !in ids[..i] && Pruned(table, now, ids[..i])
    ensures now[ids[i]] == table[ids[i]]
    ensures var x := ids[i];
            var next := if WriteDone(table[x]) then now[x := now[x].(ending := Ending.Pruned)] else now;
            Pruned(table, next, ids[..i + 1])
  {
    assert ids[..i + 1] == ids[..i] + [ids[i]];
  }

  lemma ListsNext(kept: seq<nat>, ids: seq<nat>, i: nat)
    requires i < |ids|
    ensures var clients := kept + ids[i..]; var k := |kept|;
            && clients[k] == ids[i]
            && clients[..k] + clients[k + 1..] == kept + ids[i + 1..]
            && clients == (kept + [ids[i]]) + ids[i + 1..]
  {
    var clients := kept + ids[i..];
    assert ids[i..] == [ids[i]] + ids[i + 1..];
    assert clients[..|kept|] == kept && clients[|kept| + 1..] == ids[i + 1..];
  }

  lemma {:induction false} KeptAtMost(xs: seq<nat>, dropped: seq<bool>, n: nat)
    requires n <= |xs| <= |dropped|
    ensures |Slices.Kept(xs, dropped, n)| <= n
  {
    if n > 0 {
      KeptAtMost(xs, dropped, n - 1);
    }
  }

  /** The scan drops its client, or keeps it, and goes on. */
  lemma VisitedNext(t: State, table: seq<Client>, ids: seq<nat>, waiting: seq<nat>, i: nat, next: Next)
    requires Below(ids, |table|) && i < |ids|
    requires var done := WritersDone(table, ids);
             var kept, left := Slices.Kept(ids, done, i), Slices.StillWaiting(waiting, ids, done, i);
             && |kept| <= i
             && t.loop.pc == (if done[i] then Prune(|kept|, true, next) else Prune(|kept| + 1, |kept| < i, next))
             && t.loop.clients == (if done[i] then kept else kept + [ids[i]]) + ids[i + 1..]
             && t.loop.pending == if done[i] then Remove(left, ids[i]) else left
    requires Pruned(table, t.table, ids[..i + 1])
    ensures Visited(t, table, ids, waiting, i + 1, next)
  {
    hide Pruned, Remove, WriteDone;
  }

  lemma PruneStep(s: State, table: seq<Client>, ids: seq<nat>, waiting: seq<nat>, i: nat, next: Next)
    requires !s.panicked && InRange(s.loop, |s.table|)
    requires Visited(s, table, ids, waiting, i, next) && i < |ids| && Sorted(ids)
    ensures Enabled(s, Loop(Advance)) && Visited(Apply(s, Loop(Advance)), table, ids, waiting, i + 1, next)
  {
    hide InRange, Enabled, Apply, Pruned, WriteDone, Sorted, Remove, Slices.Kept, Slices.StillWaiting;
    var kept := Slices.Kept(ids, WritersDone(table, ids), i);
    KeptAtMost(ids, WritersDone(table, ids), i);
    ListsNext(kept, ids, i);
    NotBefore(ids, i);
    PrunedNext(table, s.table, ids, i);
    PruneShape(s, |kept|, ids[i], |kept| < i, next);
    var t := Apply(s, Loop(Advance));
    hide Visited;
    VisitedNext(t, table, ids, waiting, i, next);
  }

  lemma InvInRange(s: State)
    requires Inv(s)
    ensures InRange(s.loop, |s.table|)
  {
    hide FeedOk, Accounts, Traces, Wakes, SizesOk, Bounded;
  }

  lemma VisitedWithin(s: State, table: seq<Client>, ids: seq<nat>, waiting: seq<nat>, i: nat, next: Next)
    requires Visited(s, table, ids, waiting, i, next)
    ensures i <= |ids|
  {
  }

  lemma {:induction false} PruneRest(s: State, table: seq<Client>, ids: seq<nat>, waiting: seq<nat>, i: nat, next: Next)
    returns (labels: seq<Label>, t: State)
    requires Inv(s) && Visited(s, table, ids, waiting, i, next) && Sorted(ids)
    ensures Run(s, labels, t) && |labels| == |ids| - i && Inv(t)
    ensures Visited(t, table, ids, waiting, |ids|, next)
    decreases |ids| - i
  {
    hide Visited, Apply, Enabled, Sorted, Channels, FeedOk, Accounts, Traces, Wakes, SizesOk, Bounded;
    if i == |ids| {
      labels, t := [], s;
    } else {
      assert InRange(s.loop, |s.table|) by { InvInRange(s); }
      assert i < |ids| by { VisitedWithin(s, table, ids, waiting, i, next); }
      PruneStep(s, table, ids, waiting, i, next);
      StepInv(s, Loop(Advance));
      var more;
      more, t := PruneRest(Apply(s, Loop(Advance)), table, ids, waiting, i + 1, next);
      labels := [Loop(Advance)] + more;
      assert labels[1..] == more;
    }
  }

  lemma VisitedNone(s: State, next: Next)
    requires InRange(s.loop, |s.table|) && s.loop.pc == Prune(0, false, next)
    ensures Visited(s, s.table, s.loop.clients, s.loop.pending, 0, next)
  {
    var ids := s.loop.clients;
    assert [] + ids[0..] == ids && ids[..0] == [];
  }

  lemma VisitedAll(t: State, table: seq<Client>, ids: seq<nat>, waiting: seq<nat>, next: Next)
    requires Visited(t, table, ids, waiting, |ids|, next)
    ensures Below(ids, |table|)
    ensures var finished, n := WritersDone(table, ids), |ids|;
            && t.loop.clients == Slices.Kept(ids, finished, n)
            && t.loop.pending == Slices.StillWaiting(waiting, ids, finished, n)
            && t.loop.pc == Prune(|t.loop.clients|, |t.loop.clients| < n, next)
    ensures Pruned(table, t.table, ids)
  {
    var kept := Slices.Kept(ids, WritersDone(table, ids), |ids|);
    assert ids[..|ids|] == ids && ids[|ids|..] == [] && kept + [] == kept;
  }

  /**
   * A prune scan that no other component interrupts keeps exactly the clients whose
   * writers have not finished, in order, takes the others off the pending list, and closes them.
   */
  lemma PruneUninterrupted(s: State, next: Next) returns (labels: seq<Label>, t: State)
    requires Inv(s) && s.loop.pc == Prune(0, false, next)
    ensures Run(s, labels, t) && |labels| == |s.loop.clients| && Inv(t)
    ensures Below(s.loop.clients, |s.table|)
    ensures var finished, n := WritersDone(s.table, s.loop.clients), |s.loop.clients|;
            && t.loop.clients == Slices.Kept(s.loop.clients, finished, n)
            && t.loop.pending == Slices.StillWaiting(s.loop.pending, s.loop.clients, finished, n)
            && t.loop.pc == Prune(|t.loop.clients|, |t.loop.clients| < n, next)
    ensures Pruned(s.table, t.table, s.loop.clients)
  {
    InvInRange(s);
    hide Inv, InRange, Visited, Pruned;
    VisitedNone(s, next);
    labels, t := PruneRest(s, s.table, s.loop.clients, s.loop.pending, 0, next);
    VisitedAll(t, s.table, s.loop.clients, s.loop.pending, next);
  }
}
