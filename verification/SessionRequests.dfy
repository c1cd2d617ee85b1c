/** What each request does to the clients, said without the functions that do it. */
module SessionRequests {
  import opened Bytes
  import opened Sizes
  import opened Decimal
  import opened Session
  import opened SessionChannels
  import opened SessionDelivery
  import opened SessionFeed
  import opened SessionRuns
  import opened SessionSizes
  import Slices = SessionSlices
  import opened SessionTheorems
  import opened SessionTrace
  import opened SessionWakeup

  /** `ys` is `xs` with the one `c` in it taken out, if there is one; all others keep their order. */
  ghost predicate Without(xs: seq<nat>, ys: seq<nat>, c: nat)
  {
    && c !in ys
    && (c !in xs ==> ys == xs)
    && (c in xs ==> exists i :: 0 <= i < |xs| && xs[i] == c && ys == xs[..i] + xs[i + 1..])
  }

  lemma RemovedIsWithout(xs: seq<nat>, c: nat)
    requires Sorted(xs)
    ensures Without(xs, Remove(xs, c), c)
  {
    RemoveSorted(xs, c);
    if c in xs {
      var i :| 0 <= i < |xs| && xs[i] == c;
      RemoveAt(xs, i);
    } else {
      Slices.RemoveMissing(xs, c);
    }
  }

  /** Client `c` leaves for the reason `ending`; nothing else happens to it, and nothing to any other client. */
  ghost predicate Leaves(s: State, t: State, c: nat, ending: Ending)
  {
    && c < |s.table| && t.table == s.table[c := s.table[c].(ending := ending)]
    && Without(s.loop.clients, t.loop.clients, c)
    && Without(s.loop.pending, t.loop.pending, c)
    && t.loop.output == (if t.loop.pending == [] then None else s.loop.output)
    && t.loop.todo == s.loop.todo && t.loop.feed == s.loop.feed
    && t.loop.pc == Notify(0, ToTop)
  }

  /** The request was about nobody: clients, lists and size are as they were. */
  predicate NobodyLeaves(s: State, t: State)
  {
    && t.table == s.table && t.term == s.term
    && t.loop.clients == s.loop.clients && t.loop.pending == s.loop.pending
    && t.loop.pc == TOP
  }

  lemma AtDispatch(s: State)
    requires Reachable(s) && s.loop.pc.Dispatch?
    ensures Enabled(s, Loop(Advance)) && InRange(s.loop, |s.table|)
    ensures Sorted(s.loop.clients) && Sorted(s.loop.pending) && s.loop.todo == []
    ensures forall c <- s.loop.pending :: c in s.loop.clients
  {
    hide Reachable;
    ReachableChannels(s);
    ReachableUnpanicked(s);
    assert s.loop.pending + s.loop.todo == s.loop.pending;
  }

  lemma DropShape(s: State, c: nat, ending: Ending)
    requires InRange(s.loop, |s.table|) && c < |s.table|
    ensures var s1 := s.(loop := ResetOutput(s.loop)); var t := Drop(s1, c, ending);
            && t.table == s.table[c := s.table[c].(ending := ending)]
            && t.loop.clients == Remove(s.loop.clients, c) && t.loop.pending == Remove(s.loop.pending, c)
            && t.loop.output == (if t.loop.pending == [] then None else ResetOutput(s.loop).output)
            && t.loop.todo == s.loop.todo && t.loop.feed == s.loop.feed
            && t.loop.pc == Notify(0, ToTop)
  {
    hide Arbitrate, WritableSizes, Remove;
  }

  lemma DropLeaves(s: State, c: nat, ending: Ending)
    requires InRange(s.loop, |s.table|) && c in s.loop.clients && c < |s.table|
    requires Sorted(s.loop.clients) && Sorted(s.loop.pending)
    ensures var s1 := s.(loop := ResetOutput(s.loop)); Leaves(s, Drop(s1, c, ending), c, ending)
  {
    hide Drop, Without, Remove, InRange;
    DropShape(s, c, ending);
    RemovedIsWithout(s.loop.clients, c);
    RemovedIsWithout(s.loop.pending, c);
    if s.loop.pending == [] {
      Slices.RemoveMissing(s.loop.pending, c);
    }
  }

  /** A kick by the id of an attached client takes out that client, closes its queue, and touches no other. */
  lemma KickRemoves(s: State, c: nat)
    requires Reachable(s) && c in s.loop.clients && |s.table| < ID_SPACE && s.loop.pc == Dispatch(Kick(ClientId(c)))
    ensures Enabled(s, Loop(Advance)) && Leaves(s, Apply(s, Loop(Advance)), c, Kicked)
  {
    hide Reachable, Leaves;
    AtDispatch(s);
    KickFindsItsTarget(s, c);
    DropLeaves(s, c, Kicked);
  }

  lemma KickOfNobody(s: State, id: string)
    requires Reachable(s) && s.loop.pc == Dispatch(Kick(id)) && forall c <- s.loop.clients :: ClientId(c) != id
    ensures Enabled(s, Loop(Advance)) && NobodyLeaves(s, Apply(s, Loop(Advance)))
  {
    hide Reachable;
    AtDispatch(s);
  }

  /** A detach takes out its own client. */
  lemma DetachRemoves(s: State, c: nat)
    requires Reachable(s) && c in s.loop.clients && s.loop.pc == Dispatch(Detach(c))
    ensures Enabled(s, Loop(Advance)) && Leaves(s, Apply(s, Loop(Advance)), c, Detached)
  {
    hide Reachable, Leaves;
    AtDispatch(s);
    DropLeaves(s, c, Detached);
  }

  /** The detach of a client that was kicked or pruned before does nothing. */
  lemma DetachOfNobody(s: State, c: nat)
    requires Reachable(s) && c !in s.loop.clients && s.loop.pc == Dispatch(Detach(c))
    ensures Enabled(s, Loop(Advance)) && NobodyLeaves(s, Apply(s, Loop(Advance)))
  {
    hide Reachable;
    AtDispatch(s);
  }

  // --- Resize ----------------------------------------------------------------

  /** A resize stores the size that was asked for, and changes nothing else of any client. */
  lemma ResizeStores(s: State, c: nat, size: TermSize)
    requires InRange(s.loop, |s.table|) && !s.panicked && s.loop.pc == Dispatch(Resize(c, size))
    ensures Enabled(s, Loop(Advance))
    ensures var t := Apply(s, Loop(Advance));
            && c < |s.table| && t.table == s.table[c := s.table[c].(size := size)]
            && t.loop.clients == s.loop.clients && t.loop.pending == s.loop.pending && t.loop.pc == TOP
  {
    hide Arbitrate, WritableSizes;
  }

  /** `c` is attached and has the only say in the size. */
  predicate OnlyVoice(s: State, c: nat)
    requires InRange(s.loop, |s.table|)
  {
    && c in s.loop.clients && c < |s.table| && !s.table[c].readOnly
    && (forall d <- s.loop.clients :: d < |s.table| && (d != c ==> s.table[d].readOnly))
  }

  lemma {:induction false} ReadersHaveNoVoice(table: seq<Client>, clients: seq<nat>)
    requires Below(clients, |table|) && forall k :: 0 <= k < |clients| ==> table[clients[k]].readOnly
    ensures WritableSizes(table, clients) == []
  {
    if clients != [] {
      ReadersHaveNoVoice(table, clients[..|clients| - 1]);
    }
  }

  lemma {:induction false} OnlyVoiceIsHeard(table: seq<Client>, clients: seq<nat>, i: nat)
    requires Below(clients, |table|) && i < |clients| && !table[clients[i]].readOnly
    requires forall k :: 0 <= k < |clients| && k != i ==> table[clients[k]].readOnly
    ensures WritableSizes(table, clients) == [table[clients[i]].size]
  {
    var n := |clients| - 1;
    if i == n {
      ReadersHaveNoVoice(table, clients[..n]);
    } else {
      OnlyVoiceIsHeard(table, clients[..n], i);
    }
  }

  lemma FirstIndex(xs: seq<nat>, x: nat) returns (i: nat)
    requires x in xs
    ensures i < |xs| && xs[i] == x
  {
    i :| 0 <= i < |xs| && xs[i] == x;
  }

  lemma ChosenAlone(policy: Policy, size: TermSize)
    ensures Chosen(policy, [size]) == size
  {
    assert [size][..0] == [];
    assert MeetAll([size]) == Meet(MeetAll([]), size);
    assert JoinAll([size]) == Join(JoinAll([]), size);
  }

  lemma {:induction false} OnceInOrder(xs: seq<nat>, i: nat, k: nat)
    requires Sorted(xs) && i < |xs| && k < |xs| && i != k
    ensures xs[i] != xs[k]
  {
    if i == 0 {
      assert xs[k] == xs[1..][k - 1];
      SortedHeadLeast(xs, xs[k]);
    } else if k == 0 {
      assert xs[i] == xs[1..][i - 1];
      SortedHeadLeast(xs, xs[i]);
    } else {
      SortedTail(xs, 1);
      OnceInOrder(xs[1..], i - 1, k - 1);
    }
  }

  lemma OnlyVoiceAfterResize(s: State, c: nat, size: TermSize)
    requires InRange(s.loop, |s.table|) && Sorted(s.loop.clients) && OnlyVoice(s, c)
    ensures WritableSizes(s.table[c := s.table[c].(size := size)], s.loop.clients) == [size]
  {
    hide WritableSizes;
    var table := s.table[c := s.table[c].(size := size)];
    var i := FirstIndex(s.loop.clients, c);
    forall k | 0 <= k < |s.loop.clients| && k != i ensures table[s.loop.clients[k]].readOnly {
      assert s.loop.clients[k] in s.loop.clients;
      OnceInOrder(s.loop.clients, i, k);
    }
    OnlyVoiceIsHeard(table, s.loop.clients, i);
  }

  /** The resize of the only client with a say is the size of the terminal. */
  lemma ResizeTakesEffect(s: State, c: nat, size: TermSize)
    requires InRange(s.loop, |s.table|) && !s.panicked && s.loop.pc == Dispatch(Resize(c, size))
    requires Sorted(s.loop.clients) && OnlyVoice(s, c)
    ensures Enabled(s, Loop(Advance))
    ensures var t := Apply(s, Loop(Advance)); t.term.cols == size.cols && t.term.rows == size.rows
  {
    hide WritableSizes, Chosen, OnlyVoice;
    OnlyVoiceAfterResize(s, c, size);
    ChosenAlone(s.term.policy, size);
  }

  // --- Attach ----------------------------------------------------------------

  /**
   * An attach adds one client at the end, as its request says, with one message queued:
   * the id by which a kick will find it, the size as it then is, the screen, and whether
   * the attach created the session.
   */
  lemma AttachAdds(s: State)
    requires InRange(s.loop, |s.table|) && !s.panicked && s.loop.pc.AttachDump?
    ensures Enabled(s, Loop(DumpOk))
    ensures var t, spec, c := Apply(s, Loop(DumpOk)), s.loop.pc.spec, |s.table|;
            && |t.table| == c + 1 && t.table[..c] == s.table
            && t.loop.clients == s.loop.clients + [c] && t.loop.pending == s.loop.pending
            && t.table[c].readOnly == spec.readOnly && t.table[c].size == spec.size
            && t.table[c].ending.Open? && t.table[c].pc.Idle? && t.table[c].wire == []
            && t.table[c].queue == [Attached(ClientId(c), s.term.cols, s.term.rows, s.term.log, spec.created)]
  {
    hide Arbitrate, WritableSizes;
  }

  /** An attach whose dump fails adds nobody. */
  lemma FailedAttachAddsNobody(s: State)
    requires InRange(s.loop, |s.table|) && !s.panicked && s.loop.pc.AttachDump?
    ensures Enabled(s, Loop(DumpFail))
    ensures var t := Apply(s, Loop(DumpFail));
            t.table == s.table && t.loop.clients == s.loop.clients && t.loop.pending == s.loop.pending
  {
  }

  /** A writable attach is granted its size before the dump if nobody else has a say; a read-only one changes none. */
  lemma AttachResizes(s: State, spec: AttachSpec)
    requires InRange(s.loop, |s.table|) && !s.panicked && s.loop.pc == Dispatch(Attach(spec))
    ensures Enabled(s, Loop(Advance))
    ensures var t := Apply(s, Loop(Advance));
            && t.table == s.table && t.loop.clients == s.loop.clients
            && (spec.readOnly ==> t.term == s.term)
            && (!spec.readOnly && WritableSizes(s.table, s.loop.clients) == [] ==>
                  t.term.cols == spec.size.cols && t.term.rows == spec.size.rows)
            && (t.loop.pc == AttachFlush(spec) || t.loop.pc == AttachWait(spec))
  {
    assert [] + [spec.size] == [spec.size];
    ChosenAlone(s.term.policy, spec.size);
    hide Chosen;
  }

  // --- Notices ---------------------------------------------------------------

  /** A notice tells each client in turn how many are attached, and the size; a full queue drops it. */
  lemma NoticeSays(s: State)
    requires InRange(s.loop, |s.table|) && !s.panicked && s.loop.pc.Notify? && s.loop.pc.i < |s.loop.clients|
    ensures Enabled(s, Loop(Advance))
    ensures var t, x := Apply(s, Loop(Advance)), s.loop.clients[s.loop.pc.i];
            var notice := ClientsChanged(|s.loop.clients| % 0x1_0000, s.term.cols, s.term.rows);
            var cl := s.table[x];
            t.table == s.table[x := cl.(queue := if |cl.queue| < 256 then cl.queue + [notice] else cl.queue)]
  {
  }
}
