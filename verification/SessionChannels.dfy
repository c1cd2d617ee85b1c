/**
 * Channel discipline: which clients the loop holds, in what order, and when it
 * closes their queues.
 */
module SessionChannels {
  import opened Bytes
  import opened Sizes
  import opened Session

  predicate Sorted(xs: seq<nat>)
  {
    |xs| >= 2 ==> xs[0] < xs[1] && Sorted(xs[1..])
  }

  /** The clients whose queue the loop has not closed. */
  function OpenList(v: LoopVars): seq<nat>
  {
    match v.pc
    case ExitClose(i) => if i <= |v.clients| then v.clients[i..] else []
    case StopClose(i) => if i <= |v.clients| then v.clients[i..] else []
    case Halted(_) => []
    case _ => v.clients
  }

  ghost predicate OpenIff(table: seq<Client>, open: seq<nat>)
  {
    forall c :: 0 <= c < |table| ==> (table[c].ending.Open? <==> c in open)
  }

  /** Lists are in attach order; only listed clients wait for a delivery. */
  ghost predicate Lists(clients: seq<nat>, pending: seq<nat>, todo: seq<nat>)
  {
    && Sorted(clients)
    && Sorted(pending + todo)
    && (forall c <- pending + todo :: c in clients)
  }

  ghost predicate ListsOk(v: LoopVars)
  {
    Lists(v.clients, v.pending, v.todo)
  }

  predicate OutputIffWaiting(v: LoopVars)
  {
    && (v.todo != [] ==> v.pc.Offer?)
    && (v.output.None? ==> v.pending == [] && v.todo == [])
    && (v.pc.Select? && v.pending == [] ==> v.output.None?)
    && (v.pc.ExitWait? || v.pc.ExitDrain? || v.pc.ExitClose? || v.pc == Halted(true) ==> v.output.None?)
  }

  ghost predicate Channels(v: LoopVars, table: seq<Client>)
  {
    && InRange(v, |table|)
    && ListsOk(v)
    && OutputIffWaiting(v)
    && OpenIff(table, OpenList(v))
  }

  lemma {:induction false} SortedTail(xs: seq<nat>, i: nat)
    requires Sorted(xs) && i <= |xs|
    ensures Sorted(xs[i..])
  {
    if i == 0 {
      assert xs[0..] == xs;
    } else if |xs| >= 2 {
      SortedTail(xs[1..], i - 1);
      assert xs[1..][i - 1..] == xs[i..];
    }
  }

  lemma {:induction false} SortedHeadLeast(xs: seq<nat>, x: nat)
    requires Sorted(xs) && xs != [] && x in xs[1..]
    ensures xs[0] < x
  {
    if x != xs[1] {
      assert xs[1..] == [xs[1]] + xs[1..][1..];
      SortedHeadLeast(xs[1..], x);
    }
  }

  lemma {:induction false} RemoveSorted(xs: seq<nat>, x: nat)
    requires Sorted(xs)
    ensures Sorted(Remove(xs, x))
    ensures forall y :: y in Remove(xs, x) <==> y in xs && y != x
  {
    if xs != [] {
      assert xs == [xs[0]] + xs[1..];
      if xs[0] == x {
        SortedTail(xs, 1);
        forall y | y in xs[1..] ensures y != x { SortedHeadLeast(xs, y); }
      } else {
        SortedTail(xs, 1);
        RemoveSorted(xs[1..], x);
        var r := Remove(xs[1..], x);
        if r != [] {
          assert r[0] in r;
          SortedHeadLeast(xs, r[0]);
          assert Remove(xs, x)[1..] == r;
        }
      }
    }
  }

  lemma {:induction false} RemoveAt(xs: seq<nat>, i: nat)
    requires Sorted(xs) && i < |xs|
    ensures xs[..i] + xs[i + 1..] == Remove(xs, xs[i])
  {
    if i > 0 {
      assert xs[i] == xs[1..][i - 1];
      SortedHeadLeast(xs, xs[i]);
      RemoveAt(xs[1..], i - 1);
      assert xs[..i] + xs[i + 1..] == [xs[0]] + (xs[1..][..i - 1] + xs[1..][i..]);
    } else {
      assert xs[..i] + xs[i + 1..] == xs[1..];
    }
  }

  lemma {:induction false} SortedAppend(xs: seq<nat>, x: nat)
    requires Sorted(xs) && forall y <- xs :: y < x
    ensures Sorted(xs + [x])
  {
    if xs != [] {
      assert (xs + [x])[1..] == xs[1..] + [x];
      SortedTail(xs, 1);
      assert forall y <- xs[1..] :: y in xs;
      SortedAppend(xs[1..], x);
      assert xs[0] in xs;
    }
  }

  lemma {:induction false} SortedGap(xs: seq<nat>, ys: seq<nat>)
    requires Sorted(xs + ys) && ys != []
    ensures Sorted(xs + ys[1..])
  {
    if xs == [] {
      assert xs + ys == ys && xs + ys[1..] == ys[1..];
      SortedTail(ys, 1);
    } else {
      assert (xs + ys)[1..] == xs[1..] + ys && (xs + ys[1..])[1..] == xs[1..] + ys[1..];
      SortedTail(xs + ys, 1);
      SortedGap(xs[1..], ys);
      if |xs| == 1 && |ys| > 1 {
        SortedTail(ys, 0);
        assert (xs + ys)[1..] == ys;
        assert ys[1] == ys[1..][0];
      }
    }
  }

  lemma InitChannels(policy: Policy, cols: Dim, rows: Dim)
    ensures Channels(Init(policy, cols, rows).loop, [])
  {
    var v := Init(policy, cols, rows).loop;
    assert v.pending + v.todo == [];
    assert Sorted(v.clients) && Sorted(v.pending + v.todo);
  }

  lemma ListsDrop(v: LoopVars, c: nat)
    requires ListsOk(v) && v.todo == []
    ensures Lists(Remove(v.clients, c), Remove(v.pending, c), v.todo)
    ensures forall y :: y in Remove(v.clients, c) <==> y in v.clients && y != c
    ensures forall y :: y in Remove(v.pending, c) <==> y in v.pending && y != c
    ensures v.pending == [] ==> Remove(v.pending, c) == []
  {
    assert v.pending + v.todo == v.pending;
    assert Remove(v.pending, c) + v.todo == Remove(v.pending, c);
    RemoveSorted(v.clients, c);
    RemoveSorted(v.pending, c);
  }

  lemma ListsVisit(v: LoopVars)
    requires ListsOk(v) && v.todo != []
    ensures Lists(v.clients, v.pending, v.todo[1..])
    ensures Lists(v.clients, v.pending + [v.todo[0]], v.todo[1..])
    ensures v.todo[0] in v.clients
  {
    var c, rest := v.todo[0], v.todo[1..];
    assert v.pending + v.todo == (v.pending + [c]) + rest;
    assert v.todo == [c] + rest;
    assert c in v.pending + v.todo;
    SortedGap(v.pending, v.todo);
  }

  lemma {:induction false} SortedFirstOnce(xs: seq<nat>, ys: seq<nat>)
    requires Sorted(xs + ys) && ys != []
    ensures ys[0] !in xs && ys[0] !in ys[1..]
  {
    if xs == [] {
      assert xs + ys == ys;
      if ys[0] in ys[1..] {
        SortedHeadLeast(ys, ys[0]);
      }
    } else {
      assert (xs + ys)[1..] == xs[1..] + ys;
      SortedTail(xs + ys, 1);
      SortedFirstOnce(xs[1..], ys);
      assert ys[0] in (xs + ys)[1..];
      SortedHeadLeast(xs + ys, ys[0]);
    }
  }

  /** A scan visits each client once, and none that is already pending. */
  lemma VisitOnce(v: LoopVars)
    requires ListsOk(v) && v.todo != []
    ensures v.todo[0] !in v.pending && v.todo[0] !in v.todo[1..]
  {
    SortedFirstOnce(v.pending, v.todo);
  }

  // --- Ranges ----------------------------------------------------------------

  lemma DropInRange(s: State, c: nat, ending: Ending)
    requires InRange(s.loop, |s.table|) && c < |s.table|
    ensures var s' := Drop(s, c, ending); InRange(s'.loop, |s'.table|)
  {
    RemoveBelow(s.loop.clients, c, |s.table|);
    RemoveBelow(s.loop.pending, c, |s.table|);
  }

  lemma ActionInRangeKept(s: State, a: Action)
    requires InRange(s.loop, |s.table|) && ActionInRange(a, |s.table|)
    ensures var s' := StepAction(s, a); InRange(s'.loop, |s'.table|)
  {
    match a {
      case Detach(c) => if c in s.loop.clients { DropInRange(s, c, Detached); }
      case Kick(id) =>
        var target := FindById(s.loop.clients, id);
        if target.Some? { DropInRange(s, target.value, Kicked); }
      case _ =>
    }
  }

  lemma PruneInRange(s: State)
    requires InRange(s.loop, |s.table|) && s.loop.pc.Prune?
    ensures var s' := StepPrune(s); InRange(s'.loop, |s'.table|)
  {
    if Finds(s) {
      RemoveBelow(s.loop.pending, s.loop.clients[s.loop.pc.i], |s.table|);
    }
  }

  lemma OfferInRange(s: State)
    requires InRange(s.loop, |s.table|) && s.loop.pc.Offer?
    ensures var s' := StepOffer(s); InRange(s'.loop, |s'.table|)
  {
  }

  lemma CloseInRange(s: State)
    requires InRange(s.loop, |s.table|) && (s.loop.pc.ExitClose? || s.loop.pc.StopClose?)
    ensures var s' := StepClose(s); InRange(s'.loop, |s'.table|)
  {
  }

  lemma AdvanceInRange(s: State)
    requires InRange(s.loop, |s.table|) && CanAdvance(s)
    ensures var s' := StepAdvance(s); InRange(s'.loop, |s'.table|)
  {
    hide StepPrune, StepOffer, StepAction, StepClose;
    match s.loop.pc {
      case Prune(_, _, _) => PruneInRange(s);
      case Offer(_) => OfferInRange(s);
      case Dispatch(a) => ActionInRangeKept(s.(loop := ResetOutput(s.loop)), a);
      case ExitClose(_) => CloseInRange(s);
      case StopClose(_) => CloseInRange(s);
      case Notify(_, _) =>
      case Settle =>
      case _ =>
    }
  }

  lemma LoopInRange(s: State, op: LoopOp)
    requires InRange(s.loop, |s.table|) && LoopEnabled(s, op)
    ensures var s' := LoopStep(s, op); InRange(s'.loop, |s'.table|)
  {
    if op.Advance? {
      AdvanceInRange(s);
    }
  }

  // --- Lists and open queues -------------------------------------------------

  lemma PruneOneKeepsChannels(s: State)
    requires Channels(s.loop, s.table) && s.loop.pc.Prune? && Finds(s)
    ensures var s' := PruneOne(s); ListsOk(s'.loop)
    ensures var s' := PruneOne(s); OutputIffWaiting(s'.loop)
    ensures var s' := PruneOne(s); OpenIff(s'.table, OpenList(s'.loop))
  {
    var v := s.loop;
    RemoveAt(v.clients, v.pc.i);
    ListsDrop(v, v.clients[v.pc.i]);
  }

  lemma PruneKeepsChannels(s: State)
    requires Channels(s.loop, s.table) && s.loop.pc.Prune?
    ensures var s' := StepPrune(s); ListsOk(s'.loop)
    ensures var s' := StepPrune(s); OutputIffWaiting(s'.loop)
    ensures var s' := StepPrune(s); OpenIff(s'.table, OpenList(s'.loop))
  {
    if Finds(s) {
      PruneOneKeepsChannels(s);
    }
  }

  lemma NotifyKeepsChannels(s: State)
    requires Channels(s.loop, s.table) && s.loop.pc.Notify?
    ensures var s' := StepNotify(s); ListsOk(s'.loop)
    ensures var s' := StepNotify(s); OutputIffWaiting(s'.loop)
    ensures var s' := StepNotify(s); OpenIff(s'.table, OpenList(s'.loop))
  {
    hide Lists;
  }

  lemma SettleKeepsChannels(s: State)
    requires Channels(s.loop, s.table) && s.loop.pc.Settle?
    ensures var s' := StepSettle(s); ListsOk(s'.loop)
    ensures var s' := StepSettle(s); OutputIffWaiting(s'.loop)
    ensures var s' := StepSettle(s); OpenIff(s'.table, OpenList(s'.loop))
  {
    assert s.loop.pending + s.loop.todo == s.loop.pending == [] + s.loop.pending;
  }

  lemma OfferKeepsChannels(s: State)
    requires Channels(s.loop, s.table) && s.loop.pc.Offer?
    ensures var s' := StepOffer(s); ListsOk(s'.loop)
    ensures var s' := StepOffer(s); OutputIffWaiting(s'.loop)
    ensures var s' := StepOffer(s); OpenIff(s'.table, OpenList(s'.loop))
  {
    if s.loop.todo != [] {
      ListsVisit(s.loop);
    }
    hide Lists;
  }

  lemma DropKeepsChannels(s: State, c: nat, ending: Ending)
    requires Channels(s.loop, s.table) && s.loop.pc.Dispatch? && c in s.loop.clients && !ending.Open?
    ensures var s' := Drop(s, c, ending); ListsOk(s'.loop)
    ensures var s' := Drop(s, c, ending); OutputIffWaiting(s'.loop)
    ensures var s' := Drop(s, c, ending); OpenIff(s'.table, OpenList(s'.loop))
  {
    ListsDrop(s.loop, c);
  }

  lemma ResizeKeepsChannels(s: State, c: nat, size: TermSize)
    requires Channels(s.loop, s.table) && s.loop.pc.Dispatch? && c < |s.table|
    ensures var s' := StepResize(s, c, size); ListsOk(s'.loop)
    ensures var s' := StepResize(s, c, size); OutputIffWaiting(s'.loop)
    ensures var s' := StepResize(s, c, size); OpenIff(s'.table, OpenList(s'.loop))
  {
    hide Lists;
  }

  lemma StopKeepsChannels(s: State)
    requires Channels(s.loop, s.table) && s.loop.pc.Dispatch?
    ensures var s' := StepStop(s); ListsOk(s'.loop)
    ensures var s' := StepStop(s); OutputIffWaiting(s'.loop)
    ensures var s' := StepStop(s); OpenIff(s'.table, OpenList(s'.loop))
  {
    hide Lists;
  }

  lemma AttachKeepsChannels(s: State, spec: AttachSpec)
    requires Channels(s.loop, s.table) && s.loop.pc.Dispatch?
    ensures var s' := StepAttach(s, spec); ListsOk(s'.loop)
    ensures var s' := StepAttach(s, spec); OutputIffWaiting(s'.loop)
    ensures var s' := StepAttach(s, spec); OpenIff(s'.table, OpenList(s'.loop))
  {
    hide Lists;
  }

  lemma ActionKeepsChannels(s: State, a: Action)
    requires Channels(s.loop, s.table) && s.loop.pc.Dispatch? && ActionInRange(a, |s.table|)
    ensures var s' := StepAction(s, a); ListsOk(s'.loop)
    ensures var s' := StepAction(s, a); OutputIffWaiting(s'.loop)
    ensures var s' := StepAction(s, a); OpenIff(s'.table, OpenList(s'.loop))
  {
    hide Lists, OpenIff, Drop, StepResize, StepStop, StepAttach;
    match a {
      case Detach(c) => if c in s.loop.clients { DropKeepsChannels(s, c, Detached); }
      case Kick(id) =>
        var target := FindById(s.loop.clients, id);
        if target.Some? { DropKeepsChannels(s, target.value, Kicked); }
      case Resize(c, size) => ResizeKeepsChannels(s, c, size);
      case Stop => StopKeepsChannels(s);
      case Attach(spec) => AttachKeepsChannels(s, spec);
      case Info =>
    }
  }

  lemma DispatchKeepsChannels(s: State)
    requires Channels(s.loop, s.table) && s.loop.pc.Dispatch?
    ensures var s' := StepDispatch(s); ListsOk(s'.loop)
    ensures var s' := StepDispatch(s); OutputIffWaiting(s'.loop)
    ensures var s' := StepDispatch(s); OpenIff(s'.table, OpenList(s'.loop))
  {
    ActionKeepsChannels(s.(loop := ResetOutput(s.loop)), s.loop.pc.action);
  }

  lemma OpenIffClose(table: seq<Client>, clients: seq<nat>, i: nat, cl: Client)
    requires Sorted(clients) && i < |clients| && clients[i] < |table|
    requires OpenIff(table, clients[i..]) && !cl.ending.Open?
    ensures OpenIff(table[clients[i] := cl], clients[i + 1..])
  {
    var tail, rest := clients[i..], clients[i + 1..];
    assert tail == [clients[i]] + rest && tail[1..] == rest;
    SortedTail(clients, i);
    forall y | y in rest ensures y != clients[i] {
      SortedHeadLeast(tail, y);
    }
  }

  lemma CloseOneKeepsChannels(s: State)
    requires Channels(s.loop, s.table) && (s.loop.pc.ExitClose? || s.loop.pc.StopClose?)
    requires s.loop.pc.i < |s.loop.clients|
    ensures var s' := CloseOne(s); ListsOk(s'.loop)
    ensures var s' := CloseOne(s); OutputIffWaiting(s'.loop)
    ensures var s' := CloseOne(s); OpenIff(s'.table, OpenList(s'.loop))
  {
    assert Sorted(s.loop.clients);
    hide Lists, OpenIff;
    var i := s.loop.pc.i;
    if s.loop.pc.StopClose? || s.pty.exitCode.Some? {
      OpenIffClose(s.table, s.loop.clients, i, CloseOne(s).table[s.loop.clients[i]]);
    }
  }

  lemma CloseKeepsChannels(s: State)
    requires Channels(s.loop, s.table) && (s.loop.pc.ExitClose? || s.loop.pc.StopClose?)
    ensures var s' := StepClose(s); ListsOk(s'.loop)
    ensures var s' := StepClose(s); OutputIffWaiting(s'.loop)
    ensures var s' := StepClose(s); OpenIff(s'.table, OpenList(s'.loop))
  {
    hide Lists;
    if s.loop.pc.i < |s.loop.clients| {
      CloseOneKeepsChannels(s);
    }
  }

  lemma DumpKeepsChannels(s: State)
    requires Channels(s.loop, s.table) && s.loop.pc.AttachDump?
    ensures var s' := StepDumpOk(s); ListsOk(s'.loop)
    ensures var s' := StepDumpOk(s); OutputIffWaiting(s'.loop)
    ensures var s' := StepDumpOk(s); OpenIff(s'.table, OpenList(s'.loop))
  {
    SortedAppend(s.loop.clients, |s.table|);
  }

  lemma AdvanceKeepsChannels(s: State)
    requires Channels(s.loop, s.table) && CanAdvance(s)
    ensures var s' := StepAdvance(s); ListsOk(s'.loop)
    ensures var s' := StepAdvance(s); OutputIffWaiting(s'.loop)
    ensures var s' := StepAdvance(s); OpenIff(s'.table, OpenList(s'.loop))
  {
    hide Lists, StepPrune, StepNotify, StepSettle, StepOffer, StepDispatch, StepClose;
    match s.loop.pc {
      case Prune(_, _, _) => PruneKeepsChannels(s);
      case Notify(_, _) => NotifyKeepsChannels(s);
      case Settle => SettleKeepsChannels(s);
      case Offer(_) => OfferKeepsChannels(s);
      case Dispatch(_) => DispatchKeepsChannels(s);
      case ExitClose(_) => CloseKeepsChannels(s);
      case StopClose(_) => CloseKeepsChannels(s);
      case ExitDrain => assert s.loop.clients[0..] == s.loop.clients;
      case StopDrain => assert s.loop.clients[0..] == s.loop.clients;
      case AttachFlush(_) =>
      case AttachWait(_) =>
      case ExitWait =>
    }
  }

  lemma LoopKeepsChannels(s: State, op: LoopOp)
    requires Channels(s.loop, s.table) && LoopEnabled(s, op)
    ensures var s' := LoopStep(s, op); ListsOk(s'.loop)
    ensures var s' := LoopStep(s, op); OutputIffWaiting(s'.loop)
    ensures var s' := LoopStep(s, op); OpenIff(s'.table, OpenList(s'.loop))
  {
    match op {
      case Advance => AdvanceKeepsChannels(s);
      case TakeBatch(_) => assert [] + s.loop.clients == s.loop.clients;
      case DumpOk => DumpKeepsChannels(s);
      case _ =>
    }
  }

  lemma WriterKeepsChannels(s: State, c: nat, op: WriterOp)
    requires Channels(s.loop, s.table) && c < |s.table| && WriterEnabled(s.table[c], op)
    ensures Channels(s.loop, WriterStep(s, c, op).table)
  {
    var table := WriterStep(s, c, op).table;
    assert OpenIff(table, OpenList(s.loop));
  }

  lemma StepKeepsChannels(s: State, l: Label)
    requires Channels(s.loop, s.table) && Enabled(s, l)
    ensures var s' := Apply(s, l); Channels(s'.loop, s'.table)
  {
    match l {
      case Loop(op) =>
        LoopInRange(s, op);
        LoopKeepsChannels(s, op);
      case Writer(c, op) => WriterKeepsChannels(s, c, op);
      case _ =>
    }
  }
}
