/** What happens to accepted output on its way to the terminal. */
module SessionFeed {
  import opened Bytes
  import opened Sizes
  import opened Session

  function ItemBytes(it: Item): Bytes { it.data }

  function HeldItem(o: Option<Item>): seq<Item>
  {
    if o.Some? then [o.value] else []
  }

  /** Accepted chunks whose `applied` channel is still open, oldest first. */
  function Unacked(held: Option<Item>, f: FeedVars): seq<Item>
  {
    (if f.pc.Taken? || f.pc.Applied? then [f.pc.item] else []) + f.queue + HeldItem(held)
  }

  /** Accepted chunks the terminal has not seen, oldest first. */
  function Unfed(held: Option<Item>, f: FeedVars): seq<Item>
  {
    (if f.pc.Taken? then [f.pc.item] else []) + f.queue + HeldItem(held)
  }

  ghost predicate Numbered(u: seq<Item>, last: nat, acked: set<nat>)
  {
    && (forall k :: 0 <= k < |u| ==> 0 < u[k].id <= last && u[k].id !in acked && u[k].id == u[0].id + k)
    && (forall i <- acked :: i <= last)
  }

  /** The last accepted chunk is unacknowledged iff any chunk is. */
  ghost predicate Current(u: seq<Item>, last: nat, acked: set<nat>)
  {
    if u == [] then last == 0 || last in acked else u[|u| - 1].id == last
  }

  /** Every buffer in use has one owner and holds the bytes it was filled with. */
  ghost predicate Owned(u: seq<Item>, memory: seq<Bytes>, pool: multiset<nat>)
  {
    && (forall k :: 0 <= k < |u| ==> u[k].buf < |memory| && u[k].buf !in pool && memory[u[k].buf] == u[k].data)
    && (forall i, j :: 0 <= i < j < |u| ==> u[i].buf != u[j].buf)
    && (forall b <- pool :: b < |memory| && pool[b] == 1)
  }

  /** The loop's control states, as far as they matter to the feed. */
  datatype Stage = Live | Flush | Wait | Dump | Eof | ExitDraining | ExitDrained | StopDraining | StopDrained

  function StageOf(pc: LoopPc): Stage
  {
    match pc
    case AttachFlush(_) => Flush
    case AttachWait(_) => Wait
    case AttachDump(_) => Dump
    case ExitWait => Eof
    case ExitDrain => ExitDraining
    case ExitClose(_) => ExitDrained
    case StopDrain => StopDraining
    case StopClose(_) => StopDrained
    case Halted(natural) => if natural then ExitDrained else StopDrained
    case _ => Live
  }

  predicate Running(f: FeedVars, pty: PtyVars, lost: Bytes)
  {
    !f.closed && !f.pc.Ended? && lost == [] && (pty.closed ==> pty.exitCode.Some?)
  }

  predicate AtEof(pty: PtyVars)
  {
    pty.out == [] && pty.closed && pty.exitCode.Some?
  }

  predicate FeedControl(stage: Stage, held: Option<Item>, f: FeedVars, pty: PtyVars, lost: Bytes)
  {
    match stage
    case Live => Running(f, pty, lost)
    case Flush => Running(f, pty, lost) && held.Some?
    case Wait => Running(f, pty, lost) && held.None?
    case Dump => Running(f, pty, lost) && Unacked(held, f) == []
    case Eof => Running(f, pty, lost) && held.None? && AtEof(pty)
    case ExitDraining => f.closed && Unacked(held, f) == [] && AtEof(pty) && lost == []
    case ExitDrained => f.closed && Unacked(held, f) == [] && AtEof(pty) && lost == [] && f.pc.Ended?
    case StopDraining => f.closed && held.None? && (f.pc.Ended? ==> f.queue == [])
    case StopDrained => f.closed && held.None? && f.pc.Ended? && f.queue == []
  }

  /** Bytes applied, in flight and lost make up the bytes accepted. */
  predicate Conserves(log: seq<TermEvent>, unfed: seq<Item>, lost: Bytes, accepted: Bytes)
  {
    Cat(FedBytes, log) + (Cat(ItemBytes, unfed) + lost) == accepted
  }

  predicate Conserved(s: State)
  {
    && Conserves(s.term.log, Unfed(s.loop.feed, s.feed), s.lost, s.accepted)
    && s.pty.produced == s.accepted + Flat(s.pty.out)
  }

  ghost predicate InFlight(
      u: seq<Item>, last: nat, live: bool, acked: set<nat>, memory: seq<Bytes>, pool: multiset<nat>)
  {
    && Numbered(u, last, acked)
    && (live ==> Current(u, last, acked))
    && Owned(u, memory, pool)
  }

  ghost predicate FlightOk(v: LoopVars, f: FeedVars)
  {
    InFlight(Unacked(v.feed, f), v.lastItem, !f.closed, f.acked, f.memory, f.pool)
  }

  ghost predicate ControlOk(s: State)
  {
    FeedControl(StageOf(s.loop.pc), s.loop.feed, s.feed, s.pty, s.lost)
  }

  ghost predicate FeedOk(s: State)
  {
    FlightOk(s.loop, s.feed) && ControlOk(s) && Conserved(s)
  }

  // --- The loop --------------------------------------------------------------

  /** A step that neither accepts, hands over nor drops a chunk. */
  ghost predicate SameFeed(s: State, s': State)
  {
    && s'.loop.feed == s.loop.feed && s'.loop.lastItem == s.loop.lastItem
    && s'.feed == s.feed && s'.pty == s.pty
    && s'.accepted == s.accepted && s'.lost == s.lost
    && Cat(FedBytes, s'.term.log) == Cat(FedBytes, s.term.log)
  }

  lemma ResizeFeedsNothing(t: TermVars, size: TermSize)
    ensures Cat(FedBytes, ResizeTo(t, size).log) == Cat(FedBytes, t.log)
  {
    CatSnoc(FedBytes, t.log, Resized(size.cols, size.rows));
  }

  lemma ArbitrateFeedsNothing(t: TermVars, sizes: seq<TermSize>)
    ensures Cat(FedBytes, Arbitrate(t, sizes).log) == Cat(FedBytes, t.log)
  {
    if sizes != [] {
      ResizeFeedsNothing(t, Chosen(t.policy, sizes));
    }
  }

  lemma DropSameFeed(s: State, c: nat, ending: Ending)
    requires InRange(s.loop, |s.table|) && c < |s.table|
    ensures SameFeed(s, Drop(s, c, ending)) && Drop(s, c, ending).loop.pc.Notify?
  {
    RemoveBelow(s.loop.clients, c, |s.table|);
    ArbitrateFeedsNothing(s.term, WritableSizes(Drop(s, c, ending).table, Remove(s.loop.clients, c)));
  }

  lemma ActionSameFeed(s: State, a: Action)
    requires InRange(s.loop, |s.table|) && ActionInRange(a, |s.table|) && !a.Stop?
    ensures SameFeed(s, StepAction(s, a))
    ensures var pc := StepAction(s, a).loop.pc;
            pc.Notify? || pc.Prune? || (pc.AttachFlush? && s.loop.feed.Some?) || (pc.AttachWait? && s.loop.feed.None?)
  {
    match a {
      case Attach(spec) =>
        ResizeFeedsNothing(s.term, Chosen(s.term.policy, WritableSizes(s.table, s.loop.clients) + [spec.size]));
      case Detach(c) => if c in s.loop.clients { DropSameFeed(s, c, Detached); }
      case Kick(id) =>
        var target := FindById(s.loop.clients, id);
        if target.Some? { DropSameFeed(s, target.value, Kicked); }
      case Resize(c, size) =>
        var s' := StepResize(s, c, size);
        ArbitrateFeedsNothing(s.term, WritableSizes(s'.table, s.loop.clients));
      case Info =>
    }
  }

  lemma DumpSameFeed(s: State)
    requires InRange(s.loop, |s.table|) && s.loop.pc.AttachDump?
    ensures SameFeed(s, StepDumpOk(s))
  {
    var s' := StepDumpOk(s);
    ArbitrateFeedsNothing(s.term, WritableSizes(s'.table, s'.loop.clients));
  }

  /** The states in which the loop hands on or gives up no chunk. */
  predicate Bystander(pc: LoopPc)
  {
    !pc.AttachFlush? && !pc.Dispatch? && !pc.ExitWait?
  }

  lemma ScanSameFeed(s: State)
    requires InRange(s.loop, |s.table|) && (s.loop.pc.Prune? || s.loop.pc.Notify?)
    ensures SameFeed(s, if s.loop.pc.Prune? then StepPrune(s) else StepNotify(s))
  {
  }

  lemma CloseSameFeed(s: State)
    requires InRange(s.loop, |s.table|) && (s.loop.pc.ExitClose? || s.loop.pc.StopClose?)
    ensures SameFeed(s, StepClose(s))
  {
  }

  lemma OfferSameFeed(s: State)
    requires InRange(s.loop, |s.table|) && (s.loop.pc.Offer? || s.loop.pc.Settle?)
    ensures SameFeed(s, if s.loop.pc.Offer? then StepOffer(s) else StepSettle(s))
  {
    hide InRange;
  }

  lemma AdvanceSameFeed(s: State)
    requires InRange(s.loop, |s.table|) && CanAdvance(s) && Bystander(s.loop.pc)
    ensures SameFeed(s, StepAdvance(s))
  {
    match s.loop.pc {
      case Prune(_, _, _) => ScanSameFeed(s);
      case Notify(_, _) => ScanSameFeed(s);
      case Settle => OfferSameFeed(s);
      case Offer(_) => OfferSameFeed(s);
      case ExitClose(_) => CloseSameFeed(s);
      case StopClose(_) => CloseSameFeed(s);
      case AttachWait(_) =>
      case ExitDrain =>
      case StopDrain =>
    }
  }

  // --- The chunks in flight, as a queue ---------------------------------------

  lemma ReleaseOldest(it: Item, u: seq<Item>, last: nat, f: FeedVars)
    requires Numbered([it] + u, last, f.acked) && Owned([it] + u, f.memory, f.pool)
    ensures Numbered(u, last, f.acked + {it.id})
    ensures Owned(u, f.memory, f.pool + multiset{it.buf})
  {
    var all := [it] + u;
    assert all[0] == it;
    assert forall k :: 0 <= k < |u| ==> u[k] == all[k + 1];
  }

  lemma ReleaseNewest(u: seq<Item>, it: Item, last: nat, f: FeedVars)
    requires Numbered(u + [it], last, f.acked) && Owned(u + [it], f.memory, f.pool)
    ensures Numbered(u, last, f.acked + {it.id})
    ensures Owned(u, f.memory, f.pool + multiset{it.buf})
  {
    var all := u + [it];
    assert all[|u|] == it;
    assert forall k :: 0 <= k < |u| ==> u[k] == all[k];
  }

  lemma AcceptNewest(u: seq<Item>, last: nat, f: FeedVars, buf: nat, data: Bytes, memory: seq<Bytes>)
    requires Numbered(u, last, f.acked) && Current(u, last, f.acked) && Owned(u, f.memory, f.pool)
    requires buf in f.pool || buf == |f.memory|
    requires memory == if buf < |f.memory| then f.memory[buf := data] else f.memory + [data]
    ensures var all := u + [Item(last + 1, buf, data)]; Numbered(all, last + 1, f.acked)
    ensures var all := u + [Item(last + 1, buf, data)]; Current(all, last + 1, f.acked)
    ensures var all := u + [Item(last + 1, buf, data)]; Owned(all, memory, f.pool - multiset{buf})
  {
    var all := u + [Item(last + 1, buf, data)];
    assert forall k :: 0 <= k < |u| ==> all[k] == u[k];
    if u != [] {
      assert u[|u| - 1].id == u[0].id + (|u| - 1);
    }
  }

  lemma SettledMeansApplied(v: LoopVars, f: FeedVars)
    requires FlightOk(v, f) && !f.closed
    ensures (v.lastItem == 0 || v.lastItem in f.acked) <==> Unacked(v.feed, f) == []
  {
    var u := Unacked(v.feed, f);
    if u != [] {
      assert u[|u| - 1].id == v.lastItem;
    }
  }

  // --- Control ---------------------------------------------------------------

  /** The loop goes on waiting only while a chunk is in flight. */
  predicate SettledOk(s: State)
  {
    !s.feed.closed && FeedSettled(s) ==> Unacked(s.loop.feed, s.feed) == []
  }

  lemma DispatchControl(s: State)
    requires ControlOk(s) && InRange(s.loop, |s.table|) && s.loop.pc.Dispatch?
    ensures ControlOk(StepDispatch(s))
  {
    var s1 := s.(loop := ResetOutput(s.loop));
    if !s.loop.pc.action.Stop? {
      ActionSameFeed(s1, s.loop.pc.action);
    }
  }

  lemma ScanControl(s: State)
    requires ControlOk(s) && InRange(s.loop, |s.table|) && CanAdvance(s)
    requires s.loop.pc.Prune? || s.loop.pc.Notify? || s.loop.pc.Settle? || s.loop.pc.Offer?
    ensures ControlOk(StepAdvance(s))
  {
  }

  lemma CloseControl(s: State)
    requires ControlOk(s) && InRange(s.loop, |s.table|) && (s.loop.pc.ExitClose? || s.loop.pc.StopClose?)
    ensures ControlOk(StepClose(s))
  {
    hide Unacked, AtEof;
  }

  lemma AdvanceControl(s: State)
    requires ControlOk(s) && SettledOk(s) && InRange(s.loop, |s.table|) && CanAdvance(s)
    ensures ControlOk(StepAdvance(s))
  {
    hide StepDispatch, StepClose, StepPrune, StepNotify, StepSettle, StepOffer;
    match s.loop.pc {
      case Dispatch(_) => DispatchControl(s);
      case ExitClose(_) => CloseControl(s);
      case StopClose(_) => CloseControl(s);
      case Prune(_, _, _) => ScanControl(s);
      case Notify(_, _) => ScanControl(s);
      case Settle => ScanControl(s);
      case Offer(_) => ScanControl(s);
      case AttachFlush(_) =>
      case AttachWait(_) =>
      case ExitWait => assert Unacked(s.loop.feed, CloseFeed(s).feed) == Unacked(s.loop.feed, s.feed);
      case ExitDrain =>
      case StopDrain =>
    }
  }

  lemma LoopControl(s: State, op: LoopOp)
    requires ControlOk(s) && SettledOk(s) && InRange(s.loop, |s.table|) && LoopEnabled(s, op)
    ensures ControlOk(LoopStep(s, op))
  {
    if op.Advance? {
      AdvanceControl(s);
    }
  }

  lemma FeederControl(s: State, op: FeederOp)
    requires ControlOk(s) && FeederEnabled(s.feed, op)
    ensures ControlOk(FeederStep(s, op))
  {
  }

  lemma StepControl(s: State, l: Label)
    requires ControlOk(s) && SettledOk(s) && Enabled(s, l)
    ensures ControlOk(Apply(s, l))
  {
    hide LoopStep, FeederStep;
    match l {
      case Loop(op) => LoopControl(s, op);
      case Feeder(op) => FeederControl(s, op);
      case Writer(_, _) =>
      case Env(_) =>
    }
  }

  // --- Conservation ----------------------------------------------------------

  lemma SameFeedConserves(s: State, s': State)
    requires Conserved(s) && SameFeed(s, s')
    ensures Conserved(s')
  {
  }

  lemma StopConserves(s: State)
    requires Conserved(s) && s.lost == []
    ensures Conserved(StepStop(s))
  {
    if s.loop.feed.Some? {
      var it, unfed' := s.loop.feed.value, Unfed(None, StepStop(s).feed);
      assert Unfed(s.loop.feed, s.feed) == unfed' + [it];
      CatSnoc(ItemBytes, unfed', it);
    }
  }

  lemma DispatchConserves(s: State)
    requires Conserved(s) && InRange(s.loop, |s.table|) && s.loop.pc.Dispatch? && s.lost == []
    ensures Conserved(StepDispatch(s))
  {
    var s1 := s.(loop := ResetOutput(s.loop));
    SameFeedConserves(s, s1);
    if s.loop.pc.action.Stop? {
      StopConserves(s1);
    } else {
      ActionSameFeed(s1, s.loop.pc.action);
      SameFeedConserves(s1, StepDispatch(s));
    }
  }

  lemma PassConserves(s: State, pc: LoopPc)
    requires Conserved(s) && s.loop.feed.Some?
    ensures Conserved(PassFeed(s, pc))
  {
    assert Unfed(s.loop.feed, s.feed) == Unfed(None, PassFeed(s, pc).feed);
  }

  lemma AcceptConserves(log: seq<TermEvent>, unfed: seq<Item>, it: Item, accepted: Bytes)
    requires Conserves(log, unfed, [], accepted)
    ensures Conserves(log, unfed + [it], [], accepted + it.data)
  {
    CatSnoc(ItemBytes, unfed, it);
    var a, b, c := Cat(FedBytes, log), Cat(ItemBytes, unfed), it.data;
    assert a + ((b + c) + []) == (a + (b + [])) + c;
  }

  lemma FlatFirst(parts: seq<Bytes>)
    requires parts != []
    ensures Flat(parts) == parts[0] + Flat(parts[1..])
  {
  }

  lemma BatchConserves(s: State, buf: nat)
    requires Conserved(s) && s.pty.out != [] && s.loop.feed.None? && s.lost == []
    ensures Conserved(StepBatch(s, buf))
  {
    hide Conserves, Flat, Cat;
    var s' := StepBatch(s, buf);
    var it := s'.loop.feed.value;
    assert Unfed(None, s.feed) + [it] == Unfed(s'.loop.feed, s'.feed);
    AcceptConserves(s.term.log, Unfed(None, s.feed), it, s.accepted);
    FlatFirst(s.pty.out);
    assert s.accepted + (it.data + Flat(s'.pty.out)) == (s.accepted + it.data) + Flat(s'.pty.out);
  }

  lemma AdvanceConserves(s: State)
    requires Conserved(s) && ControlOk(s) && InRange(s.loop, |s.table|) && CanAdvance(s)
    ensures Conserved(StepAdvance(s))
  {
    var s' := StepAdvance(s);
    if s.loop.pc.AttachFlush? {
      PassConserves(s, AttachWait(s.loop.pc.spec));
    } else if s.loop.pc.Dispatch? {
      DispatchConserves(s);
    } else if s.loop.pc.ExitWait? {
      assert Unfed(s.loop.feed, s'.feed) == Unfed(s.loop.feed, s.feed);
    } else {
      AdvanceSameFeed(s);
      SameFeedConserves(s, s');
    }
  }

  lemma LoopConserves(s: State, op: LoopOp)
    requires Conserved(s) && ControlOk(s) && InRange(s.loop, |s.table|) && LoopEnabled(s, op)
    ensures Conserved(LoopStep(s, op))
  {
    match op {
      case Advance => AdvanceConserves(s);
      case TakeBatch(buf) => BatchConserves(s, buf);
      case SendFeed => PassConserves(s, TOP);
      case DumpOk =>
        DumpSameFeed(s);
        SameFeedConserves(s, LoopStep(s, op));
      case _ => SameFeedConserves(s, LoopStep(s, op));
    }
  }

  /** The buffer the feeder is about to apply still holds its chunk. */
  predicate TakenIntact(f: FeedVars)
  {
    f.pc.Taken? ==> f.pc.item.buf < |f.memory| && f.memory[f.pc.item.buf] == f.pc.item.data
  }

  lemma MoveConserves(a: Bytes, b: Bytes, c: Bytes, d: Bytes)
    ensures a + ((b + c) + d) == (a + b) + (c + d)
  {
  }

  lemma ApplyConserves(s: State)
    requires Conserved(s) && FeederEnabled(s.feed, FeedApply) && TakenIntact(s.feed)
    ensures Conserved(FeederStep(s, FeedApply))
  {
    var it, unfed' := s.feed.pc.item, Unfed(s.loop.feed, FeederStep(s, FeedApply).feed);
    assert Unfed(s.loop.feed, s.feed) == [it] + unfed';
    CatSnoc(FedBytes, s.term.log, Fed(it.data));
    CatAppend(ItemBytes, [it], unfed');
    CatOne(ItemBytes, it);
    MoveConserves(Cat(FedBytes, s.term.log), it.data, Cat(ItemBytes, unfed'), s.lost);
  }

  lemma FeederConserves(s: State, op: FeederOp)
    requires Conserved(s) && FeederEnabled(s.feed, op) && TakenIntact(s.feed)
    ensures Conserved(FeederStep(s, op))
  {
    if op.FeedApply? {
      ApplyConserves(s);
    } else {
      if op.FeedTake? {
        assert s.feed.queue == [s.feed.queue[0]] + s.feed.queue[1..];
      }
      assert Unfed(s.loop.feed, FeederStep(s, op).feed) == Unfed(s.loop.feed, s.feed);
    }
  }

  lemma ProduceConserves(s: State, data: Bytes)
    requires Conserved(s) && EnvEnabled(s, Produce(data))
    ensures Conserved(EnvStep(s, Produce(data)))
  {
    hide Conserves;
    CatSnoc(Same, s.pty.out, data);
  }

  lemma StepConserves(s: State, l: Label)
    requires Conserved(s) && ControlOk(s) && Enabled(s, l)
    requires TakenIntact(s.feed)
    ensures Conserved(Apply(s, l))
  {
    match l {
      case Loop(op) => LoopConserves(s, op);
      case Feeder(op) => FeederConserves(s, op);
      case Env(op) => if op.Produce? { ProduceConserves(s, op.data); }
      case Writer(_, _) =>
    }
  }

  // --- Chunks in flight ------------------------------------------------------

  predicate SameFlight(s: State, s': State)
  {
    s'.loop.feed == s.loop.feed && s'.loop.lastItem == s.loop.lastItem && s'.feed == s.feed
  }

  lemma StopFlight(s: State)
    requires FlightOk(s.loop, s.feed)
    ensures var s' := StepStop(s); FlightOk(s'.loop, s'.feed)
  {
    if s.loop.feed.Some? {
      var u' := Unacked(None, StepStop(s).feed);
      assert Unacked(s.loop.feed, s.feed) == u' + [s.loop.feed.value];
      ReleaseNewest(u', s.loop.feed.value, s.loop.lastItem, s.feed);
    } else {
      assert Unacked(None, StepStop(s).feed) == Unacked(s.loop.feed, s.feed);
    }
  }

  lemma DispatchFlight(s: State)
    requires FlightOk(s.loop, s.feed) && InRange(s.loop, |s.table|) && s.loop.pc.Dispatch?
    ensures var s' := StepDispatch(s); FlightOk(s'.loop, s'.feed)
  {
    var s1 := s.(loop := ResetOutput(s.loop));
    if s.loop.pc.action.Stop? {
      StopFlight(s1);
    } else {
      ActionSameFeed(s1, s.loop.pc.action);
    }
  }

  lemma PassFlight(s: State, pc: LoopPc)
    requires FlightOk(s.loop, s.feed) && s.loop.feed.Some?
    ensures var s' := PassFeed(s, pc); FlightOk(s'.loop, s'.feed)
  {
    assert Unacked(s.loop.feed, s.feed) == Unacked(None, PassFeed(s, pc).feed);
  }

  lemma BatchFlight(s: State, buf: nat)
    requires FlightOk(s.loop, s.feed) && !s.feed.closed && LoopEnabled(s, TakeBatch(buf))
    ensures var s' := StepBatch(s, buf); FlightOk(s'.loop, s'.feed)
  {
    var s' := StepBatch(s, buf);
    AcceptNewest(Unacked(None, s.feed), s.loop.lastItem, s.feed, buf, s.pty.out[0], s'.feed.memory);
    assert Unacked(None, s.feed) + [s'.loop.feed.value] == Unacked(s'.loop.feed, s'.feed);
  }

  lemma AdvanceFlight(s: State)
    requires FlightOk(s.loop, s.feed) && InRange(s.loop, |s.table|) && CanAdvance(s)
    ensures var s' := StepAdvance(s); FlightOk(s'.loop, s'.feed)
  {
    var s' := StepAdvance(s);
    if s.loop.pc.AttachFlush? {
      PassFlight(s, AttachWait(s.loop.pc.spec));
    } else if s.loop.pc.Dispatch? {
      DispatchFlight(s);
    } else if s.loop.pc.ExitWait? {
      assert Unacked(s.loop.feed, s'.feed) == Unacked(s.loop.feed, s.feed);
    } else {
      AdvanceSameFeed(s);
    }
  }

  lemma LoopFlight(s: State, op: LoopOp)
    requires FlightOk(s.loop, s.feed) && InRange(s.loop, |s.table|) && LoopEnabled(s, op)
    requires ControlOk(s)
    ensures var s' := LoopStep(s, op); FlightOk(s'.loop, s'.feed)
  {
    match op {
      case Advance => AdvanceFlight(s);
      case TakeBatch(buf) => BatchFlight(s, buf);
      case SendFeed => PassFlight(s, TOP);
      case _ => assert SameFlight(s, LoopStep(s, op));
    }
  }

  lemma AckCurrent(it: Item, u: seq<Item>, last: nat, acked: set<nat>)
    requires Current([it] + u, last, acked)
    ensures Current(u, last, acked + {it.id})
  {
    if u != [] {
      assert ([it] + u)[|u|] == u[|u| - 1];
    }
  }

  lemma AckFlight(s: State)
    requires FlightOk(s.loop, s.feed) && FeederEnabled(s.feed, FeedAck)
    ensures var s' := FeederStep(s, FeedAck); FlightOk(s'.loop, s'.feed)
  {
    var it, u, u' := s.feed.pc.item, Unacked(s.loop.feed, s.feed), Unacked(s.loop.feed, FeederStep(s, FeedAck).feed);
    assert u == [it] + u';
    ReleaseOldest(it, u', s.loop.lastItem, s.feed);
    if !s.feed.closed {
      AckCurrent(it, u', s.loop.lastItem, s.feed.acked);
    }
  }

  lemma FeederFlight(s: State, op: FeederOp)
    requires FlightOk(s.loop, s.feed) && FeederEnabled(s.feed, op)
    ensures var s' := FeederStep(s, op); FlightOk(s'.loop, s'.feed)
  {
    if op.FeedAck? {
      AckFlight(s);
    } else {
      if op.FeedTake? {
        assert s.feed.queue == [s.feed.queue[0]] + s.feed.queue[1..];
      }
      assert Unacked(s.loop.feed, FeederStep(s, op).feed) == Unacked(s.loop.feed, s.feed);
    }
  }

  lemma StepFlight(s: State, l: Label)
    requires FlightOk(s.loop, s.feed) && ControlOk(s) && Enabled(s, l)
    ensures var s' := Apply(s, l); FlightOk(s'.loop, s'.feed)
  {
    match l {
      case Loop(op) => LoopFlight(s, op);
      case Feeder(op) => FeederFlight(s, op);
      case Env(_) =>
      case Writer(_, _) =>
    }
  }

  // --- The invariant ---------------------------------------------------------

  lemma InitFeed(policy: Policy, cols: Dim, rows: Dim)
    ensures FeedOk(Init(policy, cols, rows))
  {
    assert Conserved(Init(policy, cols, rows));
  }

  lemma FlightIntact(v: LoopVars, f: FeedVars)
    requires FlightOk(v, f)
    ensures TakenIntact(f)
  {
    if f.pc.Taken? {
      assert Unacked(v.feed, f)[0] == f.pc.item;
    }
  }

  lemma StepKeepsFeed(s: State, l: Label)
    requires FeedOk(s) && Enabled(s, l)
    ensures FeedOk(Apply(s, l))
  {
    FlightIntact(s.loop, s.feed);
    if !s.feed.closed {
      SettledMeansApplied(s.loop, s.feed);
    }
    StepFlight(s, l);
    StepControl(s, l);
    StepConserves(s, l);
  }
}
