/** The promises of a session, over all its runs. */
module SessionTheorems {
  import opened Bytes
  import opened Sizes
  import opened Decimal
  import opened Session
  import opened SessionChannels
  import opened SessionFeed
  import opened SessionDelivery
  import opened SessionTrace
  import opened SessionWakeup
  import opened SessionSizes
  import opened SessionRuns

  // --- Delivery --------------------------------------------------------------

  /**
   * Exactly once: what an attached client was sent, is being sent, has queued
   * and is owed is its dump and then all later output, with no gap, repeat or reorder.
   */
  lemma ExactlyOnce(s: State, c: nat)
    requires Reachable(s) && c < |s.table| && s.table[c].ending.Open? && !s.table[c].failed
    ensures var sent := Carried(s.table[c]);
            && sent != [] && sent[0].Attached?
            && Cat(FedBytes, sent[0].dump) + Stream(sent[1..]) + OwedBy(s.loop, c) == s.accepted
            && forall k :: 1 <= k < |sent| ==> sent[k].Output? || sent[k].ClientsChanged?
  {
    ReachableAccounts(s);
    ReachableTraces(s);
    assert Account(s.table[c], OwedBy(s.loop, c), s.accepted);
    assert Wording(s.table[c]);
    var sent := Carried(s.table[c]);
    assert Payload(sent[0]) == Cat(FedBytes, sent[0].dump);
  }

  /** Whatever became of a client, what it was sent is a prefix of the output. */
  lemma NothingButThePrefix(s: State, c: nat)
    requires Reachable(s) && c < |s.table|
    ensures Stream(s.table[c].wire) <= s.accepted <= s.pty.produced
  {
    ReachableAccounts(s);
    ReachableFeed(s);
    WrittenIsPrefix(s.table[c], OwedBy(s.loop, c), s.accepted);
  }

  /** The last message, if it was written, follows everything else. */
  function Sent(cl: Client): seq<Msg>
  {
    cl.wire + if cl.parting.Some? then [cl.parting.value] else []
  }

  lemma NothingUnfed(s: State)
    requires ControlOk(s) && Conserved(s) && (AtExit(s.loop.pc) || s.loop.pc == Halted(false))
    ensures Cat(FedBytes, s.term.log) + s.lost == s.accepted
    ensures AtExit(s.loop.pc) ==> s.lost == [] && s.accepted == s.pty.produced
  {
    assert Unfed(s.loop.feed, s.feed) == [];
    assert [] + s.lost == s.lost;
  }

  /** After a natural exit the terminal has seen every byte the process ever wrote. */
  lemma NothingLostAtExit(s: State)
    requires Reachable(s) && s.loop.pc == Halted(true)
    ensures Cat(FedBytes, s.term.log) == s.accepted == s.pty.produced
  {
    hide Reachable;
    ReachableFeed(s);
    NothingUnfed(s);
  }

  /** The last words of a client that a natural exit finished. */
  lemma LastWords(cl: Client, exit: Option<int>, owed: Bytes, accepted: Bytes)
    requires Account(cl, owed, accepted) && Wording(cl) && Parting(cl, exit, true)
    requires cl.ending.Finished? && !cl.failed && cl.pc.Gone?
    ensures cl.wire != [] && Polite(cl.wire) && Stream(cl.wire) == accepted
    ensures exit.Some? && Sent(cl) == cl.wire + [Exited(exit.value)]
  {
    assert Carried(cl) == cl.wire;
  }

  /**
   * After a natural exit, a client that stayed and whose writes all succeeded
   * has been sent its greeting, all the output, and the exit code, in that order.
   */
  lemma NaturalExit(s: State, c: nat)
    requires Reachable(s) && s.loop.pc == Halted(true) && c < |s.table|
    requires s.table[c].ending.Finished? && !s.table[c].failed && s.table[c].pc.Gone?
    ensures var sent := Sent(s.table[c]); var n := |sent| - 1;
            && n >= 1 && sent[0].Attached?
            && (forall k :: 1 <= k < n ==> sent[k].Output? || sent[k].ClientsChanged?)
            && s.pty.exitCode.Some? && sent[n] == Exited(s.pty.exitCode.value)
            && Stream(sent[..n]) == s.pty.produced
  {
    ReachableAccounts(s);
    ReachableTraces(s);
    NothingLostAtExit(s);
    var cl := s.table[c];
    hide Reachable, Account, Wording, Parting, Sent;
    assert Account(cl, OwedBy(s.loop, c), s.accepted);
    assert Wording(cl) && Parting(cl, s.pty.exitCode, true);
    LastWords(cl, s.pty.exitCode, OwedBy(s.loop, c), s.accepted);
    assert Sent(cl)[..|cl.wire|] == cl.wire;
  }

  predicate WasStopped(pc: LoopPc)
  {
    pc.StopDrain? || pc.StopClose? || pc == Halted(false)
  }

  lemma LostOnlyByStop(s: State)
    requires ControlOk(s) && !WasStopped(s.loop.pc)
    ensures s.lost == []
  {
  }

  lemma UnlostConserved(s: State)
    requires Conserved(s) && s.lost == []
    ensures Cat(FedBytes, s.term.log) + Cat(ItemBytes, Unfed(s.loop.feed, s.feed)) == s.accepted
  {
    assert Cat(ItemBytes, Unfed(s.loop.feed, s.feed)) + [] == Cat(ItemBytes, Unfed(s.loop.feed, s.feed));
  }

  /** Before a stop no accepted byte is lost on its way to the terminal. */
  lemma FeedConserved(s: State)
    requires Reachable(s) && !WasStopped(s.loop.pc)
    ensures Cat(FedBytes, s.term.log) + Cat(ItemBytes, Unfed(s.loop.feed, s.feed)) == s.accepted
  {
    hide Reachable;
    ReachableFeed(s);
    LostOnlyByStop(s);
    UnlostConserved(s);
  }

  /** A stop loses at most one chunk, and only the last. */
  lemma StopLosesAtMostOneChunk(s: State)
    requires Reachable(s) && s.loop.pc == Halted(false)
    ensures Cat(FedBytes, s.term.log) + s.lost == s.accepted && |s.lost| <= 0x1_0000
  {
    hide Reachable;
    ReachableFeed(s);
    NothingUnfed(s);
  }

  /** The chunk, if any, that the loop has accepted and not yet handed to the feeder. */
  function WaitingChunk(v: LoopVars): Bytes
  {
    if v.feed.Some? then v.feed.value.data else []
  }

  /** Once a stop has been handled, nothing more is accepted or lost. */
  lemma StoppedStep(s: State, l: Label)
    requires WasStopped(s.loop.pc) && Enabled(s, l)
    ensures var t := Apply(s, l); WasStopped(t.loop.pc) && t.lost == s.lost && t.accepted == s.accepted
  {
  }

  lemma {:induction false} StoppedRun(s: State, labels: seq<Label>, t: State)
    requires WasStopped(s.loop.pc) && Run(s, labels, t)
    ensures t.lost == s.lost && t.accepted == s.accepted
    decreases |labels|
  {
    if labels != [] {
      StoppedStep(s, labels[0]);
      StoppedRun(Apply(s, labels[0]), labels[1..], t);
    }
  }

  lemma StopHandled(s: State)
    requires Reachable(s) && s.loop.pc == Dispatch(Stop)
    ensures Enabled(s, Loop(Advance))
    ensures var t := Apply(s, Loop(Advance));
            t.loop.pc.StopDrain? && t.lost == WaitingChunk(s.loop) && t.accepted == s.accepted
  {
    hide Reachable;
    ReachableInv(s);
    LostOnlyByStop(s);
  }

  /**
   * What a stop costs: exactly the chunk that waits for the feeder when the stop is
   * handled. So the terminal ends up with all that was accepted if and only if no
   * chunk, or an empty one, was waiting.
   */
  lemma StopLosesTheWaitingChunk(s: State, labels: seq<Label>, t: State)
    requires Reachable(s) && s.loop.pc == Dispatch(Stop)
    requires Enabled(s, Loop(Advance)) && Run(Apply(s, Loop(Advance)), labels, t) && t.loop.pc == Halted(false)
    ensures t.accepted == s.accepted
    ensures Cat(FedBytes, t.term.log) + WaitingChunk(s.loop) == s.accepted
    ensures Cat(FedBytes, t.term.log) == s.accepted <==> WaitingChunk(s.loop) == []
  {
    hide Reachable, Enabled, Apply, Cat;
    var stopped := Apply(s, Loop(Advance));
    StopHandled(s);
    StoppedRun(stopped, labels, t);
    ReachableInv(s);
    StepInv(s, Loop(Advance));
    RunInv(stopped, labels, t);
    NothingUnfed(t);
  }

  /** A client that left, or was thrown out, is never told the exit code. */
  lemma NoExitedWithoutNaturalExit(s: State, c: nat)
    requires Reachable(s) && c < |s.table| && !s.table[c].ending.Finished?
    ensures forall m <- Sent(s.table[c]) :: !m.Exited?
  {
    ReachableTraces(s);
    var cl := s.table[c];
    assert Wording(cl) && Parting(cl, s.pty.exitCode, AtExit(s.loop.pc));
    if !cl.failed {
      PolitePrefix(cl.wire, InHand(cl.pc) + cl.queue);
    }
  }

  /** The loop closes a client's queue once, for one reason. */
  lemma ClosedForGood(s: State, l: Label, c: nat)
    requires Reachable(s) && Enabled(s, l) && c < |s.table| && !s.table[c].ending.Open?
    ensures c < |Apply(s, l).table| && Apply(s, l).table[c].ending == s.table[c].ending
  {
    ReachableChannels(s);
    if l.Loop? {
      LoopTreats(s, l.loop);
      var cl, cl' := s.table[c], Apply(s, l).table[c];
      assert Treats(cl, cl', s.pty.exitCode, AtExit(Apply(s, l).loop.pc));
    }
  }

  /** When the loop is done, every queue it ever opened is closed. */
  lemma AllClosedAtTheEnd(s: State)
    requires Reachable(s) && s.loop.pc.Halted?
    ensures forall c :: 0 <= c < |s.table| ==> !s.table[c].ending.Open?
  {
    hide Reachable, InRange, ListsOk, OutputIffWaiting;
    ReachableChannels(s);
  }

  // --- Lists -----------------------------------------------------------------

  predicate Subsequence(xs: seq<nat>, ys: seq<nat>)
  {
    if xs == [] then true
    else if ys == [] then false
    else if xs[0] == ys[0] then Subsequence(xs[1..], ys[1..])
    else Subsequence(xs, ys[1..])
  }

  lemma {:induction false} SortedSubsequence(xs: seq<nat>, ys: seq<nat>)
    requires Sorted(xs) && Sorted(ys) && forall x <- xs :: x in ys
    ensures Subsequence(xs, ys)
    decreases |ys|
  {
    if xs != [] {
      assert xs[0] in ys;
      assert ys == [ys[0]] + ys[1..] && xs == [xs[0]] + xs[1..];
      SortedTail(ys, 1);
      SortedTail(xs, 1);
      if xs[0] == ys[0] {
        forall x | x in xs[1..] ensures x in ys[1..] {
          SortedHeadLeast(xs, x);
          assert x in xs;
        }
        SortedSubsequence(xs[1..], ys[1..]);
      } else {
        forall x | x in xs ensures x in ys[1..] {
          assert x in ys;
          assert xs[0] in ys[1..];
          SortedHeadLeast(ys, xs[0]);
          if x in xs[1..] { SortedHeadLeast(xs, x); }
        }
        SortedSubsequence(xs, ys[1..]);
      }
    }
  }

  /** The clients a delivery waits for are a subsequence of the attached clients, in attach order. */
  lemma PendingInOrder(s: State)
    requires Reachable(s)
    ensures Sorted(s.loop.clients) && Subsequence(s.loop.pending + s.loop.todo, s.loop.clients)
    ensures s.loop.pc.Select? ==> (s.loop.output.Some? <==> s.loop.pending != [])
  {
    ReachableChannels(s);
    SortedSubsequence(s.loop.pending + s.loop.todo, s.loop.clients);
  }

  lemma IdsDiffer(c: nat, d: nat, n: nat)
    requires c < n && d < n && n < ID_SPACE && ClientId(c) == ClientId(d)
    ensures c == d
  {
    NumeralInjective((c + 1) % ID_SPACE, (d + 1) % ID_SPACE);
  }

  lemma FindsById(clients: seq<nat>, c: nat, n: nat)
    requires Below(clients, n) && n < ID_SPACE && c in clients
    ensures FindById(clients, ClientId(c)) == Some(c)
  {
    var found := FindById(clients, ClientId(c));
    IdsDiffer(found.value, c, n);
  }

  /** A client's name identifies it, until the counter wraps around. */
  lemma KickFindsItsTarget(s: State, c: nat)
    requires Reachable(s) && |s.table| < ID_SPACE && c in s.loop.clients
    ensures FindById(s.loop.clients, ClientId(c)) == Some(c)
  {
    ReachableChannels(s);
    FindsById(s.loop.clients, c, |s.table|);
  }

  // --- Progress --------------------------------------------------------------

  /**
   * No lost wakeup: while the loop is parked on a delivery with no token to wake it,
   * every pending client is blocked, or its writer is about to leave a token.
   */
  lemma NoLostWakeup(s: State, c: nat)
    requires Reachable(s) && s.loop.pc.Select? && s.loop.output.Some? && !s.token && c in s.loop.pending
    ensures c < |s.table| && c in s.loop.clients
    ensures Signalling(s.table[c].pc) || (|s.table[c].queue| == 256 && !WriteDone(s.table[c]))
    ensures exists op :: WriterEnabled(s.table[c], op)
  {
    ReachableChannels(s);
    ReachableTraces(s);
    ReachableWakes(s);
    var cl := s.table[c];
    assert c in s.loop.pending + s.loop.todo;
    assert Parting(cl, s.pty.exitCode, AtExit(s.loop.pc));
    var op := match cl.pc
      case Idle => Receive
      case Dequeued(_) => Signal
      case Writing(_) => WriteOk
      case WritingFinal(_) => WriteOk
      case Closing => CloseDone
      case _ => LastSignal;
    assert WriterEnabled(cl, op);
  }

  /** The states in which the loop waits for the feeder, and for nothing else. */
  predicate WaitsForFeeder(pc: LoopPc)
  {
    pc.AttachFlush? || pc.AttachWait? || pc.ExitWait? || pc.ExitDrain? || pc.StopDrain?
  }

  function FeedWork(f: FeedVars): nat
  {
    3 * |f.queue| + match f.pc {
      case Taken(_) => 3
      case Applied(_) => 2
      case Waiting => 1
      case Ended => 0
    }
  }

  lemma FeederCanMove(s: State) returns (op: FeederOp)
    requires ControlOk(s) && WaitsForFeeder(s.loop.pc) && !CanAdvance(s)
    requires !s.feed.closed && !FeedSettled(s) ==> Unacked(s.loop.feed, s.feed) != []
    ensures FeederEnabled(s.feed, op) && FeedWork(FeederStep(s, op).feed) < FeedWork(s.feed)
    ensures FeederStep(s, op).loop == s.loop
  {
    op := match s.feed.pc
      case Taken(_) => FeedApply
      case Applied(_) => FeedAck
      case _ => if s.feed.queue == [] then FeedEnd else FeedTake;
  }

  /** Whenever the loop waits for the feeder, the feeder alone lets it go on, in boundedly many steps. */
  lemma {:induction false} FeederUnblocks(s: State) returns (labels: seq<Label>, t: State)
    requires Inv(s) && WaitsForFeeder(s.loop.pc)
    ensures Run(s, labels, t) && t.loop == s.loop && CanAdvance(t)
    ensures |labels| <= FeedWork(s.feed) && forall l <- labels :: l.Feeder?
    decreases FeedWork(s.feed)
  {
    hide Channels, Accounts, Traces, Wakes, SizesOk, Bounded, FeederStep;
    if CanAdvance(s) {
      labels, t := [], s;
    } else {
      if !s.feed.closed {
        SettledMeansApplied(s.loop, s.feed);
      }
      var op := FeederCanMove(s);
      var s1 := Apply(s, Feeder(op));
      StepInv(s, Feeder(op));
      var rest;
      rest, t := FeederUnblocks(s1);
      labels := [Feeder(op)] + rest;
      assert labels[1..] == rest;
    }
  }

  // --- Size ------------------------------------------------------------------

  /** The two steps after which the size may be stale. */
  predicate LeavesUnnoticed(s: State, l: Label)
    requires InRange(s.loop, |s.table|)
  {
    || (&& l == Loop(Advance) && s.loop.pc.Prune? && Finds(s)
        && !s.table[s.loop.clients[s.loop.pc.i]].readOnly)
    || (l == Loop(DumpFail) && s.loop.pc.AttachDump? && !s.loop.pc.spec.readOnly)
  }

  lemma ActionNoDrift(s: State, a: Action)
    requires InRange(s.loop, |s.table|) && ActionInRange(a, |s.table|) && !s.term.drift
    ensures !StepAction(s, a).term.drift
  {
  }

  lemma AdvanceDrift(s: State)
    requires InRange(s.loop, |s.table|) && CanAdvance(s) && !s.term.drift
    ensures StepAdvance(s).term.drift <==> LeavesUnnoticed(s, Loop(Advance))
  {
    if s.loop.pc.Dispatch? {
      ActionNoDrift(s.(loop := ResetOutput(s.loop)), s.loop.pc.action);
    }
  }

  /** A writer found dead, or a writable attach whose dump fails, marks the size stale; nothing else does. */
  lemma DriftExactly(s: State, l: Label)
    requires InRange(s.loop, |s.table|) && Enabled(s, l) && !s.term.drift
    ensures Apply(s, l).term.drift <==> LeavesUnnoticed(s, l)
  {
    if l.Loop? && l.loop.Advance? {
      AdvanceDrift(s);
    }
  }

  /** The sizes that have a say: the writable clients, and one that is being attached. */
  function Voices(s: State): seq<TermSize>
    requires InRange(s.loop, |s.table|)
  {
    WritableSizes(s.table, s.loop.clients) + Newcomer(s.loop.pc)
  }

  predicate SameChoice(policy: Policy, before: seq<TermSize>, after: seq<TermSize>)
    requires before != []
  {
    after == [] || (Chosen(policy, before).cols == Chosen(policy, after).cols
                    && Chosen(policy, before).rows == Chosen(policy, after).rows)
  }

  lemma {:induction false} WriterHasVoice(table: seq<Client>, clients: seq<nat>, i: nat)
    requires Below(clients, |table|) && i < |clients| && !table[clients[i]].readOnly
    ensures WritableSizes(table, clients) != []
  {
    if i < |clients| - 1 {
      WriterHasVoice(table, clients[..|clients| - 1], i);
    }
  }

  lemma UnnoticedKeepsSize(s: State, l: Label)
    requires InRange(s.loop, |s.table|) && Enabled(s, l) && LeavesUnnoticed(s, l)
    ensures var t := Apply(s, l);
            t.term.policy == s.term.policy && t.term.cols == s.term.cols && t.term.rows == s.term.rows
    ensures Voices(s) != []
  {
    if l == Loop(Advance) {
      WriterHasVoice(s.table, s.loop.clients, s.loop.pc.i);
    }
  }

  lemma LawAfterUnmarkedStep(s: State, l: Label)
    requires InRange(s.loop, |s.table|) && SizesOk(s) && !s.term.drift && Enabled(s, l)
    ensures LeavesUnnoticed(s, l) ==> Voices(s) != []
    ensures var t := Apply(s, l);
            && InRange(t.loop, |t.table|)
            && (SizeLaw(t) <==> !LeavesUnnoticed(s, l) || SameChoice(s.term.policy, Voices(s), Voices(t)))
  {
    hide Apply, Enabled, LeavesUnnoticed, Chosen, WritableSizes, Newcomer, InRange;
    StepKeepsSizes(s, l);
    DriftExactly(s, l);
    if LeavesUnnoticed(s, l) {
      UnnoticedKeepsSize(s, l);
    }
  }

  /** The same state with no mark of an earlier departure. */
  function Unmarked(s: State): State
  {
    s.(term := s.term.(drift := false))
  }

  /** As far as sizes go, the states differ at most in that mark. */
  predicate SameButMark(s: State, t: State)
  {
    s.loop == t.loop && s.table == t.table && s.term.(drift := false) == t.term.(drift := false)
  }

  lemma ActionIgnoresMark(s: State, a: Action)
    requires InRange(s.loop, |s.table|) && ActionInRange(a, |s.table|)
    ensures SameButMark(StepAction(Unmarked(s), a), StepAction(s, a))
  {
    hide WritableSizes, Chosen;
  }

  lemma ScanIgnoresMark(s: State)
    requires InRange(s.loop, |s.table|) && (s.loop.pc.Prune? || s.loop.pc.Notify?)
    ensures s.loop.pc.Prune? ==> SameButMark(StepPrune(Unmarked(s)), StepPrune(s))
    ensures s.loop.pc.Notify? ==> SameButMark(StepNotify(Unmarked(s)), StepNotify(s))
  {
  }

  lemma DeliveryIgnoresMark(s: State)
    requires InRange(s.loop, |s.table|) && (s.loop.pc.Settle? || s.loop.pc.Offer?)
    ensures s.loop.pc.Settle? ==> SameButMark(StepSettle(Unmarked(s)), StepSettle(s))
    ensures s.loop.pc.Offer? ==> SameButMark(StepOffer(Unmarked(s)), StepOffer(s))
  {
  }

  lemma CloseIgnoresMark(s: State)
    requires InRange(s.loop, |s.table|) && (s.loop.pc.ExitClose? || s.loop.pc.StopClose?)
    ensures SameButMark(StepClose(Unmarked(s)), StepClose(s))
  {
  }

  lemma DispatchIgnoresMark(s: State)
    requires InRange(s.loop, |s.table|) && s.loop.pc.Dispatch?
    ensures SameButMark(StepDispatch(Unmarked(s)), StepDispatch(s))
  {
    hide StepAction;
    ActionIgnoresMark(s.(loop := ResetOutput(s.loop)), s.loop.pc.action);
  }

  lemma AdvanceIgnoresMark(s: State)
    requires InRange(s.loop, |s.table|) && CanAdvance(s)
    ensures SameButMark(StepAdvance(Unmarked(s)), StepAdvance(s))
  {
    hide StepAction, StepPrune, StepNotify, StepSettle, StepOffer, StepClose, InRange;
    match s.loop.pc {
      case Prune(_, _, _) => ScanIgnoresMark(s);
      case Notify(_, _) => ScanIgnoresMark(s);
      case Settle => DeliveryIgnoresMark(s);
      case Offer(_) => DeliveryIgnoresMark(s);
      case ExitClose(_) => CloseIgnoresMark(s);
      case StopClose(_) => CloseIgnoresMark(s);
      case Dispatch(a) => DispatchIgnoresMark(s);
      case AttachFlush(_) =>
      case AttachWait(_) =>
      case ExitWait =>
      case ExitDrain =>
      case StopDrain =>
    }
  }

  lemma DumpIgnoresMark(s: State)
    requires InRange(s.loop, |s.table|) && s.loop.pc.AttachDump?
    ensures SameButMark(StepDumpOk(Unmarked(s)), StepDumpOk(s))
    ensures SameButMark(StepDumpFail(Unmarked(s)), StepDumpFail(s))
  {
    hide WritableSizes, Chosen;
  }

  lemma LoopIgnoresMark(s: State, op: LoopOp)
    requires InRange(s.loop, |s.table|) && LoopEnabled(s, op)
    ensures LoopEnabled(Unmarked(s), op) && SameButMark(LoopStep(Unmarked(s), op), LoopStep(s, op))
  {
    hide StepAdvance, StepDumpOk, StepDumpFail, InRange;
    match op {
      case Advance => AdvanceIgnoresMark(s);
      case DumpOk => DumpIgnoresMark(s);
      case DumpFail => DumpIgnoresMark(s);
      case _ =>
    }
  }

  lemma StepIgnoresMark(s: State, l: Label)
    requires Enabled(s, l)
    ensures Enabled(Unmarked(s), l) && SameButMark(Apply(Unmarked(s), l), Apply(s, l))
  {
    hide LoopStep, LoopEnabled, WriterApply, InRange;
    if l.Loop? {
      LoopIgnoresMark(s, l.loop);
    }
  }

  /**
   * From any state in which the size is right, every step keeps it right, except that
   * an unnoticed departure does so if and only if the policy chooses the same without it.
   */
  lemma LawAfterStep(s: State, l: Label)
    requires InRange(s.loop, |s.table|) && SizeLaw(s) && Enabled(s, l)
    ensures LeavesUnnoticed(s, l) ==> Voices(s) != []
    ensures var t := Apply(s, l);
            && InRange(t.loop, |t.table|)
            && (SizeLaw(t) <==> !LeavesUnnoticed(s, l) || SameChoice(s.term.policy, Voices(s), Voices(t)))
  {
    hide Apply, Enabled, Chosen, WritableSizes, Newcomer, InRange;
    StepIgnoresMark(s, l);
    LawAfterUnmarkedStep(Unmarked(s), l);
  }

  /** Along the run, whoever leaves unnoticed had no influence on the policy's choice. */
  predicate Harmless(s: State, labels: seq<Label>)
    decreases |labels|
  {
    labels != [] && InRange(s.loop, |s.table|) && Enabled(s, labels[0]) ==>
      var t := Apply(s, labels[0]);
      && (LeavesUnnoticed(s, labels[0]) && Voices(s) != [] && InRange(t.loop, |t.table|) ==>
            SameChoice(s.term.policy, Voices(s), Voices(t)))
      && Harmless(t, labels[1..])
  }

  /** So the size law holds at the end of every run whose unnoticed departures were harmless. */
  lemma {:induction false} LawOverRun(s: State, labels: seq<Label>, t: State)
    requires InRange(s.loop, |s.table|) && SizeLaw(s) && Run(s, labels, t) && Harmless(s, labels)
    ensures InRange(t.loop, |t.table|) && SizeLaw(t)
    decreases |labels|
  {
    hide SizeLaw, SameChoice, Apply, Enabled, LeavesUnnoticed, InRange;
    if labels != [] {
      LawAfterStep(s, labels[0]);
      LawOverRun(Apply(s, labels[0]), labels[1..], t);
    }
  }

  /** In every reachable state with no unnoticed departure, the size is the policy's choice. */
  lemma SizeIsChosen(s: State)
    requires Reachable(s) && !s.term.drift
    ensures InRange(s.loop, |s.table|) && SizeLaw(s)
  {
    ReachableInv(s);
  }

  /** Removing a client by request, and resizing, arbitrate whatever the state before. */
  lemma RequestsArbitrate(s: State, a: Action)
    requires InRange(s.loop, |s.table|) && ActionInRange(a, |s.table|)
    requires a.Resize? || (a.Detach? && a.client in s.loop.clients) || (a.Kick? && FindById(s.loop.clients, a.id).Some?)
    ensures var s' := StepAction(s, a); InRange(s'.loop, |s'.table|) && !s'.term.drift && SizeLaw(s')
  {
    match a {
      case Detach(c) => DropSizes(s, c, Detached);
      case Kick(id) => DropSizes(s, FindById(s.loop.clients, id).value, Kicked);
      case Resize(c, size) => ResizeSizes(s, c, size);
    }
  }
}
