/** What holds in every state that any run of a session reaches. */
module SessionRuns {
  import opened Bytes
  import opened Sizes
  import opened Session
  import opened SessionChannels
  import opened SessionFeed
  import opened SessionDelivery
  import opened SessionTrace
  import opened SessionWakeup
  import opened SessionSizes

  // --- Buffers and batches stay within their bounds --------------------------

  predicate HeldBounded(held: Option<Item>)
  {
    held.Some? ==> |held.value.data| <= PTY_BATCH
  }

  predicate AllBounded(parts: seq<Bytes>)
  {
    forall k :: 0 <= k < |parts| ==> |parts[k]| <= PTY_BATCH
  }

  predicate Bounded(s: State)
  {
    && |s.feed.queue| <= FEED_BUFFER && |s.pty.out| <= PTY_BUFFER
    && AllBounded(s.pty.out) && HeldBounded(s.loop.feed) && |s.lost| <= PTY_BATCH
  }

  lemma DispatchBounded(s: State)
    requires Bounded(s) && InRange(s.loop, |s.table|) && s.loop.pc.Dispatch?
    ensures Bounded(StepDispatch(s))
  {
    var s1 := s.(loop := ResetOutput(s.loop));
    if !s.loop.pc.action.Stop? {
      ActionSameFeed(s1, s.loop.pc.action);
    }
  }

  lemma AdvanceBounded(s: State)
    requires Bounded(s) && InRange(s.loop, |s.table|) && CanAdvance(s)
    ensures Bounded(StepAdvance(s))
  {
    if s.loop.pc.Dispatch? {
      DispatchBounded(s);
    } else if Bystander(s.loop.pc) {
      AdvanceSameFeed(s);
    }
  }

  lemma LoopBounded(s: State, op: LoopOp)
    requires Bounded(s) && InRange(s.loop, |s.table|) && LoopEnabled(s, op)
    ensures Bounded(LoopStep(s, op))
  {
    if op.Advance? {
      AdvanceBounded(s);
    }
  }

  lemma StepKeepsBounded(s: State, l: Label)
    requires Bounded(s) && Enabled(s, l)
    ensures Bounded(Apply(s, l))
  {
    match l {
      case Loop(op) => LoopBounded(s, op);
      case Feeder(_) =>
      case Writer(_, _) =>
      case Env(_) =>
    }
  }

  // --- The invariant ---------------------------------------------------------

  ghost predicate Inv(s: State)
  {
    && !s.panicked
    && Channels(s.loop, s.table)
    && FeedOk(s)
    && Accounts(s.loop, s.table, s.accepted)
    && Traces(s)
    && Wakes(s.loop, s.table, s.token)
    && SizesOk(s)
    && Bounded(s)
  }

  lemma InitQuiet(policy: Policy, cols: Dim, rows: Dim)
    ensures var s := Init(policy, cols, rows);
            && !s.panicked && Bounded(s) && Traces(s) && Accounts(s.loop, s.table, s.accepted)
            && Wakes(s.loop, s.table, s.token) && SizesOk(s)
  {
  }

  lemma InitInv(policy: Policy, cols: Dim, rows: Dim)
    ensures Inv(Init(policy, cols, rows))
  {
    InitChannels(policy, cols, rows);
    InitFeed(policy, cols, rows);
    InitQuiet(policy, cols, rows);
  }

  /** The dump an attach takes has seen every byte accepted so far. */
  lemma DumpSeesAll(s: State)
    requires FeedOk(s) && s.loop.pc.AttachDump?
    ensures Cat(FedBytes, s.term.log) == s.accepted
  {
    hide FlightOk;
    assert Unfed(s.loop.feed, s.feed) <= Unacked(s.loop.feed, s.feed);
    assert Unfed(s.loop.feed, s.feed) == [];
  }

  lemma NoneFinishedYet(s: State)
    requires Traces(s) && s.loop.pc.Select?
    ensures forall cl <- s.table :: !cl.ending.Finished?
  {
  }

  // --- No panic --------------------------------------------------------------

  lemma ListedIsOpen(v: LoopVars, table: seq<Client>, x: nat)
    requires Channels(v, table) && x in OpenList(v)
    ensures x < |table| && table[x].ending.Open?
  {
  }

  lemma ScanNoPanic(s: State)
    requires Channels(s.loop, s.table) && !s.panicked && (s.loop.pc.Prune? || s.loop.pc.Notify?)
    ensures !(if s.loop.pc.Prune? then StepPrune(s) else StepNotify(s)).panicked
  {
    if s.loop.pc.i < |s.loop.clients| {
      ListedIsOpen(s.loop, s.table, s.loop.clients[s.loop.pc.i]);
    }
  }

  lemma OfferNoPanic(s: State)
    requires Channels(s.loop, s.table) && !s.panicked && s.loop.pc.Offer?
    ensures !StepOffer(s).panicked
  {
    if s.loop.todo != [] {
      ListsVisit(s.loop);
      ListedIsOpen(s.loop, s.table, s.loop.todo[0]);
    }
  }

  lemma CloseNoPanic(s: State)
    requires Channels(s.loop, s.table) && !s.panicked && (s.loop.pc.ExitClose? || s.loop.pc.StopClose?)
    requires s.loop.pc.ExitClose? ==> s.pty.exitCode.Some?
    ensures !StepClose(s).panicked
  {
    if s.loop.pc.i < |s.loop.clients| {
      assert s.loop.clients[s.loop.pc.i] == s.loop.clients[s.loop.pc.i..][0];
      ListedIsOpen(s.loop, s.table, s.loop.clients[s.loop.pc.i]);
    }
  }

  /** The chunk the loop holds has an open `applied` channel. */
  lemma HeldIsFresh(v: LoopVars, f: FeedVars)
    requires FlightOk(v, f) && v.feed.Some?
    ensures v.feed.value.id !in f.acked
  {
    var u := Unacked(v.feed, f);
    assert u[|u| - 1] == v.feed.value;
  }

  predicate HeldFresh(s: State)
  {
    s.loop.feed.Some? ==> s.loop.feed.value.id !in s.feed.acked
  }

  lemma ActionNoPanic(s: State, a: Action)
    requires Channels(s.loop, s.table) && !s.panicked && s.loop.pc.Dispatch? && ActionInRange(a, |s.table|)
    requires !s.feed.closed && HeldFresh(s)
    ensures !StepAction(s, a).panicked
  {
    match a {
      case Detach(c) => if c in s.loop.clients { ListedIsOpen(s.loop, s.table, c); }
      case Kick(id) =>
        var target := FindById(s.loop.clients, id);
        if target.Some? { ListedIsOpen(s.loop, s.table, target.value); }
      case _ =>
    }
  }

  lemma AdvanceNoPanic(s: State)
    requires Channels(s.loop, s.table) && HeldFresh(s) && ControlOk(s) && !s.panicked && CanAdvance(s)
    ensures !StepAdvance(s).panicked
  {
    match s.loop.pc {
      case Prune(_, _, _) => ScanNoPanic(s);
      case Notify(_, _) => ScanNoPanic(s);
      case Settle =>
      case Offer(_) => OfferNoPanic(s);
      case Dispatch(a) => ActionNoPanic(s.(loop := ResetOutput(s.loop)), a);
      case ExitClose(_) => CloseNoPanic(s);
      case StopClose(_) => CloseNoPanic(s);
      case AttachFlush(_) =>
      case AttachWait(_) =>
      case ExitWait =>
      case ExitDrain =>
      case StopDrain =>
    }
  }

  lemma LoopNoPanic(s: State, op: LoopOp)
    requires Channels(s.loop, s.table) && HeldFresh(s) && ControlOk(s) && !s.panicked && LoopEnabled(s, op)
    requires AllBounded(s.pty.out)
    ensures !LoopStep(s, op).panicked
  {
    if op.Advance? {
      AdvanceNoPanic(s);
    }
  }

  lemma FeederNoPanic(s: State, op: FeederOp)
    requires FlightOk(s.loop, s.feed) && FeederEnabled(s.feed, op) && !s.panicked
    ensures !FeederStep(s, op).panicked
  {
    if op.FeedApply? || op.FeedAck? {
      assert Unacked(s.loop.feed, s.feed)[0] == s.feed.pc.item;
    }
  }

  /** No send on, or second close of, a channel; no slice out of range. */
  lemma StepNoPanic(s: State, l: Label)
    requires Inv(s) && Enabled(s, l)
    ensures !Apply(s, l).panicked
  {
    hide Channels, FlightOk, ControlOk, Conserved, Accounts, Traces, Wakes, SizesOk, LoopStep, FeederStep;
    match l {
      case Loop(op) =>
        if s.loop.feed.Some? { HeldIsFresh(s.loop, s.feed); }
        LoopNoPanic(s, op);
      case Feeder(op) => FeederNoPanic(s, op);
      case Writer(_, _) =>
      case Env(_) =>
    }
  }

  // --- Runs ------------------------------------------------------------------

  lemma AccountsNeed(s: State, l: Label)
    requires Inv(s) && Enabled(s, l)
    ensures l.Loop? && l.loop.TakeBatch? ==> forall cl <- s.table :: !cl.ending.Finished?
    ensures l.Loop? && l.loop.DumpOk? ==> Cat(FedBytes, s.term.log) == s.accepted
  {
    if l.Loop? && l.loop.TakeBatch? {
      NoneFinishedYet(s);
    } else if l.Loop? && l.loop.DumpOk? {
      DumpSeesAll(s);
    }
  }

  /** Every step keeps the invariant. */
  lemma StepInv(s: State, l: Label)
    requires Inv(s) && Enabled(s, l)
    ensures Inv(Apply(s, l))
  {
    hide ListsOk, OpenIff, FeedOk, Accounts, Traces, Wakes, SizesOk, Bounded, Apply;
    AccountsNeed(s, l);
    StepNoPanic(s, l);
    StepKeepsChannels(s, l);
    StepKeepsFeed(s, l);
    StepKeepsAccounts(s, l);
    StepKeepsTraces(s, l);
    StepKeepsWakes(s, l);
    StepKeepsSizes(s, l);
    StepKeepsBounded(s, l);
  }

  lemma {:induction false} RunInv(s: State, labels: seq<Label>, t: State)
    requires Inv(s) && Run(s, labels, t)
    ensures Inv(t)
    decreases |labels|
  {
    if labels != [] {
      StepInv(s, labels[0]);
      RunInv(Apply(s, labels[0]), labels[1..], t);
    }
  }

  /** `s` is reached by some run of a session. */
  ghost predicate Reachable(s: State)
  {
    exists policy, cols, rows, labels :: Run(Init(policy, cols, rows), labels, s)
  }

  lemma ReachableInv(s: State)
    requires Reachable(s)
    ensures Inv(s)
  {
    hide Inv, Run, Init;
    var policy, cols, rows, labels :| Run(Init(policy, cols, rows), labels, s);
    InitInv(policy, cols, rows);
    RunInv(Init(policy, cols, rows), labels, s);
  }

  lemma {:induction false} RunSnoc(s: State, labels: seq<Label>, t: State, l: Label)
    requires Run(s, labels, t) && Enabled(t, l)
    ensures Run(s, labels + [l], Apply(t, l))
    decreases |labels|
  {
    if labels != [] {
      assert (labels + [l])[1..] == labels[1..] + [l];
      RunSnoc(Apply(s, labels[0]), labels[1..], t, l);
    }
  }

  lemma ReachOne(s: State, l: Label)
    requires Reachable(s) && Enabled(s, l)
    ensures Reachable(Apply(s, l))
  {
    var policy, cols, rows, labels :| Run(Init(policy, cols, rows), labels, s);
    RunSnoc(Init(policy, cols, rows), labels, s, l);
  }

  // --- The invariant, one aspect at a time -----------------------------------

  lemma ReachableChannels(s: State)
    requires Reachable(s)
    ensures Channels(s.loop, s.table)
  {
    hide Reachable, Channels, FeedOk, Accounts, Traces, Wakes, SizesOk, Bounded;
    ReachableInv(s);
  }

  lemma ReachableUnpanicked(s: State)
    requires Reachable(s)
    ensures !s.panicked
  {
    hide Reachable, Channels, FeedOk, Accounts, Traces, Wakes, SizesOk, Bounded;
    ReachableInv(s);
  }

  lemma ReachableFeed(s: State)
    requires Reachable(s)
    ensures FeedOk(s) && Bounded(s)
  {
    hide Reachable, Channels, FeedOk, Accounts, Traces, Wakes, SizesOk, Bounded;
    ReachableInv(s);
  }

  lemma ReachableAccounts(s: State)
    requires Reachable(s)
    ensures Accounts(s.loop, s.table, s.accepted)
  {
    hide Reachable, Channels, FeedOk, Accounts, Traces, Wakes, SizesOk, Bounded;
    ReachableInv(s);
  }

  lemma ReachableTraces(s: State)
    requires Reachable(s)
    ensures Traces(s)
  {
    hide Reachable, Channels, FeedOk, Accounts, Traces, Wakes, SizesOk, Bounded;
    ReachableInv(s);
  }

  lemma ReachableWakes(s: State)
    requires Reachable(s)
    ensures Wakes(s.loop, s.table, s.token)
  {
    hide Reachable, Channels, FeedOk, Accounts, Traces, Wakes, SizesOk, Bounded;
    ReachableInv(s);
  }
}
