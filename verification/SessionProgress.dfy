/**
 * Progress. Left alone (no new output, no exit of the process, no new request) a session
 * comes to rest after finitely many steps, in whatever order its goroutines take them,
 * and when it rests everything that was accepted has arrived everywhere.
 */
module SessionProgress {
  import opened Bytes
  import opened Sizes
  import opened Session
  import opened SessionChannels
  import opened SessionDelivery
  import opened SessionFeed
  import opened SessionGreetings
  import opened SessionRuns
  import opened SessionSizes
  import opened SessionTheorems
  import opened SessionTrace
  import opened SessionWakeup

  /** A step of the session itself: neither the world outside nor a new request. */
  predicate Inside(l: Label)
  {
    !l.Env? && (l.Loop? ==> !l.loop.TakeAction?)
  }

  // --- What is left to do ----------------------------------------------------

  /** Lower in the first component that differs is less to do. */
  datatype Rank = Rank(phase: nat, clients: nat, batches: nat, notices: nat, offers: nat, feed: nat, writers: nat,
                       token: nat, scan: nat)

  predicate Lower(a: Rank, b: Rank)
  {
    || a.phase < b.phase
    || (&& a.phase == b.phase
        && (|| a.clients < b.clients
            || (&& a.clients == b.clients
                && (|| a.batches < b.batches
                    || (&& a.batches == b.batches
                        && (|| a.notices < b.notices
                            || (a.notices == b.notices && LowerWork(a, b))))))))
  }

  predicate LowerWork(a: Rank, b: Rank)
  {
    || a.offers < b.offers
    || (&& a.offers == b.offers
        && (|| a.feed < b.feed
            || (&& a.feed == b.feed
                && (|| a.writers < b.writers
                    || (&& a.writers == b.writers
                        && (|| a.token < b.token
                            || (a.token == b.token && a.scan < b.scan)))))))
  }

  /** How far the loop is from its normal rounds, or through its end. */
  function Phase(pc: LoopPc): nat
  {
    match pc
    case Prune(_, _, next) => if next.ToDispatch? then 9 else 4
    case Notify(_, next) => if next.ToDispatch? then 9 else 4
    case Dispatch(_) => 8
    case AttachFlush(_) => 7
    case AttachWait(_) => 6
    case AttachDump(_) => 5
    case ExitWait => 3
    case ExitDrain => 2
    case StopDrain => 2
    case ExitClose(_) => 1
    case StopClose(_) => 1
    case Halted(_) => 0
    case _ => 4
  }

  function Left(i: nat, n: nat): nat
  {
    if i <= n then n - i else 0
  }

  function Notices(v: LoopVars): nat
  {
    match v.pc
    case Prune(_, changed, _) => if changed then |v.clients| + 1 else 0
    case Notify(i, _) => Left(i, |v.clients|)
    case _ => 0
  }

  /** The rest of the present round, if no queue has room and nothing else happens. */
  function Scan(v: LoopVars): nat
  {
    var n, p, t := |v.clients|, |v.pending|, |v.todo|;
    match v.pc
    case Notify(_, _) => 5 + p + n
    case Prune(i, _, next) => 4 + p + Left(i, n) + if next.ToTop? then n + 1 else 0
    case Settle => 3 + p
    case Offer(first) => 2 + t + if first then 4 + n + p + t else 0
    case ExitClose(i) => Left(i, n)
    case StopClose(i) => Left(i, n)
    case _ => 0
  }

  function WriterWork(cl: Client): nat
  {
    3 * |cl.queue| + match cl.pc {
      case Dequeued(_) => 6
      case Writing(_) => 5
      case Idle => 4
      case WritingFinal(_) => 3
      case Closing => 2
      case Unsignalled => 1
      case Gone => 0
    }
  }

  function WritersWork(table: seq<Client>): nat
  {
    if table == [] then 0 else WriterWork(table[0]) + WritersWork(table[1..])
  }

  function RankOf(s: State): Rank
  {
    var v := s.loop;
    Rank(Phase(v.pc), |v.clients|, |s.pty.out|, Notices(v), |v.pending| + |v.todo|,
         FeedWork(s.feed) + (if v.feed.Some? then 4 else 0), WritersWork(s.table), if s.token then 1 else 0, Scan(v))
  }

  // --- Every step leaves less to do ------------------------------------------

  lemma {:induction false} WorkReplaced(table: seq<Client>, c: nat, cl: Client)
    requires c < |table|
    ensures WritersWork(table[c := cl]) + WriterWork(table[c]) == WritersWork(table) + WriterWork(cl)
  {
    if c == 0 {
      assert table[0 := cl][1..] == table[1..];
    } else {
      assert table[c := cl][1..] == table[1..][c - 1 := cl];
      WorkReplaced(table[1..], c - 1, cl);
    }
  }

  lemma WriterLowers(s: State, c: nat, op: WriterOp)
    requires c < |s.table| && WriterEnabled(s.table[c], op)
    ensures Lower(RankOf(WriterStep(s, c, op)), RankOf(s))
  {
    hide WritersWork;
    WorkReplaced(s.table, c, WriterApply(s.table[c], op));
  }

  lemma FeederLowers(s: State, op: FeederOp)
    requires FeederEnabled(s.feed, op)
    ensures Lower(RankOf(FeederStep(s, op)), RankOf(s))
  {
    hide WritersWork;
  }

  lemma ScanLowers(s: State)
    requires InRange(s.loop, |s.table|) && (s.loop.pc.Prune? || s.loop.pc.Notify?)
    ensures Lower(RankOf(if s.loop.pc.Prune? then StepPrune(s) else StepNotify(s)), RankOf(s))
  {
    hide WritersWork;
  }

  lemma DeliveryLowers(s: State)
    requires InRange(s.loop, |s.table|) && (s.loop.pc.Settle? || s.loop.pc.Offer?)
    requires s.loop.pc.Offer? && s.loop.todo != [] ==> s.loop.output.Some?
    ensures Lower(RankOf(if s.loop.pc.Settle? then StepSettle(s) else StepOffer(s)), RankOf(s))
  {
    hide WritersWork;
  }

  lemma CloseLowers(s: State)
    requires InRange(s.loop, |s.table|) && (s.loop.pc.ExitClose? || s.loop.pc.StopClose?)
    requires s.loop.pc.ExitClose? ==> s.pty.exitCode.Some?
    ensures Lower(RankOf(StepClose(s)), RankOf(s))
  {
    hide WritersWork;
    var i := s.loop.pc.i;
    if i < |s.loop.clients| {
      var c := s.loop.clients[i];
      WorkReplaced(s.table, c, StepClose(s).table[c]);
    }
  }

  lemma ActionLowers(s: State, a: Action)
    requires InRange(s.loop, |s.table|) && ActionInRange(a, |s.table|)
    ensures Phase(StepAction(s, a).loop.pc) < 8
  {
    hide Arbitrate, WritableSizes, Chosen;
  }

  lemma AdvanceLowers(s: State)
    requires Inv(s) && CanAdvance(s)
    ensures Lower(RankOf(StepAdvance(s)), RankOf(s))
  {
    hide FlightOk, Conserved, Accounts, Traces, Wakes, SizesOk, Bounded, ListsOk, OpenIff, WritersWork;
    match s.loop.pc {
      case Prune(_, _, _) => ScanLowers(s);
      case Notify(_, _) => ScanLowers(s);
      case Settle => DeliveryLowers(s);
      case Offer(_) => DeliveryLowers(s);
      case ExitClose(_) => CloseLowers(s);
      case StopClose(_) => CloseLowers(s);
      case Dispatch(a) => ActionLowers(s.(loop := ResetOutput(s.loop)), a);
      case AttachFlush(_) =>
      case AttachWait(_) =>
      case ExitWait =>
      case ExitDrain =>
      case StopDrain =>
    }
  }

  lemma LoopLowers(s: State, op: LoopOp)
    requires Inv(s) && LoopEnabled(s, op) && !op.TakeAction?
    ensures Lower(RankOf(LoopStep(s, op)), RankOf(s))
  {
    hide Channels, FeedOk, Accounts, Traces, Wakes, SizesOk, Bounded, WritersWork, StepAdvance;
    if op.Advance? {
      AdvanceLowers(s);
    }
  }

  lemma StepLowers(s: State, l: Label)
    requires Inv(s) && Enabled(s, l) && Inside(l)
    ensures Lower(RankOf(Apply(s, l)), RankOf(s))
  {
    hide Inv, LoopStep, WriterStep, FeederStep, RankOf, Lower, LoopEnabled, WriterEnabled, FeederEnabled;
    match l {
      case Loop(op) => LoopLowers(s, op);
      case Writer(c, op) => WriterLowers(s, c, op);
      case Feeder(op) => FeederLowers(s, op);
    }
  }

  lemma {:induction false} Descent(states: nat -> State, labels: nat -> Label, n: nat) returns (m: nat)
    requires Inv(states(n))
    ensures m >= n
    ensures !(Inside(labels(m)) && Enabled(states(m), labels(m)) && states(m + 1) == Apply(states(m), labels(m)))
    decreases RankOf(states(n)).phase, RankOf(states(n)).clients, RankOf(states(n)).batches,
              RankOf(states(n)).notices, RankOf(states(n)).offers, RankOf(states(n)).feed,
              RankOf(states(n)).writers, RankOf(states(n)).token, RankOf(states(n)).scan
  {
    hide Inv, Apply, Enabled, RankOf;
    m := n;
    if Inside(labels(n)) && Enabled(states(n), labels(n)) && states(n + 1) == Apply(states(n), labels(n)) {
      StepInv(states(n), labels(n));
      StepLowers(states(n), labels(n));
      m := Descent(states, labels, n + 1);
    }
  }

  /** No run of the session by itself goes on for ever, whatever its goroutines do first. */
  lemma NoEndlessRun(states: nat -> State, labels: nat -> Label)
    requires Reachable(states(0))
    ensures exists n: nat ::
              !(Inside(labels(n)) && Enabled(states(n), labels(n)) && states(n + 1) == Apply(states(n), labels(n)))
  {
    ReachableInv(states(0));
    var _ := Descent(states, labels, 0);
  }

  // --- At rest ---------------------------------------------------------------

  ghost predicate AtRest(s: State)
  {
    forall l | Inside(l) :: !Enabled(s, l)
  }

  predicate WriterRests(cl: Client)
  {
    cl.pc.Gone? || (cl.pc.Idle? && cl.queue == [] && cl.ending.Open?)
  }

  lemma WriterGoesOn(s: State, c: nat) returns (l: Label)
    requires !s.panicked && c < |s.table| && !WriterRests(s.table[c])
    ensures Inside(l) && Enabled(s, l)
  {
    var cl := s.table[c];
    var op := match cl.pc
      case Idle => if cl.queue != [] then Receive else Drained
      case Dequeued(_) => Signal
      case Writing(_) => WriteOk
      case WritingFinal(_) => WriteOk
      case Closing => CloseDone
      case _ => LastSignal;
    l := Writer(c, op);
  }

  lemma RestingWriter(s: State, c: nat)
    requires AtRest(s) && !s.panicked && c < |s.table|
    ensures WriterRests(s.table[c])
  {
    hide WriterRests, Inside, Enabled;
    if !WriterRests(s.table[c]) {
      var _ := WriterGoesOn(s, c);
    }
  }

  predicate FeederRests(f: FeedVars)
  {
    f.pc.Ended? || (f.pc.Waiting? && f.queue == [] && !f.closed)
  }

  lemma FeederGoesOn(s: State) returns (l: Label)
    requires !s.panicked && !FeederRests(s.feed)
    ensures Inside(l) && Enabled(s, l)
  {
    var op := match s.feed.pc
      case Taken(_) => FeedApply
      case Applied(_) => FeedAck
      case _ => if s.feed.queue != [] then FeedTake else FeedEnd;
    l := Feeder(op);
  }

  lemma RestingFeeder(s: State)
    requires AtRest(s) && !s.panicked
    ensures FeederRests(s.feed)
  {
    hide FeederRests, Inside, Enabled;
    if !FeederRests(s.feed) {
      var _ := FeederGoesOn(s);
    }
  }

  /** Between its selects the loop goes on, or the feeder does. */
  lemma GoesOn(s: State) returns (l: Label)
    requires Inv(s) && !s.loop.pc.Select? && !s.loop.pc.Halted?
    ensures Inside(l) && Enabled(s, l)
  {
    hide FlightOk, Conserved, Accounts, Traces, Wakes, SizesOk, Bounded, ListsOk, OpenIff;
    if s.loop.pc.AttachDump? {
      l := Loop(DumpOk);
    } else if CanAdvance(s) {
      l := Loop(Advance);
    } else {
      if !s.feed.closed {
        SettledMeansApplied(s.loop, s.feed);
      }
      var op := FeederCanMove(s);
      l := Feeder(op);
    }
  }

  /** A delivery that waits goes on, or a writer it waits for does. */
  lemma DeliveryGoesOn(s: State) returns (l: Label)
    requires Reachable(s) && s.loop.pc.Select? && s.loop.output.Some?
    ensures Inside(l) && Enabled(s, l)
  {
    hide Reachable, ListsOk, OpenIff;
    ReachableUnpanicked(s);
    ReachableChannels(s);
    if s.token {
      l := Loop(TakeToken);
    } else {
      var c := s.loop.pending[0];
      NoLostWakeup(s, c);
      var op :| WriterEnabled(s.table[c], op);
      l := Writer(c, op);
    }
  }

  /** A loop that rests has nothing to pass on, and nothing to take in. */
  lemma RestingSelect(s: State)
    requires AtRest(s) && Reachable(s) && s.loop.pc.Select?
    ensures s.loop.feed.None? && s.loop.output.None? && s.pty.out == [] && !s.pty.closed
    ensures s.feed.pc.Waiting? && s.feed.queue == []
  {
    hide Reachable, FlightOk, Conserved, ListsOk, OpenIff;
    ReachableUnpanicked(s);
    ReachableChannels(s);
    ReachableFeed(s);
    RestingFeeder(s);
    if s.loop.output.Some? {
      var _ := DeliveryGoesOn(s);
    }
    var take := TakeBatch(|s.feed.memory|);
    assert Inside(Loop(SendFeed)) && !Enabled(s, Loop(SendFeed));
    assert Inside(Loop(take)) && !Enabled(s, Loop(take));
    assert Inside(Loop(SeeEof)) && !Enabled(s, Loop(SeeEof));
  }

  /** All of the output, as the terminal and one client have it. */
  predicate HasAll(cl: Client, produced: Bytes)
  {
    && cl.wire != [] && cl.wire[0].Attached?
    && Cat(FedBytes, cl.wire[0].dump) + Stream(cl.wire[1..]) == produced
  }

  lemma AccountLive(cl: Client, owed: Bytes, accepted: Bytes)
    requires Account(cl, owed, accepted) && !cl.failed && cl.ending.Open?
    ensures cl.pc.Idle? || cl.pc.Dequeued? || cl.pc.Writing?
  {
  }

  lemma RestingClientHasAll(s: State, c: nat)
    requires AtRest(s) && Reachable(s) && s.loop.pc.Select?
    requires c < |s.table| && s.table[c].ending.Open? && !s.table[c].failed && s.accepted == s.pty.produced
    ensures HasAll(s.table[c], s.pty.produced)
  {
    hide Reachable, AtRest, Account;
    RestingSelect(s);
    ReachableUnpanicked(s);
    RestingWriter(s, c);
    ReachableAccounts(s);
    ExactlyOnce(s, c);
    assert Account(s.table[c], OwedBy(s.loop, c), s.accepted);
    AccountLive(s.table[c], OwedBy(s.loop, c), s.accepted);
    assert Carried(s.table[c]) == s.table[c].wire;
  }

  /**
   * When the session rests, it has ended, or the terminal and every client whose writes
   * succeeded have all that the process ever wrote.
   */
  lemma RestMeansDelivered(s: State)
    requires AtRest(s) && Reachable(s) && !s.loop.pc.Halted?
    ensures s.loop.pc.Select? && s.pty.out == [] && !s.pty.closed
    ensures Cat(FedBytes, s.term.log) == s.pty.produced
    ensures forall c :: 0 <= c < |s.table| && s.table[c].ending.Open? && !s.table[c].failed ==>
              HasAll(s.table[c], s.pty.produced)
  {
    hide Reachable, Inv, Conserves, HasAll, FlightOk, Enabled;
    ReachableInv(s);
    if !s.loop.pc.Select? {
      var _ := GoesOn(s);
    }
    RestingSelect(s);
    ReachableFeed(s);
    FeedConserved(s);
    assert Unfed(s.loop.feed, s.feed) == [];
    forall c | 0 <= c < |s.table| && s.table[c].ending.Open? && !s.table[c].failed
      ensures HasAll(s.table[c], s.pty.produced)
    {
      RestingClientHasAll(s, c);
    }
  }

  lemma EndedFeeder(s: State)
    requires FeedOk(s) && s.loop.pc.Halted?
    ensures s.feed.pc.Ended?
  {
    hide FlightOk, Conserved;
  }

  /** A session that has ended and rests has finished with every goroutine of its own. */
  lemma RestAtTheEnd(s: State)
    requires AtRest(s) && Reachable(s) && s.loop.pc.Halted?
    ensures s.feed.pc.Ended? && forall c :: 0 <= c < |s.table| ==> s.table[c].pc.Gone?
  {
    hide Reachable, AtRest, FeedOk, Bounded;
    ReachableUnpanicked(s);
    AllClosedAtTheEnd(s);
    ReachableFeed(s);
    EndedFeeder(s);
    forall c | 0 <= c < |s.table| ensures s.table[c].pc.Gone? {
      RestingWriter(s, c);
    }
  }

  lemma StayerHasAll(s: State, c: nat)
    requires Reachable(s) && s.loop.pc == Halted(true) && c < |s.table|
    requires s.table[c].ending.Finished? && !s.table[c].failed && s.table[c].pc.Gone?
    ensures HasAll(s.table[c], s.pty.produced) && s.pty.exitCode.Some?
    ensures s.table[c].parting == Some(Exited(s.pty.exitCode.value))
  {
    hide Reachable;
    ReachableAccounts(s);
    ReachableTraces(s);
    NothingLostAtExit(s);
    var cl := s.table[c];
    hide Account, Wording, Parting;
    assert Account(cl, OwedBy(s.loop, c), s.accepted);
    assert Wording(cl) && Parting(cl, s.pty.exitCode, true);
    LastWords(cl, s.pty.exitCode, OwedBy(s.loop, c), s.accepted);
    assert cl.wire == [cl.wire[0]] + cl.wire[1..];
    assert Sent(cl)[|cl.wire|] == Exited(s.pty.exitCode.value);
  }

  /**
   * So when the process ends by itself, whoever stays attached and can be written to ends up
   * with a greeting, all the output, and the exit code.
   */
  lemma StayersHaveAll(s: State, c: nat)
    requires AtRest(s) && Reachable(s) && s.loop.pc == Halted(true) && c in s.loop.clients
    ensures c < |s.table| && s.pty.exitCode.Some?
    ensures !s.table[c].failed ==> HasAll(s.table[c], s.pty.produced)
                                   && s.table[c].parting == Some(Exited(s.pty.exitCode.value))
  {
    hide Reachable, AtRest;
    StayersAreLetGo(s, c);
    RestAtTheEnd(s);
    if !s.table[c].failed {
      StayerHasAll(s, c);
    }
  }
}
