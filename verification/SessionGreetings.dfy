/** What a client is told at first, and how those that stay to the end are let go. */
module SessionGreetings {
  import opened Bytes
  import opened Sizes
  import opened Session
  import opened SessionChannels
  import opened SessionDelivery
  import opened SessionFeed
  import opened SessionRequests
  import opened SessionRuns
  import opened SessionSizes
  import opened SessionTheorems
  import opened SessionTrace
  import opened SessionWakeup

  // --- Greetings -------------------------------------------------------------

  predicate StartsAs(msgs: seq<Msg>, c: nat)
  {
    msgs != [] && msgs[0].Attached? && msgs[0].id == ClientId(c)
  }

  /** The first message a client gets, if any, greets it by its own id. */
  predicate GreetedAs(cl: Client, c: nat)
  {
    if cl.failed then cl.wire == [] || StartsAs(cl.wire, c) else StartsAs(Carried(cl), c)
  }

  ghost predicate Greetings(table: seq<Client>)
  {
    forall c :: 0 <= c < |table| ==> GreetedAs(table[c], c)
  }

  lemma WriterKeepsGreeting(cl: Client, op: WriterOp, c: nat)
    requires GreetedAs(cl, c) && WriterEnabled(cl, op) && (cl.failed ==> cl.pc.Closing? || WriteDone(cl))
    ensures GreetedAs(WriterApply(cl, op), c)
  {
    if op.WriteFail? {
      assert cl.wire != [] ==> Carried(cl)[0] == cl.wire[0];
    } else {
      WriterCarriesOn(cl, op);
    }
  }

  lemma TreatedKeepsGreeting(cl: Client, cl': Client, exit: Option<int>, exited: bool, c: nat)
    requires GreetedAs(cl, c) && Treats(cl, cl', exit, exited)
    ensures GreetedAs(cl', c)
  {
    if exists m :: Chatter(m) && cl' == TrySend(cl, m) && cl.ending.Open? {
      var m :| Chatter(m) && cl' == TrySend(cl, m) && cl.ending.Open?;
      assert |cl.queue| < OUT_BUFFER ==> Carried(cl') == Carried(cl) + [m];
    } else {
      assert Carried(cl') == Carried(cl);
    }
  }

  lemma LoopKeepsGreetings(s: State, t: State)
    requires Greetings(s.table) && TreatsAll(s, t)
    ensures Greetings(t.table)
  {
    forall c: nat | c < |t.table| ensures GreetedAs(t.table[c], c) {
      if c < |s.table| {
        TreatedKeepsGreeting(s.table[c], t.table[c], t.pty.exitCode, AtExit(t.loop.pc), c);
      } else {
        var spec :| t.table[|s.table|] == NewClient(s, spec);
        assert Carried(t.table[c]) == t.table[c].queue;
      }
    }
  }

  lemma WriterKeepsGreetings(s: State, c: nat, op: WriterOp)
    requires Accounts(s.loop, s.table, s.accepted) && Greetings(s.table)
    requires c < |s.table| && WriterEnabled(s.table[c], op)
    ensures Greetings(WriterStep(s, c, op).table)
  {
    assert Account(s.table[c], OwedBy(s.loop, c), s.accepted);
    hide Accounts, GreetedAs, WriterApply;
    WriterKeepsGreeting(s.table[c], op, c);
  }

  lemma StepKeepsGreetings(s: State, l: Label)
    requires Channels(s.loop, s.table) && Accounts(s.loop, s.table, s.accepted)
    requires Greetings(s.table) && Enabled(s, l)
    ensures Greetings(Apply(s, l).table)
  {
    hide Channels, Accounts, Greetings, LoopStep, LoopEnabled, WriterApply, TreatsAll;
    match l {
      case Loop(op) =>
        LoopTreats(s, op);
        LoopKeepsGreetings(s, LoopStep(s, op));
      case Writer(c, op) => WriterKeepsGreetings(s, c, op);
      case Feeder(_) =>
      case Env(_) =>
    }
  }

  // --- Endings ---------------------------------------------------------------

  /** How many clients, from the front of the list, the closing loop has let go, and how. */
  function LetGo(v: LoopVars): (nat, Ending)
  {
    match v.pc
    case ExitClose(i) => (i, Finished)
    case StopClose(i) => (i, Stopped)
    case Halted(natural) => (|v.clients|, if natural then Finished else Stopped)
    case _ => (0, Open)
  }

  ghost predicate Farewells(v: LoopVars, table: seq<Client>)
  {
    forall k :: 0 <= k < LetGo(v).0 && k < |v.clients| && v.clients[k] < |table| ==>
      table[v.clients[k]].ending == LetGo(v).1
  }

  lemma CloseKeepsFarewells(s: State)
    requires InRange(s.loop, |s.table|) && Sorted(s.loop.clients) && Farewells(s.loop, s.table)
    requires s.loop.pc.ExitClose? || s.loop.pc.StopClose?
    requires !StepClose(s).panicked
    ensures Farewells(StepClose(s).loop, StepClose(s).table)
  {
    var i := s.loop.pc.i;
    forall k | 0 <= k < i && i < |s.loop.clients| ensures s.loop.clients[k] != s.loop.clients[i] {
      OnceInOrder(s.loop.clients, k, i);
    }
  }

  predicate Closing(pc: LoopPc)
  {
    pc.ExitClose? || pc.StopClose?
  }

  lemma ActionLetsNobodyGo(s: State, a: Action)
    requires InRange(s.loop, |s.table|) && ActionInRange(a, |s.table|)
    ensures LetGo(StepAction(s, a).loop).0 == 0
  {
    hide Arbitrate, WritableSizes, Chosen;
  }

  lemma ScanLetsNobodyGo(s: State)
    requires InRange(s.loop, |s.table|) && (s.loop.pc.Prune? || s.loop.pc.Notify?)
    ensures s.loop.pc.Prune? ==> LetGo(StepPrune(s).loop).0 == 0
    ensures s.loop.pc.Notify? ==> LetGo(StepNotify(s).loop).0 == 0
  {
  }

  lemma OfferLetsNobodyGo(s: State)
    requires InRange(s.loop, |s.table|) && (s.loop.pc.Offer? || s.loop.pc.Settle?)
    ensures s.loop.pc.Offer? ==> LetGo(StepOffer(s).loop).0 == 0
    ensures s.loop.pc.Settle? ==> LetGo(StepSettle(s).loop).0 == 0
  {
  }

  /** No other step lets anybody go. */
  lemma OthersLetNobodyGo(s: State, op: LoopOp)
    requires InRange(s.loop, |s.table|) && LoopEnabled(s, op) && !Closing(s.loop.pc)
    ensures LetGo(LoopStep(s, op).loop).0 == 0
  {
    hide StepAction, StepPrune, StepNotify, StepOffer, StepSettle;
    if op.Advance? {
      match s.loop.pc {
        case Prune(_, _, _) => ScanLetsNobodyGo(s);
        case Notify(_, _) => ScanLetsNobodyGo(s);
        case Settle => OfferLetsNobodyGo(s);
        case Offer(_) => OfferLetsNobodyGo(s);
        case Dispatch(a) => ActionLetsNobodyGo(s.(loop := ResetOutput(s.loop)), a);
        case AttachFlush(_) =>
        case AttachWait(_) =>
        case ExitWait =>
        case ExitDrain =>
        case StopDrain =>
      }
    }
  }

  lemma OnlyAdvance(s: State, op: LoopOp)
    requires LoopEnabled(s, op) && Closing(s.loop.pc)
    ensures op.Advance?
  {
  }

  lemma LoopKeepsFarewells(s: State, op: LoopOp)
    requires InRange(s.loop, |s.table|) && Sorted(s.loop.clients) && Farewells(s.loop, s.table)
    requires LoopEnabled(s, op) && !LoopStep(s, op).panicked
    ensures var t := LoopStep(s, op); Farewells(t.loop, t.table)
  {
    if Closing(s.loop.pc) {
      hide Farewells, StepClose;
      OnlyAdvance(s, op);
      CloseKeepsFarewells(s);
    } else {
      hide LoopStep, LoopEnabled;
      OthersLetNobodyGo(s, op);
    }
  }

  lemma WriterKeepsFarewells(s: State, c: nat, op: WriterOp)
    requires Farewells(s.loop, s.table) && c < |s.table| && WriterEnabled(s.table[c], op)
    ensures Farewells(s.loop, WriterStep(s, c, op).table)
  {
    hide LetGo;
  }

  lemma StepKeepsFarewells(s: State, l: Label)
    requires Sorted(s.loop.clients) && Farewells(s.loop, s.table) && Enabled(s, l) && !Apply(s, l).panicked
    ensures Farewells(Apply(s, l).loop, Apply(s, l).table)
  {
    hide Farewells, LoopStep, LoopEnabled, WriterApply, InRange, Sorted;
    match l {
      case Loop(op) => LoopKeepsFarewells(s, op);
      case Writer(c, op) => WriterKeepsFarewells(s, c, op);
      case Feeder(_) =>
      case Env(_) =>
    }
  }

  // --- Over runs -------------------------------------------------------------

  lemma InvListsAndAccounts(s: State)
    requires Inv(s)
    ensures Channels(s.loop, s.table) && Accounts(s.loop, s.table, s.accepted) && Sorted(s.loop.clients)
  {
    hide FeedOk, Accounts, Traces, Wakes, SizesOk, Bounded;
  }

  lemma {:induction false} RunKeeps(s: State, labels: seq<Label>, t: State)
    requires Inv(s) && Greetings(s.table) && Farewells(s.loop, s.table) && Run(s, labels, t)
    ensures Greetings(t.table) && Farewells(t.loop, t.table)
    decreases |labels|
  {
    hide Inv, Greetings, Farewells, Apply, Enabled;
    if labels != [] {
      StepInv(s, labels[0]);
      StepNoPanic(s, labels[0]);
      InvListsAndAccounts(s);
      StepKeepsGreetings(s, labels[0]);
      StepKeepsFarewells(s, labels[0]);
      RunKeeps(Apply(s, labels[0]), labels[1..], t);
    }
  }

  lemma ReachableKeeps(s: State)
    requires Reachable(s)
    ensures Greetings(s.table) && Farewells(s.loop, s.table)
  {
    var policy, cols, rows, labels :| Run(Init(policy, cols, rows), labels, s);
    InitInv(policy, cols, rows);
    assert Init(policy, cols, rows).table == [] && Init(policy, cols, rows).loop.clients == [];
    hide Inv, Run;
    RunKeeps(Init(policy, cols, rows), labels, s);
  }

  /** The id a client is told is the one by which a kick finds it, until the counter wraps. */
  lemma ToldIdFindsClient(s: State, c: nat)
    requires Reachable(s) && |s.table| < ID_SPACE && c in s.loop.clients && c < |s.table| && !s.table[c].failed
    ensures var sent := Carried(s.table[c]);
            sent != [] && sent[0].Attached? && FindById(s.loop.clients, sent[0].id) == Some(c)
  {
    hide Reachable;
    ReachableKeeps(s);
    assert GreetedAs(s.table[c], c);
    KickFindsItsTarget(s, c);
  }

  /**
   * Whoever is still attached at the end is let go in the way of that end: after a natural
   * exit with the exit code as its last message, after a stop without one.
   */
  lemma StayersAreLetGo(s: State, c: nat)
    requires Reachable(s) && s.loop.pc.Halted? && c in s.loop.clients
    ensures c < |s.table|
    ensures s.loop.pc.natural ==> s.table[c].ending.Finished? && s.pty.exitCode.Some?
                                  && s.table[c].final == Some(Exited(s.pty.exitCode.value))
    ensures !s.loop.pc.natural ==> s.table[c].ending.Stopped? && s.table[c].final.None?
  {
    hide Reachable;
    ReachableChannels(s);
    ReachableKeeps(s);
    ReachableTraces(s);
    var i := FirstIndex(s.loop.clients, c);
    assert s.table[s.loop.clients[i]].ending == LetGo(s.loop).1;
    assert Parting(s.table[c], s.pty.exitCode, AtExit(s.loop.pc));
  }
}
