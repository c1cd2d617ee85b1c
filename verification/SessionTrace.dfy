/** The shape of what a client is sent: Attached, then output and notices, then perhaps Exited. */
module SessionTrace {
  import opened Bytes
  import opened Sizes
  import opened Session
  import opened SessionChannels
  import opened SessionDelivery

  predicate Chatter(m: Msg)
  {
    m.Output? || m.ClientsChanged?
  }

  /** A greeting first, and only first. */
  predicate Polite(msgs: seq<Msg>)
  {
    && (msgs != [] ==> msgs[0].Attached?)
    && (forall k :: 1 <= k < |msgs| ==> Chatter(msgs[k]))
  }

  predicate Leaving(pc: WriterPc)
  {
    pc.Closing? || pc.Unsignalled? || pc.Gone?
  }

  predicate Wording(cl: Client)
  {
    if cl.failed then Polite(cl.wire) else Polite(Carried(cl)) && Carried(cl) != []
  }

  /** The last message exists only after a natural exit and is written last. */
  predicate Parting(cl: Client, exit: Option<int>, exited: bool)
  {
    && |cl.queue| <= OUT_BUFFER
    && (cl.final.Some? <==> cl.ending.Finished?)
    && (cl.final.Some? ==> exited && exit.Some? && cl.final == Some(Exited(exit.value)))
    && (cl.pc.WritingFinal? ==> cl.final == Some(cl.pc.msg) && cl.queue == [] && !cl.failed)
    && (cl.parting.Some? ==> cl.parting == cl.final && Leaving(cl.pc) && !cl.failed)
    && (cl.failed ==> Leaving(cl.pc))
    && (Leaving(cl.pc) && !cl.failed ==> !cl.ending.Open? && cl.queue == [] && cl.parting == cl.final)
  }

  predicate AtExit(pc: LoopPc)
  {
    pc.ExitClose? || pc == Halted(true)
  }

  ghost predicate Wordings(table: seq<Client>)
  {
    forall c :: 0 <= c < |table| ==> Wording(table[c])
  }

  ghost predicate Partings(table: seq<Client>, exit: Option<int>, exited: bool)
  {
    forall c :: 0 <= c < |table| ==> Parting(table[c], exit, exited)
  }

  // --- One client ------------------------------------------------------------

  lemma PoliteMore(msgs: seq<Msg>, m: Msg)
    requires Polite(msgs) && msgs != [] && Chatter(m)
    ensures Polite(msgs + [m])
  {
  }

  lemma PolitePrefix(a: seq<Msg>, b: seq<Msg>)
    requires Polite(a + b)
    ensures Polite(a)
  {
    forall k | 1 <= k < |a| ensures Chatter(a[k]) {
      assert a[k] == (a + b)[k];
    }
    if a != [] {
      assert a[0] == (a + b)[0];
    }
  }

  lemma WriterKeepsWording(cl: Client, op: WriterOp, exit: Option<int>, exited: bool)
    requires Wording(cl) && Parting(cl, exit, exited) && WriterEnabled(cl, op)
    ensures Wording(WriterApply(cl, op))
  {
    if op.WriteFail? {
      PolitePrefix(cl.wire, InHand(cl.pc) + cl.queue);
    } else {
      WriterCarriesOn(cl, op);
    }
  }

  lemma WriterKeepsParting(cl: Client, op: WriterOp, exit: Option<int>, exited: bool)
    requires Parting(cl, exit, exited) && WriterEnabled(cl, op)
    ensures Parting(WriterApply(cl, op), exit, exited)
  {
  }

  lemma SendKeepsWording(cl: Client, m: Msg)
    requires Wording(cl) && Chatter(m)
    ensures Wording(TrySend(cl, m))
  {
    if |cl.queue| < OUT_BUFFER {
      assert Carried(TrySend(cl, m)) == Carried(cl) + [m];
      if !cl.failed {
        PoliteMore(Carried(cl), m);
      }
    }
  }

  /** `cl'` is `cl` but for its size, its ending and its last message. */
  predicate SameMessages(cl: Client, cl': Client)
  {
    && cl'.wire == cl.wire && cl'.pc == cl.pc && cl'.queue == cl.queue
    && cl'.failed == cl.failed && cl'.parting == cl.parting
  }

  lemma EditKeepsWording(cl: Client, cl': Client)
    requires Wording(cl) && SameMessages(cl, cl')
    ensures Wording(cl')
  {
    assert Carried(cl') == Carried(cl);
  }

  lemma NewWording(s: State, spec: AttachSpec)
    ensures Wording(NewClient(s, spec))
  {
    assert Carried(NewClient(s, spec)) == NewClient(s, spec).queue;
  }

  // --- The loop --------------------------------------------------------------

  /** What a loop step may do to one client. */
  ghost predicate Treats(cl: Client, cl': Client, exit: Option<int>, exited: bool)
  {
    || (exists m :: Chatter(m) && cl' == TrySend(cl, m) && cl.ending.Open?)
    || (SameMessages(cl, cl') && cl'.ending == cl.ending && cl'.final == cl.final)
    || (&& SameMessages(cl, cl') && cl.ending.Open? && !cl'.ending.Open?
        && if cl'.ending.Finished? then exited && exit.Some? && cl'.final == Some(Exited(exit.value))
           else cl'.final == cl.final)
  }

  lemma TreatedKeepsTrace(cl: Client, cl': Client, exit: Option<int>, exited: bool)
    requires Wording(cl) && Parting(cl, exit, exited) && Treats(cl, cl', exit, exited)
    ensures Wording(cl') && Parting(cl', exit, exited)
  {
    if exists m :: Chatter(m) && cl' == TrySend(cl, m) && cl.ending.Open? {
      var m :| Chatter(m) && cl' == TrySend(cl, m) && cl.ending.Open?;
      SendKeepsWording(cl, m);
    } else {
      EditKeepsWording(cl, cl');
    }
  }

  /** A loop step treats every client it knows, and may add a new one. */
  ghost predicate TreatsAll(s: State, s': State)
  {
    && |s.table| <= |s'.table| <= |s.table| + 1
    && s'.pty.exitCode == s.pty.exitCode
    && (AtExit(s.loop.pc) ==> AtExit(s'.loop.pc))
    && (forall c :: 0 <= c < |s.table| ==> Treats(s.table[c], s'.table[c], s'.pty.exitCode, AtExit(s'.loop.pc)))
    && (|s'.table| > |s.table| ==> exists spec :: s'.table[|s.table|] == NewClient(s, spec))
  }

  lemma TreatsAllKeepsTraces(s: State, s': State)
    requires Wordings(s.table) && Partings(s.table, s.pty.exitCode, AtExit(s.loop.pc)) && TreatsAll(s, s')
    ensures Wordings(s'.table)
    ensures Partings(s'.table, s'.pty.exitCode, AtExit(s'.loop.pc))
  {
    var exit, exited := s'.pty.exitCode, AtExit(s'.loop.pc);
    forall c | 0 <= c < |s'.table|
      ensures Wording(s'.table[c]) && Parting(s'.table[c], exit, exited)
    {
      if c < |s.table| {
        assert Parting(s.table[c], exit, exited);
        TreatedKeepsTrace(s.table[c], s'.table[c], exit, exited);
      } else {
        var spec :| s'.table[|s.table|] == NewClient(s, spec);
        NewWording(s, spec);
      }
    }
  }

  lemma SendTreats(cl: Client, m: Msg, exit: Option<int>, exited: bool)
    requires Chatter(m) && cl.ending.Open?
    ensures Treats(cl, TrySend(cl, m), exit, exited)
  {
  }

  lemma ScanTreats(s: State)
    requires Channels(s.loop, s.table) && (s.loop.pc.Prune? || s.loop.pc.Settle?)
    ensures TreatsAll(s, if s.loop.pc.Prune? then StepPrune(s) else StepSettle(s))
  {
    if s.loop.pc.Prune? && Finds(s) {
      assert s.loop.clients[s.loop.pc.i] in OpenList(s.loop);
    }
  }

  lemma NotifyTreats(s: State)
    requires Channels(s.loop, s.table) && s.loop.pc.Notify?
    ensures TreatsAll(s, StepNotify(s))
  {
    hide Lists, OutputIffWaiting;
    if s.loop.pc.i < |s.loop.clients| {
      var x := s.loop.clients[s.loop.pc.i];
      assert x in OpenList(s.loop);
      var msg := ClientsChanged(|s.loop.clients| % 0x1_0000, s.term.cols, s.term.rows);
      SendTreats(s.table[x], msg, s.pty.exitCode, false);
    }
  }

  lemma OfferTreats(s: State)
    requires Channels(s.loop, s.table) && s.loop.pc.Offer?
    ensures TreatsAll(s, StepOffer(s))
  {
    hide Lists, OutputIffWaiting;
    if s.loop.todo != [] && s.loop.output.Some? {
      ListsVisit(s.loop);
      var x := s.loop.todo[0];
      assert x in OpenList(s.loop);
      SendTreats(s.table[x], Output(s.loop.output.value), s.pty.exitCode, false);
    }
  }

  lemma DropTreats(s: State, x: nat, ending: Ending)
    requires Channels(s.loop, s.table) && s.loop.pc.Dispatch? && x in s.loop.clients
    requires ending.Detached? || ending.Kicked?
    ensures TreatsAll(s, Drop(s, x, ending))
  {
    assert x in OpenList(s.loop);
  }

  lemma ActionTreats(s: State, a: Action)
    requires Channels(s.loop, s.table) && s.loop.pc.Dispatch? && ActionInRange(a, |s.table|)
    ensures TreatsAll(s, StepAction(s, a))
  {
    match a {
      case Detach(c) => if c in s.loop.clients { DropTreats(s, c, Detached); }
      case Kick(id) =>
        var target := FindById(s.loop.clients, id);
        if target.Some? { DropTreats(s, target.value, Kicked); }
      case _ =>
    }
  }

  lemma CloseTreats(s: State)
    requires Channels(s.loop, s.table) && (s.loop.pc.ExitClose? || s.loop.pc.StopClose?)
    ensures TreatsAll(s, StepClose(s))
  {
    hide Lists, OutputIffWaiting;
    if s.loop.pc.i < |s.loop.clients| {
      var x := s.loop.clients[s.loop.pc.i];
      assert x == s.loop.clients[s.loop.pc.i..][0];
      assert x in OpenList(s.loop);
    }
  }

  lemma DispatchTreats(s: State)
    requires Channels(s.loop, s.table) && s.loop.pc.Dispatch?
    ensures TreatsAll(s, StepDispatch(s))
  {
    var s1 := s.(loop := ResetOutput(s.loop));
    ActionTreats(s1, s.loop.pc.action);
    assert forall spec :: NewClient(s1, spec) == NewClient(s, spec);
  }

  /** The states in which a step touches no client. */
  predicate Quiet(pc: LoopPc)
  {
    pc.AttachFlush? || pc.AttachWait? || pc.ExitWait? || pc.ExitDrain? || pc.StopDrain?
  }

  lemma QuietTreats(s: State)
    requires InRange(s.loop, |s.table|) && Quiet(s.loop.pc) && CanAdvance(s)
    ensures TreatsAll(s, StepAdvance(s))
  {
  }

  lemma AdvanceTreats(s: State)
    requires Channels(s.loop, s.table) && CanAdvance(s)
    ensures TreatsAll(s, StepAdvance(s))
  {
    hide TreatsAll, StepPrune, StepNotify, StepSettle, StepOffer, StepDispatch, StepClose;
    match s.loop.pc {
      case Prune(_, _, _) => ScanTreats(s);
      case Notify(_, _) => NotifyTreats(s);
      case Settle => ScanTreats(s);
      case Offer(_) => OfferTreats(s);
      case Dispatch(a) => DispatchTreats(s);
      case ExitClose(_) => CloseTreats(s);
      case StopClose(_) => CloseTreats(s);
      case AttachFlush(_) => QuietTreats(s);
      case AttachWait(_) => QuietTreats(s);
      case ExitWait => QuietTreats(s);
      case ExitDrain => QuietTreats(s);
      case StopDrain => QuietTreats(s);
    }
  }

  lemma LoopTreats(s: State, op: LoopOp)
    requires Channels(s.loop, s.table) && LoopEnabled(s, op)
    ensures TreatsAll(s, LoopStep(s, op))
  {
    if op.Advance? {
      AdvanceTreats(s);
    }
  }

  // --- The invariant ---------------------------------------------------------

  ghost predicate Traces(s: State)
  {
    Wordings(s.table) && Partings(s.table, s.pty.exitCode, AtExit(s.loop.pc))
  }

  lemma WriterKeepsTraces(s: State, c: nat, op: WriterOp)
    requires Traces(s) && c < |s.table| && WriterEnabled(s.table[c], op)
    ensures Traces(WriterStep(s, c, op))
  {
    WriterKeepsWording(s.table[c], op, s.pty.exitCode, AtExit(s.loop.pc));
    WriterKeepsParting(s.table[c], op, s.pty.exitCode, AtExit(s.loop.pc));
  }

  lemma StepKeepsTraces(s: State, l: Label)
    requires Traces(s) && Channels(s.loop, s.table) && Enabled(s, l)
    ensures Traces(Apply(s, l))
  {
    hide LoopStep, WriterStep, TreatsAll;
    match l {
      case Loop(op) =>
        LoopTreats(s, op);
        TreatsAllKeepsTraces(s, LoopStep(s, op));
      case Writer(c, op) => WriterKeepsTraces(s, c, op);
      case Feeder(_) =>
      case Env(op) =>
        assert forall c :: 0 <= c < |s.table| ==> Parting(s.table[c], EnvStep(s, op).pty.exitCode, AtExit(s.loop.pc));
    }
  }
}
