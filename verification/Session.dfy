/**
 * The session actor as a labelled transition system.
 *
 * One loop owns the client list; every client has a writer; one feeder applies
 * output to the terminal; the environment produces output and requests. A step
 * is one shared access of one component, so a scan of the client list takes
 * one step for each client it visits and the other components interleave with
 * it. One visit of a delivery scan polls `writeDone` and then tries the send;
 * this is one step, because a writer that finishes between the two does not touch
 * its queue in doing so: the visit might as well have come just before. A Go
 * panic (send on or close of a closed channel, slice out of range)
 * sets `panicked`.
 *
 * The terminal is the log of what was done to it. A screen dump is a function
 * of that log, so the log itself stands for the dump.
 */
module Session {
  import opened Bytes
  import opened Sizes
  import opened Decimal

  const OUT_BUFFER := 256
  const FEED_BUFFER := 64
  const PTY_BUFFER := 64
  const PTY_BATCH := 0x1_0000
  const ID_SPACE := 0x1_0000_0000_0000_0000

  datatype TermEvent = Fed(data: Bytes) | Resized(cols: Dim, rows: Dim)

  datatype Msg =
    | Attached(id: string, cols: Dim, rows: Dim, dump: seq<TermEvent>, created: bool)
    | Output(data: Bytes)
    | ClientsChanged(count: nat, cols: Dim, rows: Dim)
    | Exited(code: int)

  function FedBytes(e: TermEvent): Bytes
  {
    if e.Fed? then e.data else []
  }

  /** The terminal output a client learns from one message. */
  function Payload(m: Msg): Bytes
  {
    match m
    case Attached(_, _, _, dump, _) => Cat(FedBytes, dump)
    case Output(data) => data
    case _ => []
  }

  /** Where a client's writer is in `writeLoop`. */
  datatype WriterPc =
    | Idle
    | Dequeued(msg: Msg)        // received, not yet signalled
    | Writing(msg: Msg)
    | WritingFinal(msg: Msg)
    | Closing                   // about to close writeDone
    | Unsignalled               // writeDone closed, not yet signalled
    | Gone

  /** Why the loop closed a client's queue, if it did. */
  datatype Ending = Open | Pruned | Detached | Kicked | Finished | Stopped

  /** `wire` is what was written from the queue; `parting` the last message, if written. */
  datatype Client = Client(
    readOnly: bool,
    size: TermSize,
    queue: seq<Msg>,
    ending: Ending,
    final: Option<Msg>,
    pc: WriterPc,
    wire: seq<Msg>,
    parting: Option<Msg>,
    failed: bool)

  /** One accepted chunk on its way to the terminal, in pooled buffer `buf`. */
  datatype Item = Item(id: nat, buf: nat, data: Bytes)

  datatype FeederPc = Waiting | Taken(item: Item) | Applied(item: Item) | Ended

  datatype AttachSpec = AttachSpec(size: TermSize, readOnly: bool, created: bool)

  datatype Action =
    | Attach(spec: AttachSpec)
    | Detach(client: nat)
    | Kick(id: string)
    | Resize(client: nat, size: TermSize)
    | Info
    | Stop

  datatype Next = ToTop | ToSettle | ToDispatch(action: Action)

  datatype LoopPc =
    | Prune(i: nat, changed: bool, next: Next)
    | Notify(i: nat, next: Next)
    | Settle
    | Offer(first: bool)
    | Select
    | Dispatch(action: Action)
    | AttachFlush(spec: AttachSpec)
    | AttachWait(spec: AttachSpec)
    | AttachDump(spec: AttachSpec)
    | ExitWait
    | ExitDrain
    | ExitClose(i: nat)
    | StopDrain
    | StopClose(i: nat)
    | Halted(natural: bool)

  /**
   * The variables of `run`. Clients are named by their index in the session's
   * `table`, which is never reused; `todo` is what a delivery scan has still to visit.
   */
  datatype LoopVars = LoopVars(
    pc: LoopPc,
    clients: seq<nat>,
    pending: seq<nat>,
    todo: seq<nat>,
    output: Option<Bytes>,
    feed: Option<Item>,
    lastItem: nat)

  /** The way to the terminal: feed channel, feeder, closed `applied` channels, buffer pool. */
  datatype FeedVars = FeedVars(
    queue: seq<Item>,
    closed: bool,
    pc: FeederPc,
    acked: set<nat>,
    memory: seq<Bytes>,
    pool: multiset<nat>)

  /** `drift` records that a client left without a new size arbitration. */
  datatype TermVars = TermVars(policy: Policy, log: seq<TermEvent>, cols: Dim, rows: Dim, drift: bool)

  /** The batches on their way in; `produced` is all there ever were. */
  datatype PtyVars = PtyVars(out: seq<Bytes>, closed: bool, exitCode: Option<int>, produced: Bytes)

  /** `accepted` is what the loop took from the PTY, `lost` what stopping threw away. */
  datatype State = State(
    loop: LoopVars,
    table: seq<Client>,
    token: bool,
    feed: FeedVars,
    term: TermVars,
    pty: PtyVars,
    accepted: Bytes,
    lost: Bytes,
    panicked: bool)

  const TOP: LoopPc := Prune(0, false, ToSettle)

  function Init(policy: Policy, cols: Dim, rows: Dim): State
  {
    State(LoopVars(TOP, [], [], [], None, None, 0), [], false,
          FeedVars([], false, Waiting, {}, [], multiset{}),
          TermVars(policy, [], cols, rows, false),
          PtyVars([], false, None, []), [], [], false)
  }

  function Panic(s: State): State
  {
    s.(panicked := true)
  }

  function Goto(s: State, pc: LoopPc): State
  {
    s.(loop := s.loop.(pc := pc))
  }

  /** The decimal name of a client; the counter is a uint64. */
  function ClientId(c: nat): string
  {
    Numeral((c + 1) % ID_SPACE)
  }

  predicate WriteDone(cl: Client)
  {
    cl.pc.Unsignalled? || cl.pc.Gone?
  }

  // --- Writers ---------------------------------------------------------------

  datatype WriterOp = Receive | Signal | WriteOk | WriteFail | Drained | CloseDone | LastSignal

  predicate WriterEnabled(cl: Client, op: WriterOp)
  {
    match op
    case Receive => cl.pc.Idle? && cl.queue != []
    case Signal => cl.pc.Dequeued?
    case WriteOk => cl.pc.Writing? || cl.pc.WritingFinal?
    case WriteFail => cl.pc.Writing? || cl.pc.WritingFinal?
    case Drained => cl.pc.Idle? && cl.queue == [] && !cl.ending.Open?
    case CloseDone => cl.pc.Closing?
    case LastSignal => cl.pc.Unsignalled?
  }

  function WriterApply(cl: Client, op: WriterOp): Client
    requires WriterEnabled(cl, op)
  {
    match op
    case Receive => cl.(pc := Dequeued(cl.queue[0]), queue := cl.queue[1..])
    case Signal => cl.(pc := Writing(cl.pc.msg))
    case WriteOk =>
      if cl.pc.Writing? then cl.(pc := Idle, wire := cl.wire + [cl.pc.msg])
      else cl.(pc := Closing, parting := Some(cl.pc.msg))
    case WriteFail => cl.(pc := Closing, failed := true)
    case Drained => cl.(pc := if cl.final.Some? then WritingFinal(cl.final.value) else Closing)
    case CloseDone => cl.(pc := Unsignalled)
    case LastSignal => cl.(pc := Gone)
  }

  function WriterStep(s: State, c: nat, op: WriterOp): State
    requires c < |s.table| && WriterEnabled(s.table[c], op)
  {
    s.(table := s.table[c := WriterApply(s.table[c], op)],
       token := s.token || op.Signal? || op.LastSignal?)
  }

  // --- Feeder ----------------------------------------------------------------

  datatype FeederOp = FeedTake | FeedApply | FeedAck | FeedEnd

  predicate FeederEnabled(f: FeedVars, op: FeederOp)
  {
    match op
    case FeedTake => f.pc.Waiting? && f.queue != []
    case FeedApply => f.pc.Taken?
    case FeedAck => f.pc.Applied?
    case FeedEnd => f.pc.Waiting? && f.queue == [] && f.closed
  }

  function FeederStep(s: State, op: FeederOp): State
    requires FeederEnabled(s.feed, op)
  {
    var f := s.feed;
    match op
    case FeedTake => s.(feed := f.(pc := Taken(f.queue[0]), queue := f.queue[1..]))
    case FeedApply =>
      var it := f.pc.item;
      var data := if it.buf < |f.memory| then f.memory[it.buf] else [];
      s.(feed := f.(pc := Applied(it)), term := s.term.(log := s.term.log + [Fed(data)]),
         panicked := s.panicked || it.buf >= |f.memory|)
    case FeedAck =>
      var it := f.pc.item;
      s.(feed := f.(pc := Waiting, acked := f.acked + {it.id}, pool := f.pool + multiset{it.buf}),
         panicked := s.panicked || it.id in f.acked)
    case FeedEnd => s.(feed := f.(pc := Ended))
  }

  // --- Environment -----------------------------------------------------------

  datatype EnvOp = Produce(data: Bytes) | ReapChild(code: int) | CloseBatches

  predicate EnvEnabled(s: State, op: EnvOp)
  {
    match op
    case Produce(data) => |data| <= PTY_BATCH && |s.pty.out| < PTY_BUFFER && !s.pty.closed
    case ReapChild(_) => s.pty.exitCode.None?
    case CloseBatches => !s.pty.closed && (s.pty.exitCode.Some? || s.loop.pc.Halted?)
  }

  function EnvStep(s: State, op: EnvOp): State
    requires EnvEnabled(s, op)
  {
    var p := s.pty;
    match op
    case Produce(data) => s.(pty := p.(out := p.out + [data], produced := p.produced + data))
    case ReapChild(code) => s.(pty := p.(exitCode := Some(code)))
    case CloseBatches => s.(pty := p.(closed := true))
  }

  // --- The loop's helpers ----------------------------------------------------

  function Remove<T(==)>(xs: seq<T>, x: T): seq<T>
  {
    if xs == [] then [] else if xs[0] == x then xs[1..] else [xs[0]] + Remove(xs[1..], x)
  }

  predicate Below(xs: seq<nat>, n: nat)
  {
    forall k :: 0 <= k < |xs| ==> xs[k] < n
  }

  lemma {:induction false} RemoveBelow(xs: seq<nat>, x: nat, n: nat)
    requires Below(xs, n)
    ensures Below(Remove(xs, x), n)
  {
    if xs != [] && xs[0] != x {
      RemoveBelow(xs[1..], x, n);
    }
  }

  /** The sizes of the writable clients, in attach order. */
  function WritableSizes(table: seq<Client>, clients: seq<nat>): seq<TermSize>
    requires Below(clients, |table|)
  {
    if clients == [] then []
    else
      var last := table[clients[|clients| - 1]];
      WritableSizes(table, clients[..|clients| - 1]) + if last.readOnly then [] else [last.size]
  }

  function ResizeTo(t: TermVars, size: TermSize): TermVars
  {
    var t1 := t.(drift := false);
    if size.cols == t.cols && size.rows == t.rows then t1
    else t1.(cols := size.cols, rows := size.rows, log := t.log + [Resized(size.cols, size.rows)])
  }

  function Arbitrate(t: TermVars, sizes: seq<TermSize>): TermVars
  {
    if sizes == [] then t.(drift := false) else ResizeTo(t, Chosen(t.policy, sizes))
  }

  function ResetOutput(v: LoopVars): LoopVars
  {
    if v.pending == [] then v.(output := None) else v
  }

  function After(next: Next): LoopPc
  {
    match next
    case ToTop => TOP
    case ToSettle => Settle
    case ToDispatch(a) => Dispatch(a)
  }

  predicate ActionInRange(a: Action, n: nat)
  {
    match a
    case Detach(c) => c < n
    case Resize(c, _) => c < n
    case _ => true
  }

  predicate PcInRange(pc: LoopPc, clients: nat, n: nat)
  {
    match pc
    case Prune(i, _, next) => i <= clients && (next.ToDispatch? ==> ActionInRange(next.action, n))
    case Notify(i, next) => i <= clients && (next.ToDispatch? ==> ActionInRange(next.action, n))
    case Dispatch(a) => ActionInRange(a, n)
    case ExitClose(i) => i <= clients
    case StopClose(i) => i <= clients
    case _ => true
  }

  /** The loop's lists name existing clients, and its scan is within its list. */
  predicate InRange(v: LoopVars, n: nat)
  {
    && Below(v.clients, n)
    && Below(v.pending, n)
    && Below(v.todo, n)
    && PcInRange(v.pc, |v.clients|, n)
  }

  // --- The loop, one control state at a time ---------------------------------

  /** Closing or sending on a closed queue panics. */
  function UseQueue(s: State, cl: Client): State
  {
    s.(panicked := s.panicked || !cl.ending.Open?)
  }

  /** The scan at client `i` finds its writer finished. */
  predicate Finds(s: State)
    requires InRange(s.loop, |s.table|) && s.loop.pc.Prune?
  {
    s.loop.pc.i < |s.loop.clients| && WriteDone(s.table[s.loop.clients[s.loop.pc.i]])
  }

  function PruneOne(s: State): State
    requires InRange(s.loop, |s.table|) && s.loop.pc.Prune? && Finds(s)
  {
    var v := s.loop;
    var i := v.pc.i;
    var c := v.clients[i];
    var cl := s.table[c];
    UseQueue(s, cl).(
      loop := v.(pc := Prune(i, true, v.pc.next),
                 clients := v.clients[..i] + v.clients[i + 1..],
                 pending := Remove(v.pending, c)),
      table := s.table[c := cl.(ending := Pruned)],
      term := s.term.(drift := s.term.drift || !cl.readOnly))
  }

  function AfterPrune(v: LoopVars): LoopPc
    requires v.pc.Prune?
  {
    var Prune(i, changed, next) := v.pc;
    if i < |v.clients| then Prune(i + 1, changed, next)
    else if changed then Notify(0, next)
    else After(next)
  }

  function StepPrune(s: State): State
    requires InRange(s.loop, |s.table|) && s.loop.pc.Prune?
  {
    if Finds(s) then PruneOne(s) else Goto(s, AfterPrune(s.loop))
  }

  /** Puts a message on a client's queue if there is room. */
  function TrySend(cl: Client, m: Msg): Client
  {
    cl.(queue := if |cl.queue| < OUT_BUFFER then cl.queue + [m] else cl.queue)
  }

  function NotifyOne(s: State): State
    requires InRange(s.loop, |s.table|) && s.loop.pc.Notify? && s.loop.pc.i < |s.loop.clients|
  {
    var v := s.loop;
    var c := v.clients[v.pc.i];
    var msg := ClientsChanged(|v.clients| % 0x1_0000, s.term.cols, s.term.rows);
    UseQueue(s, s.table[c]).(
      loop := v.(pc := Notify(v.pc.i + 1, v.pc.next)),
      table := s.table[c := TrySend(s.table[c], msg)])
  }

  function StepNotify(s: State): State
    requires InRange(s.loop, |s.table|) && s.loop.pc.Notify?
  {
    if s.loop.pc.i < |s.loop.clients| then NotifyOne(s) else Goto(s, After(s.loop.pc.next))
  }

  function StepSettle(s: State): State
    requires s.loop.pc.Settle?
  {
    var v := ResetOutput(s.loop);
    s.(loop := if v.output.Some? then v.(pc := Offer(false), todo := v.pending, pending := []) else v.(pc := Select))
  }

  /** One client of a delivery scan: gone, served, or left pending. */
  function OfferOne(s: State): State
    requires InRange(s.loop, |s.table|) && s.loop.pc.Offer? && s.loop.todo != [] && s.loop.output.Some?
  {
    var v := s.loop;
    var c := v.todo[0];
    var cl := s.table[c];
    var visited := v.(todo := v.todo[1..]);
    if WriteDone(cl) then s.(loop := visited)
    else if |cl.queue| < OUT_BUFFER then
      UseQueue(s, cl).(loop := visited, table := s.table[c := TrySend(cl, Output(v.output.value))])
    else
      UseQueue(s, cl).(loop := visited.(pending := v.pending + [c]))
  }

  function StepOffer(s: State): State
    requires InRange(s.loop, |s.table|) && s.loop.pc.Offer?
  {
    if s.loop.todo == [] then s.(loop := ResetOutput(s.loop).(pc := if s.loop.pc.first then TOP else Select))
    else if s.loop.output.None? then Panic(s)
    else OfferOne(s)
  }

  /** Takes a client out of the lists and closes its queue (detach and kick). */
  function Drop(s: State, c: nat, ending: Ending): State
    requires InRange(s.loop, |s.table|) && c < |s.table|
  {
    var v := s.loop;
    RemoveBelow(v.clients, c, |s.table|);
    var clients := Remove(v.clients, c);
    var table := s.table[c := s.table[c].(ending := ending)];
    UseQueue(s, s.table[c]).(
      loop := ResetOutput(v.(pc := Notify(0, ToTop), clients := clients, pending := Remove(v.pending, c))),
      table := table,
      term := Arbitrate(s.term, WritableSizes(table, clients)))
  }

  function FindById(clients: seq<nat>, id: string): (r: Option<nat>)
    ensures r.Some? ==> r.value in clients && ClientId(r.value) == id
    ensures r.None? ==> forall c <- clients :: ClientId(c) != id
  {
    if clients == [] then None
    else if ClientId(clients[0]) == id then Some(clients[0])
    else FindById(clients[1..], id)
  }

  function StepAttach(s: State, spec: AttachSpec): State
    requires InRange(s.loop, |s.table|)
  {
    Goto(s, if s.loop.feed.Some? then AttachFlush(spec) else AttachWait(spec)).(
      term := if spec.readOnly then s.term
              else ResizeTo(s.term, Chosen(s.term.policy, WritableSizes(s.table, s.loop.clients) + [spec.size])))
  }

  function StepDetach(s: State, c: nat): State
    requires InRange(s.loop, |s.table|) && c < |s.table|
  {
    if c in s.loop.clients then Drop(s, c, Detached) else Goto(s, TOP)
  }

  function StepKick(s: State, id: string): State
    requires InRange(s.loop, |s.table|)
  {
    var target := FindById(s.loop.clients, id);
    if target.Some? then Drop(s, target.value, Kicked) else Goto(s, TOP)
  }

  function StepResize(s: State, c: nat, size: TermSize): State
    requires InRange(s.loop, |s.table|) && c < |s.table|
  {
    var table := s.table[c := s.table[c].(size := size)];
    Goto(s, TOP).(table := table, term := Arbitrate(s.term, WritableSizes(table, s.loop.clients)))
  }

  /** Stopping gives up the chunk that is still waiting for the feeder. */
  function StepStop(s: State): State
  {
    var v, f := s.loop, s.feed;
    s.(loop := v.(pc := StopDrain, feed := None),
       feed := if v.feed.None? then f.(closed := true)
               else f.(closed := true,
                       acked := f.acked + {v.feed.value.id},
                       pool := f.pool + multiset{v.feed.value.buf}),
       lost := if v.feed.Some? then v.feed.value.data else s.lost,
       panicked := s.panicked || f.closed || (v.feed.Some? && v.feed.value.id in f.acked))
  }

  function StepAction(s: State, a: Action): State
    requires InRange(s.loop, |s.table|) && ActionInRange(a, |s.table|)
  {
    match a
    case Attach(spec) => StepAttach(s, spec)
    case Detach(c) => StepDetach(s, c)
    case Kick(id) => StepKick(s, id)
    case Resize(c, size) => StepResize(s, c, size)
    case Info => Goto(s, TOP)
    case Stop => StepStop(s)
  }

  function StepDispatch(s: State): State
    requires InRange(s.loop, |s.table|) && s.loop.pc.Dispatch?
  {
    StepAction(s.(loop := ResetOutput(s.loop)), s.loop.pc.action)
  }

  function PassFeed(s: State, pc: LoopPc): State
    requires s.loop.feed.Some?
  {
    s.(loop := s.loop.(pc := pc, feed := None),
       feed := s.feed.(queue := s.feed.queue + [s.loop.feed.value]),
       panicked := s.panicked || s.feed.closed)
  }

  function CloseFeed(s: State): State
  {
    Goto(s, ExitDrain).(feed := s.feed.(closed := true), panicked := s.panicked || s.feed.closed)
  }

  /** The `applied` channel of the last accepted chunk is closed, or there is none. */
  predicate FeedSettled(s: State)
  {
    s.loop.lastItem == 0 || s.loop.lastItem in s.feed.acked
  }

  function NewClient(s: State, spec: AttachSpec): Client
  {
    Client(spec.readOnly, spec.size,
           [Attached(ClientId(|s.table|), s.term.cols, s.term.rows, s.term.log, spec.created)],
           Open, None, Idle, [], None, false)
  }

  function StepDumpOk(s: State): State
    requires InRange(s.loop, |s.table|) && s.loop.pc.AttachDump?
  {
    var spec := s.loop.pc.spec;
    var table := s.table + [NewClient(s, spec)];
    var clients := s.loop.clients + [|s.table|];
    s.(loop := s.loop.(pc := Notify(0, ToTop), clients := clients),
       table := table,
       term := if spec.readOnly then s.term else Arbitrate(s.term, WritableSizes(table, clients)))
  }

  function StepDumpFail(s: State): State
    requires s.loop.pc.AttachDump?
  {
    Goto(s, TOP).(term := s.term.(drift := s.term.drift || !s.loop.pc.spec.readOnly))
  }

  /** Closes the queue of one client at the end; a natural exit leaves a last message first. */
  function CloseOne(s: State): State
    requires InRange(s.loop, |s.table|) && (s.loop.pc.ExitClose? || s.loop.pc.StopClose?)
    requires s.loop.pc.i < |s.loop.clients|
  {
    var v := s.loop;
    var c := v.clients[v.pc.i];
    var cl := s.table[c];
    if v.pc.StopClose? then
      UseQueue(s, cl).(loop := v.(pc := StopClose(v.pc.i + 1)),
                       table := s.table[c := cl.(ending := Stopped)])
    else if s.pty.exitCode.None? then Panic(s)
    else
      UseQueue(s, cl).(loop := v.(pc := ExitClose(v.pc.i + 1)),
                       table := s.table[c := cl.(ending := Finished, final := Some(Exited(s.pty.exitCode.value)))])
  }

  function StepClose(s: State): State
    requires InRange(s.loop, |s.table|) && (s.loop.pc.ExitClose? || s.loop.pc.StopClose?)
  {
    if s.loop.pc.i < |s.loop.clients| then CloseOne(s) else Goto(s, Halted(s.loop.pc.ExitClose?))
  }

  /** Receives one batch: offer it to every client and hold it for the feeder. */
  function StepBatch(s: State, buf: nat): State
    requires s.pty.out != []
  {
    var v, f, data := s.loop, s.feed, s.pty.out[0];
    s.(loop := v.(pc := Offer(true), output := Some(data), todo := v.clients, pending := [],
                  feed := Some(Item(v.lastItem + 1, buf, data)), lastItem := v.lastItem + 1),
       feed := f.(pool := f.pool - multiset{buf},
                  memory := if buf < |f.memory| then f.memory[buf := data] else f.memory + [data]),
       pty := s.pty.(out := s.pty.out[1..]),
       accepted := s.accepted + data,
       panicked := s.panicked || |data| > PTY_BATCH)
  }

  datatype LoopOp =
    | Advance
    | TakeBatch(buf: nat)       // buf is what the buffer pool hands out
    | SendFeed
    | TakeToken
    | TakeAction(action: Action)
    | SeeEof
    | DumpOk
    | DumpFail

  predicate CanAdvance(s: State)
  {
    match s.loop.pc
    case AttachFlush(_) => s.loop.feed.Some? && |s.feed.queue| < FEED_BUFFER
    case AttachWait(_) => FeedSettled(s)
    case ExitWait => FeedSettled(s)
    case ExitDrain => s.feed.pc.Ended?
    case StopDrain => s.feed.pc.Ended?
    case Select => false
    case AttachDump(_) => false
    case Halted(_) => false
    case _ => true
  }

  predicate LoopEnabled(s: State, op: LoopOp)
  {
    var v := s.loop;
    match op
    case Advance => CanAdvance(s)
    case TakeBatch(buf) =>
      && v.pc.Select? && v.feed.None? && v.output.None? && s.pty.out != []
      && (buf in s.feed.pool || buf == |s.feed.memory|)
    case SendFeed => v.pc.Select? && v.feed.Some? && |s.feed.queue| < FEED_BUFFER
    case TakeToken => v.pc.Select? && v.output.Some? && s.token
    case TakeAction(a) => v.pc.Select? && ActionInRange(a, |s.table|)
    case SeeEof => v.pc.Select? && v.feed.None? && v.output.None? && s.pty.out == [] && s.pty.closed
    case DumpOk => v.pc.AttachDump?
    case DumpFail => v.pc.AttachDump?
  }

  function StepAdvance(s: State): State
    requires InRange(s.loop, |s.table|) && CanAdvance(s)
  {
    match s.loop.pc
    case Prune(_, _, _) => StepPrune(s)
    case Notify(_, _) => StepNotify(s)
    case Settle => StepSettle(s)
    case Offer(_) => StepOffer(s)
    case Dispatch(_) => StepDispatch(s)
    case AttachFlush(spec) => PassFeed(s, AttachWait(spec))
    case AttachWait(spec) => Goto(s, AttachDump(spec))
    case ExitWait => CloseFeed(s)
    case ExitDrain => Goto(s, ExitClose(0))
    case ExitClose(_) => StepClose(s)
    case StopDrain => Goto(s, StopClose(0))
    case StopClose(_) => StepClose(s)
  }

  function LoopStep(s: State, op: LoopOp): State
    requires InRange(s.loop, |s.table|) && LoopEnabled(s, op)
  {
    match op
    case Advance => StepAdvance(s)
    case TakeBatch(buf) => StepBatch(s, buf)
    case SendFeed => PassFeed(s, TOP)
    case TakeToken => Goto(s, TOP).(token := false)
    case TakeAction(a) => Goto(s, Prune(0, false, ToDispatch(a)))
    case SeeEof => Goto(s, ExitWait)
    case DumpOk => StepDumpOk(s)
    case DumpFail => StepDumpFail(s)
  }

  // --- The whole system ------------------------------------------------------

  datatype Label =
    | Loop(loop: LoopOp)
    | Writer(client: nat, writer: WriterOp)
    | Feeder(feeder: FeederOp)
    | Env(env: EnvOp)

  predicate Enabled(s: State, l: Label)
  {
    && !s.panicked
    && match l {
         case Loop(op) => InRange(s.loop, |s.table|) && LoopEnabled(s, op)
         case Writer(c, op) => c < |s.table| && WriterEnabled(s.table[c], op)
         case Feeder(op) => FeederEnabled(s.feed, op)
         case Env(op) => EnvEnabled(s, op)
       }
  }

  function Apply(s: State, l: Label): State
    requires Enabled(s, l)
  {
    match l
    case Loop(op) => LoopStep(s, op)
    case Writer(c, op) => WriterStep(s, c, op)
    case Feeder(op) => FeederStep(s, op)
    case Env(op) => EnvStep(s, op)
  }

  /** `t` is reached from `s` by the steps `labels`. */
  predicate Run(s: State, labels: seq<Label>, t: State)
    decreases |labels|
  {
    if labels == [] then s == t
    else Enabled(s, labels[0]) && Run(Apply(s, labels[0]), labels[1..], t)
  }
}
