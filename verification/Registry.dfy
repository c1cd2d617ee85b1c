/**
 * The registry of live sessions under racing handlers. Create, attach and restore
 * look a name up, start a session without holding the lock, and register it only if
 * the name is still free; a watcher deletes it by name when it ends. Shutting down
 * is not part of this model.
 */
module Registry {
  import opened Bytes

  datatype Kind = CreateReq | AttachReq | RestoreReq

  /**
   * `kind` is the request it was started for; `won` and `lost` tell how its registration
   * went, `attached` that its own handler attached to it; `watched` and `greeted` count
   * the watchers and the attaches that said "created".
   */
  datatype Session = Session(
    name: string, kind: Kind, ended: bool, closed: bool, won: bool, lost: bool, attached: bool,
    watched: nat, greeted: nat)

  /** Where a handler is; `sess` is the session it started itself. */
  datatype HandlerPc =
    | Idle
    | Checked(kind: Kind, name: string)
    | Started(kind: Kind, name: string, sess: nat)
    | Lost(name: string, sess: nat, existing: Option<nat>)   // the name was taken; about to close `sess`
    | Owns(kind: Kind, sess: nat)              // registered, not yet attached
    | Attached(sess: nat)                      // about to be watched
    | Undoing(sess: nat)                       // about to delete by name
    | Closing(sess: nat)
    | Joining(name: string, target: nat)       // attaching to a session of another handler

  datatype WatcherPc = Waiting(sess: nat) | Gone

  datatype State = State(
    registry: map<string, nat>,
    sessions: seq<Session>,
    handlers: seq<HandlerPc>,
    watchers: seq<WatcherPc>)

  datatype Step =
    | LookUp(t: nat, kind: Kind, name: string)
    | Start(t: nat)
    | StartFails(t: nat)
    | Insert(t: nat)
    | CloseLoser(t: nat)
    | AttachOk(t: nat)
    | AttachFails(t: nat)
    | Watch(t: nat)
    | Delete(t: nat)
    | Close(t: nat)
    | Join(t: nat)
    | SessionEnds(i: nat)
    | WatcherDeletes(w: nat)

  function Init(n: nat): State
  {
    State(map[], [], seq(n, _ => Idle), [])
  }

  predicate At(s: State, t: nat)
  {
    t < |s.handlers|
  }

  predicate Known(s: State, i: nat)
  {
    i < |s.sessions|
  }

  predicate Enabled(s: State, step: Step)
  {
    match step
    case LookUp(t, _, _) => At(s, t) && s.handlers[t].Idle?
    case Start(t) => At(s, t) && s.handlers[t].Checked?
    case StartFails(t) => At(s, t) && s.handlers[t].Checked?
    case Insert(t) => At(s, t) && s.handlers[t].Started? && Known(s, s.handlers[t].sess)
    case CloseLoser(t) => At(s, t) && s.handlers[t].Lost? && Known(s, s.handlers[t].sess)
    case AttachOk(t) =>
      At(s, t) && s.handlers[t].Owns? && !s.handlers[t].kind.CreateReq? && Known(s, s.handlers[t].sess)
    case AttachFails(t) => At(s, t) && s.handlers[t].Owns? && !s.handlers[t].kind.CreateReq?
    case Watch(t) =>
      && At(s, t) && (s.handlers[t].Attached? || (s.handlers[t].Owns? && s.handlers[t].kind.CreateReq?))
      && Known(s, s.handlers[t].sess)
    case Delete(t) => At(s, t) && s.handlers[t].Undoing? && Known(s, s.handlers[t].sess)
    case Close(t) => At(s, t) && s.handlers[t].Closing? && Known(s, s.handlers[t].sess)
    case Join(t) => At(s, t) && s.handlers[t].Joining?
    case SessionEnds(i) => Known(s, i)
    case WatcherDeletes(w) =>
      && w < |s.watchers| && s.watchers[w].Waiting? && Known(s, s.watchers[w].sess)
      && s.sessions[s.watchers[w].sess].ended
  }

  function Goto(s: State, t: nat, pc: HandlerPc): State
    requires At(s, t)
  {
    s.(handlers := s.handlers[t := pc])
  }

  function Edit(s: State, i: nat, sess: Session): State
    requires Known(s, i)
  {
    s.(sessions := s.sessions[i := sess])
  }

  function Apply(s: State, step: Step): State
    requires Enabled(s, step)
  {
    match step
    case LookUp(t, kind, name) =>
      if name !in s.registry then Goto(s, t, Checked(kind, name))
      else if kind.AttachReq? then Goto(s, t, Joining(name, s.registry[name]))
      else s
    case Start(t) =>
      var Checked(kind, name) := s.handlers[t];
      Goto(s, t, Started(kind, name, |s.sessions|))
        .(sessions := s.sessions + [Session(name, kind, false, false, false, false, false, 0, 0)])
    case StartFails(t) => Goto(s, t, Idle)
    case Insert(t) =>
      var Started(kind, name, i) := s.handlers[t];
      var sess := s.sessions[i];
      if sess.name in s.registry then
        var existing := if kind.AttachReq? then Some(s.registry[sess.name]) else None;
        Edit(Goto(s, t, Lost(name, i, existing)), i, sess.(lost := true))
      else Edit(Goto(s, t, Owns(kind, i)), i, sess.(won := true)).(registry := s.registry[sess.name := i])
    case CloseLoser(t) =>
      var Lost(name, i, existing) := s.handlers[t];
      Edit(Goto(s, t, if existing.Some? then Joining(name, existing.value) else Idle),
           i, s.sessions[i].(closed := true, ended := true))
    case AttachOk(t) =>
      var Owns(kind, i) := s.handlers[t];
      Edit(Goto(s, t, Attached(i)), i,
           s.sessions[i].(attached := true, greeted := s.sessions[i].greeted + if kind.AttachReq? then 1 else 0))
    case AttachFails(t) => Goto(s, t, Undoing(s.handlers[t].sess))
    case Watch(t) =>
      var i := s.handlers[t].sess;
      Edit(Goto(s, t, Idle), i, s.sessions[i].(watched := s.sessions[i].watched + 1))
        .(watchers := s.watchers + [Waiting(i)])
    case Delete(t) =>
      var i := s.handlers[t].sess;
      Goto(s, t, Closing(i)).(registry := s.registry - {s.sessions[i].name})
    case Close(t) =>
      var i := s.handlers[t].sess;
      Edit(Goto(s, t, Idle), i, s.sessions[i].(closed := true, ended := true))
    case Join(t) => Goto(s, t, Idle)
    case SessionEnds(i) => Edit(s, i, s.sessions[i].(ended := true))
    case WatcherDeletes(w) =>
      s.(registry := s.registry - {s.sessions[s.watchers[w].sess].name}, watchers := s.watchers[w := Gone])
  }

  predicate Run(s: State, steps: seq<Step>, t: State)
    decreases |steps|
  {
    if steps == [] then s == t
    else Enabled(s, steps[0]) && Run(Apply(s, steps[0]), steps[1..], t)
  }

  ghost predicate Reachable(s: State)
  {
    exists n, steps :: Run(Init(n), steps, s)
  }

  // --- Who holds a session ---------------------------------------------------

  datatype Holder = Handler(t: nat) | Watcher(w: nat)

  /** The session a handler started and has not let go of. */
  function HeldBy(pc: HandlerPc): Option<nat>
  {
    match pc
    case Started(_, _, i) => Some(i)
    case Lost(_, i, _) => Some(i)
    case Owns(_, i) => Some(i)
    case Attached(i) => Some(i)
    case Undoing(i) => Some(i)
    case Closing(i) => Some(i)
    case _ => None
  }

  function Held(s: State, h: Holder): Option<nat>
  {
    match h
    case Handler(t) => if t < |s.handlers| then HeldBy(s.handlers[t]) else None
    case Watcher(w) => if w < |s.watchers| && s.watchers[w].Waiting? then Some(s.watchers[w].sess) else None
  }

  /** The holder is the one that will delete the session by name. */
  predicate Owner(s: State, h: Holder)
  {
    match h
    case Handler(t) => t < |s.handlers| && (s.handlers[t].Owns? || s.handlers[t].Attached? || s.handlers[t].Undoing?)
    case Watcher(w) => w < |s.watchers| && s.watchers[w].Waiting?
  }

  predicate Registered(s: State, i: nat)
  {
    i < |s.sessions| && s.sessions[i].name in s.registry && s.registry[s.sessions[i].name] == i
  }

  /** What may have happened to a session while it is held. */
  predicate Story(s: State, h: Holder)
    requires Held(s, h).Some? && Known(s, Held(s, h).value)
  {
    var sess := s.sessions[Held(s, h).value];
    match h
    case Watcher(_) => sess.watched == 1 && sess.won
    case Handler(t) =>
      var pc := s.handlers[t];
      && sess.watched == 0 && sess.lost == pc.Lost? && sess.won == !(pc.Started? || pc.Lost?)
      && sess.attached == pc.Attached?
      && (pc.Started? ==> sess.name == pc.name && sess.kind == pc.kind)
      && (pc.Lost? ==> sess.name == pc.name)
      && (pc.Owns? ==> sess.kind == pc.kind)
  }

  ghost predicate Stories(s: State)
  {
    forall h :: Held(s, h).Some? ==> Known(s, Held(s, h).value) && Story(s, h)
  }

  /** No session has two holders. */
  ghost predicate Exclusive(s: State)
  {
    forall h, k :: Held(s, h).Some? && Held(s, h) == Held(s, k) ==> h == k
  }

  /** An owner's session is registered under its name. */
  ghost predicate OwnersRegistered(s: State)
  {
    forall h :: Owner(s, h) ==> Held(s, h).Some? && Registered(s, Held(s, h).value)
  }

  ghost predicate HasOwner(s: State, i: nat)
  {
    exists h :: Owner(s, h) && Held(s, h) == Some(i)
  }

  /** Every name in the registry is that of its session, and somebody will delete it. */
  ghost predicate Tidy(s: State)
  {
    forall name <- s.registry :: var i := s.registry[name];
      i < |s.sessions| && s.sessions[i].name == name && HasOwner(s, i)
  }

  predicate Settled(sess: Session)
  {
    && sess.watched <= 1 && !(sess.won && sess.lost) && (sess.attached || sess.watched > 0 ==> sess.won)
    && sess.greeted == if sess.kind.AttachReq? && sess.attached then 1 else 0
  }

  ghost predicate LoserClosed(s: State, i: nat)
    requires Known(s, i)
  {
    s.sessions[i].lost ==>
      s.sessions[i].closed || exists t: nat :: At(s, t) && s.handlers[t].Lost? && s.handlers[t].sess == i
  }

  ghost predicate Histories(s: State)
  {
    forall i :: 0 <= i < |s.sessions| ==> Settled(s.sessions[i]) && LoserClosed(s, i)
  }

  ghost predicate Inv(s: State)
  {
    Stories(s) && Exclusive(s) && OwnersRegistered(s) && Tidy(s) && Histories(s)
  }

  // --- One session changes hands ---------------------------------------------

  /** Nobody but `me` and `you` is affected, and they by session `i` alone. */
  ghost predicate LocalMove(s: State, s': State, me: Holder, you: Holder, i: nat)
  {
    && (forall h :: h != me && h != you ==>
          Held(s', h) == Held(s, h) && (Owner(s', h) <==> Owner(s, h)) && Held(s, h) != Some(i))
    && (Held(s', me).None? || Held(s', me) == Some(i))
    && (Held(s', you).None? || Held(s', you) == Some(i))
    && (me != you ==> Held(s', me).None? || Held(s', you).None?)
    && |s.sessions| <= |s'.sessions|
    && (forall j :: 0 <= j < |s.sessions| && j != i ==> s'.sessions[j] == s.sessions[j])
  }

  lemma MoveKeepsExclusive(s: State, s': State, me: Holder, you: Holder, i: nat)
    requires Exclusive(s) && LocalMove(s, s', me, you, i)
    ensures Exclusive(s')
  {
    forall h, k | Held(s', h).Some? && Held(s', h) == Held(s', k) ensures h == k {
      if h == me || h == you {
      } else if k == me || k == you {
      } else {
        assert Held(s, h) == Held(s, k);
      }
    }
  }

  lemma MoveKeepsStories(s: State, s': State, me: Holder, you: Holder, i: nat)
    requires Stories(s) && LocalMove(s, s', me, you, i)
    requires Held(s', me).Some? ==> Known(s', i) && Story(s', me)
    requires Held(s', you).Some? ==> Known(s', i) && Story(s', you)
    requires forall t: nat | t < |s.handlers| && Handler(t) != me && Handler(t) != you ::
               t < |s'.handlers| && s'.handlers[t] == s.handlers[t]
    ensures Stories(s')
  {
    forall h | Held(s', h).Some? ensures Known(s', Held(s', h).value) && Story(s', h) {
      if h != me && h != you {
        assert Held(s, h) == Held(s', h) && Story(s, h);
      }
    }
  }

  lemma MoveKeepsOwners(s: State, s': State, me: Holder, you: Holder, i: nat)
    requires OwnersRegistered(s) && LocalMove(s, s', me, you, i)
    requires forall j: nat :: j != i && Registered(s, j) ==> Registered(s', j)
    requires Owner(s', me) || Owner(s', you) ==> Registered(s', i)
    requires Owner(s', me) ==> Held(s', me).Some?
    requires Owner(s', you) ==> Held(s', you).Some?
    ensures OwnersRegistered(s')
  {
  }

  lemma MoveKeepsTidy(s: State, s': State, me: Holder, you: Holder, i: nat)
    requires Tidy(s) && LocalMove(s, s', me, you, i)
    requires Owner(s, me) ==> Held(s, me) == Some(i)
    requires Owner(s, you) ==> Held(s, you) == Some(i)
    requires forall name <- s'.registry :: s'.registry[name] != i ==>
               name in s.registry && s.registry[name] == s'.registry[name]
    requires forall name <- s'.registry :: s'.registry[name] == i ==>
               Known(s', i) && s'.sessions[i].name == name && HasOwner(s', i)
    ensures Tidy(s')
  {
    forall name | name in s'.registry && s'.registry[name] != i
      ensures HasOwner(s', s'.registry[name])
    {
      assert HasOwner(s, s.registry[name]);
      var h :| Owner(s, h) && Held(s, h) == Some(s.registry[name]);
      assert Owner(s', h);
    }
  }

  lemma MoveKeepsHistories(s: State, s': State, me: Holder, you: Holder, i: nat)
    requires Histories(s) && LocalMove(s, s', me, you, i)
    requires forall t: nat | t < |s.handlers| && Handler(t) != me && Handler(t) != you ::
               t < |s'.handlers| && s'.handlers[t] == s.handlers[t]
    requires Held(s, me).Some? ==> Held(s, me) == Some(i)
    requires Held(s, you).Some? ==> Held(s, you) == Some(i)
    requires |s'.sessions| > |s.sessions| ==> i == |s.sessions| == |s'.sessions| - 1
    requires Known(s', i) ==> Settled(s'.sessions[i]) && LoserClosed(s', i)
    ensures Histories(s')
  {
    forall j: nat | j < |s'.sessions| && j != i ensures Settled(s'.sessions[j]) && LoserClosed(s', j) {
      assert Settled(s.sessions[j]) && LoserClosed(s, j);
      if s.sessions[j].lost && !s.sessions[j].closed {
        var t: nat :| At(s, t) && s.handlers[t].Lost? && s.handlers[t].sess == j;
        assert Held(s, Handler(t)) == Some(j);
        assert s'.handlers[t] == s.handlers[t];
      }
    }
  }

  // --- Every step is such a move ---------------------------------------------

  function Mover(s: State, step: Step): (Holder, Holder)
  {
    match step
    case LookUp(t, _, _) => (Handler(t), Handler(t))
    case Start(t) => (Handler(t), Handler(t))
    case StartFails(t) => (Handler(t), Handler(t))
    case Insert(t) => (Handler(t), Handler(t))
    case CloseLoser(t) => (Handler(t), Handler(t))
    case AttachOk(t) => (Handler(t), Handler(t))
    case AttachFails(t) => (Handler(t), Handler(t))
    case Watch(t) => (Handler(t), Watcher(|s.watchers|))
    case Delete(t) => (Handler(t), Handler(t))
    case Close(t) => (Handler(t), Handler(t))
    case Join(t) => (Handler(t), Handler(t))
    case WatcherDeletes(w) => (Watcher(w), Watcher(w))
    case SessionEnds(_) => (Watcher(|s.watchers|), Watcher(|s.watchers|))
  }

  /** The session that changes hands, or the next one. */
  function Subject(s: State, step: Step): nat
  {
    var me := Mover(s, step).0;
    if Held(s, me).Some? then Held(s, me).value else |s.sessions|
  }

  lemma StepIsLocal(s: State, step: Step)
    requires Stories(s) && Exclusive(s) && Enabled(s, step) && !step.SessionEnds?
    ensures LocalMove(s, Apply(s, step), Mover(s, step).0, Mover(s, step).1, Subject(s, step))
  {
    var s', i := Apply(s, step), Subject(s, step);
    var (me, you) := Mover(s, step);
    forall h | h != me && h != you
      ensures Held(s', h) == Held(s, h) && (Owner(s', h) <==> Owner(s, h)) && Held(s, h) != Some(i)
    {
      assert Held(s, me).Some? ==> Held(s, me) != Held(s, h);
    }
  }

  /** The session that changed hands has the history that its new state calls for. */
  lemma SubjectStory(s: State, step: Step)
    requires Stories(s) && Histories(s) && Enabled(s, step) && !step.SessionEnds?
    ensures var s', i := Apply(s, step), Subject(s, step);
            var (me, you) := Mover(s, step);
            && (Held(s', me).Some? ==> Known(s', i) && Story(s', me))
            && (Held(s', you).Some? ==> Known(s', i) && Story(s', you))
            && (Known(s', i) ==> Settled(s'.sessions[i]) && LoserClosed(s', i))
  {
  }

  /** The registry changes only at the name of the session that changed hands, in step with its owner. */
  lemma SubjectRegistered(s: State, step: Step)
    requires Stories(s) && OwnersRegistered(s) && Tidy(s) && Enabled(s, step) && !step.SessionEnds?
    ensures var s', i := Apply(s, step), Subject(s, step);
            forall j: nat :: j != i && Registered(s, j) ==> Registered(s', j)
    ensures var s', i := Apply(s, step), Subject(s, step);
            forall name <- s'.registry :: s'.registry[name] != i ==>
              name in s.registry && s.registry[name] == s'.registry[name]
    ensures var s', i := Apply(s, step), Subject(s, step);
            Owner(s', Mover(s, step).0) || Owner(s', Mover(s, step).1) ==> Registered(s', i)
  {
    var me := Mover(s, step).0;
    assert Owner(s, me) ==> Registered(s, Held(s, me).value);
  }

  lemma SubjectOwned(s: State, step: Step, name: string)
    requires Stories(s) && Exclusive(s) && Tidy(s) && OwnersRegistered(s) && Enabled(s, step) && !step.SessionEnds?
    requires name in Apply(s, step).registry && Apply(s, step).registry[name] == Subject(s, step)
    ensures var s', i := Apply(s, step), Subject(s, step);
            Known(s', i) && s'.sessions[i].name == name && HasOwner(s', i)
  {
    var s', i := Apply(s, step), Subject(s, step);
    var (me, you) := Mover(s, step);
    assert Owner(s, me) ==> Registered(s, Held(s, me).value);
    if name in s.registry && s.registry[name] == i {
      var h :| Owner(s, h) && Held(s, h) == Some(i);
      assert h == me;
    }
    assert Owner(s', me) || Owner(s', you);
    assert HasOwner(s', i) by {
      if Owner(s', me) { assert Held(s', me) == Some(i); } else { assert Held(s', you) == Some(i); }
    }
  }

  lemma EndKeepsTidy(s: State, i: nat)
    requires Tidy(s) && Known(s, i)
    ensures Tidy(Apply(s, SessionEnds(i)))
  {
    var s' := Apply(s, SessionEnds(i));
    assert forall h :: Held(s', h) == Held(s, h) && (Owner(s', h) <==> Owner(s, h));
    forall name | name in s'.registry ensures HasOwner(s', s'.registry[name]) {
      assert HasOwner(s, s.registry[name]);
    }
  }

  lemma EndKeepsInv(s: State, i: nat)
    requires Inv(s) && Known(s, i)
    ensures Inv(Apply(s, SessionEnds(i)))
  {
    hide Tidy;
    var s' := Apply(s, SessionEnds(i));
    assert forall h :: Held(s', h) == Held(s, h) && (Owner(s', h) <==> Owner(s, h));
    assert forall h | Held(s, h).Some? :: Story(s, h) ==> Story(s', h);
    EndKeepsTidy(s, i);
    forall j: nat | j < |s.sessions| ensures Settled(s'.sessions[j]) && LoserClosed(s', j) {
      assert Settled(s.sessions[j]) && LoserClosed(s, j);
    }
  }

  lemma MoveKeepsInv(s: State, step: Step)
    requires Inv(s) && Enabled(s, step) && !step.SessionEnds?
    ensures Inv(Apply(s, step))
  {
    hide Stories, Exclusive, OwnersRegistered, Tidy, Histories, LocalMove;
    hide Registered, Story, Settled, LoserClosed, HasOwner;
    var s', i := Apply(s, step), Subject(s, step);
    var (me, you) := Mover(s, step);
    StepIsLocal(s, step);
    SubjectStory(s, step);
    SubjectRegistered(s, step);
    forall name | name in s'.registry && s'.registry[name] == i
      ensures Known(s', i) && s'.sessions[i].name == name && HasOwner(s', i)
    {
      SubjectOwned(s, step, name);
    }
    MoveKeepsExclusive(s, s', me, you, i);
    MoveKeepsStories(s, s', me, you, i);
    MoveKeepsOwners(s, s', me, you, i);
    MoveKeepsTidy(s, s', me, you, i);
    MoveKeepsHistories(s, s', me, you, i);
  }

  lemma StepInv(s: State, step: Step)
    requires Inv(s) && Enabled(s, step)
    ensures Inv(Apply(s, step))
  {
    hide Inv;
    if step.SessionEnds? {
      EndKeepsInv(s, step.i);
    } else {
      MoveKeepsInv(s, step);
    }
  }

  lemma {:induction false} RunInv(s: State, steps: seq<Step>, t: State)
    requires Inv(s) && Run(s, steps, t)
    ensures Inv(t)
    decreases |steps|
  {
    hide Inv;
    if steps != [] {
      StepInv(s, steps[0]);
      RunInv(Apply(s, steps[0]), steps[1..], t);
    }
  }

  lemma ReachableInv(s: State)
    requires Reachable(s)
    ensures Inv(s)
  {
    var n, steps :| Run(Init(n), steps, s);
    assert forall h :: Held(Init(n), h).None? && !Owner(Init(n), h);
    assert Inv(Init(n));
    hide Inv;
    RunInv(Init(n), steps, s);
  }

  // --- Theorems --------------------------------------------------------------

  /** Whoever deletes by name, handler or watcher, deletes the very session it holds. */
  lemma DeletesOwnSession(s: State, step: Step)
    requires Reachable(s) && Enabled(s, step) && (step.Delete? || step.WatcherDeletes?)
    ensures var i := if step.Delete? then s.handlers[step.t].sess else s.watchers[step.w].sess;
            var name := s.sessions[i].name;
            && name in s.registry && s.registry[name] == i
            && name !in Apply(s, step).registry
            && forall other <- s.registry :: other != name ==>
                 other in Apply(s, step).registry && Apply(s, step).registry[other] == s.registry[other]
  {
    ReachableInv(s);
    var h := if step.Delete? then Handler(step.t) else Watcher(step.w);
    assert Owner(s, h) && Registered(s, Held(s, h).value);
  }

  /**
   * A session gets at most one watcher. It is reported created once, to the client whose
   * plain attach started it, when that attach succeeds; a loser gets neither.
   */
  lemma OneWatcherOneCreator(s: State, i: nat)
    requires Reachable(s) && i < |s.sessions|
    ensures s.sessions[i].watched <= 1
    ensures s.sessions[i].greeted == if s.sessions[i].kind.AttachReq? && s.sessions[i].attached then 1 else 0
    ensures s.sessions[i].lost ==> s.sessions[i].watched == 0 && s.sessions[i].greeted == 0
  {
    ReachableInv(s);
    assert Settled(s.sessions[i]);
  }

  /** A session that lost the race for its name is closed, or is just about to be. */
  lemma LosersAreClosed(s: State, i: nat)
    requires Reachable(s) && i < |s.sessions| && s.sessions[i].lost && !s.sessions[i].closed
    ensures !Registered(s, i)
    ensures exists t: nat :: t < |s.handlers| && s.handlers[t].Lost? && s.handlers[t].sess == i
                             && Enabled(s, CloseLoser(t))
  {
    ReachableInv(s);
    assert LoserClosed(s, i);
    var t: nat :| At(s, t) && s.handlers[t].Lost? && s.handlers[t].sess == i;
    assert Enabled(s, CloseLoser(t));
    assert Held(s, Handler(t)) == Some(i) && !Owner(s, Handler(t));
    assert !HasOwner(s, i);
  }

  /** Every registered session has exactly one handler or watcher that will take it out again. */
  lemma OneOwnerEach(s: State, name: string)
    requires Reachable(s) && name in s.registry
    ensures var i := s.registry[name];
            && i < |s.sessions| && s.sessions[i].name == name
            && (exists h :: Owner(s, h) && Held(s, h) == Some(i))
            && (forall h, k :: Held(s, h) == Held(s, k) == Some(i) ==> h == k)
  {
    ReachableInv(s);
    assert HasOwner(s, s.registry[name]);
  }

  // --- Which session a request gets ------------------------------------------

  /** A session of that name that was registered. */
  predicate WasRegistered(s: State, name: string, i: nat)
  {
    i < |s.sessions| && s.sessions[i].name == name && s.sessions[i].won
  }

  /** A handler that joins, or is about to, holds a session of the name it was asked for. */
  predicate JoinsOk(s: State, pc: HandlerPc)
  {
    && (pc.Joining? ==> WasRegistered(s, pc.name, pc.target))
    && (pc.Lost? && pc.existing.Some? ==> WasRegistered(s, pc.name, pc.existing.value))
  }

  ghost predicate Joins(s: State)
  {
    forall t: nat :: t < |s.handlers| ==> JoinsOk(s, s.handlers[t])
  }

  lemma RegisteredWon(s: State, name: string)
    requires Stories(s) && Tidy(s) && name in s.registry
    ensures WasRegistered(s, name, s.registry[name])
  {
    assert HasOwner(s, s.registry[name]);
    var h :| Owner(s, h) && Held(s, h) == Some(s.registry[name]);
    assert Story(s, h);
  }

  /** Names stay, and what was registered was registered. */
  lemma SessionsGrow(s: State, step: Step, name: string, i: nat)
    requires Enabled(s, step) && WasRegistered(s, name, i)
    ensures WasRegistered(Apply(s, step), name, i)
  {
  }

  lemma StartedName(s: State, t: nat)
    requires Stories(s) && At(s, t) && s.handlers[t].Started?
    ensures Known(s, s.handlers[t].sess)
    ensures var sess := s.sessions[s.handlers[t].sess];
            sess.name == s.handlers[t].name && sess.kind == s.handlers[t].kind
  {
    assert Held(s, Handler(t)) == Some(s.handlers[t].sess);
    assert Story(s, Handler(t));
  }

  /** A handler that the step does not move, or that it sends to join. */
  lemma JoinerKept(s: State, step: Step, t: nat)
    requires Inv(s) && Joins(s) && Enabled(s, step) && t < |s.handlers|
    ensures var s' := Apply(s, step); t < |s'.handlers| && JoinsOk(s', s'.handlers[t])
  {
    hide WasRegistered, Tidy, Histories, Exclusive, OwnersRegistered;
    var pc, pc' := s.handlers[t], Apply(s, step).handlers[t];
    if pc'.Joining? {
      if step.LookUp? && step.t == t && pc != pc' {
        RegisteredWon(s, step.name);
      }
      SessionsGrow(s, step, pc'.name, pc'.target);
    } else if pc'.Lost? && pc'.existing.Some? {
      if step == Insert(t) {
        StartedName(s, t);
        RegisteredWon(s, pc.name);
      }
      SessionsGrow(s, step, pc'.name, pc'.existing.value);
    }
  }

  lemma SameHandlers(s: State, step: Step)
    requires Enabled(s, step)
    ensures |Apply(s, step).handlers| == |s.handlers|
  {
  }

  lemma StepKeepsJoins(s: State, step: Step)
    requires Inv(s) && Joins(s) && Enabled(s, step)
    ensures Joins(Apply(s, step))
  {
    hide Inv, JoinsOk;
    SameHandlers(s, step);
    hide Apply;
    forall t: nat | t < |s.handlers| ensures JoinsOk(Apply(s, step), Apply(s, step).handlers[t]) {
      JoinerKept(s, step, t);
    }
  }

  lemma {:induction false} RunJoins(s: State, steps: seq<Step>, t: State)
    requires Inv(s) && Joins(s) && Run(s, steps, t)
    ensures Joins(t)
    decreases |steps|
  {
    hide Inv, Joins, Apply, Enabled;
    if steps != [] {
      StepInv(s, steps[0]);
      StepKeepsJoins(s, steps[0]);
      RunJoins(Apply(s, steps[0]), steps[1..], t);
    }
  }

  lemma InitInv(n: nat)
    ensures Inv(Init(n)) && Joins(Init(n))
  {
    assert forall h :: Held(Init(n), h).None? && !Owner(Init(n), h);
  }

  /** A handler that attaches to a session it did not start attaches to one of the name it asked for, no loser. */
  lemma JoinsWhatWasAsked(s: State, t: nat)
    requires Reachable(s) && t < |s.handlers| && s.handlers[t].Joining?
    ensures var i := s.handlers[t].target;
            i < |s.sessions| && s.sessions[i].name == s.handlers[t].name && s.sessions[i].won && !s.sessions[i].lost
  {
    var n, steps :| Run(Init(n), steps, s);
    ReachableInv(s);
    InitInv(n);
    RunJoins(Init(n), steps, s);
    assert Settled(s.sessions[s.handlers[t].target]);
  }

  /**
   * The look-up of a live name joins the session registered under it if the request is an
   * attach, and refuses any other request; a free name goes on to a new session.
   */
  lemma LookUpDecides(s: State, t: nat, kind: Kind, name: string)
    requires Enabled(s, LookUp(t, kind, name))
    ensures var s' := Apply(s, LookUp(t, kind, name));
            && s'.registry == s.registry && s'.sessions == s.sessions && s'.watchers == s.watchers
            && (name !in s.registry ==> s'.handlers == s.handlers[t := Checked(kind, name)])
            && (name in s.registry && kind.AttachReq? ==>
                  s'.handlers == s.handlers[t := Joining(name, s.registry[name])])
            && (name in s.registry && !kind.AttachReq? ==> s'.handlers == s.handlers)
  {
  }

  /**
   * A free name registers the session that was started under it. A taken one loses it, and
   * an attach joins the session that is registered there instead.
   */
  lemma InsertDecides(s: State, t: nat)
    requires Reachable(s) && Enabled(s, Insert(t))
    ensures var s', pc := Apply(s, Insert(t)), s.handlers[t];
            s.sessions[pc.sess].name == pc.name
    ensures var s', pc := Apply(s, Insert(t)), s.handlers[t];
            pc.name in s.registry ==>
              && s'.registry == s.registry && s'.sessions[pc.sess].lost
              && s'.handlers[t]
                 == Lost(pc.name, pc.sess, if pc.kind.AttachReq? then Some(s.registry[pc.name]) else None)
    ensures var s', pc := Apply(s, Insert(t)), s.handlers[t];
            pc.name !in s.registry ==>
              && s'.registry == s.registry[pc.name := pc.sess] && !s'.sessions[pc.sess].lost
              && s'.handlers[t] == Owns(pc.kind, pc.sess)
  {
    ReachableInv(s);
    StartedName(s, t);
    assert Story(s, Handler(t));
  }

  /** The loser is closed, and its handler goes on to the session that was there, if it wants one. */
  lemma LoserMakesWay(s: State, t: nat)
    requires Enabled(s, CloseLoser(t))
    ensures var s', pc := Apply(s, CloseLoser(t)), s.handlers[t];
            && s'.sessions[pc.sess].closed && s'.registry == s.registry
            && s'.handlers[t] == (if pc.existing.Some? then Joining(pc.name, pc.existing.value) else Idle)
  {
  }

  /** A session is attached to by the handler that started it exactly when that handler's attach succeeds. */
  lemma AttachedExactly(s: State, step: Step, i: nat)
    requires Enabled(s, step) && i < |s.sessions|
    ensures i < |Apply(s, step).sessions|
    ensures Apply(s, step).sessions[i].attached
       <==> s.sessions[i].attached || (step.AttachOk? && s.handlers[step.t].sess == i)
  {
  }
}
