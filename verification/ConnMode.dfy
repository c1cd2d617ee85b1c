/**
 * One connection after the handshake: it answers requests until an attach succeeds,
 * and then streams to that one session until it leaves.
 */
module ConnMode {
  import opened Bytes
  import opened Messages

  /** A message, and what its handler made of it if it was an attach. */
  datatype Event = Event(msg: Message, joined: Option<Membership>)

  datatype Membership = Membership(session: nat, client: nat)

  datatype Effect =
    | Served(msg: Message)                     // by a request handler, a failed attach included
    | Joined(member: Membership, readOnly: bool)
    | Forwarded(to: Membership, msg: Message)
    | Left(of: Membership)                     // detachClient

  predicate IsRequest(m: Message)
  {
    m.Create? || m.Attach? || m.List? || m.Kill? || m.Send? || m.SendKey? || m.Dump? || m.Prune? || m.Status? || m.Kick?
  }

  predicate IsStreamed(m: Message)
  {
    m.Input? || m.Resize?
  }

  /** What a connection does once it has joined a session. The events end with a read error. */
  function Streaming(events: seq<Event>, member: Membership, readOnly: bool): seq<Effect>
  {
    if events == [] || !IsStreamed(events[0].msg) then [Left(member)]
    else (if readOnly then [] else [Forwarded(member, events[0].msg)]) + Streaming(events[1..], member, readOnly)
  }

  function Controlled(events: seq<Event>): seq<Effect>
  {
    if events == [] || !IsRequest(events[0].msg) then []
    else if events[0].msg.Attach? && events[0].joined.Some? then
      var member := events[0].joined.value;
      [Joined(member, events[0].msg.readOnly)] + Streaming(events[1..], member, events[0].msg.readOnly)
    else [Served(events[0].msg)] + Controlled(events[1..])
  }

  // --- What that amounts to --------------------------------------------------

  /** Input and resizes for one member, none if it only watches; then one detach, of that member. */
  predicate StreamShape(effects: seq<Effect>, member: Membership, readOnly: bool)
  {
    && effects != [] && effects[|effects| - 1] == Left(member)
    && (readOnly ==> |effects| == 1)
    && forall i :: 0 <= i < |effects| - 1 ==>
         effects[i].Forwarded? && effects[i].to == member && IsStreamed(effects[i].msg)
  }

  lemma {:induction false} StreamingShape(events: seq<Event>, member: Membership, readOnly: bool)
    ensures StreamShape(Streaming(events, member, readOnly), member, readOnly)
  {
    if events != [] && IsStreamed(events[0].msg) {
      StreamingShape(events[1..], member, readOnly);
    }
  }

  /** Answers to requests, and after them perhaps one membership to its end. */
  predicate ConnShape(effects: seq<Effect>, k: nat)
  {
    && k <= |effects|
    && (forall i :: 0 <= i < k ==> effects[i].Served?)
    && (k < |effects| ==> effects[k].Joined? && StreamShape(effects[k + 1..], effects[k].member, effects[k].readOnly))
  }

  lemma {:induction false} ControlledShape(events: seq<Event>) returns (k: nat)
    ensures ConnShape(Controlled(events), k)
  {
    k := 0;
    if events != [] && IsRequest(events[0].msg) {
      var effects := Controlled(events);
      if events[0].msg.Attach? && events[0].joined.Some? {
        var member, readOnly := events[0].joined.value, events[0].msg.readOnly;
        StreamingShape(events[1..], member, readOnly);
        assert effects[1..] == Streaming(events[1..], member, readOnly);
      } else {
        var k' := ControlledShape(events[1..]);
        k := k' + 1;
        assert effects[1..] == Controlled(events[1..]);
        if k < |effects| { assert effects[k + 1..] == effects[1..][k' + 1..]; }
      }
    }
  }

  /** A connection joins at most once, and answers no request after that. */
  lemma JoinsOnceThenServesNothing(events: seq<Event>, i: nat, j: nat)
    requires i < j < |Controlled(events)| && Controlled(events)[i].Joined?
    ensures !Controlled(events)[j].Joined? && !Controlled(events)[j].Served?
  {
    var effects := Controlled(events);
    var k := ControlledShape(events);
    assert i == k;
    assert effects[j] == effects[k + 1..][j - (k + 1)];
  }

  /** A read-only member forwards nothing: its detach follows its join at once. */
  lemma WatchersSendNothing(events: seq<Event>, i: nat)
    requires i < |Controlled(events)| && Controlled(events)[i].Joined? && Controlled(events)[i].readOnly
    ensures |Controlled(events)| == i + 2 && forall e <- Controlled(events) :: !e.Forwarded?
  {
    var effects := Controlled(events);
    var k := ControlledShape(events);
    assert i == k;
    assert effects[k + 1] == effects[k + 1..][0];
  }

  /** However the connection ends, a join is followed by one detach, the last effect and of the same member. */
  lemma EveryJoinIsLeft(events: seq<Event>, i: nat)
    requires i < |Controlled(events)| && Controlled(events)[i].Joined?
    ensures var effects := Controlled(events);
            && effects[|effects| - 1] == Left(effects[i].member)
            && (forall j :: 0 <= j < |effects| && effects[j].Left? ==> j == |effects| - 1)
            && (forall j :: 0 <= j < |effects| && effects[j].Forwarded? ==> effects[j].to == effects[i].member)
  {
    var effects := Controlled(events);
    var k := ControlledShape(events);
    assert i == k;
    var tail := effects[k + 1..];
    assert effects[|effects| - 1] == tail[|tail| - 1];
    forall j | k < j < |effects| ensures effects[j] == tail[j - (k + 1)] {}
  }

  /** A connection that never joined detaches nobody. */
  lemma NoJoinNoDetach(events: seq<Event>)
    requires forall i :: 0 <= i < |Controlled(events)| ==> !Controlled(events)[i].Joined?
    ensures forall i :: 0 <= i < |Controlled(events)| ==> Controlled(events)[i].Served?
  {
    var k := ControlledShape(events);
  }

  function Zip(sent: seq<Message>, joins: seq<Option<Membership>>): (events: seq<Event>)
    requires |joins| == |sent|
    ensures |events| == |sent|
  {
    seq(|sent|, i requires 0 <= i < |sent| => Event(sent[i], joins[i]))
  }

  function ForwardedAll(sent: seq<Message>, member: Membership): (effects: seq<Effect>)
    ensures |effects| == |sent|
  {
    seq(|sent|, i requires 0 <= i < |sent| => Forwarded(member, sent[i]))
  }

  /** A member that may write has all its input and resizes forwarded, in order, up to its first other message. */
  lemma {:induction false} WritersSendAll(
      sent: seq<Message>, joins: seq<Option<Membership>>, rest: seq<Event>, member: Membership)
    requires |joins| == |sent| && (forall m <- sent :: m.Input? || m.Resize?)
    requires rest == [] || !(rest[0].msg.Input? || rest[0].msg.Resize?)
    ensures Streaming(Zip(sent, joins) + rest, member, false) == ForwardedAll(sent, member) + [Left(member)]
  {
    if sent == [] {
      assert Zip(sent, joins) + rest == rest;
    } else {
      assert (Zip(sent, joins) + rest)[1..] == Zip(sent[1..], joins[1..]) + rest;
      WritersSendAll(sent[1..], joins[1..], rest, member);
      assert ForwardedAll(sent, member) == [Forwarded(member, sent[0])] + ForwardedAll(sent[1..], member);
    }
  }

  /** The messages a connection may send before it joins, by their tags. */
  predicate RequestTag(tag: int)
  {
    tag == 0x01 || 0x05 <= tag <= 0x0D
  }

  function ServedAll(sent: seq<Message>): (effects: seq<Effect>)
    ensures |effects| == |sent|
  {
    seq(|sent|, i requires 0 <= i < |sent| => Served(sent[i]))
  }

  /** Every request is served, in order, as long as no attach succeeds; and the connection goes on. */
  lemma {:induction false} RequestsAreServed(sent: seq<Message>, joins: seq<Option<Membership>>, rest: seq<Event>)
    requires |joins| == |sent| && forall m <- sent :: RequestTag(Tag(m))
    requires forall i :: 0 <= i < |sent| ==> !(Tag(sent[i]) == 0x01 && joins[i].Some?)
    ensures Controlled(Zip(sent, joins) + rest) == ServedAll(sent) + Controlled(rest)
  {
    if sent == [] {
      assert Zip(sent, joins) + rest == rest && ServedAll(sent) + Controlled(rest) == Controlled(rest);
    } else {
      var events := Zip(sent, joins) + rest;
      assert events[1..] == Zip(sent[1..], joins[1..]) + rest && events[0] == Event(sent[0], joins[0]);
      RequestsAreServed(sent[1..], joins[1..], rest);
      assert sent[0] in sent && ServedAll(sent) == [Served(sent[0])] + ServedAll(sent[1..]);
      assert ServedAll(sent) + Controlled(rest) == [Served(sent[0])] + (ServedAll(sent[1..]) + Controlled(rest));
    }
  }

  /** An attach that succeeds joins the session and client it was given, and streams from there as it asked to. */
  lemma AttachJoins(m: Message, member: Membership, rest: seq<Event>)
    requires Tag(m) == 0x01
    ensures m.Attach?
    ensures Controlled([Event(m, Some(member))] + rest)
         == [Joined(member, m.readOnly)] + Streaming(rest, member, m.readOnly)
  {
    assert ([Event(m, Some(member))] + rest)[1..] == rest;
  }

  /** Any other message ends the connection: before a join with nothing, after it with the detach. */
  lemma OthersEnd(e: Event, rest: seq<Event>, member: Membership, readOnly: bool)
    ensures !RequestTag(Tag(e.msg)) ==> Controlled([e] + rest) == []
    ensures Tag(e.msg) != 0x02 && Tag(e.msg) != 0x03 ==> Streaming([e] + rest, member, readOnly) == [Left(member)]
    ensures Controlled([]) == [] && Streaming([], member, readOnly) == [Left(member)]
  {
  }

  lemma StreamedByTag(m: Message)
    ensures m.Input? || m.Resize? <==> Tag(m) == 0x02 || Tag(m) == 0x03
  {
  }

  lemma ReadersSendNothing(events: seq<Event>, member: Membership)
    ensures Streaming(events, member, true) == [Left(member)]
  {
    StreamingShape(events, member, true);
  }

  /** The whole life of a connection: requests, a join, its stream, and what comes after is never looked at. */
  lemma ConnectionLife(asked: seq<Message>, answers: seq<Option<Membership>>, attach: Message, member: Membership,
                       sent: seq<Message>, joins: seq<Option<Membership>>, rest: seq<Event>)
    requires |answers| == |asked| && (forall m <- asked :: RequestTag(Tag(m)) && Tag(m) != 0x01)
    requires Tag(attach) == 0x01
    requires |joins| == |sent| && forall m <- sent :: Tag(m) == 0x02 || Tag(m) == 0x03
    requires rest == [] || (Tag(rest[0].msg) != 0x02 && Tag(rest[0].msg) != 0x03)
    ensures attach.Attach?
    ensures Controlled(Zip(asked, answers) + ([Event(attach, Some(member))] + (Zip(sent, joins) + rest)))
         == ServedAll(asked) + ([Joined(member, attach.readOnly)]
              + ((if attach.readOnly then [] else ForwardedAll(sent, member)) + [Left(member)]))
  {
    forall i | 0 <= i < |asked| ensures Tag(asked[i]) != 0x01 { assert asked[i] in asked; }
    forall m | m in sent ensures m.Input? || m.Resize? { StreamedByTag(m); }
    if rest != [] { StreamedByTag(rest[0].msg); }
    hide Controlled, Streaming, Tag;
    var tail := Zip(sent, joins) + rest;
    RequestsAreServed(asked, answers, [Event(attach, Some(member))] + tail);
    AttachJoins(attach, member, tail);
    if attach.readOnly {
      ReadersSendNothing(tail, member);
      assert [] + [Left(member)] == [Left(member)];
    } else {
      WritersSendAll(sent, joins, rest, member);
    }
  }

  // --- The message loop ------------------------------------------------------

  /** What is still to come of the connection. */
  function Remaining(attached: Option<Membership>, readOnly: bool, events: seq<Event>): seq<Effect>
  {
    if attached.Some? then Streaming(events, attached.value, readOnly) else Controlled(events)
  }

  lemma NextStreamed(e: Event, rest: seq<Event>, member: Membership, readOnly: bool)
    ensures Streaming([e] + rest, member, readOnly)
         == if !IsStreamed(e.msg) then [Left(member)]
            else if readOnly then Streaming(rest, member, readOnly)
            else [Forwarded(member, e.msg)] + Streaming(rest, member, readOnly)
  {
    assert ([e] + rest)[1..] == rest;
    assert [] + Streaming(rest, member, readOnly) == Streaming(rest, member, readOnly);
  }

  lemma NextControlled(e: Event, rest: seq<Event>)
    ensures Controlled([e] + rest)
         == if !IsRequest(e.msg) then []
            else if e.msg.Attach? && e.joined.Some? then
              [Joined(e.joined.value, e.msg.readOnly)] + Streaming(rest, e.joined.value, e.msg.readOnly)
            else [Served(e.msg)] + Controlled(rest)
  {
    assert ([e] + rest)[1..] == rest;
  }

  lemma Moved(effects: seq<Effect>, e: Effect, rest: seq<Effect>)
    ensures effects + ([e] + rest) == (effects + [e]) + rest
  {
  }

  method HandleConn(events: seq<Event>) returns (effects: seq<Effect>)
    ensures effects == Controlled(events)
  {
    effects := [];
    var attached: Option<Membership> := None;
    var readOnly := false;
    assert events[0..] == events;
    assert [] + Controlled(events) == Controlled(events);
    assert Controlled([]) == [] && forall member, ro :: Streaming([], member, ro) == [Left(member)];
    hide Controlled, Streaming;
    for i := 0 to |events|
      invariant effects + Remaining(attached, readOnly, events[i..]) == Controlled(events)
    {
      var m := events[i].msg;
      ghost var rest := events[i + 1..];
      assert events[i..] == [events[i]] + rest;
      NextControlled(events[i], rest);
      if attached.Some? {
        NextStreamed(events[i], rest, attached.value, readOnly);
      }
      if attached.Some? {
        if m.Input? || m.Resize? {
          if !readOnly {
            Moved(effects, Forwarded(attached.value, m), Streaming(rest, attached.value, readOnly));
            effects := effects + [Forwarded(attached.value, m)];
          }
        } else {
          effects := effects + [Left(attached.value)];
          return;
        }
      } else if m.Attach? {
        if events[i].joined.None? {
          Moved(effects, Served(m), Controlled(rest));
          effects := effects + [Served(m)];
          continue;
        }
        attached := events[i].joined;
        readOnly := m.readOnly;
        Moved(effects, Joined(attached.value, readOnly), Streaming(rest, attached.value, readOnly));
        effects := effects + [Joined(attached.value, readOnly)];
      } else if IsRequest(m) {
        Moved(effects, Served(m), Controlled(rest));
        effects := effects + [Served(m)];
      } else {
        assert effects + [] == effects;
        return;
      }
    }
    assert events[|events|..] == [];
    if attached.Some? {
      effects := effects + [Left(attached.value)];
    } else {
      assert effects + [] == effects;
    }
  }
}
