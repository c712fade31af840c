/** What the state connection achieves, on every run: which subscriptions open, what an end
    or an unsubscribe leaves, that every accepted frame is written in its turn, and that the
    writer, left to itself, empties the queue. */
module StateSocketOutcomes {
  import opened Common
  import opened StateSocket

  // ------------------------------------------------------------------- subscribing

  /** The highest id that the reader was asked to subscribe. */
  function HighestID(events: seq<Event>): nat {
    if events == [] then 0
    else
      var init, e := events[..|events| - 1], events[|events| - 1];
      if e.CheckSubscribe? && Run(Opened(), init).reader.Idle? && e.id > HighestID(init) then e.id
      else HighestID(init)
  }

  lemma ReaderKeepsLastID(s: State, e: Event)
    ensures ReaderMoves(s, e).lastID == if e.CheckSubscribe? && s.reader.Idle? && e.id > s.lastID then e.id
                                        else s.lastID
  {
    hide AllUnsubscribed;
  }

  lemma TopicKeepsLastID(s: State, e: Event)
    ensures TopicMoves(s, e).lastID == s.lastID
  {
    hide Recorded;
  }

  lemma WriterKeepsLastID(s: State, e: Event)
    ensures WriterMoves(s, e).lastID == s.lastID
  {
  }

  lemma StepKeepsLastID(s: State, e: Event)
    ensures Apply(s, e).lastID == if e.CheckSubscribe? && s.reader.Idle? && e.id > s.lastID then e.id else s.lastID
  {
    hide TopicMoves, WriterMoves, ReaderMoves;
    ReaderKeepsLastID(s, e);
    TopicKeepsLastID(s, e);
    WriterKeepsLastID(s, e);
  }

  lemma {:induction false} LastIDIsHighest(events: seq<Event>)
    ensures Run(Opened(), events).lastID == HighestID(events)
  {
    hide Apply;
    if events != [] {
      LastIDIsHighest(events[..|events| - 1]);
      StepKeepsLastID(Run(Opened(), events[..|events| - 1]), events[|events| - 1]);
    }
  }

  lemma RunTwo(events: seq<Event>, e: Event, f: Event)
    ensures Run(Opened(), events + [e] + [f]) == Apply(Apply(Run(Opened(), events), e), f)
  {
    RunAppend(events, e);
    RunAppend(events + [e], f);
  }

  /** A subscription opens a new, empty channel exactly when its id is higher than every id
      asked for before, fewer than 64 channels are open, the topic is accepted and the
      connection is live. Its id is used up in any case but the first; a refused id waits for
      its refusal to be queued. */
  lemma SubscribeOpensExactly(events: seq<Event>, id: nat, decoded: bool)
    requires Run(Opened(), events).reader.Idle?
    ensures var s := Run(Opened(), events);
      var t := Run(Opened(), events + [CheckSubscribe(id)] + [AddChannel(decoded)]);
      var allowed := id > HighestID(events) && |s.channels| < CHANNEL_LIMIT;
      && t.channels == (if allowed && decoded && !s.cancelled then s.channels + {id} else s.channels)
      && t.registry == (if allowed && decoded && !s.cancelled then s.registry[id := NewChannel()] else s.registry)
      && (allowed ==> id !in s.registry)
      && t.reader == (if allowed && decoded then Idle else Refusing(id))
      && t.lastID == (if id > HighestID(events) then id else HighestID(events))
      && t.queue == s.queue && t.written == s.written
  {
    hide *;
    LastIDIsHighest(events);
    NewerIsFresh(events, id);
    RunTwo(events, CheckSubscribe(id), AddChannel(decoded));
    SubscribeSteps(Run(Opened(), events), id, decoded);
  }

  lemma NewerIsFresh(events: seq<Event>, id: nat)
    ensures id > Run(Opened(), events).lastID ==> id !in Run(Opened(), events).registry
  {
    RunKeepsInv(events);
    hide Run, IdOK, GoodTrace;
  }

  lemma SubscribeSteps(s: State, id: nat, decoded: bool)
    requires s.reader.Idle?
    ensures var t := Apply(Apply(s, CheckSubscribe(id)), AddChannel(decoded));
      var allowed := id > s.lastID && |s.channels| < CHANNEL_LIMIT;
      && t.channels == (if allowed && decoded && !s.cancelled then s.channels + {id} else s.channels)
      && t.registry == (if allowed && decoded && !s.cancelled then s.registry[id := NewChannel()] else s.registry)
      && t.reader == (if allowed && decoded then Idle else Refusing(id))
      && t.lastID == (if id > s.lastID then id else s.lastID)
      && t.queue == s.queue && t.written == s.written
  {
    hide *;
    CheckStep(s, id);
    AddStep(Apply(s, CheckSubscribe(id)), decoded);
  }

  lemma CheckStep(s: State, id: nat)
    requires s.reader.Idle?
    ensures Apply(s, CheckSubscribe(id)) ==
      s.(lastID := if id > s.lastID then id else s.lastID,
         reader := if id > s.lastID && |s.channels| < CHANNEL_LIMIT then Adding(id) else Refusing(id))
  {
    hide TopicMoves, WriterMoves, AllUnsubscribed;
  }

  lemma AddStep(s: State, decoded: bool)
    ensures var t := Apply(s, AddChannel(decoded));
      var added := s.reader.Adding? && decoded && !s.cancelled;
      && t.channels == (if added then s.channels + {s.reader.id} else s.channels)
      && t.registry == (if added then s.registry[s.reader.id := NewChannel()] else s.registry)
      && t.reader == (if !s.reader.Adding? then s.reader else if decoded then Idle else Refusing(s.reader.id))
      && t.lastID == s.lastID && t.queue == s.queue && t.written == s.written
  {
    hide TopicMoves, WriterMoves, AllUnsubscribed;
  }

  /** A refusal is queued unless the connection is cancelled or the queue is full; either way
      the reader goes on. A pong or a close frame is queued under the same condition. */
  lemma PlainFrameQueuedExactly(s: State, e: Event)
    requires (e.QueueRefusal? && s.reader.Refusing?) || (e.QueuePlain? && (e.frame.Pong? || e.frame.CloseFrame?))
    ensures var t := Apply(s, e);
      var frame := if e.QueueRefusal? then Suberr(s.reader.id) else e.frame;
      && t.queue == (if !s.cancelled && HasRoom(s) then s.queue + [Whole(frame, None)] else s.queue)
      && (t.reader == if e.QueueRefusal? then Idle else s.reader)
      && (t.queue != s.queue ==> t.wake)
  {
    hide AllUnsubscribed;
  }

  /** An unsubscribe of an open channel takes effect at once and touches no other. */
  lemma UnsubscribeTakes(events: seq<Event>, id: nat)
    requires var s := Run(Opened(), events); s.reader.Idle? && id in s.channels
    ensures var s, t := Run(Opened(), events), Run(Opened(), events + [Unsubscribe(id)]);
      && t.channels == s.channels - {id} && t.registry.Keys == s.registry.Keys
      && id in t.registry && t.registry[id].unsubscribed && t.registry[id].pending.None?
      && (forall k :: k in s.registry && k != id ==> t.registry[k] == s.registry[k])
      && t.queue == s.queue && t.written == s.written
  {
    RunAppend(events, Unsubscribe(id));
    OpenChannel(events, id);
    hide Run;
  }

  /** An id in the table is a registered channel that is still subscribed. */
  lemma OpenChannel(events: seq<Event>, id: nat)
    requires id in Run(Opened(), events).channels
    ensures var s := Run(Opened(), events); id in s.registry && !s.registry[id].unsubscribed
  {
    RunKeepsInv(events);
    assert IdOK(Run(Opened(), events), id);
    hide Run, Entries, LastSnap, Terminated;
  }

  // ---------------------------------------------------------------- ending a channel

  /** When the topic of a served channel ends, its notice is queued behind everything of the
      channel if there is room: an end notice after a snapshot, an error notice before any.
      Without room the channel is unsubscribed instead. */
  lemma FinishTakes(events: seq<Event>, id: nat)
    requires var s := Run(Opened(), events); Serves(s, id) && s.registry[id].topic.Serving?
    ensures var s := Run(Opened(), events);
      var t := Run(Opened(), events + [MarkFinished(id)] + [QueueTerminal(id)] + [DropFinished(id)]);
      var notice := if s.registry[id].nextSeq > 0 then Subend(id) else Suberr(id);
      && id in t.registry && t.registry[id].topic.Ended? && t.registry[id].terminal
      && (if HasRoom(s) then
            && t.queue == s.queue + [Whole(notice, Some(id))] && t.wake && t.channels == s.channels
            && t.registry[id].pending == s.registry[id].pending && !t.registry[id].unsubscribed
          else t.queue == s.queue && t.channels == s.channels - {id} && t.registry[id].unsubscribed)
  {
    hide *;
    RunAppend(events, MarkFinished(id));
    RunAppend(events + [MarkFinished(id)], QueueTerminal(id));
    RunAppend(events + [MarkFinished(id)] + [QueueTerminal(id)], DropFinished(id));
    SnapshotsAreCounted(events, id);
    ServesMeans(Run(Opened(), events), id);
    FinishSteps(Run(Opened(), events), id);
  }

  lemma ServesMeans(s: State, id: nat)
    requires Serves(s, id)
    ensures id in s.registry
  {
  }

  lemma FinishSteps(s: State, id: nat)
    requires Serves(s, id) && s.registry[id].topic.Serving?
    ensures var t := Apply(Apply(Apply(s, MarkFinished(id)), QueueTerminal(id)), DropFinished(id));
      var notice := if s.registry[id].hasSnapshot then Subend(id) else Suberr(id);
      && id in t.registry && t.registry[id].topic.Ended? && t.registry[id].terminal
      && (if HasRoom(s) then
            && t.queue == s.queue + [Whole(notice, Some(id))] && t.wake && t.channels == s.channels
            && t.registry[id].pending == s.registry[id].pending && !t.registry[id].unsubscribed
          else t.queue == s.queue && t.channels == s.channels - {id} && t.registry[id].unsubscribed)
  {
    hide Snapshotted, WriterMoves, ReaderMoves;
    var c := s.registry[id];
    var c1 := c.(terminal := true, topic := Ending(c.hasSnapshot));
    var s1 := SetChannel(s, id, c1);
    assert Apply(s, MarkFinished(id)) == s1;
    var s2 := Apply(s1, QueueTerminal(id));
    if HasRoom(s) {
      assert s2 == Queued(SetChannel(s1, id, c1.(topic := Ended)),
                          Whole(if c.hasSnapshot then Subend(id) else Suberr(id), Some(id)));
    } else {
      assert s2 == SetChannel(s1, id, c1.(topic := Dropping));
    }
  }

  lemma SnapshotsAreCounted(events: seq<Event>, id: nat)
    ensures var s := Run(Opened(), events);
      id in s.registry ==> (s.registry[id].hasSnapshot <==> s.registry[id].nextSeq > 0)
  {
    RunKeepsInv(events);
    assert IdOK(Run(Opened(), events), id);
    hide Run, Entries, LastSnap, Terminated;
  }

  /** The topic of a subscribed channel has ended and its notice was queued. */
  predicate HasEnded(c: Channel) {
    !c.unsubscribed && c.terminal && c.topic.Ended?
  }

  /** On every run in which the queue has been emptied, the notice of every channel that has
      ended is on the wire and the channel has left the table. */
  lemma FinishedIsNoticed(events: seq<Event>, id: nat)
    requires var s := Run(Opened(), events);
      && id in s.registry && HasEnded(s.registry[id])
      && s.queue == [] && (s.writer.Ready? || s.writer.Asleep?)
    ensures var s := Run(Opened(), events);
      Terminated(s.written, id) && id !in s.channels
  {
    RunKeepsInv(events);
    var s := Run(Opened(), events);
    assert IdOK(s, id);
    assert SlotOf(s, id).lane == [];
    hide Run, LastSnap, Terminated;
  }

  // -------------------------------------------------- frames that belong to no channel

  /** The refusals, pongs and close frames that were accepted into the queue, in order. */
  function PlainQueued(events: seq<Event>): seq<Frame> {
    if events == [] then []
    else
      var init, e := events[..|events| - 1], events[|events| - 1];
      PlainQueued(init) + Joins(Run(Opened(), init), e)
  }

  function Joins(s: State, e: Event): seq<Frame> {
    if s.cancelled || !HasRoom(s) then []
    else if e.QueueRefusal? && s.reader.Refusing? then [Suberr(s.reader.id)]
    else if e.QueuePlain? && (e.frame.Pong? || e.frame.CloseFrame?) then [e.frame]
    else []
  }

  function PlainSent(w: seq<Sent>): seq<Frame> {
    if w == [] then []
    else PlainSent(w[..|w| - 1]) + if w[|w| - 1].owner.None? then [w[|w| - 1].frame] else []
  }

  function PlainOf(e: Outbound): seq<Frame> {
    if e.Whole? && e.owner.None? then [e.frame] else []
  }

  function PlainWaiting(q: seq<Outbound>): seq<Frame> {
    if q == [] then [] else PlainOf(q[0]) + PlainWaiting(q[1..])
  }

  function PlainHeld(w: Writer): seq<Frame> {
    match w
    case Popped(e) => PlainOf(e)
    case Writing(f, owner) => if owner.None? then [f] else []
    case _ => []
  }

  function PlainAccount(s: State): seq<Frame> {
    PlainSent(s.written) + (PlainHeld(s.writer) + PlainWaiting(s.queue))
  }

  lemma {:induction false} PlainWaitingAppend(q: seq<Outbound>, e: Outbound)
    ensures PlainWaiting(q + [e]) == PlainWaiting(q) + PlainOf(e)
  {
    if q == [] {
      assert q + [e] == [e] && [e][1..] == [];
    } else {
      assert (q + [e])[1..] == q[1..] + [e];
      PlainWaitingAppend(q[1..], e);
    }
  }

  lemma PlainSentAppend(w: seq<Sent>, x: Sent)
    ensures PlainSent(w + [x]) == PlainSent(w) + if x.owner.None? then [x.frame] else []
  {
    assert (w + [x])[..|w|] == w;
  }

  ghost predicate PlainOK(s: State, q: seq<Frame>) {
    && PlainSent(s.written) <= q
    && (!s.writer.Stopped? ==> PlainAccount(s) <= q)
    && (!s.writer.Stopped? && !s.cancelled ==> PlainAccount(s) == q)
  }

  lemma ReaderJoins(s: State, e: Event)
    requires !ByTopic(e) && !ByWriter(e)
    ensures var t := Apply(s, e);
      && t.written == s.written && t.writer == s.writer
      && (s.cancelled ==> t.cancelled)
      && (t.queue == s.queue || t.queue == [] || exists x :: t.queue == s.queue + [x])
      && (t.queue == s.queue || (s.cancelled && t.queue == []) || Joins(s, e) != [])
      && (Joins(s, e) != [] ==>
          !s.cancelled && t.queue == s.queue + [Whole(Joins(s, e)[0], None)] && |Joins(s, e)| == 1)
  {
    hide TopicMoves, WriterMoves, AllUnsubscribed;
  }

  lemma ReaderKeepsPlain(s: State, e: Event, q: seq<Frame>)
    requires PlainOK(s, q) && !ByTopic(e) && !ByWriter(e)
    ensures PlainOK(Apply(s, e), q + Joins(s, e))
  {
    ReaderJoins(s, e);
    hide Apply, PlainSent, PlainHeld, Joins;
    var t := Apply(s, e);
    var more := Joins(s, e);
    if more != [] {
      PlainWaitingAppend(s.queue, Whole(more[0], None));
      assert more == [more[0]];
      assert PlainAccount(t) == PlainAccount(s) + more;
    } else {
      assert q + more == q;
    }
  }

  lemma TopicQueuesOwned(s: State, e: Event)
    requires ByTopic(e)
    ensures var t := Apply(s, e);
      && t.written == s.written && t.writer == s.writer && t.cancelled == s.cancelled && Joins(s, e) == []
      && (t.queue == s.queue || exists x :: t.queue == s.queue + [x] && PlainOf(x) == [])
  {
    hide WriterMoves, ReaderMoves, Recorded;
  }

  lemma TopicKeepsPlain(s: State, e: Event, q: seq<Frame>)
    requires PlainOK(s, q) && ByTopic(e)
    ensures PlainOK(Apply(s, e), q + Joins(s, e))
  {
    TopicQueuesOwned(s, e);
    hide Apply, PlainSent, PlainHeld, Joins, PlainOf;
    var t := Apply(s, e);
    assert q + [] == q;
    if t.queue != s.queue {
      var x :| t.queue == s.queue + [x] && PlainOf(x) == [];
      PlainWaitingAppend(s.queue, x);
      assert PlainWaiting(s.queue) + [] == PlainWaiting(s.queue);
    }
  }

  /** Each writer step hands its frame on: the account is the same, until a write fails. */
  lemma WriterPassesPlain(s: State, e: Event)
    requires ByWriter(e)
    ensures var t := Apply(s, e);
      && t.cancelled == s.cancelled && Joins(s, e) == []
      && (s.writer.Stopped? ==> t.writer.Stopped?)
      && (!t.writer.Stopped? ==> PlainAccount(t) == PlainAccount(s))
      && (t.writer.Stopped? ==> t.written == s.written)
  {
    hide Apply, PlainSent, PlainWaiting, Joins;
    NoJoins(s, e);
    if e.Take? && s.writer.Popped? {
      TakenIsHeld(s, s.writer.entry);
      TakeIsTaken(s);
    } else if e.Write? && s.writer.Writing? && e.ok {
      WritePassesPlain(s);
    } else if e.Pop? && s.writer.Ready? && s.queue != [] {
      PopPassesPlain(s);
    } else {
      IdlePassesPlain(s, e);
    }
  }

  lemma NoJoins(s: State, e: Event)
    requires ByWriter(e)
    ensures Joins(s, e) == []
  {
  }

  lemma TakeIsTaken(s: State)
    requires s.writer.Popped?
    ensures Apply(s, Take) == Taken(s, s.writer.entry)
  {
    hide TopicMoves, ReaderMoves, Taken;
  }

  lemma WritePassesPlain(s: State)
    requires s.writer.Writing?
    ensures var t := Apply(s, Write(true));
      PlainAccount(t) == PlainAccount(s) && t.cancelled == s.cancelled && !t.writer.Stopped?
  {
    hide *;
    var x := Sent(s.writer.frame, s.writer.owner);
    var more := if x.owner.None? then [x.frame] else [];
    var rest := PlainWaiting(s.queue);
    WrittenIs(s);
    PlainSentAppend(s.written, x);
    AccountIs(s);
    AccountIs(Apply(s, Write(true)));
    assert PlainSent(s.written) + more + ([] + rest) == PlainSent(s.written) + (more + rest);
  }

  lemma WrittenIs(s: State)
    requires s.writer.Writing?
    ensures var t := Apply(s, Write(true));
      && t.written == s.written + [Sent(s.writer.frame, s.writer.owner)] && t.queue == s.queue
      && t.cancelled == s.cancelled && !t.writer.Stopped? && PlainHeld(t.writer) == []
    ensures PlainHeld(s.writer) == if s.writer.owner.None? then [s.writer.frame] else []
  {
    hide TopicMoves, ReaderMoves, Taken;
  }

  lemma AccountIs(s: State)
    ensures PlainAccount(s) == PlainSent(s.written) + (PlainHeld(s.writer) + PlainWaiting(s.queue))
  {
    hide PlainSent, PlainHeld, PlainWaiting;
  }

  lemma PopPassesPlain(s: State)
    requires s.writer.Ready? && s.queue != []
    ensures var t := Apply(s, Pop);
      PlainAccount(t) == PlainAccount(s) && t.cancelled == s.cancelled && !t.writer.Stopped?
  {
    hide TopicMoves, ReaderMoves, Taken, PlainSent;
    var t := Apply(s, Pop);
    assert t == s.(writer := Popped(s.queue[0]), queue := s.queue[1..]);
    assert [] + PlainWaiting(s.queue) == PlainWaiting(s.queue);
  }

  lemma IdlePassesPlain(s: State, e: Event)
    requires ByWriter(e)
    requires !(e.Take? && s.writer.Popped?) && !(e.Write? && s.writer.Writing? && e.ok)
    requires !(e.Pop? && s.writer.Ready? && s.queue != [])
    ensures var t := Apply(s, e);
      && t.written == s.written && t.queue == s.queue && t.cancelled == s.cancelled
      && (s.writer.Stopped? ==> t.writer.Stopped?)
      && (!t.writer.Stopped? ==> PlainHeld(t.writer) == PlainHeld(s.writer))
      && (!t.writer.Stopped? ==> PlainAccount(t) == PlainAccount(s))
  {
    hide TopicMoves, ReaderMoves, Taken, PlainSent, PlainWaiting;
  }

  lemma TakenIsHeld(s: State, e: Outbound)
    requires s.writer == Popped(e)
    ensures var t := Taken(s, e);
      && t.written == s.written && t.queue == s.queue && !t.writer.Stopped? && t.cancelled == s.cancelled
      && PlainHeld(t.writer) == PlainOf(e)
  {
  }

  lemma PlainPrefix(s: State, q: seq<Frame>)
    requires PlainAccount(s) <= q
    ensures PlainSent(s.written) <= q
  {
    hide PlainSent, PlainHeld, PlainWaiting;
  }

  lemma WriterKeepsPlain(s: State, e: Event, q: seq<Frame>)
    requires PlainOK(s, q) && ByWriter(e)
    ensures PlainOK(Apply(s, e), q + Joins(s, e))
  {
    WriterPassesPlain(s, e);
    hide Apply, PlainSent, PlainAccount, Joins;
    assert q + [] == q;
    if !Apply(s, e).writer.Stopped? {
      PlainPrefix(Apply(s, e), q);
    }
  }

  /** Refusals, pongs and close frames are written once each and in the order in which they
      were accepted: while the connection lives, those written, in the writer's hand and
      waiting are exactly those accepted; after it ended those written are a prefix. */
  lemma {:induction false} PlainFramesKeepOrder(events: seq<Event>)
    ensures PlainOK(Run(Opened(), events), PlainQueued(events))
  {
    hide Apply, PlainOK, Joins;
    if events == [] {
      NothingPlain();
    } else {
      var init, e := events[..|events| - 1], events[|events| - 1];
      PlainFramesKeepOrder(init);
      var s := Run(Opened(), init);
      if ByTopic(e) {
        TopicKeepsPlain(s, e, PlainQueued(init));
      } else if ByWriter(e) {
        WriterKeepsPlain(s, e, PlainQueued(init));
      } else {
        ReaderKeepsPlain(s, e, PlainQueued(init));
      }
    }
  }

  lemma NothingPlain()
    ensures PlainOK(Opened(), [])
  {
  }

  // --------------------------------------------------------------- the writer drains

  /** What the writer does by itself: it finishes what it has in hand or wakes up, and then
      takes n entries one after the other, every write succeeding. */
  function Flush(n: nat): seq<Event> {
    if n == 0 then [Take, Write(true), Remove, Rouse] else Flush(n - 1) + [Pop, Take, Write(true), Remove]
  }

  predicate AtRest(s: State) {
    s.writer.Ready? || (s.writer.Asleep? && s.queue == [])
  }

  function Four(s: State, a: Event, b: Event, c: Event, d: Event): State {
    Apply(Apply(Apply(Apply(s, a), b), c), d)
  }

  lemma {:induction false} RunJoins(s: State, events: seq<Event>, more: seq<Event>)
    ensures Run(s, events + more) == Run(Run(s, events), more)
  {
    hide Apply;
    if more == [] {
      assert events + more == events;
    } else {
      assert (events + more)[..|events + more| - 1] == events + more[..|more| - 1];
      RunJoins(s, events, more[..|more| - 1]);
    }
  }

  lemma RunFour(s: State, a: Event, b: Event, c: Event, d: Event)
    ensures Run(s, [a, b, c, d]) == Four(s, a, b, c, d)
  {
    hide Apply;
    assert [a][..0] == [] && Run(s, [a]) == Apply(s, a);
    assert [a, b][..1] == [a] && Run(s, [a, b]) == Apply(Run(s, [a]), b);
    assert [a, b, c][..2] == [a, b] && Run(s, [a, b, c]) == Apply(Run(s, [a, b]), c);
    assert [a, b, c, d][..3] == [a, b, c];
  }

  lemma WriteOut(s: State)
    requires s.writer.Writing?
    ensures var t := Apply(Apply(s, Write(true)), Remove); t.writer.Ready? && t.queue == s.queue
  {
    hide TopicMoves, ReaderMoves, Taken;
  }

  lemma RestIgnores(s: State)
    requires s.writer.Ready? || s.writer.Asleep?
    ensures Apply(s, Take) == s && Apply(s, Write(true)) == s && Apply(s, Remove) == s
    ensures s.writer.Ready? ==> Apply(s, Rouse) == s
    ensures s.writer.Asleep? ==> Apply(s, Pop) == s
    ensures s.writer.Asleep? && s.wake ==> Apply(s, Rouse).writer.Ready? && Apply(s, Rouse).queue == s.queue
    ensures s.writer.Asleep? && !s.wake ==> Apply(s, Rouse) == s
  {
    hide TopicMoves, ReaderMoves, Taken;
  }

  lemma TakeOut(s: State)
    requires s.writer.Popped?
    ensures var t := Apply(Apply(Apply(s, Take), Write(true)), Remove); t.writer.Ready? && t.queue == s.queue
  {
    var t := Apply(s, Take);
    TakenGoesOn(s, s.writer.entry);
    assert t == Taken(s, s.writer.entry) by { TakeIsTaken(s); }
    hide Apply, Taken;
    if t.writer.Writing? {
      WriteOut(t);
    } else {
      RestIgnores(t);
    }
  }

  lemma TakenGoesOn(s: State, e: Outbound)
    requires s.writer == Popped(e)
    ensures var t := Taken(s, e); (t.writer.Writing? || t.writer.Ready?) && t.queue == s.queue
  {
  }

  lemma PopOne(s: State)
    requires s.writer.Ready?
    ensures s.queue == [] ==> Apply(s, Pop).writer.Asleep? && Apply(s, Pop).queue == []
    ensures s.queue != [] ==> Apply(s, Pop).writer.Popped? && Apply(s, Pop).queue == s.queue[1..]
  {
    hide TopicMoves, ReaderMoves, Taken;
  }

  lemma OneCycle(s: State)
    requires AtRest(s)
    ensures var t := Four(s, Pop, Take, Write(true), Remove);
      AtRest(t) && t.queue == if s.queue == [] then [] else s.queue[1..]
  {
    hide Apply;
    var s1 := Apply(s, Pop);
    if s.writer.Asleep? {
      RestIgnores(s);
    } else {
      PopOne(s);
      if s.queue == [] {
        RestIgnores(s1);
      } else {
        TakeOut(s1);
      }
    }
  }

  lemma FirstCycle(s: State)
    requires !s.writer.Stopped? && (s.writer.Asleep? && s.queue != [] ==> s.wake)
    ensures var t := Four(s, Take, Write(true), Remove, Rouse); AtRest(t) && t.queue == s.queue
  {
    hide Apply;
    match s.writer
    case Popped(_) =>
      TakeOut(s);
      RestIgnores(Apply(Apply(Apply(s, Take), Write(true)), Remove));
    case Writing(_, _) =>
      TakeNeedsEntry(s);
      WriteOut(s);
      RestIgnores(Apply(Apply(s, Write(true)), Remove));
    case Wrote(_) =>
      TakeNeedsEntry(s);
      RemoveOne(s);
      RestIgnores(Apply(s, Remove));
    case _ => RestIgnores(s);
  }

  lemma TakeNeedsEntry(s: State)
    requires !s.writer.Popped?
    ensures Apply(s, Take) == s
    ensures !s.writer.Writing? ==> Apply(s, Write(true)) == s
  {
    hide TopicMoves, ReaderMoves, Taken;
  }

  lemma RemoveOne(s: State)
    requires s.writer.Wrote?
    ensures Apply(s, Remove).writer.Ready? && Apply(s, Remove).queue == s.queue
  {
    hide TopicMoves, ReaderMoves, Taken;
  }

  lemma {:induction false} FlushEmpties(s: State, n: nat)
    requires !s.writer.Stopped? && (s.writer.Asleep? && s.queue != [] ==> s.wake)
    ensures var t := Run(s, Flush(n)); AtRest(t) && t.queue == Without(s.queue, n)
  {
    hide *;
    FlushUnfolds(n);
    if n == 0 {
      RunFour(s, Take, Write(true), Remove, Rouse);
      FirstCycle(s);
      WithoutOne(s.queue, 0);
    } else {
      FlushEmpties(s, n - 1);
      RunJoins(s, Flush(n - 1), [Pop, Take, Write(true), Remove]);
      RunFour(Run(s, Flush(n - 1)), Pop, Take, Write(true), Remove);
      OneCycle(Run(s, Flush(n - 1)));
      WithoutOne(s.queue, n - 1);
    }
  }

  function Without<T>(q: seq<T>, n: nat): seq<T> {
    if n <= |q| then q[n..] else []
  }

  lemma WithoutOne<T>(q: seq<T>, n: nat)
    ensures Without(q, n + 1) == if Without(q, n) == [] then [] else Without(q, n)[1..]
    ensures Without(q, 0) == q && Without(q, |q|) == []
  {
  }

  lemma FlushUnfolds(n: nat)
    ensures Flush(n) ==
      if n == 0 then [Take, Write(true), Remove, Rouse] else Flush(n - 1) + [Pop, Take, Write(true), Remove]
  {
  }

  lemma {:induction false} FlushIsByWriter(n: nat)
    ensures forall k :: 0 <= k < |Flush(n)| ==> ByWriter(Flush(n)[k]) && (Flush(n)[k].Write? ==> Flush(n)[k].ok)
  {
    if n > 0 {
      FlushIsByWriter(n - 1);
    }
  }

  lemma WriterHandsNothingIn(events: seq<Event>, e: Event, id: nat)
    requires ByWriter(e)
    ensures HandedIn(events + [e], id) == HandedIn(events, id) && PlainQueued(events + [e]) == PlainQueued(events)
  {
    assert (events + [e])[..|events|] == events;
    hide Run, Takes;
    assert PlainQueued(events) + [] == PlainQueued(events);
  }

  /** A channel's flags that the writer never touches, and its place in the table. */
  predicate Stays(s: State, t: State, id: nat) {
    && (id in s.registry <==> id in t.registry)
    && (id in s.registry ==>
          && t.registry[id].unsubscribed == s.registry[id].unsubscribed
          && t.registry[id].terminal == s.registry[id].terminal && t.registry[id].topic == s.registry[id].topic)
    && (id in s.channels && id in s.registry && !s.registry[id].terminal ==> id in t.channels)
    && (id in t.channels ==> id in s.channels)
    && t.cancelled == s.cancelled
  }

  lemma WriterSpares(s: State, e: Event, id: nat)
    requires ByWriter(e) && (s.writer == Wrote(id) ==> id in s.registry && s.registry[id].terminal)
    ensures Stays(s, Apply(s, e), id)
  {
    hide TopicMoves, ReaderMoves, Taken;
    if e.Take? && s.writer.Popped? {
      TakenSpares(s, s.writer.entry, id);
    }
  }

  lemma TakenSpares(s: State, e: Outbound, id: nat)
    ensures Stays(s, Taken(s, e), id)
  {
  }

  lemma WroteIsTerminal(events: seq<Event>, id: nat)
    ensures var s := Run(Opened(), events); s.writer == Wrote(id) ==> id in s.registry && s.registry[id].terminal
  {
    RunKeepsInv(events);
    assert IdOK(Run(Opened(), events), id);
    hide Run, Entries, LastSnap, Terminated;
  }

  lemma {:induction false} WriterRunSpares(events: seq<Event>, more: seq<Event>, id: nat)
    requires forall k :: 0 <= k < |more| ==> ByWriter(more[k])
    ensures Stays(Run(Opened(), events), Run(Opened(), events + more), id)
    ensures HandedIn(events + more, id) == HandedIn(events, id) && PlainQueued(events + more) == PlainQueued(events)
  {
    hide Apply, HandedIn, PlainQueued, ByWriter, Run;
    if more == [] {
      assert events + more == events;
    } else {
      var init, e := more[..|more| - 1], more[|more| - 1];
      WriterRunSpares(events, init, id);
      assert events + more == events + init + [e];
      RunAppend(events + init, e);
      WroteIsTerminal(events + init, id);
      WriterSpares(Run(Opened(), events + init), e, id);
      WriterHandsNothingIn(events + init, e, id);
    }
  }

  /** What the writer reaches by itself from every reachable state in which it has not
      stopped: the queue is empty; the last payload written for every channel still in the
      table is the last one handed in; every channel that is not ending stays; every finished
      subscribed channel has its notice on the wire and has left; and while the connection is
      live every refusal, pong and close frame is on the wire, in order. */
  lemma WriterDrains(events: seq<Event>)
    requires !Run(Opened(), events).writer.Stopped?
    ensures var s := Run(Opened(), events);
      var t := Run(Opened(), events + Flush(|s.queue|));
      && t.queue == [] && (t.writer.Ready? || t.writer.Asleep?)
      && (forall id :: id in t.channels ==> LastSnap(t.written, id).data == HandedIn(events, id))
      && (forall id :: id in s.channels && id in s.registry && !s.registry[id].terminal ==> id in t.channels)
      && (forall id :: id in s.registry && HasEnded(s.registry[id]) ==>
            Terminated(t.written, id) && id !in t.channels)
      && (!s.cancelled ==> PlainSent(t.written) == PlainQueued(events))
  {
    hide *;
    var s := Run(Opened(), events);
    var more := Flush(|s.queue|);
    var t := Run(Opened(), events + more);
    WriterIsAwakened(events);
    RunJoins(Opened(), events, more);
    FlushEmpties(s, |s.queue|);
    WithoutOne(s.queue, 0);
    RestMeans(t);
    FlushIsByWriter(|s.queue|);
    forall id: nat | id in t.channels ensures LastSnap(t.written, id).data == HandedIn(events, id) {
      WriterRunSpares(events, more, id);
      LatestStateAgreement(events + more, id);
    }
    forall id: nat | id in s.channels && id in s.registry && !s.registry[id].terminal ensures id in t.channels {
      WriterRunSpares(events, more, id);
      StaysMeans(s, t, id);
    }
    forall id: nat | id in s.registry && HasEnded(s.registry[id])
      ensures Terminated(t.written, id) && id !in t.channels
    {
      WriterRunSpares(events, more, id);
      StaysMeans(s, t, id);
      EndedMeans(s.registry[id], t.registry[id]);
      FinishedIsNoticed(events + more, id);
    }
    WriterRunSpares(events, more, 0);
    StaysMeans(s, t, 0);
    PlainFramesKeepOrder(events + more);
    RestHoldsNothing(t, PlainQueued(events + more));
  }

  lemma EndedMeans(c: Channel, d: Channel)
    requires d.unsubscribed == c.unsubscribed && d.terminal == c.terminal && d.topic == c.topic
    ensures HasEnded(c) <==> HasEnded(d)
  {
  }

  lemma RestMeans(s: State)
    requires AtRest(s)
    ensures s.writer.Ready? || s.writer.Asleep?
  {
  }

  lemma StaysMeans(s: State, t: State, id: nat)
    requires Stays(s, t, id)
    ensures id in s.channels && id in s.registry && !s.registry[id].terminal ==> id in t.channels
    ensures id in s.registry ==>
      && id in t.registry && t.registry[id].unsubscribed == s.registry[id].unsubscribed
      && t.registry[id].terminal == s.registry[id].terminal && t.registry[id].topic == s.registry[id].topic
    ensures t.cancelled == s.cancelled
  {
  }

  lemma RestHoldsNothing(s: State, q: seq<Frame>)
    requires PlainOK(s, q) && s.queue == [] && (s.writer.Ready? || s.writer.Asleep?)
    ensures !s.cancelled ==> PlainSent(s.written) == q
  {
    hide PlainSent;
    assert PlainSent(s.written) + ([] + []) == PlainSent(s.written);
  }

  // --------------------------------------------------------------------- shutting down

  /** The connection was cancelled and cleared. */
  predicate ShutDown(s: State) {
    s.cancelled && s.channels == {} && s.queue == []
  }

  function Held(w: Writer): nat {
    if w.Popped? || w.Writing? then 1 else 0
  }

  /** Shutting down unsubscribes every channel whose notice is not on the wire yet. */
  lemma ShutdownTakes(events: seq<Event>, id: nat)
    ensures var s, t := Run(Opened(), events), Run(Opened(), events + [Cancel] + [Clear]);
      && ShutDown(t) && t.written == s.written && t.writer == s.writer
      && (id in t.registry ==> t.registry[id].unsubscribed || Terminated(t.written, id))
  {
    RunTwo(events, Cancel, Clear);
    RunKeepsInv(events + [Cancel] + [Clear]);
    assert IdOK(Run(Opened(), events + [Cancel] + [Clear]), id);
    hide Run, Entries, LastSnap, Terminated;
  }

  lemma ReaderStaysShut(s: State, e: Event)
    requires ShutDown(s) && !ByTopic(e) && !ByWriter(e)
    ensures var t := Apply(s, e); ShutDown(t) && t.written == s.written && t.writer == s.writer
  {
    hide TopicMoves, WriterMoves, AllUnsubscribed;
  }

  lemma TopicStaysShut(s: State, e: Event)
    requires ShutDown(s) && ByTopic(e)
    ensures var t := Apply(s, e); ShutDown(t) && t.written == s.written && t.writer == s.writer
  {
    hide ReaderMoves, WriterMoves, Recorded;
  }

  lemma WriterStaysShut(s: State, e: Event)
    requires ShutDown(s) && ByWriter(e)
    ensures var t := Apply(s, e); ShutDown(t) && |t.written| + Held(t.writer) <= |s.written| + Held(s.writer)
  {
    hide ReaderMoves, TopicMoves;
  }

  /** After a shutdown nothing is queued or opened any more, and at most the one frame that
      the writer has in hand is still written. */
  lemma {:induction false} ShutdownIsFinal(s: State, events: seq<Event>)
    requires ShutDown(s)
    ensures var t := Run(s, events);
      && ShutDown(t) && |t.written| + Held(t.writer) <= |s.written| + Held(s.writer)
      && |t.written| <= |s.written| + 1
  {
    hide Apply, ByTopic, ByWriter;
    if events != [] {
      var init, e := events[..|events| - 1], events[|events| - 1];
      ShutdownIsFinal(s, init);
      if ByTopic(e) {
        TopicStaysShut(Run(s, init), e);
      } else if ByWriter(e) {
        WriterStaysShut(Run(s, init), e);
      } else {
        ReaderStaysShut(Run(s, init), e);
      }
    }
  }

  /** After a shutdown the writer ends, whatever it was doing. */
  lemma WriterEnds(s: State)
    requires ShutDown(s) && !s.writer.Stopped?
    ensures Run(s, Flush(0) + [Pop] + [SeeCancelled]).writer.Stopped?
  {
    hide *;
    ShutMeans(s);
    FlushEmpties(s, 0);
    WithoutOne(s.queue, 0);
    ShutdownIsFinal(s, Flush(0));
    var t := Run(s, Flush(0));
    RunJoins(s, Flush(0), [Pop]);
    RunJoins(s, Flush(0) + [Pop], [SeeCancelled]);
    PopThenStop(t);
  }

  lemma ShutMeans(s: State)
    requires ShutDown(s)
    ensures s.queue == [] && s.cancelled
  {
  }

  lemma PopThenStop(s: State)
    requires ShutDown(s) && AtRest(s)
    ensures Run(Run(s, [Pop]), [SeeCancelled]).writer.Stopped?
  {
    hide TopicMoves, ReaderMoves, Taken;
    assert [Pop][..0] == [] && [SeeCancelled][..0] == [];
  }

  lemma ReaderLeavesWriter(s: State, e: Event)
    ensures ReaderMoves(s, e).writer == s.writer && ReaderMoves(s, e).written == s.written
  {
    hide AllUnsubscribed;
  }

  lemma TopicLeavesWriter(s: State, e: Event)
    ensures TopicMoves(s, e).writer == s.writer && TopicMoves(s, e).written == s.written
  {
    hide Recorded;
  }

  lemma StoppedWriter(s: State, e: Event)
    requires s.writer.Stopped?
    ensures WriterMoves(s, e) == s
  {
    hide Taken;
  }

  lemma StoppedStep(s: State, e: Event)
    requires s.writer.Stopped?
    ensures Apply(s, e).writer.Stopped? && Apply(s, e).written == s.written
  {
    hide ReaderMoves, TopicMoves, WriterMoves;
    ReaderLeavesWriter(s, e);
    TopicLeavesWriter(s, e);
    StoppedWriter(s, e);
  }

  /** A failed write or ping ends the writer, and nothing is written any more. */
  lemma {:induction false} FailureStopsWriter(s: State, e: Event, events: seq<Event>)
    requires (e == Write(false) && s.writer.Writing?) || (e == Ping(false) && s.writer.Asleep?)
    ensures var t := Run(Apply(s, e), events); t.writer.Stopped? && t.written == s.written
  {
    FailureStops(s, e);
    hide Apply;
    if events != [] {
      FailureStopsWriter(s, e, events[..|events| - 1]);
      StoppedStep(Run(Apply(s, e), events[..|events| - 1]), events[|events| - 1]);
    }
  }

  lemma FailureStops(s: State, e: Event)
    requires (e == Write(false) && s.writer.Writing?) || (e == Ping(false) && s.writer.Asleep?)
    ensures Apply(s, e).writer.Stopped? && Apply(s, e).written == s.written
  {
    hide ReaderMoves, TopicMoves, Taken;
  }
}
