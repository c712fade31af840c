/** The state WebSocket: many topic goroutines, one reader and one writer share a
    bounded frame queue. Every step below is one critical section, or one action
    taken outside the lock, so runs cover every interleaving. */
module StateSocket {
  import opened Common

  const CHANNEL_LIMIT := 64
  const MAX_QUEUED_FRAMES := 512

  datatype Frame =
    | Snap(id: nat, number: nat, data: string)
    | Suberr(id: nat)
    | Subend(id: nat)
    | Pong
    | CloseFrame

  datatype Snapshot = Snapshot(number: nat, data: string)

  /** A queue entry: a reference to a channel whose pending snapshot is taken late, or
      a complete frame. Only a channel's terminal frame has an owner. */
  datatype Outbound = SnapshotOf(id: nat) | Whole(frame: Frame, owner: Option<nat>)

  /** Where the goroutine that serves a channel stands. */
  datatype Topic = Serving | Ending(hadSnapshot: bool) | Dropping | Ended

  datatype Channel = Channel(
    pending: Option<Snapshot>, queued: bool, lastPayload: string, nextSeq: nat,
    forceNext: bool, hasSnapshot: bool, terminal: bool, unsubscribed: bool, topic: Topic)

  datatype Writer =
    | Ready                                      // about to look at the queue
    | Popped(entry: Outbound)                    // entry taken, not yet examined
    | Writing(frame: Frame, owner: Option<nat>)  // frame in hand, no lock held
    | Wrote(id: nat)                             // terminal frame sent, channel not yet removed
    | Asleep                                     // parked in the select
    | Stopped                                    // write error or cancelled

  datatype Reader = Idle | Adding(id: nat) | Refusing(id: nat)

  /** A frame on the wire, with the channel it was written for. */
  datatype Sent = Sent(frame: Frame, owner: Option<nat>)

  datatype State = State(
    registry: map<nat, Channel>,  // every channel ever opened, by id
    channels: set<nat>,           // ids in the connection's channel table
    lastID: nat, queue: seq<Outbound>, wake: bool, cancelled: bool,
    reader: Reader, writer: Writer,
    written: seq<Sent>,           // the wire so far
    accepted: map<nat, string>)   // last payload each channel's topic handed in

  datatype Event =
    | CheckSubscribe(id: nat)
    | AddChannel(decoded: bool)
    | QueueRefusal
    | Unsubscribe(id: nat)
    | Resnap(id: nat)
    | QueueSnapshot(id: nat, payload: string)
    | MarkFinished(id: nat)
    | QueueTerminal(id: nat)
    | DropFinished(id: nat)
    | QueuePlain(frame: Frame)
    | Cancel
    | Clear
    | Pop
    | Take
    | Write(ok: bool)
    | Remove
    | Rouse
    | Ping(ok: bool)
    | SeeCancelled

  function Opened(): State {
    State(map[], {}, 0, [], false, false, Idle, Ready, [], map[])
  }

  // ----------------------------------------------------------------------- steps

  function NewChannel(): Channel {
    Channel(None, false, "", 0, false, false, false, false, Serving)
  }

  function SetChannel(s: State, id: nat, c: Channel): State {
    s.(registry := s.registry[id := c])
  }

  /** queueFrame: refused when the connection is cancelled or the queue is full. */
  predicate CanQueue(s: State) {
    !s.cancelled && |s.queue| < MAX_QUEUED_FRAMES
  }

  function Queued(s: State, e: Outbound): State {
    s.(queue := s.queue + [e], wake := true)
  }

  function Unsubscribed(s: State, id: nat): State {
    if id in s.channels && id in s.registry && !s.registry[id].unsubscribed then
      SetChannel(s, id, s.registry[id].(unsubscribed := true, pending := None)).(channels := s.channels - {id})
    else s
  }

  function AllUnsubscribed(registry: map<nat, Channel>, channels: set<nat>): map<nat, Channel> {
    map id | id in registry ::
      if id in channels then registry[id].(unsubscribed := true, pending := None) else registry[id]
  }

  datatype Verdict = Accepted | Refused | Full

  function SnapshotVerdict(s: State, id: nat): Verdict
    requires id in s.registry
  {
    var c := s.registry[id];
    if s.cancelled || c.unsubscribed || c.terminal || id !in s.channels then Refused
    else Accepted
  }

  /** The channel after it accepted a payload that must be sent. */
  function Recorded(c: Channel, payload: string): Channel {
    c.(forceNext := false, lastPayload := payload, nextSeq := c.nextSeq + 1, hasSnapshot := true,
       pending := Some(Snapshot(c.nextSeq + 1, payload)), queued := true)
  }

  function Accept(s: State, id: nat, c: Channel, payload: string): State {
    s.(registry := s.registry[id := c], accepted := s.accepted[id := payload])
  }

  function Snapshotted(s: State, id: nat, payload: string): (State, Verdict)
    requires id in s.registry
  {
    var c := s.registry[id];
    if SnapshotVerdict(s, id) == Refused then (s, Refused)
    else if !c.forceNext && c.lastPayload == payload then
      (Accept(s, id, c, payload), Accepted)
    else if !c.queued && |s.queue| >= MAX_QUEUED_FRAMES then (s, Full)
    else
      var t := Accept(s, id, Recorded(c, payload), payload);
      (if c.queued then t else Queued(t, SnapshotOf(id)), Accepted)
  }

  /** The writer examines the entry it popped: a snapshot entry yields whatever is
      pending by now, a terminal frame is skipped once its channel is unsubscribed. */
  function Taken(s: State, e: Outbound): State {
    match e
    case SnapshotOf(id) =>
      if id !in s.registry then s.(writer := Ready)
      else
        var c := s.registry[id].(queued := false);
        if !c.unsubscribed && id in s.channels && c.pending.Some? then
          SetChannel(s, id, c.(pending := None))
            .(writer := Writing(Snap(id, c.pending.value.number, c.pending.value.data), Some(id)))
        else SetChannel(s, id, c).(writer := Ready)
    case Whole(f, None) => s.(writer := Writing(f, None))
    case Whole(f, Some(id)) =>
      if id in s.registry && s.registry[id].unsubscribed then s.(writer := Ready)
      else s.(writer := Writing(f, Some(id)))
  }

  /** The reader goroutine and whoever cancels the connection. */
  function ReaderMoves(s: State, e: Event): State {
    match e
    case CheckSubscribe(id) =>
      if !s.reader.Idle? then s
      else if id <= s.lastID then s.(reader := Refusing(id))
      else if |s.channels| >= CHANNEL_LIMIT then s.(lastID := id, reader := Refusing(id))
      else s.(lastID := id, reader := Adding(id))
    case AddChannel(decoded) =>
      if !s.reader.Adding? then s
      else if !decoded then s.(reader := Refusing(s.reader.id))
      else if s.cancelled then s.(reader := Idle)
      else SetChannel(s, s.reader.id, NewChannel()).(channels := s.channels + {s.reader.id}, reader := Idle)
    case QueueRefusal =>
      if !s.reader.Refusing? then s
      else (if CanQueue(s) then Queued(s, Whole(Suberr(s.reader.id), None)) else s).(reader := Idle)
    case Unsubscribe(id) => if s.reader.Idle? then Unsubscribed(s, id) else s
    case Resnap(id) =>
      if !s.reader.Idle? || id !in s.channels || id !in s.registry then s
      else if s.registry[id].unsubscribed || s.registry[id].terminal then s
      else SetChannel(s, id, s.registry[id].(forceNext := true))
    case QueuePlain(frame) =>
      if (frame.Pong? || frame.CloseFrame?) && CanQueue(s) then Queued(s, Whole(frame, None)) else s
    case Cancel => s.(cancelled := true)
    case Clear =>
      if !s.cancelled then s
      else s.(registry := AllUnsubscribed(s.registry, s.channels), channels := {}, queue := [])
    case _ => s
  }

  /** The goroutine that serves one channel. */
  function TopicMoves(s: State, e: Event): State {
    match e
    case QueueSnapshot(id, payload) => if id in s.registry then Snapshotted(s, id, payload).0 else s
    case MarkFinished(id) =>
      if id !in s.registry || !s.registry[id].topic.Serving? then s
      else
        var c := s.registry[id];
        if c.unsubscribed || s.cancelled || id !in s.channels then SetChannel(s, id, c.(topic := Ended))
        else SetChannel(s, id, c.(terminal := true, topic := Ending(c.hasSnapshot)))
    case QueueTerminal(id) =>
      if id !in s.registry || !s.registry[id].topic.Ending? then s
      else
        var c := s.registry[id];
        var frame := if c.topic.hadSnapshot then Subend(id) else Suberr(id);
        if CanQueue(s) then Queued(SetChannel(s, id, c.(topic := Ended)), Whole(frame, Some(id)))
        else SetChannel(s, id, c.(topic := Dropping))
    case DropFinished(id) =>
      if id !in s.registry || !s.registry[id].topic.Dropping? then s
      else Unsubscribed(SetChannel(s, id, s.registry[id].(topic := Ended)), id)
    case _ => s
  }

  /** The writer goroutine. */
  function WriterMoves(s: State, e: Event): State {
    match e
    case Pop =>
      if !s.writer.Ready? then s
      else if s.queue == [] then s.(writer := Asleep)
      else s.(writer := Popped(s.queue[0]), queue := s.queue[1..])
    case Take => if s.writer.Popped? then Taken(s, s.writer.entry) else s
    case Write(ok) =>
      if !s.writer.Writing? then s
      else if !ok then s.(writer := Stopped)
      else
        var f, owner := s.writer.frame, s.writer.owner;
        s.(written := s.written + [Sent(f, owner)],
           writer := if owner.Some? && !f.Snap? then Wrote(owner.value) else Ready)
    case Remove =>
      if s.writer.Wrote? then s.(channels := s.channels - {s.writer.id}, writer := Ready) else s
    case Rouse => if s.writer.Asleep? && s.wake then s.(wake := false, writer := Ready) else s
    case Ping(ok) => if s.writer.Asleep? then s.(writer := if ok then Ready else Stopped) else s
    case SeeCancelled => if s.writer.Asleep? && s.cancelled then s.(writer := Stopped) else s
    case _ => s
  }

  predicate ByTopic(e: Event) {
    e.QueueSnapshot? || e.MarkFinished? || e.QueueTerminal? || e.DropFinished?
  }

  predicate ByWriter(e: Event) {
    e.Pop? || e.Take? || e.Write? || e.Remove? || e.Rouse? || e.Ping? || e.SeeCancelled?
  }

  function Apply(s: State, e: Event): State {
    if ByTopic(e) then TopicMoves(s, e)
    else if ByWriter(e) then WriterMoves(s, e)
    else ReaderMoves(s, e)
  }

  function Run(s: State, events: seq<Event>): State {
    if events == [] then s
    else Apply(Run(s, events[..|events| - 1]), events[|events| - 1])
  }

  // -------------------------------------------------------------------- the wire

  /** The sequence number and data of the last snapshot written for a channel. */
  function LastSnap(w: seq<Sent>, id: nat): Snapshot {
    if w == [] then Snapshot(0, "")
    else
      var f := w[|w| - 1].frame;
      if f.Snap? && f.id == id then Snapshot(f.number, f.data) else LastSnap(w[..|w| - 1], id)
  }

  predicate IsTerminal(x: Sent, id: nat) {
    x.owner == Some(id) && !x.frame.Snap?
  }

  predicate Terminated(w: seq<Sent>, id: nat) {
    exists i :: 0 <= i < |w| && IsTerminal(w[i], id)
  }

  /** May `x` follow the trace `w`? Sequence numbers increase, nothing of a channel
      follows its terminal frame, an end notice needs an earlier snapshot and an error
      notice its absence. */
  predicate GoodNext(w: seq<Sent>, x: Sent) {
    && (x.frame.Snap? ==> x.owner == Some(x.frame.id) && x.frame.number > LastSnap(w, x.frame.id).number)
    && (x.frame.Subend? ==> x.owner == Some(x.frame.id))
    && (x.owner.Some? ==>
          && !Terminated(w, x.owner.value)
          && (x.frame.Subend? ==> LastSnap(w, x.owner.value).number > 0)
          && (x.frame.Suberr? ==> LastSnap(w, x.owner.value).number == 0))
  }

  predicate GoodTrace(w: seq<Sent>) {
    forall i :: 0 <= i < |w| ==> GoodNext(w[..i], w[i])
  }

  lemma LastSnapAppend(w: seq<Sent>, x: Sent, id: nat)
    ensures LastSnap(w + [x], id) ==
      if x.frame.Snap? && x.frame.id == id then Snapshot(x.frame.number, x.frame.data) else LastSnap(w, id)
  {
    assert (w + [x])[..|w|] == w;
  }

  lemma TerminatedAppend(w: seq<Sent>, x: Sent, id: nat)
    ensures Terminated(w + [x], id) <==> Terminated(w, id) || IsTerminal(x, id)
  {
    var v := w + [x];
    if Terminated(w, id) {
      var i :| 0 <= i < |w| && IsTerminal(w[i], id);
      assert IsTerminal(v[i], id);
    }
    if IsTerminal(x, id) {
      assert IsTerminal(v[|w|], id);
    }
    if Terminated(v, id) {
      var i :| 0 <= i < |v| && IsTerminal(v[i], id);
      if i < |w| {
        assert IsTerminal(w[i], id);
      }
    }
  }

  lemma GoodTraceAppend(w: seq<Sent>, x: Sent)
    requires GoodTrace(w) && GoodNext(w, x)
    ensures GoodTrace(w + [x])
  {
    var v := w + [x];
    forall i | 0 <= i < |v| ensures GoodNext(v[..i], v[i]) {
      assert i < |w| ==> v[..i] == w[..i] && v[i] == w[i];
      assert i == |w| ==> v[..i] == w;
    }
  }

  // ------------------------------------------------------- one channel's invariant

  predicate Mine(e: Outbound, id: nat) {
    e == SnapshotOf(id) || (e.Whole? && e.owner == Some(id))
  }

  /** The queue entries of one channel, in queue order. */
  function Entries(q: seq<Outbound>, id: nat): seq<Outbound> {
    if q == [] then [] else (if Mine(q[0], id) then [q[0]] else []) + Entries(q[1..], id)
  }

  lemma {:induction false} EntriesAppend(q: seq<Outbound>, e: Outbound, id: nat)
    ensures Entries(q + [e], id) == Entries(q, id) + if Mine(e, id) then [e] else []
  {
    if q != [] {
      assert (q + [e])[1..] == q[1..] + [e];
      EntriesAppend(q[1..], e, id);
    } else {
      assert q + [e] == [e] && [e][1..] == [];
    }
  }

  /** Everything the invariant of one channel depends on. */
  datatype Slot = Slot(
    c: Channel, live: bool,
    lane: seq<Outbound>,      // the channel's entries: popped but unexamined, then queued
    hand: Option<Frame>,      // the channel's frame being written
    wrote: bool, last: Snapshot, closed: bool, cancelled: bool, stopped: bool, accepted: string)

  function Hand(s: State, id: nat): seq<Outbound> {
    if s.writer.Popped? && Mine(s.writer.entry, id) then [s.writer.entry] else []
  }

  function AcceptedBy(s: State, id: nat): string {
    if id in s.accepted then s.accepted[id] else ""
  }

  function SlotOf(s: State, id: nat): Slot {
    Slot(
      if id in s.registry then s.registry[id] else NewChannel(),
      id in s.channels,
      Hand(s, id) + Entries(s.queue, id),
      if s.writer.Writing? && s.writer.owner == Some(id) then Some(s.writer.frame) else None,
      s.writer == Wrote(id),
      LastSnap(s.written, id), Terminated(s.written, id), s.cancelled, s.writer.Stopped?, AcceptedBy(s, id))
  }

  predicate EndNotice(e: Outbound, id: nat, c: Channel) {
    && e.Whole? && e.owner == Some(id)
    && e.frame == (if c.hasSnapshot then Subend(id) else Suberr(id))
  }

  predicate SlotOK(v: Slot, id: nat) {
    var c := v.c;
    var waiting := SnapshotOf(id) in v.lane;
    var ended := |v.lane| > 0 && v.lane[|v.lane| - 1].Whole?;
    var ending := v.hand.Some? && !v.hand.value.Snap?;
    // at most one snapshot entry, then at most one end notice
    && |v.lane| <= 2
    && (|v.lane| == 2 ==> v.lane[0] == SnapshotOf(id) && ended)
    && (|v.lane| == 1 ==> v.lane[0] == SnapshotOf(id) || ended)
    && (ended ==> EndNotice(v.lane[|v.lane| - 1], id, c))
    // queued tells whether that snapshot entry exists, pending is never orphaned
    && (waiting ==> c.queued)
    && (c.queued && (!v.cancelled || !c.unsubscribed) ==> waiting)
    && (c.pending.Some? ==> c.queued && c.pending.value == Snapshot(c.nextSeq, c.lastPayload))
    // membership in the channel table
    && (c.unsubscribed ==> c.pending.None? && !v.live)
    && (!c.unsubscribed && !v.live ==> v.closed)
    && (v.wrote ==> v.closed)
    // sequence numbers
    && (c.hasSnapshot <==> c.nextSeq > 0)
    && v.last.number <= c.nextSeq
    && (c.pending.Some? ==> c.hasSnapshot && v.last.number < c.nextSeq)
    && (v.hand.Some? && v.hand.value.Snap? ==>
          && v.hand.value.id == id && v.last.number < v.hand.value.number <= c.nextSeq
          && (c.pending.Some? ==> v.hand.value.number < c.nextSeq))
    // the terminal phase
    && (c.topic.Serving? ==> !c.terminal)
    && (c.topic.Ending? ==> c.terminal && c.topic.hadSnapshot == c.hasSnapshot)
    && (ended || ending || v.closed ==> c.terminal && c.topic.Ended?)
    && (ending || v.closed ==> v.lane == [] && c.pending.None? && (!c.unsubscribed ==> !c.queued))
    && (v.closed ==> v.hand.None?)
    && (ended ==> !ending)
    && (ending ==> v.hand.value == Subend(id) || v.hand.value == Suberr(id))
    && (ending && v.hand.value.Subend? ==> v.last.number > 0)
    && (ending && v.hand.value.Suberr? ==> v.last.number == 0)
    // a finished channel's notice is queued, in the writer's hand or on the wire
    && (c.topic.Ended? && c.terminal && !c.unsubscribed && !v.stopped ==> ended || ending || v.closed)
    && (v.closed ==> v.wrote || !v.live)
    // the newest accepted payload is pending, in the writer's hand or on the wire
    && c.lastPayload == v.accepted
    && (!c.hasSnapshot ==> c.lastPayload == "" && v.last == Snapshot(0, "") && !(v.hand.Some? && v.hand.value.Snap?))
    && (c.hasSnapshot && !c.unsubscribed && !v.stopped && c.pending.None? ==>
          if v.hand.Some? && v.hand.value.Snap? then v.hand.value == Snap(id, c.nextSeq, c.lastPayload)
          else v.last == Snapshot(c.nextSeq, c.lastPayload))
  }

  /** An id that was never opened has left no mark anywhere. */
  predicate Untouched(v: Slot) {
    v == Slot(NewChannel(), false, [], None, false, Snapshot(0, ""), false, v.cancelled, v.stopped, "")
  }

  // ------------------------------------- how one channel's slot moves, step by step

  function UnsubscribeSlot(v: Slot): Slot {
    if v.live && !v.c.unsubscribed then v.(c := v.c.(unsubscribed := true, pending := None), live := false) else v
  }

  function SnapshotSlot(v: Slot, id: nat, payload: string, full: bool): Slot {
    if v.cancelled || v.c.unsubscribed || v.c.terminal || !v.live then v
    else if !v.c.forceNext && v.c.lastPayload == payload then v.(accepted := payload)
    else if !v.c.queued && full then v
    else
      v.(c := Recorded(v.c, payload), accepted := payload,
         lane := if v.c.queued then v.lane else v.lane + [SnapshotOf(id)])
  }

  function MarkSlot(v: Slot): Slot {
    if !v.c.topic.Serving? then v
    else if v.c.unsubscribed || v.cancelled || !v.live then v.(c := v.c.(topic := Ended))
    else v.(c := v.c.(terminal := true, topic := Ending(v.c.hasSnapshot)))
  }

  function TerminalSlot(v: Slot, id: nat, canQueue: bool): Slot {
    if !v.c.topic.Ending? then v
    else if canQueue then
      v.(c := v.c.(topic := Ended),
         lane := v.lane + [Whole(if v.c.topic.hadSnapshot then Subend(id) else Suberr(id), Some(id))])
    else v.(c := v.c.(topic := Dropping))
  }

  function ClearSlot(v: Slot, popped: seq<Outbound>): Slot {
    (if v.live then v.(c := v.c.(unsubscribed := true, pending := None)) else v).(live := false, lane := popped)
  }

  function TakeSlot(v: Slot, id: nat): Slot
    requires v.lane != []
  {
    if v.lane[0].SnapshotOf? then
      var c := v.c.(queued := false);
      if !c.unsubscribed && v.live && c.pending.Some? then
        v.(c := c.(pending := None), lane := v.lane[1..],
           hand := Some(Snap(id, c.pending.value.number, c.pending.value.data)))
      else v.(c := c, lane := v.lane[1..])
    else if v.c.unsubscribed then v.(lane := v.lane[1..])
    else v.(lane := v.lane[1..], hand := Some(v.lane[0].frame))
  }

  function WriteSlot(v: Slot): Slot
    requires v.hand.Some?
  {
    var f := v.hand.value;
    if f.Snap? then v.(hand := None, last := Snapshot(f.number, f.data))
    else v.(hand := None, closed := true, wrote := true)
  }

  lemma UnsubscribeSlotOK(v: Slot, id: nat)
    requires SlotOK(v, id)
    ensures SlotOK(UnsubscribeSlot(v), id)
  {
  }

  lemma SnapshotSlotOK(v: Slot, id: nat, payload: string, full: bool)
    requires SlotOK(v, id)
    ensures SlotOK(SnapshotSlot(v, id, payload, full), id)
  {
    var w := SnapshotSlot(v, id, payload, full);
    if w.c.nextSeq > v.c.nextSeq {
      assert !v.closed && v.live;
      if !v.c.queued {
        assert v.lane == [];
        assert w.lane == [SnapshotOf(id)];
      }
    }
  }

  lemma MarkSlotOK(v: Slot, id: nat)
    requires SlotOK(v, id)
    ensures SlotOK(MarkSlot(v), id)
  {
  }

  lemma TerminalSlotOK(v: Slot, id: nat, canQueue: bool)
    requires SlotOK(v, id)
    ensures SlotOK(TerminalSlot(v, id, canQueue), id)
  {
    var w := TerminalSlot(v, id, canQueue);
    if w.lane != v.lane {
      assert |v.lane| == 0 || v.lane == [SnapshotOf(id)];
      assert w.lane[|w.lane| - 1].Whole?;
      assert SnapshotOf(id) in w.lane <==> SnapshotOf(id) in v.lane;
    }
  }

  lemma ClearSlotOK(v: Slot, id: nat, popped: seq<Outbound>)
    requires SlotOK(v, id) && v.cancelled && |popped| <= 1 && popped <= v.lane
    ensures SlotOK(ClearSlot(v, popped), id)
  {
  }

  lemma TakeSlotOK(v: Slot, id: nat)
    requires SlotOK(v, id) && v.lane != [] && v.hand.None? && !v.wrote && !v.stopped
    ensures SlotOK(TakeSlot(v, id), id)
  {
    var w := TakeSlot(v, id);
    assert |w.lane| <= 1;
    if v.lane[0].SnapshotOf? {
      assert v.lane[0] == SnapshotOf(id);
      assert SnapshotOf(id) !in w.lane;
    } else {
      assert w.lane == [];
    }
  }

  lemma WriteSlotOK(v: Slot, id: nat)
    requires SlotOK(v, id) && v.hand.Some? && !v.wrote
    ensures SlotOK(WriteSlot(v), id)
    ensures v.hand.value.Snap? ==> v.hand.value.id == id && v.hand.value.number > v.last.number
    ensures v.hand.value.Subend? ==> v.hand.value.id == id
    ensures !v.closed
    ensures v.hand.value.Subend? ==> v.last.number > 0
    ensures v.hand.value.Suberr? ==> v.last.number == 0
  {
  }

  lemma ResnapSlotOK(v: Slot, id: nat)
    requires SlotOK(v, id)
    ensures SlotOK(v.(c := v.c.(forceNext := true)), id)
  {
  }

  lemma NewSlotOK(id: nat, cancelled: bool, stopped: bool)
    ensures SlotOK(Slot(NewChannel(), true, [], None, false, Snapshot(0, ""), false, cancelled, stopped, ""), id)
  {
  }

  // ------------------------------------- every step moves every slot as described

  /** The invariant of one id, opened or not. */
  ghost predicate IdOK(s: State, id: nat) {
    if id in s.registry then SlotOK(SlotOf(s, id), id) else Untouched(SlotOf(s, id))
  }

  lemma QueueMovesSlots(s: State, e: Outbound, id: nat)
    ensures SlotOf(Queued(s, e), id) ==
      SlotOf(s, id).(lane := SlotOf(s, id).lane + if Mine(e, id) then [e] else [])
  {
    EntriesAppend(s.queue, e, id);
    hide Entries, LastSnap, Terminated;
    var t := Queued(s, e);
    var more := if Mine(e, id) then [e] else [];
    assert Hand(t, id) == Hand(s, id);
    assert Entries(t.queue, id) == Entries(s.queue, id) + more;
    assert Hand(s, id) + (Entries(s.queue, id) + more) == Hand(s, id) + Entries(s.queue, id) + more;
    assert SlotOf(t, id).lane == SlotOf(s, id).lane + more;
  }

  lemma QueuePlainKeepsSlots(s: State, frame: Frame, id: nat)
    ensures SlotOf(Queued(s, Whole(frame, None)), id) == SlotOf(s, id)
  {
    QueueMovesSlots(s, Whole(frame, None), id);
    assert SlotOf(s, id).lane + [] == SlotOf(s, id).lane;
  }

  lemma SetChannelMovesSlots(s: State, at: nat, c: Channel, id: nat)
    ensures SlotOf(SetChannel(s, at, c), id) == if id == at then SlotOf(s, id).(c := c) else SlotOf(s, id)
  {
    assert Hand(SetChannel(s, at, c), id) == Hand(s, id);
  }

  lemma UnsubscribeMovesSlots(s: State, at: nat, id: nat)
    requires at in s.registry
    ensures SlotOf(Unsubscribed(s, at), id) == if id == at then UnsubscribeSlot(SlotOf(s, id)) else SlotOf(s, id)
  {
    assert Hand(Unsubscribed(s, at), id) == Hand(s, id);
  }

  lemma ReaderStateKeepsSlots(s: State, lastID: nat, reader: Reader, id: nat)
    ensures SlotOf(s.(lastID := lastID, reader := reader), id) == SlotOf(s, id)
    ensures SlotOf(s.(reader := reader), id) == SlotOf(s, id)
  {
    hide Entries, LastSnap, Terminated;
  }

  lemma ReaderStep(s: State, e: Event, id: nat)
    requires IdOK(s, id) && (e.CheckSubscribe? || e.QueueRefusal? || e.QueuePlain?)
    ensures IdOK(Apply(s, e), id)
  {
    hide SlotOK, SlotOf, Untouched, TopicMoves, WriterMoves;
    var t := Apply(s, e);
    ReaderStateKeepsSlots(s, t.lastID, t.reader, id);
    if e.QueueRefusal? && s.reader.Refusing? && CanQueue(s) {
      var u := Queued(s, Whole(Suberr(s.reader.id), None));
      QueuePlainKeepsSlots(s, Suberr(s.reader.id), id);
      ReaderStateKeepsSlots(u, u.lastID, Idle, id);
    } else if e.QueuePlain? {
      QueuePlainKeepsSlots(s, e.frame, id);
    }
  }

  lemma AddChannelStep(s: State, decoded: bool, id: nat)
    requires IdOK(s, id)
    requires s.reader.Adding? ==> s.reader.id !in s.registry
    ensures IdOK(Apply(s, AddChannel(decoded)), id)
  {
    hide WriterMoves, TopicMoves;
    hide SlotOK;
    var t := Apply(s, AddChannel(decoded));
    assert Hand(t, id) == Hand(s, id);
    if s.reader.Adding? && id == s.reader.id && id in t.registry {
      assert SlotOf(t, id) == SlotOf(s, id).(live := true);
      NewSlotOK(id, s.cancelled, s.writer.Stopped?);
    } else {
      assert SlotOf(t, id) == SlotOf(s, id);
    }
  }

  lemma UnsubscribeStep(s: State, at: nat, id: nat)
    requires IdOK(s, id) && IdOK(s, at)
    ensures IdOK(Apply(s, Unsubscribe(at)), id)
  {
    hide WriterMoves, TopicMoves;
    hide SlotOK;
    if s.reader.Idle? && at in s.registry {
      UnsubscribeMovesSlots(s, at, id);
      UnsubscribeSlotOK(SlotOf(s, at), at);
    }
  }

  lemma ResnapStep(s: State, at: nat, id: nat)
    requires IdOK(s, id)
    ensures IdOK(Apply(s, Resnap(at)), id)
  {
    hide WriterMoves, TopicMoves;
    hide SlotOK;
    var t := Apply(s, Resnap(at));
    if t != s {
      SetChannelMovesSlots(s, at, s.registry[at].(forceNext := true), id);
      if id == at {
        ResnapSlotOK(SlotOf(s, id), id);
      }
    }
  }

  lemma AcceptMovesSlots(s: State, at: nat, c: Channel, payload: string, id: nat)
    ensures SlotOf(Accept(s, at, c, payload), id) ==
      if id == at then SlotOf(s, id).(c := c, accepted := payload) else SlotOf(s, id)
  {
    assert Hand(Accept(s, at, c, payload), id) == Hand(s, id);
  }

  lemma SnapshotMovesSlots(s: State, at: nat, payload: string, id: nat)
    requires at in s.registry
    ensures SlotOf(Snapshotted(s, at, payload).0, id) ==
      if id == at then SnapshotSlot(SlotOf(s, at), at, payload, |s.queue| >= MAX_QUEUED_FRAMES) else SlotOf(s, id)
  {
    var c := s.registry[at];
    var u := Accept(s, at, Recorded(c, payload), payload);
    AcceptMovesSlots(s, at, c, payload, id);
    AcceptMovesSlots(s, at, Recorded(c, payload), payload, id);
    QueueMovesSlots(u, SnapshotOf(at), id);
    hide Entries, Hand, LastSnap, Terminated, Recorded, AcceptedBy;
    assert id != at ==> SlotOf(u, id).lane + [] == SlotOf(u, id).lane;
  }

  lemma SnapshotStep(s: State, at: nat, payload: string, id: nat)
    requires IdOK(s, id) && IdOK(s, at) && at in s.registry
    ensures IdOK(Apply(s, QueueSnapshot(at, payload)), id)
  {
    hide ReaderMoves, WriterMoves, Unsubscribed;
    hide SlotOK, SlotOf, SnapshotSlot;
    SnapshotSlotOK(SlotOf(s, at), at, payload, |s.queue| >= MAX_QUEUED_FRAMES);
    SnapshotMovesSlots(s, at, payload, id);
  }

  lemma MarkMovesSlots(s: State, at: nat, id: nat)
    requires at in s.registry
    ensures SlotOf(Apply(s, MarkFinished(at)), id) == if id == at then MarkSlot(SlotOf(s, at)) else SlotOf(s, id)
  {
    hide ReaderMoves, WriterMoves, Snapshotted, Unsubscribed;
    SetChannelMovesSlots(s, at, MarkSlot(SlotOf(s, at)).c, id);
    hide Entries, Hand, LastSnap, Terminated, AcceptedBy;
  }

  lemma MarkStep(s: State, at: nat, id: nat)
    requires IdOK(s, id)
    ensures IdOK(Apply(s, MarkFinished(at)), id)
  {
    hide SlotOK, SlotOf, Untouched, ReaderMoves, WriterMoves, Snapshotted, Unsubscribed, MarkSlot;
    if at in s.registry {
      MarkMovesSlots(s, at, id);
      if id == at {
        MarkSlotOK(SlotOf(s, at), at);
      }
    }
  }

  lemma SlotHoldsChannel(s: State, id: nat)
    requires id in s.registry
    ensures SlotOf(s, id).c == s.registry[id]
  {
  }

  lemma TerminalMovesSlots(s: State, at: nat, id: nat)
    requires at in s.registry && s.registry[at].topic.Ending?
    ensures SlotOf(Apply(s, QueueTerminal(at)), id) ==
      if id == at then TerminalSlot(SlotOf(s, at), at, CanQueue(s)) else SlotOf(s, id)
  {
    hide SlotOf, Queued, SetChannel, CanQueue, ReaderMoves, WriterMoves, Snapshotted, Unsubscribed;
    var c := s.registry[at];
    var u := SetChannel(s, at, c.(topic := Ended));
    SlotHoldsChannel(s, at);
    SetChannelMovesSlots(s, at, c.(topic := Ended), id);
    SetChannelMovesSlots(s, at, c.(topic := Dropping), id);
    QueueMovesSlots(u, Whole(if c.topic.hadSnapshot then Subend(at) else Suberr(at), Some(at)), id);
    if id != at {
      assert SlotOf(u, id).lane + [] == SlotOf(u, id).lane;
    }
  }

  lemma TerminalStep(s: State, at: nat, id: nat)
    requires IdOK(s, id) && IdOK(s, at)
    ensures IdOK(Apply(s, QueueTerminal(at)), id)
  {
    hide ReaderMoves, WriterMoves, Snapshotted, Unsubscribed;
    hide SlotOK, SlotOf;
    if at in s.registry && s.registry[at].topic.Ending? {
      TerminalMovesSlots(s, at, id);
      TerminalSlotOK(SlotOf(s, at), at, CanQueue(s));
    }
  }

  lemma DropMovesSlots(s: State, at: nat, id: nat)
    requires at in s.registry && s.registry[at].topic.Dropping?
    ensures SlotOf(Apply(s, DropFinished(at)), id) ==
      if id == at then UnsubscribeSlot(SlotOf(s, at).(c := SlotOf(s, at).c.(topic := Ended))) else SlotOf(s, id)
  {
    hide ReaderMoves, WriterMoves, Snapshotted;
    var c := s.registry[at].(topic := Ended);
    SetChannelMovesSlots(s, at, c, id);
    UnsubscribeMovesSlots(SetChannel(s, at, c), at, id);
    hide Entries, Hand, LastSnap, Terminated, AcceptedBy, Unsubscribed;
  }

  lemma DropStep(s: State, at: nat, id: nat)
    requires IdOK(s, id) && IdOK(s, at)
    ensures IdOK(Apply(s, DropFinished(at)), id)
  {
    hide SlotOK, SlotOf, Untouched, ReaderMoves, WriterMoves, Snapshotted, UnsubscribeSlot;
    if at in s.registry && s.registry[at].topic.Dropping? {
      SlotHoldsChannel(s, at);
      DropMovesSlots(s, at, id);
      DroppedSlotOK(SlotOf(s, at), at);
    }
  }

  lemma DroppedSlotOK(v: Slot, id: nat)
    requires SlotOK(v, id) && v.c.topic.Dropping?
    ensures SlotOK(UnsubscribeSlot(v.(c := v.c.(topic := Ended))), id)
  {
  }

  lemma CancelStep(s: State, id: nat)
    requires IdOK(s, id)
    ensures IdOK(Apply(s, Cancel), id)
  {
    hide WriterMoves, TopicMoves;
    hide SlotOK;
    var t := Apply(s, Cancel);
    assert Hand(t, id) == Hand(s, id);
    assert SlotOf(t, id) == SlotOf(s, id).(cancelled := true);
    CancelledSlotOK(SlotOf(s, id), id);
  }

  lemma CancelledSlotOK(v: Slot, id: nat)
    ensures SlotOK(v, id) ==> SlotOK(v.(cancelled := true), id)
  {
  }

  lemma ClearStep(s: State, id: nat)
    requires IdOK(s, id)
    ensures IdOK(Apply(s, Clear), id)
  {
    hide WriterMoves, TopicMoves;
    hide SlotOK;
    var t := Apply(s, Clear);
    if s.cancelled {
      assert Hand(t, id) == Hand(s, id);
      assert Entries(t.queue, id) == [];
      assert Hand(s, id) + [] == Hand(s, id);
      if id in s.registry {
        assert SlotOf(t, id) == ClearSlot(SlotOf(s, id), Hand(s, id));
        ClearSlotOK(SlotOf(s, id), id, Hand(s, id));
      } else {
        assert SlotOf(s, id).lane == [];
      }
    }
  }

  lemma PopKeepsSlots(s: State, id: nat)
    requires s.writer.Ready? && s.queue != []
    ensures SlotOf(s.(writer := Popped(s.queue[0]), queue := s.queue[1..]), id) == SlotOf(s, id)
  {
    hide LastSnap, Terminated;
  }

  lemma PopStep(s: State, id: nat)
    requires IdOK(s, id)
    ensures IdOK(Apply(s, Pop), id)
  {
    hide SlotOK, SlotOf, Untouched, ReaderMoves, TopicMoves, Taken;
    if s.writer.Ready? && s.queue != [] {
      PopKeepsSlots(s, id);
    } else if s.writer.Ready? {
      RestingMovesSlots(s, s.channels, s.wake, Asleep, id);
    }
  }

  lemma PoppedLane(s: State, id: nat)
    requires s.writer.Popped?
    ensures Mine(s.writer.entry, id) ==>
      SlotOf(s, id).lane != [] && SlotOf(s, id).lane[0] == s.writer.entry
      && SlotOf(s, id).lane[1..] == Entries(s.queue, id)
    ensures !Mine(s.writer.entry, id) ==> SlotOf(s, id).lane == Entries(s.queue, id)
  {
  }

  lemma ExaminedMovesSlots(s: State, w: Writer, id: nat)
    requires !w.Popped? && !s.writer.Stopped? && !w.Stopped? && !w.Wrote? && !s.writer.Wrote? && !s.writer.Writing?
    ensures SlotOf(s.(writer := w), id) ==
      SlotOf(s, id).(lane := Entries(s.queue, id),
                     hand := if w.Writing? && w.owner == Some(id) then Some(w.frame) else None)
  {
    assert [] + Entries(s.queue, id) == Entries(s.queue, id);
  }

  lemma TakeSnapshotMovesSlots(s: State, at: nat, id: nat)
    requires s.writer == Popped(SnapshotOf(at)) && at in s.registry
    requires id == at ==> SlotOf(s, id).lane != []
    ensures SlotOf(Apply(s, Take), id) == if id == at then TakeSlot(SlotOf(s, id), id) else SlotOf(s, id)
  {
    hide ReaderMoves, TopicMoves;
    var t := Apply(s, Take);
    var c := t.registry[at];
    PoppedLane(s, id);
    SetChannelMovesSlots(s, at, c, id);
    ExaminedMovesSlots(SetChannel(s, at, c), t.writer, id);
    assert t == SetChannel(s, at, c).(writer := t.writer);
    hide Entries, Hand, LastSnap, Terminated, AcceptedBy;
  }

  lemma TakeFrameMovesSlots(s: State, f: Frame, owner: Option<nat>, id: nat)
    requires s.writer == Popped(Whole(f, owner)) && (owner.Some? ==> owner.value in s.registry)
    requires owner == Some(id) ==> SlotOf(s, id).lane != []
    ensures SlotOf(Apply(s, Take), id) == if owner == Some(id) then TakeSlot(SlotOf(s, id), id) else SlotOf(s, id)
  {
    hide ReaderMoves, TopicMoves;
    var t := Apply(s, Take);
    PoppedLane(s, id);
    ExaminedMovesSlots(s, t.writer, id);
    assert t == s.(writer := t.writer);
    hide Entries, Hand, LastSnap, Terminated, AcceptedBy;
  }

  /** The popped entry leaves the lane of its own channel and touches no other. */
  lemma TakeMovesSlots(s: State, id: nat)
    requires s.writer.Popped?
    requires s.writer.entry.SnapshotOf? ==> s.writer.entry.id in s.registry
    requires s.writer.entry.Whole? && s.writer.entry.owner.Some? ==> s.writer.entry.owner.value in s.registry
    ensures Mine(s.writer.entry, id) ==> SlotOf(s, id).lane != []
    ensures SlotOf(Apply(s, Take), id) ==
      if Mine(s.writer.entry, id) then TakeSlot(SlotOf(s, id), id) else SlotOf(s, id)
  {
    hide ReaderMoves, TopicMoves;
    PoppedLane(s, id);
    hide SlotOf, TakeSlot, Apply;
    match s.writer.entry
    case SnapshotOf(at) => TakeSnapshotMovesSlots(s, at, id);
    case Whole(f, owner) => TakeFrameMovesSlots(s, f, owner, id);
  }

  lemma PoppedIsRegistered(s: State, id: nat)
    requires IdOK(s, id) && s.writer.Popped? && Mine(s.writer.entry, id)
    ensures id in s.registry && SlotOf(s, id).lane != []
  {
    assert SlotOf(s, id).lane == [s.writer.entry] + Entries(s.queue, id);
  }

  lemma PoppedHoldsNothing(s: State, id: nat)
    requires s.writer.Popped?
    ensures var v := SlotOf(s, id); v.hand.None? && !v.wrote && !v.stopped
  {
  }

  lemma TakeStep(s: State, id: nat)
    requires forall i: nat :: IdOK(s, i)
    ensures IdOK(Apply(s, Take), id)
  {
    hide ReaderMoves, TopicMoves, SlotOf, Untouched;
    hide SlotOK;
    if s.writer.Popped? {
      if s.writer.entry.SnapshotOf? {
        PoppedIsRegistered(s, s.writer.entry.id);
      } else if s.writer.entry.owner.Some? {
        PoppedIsRegistered(s, s.writer.entry.owner.value);
      }
      TakeMovesSlots(s, id);
      assert IdOK(s, id);
      if Mine(s.writer.entry, id) {
        PoppedIsRegistered(s, id);
        PoppedHoldsNothing(s, id);
        TakeSlotOK(SlotOf(s, id), id);
      }
    }
  }

  /** Ids are not confused: a snapshot in the writer's hand belongs to its channel. */
  ghost predicate HandIsOwned(s: State) {
    s.writer.Writing? && s.writer.frame.Snap? ==> s.writer.owner == Some(s.writer.frame.id)
  }

  lemma WriteMovesSlots(s: State, id: nat)
    requires s.writer.Writing? && HandIsOwned(s)
    ensures SlotOf(Apply(s, Write(true)), id) ==
      if s.writer.owner == Some(id) then WriteSlot(SlotOf(s, id)) else SlotOf(s, id)
  {
    hide ReaderMoves, TopicMoves, Taken;
    hide Entries;
    var t := Apply(s, Write(true));
    var x := Sent(s.writer.frame, s.writer.owner);
    LastSnapAppend(s.written, x, id);
    TerminatedAppend(s.written, x, id);
    assert Hand(t, id) == Hand(s, id);
    hide LastSnap, Terminated;
  }

  lemma LostFrameSlotOK(v: Slot, id: nat)
    ensures SlotOK(v, id) ==> SlotOK(v.(hand := None, stopped := true), id)
  {
  }

  lemma WriteStep(s: State, ok: bool, id: nat)
    requires IdOK(s, id) && HandIsOwned(s)
    ensures IdOK(Apply(s, Write(ok)), id)
  {
    hide ReaderMoves, TopicMoves, Taken;
    hide SlotOK;
    var t := Apply(s, Write(ok));
    if s.writer.Writing? && ok {
      WriteMovesSlots(s, id);
      if s.writer.owner == Some(id) {
        WriteSlotOK(SlotOf(s, id), id);
      }
    } else if s.writer.Writing? {
      assert Hand(t, id) == Hand(s, id);
      assert SlotOf(t, id) == SlotOf(s, id).(hand := None, stopped := true);
      LostFrameSlotOK(SlotOf(s, id), id);
    }
  }

  lemma RemovedSlotOK(v: Slot, id: nat)
    requires SlotOK(v, id) && v.wrote
    ensures SlotOK(v.(wrote := false, live := false), id)
  {
  }

  lemma RestingMovesSlots(s: State, channels: set<nat>, wake: bool, w: Writer, id: nat)
    requires !s.writer.Popped? && (w.Ready? || w.Asleep? || w.Stopped?)
    ensures SlotOf(s.(channels := channels, wake := wake, writer := w), id) ==
      SlotOf(s, id).(live := id in channels, hand := None, wrote := false, stopped := w.Stopped?)
    ensures !s.writer.Writing? ==> SlotOf(s, id).hand.None?
    ensures SlotOf(s, id).wrote <==> s.writer == Wrote(id)
    ensures SlotOf(s, id).stopped == s.writer.Stopped? && SlotOf(s, id).live == (id in s.channels)
  {
    hide Entries, LastSnap, Terminated;
  }

  lemma WriterRestStep(s: State, e: Event, id: nat)
    requires IdOK(s, id) && (e.Remove? || e.Rouse? || e.Ping? || e.SeeCancelled?)
    ensures IdOK(Apply(s, e), id)
  {
    hide SlotOK, SlotOf, ReaderMoves, TopicMoves, Taken;
    var t := Apply(s, e);
    if t != s {
      var v := SlotOf(s, id);
      RestingMovesSlots(s, t.channels, t.wake, t.writer, id);
      if s.writer == Wrote(id) {
        if id in s.registry {
          RemovedSlotOK(v, id);
        }
      } else if t.writer.Stopped? {
        LostFrameSlotOK(v, id);
      }
    }
  }

  // ------------------------------------------------------- the connection invariant

  /** Only a channel's own entries carry its snapshots and its end notice. */
  predicate NoLooseSnapshot(e: Outbound) {
    e.Whole? ==> !e.frame.Snap? && (e.frame.Subend? ==> e.owner.Some?)
  }

  ghost predicate Inv(s: State) {
    && (forall id: nat :: IdOK(s, id))
    && GoodTrace(s.written)
    && Tidy(s)
  }

  /** The facts that concern no single channel: the bound, the wake token, the ids. */
  ghost predicate Tidy(s: State) {
    && |s.queue| <= MAX_QUEUED_FRAMES
    && (s.writer.Asleep? && s.queue != [] ==> s.wake)
    && (forall id: nat :: id in s.registry ==> id <= s.lastID)
    && (s.reader.Adding? ==> s.reader.id == s.lastID && s.reader.id !in s.registry)
    && (forall i :: 0 <= i < |s.queue| ==> NoLooseSnapshot(s.queue[i]))
    && (s.writer.Popped? ==> NoLooseSnapshot(s.writer.entry))
    && (s.writer.Writing? && s.writer.owner.None? ==> !s.writer.frame.Snap? && !s.writer.frame.Subend?)
  }

  lemma InvOwnsHand(s: State)
    requires Inv(s)
    ensures HandIsOwned(s)
  {
    if s.writer.Writing? && s.writer.owner.Some? {
      assert IdOK(s, s.writer.owner.value);
    }
  }

  lemma StepKeepsIds(s: State, e: Event, id: nat)
    requires Inv(s)
    ensures IdOK(Apply(s, e), id)
  {
    InvOwnsHand(s);
    hide SlotOK, SlotOf, Untouched, GoodTrace, ReaderMoves, TopicMoves, WriterMoves;
    assert IdOK(s, id);
    match e
    case CheckSubscribe(_) => ReaderStep(s, e, id);
    case AddChannel(decoded) => AddChannelStep(s, decoded, id);
    case QueueRefusal => ReaderStep(s, e, id);
    case Unsubscribe(at) => assert IdOK(s, at); UnsubscribeStep(s, at, id);
    case Resnap(at) => ResnapStep(s, at, id);
    case QueueSnapshot(at, payload) =>
      assert IdOK(s, at);
      if at in s.registry {
        SnapshotStep(s, at, payload, id);
      }
    case MarkFinished(at) => MarkStep(s, at, id);
    case QueueTerminal(at) => assert IdOK(s, at); TerminalStep(s, at, id);
    case DropFinished(at) => assert IdOK(s, at); DropStep(s, at, id);
    case QueuePlain(_) => ReaderStep(s, e, id);
    case Cancel => CancelStep(s, id);
    case Clear => ClearStep(s, id);
    case Pop => PopStep(s, id);
    case Take => TakeStep(s, id);
    case Write(ok) => WriteStep(s, ok, id);
    case Remove => WriterRestStep(s, e, id);
    case Rouse => WriterRestStep(s, e, id);
    case Ping(_) => WriterRestStep(s, e, id);
    case SeeCancelled => WriterRestStep(s, e, id);
  }

  lemma TopicSendsNothing(s: State, e: Event)
    ensures TopicMoves(s, e).written == s.written && TopicMoves(s, e).writer == s.writer
  {
  }

  lemma ReaderSendsNothing(s: State, e: Event)
    ensures ReaderMoves(s, e).written == s.written && ReaderMoves(s, e).writer == s.writer
  {
  }

  lemma OnlyTheWriterSends(s: State, e: Event)
    ensures TopicMoves(s, e).written == ReaderMoves(s, e).written == s.written
    ensures TopicMoves(s, e).writer == ReaderMoves(s, e).writer == s.writer
  {
    hide *;
    TopicSendsNothing(s, e);
    ReaderSendsNothing(s, e);
  }

  lemma HandIsGood(s: State, id: nat)
    requires IdOK(s, id) && HandIsOwned(s) && s.writer.Writing? && s.writer.owner == Some(id)
    ensures GoodNext(s.written, Sent(s.writer.frame, s.writer.owner))
  {
    WriteSlotOK(SlotOf(s, id), id);
    hide SlotOK, Entries, LastSnap, Terminated;
  }

  lemma StepKeepsTrace(s: State, e: Event)
    requires Inv(s)
    ensures GoodTrace(Apply(s, e).written)
  {
    hide ReaderMoves, TopicMoves, GoodTrace, IdOK, Taken;
    OnlyTheWriterSends(s, e);
    InvOwnsHand(s);
    if e.Write? && e.ok && s.writer.Writing? {
      var x := Sent(s.writer.frame, s.writer.owner);
      if s.writer.owner.Some? {
        HandIsGood(s, s.writer.owner.value);
      }
      GoodTraceAppend(s.written, x);
    } else {
      OnlyWritesAreSent(s, e);
    }
  }

  lemma OnlyWritesAreSent(s: State, e: Event)
    requires e.Write? && e.ok ==> !s.writer.Writing?
    ensures WriterMoves(s, e).written == s.written
  {
  }

  lemma QueueKeepsTidy(s: State, e: Outbound)
    requires Tidy(s) && |s.queue| < MAX_QUEUED_FRAMES && NoLooseSnapshot(e)
    ensures Tidy(Queued(s, e))
  {
  }

  lemma SetChannelKeepsTidy(s: State, id: nat, c: Channel)
    requires Tidy(s) && id in s.registry
    ensures Tidy(SetChannel(s, id, c))
  {
  }

  lemma TopicKeepsTidy(s: State, e: Event)
    requires Tidy(s) && (ByTopic(e))
    ensures Tidy(Apply(s, e))
  {
    hide WriterMoves, ReaderMoves;
    match e
    case QueueSnapshot(at, payload) =>
      if at in s.registry {
        var u := Accept(s, at, Recorded(s.registry[at], payload), payload);
        assert Tidy(u);
        if !s.registry[at].queued && |s.queue| < MAX_QUEUED_FRAMES {
          QueueKeepsTidy(u, SnapshotOf(at));
        }
      }
    case QueueTerminal(at) =>
      if at in s.registry && s.registry[at].topic.Ending? {
        var c := s.registry[at];
        SetChannelKeepsTidy(s, at, c.(topic := Ended));
        if CanQueue(s) {
          QueueKeepsTidy(SetChannel(s, at, c.(topic := Ended)),
                         Whole(if c.topic.hadSnapshot then Subend(at) else Suberr(at), Some(at)));
        }
      }
    case MarkFinished(at) =>
    case DropFinished(at) =>
  }

  lemma PopKeepsTidy(s: State)
    requires Tidy(s)
    ensures Tidy(Apply(s, Pop))
  {
    hide TopicMoves, ReaderMoves, Taken;
    if s.queue != [] {
      assert NoLooseSnapshot(s.queue[0]);
    }
  }

  lemma TakeKeepsTidy(s: State, e: Outbound)
    requires Tidy(s) && s.writer == Popped(e)
    ensures Tidy(Taken(s, e))
  {
    hide TopicMoves, ReaderMoves, WriterMoves;
  }

  lemma WriterKeepsTidy(s: State, e: Event)
    requires Tidy(s) && ByWriter(e)
    ensures Tidy(Apply(s, e))
  {
    hide TopicMoves, ReaderMoves, Taken;
    if e.Pop? {
      PopKeepsTidy(s);
    } else if e.Take? && s.writer.Popped? {
      TakeKeepsTidy(s, s.writer.entry);
    }
  }

  lemma ReaderKeepsTidy(s: State, e: Event)
    requires Tidy(s)
    requires !ByTopic(e) && !ByWriter(e)
    ensures Tidy(Apply(s, e))
  {
    hide TopicMoves, WriterMoves;
    if e.QueuePlain? && CanQueue(s) && (e.frame.Pong? || e.frame.CloseFrame?) {
      QueueKeepsTidy(s, Whole(e.frame, None));
    }
  }

  lemma StepKeepsTidy(s: State, e: Event)
    requires Tidy(s)
    ensures Tidy(Apply(s, e))
  {
    hide ReaderMoves, TopicMoves, WriterMoves, Tidy;
    if ByTopic(e) {
      TopicKeepsTidy(s, e);
    } else if ByWriter(e) {
      WriterKeepsTidy(s, e);
    } else {
      ReaderKeepsTidy(s, e);
    }
  }

  lemma {:induction false} RunKeepsInv(events: seq<Event>)
    ensures Inv(Run(Opened(), events))
  {
    if events == [] {
      var s := Opened();
      forall id: nat ensures IdOK(s, id) {
        assert SlotOf(s, id).lane == [];
      }
    } else {
      var s, e := Run(Opened(), events[..|events| - 1]), events[|events| - 1];
      RunKeepsInv(events[..|events| - 1]);
      forall id: nat ensures IdOK(Apply(s, e), id) {
        StepKeepsIds(s, e, id);
      }
      StepKeepsTrace(s, e);
      StepKeepsTidy(s, e);
    }
  }

  // ------------------------------------------------------------- main statements

  /** Wire safety on every run, in terms of the ids that the client reads: a snapshot is
      written for the channel whose id it carries, the numbers of one id strictly increase,
      nothing is written for a channel after its terminal frame, and no snapshot with an id
      follows the end notice with that id. */
  lemma WireTraceSafety(events: seq<Event>, i: nat, j: nat)
    requires i < j < |Run(Opened(), events).written|
    ensures var w := Run(Opened(), events).written;
      && (w[i].frame.Snap? ==> w[i].owner == Some(w[i].frame.id))
      && (w[j].frame.Snap? ==> w[j].owner == Some(w[j].frame.id))
      && (w[i].frame.Snap? && w[j].frame.Snap? && w[i].frame.id == w[j].frame.id ==>
          w[i].frame.number < w[j].frame.number)
      && (forall id: nat :: IsTerminal(w[i], id) ==> w[j].owner != Some(id))
      && (w[i].frame.Subend? && w[j].frame.Snap? ==> w[i].frame.id != w[j].frame.id)
  {
    RunKeepsInv(events);
    hide Run, IdOK, Tidy;
    var w := Run(Opened(), events).written;
    assert GoodNext(w[..i], w[i]) && GoodNext(w[..j], w[j]);
    if w[i].frame.Snap? && w[j].frame.Snap? && w[i].frame.id == w[j].frame.id {
      LastSnapBounds(w, j, i, w[i].frame.id);
    }
    forall id: nat | IsTerminal(w[i], id) ensures w[j].owner != Some(id) {
      assert IsTerminal(w[..j][i], id);
    }
    if w[i].frame.Subend? {
      assert IsTerminal(w[i], w[i].frame.id);
    }
  }

  lemma {:induction false} LastSnapBounds(w: seq<Sent>, n: nat, i: nat, id: nat)
    requires GoodTrace(w) && i < n <= |w| && w[i].frame.Snap? && w[i].frame.id == id
    ensures w[i].frame.number <= LastSnap(w[..n], id).number
  {
    assert w[..n][..n - 1] == w[..n - 1];
    if i < n - 1 {
      LastSnapBounds(w, n - 1, i, id);
      assert GoodNext(w[..n - 1], w[n - 1]);
    }
  }

  lemma EndFollowsSnapshot(events: seq<Event>, j: nat) returns (i: nat)
    requires var w := Run(Opened(), events).written;
      j < |w| && w[j].owner.Some? && w[j].frame.Subend?
    ensures var w := Run(Opened(), events).written;
      i < j && w[i].frame.Snap? && Some(w[i].frame.id) == w[j].owner
  {
    RunKeepsInv(events);
    var w := Run(Opened(), events).written;
    assert GoodNext(w[..j], w[j]);
    i := LastSnapWitness(w[..j], w[j].owner.value);
  }

  lemma {:induction false} LastSnapWitness(w: seq<Sent>, id: nat) returns (i: nat)
    requires LastSnap(w, id).number > 0
    ensures i < |w| && w[i].frame.Snap? && w[i].frame.id == id
  {
    var f := w[|w| - 1].frame;
    if f.Snap? && f.id == id {
      i := |w| - 1;
    } else {
      i := LastSnapWitness(w[..|w| - 1], id);
    }
  }

  lemma {:induction false} EntriesCount(q: seq<Outbound>, id: nat, e: Outbound)
    requires Mine(e, id)
    ensures multiset(Entries(q, id))[e] == multiset(q)[e]
  {
    if q != [] {
      var first, rest := q[0], q[1..];
      EntriesCount(rest, id, e);
      assert q == [first] + rest;
      assert multiset(q) == multiset{first} + multiset(rest);
      assert Entries(q, id) == (if Mine(first, id) then [first] else []) + Entries(rest, id);
      hide Entries, Mine;
    }
  }

  lemma OneEntryPerLane(v: Slot, id: nat)
    requires SlotOK(v, id) && !v.c.unsubscribed
    ensures multiset(v.lane)[SnapshotOf(id)] == (if v.c.queued then 1 else 0)
    ensures v.c.pending.Some? ==> v.c.queued
  {
    var lane := v.lane;
    assert lane == [] || lane == [lane[0]] || lane == [lane[0], lane[1]];
  }

  /** The queued flag of a subscribed channel says exactly whether one snapshot entry
      for it waits in the queue or in the writer's unexamined hand, and a pending
      snapshot always has that entry. */
  lemma QueuedMeansOneEntry(events: seq<Event>, id: nat)
    requires var s := Run(Opened(), events); id in s.registry && !s.registry[id].unsubscribed
    ensures var s := Run(Opened(), events);
      var c := s.registry[id];
      && multiset(Hand(s, id) + s.queue)[SnapshotOf(id)] == (if c.queued then 1 else 0)
      && (c.pending.Some? ==> c.queued)
  {
    RunKeepsInv(events);
    var s := Run(Opened(), events);
    assert IdOK(s, id);
    OneEntryPerLane(SlotOf(s, id), id);
    EntriesCount(s.queue, id, SnapshotOf(id));
    hide SlotOK, Entries, Apply;
  }

  // ------------------------------------------------- what a topic hands in, by the events

  /** The connection is live and the channel subscribed, in the table and not terminal. */
  predicate Serves(s: State, id: nat) {
    !s.cancelled && id in s.channels && id in s.registry && !s.registry[id].unsubscribed && !s.registry[id].terminal
  }

  /** An entry for the channel's snapshot waits in the queue or in the writer's hand. */
  predicate HasEntry(s: State, id: nat) {
    SnapshotOf(id) in Hand(s, id) + s.queue
  }

  predicate HasRoom(s: State) {
    |s.queue| < MAX_QUEUED_FRAMES
  }

  /** Does the connection take this payload after this history? */
  predicate Takes(events: seq<Event>, id: nat, payload: string)
    decreases |events|, 1
  {
    var s := Run(Opened(), events);
    && Serves(s, id)
    && ((payload == HandedIn(events, id) && !ResnapDue(events, id)) || HasEntry(s, id) || HasRoom(s))
  }

  /** The last payload of the channel that was taken. */
  function HandedIn(events: seq<Event>, id: nat): string
    decreases |events|, 0
  {
    if events == [] then ""
    else
      var init, e := events[..|events| - 1], events[|events| - 1];
      if e.QueueSnapshot? && e.id == id && Takes(init, id, e.payload) then e.payload else HandedIn(init, id)
  }

  /** Did the client ask for a snapshot since the last payload was taken? */
  predicate ResnapDue(events: seq<Event>, id: nat)
    decreases |events|, 0
  {
    events != [] &&
    var init, e := events[..|events| - 1], events[|events| - 1];
    if e == Resnap(id) && CanResnap(Run(Opened(), init), id) then true
    else ResnapDue(init, id) && !(e.QueueSnapshot? && e.id == id && Takes(init, id, e.payload))
  }

  predicate CanResnap(s: State, id: nat) {
    s.reader.Idle? && id in s.channels && id in s.registry && !s.registry[id].unsubscribed && !s.registry[id].terminal
  }

  /** What the connection remembers of a channel's payloads. */
  function Memory(s: State, id: nat): (string, bool) {
    if id in s.registry then (s.registry[id].lastPayload, s.registry[id].forceNext) else ("", false)
  }

  lemma ReaderKeepsMemory(s: State, e: Event, id: nat)
    requires s.reader.Adding? && s.reader.id == id ==> id !in s.registry
    ensures Memory(ReaderMoves(s, e), id) ==
      if e == Resnap(id) && CanResnap(s, id) then (Memory(s, id).0, true) else Memory(s, id)
  {
  }

  lemma WriterKeepsMemory(s: State, e: Event, id: nat)
    ensures Memory(WriterMoves(s, e), id) == Memory(s, id)
  {
  }

  lemma TopicKeepsMemory(s: State, e: Event, id: nat)
    requires !(e.QueueSnapshot? && e.id == id)
    ensures Memory(TopicMoves(s, e), id) == Memory(s, id)
  {
    hide Recorded;
  }

  /** The connection's decision in terms of what it remembers. */
  lemma SnapshotDecision(s: State, id: nat, payload: string)
    requires id in s.registry && (Serves(s, id) ==> (s.registry[id].queued <==> HasEntry(s, id)))
    ensures var (t, verdict) := Snapshotted(s, id, payload);
      var duplicate := payload == Memory(s, id).0 && !Memory(s, id).1;
      && (verdict.Refused? <==> !Serves(s, id))
      && (verdict.Accepted? <==> Serves(s, id) && (duplicate || HasEntry(s, id) || HasRoom(s)))
      && (!verdict.Accepted? ==> t == s)
      && (verdict.Accepted? ==> Memory(t, id) == (payload, false))
      && (verdict.Accepted? && !duplicate ==>
            && id in t.registry && t.registry[id].pending == Some(Snapshot(s.registry[id].nextSeq + 1, payload))
            && t.queue == s.queue + (if HasEntry(s, id) then [] else [SnapshotOf(id)]))
      && (verdict.Accepted? && duplicate ==> t.registry == s.registry && t.queue == s.queue)
  {
    hide HasEntry;
    var c := s.registry[id];
    assert s.registry[id := c] == s.registry;
    assert s.queue + [] == s.queue;
  }

  lemma QueuedIsEntry(events: seq<Event>, id: nat)
    requires id in Run(Opened(), events).registry && !Run(Opened(), events).registry[id].unsubscribed
    ensures Run(Opened(), events).registry[id].queued <==> HasEntry(Run(Opened(), events), id)
  {
    QueuedMeansOneEntry(events, id);
    var s := Run(Opened(), events);
    hide Run, Hand;
    assert multiset(Hand(s, id) + s.queue)[SnapshotOf(id)] > 0 <==> SnapshotOf(id) in Hand(s, id) + s.queue;
  }

  lemma AddingIsFresh(events: seq<Event>, id: nat)
    ensures var s := Run(Opened(), events); s.reader.Adding? && s.reader.id == id ==> id !in s.registry
  {
    if id in Run(Opened(), events).registry {
      AddingIsNew(events, id);
    }
  }

  lemma SnapshotKeepsMemory(events: seq<Event>, id: nat, payload: string)
    requires Memory(Run(Opened(), events), id) == (HandedIn(events, id), ResnapDue(events, id))
    ensures var t := TopicMoves(Run(Opened(), events), QueueSnapshot(id, payload));
      Memory(t, id) == if Takes(events, id, payload) then (payload, false)
                       else (HandedIn(events, id), ResnapDue(events, id))
  {
    var s := Run(Opened(), events);
    if id in s.registry {
      if !s.registry[id].unsubscribed {
        QueuedIsEntry(events, id);
      }
      SnapshotDecision(s, id, payload);
    }
    hide Run, HandedIn, ResnapDue, HasEntry, Snapshotted;
  }

  /** The connection remembers exactly what was handed in. */
  lemma {:induction false} MemoryIsHistory(events: seq<Event>, id: nat)
    ensures Memory(Run(Opened(), events), id) == (HandedIn(events, id), ResnapDue(events, id))
  {
    hide ReaderMoves, TopicMoves, WriterMoves, Memory, Takes;
    if events == [] {
      NothingRemembered(id);
    } else {
      var init, e := events[..|events| - 1], events[|events| - 1];
      MemoryIsHistory(init, id);
      var s := Run(Opened(), init);
      AddingIsFresh(init, id);
      ReaderKeepsMemory(s, e, id);
      WriterKeepsMemory(s, e, id);
      if e.QueueSnapshot? && e.id == id {
        SnapshotKeepsMemory(init, id, e.payload);
      } else {
        TopicKeepsMemory(s, e, id);
      }
    }
  }

  lemma NothingRemembered(id: nat)
    ensures Memory(Opened(), id) == ("", false)
  {
  }

  /** When a payload is taken, on every run: the connection is live, the channel subscribed
      and not terminal, and the payload repeats the last one taken without a resnap request,
      or an entry for the channel waits already, or the queue has room. Then it is the
      pending snapshot under the next number, behind one entry; otherwise nothing moves. */
  lemma SnapshotTakenExactly(events: seq<Event>, id: nat, payload: string)
    requires id in Run(Opened(), events).registry
    ensures var s := Run(Opened(), events);
      var (t, verdict) := Snapshotted(s, id, payload);
      var repeated := payload == HandedIn(events, id) && !ResnapDue(events, id);
      && (verdict.Accepted? <==> Serves(s, id) && (repeated || HasEntry(s, id) || HasRoom(s)))
      && (verdict.Refused? <==> !Serves(s, id))
      && (!verdict.Accepted? ==> t == s)
      && (verdict.Accepted? && !repeated ==>
            && id in t.registry && t.registry[id].pending == Some(Snapshot(s.registry[id].nextSeq + 1, payload))
            && t.queue == s.queue + (if HasEntry(s, id) then [] else [SnapshotOf(id)]))
      && (verdict.Accepted? && repeated ==> t.registry == s.registry && t.queue == s.queue)
  {
    hide *;
    MemoryIsHistory(events, id);
    ServedEntries(events, id);
    SnapshotDecision(Run(Opened(), events), id, payload);
  }

  /** Latest-state agreement: when the queue is drained and the writer idle, the last
      payload written for every open channel is the last one its topic handed in. */
  lemma LatestStateAgreement(events: seq<Event>, id: nat)
    requires var s := Run(Opened(), events);
      id in s.channels && s.queue == [] && (s.writer.Ready? || s.writer.Asleep?)
    ensures var s := Run(Opened(), events); LastSnap(s.written, id).data == HandedIn(events, id)
  {
    RunKeepsInv(events);
    MemoryIsHistory(events, id);
    var s := Run(Opened(), events);
    assert IdOK(s, id);
    assert SlotOf(s, id).lane == [];
    hide Run, HandedIn, ResnapDue;
  }

  function FramesFor(w: seq<Sent>, id: nat): nat {
    if w == [] then 0
    else FramesFor(w[..|w| - 1], id) + if w[|w| - 1].owner == Some(id) then 1 else 0
  }

  function InFlight(s: State, id: nat): nat {
    if s.writer.Writing? && s.writer.owner == Some(id) then 1 else 0
  }

  lemma UnsubscribedForGood(s: State, e: Event, id: nat)
    requires id in s.registry && s.registry[id].unsubscribed
    requires s.reader.Adding? ==> s.reader.id != id
    ensures var t := Apply(s, e); id in t.registry && t.registry[id].unsubscribed
  {
    hide TopicMoves, WriterMoves, ReaderMoves;
    if ByTopic(e) {
      TopicKeepsUnsubscribed(s, e, id);
    } else if ByWriter(e) {
      WriterKeepsUnsubscribed(s, e, id);
    } else {
      ReaderKeepsUnsubscribed(s, e, id);
    }
  }

  lemma TopicKeepsUnsubscribed(s: State, e: Event, id: nat)
    requires id in s.registry && s.registry[id].unsubscribed
    ensures var t := TopicMoves(s, e); id in t.registry && t.registry[id].unsubscribed
  {
  }

  lemma TakenKeepsUnsubscribed(s: State, e: Outbound, id: nat)
    requires id in s.registry && s.registry[id].unsubscribed
    ensures var t := Taken(s, e); id in t.registry && t.registry[id].unsubscribed
    ensures Taken(s, e).written == s.written && (s.writer.Popped? ==> InFlight(Taken(s, e), id) == 0)
  {
  }

  lemma WriterKeepsUnsubscribed(s: State, e: Event, id: nat)
    requires id in s.registry && s.registry[id].unsubscribed
    ensures var t := WriterMoves(s, e); id in t.registry && t.registry[id].unsubscribed
  {
    hide Taken;
    if s.writer.Popped? {
      TakenKeepsUnsubscribed(s, s.writer.entry, id);
    }
  }

  lemma ReaderKeepsUnsubscribed(s: State, e: Event, id: nat)
    requires id in s.registry && s.registry[id].unsubscribed
    requires s.reader.Adding? ==> s.reader.id != id
    ensures var t := ReaderMoves(s, e); id in t.registry && t.registry[id].unsubscribed
  {
  }

  lemma WriterHoldsOne(s: State, e: Event, id: nat)
    requires id in s.registry && s.registry[id].unsubscribed
    ensures var t := WriterMoves(s, e);
      FramesFor(t.written, id) + InFlight(t, id) <= FramesFor(s.written, id) + InFlight(s, id)
  {
    hide Taken;
    if s.writer.Popped? {
      TakenKeepsUnsubscribed(s, s.writer.entry, id);
    }
    if e.Write? && s.writer.Writing? && e.ok {
      assert (s.written + [Sent(s.writer.frame, s.writer.owner)])[..|s.written|] == s.written;
    }
  }

  lemma StepAfterUnsubscribe(s: State, e: Event, id: nat)
    requires id in s.registry && s.registry[id].unsubscribed
    ensures var t := Apply(s, e);
      FramesFor(t.written, id) + InFlight(t, id) <= FramesFor(s.written, id) + InFlight(s, id)
  {
    hide TopicMoves, WriterMoves, ReaderMoves, FramesFor;
    OnlyTheWriterSends(s, e);
    WriterHoldsOne(s, e, id);
  }

  /** Unsubscribing is final: at most the frame already in the writer's hand is still
      written for the channel, whatever happens later. */
  lemma {:induction false} AtMostOneFrameAfterUnsubscribe(before: seq<Event>, after: seq<Event>, id: nat)
    requires var s := Run(Opened(), before); id in s.registry && s.registry[id].unsubscribed
    ensures var s, t := Run(Opened(), before), Run(Opened(), before + after);
      && id in t.registry && t.registry[id].unsubscribed
      && FramesFor(t.written, id) + InFlight(t, id) <= FramesFor(s.written, id) + InFlight(s, id)
      && FramesFor(t.written, id) <= FramesFor(s.written, id) + 1
  {
    if after == [] {
      assert before + after == before;
    } else {
      var init, e := after[..|after| - 1], after[|after| - 1];
      AtMostOneFrameAfterUnsubscribe(before, init, id);
      assert (before + after)[..|before + after| - 1] == before + init;
      RunKeepsInv(before + init);
      UnsubscribedForGood(Run(Opened(), before + init), e, id);
      StepAfterUnsubscribe(Run(Opened(), before + init), e, id);
    }
  }

  /** The writer is never parked over a nonempty queue without a wake token. */
  lemma WriterIsAwakened(events: seq<Event>)
    ensures var s := Run(Opened(), events);
      && (s.writer.Asleep? && s.queue != [] ==> s.wake)
      && |s.queue| <= MAX_QUEUED_FRAMES
  {
    RunKeepsInv(events);
  }

  /** The channel is open and its next snapshot must not be deduplicated. */
  predicate Forced(s: State, id: nat) {
    id in s.registry && s.registry[id].forceNext
  }

  lemma ReaderKeepsForced(s: State, e: Event, id: nat)
    requires Forced(s, id) && (s.reader.Adding? ==> s.reader.id != id)
    ensures Forced(ReaderMoves(s, e), id)
  {
  }

  lemma TopicKeepsForced(s: State, e: Event, id: nat)
    requires Forced(s, id) && !(e.QueueSnapshot? && e.id == id)
    ensures Forced(TopicMoves(s, e), id)
  {
  }

  lemma WriterKeepsForced(s: State, e: Event, id: nat)
    requires Forced(s, id)
    ensures Forced(WriterMoves(s, e), id)
  {
  }

  lemma AddingIsNew(events: seq<Event>, id: nat)
    requires var s := Run(Opened(), events); id in s.registry
    ensures var s := Run(Opened(), events); s.reader.Adding? ==> s.reader.id != id
  {
    RunKeepsInv(events);
    hide Run, IdOK, GoodTrace;
  }

  lemma {:induction false} ForcedUntilSnapshot(before: seq<Event>, after: seq<Event>, id: nat)
    requires Forced(Run(Opened(), before), id)
    requires forall k :: 0 <= k < |after| ==> !(after[k].QueueSnapshot? && after[k].id == id)
    ensures Forced(Run(Opened(), before + after), id)
  {
    hide ReaderMoves, TopicMoves, WriterMoves, ByTopic, ByWriter;
    if after == [] {
      assert before + after == before;
    } else {
      var init, e := after[..|after| - 1], after[|after| - 1];
      ForcedUntilSnapshot(before, init, id);
      assert (before + after)[..|before + after| - 1] == before + init;
      var s := Run(Opened(), before + init);
      AddingIsNew(before + init, id);
      ReaderKeepsForced(s, e, id);
      TopicKeepsForced(s, e, id);
      WriterKeepsForced(s, e, id);
    }
  }

  lemma ResnapForces(s: State, id: nat)
    requires CanResnap(s, id)
    ensures Forced(Apply(s, Resnap(id)), id)
  {
  }

  lemma ForcedSnapshotIsNew(s: State, id: nat, payload: string)
    requires Forced(s, id) && (Serves(s, id) ==> (s.registry[id].queued <==> HasEntry(s, id)))
    ensures var (t, verdict) := Snapshotted(s, id, payload);
      && (verdict.Accepted? <==> Serves(s, id) && (HasEntry(s, id) || HasRoom(s)))
      && (verdict.Accepted? ==>
            && id in t.registry
            && t.registry[id].pending == Some(Snapshot(s.registry[id].nextSeq + 1, payload))
            && t.registry[id].queued && !t.registry[id].forceNext)
  {
    hide HasEntry;
  }

  lemma ServedEntries(events: seq<Event>, id: nat)
    ensures var s := Run(Opened(), events); Serves(s, id) ==> (s.registry[id].queued <==> HasEntry(s, id))
  {
    hide Run, HasEntry;
    if Serves(Run(Opened(), events), id) {
      QueuedIsEntry(events, id);
    }
  }

  lemma ForcedIsOpen(s: State, id: nat)
    requires Forced(s, id)
    ensures id in s.registry
  {
  }

  lemma RunAppend(events: seq<Event>, e: Event)
    ensures Run(Opened(), events + [e]) == Apply(Run(Opened(), events), e)
  {
    assert (events + [e])[..|events|] == events;
    hide Apply;
  }

  /** A resnap request is honoured: whatever happens in between, the channel's next payload
      is taken whenever the channel is served and its entry waits or fits, and then it gets
      a new sequence number and becomes pending, even if it equals the last one. */
  lemma ResnapIsHonoured(before: seq<Event>, after: seq<Event>, id: nat, payload: string)
    requires CanResnap(Run(Opened(), before), id)
    requires forall k :: 0 <= k < |after| ==> !(after[k].QueueSnapshot? && after[k].id == id)
    ensures var s := Run(Opened(), before + [Resnap(id)] + after);
      id in s.registry &&
      var (t, verdict) := Snapshotted(s, id, payload);
      && (verdict.Accepted? <==> Serves(s, id) && (HasEntry(s, id) || HasRoom(s)))
      && (verdict.Accepted? ==>
            && id in t.registry
            && t.registry[id].pending == Some(Snapshot(s.registry[id].nextSeq + 1, payload))
            && t.registry[id].queued && !t.registry[id].forceNext)
  {
    hide *;
    ResnapForces(Run(Opened(), before), id);
    RunAppend(before, Resnap(id));
    ForcedUntilSnapshot(before + [Resnap(id)], after, id);
    var s := Run(Opened(), before + [Resnap(id)] + after);
    ForcedIsOpen(s, id);
    ServedEntries(before + [Resnap(id)] + after, id);
    ForcedSnapshotIsNew(s, id, payload);
  }

  /** The reader checks the table in one critical section and adds in a later one; in
      between the table can only shrink. */
  predicate WithinLimit(s: State) {
    && |s.channels| <= CHANNEL_LIMIT
    && (s.reader.Adding? ==> |s.channels| < CHANNEL_LIMIT)
  }

  lemma SubsetIsSmaller<T>(a: set<T>, b: set<T>)
    requires a <= b
    ensures |a| <= |b|
  {
    assert b == a + (b - a);
  }

  lemma OneMore<T>(a: set<T>, x: T)
    ensures |a + {x}| <= |a| + 1
  {
    if x in a {
      assert a + {x} == a;
    }
  }

  lemma TopicOnlyRemoves(s: State, e: Event)
    ensures TopicMoves(s, e).channels <= s.channels && TopicMoves(s, e).reader == s.reader
  {
    hide Recorded;
  }

  lemma WriterOnlyRemoves(s: State, e: Event)
    ensures WriterMoves(s, e).channels <= s.channels && WriterMoves(s, e).reader == s.reader
  {
  }

  lemma ReaderAddsOne(s: State, e: Event)
    ensures var t := ReaderMoves(s, e);
      && (t.channels <= s.channels || (s.reader.Adding? && t.reader.Idle? && t.channels == s.channels + {s.reader.id}))
      && (t.reader.Adding? && !s.reader.Adding? ==> |s.channels| < CHANNEL_LIMIT)
  {
    hide AllUnsubscribed;
  }

  lemma FewerKeepLimit(s: State, t: State)
    requires WithinLimit(s) && t.channels <= s.channels
    requires t.reader.Adding? ==> s.reader.Adding? || |s.channels| < CHANNEL_LIMIT
    ensures WithinLimit(t)
  {
    SubsetIsSmaller(t.channels, s.channels);
  }

  lemma ReaderKeepsLimit(s: State, e: Event)
    requires WithinLimit(s)
    ensures WithinLimit(ReaderMoves(s, e))
  {
    hide ReaderMoves;
    ReaderAddsOne(s, e);
    var t := ReaderMoves(s, e);
    if t.channels <= s.channels {
      FewerKeepLimit(s, t);
    } else {
      OneMore(s.channels, s.reader.id);
    }
  }

  lemma StepKeepsLimit(s: State, e: Event)
    requires WithinLimit(s)
    ensures WithinLimit(Apply(s, e))
  {
    hide ReaderMoves, TopicMoves, WriterMoves, WithinLimit;
    ReaderKeepsLimit(s, e);
    TopicOnlyRemoves(s, e);
    FewerKeepLimit(s, TopicMoves(s, e));
    WriterOnlyRemoves(s, e);
    FewerKeepLimit(s, WriterMoves(s, e));
  }

  /** A connection never has more than 64 channels open. */
  lemma {:induction false} ChannelsStayWithinLimit(events: seq<Event>)
    ensures WithinLimit(Run(Opened(), events))
  {
    if events != [] {
      ChannelsStayWithinLimit(events[..|events| - 1]);
      StepKeepsLimit(Run(Opened(), events[..|events| - 1]), events[|events| - 1]);
    }
    hide Apply, WithinLimit;
  }

  // ------------------------------------------------------------------ the receiver

  datatype ReadOutcome =
    AllRead | UnknownChannel(id: nat) | InvalidSequence(id: nat) | SubscriptionOver(id: nat) | Unexpected

  /** The headless client: it remembers the last sequence number of every channel and
      stops at the first violation. */
  method ReadMessages(topics: set<nat>, messages: seq<Frame>) returns (outcome: ReadOutcome, read: nat)
    ensures read <= |messages|
    ensures outcome.AllRead? <==> read == |messages|
    ensures forall i :: 0 <= i < read ==> Harmless(topics, messages[..i], messages[i])
    ensures read < |messages| ==>
      && !Harmless(topics, messages[..read], messages[read])
      && outcome == Violation(topics, messages[read])
  {
    var sequences: map<nat, nat> := map[];
    read := 0;
    while read < |messages|
      invariant read <= |messages|
      invariant forall id: nat :: (if id in sequences then sequences[id] else 0) == LastNumber(messages[..read], id)
      invariant forall i :: 0 <= i < read ==> Harmless(topics, messages[..i], messages[i])
    {
      assert messages[..read + 1][..read] == messages[..read];
      match messages[read] {
        case Snap(id, number, _) =>
          if id !in topics {
            return UnknownChannel(id), read;
          }
          if number <= (if id in sequences then sequences[id] else 0) {
            return InvalidSequence(id), read;
          }
          sequences := sequences[id := number];
        case Suberr(id) => return SubscriptionOver(id), read;
        case Subend(id) => return SubscriptionOver(id), read;
        case Pong =>
        case CloseFrame => return Unexpected, read;
      }
      read := read + 1;
    }
    return AllRead, read;
  }

  /** What a frame that may not be read means. */
  function Violation(topics: set<nat>, f: Frame): ReadOutcome {
    match f
    case Snap(id, _, _) => if id !in topics then UnknownChannel(id) else InvalidSequence(id)
    case Suberr(id) => SubscriptionOver(id)
    case Subend(id) => SubscriptionOver(id)
    case _ => Unexpected
  }

  function LastNumber(messages: seq<Frame>, id: nat): nat {
    if messages == [] then 0
    else
      var f := messages[|messages| - 1];
      if f.Snap? && f.id == id then f.number else LastNumber(messages[..|messages| - 1], id)
  }

  predicate Harmless(topics: set<nat>, earlier: seq<Frame>, f: Frame) {
    match f
    case Snap(id, number, _) => id in topics && number > LastNumber(earlier, id)
    case Pong => true
    case _ => false
  }

  function Wire(w: seq<Sent>): seq<Frame> {
    seq(|w|, i requires 0 <= i < |w| => w[i].frame)
  }

  lemma {:induction false} WireLastNumber(w: seq<Sent>, id: nat)
    ensures LastNumber(Wire(w), id) == LastSnap(w, id).number
  {
    if w != [] {
      WireLastNumber(w[..|w| - 1], id);
      assert Wire(w)[..|w| - 1] == Wire(w[..|w| - 1]);
    }
  }

  /** Whatever the server does, a client that knows the ids it subscribed never sees a
      snapshot it must reject. */
  lemma ClientNeverTrips(events: seq<Event>, topics: set<nat>, j: nat)
    requires var s := Run(Opened(), events);
      (forall id: nat :: id in s.registry ==> id in topics) && j < |s.written| && s.written[j].frame.Snap?
    ensures var w := Run(Opened(), events).written; Harmless(topics, Wire(w)[..j], Wire(w)[j])
  {
    RunKeepsInv(events);
    var s := Run(Opened(), events);
    var w := s.written;
    assert GoodNext(w[..j], w[j]);
    var id := w[j].frame.id;
    WireLastNumber(w[..j], id);
    assert Wire(w)[..j] == Wire(w[..j]);
    LastSnapBounds(w, |w|, j, id);
    assert w[..|w|] == w;
    assert IdOK(s, id);
  }

  lemma ShutdownSteps(s: State)
    ensures Apply(Apply(s, Cancel), Clear) ==
      s.(cancelled := true, registry := AllUnsubscribed(s.registry, s.channels), channels := {}, queue := [])
  {
    hide TopicMoves, WriterMoves, AllUnsubscribed;
  }

  // ------------------------------------------------------- the connection object

  /** The connection as its goroutines update it. Each method is one critical section
      (or one unlocked action of the writer). */
  class StateConnection {
    var registry: map<nat, Channel>
    var channels: set<nat>
    var lastID: nat
    var queue: seq<Outbound>
    var wake: bool
    var cancelled: bool
    var reader: Reader
    var writer: Writer
    ghost var written: seq<Sent>
    ghost var accepted: map<nat, string>

    ghost function View(): State
      reads this
    {
      State(registry, channels, lastID, queue, wake, cancelled, reader, writer, written, accepted)
    }

    constructor ()
      ensures View() == Opened()
    {
      registry, channels, lastID, queue, wake, cancelled := map[], {}, 0, [], false, false;
      reader, writer := Idle, Ready;
      written, accepted := [], map[];
    }

    method Append(e: Outbound)
      modifies this`queue, this`wake
      ensures View() == Queued(old(View()), e)
    {
      queue := queue + [e];
      wake := true;
    }

    method QueueFrame(frame: Frame, owner: Option<nat>) returns (queued: bool)
      modifies this`queue, this`wake
      ensures queued == CanQueue(old(View()))
      ensures View() == if queued then Queued(old(View()), Whole(frame, owner)) else old(View())
    {
      if cancelled {
        return false;
      }
      if |queue| >= MAX_QUEUED_FRAMES {
        return false;
      }
      Append(Whole(frame, owner));
      return true;
    }

    method CheckSubscribe(id: nat)
      modifies this
      ensures View() == Apply(old(View()), Event.CheckSubscribe(id))
    {
      if !reader.Idle? {
        return;
      }
      if id <= lastID {
        reader := Refusing(id);
        return;
      }
      lastID := id;
      if |channels| >= CHANNEL_LIMIT {
        reader := Refusing(id);
        return;
      }
      reader := Adding(id);
    }

    method AddChannel(decoded: bool)
      modifies this
      ensures View() == Apply(old(View()), Event.AddChannel(decoded))
    {
      if !reader.Adding? {
        return;
      }
      var id := reader.id;
      if !decoded {
        reader := Refusing(id);
        return;
      }
      reader := Idle;
      if cancelled {
        return;
      }
      registry := registry[id := NewChannel()];
      channels := channels + {id};
    }

    method QueueSubscribeError()
      modifies this
      ensures View() == Apply(old(View()), QueueRefusal)
    {
      if reader.Refusing? {
        var _ := QueueFrame(Suberr(reader.id), None);
        reader := Idle;
      }
    }

    method DropChannel(id: nat)
      modifies this`registry, this`channels
      ensures View() == Unsubscribed(old(View()), id)
    {
      if id !in channels || id !in registry || registry[id].unsubscribed {
        return;
      }
      registry := registry[id := registry[id].(unsubscribed := true, pending := None)];
      channels := channels - {id};
    }

    method Unsubscribe(id: nat)
      modifies this
      ensures View() == Apply(old(View()), Event.Unsubscribe(id))
    {
      if reader.Idle? {
        DropChannel(id);
      }
    }

    method RequestResnap(id: nat)
      modifies this
      ensures View() == Apply(old(View()), Resnap(id))
    {
      if !reader.Idle? || id !in channels || id !in registry || registry[id].unsubscribed || registry[id].terminal {
        return;
      }
      registry := registry[id := registry[id].(forceNext := true)];
    }

    method QueueSnapshot(id: nat, payload: string) returns (verdict: Verdict)
      requires id in registry
      modifies this
      ensures (View(), verdict) == Snapshotted(old(View()), id, payload)
      ensures View() == Apply(old(View()), Event.QueueSnapshot(id, payload))
    {
      var channel := registry[id];
      if cancelled || channel.unsubscribed || channel.terminal || id !in channels {
        return Refused;
      }
      if !channel.forceNext && channel.lastPayload == payload {
        accepted := accepted[id := payload];
        registry := registry[id := channel];
        return Accepted;
      }
      if !channel.queued && |queue| >= MAX_QUEUED_FRAMES {
        return Full;
      }
      var wasQueued := channel.queued;
      channel :=
        channel.(forceNext := false, lastPayload := payload, nextSeq := channel.nextSeq + 1, hasSnapshot := true);
      channel := channel.(pending := Some(Snapshot(channel.nextSeq, payload)), queued := true);
      registry := registry[id := channel];
      accepted := accepted[id := payload];
      if !wasQueued {
        Append(SnapshotOf(id));
      }
      return Accepted;
    }

    method MarkFinished(id: nat)
      modifies this
      ensures View() == Apply(old(View()), Event.MarkFinished(id))
    {
      if id !in registry || !registry[id].topic.Serving? {
        return;
      }
      var channel := registry[id];
      if channel.unsubscribed || cancelled || id !in channels {
        registry := registry[id := channel.(topic := Ended)];
        return;
      }
      registry := registry[id := channel.(terminal := true, topic := Ending(channel.hasSnapshot))];
    }

    method QueueTerminal(id: nat)
      modifies this
      ensures View() == Apply(old(View()), Event.QueueTerminal(id))
    {
      if id !in registry || !registry[id].topic.Ending? {
        return;
      }
      var channel := registry[id];
      var notice := if channel.topic.hadSnapshot then Subend(id) else Suberr(id);
      var queued := QueueFrame(notice, Some(id));
      registry := registry[id := channel.(topic := if queued then Ended else Dropping)];
    }

    method DropFinished(id: nat)
      modifies this
      ensures View() == Apply(old(View()), Event.DropFinished(id))
    {
      if id !in registry || !registry[id].topic.Dropping? {
        return;
      }
      registry := registry[id := registry[id].(topic := Ended)];
      DropChannel(id);
    }

    method Shutdown()
      modifies this
      ensures View() == Apply(Apply(old(View()), Cancel), Clear)
    {
      hide Apply, AllUnsubscribed;
      ShutdownSteps(View());
      cancelled := true;
      registry := AllUnsubscribed(registry, channels);
      channels := {};
      queue := [];
    }

    method NextOutbound()
      modifies this
      ensures View() == Apply(old(View()), Pop)
    {
      if !writer.Ready? {
        return;
      }
      if |queue| == 0 {
        writer := Asleep;
        return;
      }
      writer := Popped(queue[0]);
      queue := queue[1..];
    }

    method TakePending()
      modifies this
      ensures View() == Apply(old(View()), Take)
    {
      if !writer.Popped? {
        return;
      }
      match writer.entry {
        case SnapshotOf(id) =>
          writer := Ready;
          if id in registry {
            var channel := registry[id].(queued := false);
            var pending := None;
            if !channel.unsubscribed && id in channels {
              pending := channel.pending;
              channel := channel.(pending := None);
            }
            registry := registry[id := channel];
            if pending.Some? {
              writer := Writing(Snap(id, pending.value.number, pending.value.data), Some(id));
            }
          }
        case Whole(frame, owner) =>
          var skip := owner.Some? && owner.value in registry && registry[owner.value].unsubscribed;
          writer := if skip then Ready else Writing(frame, owner);
      }
    }

    method WriteFrame(ok: bool)
      modifies this
      ensures View() == Apply(old(View()), Write(ok))
    {
      if !writer.Writing? {
        return;
      }
      if !ok {
        writer := Stopped;
        return;
      }
      written := written + [Sent(writer.frame, writer.owner)];
      writer := if writer.owner.Some? && !writer.frame.Snap? then Wrote(writer.owner.value) else Ready;
    }

    method RemoveTerminated()
      modifies this
      ensures View() == Apply(old(View()), Remove)
    {
      if writer.Wrote? {
        channels := channels - {writer.id};
        writer := Ready;
      }
    }
  }
}
