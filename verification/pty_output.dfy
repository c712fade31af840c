/** Terminal output on its way to the browser: chunks read from the PTY are batched into
    frames, and flow-control credit bounds the bytes the terminal has not yet parsed. */
module PtyOutput {
  import opened Common

  const FRAME_SIZE := 65536
  const INTERACTIVE_FLUSH := 4096
  const CREDIT_BYTES := 393216

  type Bytes = seq<bv8>

  // --------------------------------------------------- the credit and its wake token

  /** `Posting` acknowledgers have lowered the count and not yet posted the token. */
  datatype Waiter = Absent | Checking(count: nat) | Parked(count: nat)

  datatype Credit = Credit(outstanding: nat, wake: bool, posting: nat, waiter: Waiter, stopped: bool,
                           granted: nat, settled: nat)

  datatype CreditEvent =
    | Reserve(count: nat)
    | Look                   // the waiter's critical section
    | Wake                   // it consumes the token
    | SeeStop                // it notices the closed stop channel
    | Acknowledge(count: nat)
    | Post                   // an acknowledger posts the token
    | StopBridge

  function Lowered(outstanding: nat, count: nat): nat {
    if count >= outstanding then 0 else outstanding - count
  }

  function ApplyCredit(limit: nat, s: Credit, e: CreditEvent): Credit {
    match e
    case Reserve(count) => if s.waiter.Absent? && count > 0 then s.(waiter := Checking(count)) else s
    case Look =>
      if !s.waiter.Checking? then s
      else if s.outstanding + s.waiter.count <= limit then
        s.(outstanding := s.outstanding + s.waiter.count, granted := s.granted + s.waiter.count, waiter := Absent)
      else s.(waiter := Parked(s.waiter.count))
    case Wake => if s.waiter.Parked? && s.wake then s.(wake := false, waiter := Checking(s.waiter.count)) else s
    case SeeStop => if s.waiter.Parked? && s.stopped then s.(waiter := Absent) else s
    case Acknowledge(count) =>
      if count == 0 then s
      else s.(outstanding := Lowered(s.outstanding, count), posting := s.posting + 1,
              settled := s.settled + (s.outstanding - Lowered(s.outstanding, count)))
    case Post => if s.posting > 0 then s.(posting := s.posting - 1, wake := true) else s
    case StopBridge => s.(stopped := true)
  }

  function RunCredit(limit: nat, events: seq<CreditEvent>): Credit {
    if events == [] then Credit(0, false, 0, Absent, false, 0, 0)
    else ApplyCredit(limit, RunCredit(limit, events[..|events| - 1]), events[|events| - 1])
  }

  /** The count is exactly what was granted and not yet settled, and never exceeds the
      limit. A parked waiter whose reservation would fit has a token waiting, an
      acknowledger about to post one, or a closed stop channel. */
  predicate CreditOK(limit: nat, s: Credit) {
    && s.outstanding <= limit
    && s.granted == s.settled + s.outstanding
    && (s.waiter.Parked? && s.outstanding + s.waiter.count <= limit ==> s.wake || s.posting > 0 || s.stopped)
  }

  lemma {:induction false} CreditIsBoundedAndAwake(limit: nat, events: seq<CreditEvent>)
    ensures CreditOK(limit, RunCredit(limit, events))
  {
    if events != [] {
      CreditIsBoundedAndAwake(limit, events[..|events| - 1]);
    }
  }

  // ------------------------------------------------------ one reservation, in sequence

  /** The outstanding count after the given acknowledgements. */
  function AfterAcks(outstanding: nat, acks: seq<nat>): nat {
    if acks == [] then outstanding else Lowered(AfterAcks(outstanding, acks[..|acks| - 1]), acks[|acks| - 1])
  }

  /** The reservation is granted after the first `used` acknowledgements that make room. */
  ghost predicate GrantedAfter(limit: nat, outstanding: nat, count: nat, acks: seq<nat>, used: nat) {
    && used <= |acks| && AfterAcks(outstanding, acks[..used]) + count <= limit
    && forall j: nat :: j < used ==> AfterAcks(outstanding, acks[..j]) + count > limit
  }

  ghost predicate NeverFits(limit: nat, outstanding: nat, count: nat, acks: seq<nat>) {
    forall j: nat :: j <= |acks| ==> AfterAcks(outstanding, acks[..j]) + count > limit
  }

  class TerminalOutputCredit {
    var outstanding: nat
    const limit: nat

    constructor (limit: nat)
      ensures this.limit == limit && outstanding == 0
    {
      this.limit, outstanding := limit, 0;
    }

    /** Blocks until the bytes fit; `acks` are the acknowledgements that arrive while it
        waits, after which the bridge is stopped. */
    method ReserveBytes(count: nat, acks: seq<nat>) returns (granted: bool, ghost used: nat)
      modifies this`outstanding
      ensures count == 0 ==> granted && outstanding == old(outstanding)
      ensures count > 0 && granted ==>
        && GrantedAfter(limit, old(outstanding), count, acks, used)
        && outstanding == AfterAcks(old(outstanding), acks[..used]) + count <= limit
      ensures count > 0 && !granted ==> NeverFits(limit, old(outstanding), count, acks)
      ensures !granted ==> outstanding == AfterAcks(old(outstanding), acks)
    {
      used := 0;
      if count <= 0 {
        return true, 0;
      }
      var i := 0;
      while true
        invariant i <= |acks| && outstanding == AfterAcks(old(outstanding), acks[..i])
        invariant forall j: nat :: j < i ==> AfterAcks(old(outstanding), acks[..j]) + count > limit
        decreases |acks| - i
      {
        if outstanding + count <= limit {
          outstanding := outstanding + count;
          return true, i;
        }
        if i == |acks| {
          assert acks[..i] == acks;
          return false, i;
        }
        AcknowledgeBytes(acks[i]);
        assert acks[..i + 1][..i] == acks[..i];
        i := i + 1;
      }
    }

    method AcknowledgeBytes(count: nat)
      modifies this`outstanding
      ensures outstanding == Lowered(old(outstanding), count)
    {
      if count <= 0 {
        return;
      }
      if count >= outstanding {
        outstanding := 0;
      } else {
        outstanding := outstanding - count;
      }
    }
  }

  // ------------------------------------------------------------------- the batching

  /** What happens to one flush: the acknowledgements that arrive while it waits for
      credit, and whether the WebSocket accepts the frame. */
  datatype Reply = Reply(acks: seq<nat>, written: bool)

  datatype Phase = Selecting | Returned(clean: bool)

  datatype Bridge =
    Bridge(pending: Bytes, armed: bool, outstanding: nat, frames: seq<Bytes>, flushes: nat, phase: Phase)

  datatype Event =
    | Chunk(data: Bytes)
    | ChunksClosed
    | TimerFired
    | StopRequested
    | Acked(count: nat)

  function Fits(outstanding: nat, count: nat, acks: seq<nat>): Option<nat>
    decreases |acks|
  {
    if outstanding + count <= CREDIT_BYTES then Some(outstanding + count)
    else if acks == [] then None
    else Fits(Lowered(outstanding, acks[0]), count, acks[1..])
  }

  /** One flush; the flag is false when the loop must return. */
  function Flushed(replies: nat -> Reply, credited: bool, s: Bridge): (Bridge, bool) {
    if s.pending == [] then (s, true)
    else
      var reply := replies(s.flushes);
      var t := s.(armed := false, flushes := s.flushes + 1);
      var room := Fits(s.outstanding, |s.pending|, reply.acks);
      if credited && room.None? then (t.(outstanding := AfterAcks(s.outstanding, reply.acks)), false)
      else
        var u := if credited then t.(outstanding := room.value) else t;
        if reply.written then (u.(pending := [], frames := u.frames + [u.pending]), true) else (u, false)
  }

  function Settled(replies: nat -> Reply, credited: bool, s: Bridge): (Bridge, bool) {
    if 0 < |s.pending| <= INTERACTIVE_FLUSH then Flushed(replies, credited, s)
    else if s.pending != [] then (s.(armed := true), true)
    else (s, true)
  }

  function Appended(replies: nat -> Reply, credited: bool, s: Bridge, chunk: Bytes): (Bridge, bool)
    requires |s.pending| < FRAME_SIZE
    decreases |chunk|
  {
    if chunk == [] then Settled(replies, credited, s)
    else
      var space := if FRAME_SIZE - |s.pending| > |chunk| then |chunk| else FRAME_SIZE - |s.pending|;
      var t := s.(pending := s.pending + chunk[..space]);
      if |t.pending| == FRAME_SIZE then
        var r := Flushed(replies, credited, t);
        if r.1 then Appended(replies, credited, r.0, chunk[space..]) else r
      else Appended(replies, credited, t, chunk[space..])
  }

  function Continue(r: (Bridge, bool)): Bridge {
    if r.1 then r.0 else r.0.(phase := Returned(false), armed := false)
  }

  function Apply(replies: nat -> Reply, credited: bool, s: Bridge, e: Event): Bridge
    requires |s.pending| < FRAME_SIZE || s.phase.Returned?
  {
    if e.Acked? then s.(outstanding := Lowered(s.outstanding, e.count))
    else if s.phase.Returned? then s
    else
      match e
      case Chunk(data) => Continue(Appended(replies, credited, s, data))
      case ChunksClosed =>
        var r := Flushed(replies, credited, s);
        r.0.(phase := Returned(r.1), armed := false)
      case TimerFired => if s.armed then Continue(Flushed(replies, credited, s.(armed := false))) else s
      case StopRequested => s.(phase := Returned(false), armed := false)
      case Acked(_) => s
  }

  function Opened(): Bridge {
    Bridge([], false, 0, [], 0, Selecting)
  }

  function Run(replies: nat -> Reply, credited: bool, events: seq<Event>): (s: Bridge)
    ensures |s.pending| < FRAME_SIZE || s.phase.Returned?
  {
    if events == [] then Opened()
    else
      var s := Run(replies, credited, events[..|events| - 1]);
      StepKeepsRoom(replies, credited, s, events[|events| - 1]);
      Apply(replies, credited, s, events[|events| - 1])
  }

  lemma FlushedRoom(replies: nat -> Reply, credited: bool, s: Bridge)
    ensures var r := Flushed(replies, credited, s);
      && r.0.phase == s.phase
      && (r.1 ==> r.0.pending == [])
      && (s.pending == [] ==> r == (s, true))
      && (s.pending != [] && r.1 ==> !r.0.armed && r.0.frames == s.frames + [s.pending])
      && (!r.1 ==> r.0.pending == s.pending && r.0.frames == s.frames)
      && (s.outstanding <= CREDIT_BYTES ==> r.0.outstanding <= CREDIT_BYTES)
  {
    FitsIsBounded(s.outstanding, |s.pending|, replies(s.flushes).acks);
    AfterAcksIsBounded(s.outstanding, replies(s.flushes).acks);
    hide Fits;
  }

  lemma {:induction false} FitsIsBounded(outstanding: nat, count: nat, acks: seq<nat>)
    ensures var f := Fits(outstanding, count, acks); f.Some? ==> count <= f.value <= CREDIT_BYTES
    decreases |acks|
  {
    if acks != [] {
      FitsIsBounded(Lowered(outstanding, acks[0]), count, acks[1..]);
    }
  }

  lemma {:induction false} AfterAcksIsBounded(outstanding: nat, acks: seq<nat>)
    ensures AfterAcks(outstanding, acks) <= outstanding
  {
    if acks != [] {
      AfterAcksIsBounded(outstanding, acks[..|acks| - 1]);
    }
  }

  /** How a stretch of the loop moves `data` from the input to frames and pending. */
  ghost predicate Moved(s: Bridge, t: Bridge, data: Bytes, all: bool) {
    && s.frames <= t.frames
    && (forall i :: |s.frames| <= i < |t.frames| ==> 0 < |t.frames[i]| <= FRAME_SIZE)
    && (all ==> Joined(t.frames) + t.pending == Joined(s.frames) + s.pending + data)
    && Joined(t.frames) <= Joined(s.frames) + s.pending + data
  }

  function Joined(frames: seq<Bytes>): Bytes {
    if frames == [] then [] else Joined(frames[..|frames| - 1]) + frames[|frames| - 1]
  }

  lemma JoinedAppend(frames: seq<Bytes>, frame: Bytes)
    ensures Joined(frames + [frame]) == Joined(frames) + frame
  {
    assert (frames + [frame])[..|frames|] == frames;
  }

  lemma FlushMoves(replies: nat -> Reply, credited: bool, s: Bridge)
    requires |s.pending| <= FRAME_SIZE
    ensures var r := Flushed(replies, credited, s); Moved(s, r.0, [], r.1)
  {
    FlushedRoom(replies, credited, s);
    JoinedAppend(s.frames, s.pending);
    var r := Flushed(replies, credited, s);
    var a := Joined(s.frames);
    hide Flushed, Joined;
    assert a + s.pending + [] == a + s.pending;
    if s.pending == [] {
      assert a + s.pending == a;
    } else if r.1 {
      assert Joined(r.0.frames) + [] == a + s.pending;
    }
  }

  lemma FillMoves(s: Bridge, part: Bytes)
    ensures Moved(s, s.(pending := s.pending + part), part, true)
  {
    var a := Joined(s.frames);
    hide Joined;
    assert a + (s.pending + part) == a + s.pending + part;
  }

  lemma MovesChain(s: Bridge, t: Bridge, u: Bridge, a: Bytes, b: Bytes, rest: Bytes, all: bool)
    requires Moved(s, t, a, true) && Moved(t, u, b, all) && (all ==> rest == [])
    ensures Moved(s, u, a + b + rest, all)
  {
    hide Joined;
    var js := Joined(s.frames) + s.pending;
    assert js + (a + b + rest) == js + a + b + rest;
    assert Joined(u.frames) <= js + a + b;
    if all {
      assert a + b + rest == a + b;
      assert js + a + b == js + (a + b);
    }
    forall i | |s.frames| <= i < |u.frames| ensures 0 < |u.frames[i]| <= FRAME_SIZE {
      if i < |t.frames| {
        assert u.frames[i] == t.frames[i];
      }
    }
  }

  /** What holds whenever the loop is back at its select. */
  predicate AtSelect(s: Bridge) {
    && |s.pending| < FRAME_SIZE
    && (s.pending != [] ==> s.armed && |s.pending| > INTERACTIVE_FLUSH)
    && (s.armed ==> s.pending != [])
  }

  lemma SettleMoves(replies: nat -> Reply, credited: bool, s: Bridge)
    requires |s.pending| < FRAME_SIZE && (s.pending == [] ==> !s.armed)
    ensures var r := Settled(replies, credited, s);
      Moved(s, r.0, [], r.1) && (r.1 ==> AtSelect(r.0)) && r.0.phase == s.phase
    ensures s.outstanding <= CREDIT_BYTES ==> Settled(replies, credited, s).0.outstanding <= CREDIT_BYTES
  {
    FlushMoves(replies, credited, s);
    FlushedRoom(replies, credited, s);
    hide Flushed, Moved;
    StayMoves(s, true);
    StayMoves(s, s.armed);
    assert s.(armed := s.armed) == s;
  }

  lemma StayMoves(s: Bridge, armed: bool)
    ensures Moved(s, s.(armed := armed), [], true)
  {
    var a := Joined(s.frames);
    assert a + s.pending + [] == a + s.pending;
  }

  /** The chunk-splitting loop moves the whole chunk, or stops at a failed flush. */
  lemma {:induction false} AppendMoves(replies: nat -> Reply, credited: bool, s: Bridge, chunk: Bytes)
    requires |s.pending| < FRAME_SIZE && (s.pending == [] ==> !s.armed)
    ensures var r := Appended(replies, credited, s, chunk);
      Moved(s, r.0, chunk, r.1) && (r.1 ==> AtSelect(r.0)) && r.0.phase == s.phase
    ensures s.outstanding <= CREDIT_BYTES ==> Appended(replies, credited, s, chunk).0.outstanding <= CREDIT_BYTES
    decreases |chunk|
  {
    hide Flushed, Settled, Moved, AtSelect;
    if chunk == [] {
      SettleMoves(replies, credited, s);
    } else {
      var space := if FRAME_SIZE - |s.pending| > |chunk| then |chunk| else FRAME_SIZE - |s.pending|;
      var part, rest := chunk[..space], chunk[space..];
      var t := s.(pending := s.pending + part);
      assert chunk == part + rest && part + [] == part;
      assert part + rest + [] == chunk && part + [] + rest == chunk && part + [] + [] == part;
      FillMoves(s, part);
      if |t.pending| == FRAME_SIZE {
        FlushMoves(replies, credited, t);
        FlushedRoom(replies, credited, t);
        var r := Flushed(replies, credited, t);
        if r.1 {
          MovesChain(s, t, r.0, part, [], [], true);
          AppendMoves(replies, credited, r.0, rest);
          var u := Appended(replies, credited, r.0, rest);
          MovesChain(s, r.0, u.0, part, rest, [], u.1);
        } else {
          MovesChain(s, t, r.0, part, [], rest, false);
        }
      } else {
        AppendMoves(replies, credited, t, rest);
        var u := Appended(replies, credited, t, rest);
        MovesChain(s, t, u.0, part, rest, [], u.1);
      }
    }
  }

  lemma StepKeepsRoom(replies: nat -> Reply, credited: bool, s: Bridge, e: Event)
    requires |s.pending| < FRAME_SIZE || s.phase.Returned?
    ensures var t := Apply(replies, credited, s, e); |t.pending| < FRAME_SIZE || t.phase.Returned?
  {
    if e.Chunk? && s.phase.Selecting? {
      AppendKeepsRoom(replies, credited, s, e.data);
    }
    FlushedRoom(replies, credited, s.(armed := false));
    hide Flushed, Appended;
  }

  lemma {:induction false} AppendKeepsRoom(replies: nat -> Reply, credited: bool, s: Bridge, chunk: Bytes)
    requires |s.pending| < FRAME_SIZE
    ensures var r := Appended(replies, credited, s, chunk); r.1 ==> |r.0.pending| < FRAME_SIZE
    decreases |chunk|
  {
    hide Flushed;
    if chunk == [] {
      FlushedRoom(replies, credited, s);
    } else {
      var space := if FRAME_SIZE - |s.pending| > |chunk| then |chunk| else FRAME_SIZE - |s.pending|;
      var t := s.(pending := s.pending + chunk[..space]);
      if |t.pending| == FRAME_SIZE {
        FlushedRoom(replies, credited, t);
        var r := Flushed(replies, credited, t);
        if r.1 {
          AppendKeepsRoom(replies, credited, r.0, chunk[space..]);
        }
      } else {
        AppendKeepsRoom(replies, credited, t, chunk[space..]);
      }
    }
  }

  // --------------------------------------------------------------- main statements

  /** The bytes of the chunks taken from the channel before the loop returned. */
  function Input(replies: nat -> Reply, credited: bool, events: seq<Event>): Bytes {
    if events == [] then []
    else
      var s, last := Run(replies, credited, events[..|events| - 1]), events[|events| - 1];
      Input(replies, credited, events[..|events| - 1]) + if last.Chunk? && s.phase.Selecting? then last.data else []
  }

  /** The state of a run against the input it consumed. */
  ghost predicate Faithful(s: Bridge, input: Bytes) {
    && (forall i :: 0 <= i < |s.frames| ==> 0 < |s.frames[i]| <= FRAME_SIZE)
    && Joined(s.frames) <= input
    && (s.phase.Selecting? ==> AtSelect(s) && Joined(s.frames) + s.pending == input)
    && (s.phase == Returned(true) ==> Joined(s.frames) == input)
    && s.outstanding <= CREDIT_BYTES
  }

  lemma MovedKeepsFaithful(s: Bridge, t: Bridge, input: Bytes, data: Bytes, all: bool)
    requires Faithful(s, input) && s.phase.Selecting? && Moved(s, t, data, all)
    requires t.outstanding <= CREDIT_BYTES && t.phase != Returned(true)
    requires t.phase.Selecting? ==> all && AtSelect(t)
    ensures Faithful(t, input + data)
  {
    hide Joined;
    forall i | 0 <= i < |t.frames| ensures 0 < |t.frames[i]| <= FRAME_SIZE {
      if i < |s.frames| {
        assert t.frames[i] == s.frames[i];
      }
    }
  }

  lemma ChunkIsFaithful(replies: nat -> Reply, credited: bool, s: Bridge, data: Bytes, input: Bytes)
    requires Faithful(s, input) && s.phase.Selecting?
    ensures Faithful(Apply(replies, credited, s, Chunk(data)), input + data)
  {
    AppendMoves(replies, credited, s, data);
    var r := Appended(replies, credited, s, data);
    hide Appended, Joined, AtSelect;
    var t := Apply(replies, credited, s, Chunk(data));
    assert Moved(s, t, data, r.1);
    hide Moved;
    MovedKeepsFaithful(s, t, input, data, r.1);
  }

  lemma TimerIsFaithful(replies: nat -> Reply, credited: bool, s: Bridge, input: Bytes)
    requires Faithful(s, input) && s.phase.Selecting?
    ensures Faithful(Apply(replies, credited, s, TimerFired), input)
  {
    var u := s.(armed := false);
    FlushMoves(replies, credited, u);
    FlushedRoom(replies, credited, u);
    var r := Flushed(replies, credited, u);
    hide Flushed, Joined;
    var t := Apply(replies, credited, s, TimerFired);
    if s.armed {
      assert Moved(s, t, [], r.1);
      hide Moved;
      MovedKeepsFaithful(s, t, input, [], r.1);
      assert input + [] == input;
    }
  }

  lemma CloseIsFaithful(replies: nat -> Reply, credited: bool, s: Bridge, input: Bytes)
    requires Faithful(s, input) && s.phase.Selecting?
    ensures Faithful(Apply(replies, credited, s, ChunksClosed), input)
  {
    FlushMoves(replies, credited, s);
    FlushedRoom(replies, credited, s);
    var r := Flushed(replies, credited, s);
    hide Flushed, Joined;
    var t := Apply(replies, credited, s, ChunksClosed);
    assert input + [] == input;
    assert Moved(s, r.0, [], r.1);
    if r.1 {
      assert Joined(t.frames) + [] == Joined(t.frames);
    }
    forall i | 0 <= i < |t.frames| ensures 0 < |t.frames[i]| <= FRAME_SIZE {
      if i < |s.frames| {
        assert t.frames[i] == s.frames[i];
      }
    }
  }

  lemma {:induction false} RunIsFaithful(replies: nat -> Reply, credited: bool, events: seq<Event>)
    ensures Faithful(Run(replies, credited, events), Input(replies, credited, events))
  {
    if events != [] {
      var before, e := events[..|events| - 1], events[|events| - 1];
      var s, input := Run(replies, credited, before), Input(replies, credited, before);
      RunIsFaithful(replies, credited, before);
      assert input + [] == input;
      if e.Acked? {
        LowerKeepsFaithful(s, e.count, input);
      } else if s.phase.Selecting? {
        hide Faithful, Flushed, Appended;
        match e
        case Chunk(data) => ChunkIsFaithful(replies, credited, s, data, input);
        case ChunksClosed => CloseIsFaithful(replies, credited, s, input);
        case TimerFired => TimerIsFaithful(replies, credited, s, input);
        case StopRequested => StopIsFaithful(s, input);
      }
    }
  }

  lemma LowerKeepsFaithful(s: Bridge, count: nat, input: Bytes)
    requires Faithful(s, input)
    ensures Faithful(s.(outstanding := Lowered(s.outstanding, count)), input)
  {
  }

  lemma StopIsFaithful(s: Bridge, input: Bytes)
    requires Faithful(s, input)
    ensures Faithful(s.(phase := Returned(false), armed := false), input)
  {
  }

  /** No byte is lost, invented or reordered: whatever chunks arrive, whenever timers fire
      and writes fail, the written frames join to a prefix of the input, to the input less
      the pending bytes while the loop runs, and to all of it on a clean close. */
  lemma OutputIsConserved(replies: nat -> Reply, credited: bool, events: seq<Event>)
    ensures var s, input := Run(replies, credited, events), Input(replies, credited, events);
      && Joined(s.frames) <= input
      && (s.phase.Selecting? ==> Joined(s.frames) + s.pending == input)
      && (s.phase == Returned(true) ==> Joined(s.frames) == input)
      && (forall i :: 0 <= i < |s.frames| ==> 0 < |s.frames[i]| <= FRAME_SIZE)
  {
    RunIsFaithful(replies, credited, events);
  }

  /** Unflushed bytes always have an armed timer when the loop waits, are more than an
      interactive echo and less than a full frame; credit stays within its limit. */
  lemma PendingHasTimer(replies: nat -> Reply, credited: bool, events: seq<Event>)
    ensures var s := Run(replies, credited, events);
      && (s.phase.Selecting? && s.pending != [] ==> s.armed && INTERACTIVE_FLUSH < |s.pending| < FRAME_SIZE)
      && s.outstanding <= CREDIT_BYTES
  {
    RunIsFaithful(replies, credited, events);
  }

  /** A flush that waits for credit always gets it once everything is acknowledged. */
  lemma FullAcknowledgementUnblocks(outstanding: nat, count: nat, acks: seq<nat>)
    requires count <= FRAME_SIZE && acks != [] && acks[0] >= outstanding
    ensures Fits(outstanding, count, acks).Some?
  {
  }

  // ------------------------------------------------------- when a flush goes through

  function Sum(acks: seq<nat>): nat {
    if acks == [] then 0 else Sum(acks[..|acks| - 1]) + acks[|acks| - 1]
  }

  /** What is left of the outstanding bytes when so many are acknowledged. */
  function Left(outstanding: nat, acknowledged: nat): nat {
    if acknowledged >= outstanding then 0 else outstanding - acknowledged
  }

  /** Acknowledgements add up: only their sum matters, and none is held over. */
  lemma {:induction false} AcksAddUp(outstanding: nat, acks: seq<nat>)
    ensures AfterAcks(outstanding, acks) == Left(outstanding, Sum(acks))
  {
    if acks != [] {
      AcksAddUp(outstanding, acks[..|acks| - 1]);
    }
  }

  lemma {:induction false} SumFirst(acks: seq<nat>)
    requires acks != []
    ensures Sum(acks) == acks[0] + Sum(acks[1..])
  {
    if |acks| == 1 {
      assert acks[..0] == [] && acks[1..] == [];
      assert Sum(acks[..0]) == 0;
    } else {
      SumFirst(acks[..|acks| - 1]);
      assert acks[1..][..|acks| - 2] == acks[..|acks| - 1][1..];
    }
  }

  /** A reservation that waits is granted exactly when the acknowledgements that arrive
      before the stop leave room for it. */
  lemma {:induction false} GrantedExactly(outstanding: nat, count: nat, acks: seq<nat>)
    ensures Fits(outstanding, count, acks).Some? <==> Left(outstanding, Sum(acks)) + count <= CREDIT_BYTES
    decreases |acks|
  {
    if acks != [] {
      SumFirst(acks);
      GrantedExactly(Left(outstanding, acks[0]), count, acks[1..]);
      assert Lowered(outstanding, acks[0]) == Left(outstanding, acks[0]);
    }
  }

  /** The flush of these bytes gets its credit, if any is needed, and the frame is accepted. */
  predicate GoesThrough(reply: Reply, credited: bool, outstanding: nat, count: nat) {
    count == 0 || ((credited ==> Left(outstanding, Sum(reply.acks)) + count <= CREDIT_BYTES) && reply.written)
  }

  lemma FlushGoesThrough(replies: nat -> Reply, credited: bool, s: Bridge)
    ensures Flushed(replies, credited, s).1 <==>
      GoesThrough(replies(s.flushes), credited, s.outstanding, |s.pending|)
  {
    GrantedExactly(s.outstanding, |s.pending|, replies(s.flushes).acks);
    hide Fits, Left, Sum;
  }

  lemma RunAppend(replies: nat -> Reply, credited: bool, events: seq<Event>, e: Event)
    ensures var s := Run(replies, credited, events);
      && (|s.pending| < FRAME_SIZE || s.phase.Returned?)
      && Run(replies, credited, events + [e]) == Apply(replies, credited, s, e)
  {
    assert (events + [e])[..|events|] == events;
    hide Apply;
  }

  lemma InputAppend(replies: nat -> Reply, credited: bool, events: seq<Event>, e: Event)
    requires !e.Chunk?
    ensures Input(replies, credited, events + [e]) == Input(replies, credited, events)
  {
    assert (events + [e])[..|events|] == events;
    assert Input(replies, credited, events) + [] == Input(replies, credited, events);
    hide Run;
  }

  /** The end of the PTY output, on every run: what is pending is flushed first, and the loop
      ends cleanly, with the whole input written, exactly when that flush goes through.
      Otherwise no further frame is written. */
  lemma ClosingFlushesExactly(replies: nat -> Reply, credited: bool, events: seq<Event>)
    requires Run(replies, credited, events).phase.Selecting?
    ensures var s, t := Run(replies, credited, events), Run(replies, credited, events + [ChunksClosed]);
      var through := GoesThrough(replies(s.flushes), credited, s.outstanding, |s.pending|);
      && t.phase == Returned(through) && !t.armed
      && (through ==> Joined(t.frames) == Input(replies, credited, events))
      && (!through ==> t.frames == s.frames)
  {
    hide Run, Input, GoesThrough, Flushed, Appended;
    var s := Run(replies, credited, events);
    RunAppend(replies, credited, events, ChunksClosed);
    InputAppend(replies, credited, events, ChunksClosed);
    FlushGoesThrough(replies, credited, s);
    FlushedRoom(replies, credited, s);
    OutputIsConserved(replies, credited, events + [ChunksClosed]);
  }

  /** The batch timer, on every run: if armed it flushes what is pending, and the loop goes
      on, with everything written, exactly when that flush goes through. */
  lemma TimerFlushesExactly(replies: nat -> Reply, credited: bool, events: seq<Event>)
    requires Run(replies, credited, events).phase.Selecting?
    ensures var s, t := Run(replies, credited, events), Run(replies, credited, events + [TimerFired]);
      var through := GoesThrough(replies(s.flushes), credited, s.outstanding, |s.pending|);
      && (!s.armed ==> t == s && s.pending == [])
      && (s.armed && through ==>
            t.phase.Selecting? && t.pending == [] && Joined(t.frames) == Input(replies, credited, events))
      && (s.armed && !through ==> t.phase == Returned(false) && t.frames == s.frames)
  {
    hide Run, Input, GoesThrough, Flushed, Appended;
    var s := Run(replies, credited, events);
    RunAppend(replies, credited, events, TimerFired);
    InputAppend(replies, credited, events, TimerFired);
    FlushGoesThrough(replies, credited, s.(armed := false));
    FlushedRoom(replies, credited, s.(armed := false));
    PendingHasTimer(replies, credited, events);
    OutputIsConserved(replies, credited, events + [TimerFired]);
    var t := Run(replies, credited, events + [TimerFired]);
    assert Joined(t.frames) + [] == Joined(t.frames);
  }

  /** A stop ends the loop at once; a loop that has ended writes nothing more. */
  lemma StopWritesNothing(replies: nat -> Reply, credited: bool, events: seq<Event>, e: Event)
    requires e.StopRequested? || Run(replies, credited, events).phase.Returned?
    ensures var s, t := Run(replies, credited, events), Run(replies, credited, events + [e]);
      && t.frames == s.frames && t.phase.Returned?
      && (s.phase.Returned? ==> t.phase == s.phase)
      && (s.phase.Selecting? ==> t.phase == Returned(false))
  {
    RunAppend(replies, credited, events, e);
    hide Run, Flushed, Appended;
  }

  // ------------------------------------------------------------ how a chunk is cut up

  /** The sizes of the frames and of the rest that so many bytes are cut into. */
  ghost predicate CutUp(before: Bridge, after: Bridge, total: nat) {
    var full, rest := total / FRAME_SIZE, total % FRAME_SIZE;
    && |after.frames| == |before.frames| + full + (if 0 < rest <= INTERACTIVE_FLUSH then 1 else 0)
    && (forall i :: |before.frames| <= i < |before.frames| + full ==> |after.frames[i]| == FRAME_SIZE)
    && (0 < rest <= INTERACTIVE_FLUSH ==> |after.frames[|before.frames| + full]| == rest)
    && |after.pending| == (if rest > INTERACTIVE_FLUSH then rest else 0)
  }

  lemma SettledIsCut(replies: nat -> Reply, credited: bool, s: Bridge)
    requires |s.pending| < FRAME_SIZE && Settled(replies, credited, s).1
    ensures CutUp(s, Settled(replies, credited, s).0, |s.pending|)
  {
    FlushedRoom(replies, credited, s);
    hide Flushed;
    assert |s.pending| / FRAME_SIZE == 0 && |s.pending| % FRAME_SIZE == |s.pending|;
  }

  lemma OneMoreFrame(total: nat)
    requires total >= FRAME_SIZE
    ensures total / FRAME_SIZE == (total - FRAME_SIZE) / FRAME_SIZE + 1
    ensures total % FRAME_SIZE == (total - FRAME_SIZE) % FRAME_SIZE
  {
  }

  lemma CutChains(s: Bridge, t: Bridge, u: Bridge, total: nat)
    requires total >= FRAME_SIZE && |t.frames| == |s.frames| + 1 && |t.frames[|s.frames|]| == FRAME_SIZE
    requires t.frames <= u.frames && CutUp(t, u, total - FRAME_SIZE)
    ensures CutUp(s, u, total)
  {
    OneMoreFrame(total);
    assert u.frames[|s.frames|] == t.frames[|s.frames|];
  }

  /** A chunk that goes through is cut, together with what was pending, into as many full
      frames as it fills; a small rest is a frame of its own, a larger one stays pending. */
  lemma {:induction false} ChunkIsCutUp(replies: nat -> Reply, credited: bool, s: Bridge, chunk: Bytes)
    requires |s.pending| < FRAME_SIZE && (s.pending == [] ==> !s.armed)
    requires Appended(replies, credited, s, chunk).1
    ensures CutUp(s, Appended(replies, credited, s, chunk).0, |s.pending| + |chunk|)
    decreases |chunk|, 1
  {
    hide Flushed, Settled, CutUp, Moved;
    if chunk == [] {
      SettledIsCut(replies, credited, s);
    } else {
      var space := if FRAME_SIZE - |s.pending| > |chunk| then |chunk| else FRAME_SIZE - |s.pending|;
      var t := s.(pending := s.pending + chunk[..space]);
      if |t.pending| == FRAME_SIZE {
        FlushedRoom(replies, credited, t);
        FullFrameIsCut(replies, credited, s, t, chunk[space..]);
      } else {
        ChunkIsCutUp(replies, credited, t, chunk[space..]);
        SameStart(s, t, Appended(replies, credited, s, chunk).0, |s.pending| + |chunk|);
      }
    }
  }

  lemma FullFrameIsCut(replies: nat -> Reply, credited: bool, s: Bridge, t: Bridge, rest: Bytes)
    requires |t.pending| == FRAME_SIZE && t.frames == s.frames && Flushed(replies, credited, t).1
    requires |Flushed(replies, credited, t).0.pending| < FRAME_SIZE
    requires Appended(replies, credited, Flushed(replies, credited, t).0, rest).1
    ensures CutUp(s, Appended(replies, credited, Flushed(replies, credited, t).0, rest).0, FRAME_SIZE + |rest|)
    decreases |rest|, 2
  {
    FlushedRoom(replies, credited, t);
    hide Flushed, Settled, CutUp, Moved, Appended;
    var r := Flushed(replies, credited, t).0;
    ChunkIsCutUp(replies, credited, r, rest);
    AppendMoves(replies, credited, r, rest);
    MovedExtends(r, Appended(replies, credited, r, rest).0, rest, true);
    CutChains(s, r, Appended(replies, credited, r, rest).0, FRAME_SIZE + |rest|);
  }

  lemma MovedExtends(s: Bridge, t: Bridge, data: Bytes, all: bool)
    requires Moved(s, t, data, all)
    ensures s.frames <= t.frames
  {
  }

  lemma SameStart(s: Bridge, t: Bridge, u: Bridge, total: nat)
    requires t.frames == s.frames && CutUp(t, u, total)
    ensures CutUp(s, u, total)
  {
  }

  // ------------------------------------------------------------- a willing browser

  /** Every frame is accepted, and every wait for credit is met with enough of it. */
  ghost predicate Willing(replies: nat -> Reply, credited: bool) {
    forall n: nat :: replies(n).written && (credited ==> Sum(replies(n).acks) >= CREDIT_BYTES)
  }

  lemma WillingFlush(replies: nat -> Reply, credited: bool, s: Bridge)
    requires Willing(replies, credited) && |s.pending| <= FRAME_SIZE && s.outstanding <= CREDIT_BYTES
    ensures Flushed(replies, credited, s).1
  {
    FlushGoesThrough(replies, credited, s);
    assert replies(s.flushes).written;
    hide Flushed, Sum;
  }

  lemma {:induction false} WillingChunk(replies: nat -> Reply, credited: bool, s: Bridge, chunk: Bytes)
    requires Willing(replies, credited) && |s.pending| < FRAME_SIZE && s.outstanding <= CREDIT_BYTES
    ensures Appended(replies, credited, s, chunk).1
    decreases |chunk|
  {
    hide Flushed, Willing;
    if chunk == [] {
      WillingFlush(replies, credited, s);
    } else {
      var space := if FRAME_SIZE - |s.pending| > |chunk| then |chunk| else FRAME_SIZE - |s.pending|;
      var t := s.(pending := s.pending + chunk[..space]);
      if |t.pending| == FRAME_SIZE {
        WillingFlush(replies, credited, t);
        FlushedRoom(replies, credited, t);
        WillingChunk(replies, credited, Flushed(replies, credited, t).0, chunk[space..]);
      } else {
        WillingChunk(replies, credited, t, chunk[space..]);
      }
    }
  }

  function Chunks(events: seq<Event>): Bytes {
    if events == [] then []
    else Chunks(events[..|events| - 1]) + if events[|events| - 1].Chunk? then events[|events| - 1].data else []
  }

  lemma {:induction false} WillingRun(replies: nat -> Reply, credited: bool, events: seq<Event>)
    requires Willing(replies, credited)
    requires forall e :: e in events ==> e.Chunk? || e.TimerFired? || e.Acked?
    ensures Run(replies, credited, events).phase.Selecting?
    ensures Input(replies, credited, events) == Chunks(events)
  {
    hide Willing, Flushed, Appended;
    if events != [] {
      var init, e := events[..|events| - 1], events[|events| - 1];
      assert events == init + [e];
      WillingRun(replies, credited, init);
      RunIsFaithful(replies, credited, init);
      RunAppend(replies, credited, init, e);
      PendingHasTimer(replies, credited, init);
      var s := Run(replies, credited, init);
      if e.Chunk? {
        WillingChunk(replies, credited, s, e.data);
        AppendMoves(replies, credited, s, e.data);
      } else if e.TimerFired? {
        WillingFlush(replies, credited, s.(armed := false));
        FlushedRoom(replies, credited, s.(armed := false));
      }
    }
  }

  /** With a willing browser nothing is held back: the loop never ends by itself, and when the
      PTY output ends, every byte of every chunk has been written and the close is clean. */
  lemma WillingBrowserGetsEverything(replies: nat -> Reply, credited: bool, events: seq<Event>)
    requires Willing(replies, credited)
    requires forall e :: e in events ==> e.Chunk? || e.TimerFired? || e.Acked?
    ensures var t := Run(replies, credited, events + [ChunksClosed]);
      t.phase == Returned(true) && Joined(t.frames) == Chunks(events)
  {
    hide Run, Input, Chunks, Willing;
    WillingRun(replies, credited, events);
    PendingHasTimer(replies, credited, events);
    ClosingFlushesExactly(replies, credited, events);
    var s := Run(replies, credited, events);
    RunAppend(replies, credited, events, ChunksClosed);
    WillingFlush(replies, credited, s);
    FlushGoesThrough(replies, credited, s);
  }

  // -------------------------------------------------------- what the credit counts

  /** An acknowledgement lowers the count by the bytes it names and touches nothing else. */
  lemma AcknowledgementTakes(replies: nat -> Reply, credited: bool, events: seq<Event>, count: nat)
    ensures var s, t := Run(replies, credited, events), Run(replies, credited, events + [Acked(count)]);
      t == s.(outstanding := Left(s.outstanding, count))
  {
    RunAppend(replies, credited, events, Acked(count));
    hide Run, Flushed, Appended;
  }

  ghost predicate Unacknowledged(replies: nat -> Reply) {
    forall n: nat :: replies(n).acks == []
  }

  lemma FlushCharges(replies: nat -> Reply, s: Bridge)
    requires Unacknowledged(replies) && Flushed(replies, true, s).1
    ensures var t := Flushed(replies, true, s).0;
      t.outstanding - |Joined(t.frames)| == s.outstanding - |Joined(s.frames)|
  {
    assert replies(s.flushes).acks == [];
    JoinedAppend(s.frames, s.pending);
    hide Joined;
  }

  lemma {:induction false} ChunkCharges(replies: nat -> Reply, s: Bridge, chunk: Bytes)
    requires Unacknowledged(replies) && |s.pending| < FRAME_SIZE && Appended(replies, true, s, chunk).1
    ensures var t := Appended(replies, true, s, chunk).0;
      t.outstanding - |Joined(t.frames)| == s.outstanding - |Joined(s.frames)|
    decreases |chunk|
  {
    hide Flushed, Joined, Unacknowledged;
    if chunk == [] {
      if 0 < |s.pending| <= INTERACTIVE_FLUSH {
        FlushCharges(replies, s);
      }
    } else {
      var space := if FRAME_SIZE - |s.pending| > |chunk| then |chunk| else FRAME_SIZE - |s.pending|;
      var t := s.(pending := s.pending + chunk[..space]);
      if |t.pending| == FRAME_SIZE {
        FlushCharges(replies, t);
        FlushedRoom(replies, true, t);
        ChunkCharges(replies, Flushed(replies, true, t).0, chunk[space..]);
      } else {
        ChunkCharges(replies, t, chunk[space..]);
      }
    }
  }

  /** The credit counts exactly the bytes on the wire: as long as nothing is acknowledged,
      what is outstanding is the length of the frames written. */
  lemma {:induction false} CreditCountsFrames(replies: nat -> Reply, events: seq<Event>)
    requires Unacknowledged(replies) && forall e :: e in events ==> !e.Acked?
    ensures var s := Run(replies, true, events); s.phase.Selecting? ==> s.outstanding == |Joined(s.frames)|
  {
    hide Flushed, Appended, Joined, Unacknowledged;
    if events == [] {
      assert Joined([]) == [] by { NothingJoined(); }
    } else {
      var init, e := events[..|events| - 1], events[|events| - 1];
      assert events == init + [e];
      CreditCountsFrames(replies, init);
      RunAppend(replies, true, init, e);
      RunIsFaithful(replies, true, init);
      var s := Run(replies, true, init);
      var t := Run(replies, true, events);
      if s.phase.Selecting? && t.phase.Selecting? {
        if e.Chunk? {
          ChunkCharges(replies, s, e.data);
        } else if e.TimerFired? && s.armed {
          FlushCharges(replies, s.(armed := false));
        }
      }
    }
  }

  lemma NothingJoined()
    ensures Joined([]) == []
  {
  }

  // --------------------------------------------------------- a reservation is roused

  lemma CreditAppend(limit: nat, events: seq<CreditEvent>, e: CreditEvent)
    ensures RunCredit(limit, events + [e]) == ApplyCredit(limit, RunCredit(limit, events), e)
  {
    assert (events + [e])[..|events|] == events;
    hide ApplyCredit;
  }

  /** On every run an acknowledgement takes the bytes it names off the count, as far as there
      are any, and a parked reservation that then fits is granted as soon as the token has
      been posted and the waiter runs. */
  lemma RousedReservationIsGranted(limit: nat, events: seq<CreditEvent>, count: nat)
    requires count > 0
    requires var s := RunCredit(limit, events);
      s.waiter.Parked? && !s.stopped && Left(s.outstanding, count) + s.waiter.count <= limit
    ensures var s := RunCredit(limit, events);
      var t := RunCredit(limit, events + [Acknowledge(count)] + [Post] + [Wake] + [Look]);
      && t.waiter.Absent? && t.granted == s.granted + s.waiter.count
      && t.outstanding == Left(s.outstanding, count) + s.waiter.count
  {
    CreditAppend(limit, events, Acknowledge(count));
    CreditAppend(limit, events + [Acknowledge(count)], Post);
    CreditAppend(limit, events + [Acknowledge(count)] + [Post], Wake);
    CreditAppend(limit, events + [Acknowledge(count)] + [Post] + [Wake], Look);
    hide RunCredit;
  }

  /** A reservation that fits is granted at once; a stop ends one that waits. */
  lemma ReservationAtOnce(limit: nat, events: seq<CreditEvent>, count: nat)
    requires count > 0 && RunCredit(limit, events).waiter.Absent?
    ensures var s := RunCredit(limit, events);
      var t := RunCredit(limit, events + [Reserve(count)] + [Look]);
      if s.outstanding + count <= limit then t.waiter.Absent? && t.outstanding == s.outstanding + count
      else
        t.waiter == Waiter.Parked(count) && t.outstanding == s.outstanding
        && RunCredit(limit, events + [Reserve(count)] + [Look] + [StopBridge] + [SeeStop]).waiter.Absent?
        && RunCredit(limit, events + [Reserve(count)] + [Look] + [StopBridge] + [SeeStop]).outstanding == s.outstanding
  {
    CreditAppend(limit, events, Reserve(count));
    CreditAppend(limit, events + [Reserve(count)], Look);
    CreditAppend(limit, events + [Reserve(count)] + [Look], StopBridge);
    CreditAppend(limit, events + [Reserve(count)] + [Look] + [StopBridge], SeeStop);
    hide RunCredit;
  }

  // ----------------------------------------------------------- the batching, in place

  class PtyWebSocketBridge {
    const credit: TerminalOutputCredit?
    const replies: nat -> Reply
    var pending: Bytes
    var armed: bool
    var frames: seq<Bytes>
    var flushes: nat

    ghost predicate Valid()
      reads this, credit
    {
      credit != null ==> credit.limit == CREDIT_BYTES
    }

    ghost function View(): Bridge
      reads this, credit
    {
      Bridge(pending, armed, if credit != null then credit.outstanding else 0, frames, flushes, Selecting)
    }

    constructor (replies: nat -> Reply, credited: bool)
      ensures Valid() && View() == Opened() && this.replies == replies && (credit != null <==> credited)
      ensures credited ==> fresh(credit)
    {
      if credited {
        credit := new TerminalOutputCredit(CREDIT_BYTES);
      } else {
        credit := null;
      }
      this.replies := replies;
      pending, armed, frames, flushes := [], false, [], 0;
    }

    method Flush() returns (ok: bool)
      requires Valid()
      modifies this, credit
      ensures Valid() && (View(), ok) == Flushed(replies, credit != null, old(View()))
    {
      if |pending| == 0 {
        return true;
      }
      armed := false;
      var reply := replies(flushes);
      flushes := flushes + 1;
      if credit != null {
        ghost var before := credit.outstanding;
        var granted, used := credit.ReserveBytes(|pending|, reply.acks);
        ReservationFits(before, |pending|, reply.acks, granted, used);
        if !granted {
          return false;
        }
      }
      if !reply.written {
        return false;
      }
      frames := frames + [pending];
      pending := [];
      return true;
    }

    method AppendChunk(data: Bytes) returns (ok: bool)
      requires Valid() && |pending| < FRAME_SIZE
      modifies this, credit
      ensures Valid() && (View(), ok) == Appended(replies, credit != null, old(View()), data)
    {
      hide Flushed;
      var chunk := data;
      while |chunk| > 0
        invariant Valid() && |pending| < FRAME_SIZE
        invariant Appended(replies, credit != null, old(View()), data) ==
          Appended(replies, credit != null, View(), chunk)
        decreases |chunk|
      {
        var space := FRAME_SIZE - |pending|;
        if space > |chunk| {
          space := |chunk|;
        }
        pending := pending + chunk[..space];
        chunk := chunk[space..];
        if |pending| == FRAME_SIZE {
          FlushedRoom(replies, credit != null, View());
          var flushed := Flush();
          if !flushed {
            return false;
          }
        }
      }
      assert chunk == [];
      if |pending| > 0 && |pending| <= INTERACTIVE_FLUSH {
        ok := Flush();
        return;
      }
      if |pending| > 0 && !armed {
        armed := true;
      }
      return true;
    }

    /** The select loop over a run of events; acknowledgements reach the credit directly. */
    method WritePTYOutput(events: seq<Event>) returns (phase: Phase)
      requires Valid() && View() == Opened()
      modifies this, credit
      ensures View().(phase := phase) == Run(replies, credit != null, events)
    {
      hide Flushed, Appended;
      phase := Selecting;
      for i := 0 to |events|
        invariant Valid()
        invariant View().(phase := phase) == Run(replies, credit != null, events[..i])
      {
        assert events[..i + 1][..i] == events[..i];
        match events[i] {
          case Acked(count) =>
            if credit != null {
              credit.AcknowledgeBytes(count);
            }
          case Chunk(data) =>
            if phase.Selecting? {
              var ok := AppendChunk(data);
              if !ok {
                phase, armed := Returned(false), false;
              }
            }
          case ChunksClosed =>
            if phase.Selecting? {
              var ok := Flush();
              phase, armed := Returned(ok), false;
            }
          case TimerFired =>
            if phase.Selecting? && armed {
              armed := false;
              var ok := Flush();
              if !ok {
                phase, armed := Returned(false), false;
              }
            }
          case StopRequested =>
            if phase.Selecting? {
              phase, armed := Returned(false), false;
            }
        }
      }
      assert events[..|events|] == events;
    }
  }

  lemma {:induction false} AckFirst(outstanding: nat, acks: seq<nat>)
    requires acks != []
    ensures AfterAcks(outstanding, acks) == AfterAcks(Lowered(outstanding, acks[0]), acks[1..])
  {
    if |acks| == 1 {
      assert acks[..0] == [] && acks[1..] == [];
      assert AfterAcks(outstanding, acks[..0]) == outstanding;
    } else {
      AckFirst(outstanding, acks[..|acks| - 1]);
      assert acks[1..][..|acks| - 2] == acks[..|acks| - 1][1..];
    }
  }

  /** The loop of one reservation agrees with its recursive description. */
  lemma {:induction false} ReservationFits(outstanding: nat, count: nat, acks: seq<nat>, granted: bool, used: nat)
    requires granted ==> GrantedAfter(CREDIT_BYTES, outstanding, count, acks, used)
    requires !granted ==> NeverFits(CREDIT_BYTES, outstanding, count, acks)
    ensures Fits(outstanding, count, acks) == if granted then Some(AfterAcks(outstanding, acks[..used]) + count)
                                              else None
    decreases |acks|
  {
    assert acks[..0] == [];
    assert AfterAcks(outstanding, acks[..0]) == outstanding;
    if granted && used == 0 {
    } else if acks == [] {
      assert !granted;
    } else {
      var next, rest := Lowered(outstanding, acks[0]), acks[1..];
      forall j: nat | j <= |rest| ensures AfterAcks(next, rest[..j]) == AfterAcks(outstanding, acks[..j + 1]) {
        AckFirst(outstanding, acks[..j + 1]);
        assert acks[..j + 1][1..] == rest[..j];
      }
      ReservationFits(next, count, rest, granted, if granted then used - 1 else 0);
    }
  }
}
