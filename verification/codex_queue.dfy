/** The prompt queue of a native Codex session. Two mutexes guard it: `promptMu` admits one
    submission or queue advance at a time and is held over the turn/start reply, `mu`
    guards the state between. Every event below is one critical section of `mu`, or the
    taking of `promptMu`, so runs cover every interleaving with turn notifications. */
module CodexQueue {
  import opened Common

  /** `valid` is false for an empty message, too many images or unusable model options. */
  datatype Message = Message(text: string, valid: bool)

  /** Who holds `promptMu`, and before which of its critical sections it stands. */
  datatype Holder =
    | Free
    | Submitting(message: Message)
    | Advancing
    | Starting(message: Message, queued: bool)
    | Awaiting(message: Message, queued: bool, first: bool)   // turn/start sent, reply outstanding
    | Returning(message: Message)                             // its queued start failed

  /** The last four fields are history: the fate of every finished submission in the
      order `promptMu` was granted, the accepted and the started messages, and whether a
      queued start failed since the last time the queue was told to advance. */
  datatype State = State(
    holder: Holder, queue: seq<Message>, working: bool, stopped: bool, exited: bool, attempted: bool,
    advances: nat,   // advanceQueue goroutines waiting for promptMu
    fates: seq<Fate>, accepted: seq<Message>, started: seq<Message>, stalled: bool)

  datatype Fate = Fate(message: Message, accepted: bool)

  datatype Event =
    | Submit(message: Message)         // prompt() is granted promptMu
    | TakeTurn                         // a waiting advanceQueue() is granted promptMu
    | Look                             // the holder examines the state
    | Begin(recorded: bool)            // startPrompt's critical section
    | Reply(ok: bool, forget: bool)    // the reply to turn/start; a definite rejection is forgotten
    | PutBack                          // a failed queued start returns to the head
    | TurnStarted
    | TurnCompleted
    | Retry
    | Stop
    | Exit                             // the provider died; `done` is closed a little later

  function Opened(): State {
    State(Free, [], false, false, false, false, 0, [], [], [], false)
  }

  /** prompt() returns: the message was queued or started, or it was refused. */
  function Answered(s: State, m: Message, accepted: bool): State {
    s.(holder := Free, fates := s.fates + [Fate(m, accepted)],
       accepted := if accepted then s.accepted + [m] else s.accepted)
  }

  function Failed(s: State, m: Message, queued: bool): State {
    if queued then s.(holder := Returning(m)) else Answered(s, m, false)
  }

  function Examined(s: State): State {
    match s.holder
    case Submitting(m) =>
      if !m.valid || s.stopped then Answered(s, m, false)
      else if s.working || s.queue != [] then Answered(s.(queue := s.queue + [m]), m, true)
      else s.(holder := Starting(m, false))
    case Advancing =>
      if s.working || s.queue == [] || s.stopped then s.(holder := Free)
      else s.(holder := Starting(s.queue[0], true), queue := s.queue[1..])
    case _ => s
  }

  function Begun(s: State, recorded: bool): State
    requires s.holder.Starting?
  {
    var m, queued := s.holder.message, s.holder.queued;
    if !m.valid || s.stopped || s.working || (!s.attempted && !recorded) then Failed(s, m, queued)
    else s.(holder := Awaiting(m, queued, !s.attempted), working := true, attempted := true)
  }

  function Replied(s: State, ok: bool, forget: bool): State
    requires s.holder.Awaiting?
  {
    var m, queued := s.holder.message, s.holder.queued;
    if ok then
      var t := s.(started := s.started + [m]);
      if queued then t.(holder := Free) else Answered(t, m, true)
    else Failed(s.(working := false, attempted := s.attempted && !(s.holder.first && forget)), m, queued)
  }

  function Apply(s: State, e: Event): State {
    match e
    case Submit(m) => if s.holder.Free? then s.(holder := Submitting(m)) else s
    case TakeTurn => if s.holder.Free? && s.advances > 0 then s.(holder := Advancing, advances := s.advances - 1) else s
    case Look => Examined(s)
    case Begin(recorded) => if s.holder.Starting? then Begun(s, recorded) else s
    case Reply(ok, forget) => if s.holder.Awaiting? then Replied(s, ok, forget) else s
    case PutBack =>
      if s.holder.Returning? then s.(queue := [s.holder.message] + s.queue, holder := Free, stalled := true) else s
    case TurnStarted => s.(working := true)
    case TurnCompleted => s.(working := false, advances := s.advances + 1, stalled := false)
    case Retry => s.(advances := s.advances + 1, stalled := false)
    case Stop => s.(stopped := true)
    case Exit => s.(working := false, exited := true)
  }

  function Run(s: State, events: seq<Event>): State {
    if events == [] then s
    else Apply(Run(s, events[..|events| - 1]), events[|events| - 1])
  }

  // -------------------------------------------------------------------- invariants

  /** The message that left the queue and has not been started. */
  function InHand(s: State): seq<Message> {
    match s.holder
    case Starting(m, queued) => if queued then [m] else []
    case Awaiting(m, queued, _) => if queued then [m] else []
    case Returning(m) => [m]
    case _ => []
  }

  /** The submission whose prompt() has not returned. */
  function Unanswered(s: State): seq<Message> {
    match s.holder
    case Submitting(m) => [m]
    case Starting(m, queued) => if queued then [] else [m]
    case Awaiting(m, queued, _) => if queued then [] else [m]
    case _ => []
  }

  /** The messages of the accepted submissions, in submission order. */
  function Kept(fates: seq<Fate>): seq<Message> {
    if fates == [] then []
    else
      var last := fates[|fates| - 1];
      Kept(fates[..|fates| - 1]) + if last.accepted then [last.message] else []
  }

  /** Nothing is lost, duplicated or reordered on the way through the queue. */
  predicate Conserved(s: State) {
    && s.accepted == s.started + InHand(s) + s.queue
    && s.accepted == Kept(s.fates)
    && ((s.holder.Starting? || s.holder.Awaiting?) && !s.holder.queued ==> s.queue == [])
  }

  /** A waiting queue of an idle session has somebody who will advance it, unless a
      queued start has failed. */
  predicate Tended(s: State) {
    && (s.queue != [] && !s.working && !s.stopped && !s.exited ==>
          s.advances > 0 || s.stalled || s.holder.Advancing? || InHand(s) != [])
    && (s.holder.Awaiting? && !s.working && !s.exited ==> s.advances > 0)
  }

  lemma KeptAppend(fates: seq<Fate>, f: Fate)
    ensures Kept(fates + [f]) == Kept(fates) + if f.accepted then [f.message] else []
  {
    assert (fates + [f])[..|fates|] == fates;
  }

  lemma AnswerKeepsConserved(s: State, m: Message, accepted: bool)
    requires s.accepted == Kept(s.fates) && InHand(s) == []
    requires if accepted then s.accepted + [m] == s.started + s.queue else s.accepted == s.started + s.queue
    ensures Conserved(Answered(s, m, accepted))
  {
    KeptAppend(s.fates, Fate(m, accepted));
    hide Kept;
    var t := Answered(s, m, accepted);
    assert t.started + [] + t.queue == t.started + t.queue;
    assert s.accepted + [] == s.accepted;
  }

  lemma FailureKeepsConserved(s: State, m: Message, queued: bool)
    requires s.accepted == Kept(s.fates) && s.accepted == s.started + (if queued then [m] else []) + s.queue
    requires queued || InHand(s) == []
    ensures Conserved(Failed(s, m, queued))
  {
    hide Kept, Answered;
    if !queued {
      assert s.started + [] + s.queue == s.started + s.queue;
      AnswerKeepsConserved(s, m, false);
    }
  }

  lemma LookKeepsConserved(s: State)
    requires Conserved(s)
    ensures Conserved(Examined(s))
  {
    hide Kept, Answered;
    assert s.started + [] + s.queue == s.started + s.queue;
    match s.holder
    case Submitting(m) =>
      if !m.valid || s.stopped {
        AnswerKeepsConserved(s, m, false);
      } else if s.working || s.queue != [] {
        assert s.accepted + [m] == s.started + (s.queue + [m]);
        AnswerKeepsConserved(s.(queue := s.queue + [m]), m, true);
      }
    case Advancing =>
      if s.queue != [] {
        assert s.started + s.queue == s.started + [s.queue[0]] + s.queue[1..];
      }
    case _ =>
  }

  lemma BeginKeepsConserved(s: State, recorded: bool)
    requires Conserved(s) && s.holder.Starting?
    ensures Conserved(Begun(s, recorded))
  {
    hide Kept, Failed;
    FailureKeepsConserved(s, s.holder.message, s.holder.queued);
  }

  lemma ReplyKeepsConserved(s: State, ok: bool, forget: bool)
    requires Conserved(s) && s.holder.Awaiting?
    ensures Conserved(Replied(s, ok, forget))
  {
    hide Kept, Failed, Answered;
    var m, queued := s.holder.message, s.holder.queued;
    assert s.started + [] + s.queue == s.started + s.queue;
    if !ok {
      FailureKeepsConserved(s.(working := false, attempted := s.attempted && !(s.holder.first && forget)), m, queued);
    } else if !queued {
      assert (s.started + [m]) + [] == s.started + [m];
      AnswerKeepsConserved(s.(started := s.started + [m]), m, true);
    } else {
      assert (s.started + [m]) + [] + s.queue == s.started + [m] + s.queue;
    }
  }

  lemma StepKeepsConserved(s: State, e: Event)
    requires Conserved(s)
    ensures Conserved(Apply(s, e))
  {
    hide Kept, Examined, Begun, Replied;
    match e
    case Look => LookKeepsConserved(s);
    case Begin(recorded) =>
      if s.holder.Starting? {
        BeginKeepsConserved(s, recorded);
      }
    case Reply(ok, forget) =>
      if s.holder.Awaiting? {
        ReplyKeepsConserved(s, ok, forget);
      }
    case PutBack =>
      if s.holder.Returning? {
        var m := s.holder.message;
        assert s.started + [m] + s.queue == s.started + [] + ([m] + s.queue);
      }
    case _ =>
  }

  lemma LookKeepsTended(s: State)
    requires Tended(s)
    ensures Tended(Examined(s))
  {
  }

  lemma BeginKeepsTended(s: State, recorded: bool)
    requires Tended(s) && s.holder.Starting?
    ensures Tended(Begun(s, recorded))
  {
  }

  lemma ReplyKeepsTended(s: State, ok: bool, forget: bool)
    requires Tended(s) && Conserved(s) && s.holder.Awaiting?
    ensures Tended(Replied(s, ok, forget))
  {
    hide Kept;
  }

  lemma StepKeepsTended(s: State, e: Event)
    requires Tended(s) && Conserved(s)
    ensures Tended(Apply(s, e))
  {
    hide Conserved, Examined, Begun, Replied;
    match e
    case Look => LookKeepsTended(s);
    case Begin(recorded) =>
      if s.holder.Starting? {
        BeginKeepsTended(s, recorded);
      }
    case Reply(ok, forget) =>
      if s.holder.Awaiting? {
        ReplyKeepsTended(s, ok, forget);
      }
    case _ =>
  }

  lemma {:induction false} RunKeepsInv(events: seq<Event>)
    ensures Conserved(Run(Opened(), events)) && Tended(Run(Opened(), events))
  {
    if events != [] {
      var s := Run(Opened(), events[..|events| - 1]);
      RunKeepsInv(events[..|events| - 1]);
      hide Conserved, Tended, Apply;
      StepKeepsConserved(s, events[|events| - 1]);
      StepKeepsTended(s, events[|events| - 1]);
    }
  }

  // --------------------------------------------------------------- main statements

  /** First in, first out: on every run the accepted messages, in the order their
      submissions were admitted, are exactly the started ones, then the one in hand, then
      the queue. So the k-th started message is the k-th accepted one and nothing ever
      overtakes, whatever fails and however turn notifications interleave. */
  lemma PromptsAreFifo(events: seq<Event>)
    ensures var s := Run(Opened(), events);
      && Kept(s.fates) == s.started + InHand(s) + s.queue
      && |InHand(s)| <= 1
      && (s.holder.Free? ==> Kept(s.fates) == s.started + s.queue)
  {
    hide Run, Kept, Tended;
    RunKeepsInv(events);
    var s := Run(Opened(), events);
    assert s.started + [] + s.queue == s.started + s.queue;
  }

  function Submitted(events: seq<Event>): seq<Message> {
    if events == [] then []
    else
      var s, last := Run(Opened(), events[..|events| - 1]), events[|events| - 1];
      Submitted(events[..|events| - 1]) + if last.Submit? && s.holder.Free? then [last.message] else []
  }

  function Messages(fates: seq<Fate>): seq<Message> {
    if fates == [] then [] else Messages(fates[..|fates| - 1]) + [fates[|fates| - 1].message]
  }

  lemma MessagesAppend(fates: seq<Fate>, f: Fate)
    ensures Messages(fates + [f]) == Messages(fates) + [f.message]
  {
    assert (fates + [f])[..|fates|] == fates;
  }

  /** What a step adds to the submissions seen so far. */
  predicate Answers(s: State, t: State, more: seq<Message>) {
    Messages(t.fates) + Unanswered(t) == Messages(s.fates) + Unanswered(s) + more
  }

  lemma FailureAnswers(s: State, m: Message, queued: bool)
    requires Unanswered(s) == if queued then [] else [m]
    ensures Answers(s, Failed(s, m, queued), [])
  {
    MessagesAppend(s.fates, Fate(m, false));
    hide Messages;
  }

  lemma AnswerAnswers(s: State, queue: seq<Message>, m: Message, accepted: bool)
    requires Unanswered(s) == [m]
    ensures Answers(s, Answered(s.(queue := queue), m, accepted), [])
  {
    MessagesAppend(s.fates, Fate(m, accepted));
    hide Messages;
  }

  lemma LookAnswers(s: State)
    ensures Answers(s, Examined(s), [])
  {
    hide Messages, Answered;
    if s.holder.Submitting? {
      var m := s.holder.message;
      AnswerAnswers(s, s.queue, m, false);
      AnswerAnswers(s, s.queue + [m], m, true);
      assert s.(queue := s.queue) == s;
    }
  }

  lemma BeginAnswers(s: State, recorded: bool)
    requires s.holder.Starting?
    ensures Answers(s, Begun(s, recorded), [])
  {
    FailureAnswers(s, s.holder.message, s.holder.queued);
    hide Messages, Failed;
  }

  lemma StartAnswers(s: State, m: Message, queued: bool)
    requires Unanswered(s) == if queued then [] else [m]
    ensures var t := s.(started := s.started + [m]);
      Answers(s, if queued then t.(holder := Free) else Answered(t, m, true), [])
  {
    MessagesAppend(s.fates, Fate(m, true));
    hide Messages;
  }

  lemma ReplyAnswers(s: State, ok: bool, forget: bool)
    requires s.holder.Awaiting?
    ensures Answers(s, Replied(s, ok, forget), [])
  {
    hide Messages, Failed, Answered;
    var m, queued := s.holder.message, s.holder.queued;
    if ok {
      StartAnswers(s, m, queued);
    } else {
      FailureAnswers(s.(working := false, attempted := s.attempted && !(s.holder.first && forget)), m, queued);
    }
  }

  lemma StepAnswers(s: State, e: Event)
    ensures Answers(s, Apply(s, e), if e.Submit? && s.holder.Free? then [e.message] else [])
  {
    hide Examined, Begun, Replied, Messages;
    match e
    case Look => LookAnswers(s);
    case Begin(recorded) =>
      if s.holder.Starting? {
        BeginAnswers(s, recorded);
      }
    case Reply(ok, forget) =>
      if s.holder.Awaiting? {
        ReplyAnswers(s, ok, forget);
      }
    case _ =>
  }

  /** Every admitted submission is answered exactly once, in order. */
  lemma {:induction false} EverySubmissionIsAnswered(events: seq<Event>)
    ensures var s := Run(Opened(), events); Submitted(events) == Messages(s.fates) + Unanswered(s)
  {
    if events != [] {
      EverySubmissionIsAnswered(events[..|events| - 1]);
      StepAnswers(Run(Opened(), events[..|events| - 1]), events[|events| - 1]);
      hide Apply, Messages, Unanswered;
    }
  }

  /** A live, idle session leaves messages waiting only while somebody is about to take
      the next one, or after a queued start failed. */
  lemma WaitingQueueIsTended(events: seq<Event>)
    ensures var s := Run(Opened(), events);
      s.queue != [] && !s.working && !s.stopped && !s.exited && !s.stalled ==>
        s.advances > 0 || s.holder.Advancing? || InHand(s) != []
  {
    RunKeepsInv(events);
    hide Conserved;
  }

  /** The queue waits and nobody is about to advance it. */
  predicate Dormant(s: State) {
    s.queue != [] && s.advances == 0 && (s.holder.Free? || s.holder.Submitting?)
  }

  lemma StepKeepsDormant(s: State, e: Event)
    requires Dormant(s) && !e.TurnCompleted? && !e.Retry?
    ensures var t := Apply(s, e); Dormant(t) && t.started == s.started && s.queue <= t.queue
  {
  }

  /** A dormant queue only grows: no submission, reply or other step starts a message
      before a turn completes or a retry is asked for. */
  lemma {:induction false} DormantUntilTold(s: State, events: seq<Event>)
    requires Dormant(s)
    requires forall k :: 0 <= k < |events| ==> !events[k].TurnCompleted? && !events[k].Retry?
    ensures var t := Run(s, events); Dormant(t) && t.started == s.started && s.queue <= t.queue
  {
    hide Apply, Dormant;
    if events != [] {
      DormantUntilTold(s, events[..|events| - 1]);
      StepKeepsDormant(Run(s, events[..|events| - 1]), events[|events| - 1]);
    }
  }

  /** Only valid messages wait or are taken from the queue. */
  predicate AllValid(s: State) {
    (forall m :: m in s.queue ==> m.valid) && (forall m :: m in InHand(s) ==> m.valid)
  }

  lemma LookKeepsValid(s: State)
    requires AllValid(s)
    ensures AllValid(Examined(s))
  {
    if s.queue != [] {
      assert s.queue[0] in s.queue;
      assert forall m :: m in s.queue[1..] ==> m in s.queue;
    }
  }

  lemma FailureKeepsValid(s: State, m: Message, queued: bool)
    requires (forall x :: x in s.queue ==> x.valid) && (queued ==> m.valid)
    requires InHand(s) == if queued then [m] else []
    ensures AllValid(Failed(s, m, queued))
  {
  }

  lemma BeginKeepsValid(s: State, recorded: bool)
    requires AllValid(s) && s.holder.Starting?
    ensures AllValid(Begun(s, recorded))
  {
    hide Failed;
    var m, queued := s.holder.message, s.holder.queued;
    assert queued ==> m in InHand(s);
    FailureKeepsValid(s, m, queued);
  }

  lemma ReplyKeepsValid(s: State, ok: bool, forget: bool)
    requires AllValid(s) && s.holder.Awaiting?
    ensures AllValid(Replied(s, ok, forget))
  {
    hide Failed;
    var m, queued := s.holder.message, s.holder.queued;
    assert queued ==> m in InHand(s);
    FailureKeepsValid(s.(working := false, attempted := s.attempted && !(s.holder.first && forget)), m, queued);
  }

  lemma PutBackKeepsValid(s: State)
    requires AllValid(s) && s.holder.Returning?
    ensures AllValid(Apply(s, PutBack))
  {
    assert s.holder.message in InHand(s);
  }

  lemma StepKeepsValid(s: State, e: Event)
    requires AllValid(s)
    ensures AllValid(Apply(s, e))
  {
    hide Examined, Begun, Replied;
    match e
    case Look => LookKeepsValid(s);
    case Begin(recorded) =>
      if s.holder.Starting? {
        BeginKeepsValid(s, recorded);
      }
    case Reply(ok, forget) =>
      if s.holder.Awaiting? {
        ReplyKeepsValid(s, ok, forget);
      }
    case PutBack =>
      if s.holder.Returning? {
        PutBackKeepsValid(s);
      }
    case _ =>
  }

  lemma {:induction false} QueueHoldsValid(events: seq<Event>)
    ensures AllValid(Run(Opened(), events))
  {
    hide Apply;
    if events != [] {
      QueueHoldsValid(events[..|events| - 1]);
      StepKeepsValid(Run(Opened(), events[..|events| - 1]), events[|events| - 1]);
    }
  }

  lemma RunAppend(events: seq<Event>, e: Event)
    ensures Run(Opened(), events + [e]) == Apply(Run(Opened(), events), e)
  {
    hide Apply;
    assert (events + [e])[..|events|] == events;
  }

  /** One undisturbed prompt() call, and one undisturbed advanceQueue() call. */
  function PromptEvents(m: Message): seq<Event> {
    [Submit(m), Look, Begin(true), Reply(true, false)]
  }

  function AdvanceEvents(ok: bool): seq<Event> {
    [TakeTurn, Look, Begin(true), Reply(ok, false), PutBack]
  }

  lemma DirectPrompt(s: State, m: Message)
    requires s.holder.Free? && !s.working && !s.stopped && s.queue == [] && m.valid
    ensures Run(s, PromptEvents(m)) ==
      s.(working := true, attempted := true, started := s.started + [m], accepted := s.accepted + [m],
         fates := s.fates + [Fate(m, true)])
  {
    hide Run;
    PromptRun(s, m, true, true, false);
    var s2 := s.(holder := Starting(m, false));
    assert Apply(Apply(s, Submit(m)), Look) == s2;
    assert Apply(s2, Begin(true)) == s.(holder := Awaiting(m, false, !s.attempted), working := true, attempted := true);
  }

  lemma QueuedPrompt(s: State, m: Message)
    requires s.holder.Free? && s.working && !s.stopped && m.valid
    ensures Run(s, PromptEvents(m)) ==
      s.(queue := s.queue + [m], accepted := s.accepted + [m], fates := s.fates + [Fate(m, true)])
  {
    hide Run;
    PromptRun(s, m, true, true, false);
    var t := s.(queue := s.queue + [m], accepted := s.accepted + [m], fates := s.fates + [Fate(m, true)]);
    assert Apply(Apply(s, Submit(m)), Look) == t;
    hide Apply;
    FreeSkips(t, Begin(true));
    FreeSkips(t, Reply(true, false));
  }

  lemma AdvanceReaches(s: State)
    requires s.holder.Free? && s.advances > 0 && !s.working && !s.stopped && s.queue != [] && s.queue[0].valid
    ensures Apply(Apply(Apply(s, TakeTurn), Look), Begin(true)) ==
      s.(holder := Awaiting(s.queue[0], true, !s.attempted), queue := s.queue[1..], advances := s.advances - 1,
         working := true, attempted := true)
  {
    var s1 := s.(holder := Advancing, advances := s.advances - 1);
    assert Apply(s, TakeTurn) == s1;
    var s2 := s1.(holder := Starting(s.queue[0], true), queue := s.queue[1..]);
    assert Apply(s1, Look) == s2;
    hide Examined;
  }

  /** An advance whose turn/start is refused leaves everything but the flags as it was. */
  lemma FailedAdvance(s: State)
    requires s.holder.Free? && s.advances > 0 && !s.working && !s.stopped && s.queue != [] && s.queue[0].valid
    ensures Run(s, AdvanceEvents(false)) == s.(advances := s.advances - 1, attempted := true, stalled := true)
  {
    hide Run;
    AdvanceRun(s, true, false, false);
    AdvanceReaches(s);
    assert [s.queue[0]] + s.queue[1..] == s.queue;
  }

  lemma GoodAdvance(s: State)
    requires s.holder.Free? && s.advances > 0 && !s.working && !s.stopped && s.queue != [] && s.queue[0].valid
    ensures Run(s, AdvanceEvents(true)) ==
      s.(advances := s.advances - 1, attempted := true, working := true, queue := s.queue[1..],
         started := s.started + [s.queue[0]])
  {
    hide Run;
    AdvanceRun(s, true, true, false);
    AdvanceReaches(s);
  }

  /** One message runs, a second waits behind it, the turn completes and the second's
      start is refused. */
  function ToDormancy(first: Message, second: Message): seq<Event> {
    PromptEvents(first) + PromptEvents(second) + [TurnCompleted] + AdvanceEvents(false)
  }

  lemma RunOne(s: State, e: Event)
    ensures Run(s, [e]) == Apply(s, e)
  {
    assert [e][..0] == [];
  }

  /** The dormant state is reached from a fresh session: nothing runs, nothing is about to
      run, and an accepted message waits. */
  lemma DormancyIsReached(first: Message, second: Message)
    requires first.valid && second.valid
    ensures var s := Run(Opened(), ToDormancy(first, second));
      && Dormant(s) && s.holder.Free? && !s.working && !s.stopped && !s.exited
      && s.queue == [second] && s.started == [first] && s.accepted == [first, second]
  {
    hide Run, PromptEvents, AdvanceEvents;
    var e1, e2, e3 := PromptEvents(first), PromptEvents(second), [TurnCompleted];
    RunSplits(e1 + e2 + e3, AdvanceEvents(false));
    RunSplits(e1 + e2, e3);
    RunSplits(e1, e2);
    DirectPrompt(Opened(), first);
    QueuedPrompt(Run(Opened(), e1), second);
    RunOne(Run(Opened(), e1 + e2), TurnCompleted);
    FailedAdvance(Run(Opened(), e1 + e2 + e3));
  }

  lemma ToldAdvances(s: State, told: Event)
    requires Dormant(s) && s.holder.Free? && !s.stopped && s.queue[0].valid
    requires told.TurnCompleted? || (told.Retry? && !s.working)
    ensures var t := Apply(s, told);
      && t.holder.Free? && t.advances > 0 && !t.working && !t.stopped && t.queue == s.queue && t.started == s.started
  {
  }

  /** From every dormant state of a live session a completed turn, or a retry while the
      session is idle, lets the head of the queue start. */
  lemma ToldQueueResumes(events: seq<Event>, told: Event)
    requires var s := Run(Opened(), events); Dormant(s) && s.holder.Free? && !s.stopped
    requires told.TurnCompleted? || (told.Retry? && !Run(Opened(), events).working)
    ensures var s, t := Run(Opened(), events), Run(Opened(), events + ([told] + AdvanceEvents(true)));
      t.started == s.started + [s.queue[0]] && t.queue == s.queue[1..] && t.holder.Free?
  {
    QueueHoldsValid(events);
    hide Run, Apply, AdvanceEvents;
    var s := Run(Opened(), events);
    assert s.queue[0] in s.queue;
    ToldAdvances(s, told);
    RunSplits(events, [told] + AdvanceEvents(true));
    RunJoins(s, [told], AdvanceEvents(true));
    RunOne(s, told);
    GoodAdvance(Apply(s, told));
  }

  /** The notifications that can make the session idle or advance its queue. */
  predicate Tells(e: Event) {
    e.TurnCompleted? || e.Retry? || e.Exit?
  }

  ghost predicate MovesOn(events: seq<Event>, more: seq<Event>, told: Event -> bool) {
    && (forall k :: 0 <= k < |more| && Tells(more[k]) ==> told(more[k]))
    && Run(Opened(), events + more).started != Run(Opened(), events).started
  }

  /** Some continuation with no other notifications than these starts a message. */
  ghost predicate CanMove(events: seq<Event>, told: Event -> bool) {
    exists more :: MovesOn(events, more, told)
  }

  function Unaided(): Event -> bool {
    e => false
  }

  /** The queue can move: a completed turn always helps, an advance or a retry does once
      the session is idle. */
  predicate MayAdvance(s: State, told: Event -> bool) {
    && !s.stopped
    && (told(TurnCompleted) || ((s.advances > 0 || told(Retry)) && (!s.working || told(Exit))))
  }

  predicate Held(s: State) {
    s.working && (s.holder.Free? || s.holder.Submitting? || s.holder.Advancing?)
  }

  lemma {:induction false} WorkingHolds(s: State, events: seq<Event>)
    requires Held(s)
    requires forall k :: 0 <= k < |events| ==> !events[k].TurnCompleted? && !events[k].Exit?
    ensures Held(Run(s, events)) && Run(s, events).started == s.started
  {
    hide Apply, Held;
    if events != [] {
      WorkingHolds(s, events[..|events| - 1]);
      StepKeepsHeld(Run(s, events[..|events| - 1]), events[|events| - 1]);
    }
  }

  lemma StepKeepsHeld(s: State, e: Event)
    requires Held(s) && !e.TurnCompleted? && !e.Exit?
    ensures Held(Apply(s, e)) && Apply(s, e).started == s.started
  {
  }

  lemma {:induction false} StoppedHolds(s: State, events: seq<Event>)
    requires s.stopped && !s.holder.Awaiting?
    ensures var t := Run(s, events); t.stopped && !t.holder.Awaiting? && t.started == s.started
  {
    hide Apply;
    if events != [] {
      StoppedHolds(s, events[..|events| - 1]);
      StepKeepsStopped(Run(s, events[..|events| - 1]), events[|events| - 1]);
    }
  }

  lemma StepKeepsStopped(s: State, e: Event)
    requires s.stopped && !s.holder.Awaiting?
    ensures var t := Apply(s, e); t.stopped && !t.holder.Awaiting? && t.started == s.started
  {
    hide Examined, Begun, Replied;
    if e.Look? {
      LookWhenStopped(s);
    } else if e.Begin? && s.holder.Starting? {
      BeginWhenStopped(s, e.recorded);
    }
  }

  lemma LookWhenStopped(s: State)
    requires s.stopped && !s.holder.Awaiting?
    ensures var t := Examined(s); t.stopped && !t.holder.Awaiting? && t.started == s.started
  {
  }

  lemma BeginWhenStopped(s: State, recorded: bool)
    requires s.stopped && s.holder.Starting?
    ensures var t := Begun(s, recorded); t.stopped && !t.holder.Awaiting? && t.started == s.started
  {
  }

  /** Whether a waiting queue moves, on every run and for any allowed notifications: between
      two calls some continuation starts a message if and only if the session is not stopped
      and either a completed turn is allowed, or an advance is pending or a retry allowed and
      the session is idle or may still exit. */
  lemma QueueMovesExactly(events: seq<Event>, told: Event -> bool)
    requires var s := Run(Opened(), events); s.holder.Free? && s.queue != []
    ensures CanMove(events, told) <==> MayAdvance(Run(Opened(), events), told)
  {
    hide Run, Apply, MovesOn;
    if MayAdvance(Run(Opened(), events), told) {
      var more := Nudges(Run(Opened(), events), told);
      NudgedQueueMoves(events, told);
      assert MovesOn(events, more, told);
    } else {
      forall more | MovesOn(events, more, told) ensures false {
        StuckQueueStays(events, more, told);
      }
    }
  }

  /** The notifications that are still needed, and one undisturbed advance. */
  function Nudges(s: State, told: Event -> bool): seq<Event> {
    (if told(TurnCompleted) then [TurnCompleted]
     else (if s.working then [Exit] else []) + (if s.advances > 0 then [] else [Retry])) + AdvanceEvents(true)
  }

  lemma NudgesMove(s: State, told: Event -> bool)
    requires s.holder.Free? && s.queue != [] && s.queue[0].valid && MayAdvance(s, told)
    ensures Run(s, Nudges(s, told)).started == s.started + [s.queue[0]]
  {
    hide Run, AdvanceEvents;
    var first := if told(TurnCompleted) then [TurnCompleted] else if s.working then [Exit] else [];
    var second := if told(TurnCompleted) || s.advances > 0 then [] else [Retry];
    assert Nudges(s, told) == first + (second + AdvanceEvents(true));
    RunJoins(s, first, second + AdvanceEvents(true));
    RunShort(s, first);
    RunJoins(Run(s, first), second, AdvanceEvents(true));
    RunShort(Run(s, first), second);
    GoodAdvance(Run(Run(s, first), second));
  }

  lemma RunShort(s: State, events: seq<Event>)
    requires |events| <= 1
    ensures Run(s, events) == if events == [] then s else Apply(s, events[0])
  {
    hide Apply;
    if events != [] {
      assert events[..0] == [];
    }
  }

  lemma NudgedQueueMoves(events: seq<Event>, told: Event -> bool)
    requires var s := Run(Opened(), events); s.holder.Free? && s.queue != [] && MayAdvance(s, told)
    ensures MovesOn(events, Nudges(Run(Opened(), events), told), told)
  {
    hide Run, Apply;
    var s := Run(Opened(), events);
    QueueHoldsValid(events);
    assert s.queue[0] in s.queue;
    NudgesMove(s, told);
    RunSplits(events, Nudges(s, told));
  }

  lemma StuckQueueStays(events: seq<Event>, more: seq<Event>, told: Event -> bool)
    requires var s := Run(Opened(), events); s.holder.Free? && s.queue != [] && !MayAdvance(s, told)
    ensures !MovesOn(events, more, told)
  {
    hide Run, Apply;
    var s := Run(Opened(), events);
    RunSplits(events, more);
    if forall k :: 0 <= k < |more| && Tells(more[k]) ==> told(more[k]) {
      if s.stopped {
        StoppedHolds(s, more);
      } else if s.advances == 0 && !told(Retry) {
        DormantUntilTold(s, more);
      } else {
        WorkingHolds(s, more);
      }
    }
  }

  /** After a failed queued start has returned its message, in any run: the message heads
      the queue, and without a completed turn, a retry or an exit the queue moves again
      exactly when an advance was already pending and the session is idle and not stopped. */
  lemma PutBackIsDormantExactly(events: seq<Event>)
    requires Run(Opened(), events).holder.Returning?
    ensures var s, t := Run(Opened(), events), Run(Opened(), events + [PutBack]);
      t.queue == [s.holder.message] + s.queue && t.started == s.started && t.stalled
    ensures var s := Run(Opened(), events);
      CanMove(events + [PutBack], Unaided()) <==> s.advances > 0 && !s.working && !s.stopped
  {
    RunAppend(events, PutBack);
    hide Run, CanMove;
    QueueMovesExactly(events + [PutBack], Unaided());
  }

  /** On every run, a queued start that startPrompt refuses ends the same way. */
  lemma FailedStartIsDormant(events: seq<Event>, recorded: bool)
    requires var s := Run(Opened(), events);
      && s.holder.Starting? && s.holder.queued
      && (!s.holder.message.valid || s.stopped || s.working || (!s.attempted && !recorded))
    ensures var s, t := Run(Opened(), events), Run(Opened(), events + [Begin(recorded)] + [PutBack]);
      t.queue == [s.holder.message] + s.queue && t.started == s.started
    ensures var s := Run(Opened(), events);
      CanMove(events + [Begin(recorded)] + [PutBack], Unaided()) <==> s.advances > 0 && !s.working && !s.stopped
  {
    RunAppend(events, Begin(recorded));
    hide Run, CanMove;
    PutBackIsDormantExactly(events + [Begin(recorded)]);
  }

  /** So does a turn/start that the provider refuses or that gets no reply; the session is
      idle then, so that only a pending advance decides. */
  lemma RejectedStartIsDormant(events: seq<Event>, forget: bool)
    requires var s := Run(Opened(), events); s.holder.Awaiting? && s.holder.queued
    ensures var s, t := Run(Opened(), events), Run(Opened(), events + [Reply(false, forget)] + [PutBack]);
      t.queue == [s.holder.message] + s.queue && t.started == s.started && !t.working
    ensures var s := Run(Opened(), events);
      CanMove(events + [Reply(false, forget)] + [PutBack], Unaided()) <==> s.advances > 0 && !s.stopped
  {
    RunAppend(events, Reply(false, forget));
    RunAppend(events + [Reply(false, forget)], PutBack);
    hide Run, CanMove;
    PutBackIsDormantExactly(events + [Reply(false, forget)]);
  }

  // ------------------------------------------------- what one call achieves, undisturbed

  /** prompt() on every run, undisturbed: the submission is accepted exactly when the message
      is valid, the session is not stopped, and either it has to wait, or the first attempt
      is on record and the provider takes it. A waiting message goes to the end of the queue;
      a started one makes the session work; after a refusal the session is idle, and only a
      definite refusal of the first message is forgotten. */
  lemma SubmissionAcceptedExactly(events: seq<Event>, m: Message, recorded: bool, ok: bool, forget: bool)
    requires Run(Opened(), events).holder.Free?
    ensures var s := Run(Opened(), events);
      var t := Run(Opened(), events + [Submit(m), Look, Begin(recorded), Reply(ok, forget)]);
      var welcome, waits, tried := m.valid && !s.stopped, s.working || s.queue != [], s.attempted || recorded;
      && t.holder.Free? && t.fates == s.fates + [Fate(m, welcome && (waits || (tried && ok)))]
      && t.queue == (if welcome && waits then s.queue + [m] else s.queue)
      && t.started == (if welcome && !waits && tried && ok then s.started + [m] else s.started)
      && t.working == (if welcome && !waits && tried then ok else s.working)
      && t.attempted == (s.attempted || (welcome && !waits && tried && (ok || !forget)))
      && t.advances == s.advances && t.stopped == s.stopped && t.exited == s.exited && t.stalled == s.stalled
  {
    hide *;
    RunSplits(events, [Submit(m), Look, Begin(recorded), Reply(ok, forget)]);
    PromptRun(Run(Opened(), events), m, recorded, ok, forget);
    PromptSteps(Run(Opened(), events), m, recorded, ok, forget);
  }

  lemma PromptSteps(s: State, m: Message, recorded: bool, ok: bool, forget: bool)
    requires s.holder.Free?
    ensures var t := Apply(Apply(Apply(Apply(s, Submit(m)), Look), Begin(recorded)), Reply(ok, forget));
      var welcome, waits, tried := m.valid && !s.stopped, s.working || s.queue != [], s.attempted || recorded;
      && t.holder.Free? && t.fates == s.fates + [Fate(m, welcome && (waits || (tried && ok)))]
      && t.queue == (if welcome && waits then s.queue + [m] else s.queue)
      && t.started == (if welcome && !waits && tried && ok then s.started + [m] else s.started)
      && t.working == (if welcome && !waits && tried then ok else s.working)
      && t.attempted == (s.attempted || (welcome && !waits && tried && (ok || !forget)))
      && t.advances == s.advances && t.stopped == s.stopped && t.exited == s.exited && t.stalled == s.stalled
  {
    var s2 := Apply(Apply(s, Submit(m)), Look);
    if m.valid && !s.stopped && !s.working && s.queue == [] {
      assert s2 == s.(holder := Starting(m, false));
      var s3 := Apply(s2, Begin(recorded));
      if s.attempted || recorded {
        assert s3 == s.(holder := Awaiting(m, false, !s.attempted), working := true, attempted := true);
      } else {
        assert s3.holder.Free?;
      }
    } else {
      assert s2.holder.Free?;
      FreeSkips(s2, Begin(recorded));
    }
  }

  /** advanceQueue() on every run, undisturbed: it uses up one advance; it takes the head
      exactly when the session is idle, not stopped and has something waiting, and the message
      is started exactly when the first attempt is on record and the provider takes it. In
      every other case the queue is as before. */
  lemma AdvanceStartsExactly(events: seq<Event>, recorded: bool, ok: bool, forget: bool)
    requires var s := Run(Opened(), events); s.holder.Free? && s.advances > 0
    ensures var s := Run(Opened(), events);
      var t := Run(Opened(), events + [TakeTurn, Look, Begin(recorded), Reply(ok, forget), PutBack]);
      var due := !s.working && !s.stopped && s.queue != [];
      var starts := due && (s.attempted || recorded) && ok;
      && t.holder.Free? && t.advances == s.advances - 1
      && t.started == (if starts then s.started + [s.queue[0]] else s.started)
      && t.queue == (if starts then s.queue[1..] else s.queue)
      && t.working == (s.working || starts) && t.stalled == (s.stalled || (due && !starts))
      && t.fates == s.fates && t.stopped == s.stopped && t.exited == s.exited
  {
    hide *;
    QueueHoldsValid(events);
    HeadIsValid(Run(Opened(), events));
    RunSplits(events, [TakeTurn, Look, Begin(recorded), Reply(ok, forget), PutBack]);
    AdvanceRun(Run(Opened(), events), recorded, ok, forget);
    AdvanceSteps(Run(Opened(), events), recorded, ok, forget);
  }

  lemma HeadIsValid(s: State)
    requires AllValid(s)
    ensures s.queue != [] ==> s.queue[0].valid
  {
    if s.queue != [] {
      assert s.queue[0] in s.queue;
    }
  }

  lemma AdvanceSteps(s: State, recorded: bool, ok: bool, forget: bool)
    requires s.holder.Free? && s.advances > 0 && (s.queue != [] ==> s.queue[0].valid)
    ensures var t := Apply(Apply(Apply(Apply(Apply(s, TakeTurn), Look), Begin(recorded)), Reply(ok, forget)), PutBack);
      var due := !s.working && !s.stopped && s.queue != [];
      var starts := due && (s.attempted || recorded) && ok;
      && t.holder.Free? && t.advances == s.advances - 1
      && t.started == (if starts then s.started + [s.queue[0]] else s.started)
      && t.queue == (if starts then s.queue[1..] else s.queue)
      && t.working == (s.working || starts) && t.stalled == (s.stalled || (due && !starts))
      && t.fates == s.fates && t.stopped == s.stopped && t.exited == s.exited
  {
    TakeTurnStep(s);
    var s1 := s.(holder := Advancing, advances := s.advances - 1);
    var s2 := Apply(s1, Look);
    if !s.working && !s.stopped && s.queue != [] {
      var m := s.queue[0];
      assert s2 == s1.(holder := Starting(m, true), queue := s.queue[1..]);
      assert [m] + s.queue[1..] == s.queue;
      var s3 := Apply(s2, Begin(recorded));
      if s.attempted || recorded {
        assert s3 == s2.(holder := Awaiting(m, true, !s.attempted), working := true, attempted := true);
      } else {
        assert s3 == s2.(holder := Returning(m));
        ReturningSkips(s3, ok, forget);
      }
    } else {
      assert s2 == s1.(holder := Free);
      FreeSkips(s2, Begin(recorded));
      FreeSkips(s2, Reply(ok, forget));
      FreeSkips(s2, PutBack);
    }
  }

  /** A stop is final: unless a turn/start is outstanding, no message is started any more. */
  lemma StopEndsStarts(events: seq<Event>, more: seq<Event>)
    requires !Run(Opened(), events).holder.Awaiting?
    ensures Run(Opened(), events + [Stop] + more).started == Run(Opened(), events).started
    ensures Run(Opened(), events + [Stop] + more).stopped
  {
    RunAppend(events, Stop);
    RunSplits(events + [Stop], more);
    hide Run;
    StoppedHolds(Run(Opened(), events + [Stop]), more);
  }

  /** While a turn runs that was started between two calls, no message is started: not before
      it completes or the provider exits. */
  lemma RunningTurnHolds(events: seq<Event>, more: seq<Event>)
    requires Run(Opened(), events).holder.Free?
    requires forall k :: 0 <= k < |more| ==> !more[k].TurnCompleted? && !more[k].Exit?
    ensures Run(Opened(), events + [TurnStarted] + more).started == Run(Opened(), events).started
    ensures Run(Opened(), events + [TurnStarted] + more).working
  {
    RunAppend(events, TurnStarted);
    RunSplits(events + [TurnStarted], more);
    hide Run;
    WorkingHolds(Run(Opened(), events + [TurnStarted]), more);
  }

  lemma {:induction false} RunJoins(s: State, events: seq<Event>, more: seq<Event>)
    ensures Run(s, events + more) == Run(Run(s, events), more)
  {
    hide Apply;
    if more == [] {
      assert events + more == events;
    } else {
      assert (events + more)[..|events + more| - 1] == events + more[..|more| - 1];
      RunJoins(s, events, more[..|more| - 1]);
    }
  }

  lemma RunSplits(events: seq<Event>, more: seq<Event>)
    ensures Run(Opened(), events + more) == Run(Run(Opened(), events), more)
  {
    hide *;
    RunJoins(Opened(), events, more);
  }

  // ------------------------------------------------------------- the process object

  class CodexProcess {
    var holder: Holder
    var queued: seq<Message>
    var working: bool
    var stopping: bool
    var exited: bool
    var attempted: bool
    var advances: nat
    ghost var fates: seq<Fate>
    ghost var accepted: seq<Message>
    ghost var started: seq<Message>
    ghost var stalled: bool

    ghost function View(): State
      reads this
    {
      State(holder, queued, working, stopping, exited, attempted, advances, fates, accepted, started, stalled)
    }

    constructor ()
      ensures View() == Opened()
    {
      holder, queued, working, stopping, exited, attempted, advances := Free, [], false, false, false, false, 0;
      fates, accepted, started, stalled := [], [], [], false;
    }

    method Answer(message: Message, ok: bool)
      modifies this`holder, this`fates, this`accepted
      ensures View() == Answered(old(View()), message, ok)
    {
      holder := Free;
      fates := fates + [Fate(message, ok)];
      if ok {
        accepted := accepted + [message];
      }
    }

    /** prompt()'s look at the state, with promptMu held. */
    method ExamineSubmission() returns (answer: Option<bool>)
      requires holder.Submitting?
      modifies this
      ensures View() == Apply(old(View()), Look)
      ensures answer.None? ==> holder == Starting(old(holder).message, false) && fates == old(fates)
      ensures answer.Some? ==> holder.Free? && fates == old(fates) + [Fate(old(holder).message, answer.value)]
    {
      var message := holder.message;
      if !message.valid || stopping {
        Answer(message, false);
        return Some(false);
      }
      if working || |queued| > 0 {
        queued := queued + [message];
        Answer(message, true);
        return Some(true);
      }
      holder := Starting(message, false);
      return None;
    }

    /** advanceQueue()'s look at the state, with promptMu held. */
    method ExamineQueue()
      requires holder.Advancing?
      modifies this
      ensures View() == Apply(old(View()), Look)
      ensures holder.Free? || (holder.Starting? && holder.queued)
    {
      if working || |queued| == 0 || stopping {
        holder := Free;
        return;
      }
      holder := Starting(queued[0], true);
      queued := queued[1..];
    }

    method Fail(message: Message, wasQueued: bool)
      modifies this`holder, this`fates, this`accepted
      ensures View() == Failed(old(View()), message, wasQueued)
    {
      if wasQueued {
        holder := Returning(message);
      } else {
        Answer(message, false);
      }
    }

    method BeginPrompt(recorded: bool)
      requires holder.Starting?
      modifies this
      ensures View() == Apply(old(View()), Begin(recorded))
      ensures holder.Awaiting? ==>
        holder.message == old(holder).message && holder.queued == old(holder).queued && fates == old(fates)
      ensures !holder.Awaiting? && old(holder).queued ==> holder.Returning?
      ensures !holder.Awaiting? && !old(holder).queued ==>
        holder.Free? && fates == old(fates) + [Fate(old(holder).message, false)]
    {
      var message, wasQueued := holder.message, holder.queued;
      if !message.valid || stopping || working {
        Fail(message, wasQueued);
        return;
      }
      var firstPrompt := !attempted;
      if firstPrompt {
        if !recorded {
          Fail(message, wasQueued);
          return;
        }
        attempted := true;
      }
      working := true;
      holder := Awaiting(message, wasQueued, firstPrompt);
    }

    method FinishPrompt(ok: bool, forget: bool)
      requires holder.Awaiting?
      modifies this
      ensures View() == Apply(old(View()), Reply(ok, forget))
      ensures !old(holder).queued ==> holder.Free? && fates == old(fates) + [Fate(old(holder).message, ok)]
      ensures old(holder).queued ==> if ok then holder.Free? else holder.Returning?
    {
      var message, wasQueued := holder.message, holder.queued;
      if !ok {
        if holder.first && forget {
          attempted := false;
        }
        working := false;
        Fail(message, wasQueued);
        return;
      }
      started := started + [message];
      if wasQueued {
        holder := Free;
      } else {
        Answer(message, true);
      }
    }

    method PutBackHead()
      requires holder.Returning?
      modifies this
      ensures View() == Apply(old(View()), PutBack)
    {
      queued := [holder.message] + queued;
      holder := Free;
      stalled := true;
    }

    /** One prompt() call during which no notification arrives. */
    method Prompt(message: Message, recorded: bool, ok: bool, forget: bool) returns (accepted': bool)
      requires holder.Free?
      modifies this
      ensures View() == Run(old(View()), [Submit(message), Look, Begin(recorded), Reply(ok, forget)])
      ensures fates == old(fates) + [Fate(message, accepted')]
    {
      hide Run, Apply, Answered;
      PromptRun(View(), message, recorded, ok, forget);
      SubmitStep(View(), message);
      holder := Submitting(message);
      var answer := ExamineSubmission();
      if answer.Some? {
        FreeSkips(View(), Begin(recorded));
        FreeSkips(View(), Reply(ok, forget));
        return answer.value;
      }
      BeginPrompt(recorded);
      if !holder.Awaiting? {
        FreeSkips(View(), Reply(ok, forget));
        return false;
      }
      FinishPrompt(ok, forget);
      return ok;
    }

    /** One advanceQueue() call during which no notification arrives. */
    method AdvanceQueue(recorded: bool, ok: bool, forget: bool)
      requires holder.Free? && advances > 0
      modifies this
      ensures View() == Run(old(View()), [TakeTurn, Look, Begin(recorded), Reply(ok, forget), PutBack])
    {
      hide Run, Apply;
      AdvanceRun(View(), recorded, ok, forget);
      TakeTurnStep(View());
      holder, advances := Advancing, advances - 1;
      ExamineQueue();
      if holder.Free? {
        FreeSkips(View(), Begin(recorded));
        FreeSkips(View(), Reply(ok, forget));
        FreeSkips(View(), PutBack);
        return;
      }
      BeginPrompt(recorded);
      if holder.Awaiting? {
        FinishPrompt(ok, forget);
      } else {
        ReturningSkips(View(), ok, forget);
      }
      if holder.Returning? {
        PutBackHead();
      } else {
        FreeSkips(View(), PutBack);
      }
    }
  }

  lemma TakeTurnStep(s: State)
    requires s.holder.Free? && s.advances > 0
    ensures Apply(s, TakeTurn) == s.(holder := Advancing, advances := s.advances - 1)
  {
  }

  lemma ReturningSkips(s: State, ok: bool, forget: bool)
    requires s.holder.Returning?
    ensures Apply(s, Reply(ok, forget)) == s
  {
  }

  lemma SubmitStep(s: State, m: Message)
    requires s.holder.Free?
    ensures Apply(s, Submit(m)) == s.(holder := Submitting(m))
  {
  }

  /** The later steps of a call that has already returned change nothing. */
  lemma FreeSkips(s: State, e: Event)
    requires s.holder.Free? && (e.Look? || e.Begin? || e.Reply? || e.PutBack?)
    ensures Apply(s, e) == s
  {
  }

  lemma PromptRun(s: State, m: Message, recorded: bool, ok: bool, forget: bool)
    ensures Run(s, [Submit(m), Look, Begin(recorded), Reply(ok, forget)]) ==
      Apply(Apply(Apply(Apply(s, Submit(m)), Look), Begin(recorded)), Reply(ok, forget))
  {
    hide Apply;
    var e1, e2, e3, e4 := Submit(m), Look, Begin(recorded), Reply(ok, forget);
    assert [e1, e2, e3, e4][..3] == [e1, e2, e3] && [e1, e2, e3][..2] == [e1, e2] && [e1, e2][..1] == [e1]
        && [e1][..0] == [];
    assert Run(s, [e1]) == Apply(s, e1);
    assert Run(s, [e1, e2]) == Apply(Run(s, [e1]), e2);
    assert Run(s, [e1, e2, e3]) == Apply(Run(s, [e1, e2]), e3);
  }

  lemma AdvanceRun(s: State, recorded: bool, ok: bool, forget: bool)
    ensures Run(s, [TakeTurn, Look, Begin(recorded), Reply(ok, forget), PutBack]) ==
      Apply(Apply(Apply(Apply(Apply(s, TakeTurn), Look), Begin(recorded)), Reply(ok, forget)), PutBack)
  {
    hide Apply;
    var e1, e2, e3, e4 := TakeTurn, Look, Begin(recorded), Reply(ok, forget);
    assert [e1, e2, e3, e4, PutBack][..4] == [e1, e2, e3, e4];
    assert [e1, e2, e3, e4][..3] == [e1, e2, e3] && [e1, e2, e3][..2] == [e1, e2] && [e1, e2][..1] == [e1]
        && [e1][..0] == [];
    assert Run(s, [e1]) == Apply(s, e1);
    assert Run(s, [e1, e2]) == Apply(Run(s, [e1]), e2);
    assert Run(s, [e1, e2, e3]) == Apply(Run(s, [e1, e2]), e3);
    assert Run(s, [e1, e2, e3, e4]) == Apply(Run(s, [e1, e2, e3]), e4);
  }
}
