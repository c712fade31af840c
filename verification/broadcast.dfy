/** In-process fan-out subscriptions: one head-indexed queue implements ordered,
    latest-only and coalescing delivery. */
module Broadcast {
  import opened Common

  const DEFAULT_MAX_PENDING := 256

  datatype Mode<!T> = Ordered | LatestOnly | Coalesced(key: T -> string)

  // ---------------------------------------------------------------- normal form

  /** Two neighbours belong to one run when they carry the same nonempty key. */
  predicate SameRun<T>(key: T -> string, older: T, newer: T) {
    key(newer) != "" && key(newer) == key(older)
  }

  /** Appends a value to a sequence, replacing the last value of its own run. */
  function Push<T>(key: T -> string, xs: seq<T>, v: T): seq<T> {
    if xs != [] && SameRun(key, xs[|xs| - 1], v) then xs[..|xs| - 1] + [v] else xs + [v]
  }

  function PushAll<T>(key: T -> string, xs: seq<T>, vs: seq<T>): seq<T> {
    if vs == [] then xs else Push(key, PushAll(key, xs, vs[..|vs| - 1]), vs[|vs| - 1])
  }

  /** Every maximal run of equal nonempty keys collapsed to its last value. */
  function Collapse<T>(key: T -> string, vs: seq<T>): seq<T> {
    PushAll(key, [], vs)
  }

  lemma {:induction false} PushAllAppend<T>(key: T -> string, xs: seq<T>, a: seq<T>, b: seq<T>)
    ensures PushAll(key, xs, a + b) == PushAll(key, PushAll(key, xs, a), b)
  {
    if b == [] {
      assert a + b == a;
    } else {
      assert (a + b)[..|a + b| - 1] == a + b[..|b| - 1];
      PushAllAppend(key, xs, a, b[..|b| - 1]);
    }
  }

  /** A value immediately superseded within its run leaves no trace. */
  lemma Superseded<T>(key: T -> string, xs: seq<T>, u: T, v: T)
    requires SameRun(key, u, v)
    ensures Push(key, Push(key, xs, u), v) == Push(key, xs, v)
  {
    var ys := Push(key, xs, u);
    assert ys[|ys| - 1] == u;
    if xs != [] && SameRun(key, xs[|xs| - 1], u) {
      assert ys[..|ys| - 1] == xs[..|xs| - 1];
    } else {
      assert ys[..|ys| - 1] == xs;
    }
  }

  lemma PushAllOne<T>(key: T -> string, xs: seq<T>, vs: seq<T>, v: T)
    ensures PushAll(key, xs, vs + [v]) == Push(key, PushAll(key, xs, vs), v)
  {
    assert (vs + [v])[..|vs + [v]| - 1] == vs;
  }

  /** Pushing the collapsed form of a sequence is as good as pushing the sequence. */
  lemma {:induction false} PushAllCollapsed<T>(key: T -> string, xs: seq<T>, vs: seq<T>)
    ensures PushAll(key, xs, Collapse(key, vs)) == PushAll(key, xs, vs)
  {
    if vs != [] {
      var init, v := vs[..|vs| - 1], vs[|vs| - 1];
      assert vs == init + [v];
      PushAllCollapsed(key, xs, init);
      PushAllOne(key, xs, init, v);
      PushAllOne(key, [], init, v);
      var c := Collapse(key, init);
      if c != [] && SameRun(key, c[|c| - 1], v) {
        var w, u := c[..|c| - 1], c[|c| - 1];
        assert c == w + [u];
        PushAllOne(key, xs, w, u);
        PushAllOne(key, xs, w, v);
        Superseded(key, PushAll(key, xs, w), u, v);
      } else {
        PushAllOne(key, xs, c, v);
      }
    }
  }

  /** Collapsing may be done piecewise: two histories with equal normal forms stay
      equal when extended by equivalent suffixes. */
  lemma CollapseCongruence<T>(key: T -> string, a: seq<T>, a': seq<T>, b: seq<T>, b': seq<T>)
    requires Collapse(key, a) == Collapse(key, a')
    requires Collapse(key, b) == Collapse(key, b')
    ensures Collapse(key, a + b) == Collapse(key, a' + b')
  {
    PushAllAppend(key, [], a, b);
    PushAllAppend(key, [], a', b');
    PushAllCollapsed(key, Collapse(key, a), b);
    PushAllCollapsed(key, Collapse(key, a), b');
  }

  lemma CollapseIdempotent<T>(key: T -> string, vs: seq<T>)
    ensures Collapse(key, Collapse(key, vs)) == Collapse(key, vs)
  {
    PushAllCollapsed(key, [], vs);
  }

  lemma CollapseAppend<T>(key: T -> string, vs: seq<T>, v: T)
    ensures Collapse(key, vs + [v]) == Push(key, Collapse(key, vs), v)
  {
    PushAllOne(key, [], vs, v);
  }

  lemma CollapseShort<T>(key: T -> string, v: T)
    ensures Collapse(key, []) == [] && Collapse(key, [v]) == [v]
  {
    PushAllOne(key, [], [], v);
    assert [] + [v] == [v];
  }

  lemma PushKeepsFirst<T>(key: T -> string, c: seq<T>, v: T)
    requires c != [] && !(|c| == 1 && SameRun(key, c[0], v))
    ensures Push(key, c, v) != [] && Push(key, c, v)[0] == c[0]
    ensures Push(key, c, v)[1..] == Push(key, c[1..], v)
  {
    hide SameRun;
  }

  /** The first value of a normal form stands for a whole leading run. */
  lemma {:induction false} SplitFirstRun<T>(key: T -> string, vs: seq<T>) returns (n: nat)
    requires vs != []
    ensures 0 < n <= |vs|
    ensures Collapse(key, vs) != []
    ensures Collapse(key, vs[..n]) == [Collapse(key, vs)[0]]
    ensures Collapse(key, vs[n..]) == Collapse(key, vs)[1..]
  {
    hide *;
    var init, v := vs[..|vs| - 1], vs[|vs| - 1];
    assert vs == init + [v];
    CollapseShort(key, v);
    if init == [] {
      n := 1;
      assert vs == [v] && vs[..1] == vs && vs[1..] == [];
    } else {
      n := SplitFirstRun(key, init);
      CollapseAppend(key, init, v);
      var c := Collapse(key, init);
      if |c| == 1 && SameRun(key, c[0], v) {
        PushReplaces(key, c[0], v);
        assert c == [c[0]];
        n := |vs|;
        assert vs[..n] == vs && vs[n..] == [];
      } else {
        assert vs[..n] == init[..n];
        assert vs[n..] == init[n..] + [v];
        CollapseAppend(key, init[n..], v);
        PushKeepsFirst(key, c, v);
      }
    }
  }

  lemma PushReplaces<T>(key: T -> string, u: T, v: T)
    requires SameRun(key, u, v)
    ensures Push(key, [u], v) == [v]
  {
    assert [u][..0] + [v] == [v];
  }

  lemma {:induction false} CollapseLast<T>(key: T -> string, vs: seq<T>)
    requires vs != []
    ensures Collapse(key, vs) != [] && Collapse(key, vs)[|Collapse(key, vs)| - 1] == vs[|vs| - 1]
  {
  }

  /** Histories with one normal form end on the same value. */
  lemma SameLast<T>(key: T -> string, a: seq<T>, b: seq<T>)
    requires Collapse(key, a) == Collapse(key, b)
    ensures (a == []) == (b == [])
    ensures b != [] ==> a[|a| - 1] == b[|b| - 1]
  {
    if a != [] {
      CollapseLast(key, a);
    }
    if b != [] {
      CollapseLast(key, b);
    }
  }

  /** Without keys nothing is ever collapsed. */
  lemma {:induction false} CollapseWithoutKeys<T>(key: T -> string, vs: seq<T>)
    requires forall v :: key(v) == ""
    ensures Collapse(key, vs) == vs
  {
    if vs != [] {
      CollapseWithoutKeys(key, vs[..|vs| - 1]);
    }
  }

  // ------------------------------------------------------------- the queue itself

  /** What publishing `v` does to the pending values; None is the overflow that
      disconnects the subscriber. */
  function Enqueued<T>(mode: Mode<T>, limit: nat, pending: seq<T>, v: T): Option<seq<T>> {
    if pending != [] && mode.LatestOnly? then
      Some(pending[..|pending| - 1] + [v])
    else if pending != [] && mode.Coalesced? && SameRun(mode.key, pending[|pending| - 1], v) then
      Some(pending[..|pending| - 1] + [v])
    else if |pending| >= limit then
      None
    else
      Some(pending + [v])
  }

  /** Where the delivery goroutine stands between two of its critical sections. */
  datatype Phase<T> = Looking | Sending(value: T) | Parked | Exited

  /** One subscription together with the history of its broker since it opened. */
  datatype State<T> = State(
    pending: seq<T>, closed: bool, wake: bool, phase: Phase<T>,
    delivered: seq<T>, published: seq<T>)
  {
    function InHand(): seq<T> {
      if phase.Sending? then [phase.value] else []
    }
  }

  datatype Event<T> =
    | Publish(value: T)   // a publisher reaches this subscription
    | Close               // the consumer closes it
    | Look                // the goroutine takes the next value, or finds none
    | Deliver             // the consumer receives the value in hand
    | Wake                // the goroutine consumes the wake token
    | SeeDone             // the goroutine notices the closed done channel

  function Apply<T>(mode: Mode<T>, limit: nat, s: State<T>, e: Event<T>): State<T> {
    match e
    case Publish(v) =>
      var t := s.(published := s.published + [v]);
      if s.closed then t
      else (
        match Enqueued(mode, limit, s.pending, v)
        case None => t.(pending := [], closed := true)
        case Some(q) => t.(pending := q, wake := s.wake || |q| > |s.pending|)
      )
    case Close => s.(closed := true)
    case Look =>
      if !s.phase.Looking? then s
      else if s.pending == [] then s.(phase := Parked)
      else s.(phase := Sending(s.pending[0]), pending := s.pending[1..])
    case Deliver =>
      if s.phase.Sending? then s.(delivered := s.delivered + [s.phase.value], phase := Looking) else s
    case Wake =>
      if s.phase.Parked? && s.wake then s.(phase := Looking, wake := false) else s
    case SeeDone =>
      if (s.phase.Parked? || s.phase.Sending?) && s.closed then s.(phase := Exited) else s
  }

  function Run<T>(mode: Mode<T>, limit: nat, s: State<T>, events: seq<Event<T>>): State<T> {
    if events == [] then s
    else Apply(mode, limit, Run(mode, limit, s, events[..|events| - 1]), events[|events| - 1])
  }

  function Opened<T>(): State<T> {
    State([], false, false, Looking, [], [])
  }

  function KeyOf<T>(mode: Mode<T>): T -> string {
    if mode.Coalesced? then mode.key else (_ => "")
  }

  // ------------------------------------------------- ordered and coalesced delivery

  /** The published values cut into those delivered, those delivered or in hand and
      those accepted into the queue. */
  ghost predicate Accounts<T>(key: T -> string, s: State<T>, sent: nat, taken: nat, upTo: nat) {
    && sent <= taken <= upTo <= |s.published|
    && Collapse(key, s.delivered) == Collapse(key, s.published[..sent])
    && Collapse(key, s.delivered + s.InHand()) == Collapse(key, s.published[..taken])
    && (!s.phase.Exited? ==> s.pending == Collapse(key, s.published[taken..upTo]))
    && (!s.closed ==> upTo == |s.published| && !s.phase.Exited?)
  }

  ghost predicate Faithful<T>(key: T -> string, s: State<T>) {
    exists sent: nat, taken: nat, upTo: nat :: Accounts(key, s, sent, taken, upTo)
  }

  /** A queue that is not latest-only grows exactly as the normal form does. */
  lemma EnqueuedPushes<T>(mode: Mode<T>, limit: nat, pending: seq<T>, v: T)
    requires !mode.LatestOnly? && Enqueued(mode, limit, pending, v).Some?
    ensures Enqueued(mode, limit, pending, v).value == Push(KeyOf(mode), pending, v)
  {
  }

  lemma LongerHistory<T>(old': seq<T>, v: T, m: nat, n: nat)
    requires m <= n <= |old'|
    ensures (old' + [v])[m..n] == old'[m..n] && (old' + [v])[..n] == old'[..n] && (old' + [v])[..m] == old'[..m]
    ensures (old' + [v])[m..|old'| + 1] == old'[m..] + [v]
  {
  }

  lemma PublishKeepsAccounts<T>(mode: Mode<T>, limit: nat, s: State<T>, v: T, sent: nat, taken: nat, upTo: nat)
    requires !mode.LatestOnly?
    requires Accounts(KeyOf(mode), s, sent, taken, upTo)
    ensures Faithful(KeyOf(mode), Apply(mode, limit, s, Publish(v)))
  {
    hide Collapse, Push, KeyOf, Enqueued, Faithful;
    var key := KeyOf(mode);
    var t := Apply(mode, limit, s, Publish(v));
    LongerHistory(s.published, v, sent, taken);
    LongerHistory(s.published, v, taken, upTo);
    LongerHistory(s.published, v, taken, taken);
    CollapseShort(key, v);
    if s.closed {
      AccountsAreFaithful(key, t, sent, taken, upTo);
    } else if Enqueued(mode, limit, s.pending, v).None? {
      assert t.published[taken..taken] == [];
      AccountsAreFaithful(key, t, sent, taken, taken);
    } else {
      EnqueuedPushes(mode, limit, s.pending, v);
      assert s.published[taken..upTo] == s.published[taken..];
      CollapseAppend(key, s.published[taken..], v);
      AccountsAreFaithful(key, t, sent, taken, upTo + 1);
    }
  }

  lemma AccountsAreFaithful<T>(key: T -> string, s: State<T>, sent: nat, taken: nat, upTo: nat)
    requires Accounts(key, s, sent, taken, upTo)
    ensures Faithful(key, s)
  {
    hide Accounts;
  }

  lemma CutAt<T>(vs: seq<T>, from: nat, upTo: nat, n: nat)
    requires from <= upTo <= |vs| && n <= upTo - from
    ensures vs[..from + n] == vs[..from] + vs[from..upTo][..n]
    ensures vs[from + n..upTo] == vs[from..upTo][n..]
  {
  }

  lemma LookKeepsAccounts<T>(mode: Mode<T>, limit: nat, s: State<T>, sent: nat, taken: nat, upTo: nat)
    requires Accounts(KeyOf(mode), s, sent, taken, upTo)
    ensures Faithful(KeyOf(mode), Apply(mode, limit, s, Look))
  {
    hide Collapse, Push, KeyOf, Enqueued, Faithful;
    var key := KeyOf(mode);
    var t := Apply(mode, limit, s, Look);
    if s.phase.Looking? && s.pending != [] {
      var rest, first := s.published[taken..upTo], s.pending[0];
      CollapseShort(key, first);
      var n := SplitFirstRun(key, rest);
      CutAt(s.published, taken, upTo, n);
      assert s.delivered + [] == s.delivered;
      CollapseCongruence(key, s.delivered, s.published[..taken], [first], rest[..n]);
      AccountsAreFaithful(key, t, sent, taken + n, upTo);
    } else {
      AccountsAreFaithful(key, t, sent, taken, upTo);
    }
  }

  lemma StepKeepsFaithful<T>(mode: Mode<T>, limit: nat, s: State<T>, e: Event<T>)
    requires !mode.LatestOnly? && Faithful(KeyOf(mode), s)
    ensures Faithful(KeyOf(mode), Apply(mode, limit, s, e))
  {
    var key := KeyOf(mode);
    var sent: nat, taken: nat, upTo: nat :| Accounts(key, s, sent, taken, upTo);
    var t := Apply(mode, limit, s, e);
    match e
    case Publish(v) => PublishKeepsAccounts(mode, limit, s, v, sent, taken, upTo);
    case Look => LookKeepsAccounts(mode, limit, s, sent, taken, upTo);
    case Deliver =>
      if s.phase.Sending? {
        assert t.delivered + t.InHand() == t.delivered == s.delivered + s.InHand();
        assert Accounts(key, t, taken, taken, upTo);
      } else {
        assert t == s;
      }
    case SeeDone =>
      if t.phase.Exited? && !s.phase.Exited? {
        assert t.delivered + t.InHand() == s.delivered;
        assert Accounts(key, t, sent, sent, upTo);
      } else {
        assert t == s;
      }
    case Close =>
      assert t.InHand() == s.InHand();
      assert Accounts(key, t, sent, taken, upTo);
    case Wake =>
      assert t.InHand() == s.InHand();
      assert Accounts(key, t, sent, taken, upTo);
  }

  lemma {:induction false} RunIsFaithful<T>(mode: Mode<T>, limit: nat, events: seq<Event<T>>)
    requires !mode.LatestOnly?
    ensures Faithful(KeyOf(mode), Run(mode, limit, Opened(), events))
  {
    if events == [] {
      assert Accounts(KeyOf(mode), Opened<T>(), 0, 0, 0);
    } else {
      RunIsFaithful(mode, limit, events[..|events| - 1]);
      StepKeepsFaithful(mode, limit, Run(mode, limit, Opened(), events[..|events| - 1]), events[|events| - 1]);
    }
  }

  /** Coalesced delivery keeps the meaning of the stream: while the subscription is
      open, what was delivered, is in hand and is queued has the published normal
      form and ends on the newest published value; after it closed, what was delivered
      still stands for a prefix. */
  lemma CoalescedDelivery<T>(key: T -> string, limit: nat, events: seq<Event<T>>) returns (sent: nat)
    ensures var s := Run(Coalesced(key), limit, Opened(), events);
      && sent <= |s.published|
      && Collapse(key, s.delivered) == Collapse(key, s.published[..sent])
      && (!s.closed ==>
            var held := s.delivered + s.InHand() + s.pending;
            && Collapse(key, held) == Collapse(key, s.published)
            && (s.published != [] ==> held != [] && held[|held| - 1] == s.published[|s.published| - 1]))
  {
    hide Run, Collapse;
    var s := Run(Coalesced(key), limit, Opened(), events);
    RunIsFaithful(Coalesced(key), limit, events);
    assert KeyOf(Coalesced(key)) == key;
    var sent', taken: nat, upTo: nat :| Accounts(key, s, sent', taken, upTo);
    sent := sent';
    if !s.closed {
      var rest := s.published[taken..];
      assert s.published[taken..upTo] == rest;
      assert s.published[..taken] + rest == s.published;
      CollapseIdempotent(key, rest);
      CollapseCongruence(key, s.delivered + s.InHand(), s.published[..taken], s.pending, rest);
      SameLast(key, s.delivered + s.InHand() + s.pending, s.published);
    }
  }

  lemma AccountsWithoutKeys<T>(key: T -> string, s: State<T>, sent: nat, taken: nat, upTo: nat)
    requires Accounts(key, s, sent, taken, upTo)
    requires forall v :: key(v) == ""
    ensures s.delivered == s.published[..sent]
    ensures s.delivered + s.InHand() == s.published[..taken]
    ensures !s.phase.Exited? ==> s.pending == s.published[taken..upTo]
    ensures sent <= taken <= upTo <= |s.published| && (!s.closed ==> upTo == |s.published| && !s.phase.Exited?)
  {
    hide Collapse;
    CollapseWithoutKeys(key, s.delivered);
    CollapseWithoutKeys(key, s.delivered + s.InHand());
    CollapseWithoutKeys(key, s.published[..sent]);
    CollapseWithoutKeys(key, s.published[..taken]);
    CollapseWithoutKeys(key, s.published[taken..upTo]);
  }

  /** Ordered delivery loses and reorders nothing: while open, delivered, in hand and
      queued values are exactly the published ones; after an overflow or a close the
      delivered ones are a prefix. */
  lemma OrderedDelivery<T>(limit: nat, events: seq<Event<T>>)
    ensures var s := Run(Ordered, limit, Opened(), events);
      && s.delivered <= s.published
      && (!s.closed ==> s.delivered + s.InHand() + s.pending == s.published)
  {
    hide Collapse, Accounts, Run;
    var s := Run(Ordered, limit, Opened(), events);
    RunIsFaithful(Ordered, limit, events);
    var key := KeyOf<T>(Ordered);
    var sent: nat, taken: nat, upTo: nat :| Accounts(key, s, sent, taken, upTo);
    AccountsWithoutKeys(key, s, sent, taken, upTo);
    if !s.closed {
      assert s.published[taken..upTo] == s.published[taken..];
      assert s.published[..taken] + s.published[taken..] == s.published;
    }
  }

  // ------------------------------------------------------------ latest-only delivery

  /** The newest value that was delivered, is in hand or is still queued. */
  function NewestHeld<T>(s: State<T>): Option<T> {
    if s.pending != [] then Some(s.pending[|s.pending| - 1])
    else if s.phase.Sending? then Some(s.phase.value)
    else if s.delivered != [] then Some(s.delivered[|s.delivered| - 1])
    else None
  }

  /** A latest-only subscription retains at most one value, is never disconnected by
      its producer and always ends on the newest published value. */
  ghost predicate EndsOnNewest<T>(s: State<T>, closedByConsumer: bool) {
    && |s.pending| <= 1
    && s.closed == closedByConsumer
    && (s.phase.Exited? ==> s.closed)
    && (!s.closed && s.published != [] ==> NewestHeld(s) == Some(s.published[|s.published| - 1]))
  }

  lemma StepEndsOnNewest<T>(limit: nat, s: State<T>, e: Event<T>, closedByConsumer: bool)
    requires limit > 0 && EndsOnNewest(s, closedByConsumer)
    ensures EndsOnNewest(Apply(LatestOnly, limit, s, e), closedByConsumer || e == Close)
  {
    if e.Look? && s.phase.Looking? && |s.pending| == 1 {
      assert s.pending[1..] == [];
    }
  }

  lemma {:induction false} LatestOnlyDelivery<T>(limit: nat, events: seq<Event<T>>)
    requires limit > 0
    ensures EndsOnNewest(Run(LatestOnly, limit, Opened(), events), Close in events)
  {
    if events != [] {
      var init, e := events[..|events| - 1], events[|events| - 1];
      LatestOnlyDelivery(limit, init);
      assert events == init + [e];
      StepEndsOnNewest(limit, Run(LatestOnly, limit, Opened(), init), e, Close in init);
    }
  }

  // ----------------------------------------------------------------- no lost wakeups

  /** The goroutine never sleeps on a nonempty queue without a wake token or a closed
      done channel to rouse it, and the queue respects its bound. */
  ghost predicate Awake<T>(s: State<T>, limit: nat) {
    && (s.phase.Parked? && s.pending != [] ==> s.wake || s.closed)
    && |s.pending| <= limit
  }

  lemma {:induction false} NoLostWakeup<T>(mode: Mode<T>, limit: nat, events: seq<Event<T>>)
    ensures Awake(Run(mode, limit, Opened(), events), limit)
  {
    if events != [] {
      NoLostWakeup(mode, limit, events[..|events| - 1]);
    }
  }

  /** A quiet subscription has handed over everything: with no value in hand, no wake
      token and the goroutine asleep, an open subscription has an empty queue. */
  lemma QuietMeansDrained<T>(mode: Mode<T>, limit: nat, events: seq<Event<T>>)
    ensures var s := Run(mode, limit, Opened(), events);
      s.phase.Parked? && !s.wake && !s.closed ==> s.pending == []
  {
    NoLostWakeup(mode, limit, events);
  }

  // ----------------------------------------------- when a subscription is disconnected

  lemma RunAppend<T>(mode: Mode<T>, limit: nat, events: seq<Event<T>>, e: Event<T>)
    ensures Run(mode, limit, Opened(), events + [e]) == Apply(mode, limit, Run(mode, limit, Opened(), events), e)
  {
    assert (events + [e])[..|events|] == events;
    hide Apply;
  }

  /** Does the value continue the run of the last pending one? */
  predicate Continues<T>(mode: Mode<T>, pending: seq<T>, v: T) {
    mode.Coalesced? && pending != [] && mode.key(v) != "" && mode.key(v) == mode.key(pending[|pending| - 1])
  }

  lemma LatestHoldsOne<T>(mode: Mode<T>, limit: nat, events: seq<Event<T>>)
    requires limit > 0
    ensures mode.LatestOnly? ==> |Run(mode, limit, Opened(), events).pending| <= 1
  {
    if mode.LatestOnly? {
      LatestOnlyDelivery(limit, events);
    }
    hide Run;
  }

  /** On every run a publication disconnects an open subscription exactly when the mode is
      not latest-only, `limit` values are pending, and the value does not continue the run of
      the last one. Otherwise it replaces that value in its run, or the one pending value of
      a latest-only subscription, or joins the queue and leaves a wake token. */
  lemma PublishDisconnectsExactly<T>(mode: Mode<T>, limit: nat, events: seq<Event<T>>, v: T)
    requires limit > 0 && !Run(mode, limit, Opened(), events).closed
    ensures var s, t := Run(mode, limit, Opened(), events), Run(mode, limit, Opened(), events + [Publish(v)]);
      var replacing := s.pending != [] && (mode.LatestOnly? || Continues(mode, s.pending, v));
      && (t.closed <==> !mode.LatestOnly? && |s.pending| == limit && !Continues(mode, s.pending, v))
      && (t.closed ==> t.pending == [])
      && (!t.closed && replacing ==> t.pending == s.pending[|s.pending| - 1 := v])
      && (!t.closed && !replacing ==> t.pending == s.pending + [v] && t.wake)
      && t.published == s.published + [v] && t.delivered == s.delivered && t.phase == s.phase
  {
    hide *;
    RunAppend(mode, limit, events, Publish(v));
    LatestHoldsOne(mode, limit, events);
    NoLostWakeup(mode, limit, events);
    AwakeMeans(Run(mode, limit, Opened(), events), limit);
    PublishStep(mode, limit, Run(mode, limit, Opened(), events), v);
  }

  lemma AwakeMeans<T>(s: State<T>, limit: nat)
    requires Awake(s, limit)
    ensures |s.pending| <= limit
  {
  }

  lemma PublishStep<T>(mode: Mode<T>, limit: nat, s: State<T>, v: T)
    requires limit > 0 && !s.closed && |s.pending| <= limit && (mode.LatestOnly? ==> |s.pending| <= 1)
    ensures var t := Apply(mode, limit, s, Publish(v));
      var replacing := s.pending != [] && (mode.LatestOnly? || Continues(mode, s.pending, v));
      && (t.closed <==> !mode.LatestOnly? && |s.pending| == limit && !Continues(mode, s.pending, v))
      && (t.closed ==> t.pending == [])
      && (!t.closed && replacing ==> t.pending == s.pending[|s.pending| - 1 := v])
      && (!t.closed && !replacing ==> t.pending == s.pending + [v] && t.wake)
      && t.published == s.published + [v] && t.delivered == s.delivered && t.phase == s.phase
  {
  }

  /** A subscription that its consumer does not close, and whose queue never holds `limit`
      values when something is published, is open at the end of the run. */
  lemma {:induction false} RoomKeepsOpen<T>(mode: Mode<T>, limit: nat, events: seq<Event<T>>)
    requires limit > 0 && Close !in events
    requires forall k :: 0 <= k < |events| && events[k].Publish? ==>
      |Run(mode, limit, Opened(), events[..k]).pending| < limit
    ensures !Run(mode, limit, Opened(), events).closed
  {
    if events != [] {
      var init, e := events[..|events| - 1], events[|events| - 1];
      forall k | 0 <= k < |init| && init[k].Publish? ensures |Run(mode, limit, Opened(), init[..k]).pending| < limit {
        assert init[..k] == events[..k] && init[k] == events[k];
      }
      RoomKeepsOpen(mode, limit, init);
      assert events == init + [e];
      if e.Publish? {
        PublishDisconnectsExactly(mode, limit, init, e.value);
      } else {
        RunAppend(mode, limit, init, e);
      }
    }
  }

  function Account<T>(s: State<T>): seq<T> {
    s.delivered + (s.InHand() + s.pending)
  }

  /** A closed subscription takes nothing more: it delivers at most what it held when it
      closed, in order, and nothing after its goroutine has exited. */
  lemma {:induction false} ClosedForGood<T>(mode: Mode<T>, limit: nat, s: State<T>, events: seq<Event<T>>)
    requires s.closed
    ensures var t := Run(mode, limit, s, events);
      && t.closed && t.delivered <= Account(s)
      && (t.phase.Exited? || Account(t) == Account(s))
      && (s.phase.Exited? ==> t.phase.Exited? && t.delivered == s.delivered)
  {
    hide Apply, Account;
    if events == [] {
      DeliveredFirst(s);
    } else {
      var r := Run(mode, limit, s, events[..|events| - 1]);
      ClosedForGood(mode, limit, s, events[..|events| - 1]);
      ClosedStep(mode, limit, r, events[|events| - 1]);
      DeliveredFirst(Run(mode, limit, s, events));
    }
  }

  lemma DeliveredFirst<T>(s: State<T>)
    ensures s.delivered <= Account(s)
  {
  }

  lemma ClosedStep<T>(mode: Mode<T>, limit: nat, s: State<T>, e: Event<T>)
    requires s.closed
    ensures var t := Apply(mode, limit, s, e);
      && t.closed
      && (t.phase.Exited? || Account(t) == Account(s))
      && (s.phase.Exited? || t.phase.Exited? ==> t.delivered == s.delivered)
      && (s.phase.Exited? ==> t.phase.Exited?)
  {
    var t := Apply(mode, limit, s, e);
    if e.Look? && s.phase.Looking? && s.pending != [] {
      assert [s.pending[0]] + s.pending[1..] == [] + s.pending;
    } else if e.Deliver? && s.phase.Sending? {
      assert s.delivered + [s.phase.value] + ([] + s.pending) == s.delivered + ([s.phase.value] + s.pending);
    }
  }

  /** Closing takes effect at once and leaves the queue alone; the goroutine then exits at
      its next wait. */
  lemma ClosedExits<T>(mode: Mode<T>, limit: nat, s: State<T>)
    ensures var t := Apply(mode, limit, s, Close);
      && t.closed && Account(t) == Account(s)
      && Apply(mode, limit, Apply(mode, limit, t, Look), SeeDone).phase.Exited?
  {
  }

  // ----------------------------------------------------------- the goroutine drains

  /** What the goroutine does by itself with a willing consumer: it hands over the value it
      holds or wakes up, and then takes and hands over n values. */
  function Drain<T>(n: nat): seq<Event<T>> {
    if n == 0 then [Event.Deliver, Wake] else Drain(n - 1) + [Look, Event.Deliver]
  }

  predicate AtRest<T>(s: State<T>) {
    s.phase.Looking? || (s.phase.Parked? && s.pending == [])
  }

  lemma {:induction false} RunJoins<T>(mode: Mode<T>, limit: nat, s: State<T>, events: seq<Event<T>>,
                                       more: seq<Event<T>>)
    ensures Run(mode, limit, s, events + more) == Run(mode, limit, Run(mode, limit, s, events), more)
  {
    hide Apply;
    if more == [] {
      assert events + more == events;
    } else {
      assert (events + more)[..|events + more| - 1] == events + more[..|more| - 1];
      RunJoins(mode, limit, s, events, more[..|more| - 1]);
    }
  }

  lemma RunPair<T>(mode: Mode<T>, limit: nat, s: State<T>, a: Event<T>, b: Event<T>)
    ensures Run(mode, limit, s, [a, b]) == Apply(mode, limit, Apply(mode, limit, s, a), b)
  {
    hide Apply;
    assert [a][..0] == [] && Run(mode, limit, s, [a]) == Apply(mode, limit, s, a);
    assert [a, b][..1] == [a];
  }

  lemma LookAndDeliver<T>(mode: Mode<T>, limit: nat, s: State<T>)
    requires AtRest(s)
    ensures var t := Apply(mode, limit, Apply(mode, limit, s, Look), Event.Deliver);
      AtRest(t) && t.delivered + t.pending == s.delivered + s.pending
      && |t.pending| == (if s.pending == [] then 0 else |s.pending| - 1) && t.closed == s.closed
  {
    if s.phase.Looking? && s.pending != [] {
      assert s.delivered + [s.pending[0]] + s.pending[1..] == s.delivered + s.pending;
    }
  }

  lemma {:induction false} DrainMoves<T>(mode: Mode<T>, limit: nat, s: State<T>, n: nat)
    requires !s.phase.Exited? && (s.phase.Parked? && s.pending != [] ==> s.wake)
    ensures var t := Run(mode, limit, s, Drain(n));
      && AtRest(t) && t.delivered + t.pending == s.delivered + s.InHand() + s.pending && t.closed == s.closed
      && |t.pending| == (if n <= |s.pending| then |s.pending| - n else 0)
  {
    hide Run, Apply;
    if n == 0 {
      RunPair(mode, limit, s, Event.Deliver, Wake);
      HandOver(mode, limit, s);
    } else {
      DrainMoves(mode, limit, s, n - 1);
      RunJoins(mode, limit, s, Drain(n - 1), [Look, Event.Deliver]);
      RunPair(mode, limit, Run(mode, limit, s, Drain(n - 1)), Look, Event.Deliver);
      LookAndDeliver(mode, limit, Run(mode, limit, s, Drain(n - 1)));
    }
  }

  lemma HandOver<T>(mode: Mode<T>, limit: nat, s: State<T>)
    requires !s.phase.Exited? && (s.phase.Parked? && s.pending != [] ==> s.wake)
    ensures var t := Apply(mode, limit, Apply(mode, limit, s, Event.Deliver), Wake);
      AtRest(t) && t.delivered + t.pending == s.delivered + s.InHand() + s.pending && t.pending == s.pending
      && t.closed == s.closed
  {
  }

  /** With a willing consumer the goroutine of an open subscription delivers everything: from
      every reachable state its own steps alone lead to an empty queue, with exactly what was
      in hand and pending appended to what was delivered. */
  lemma GoroutineDrains<T>(mode: Mode<T>, limit: nat, events: seq<Event<T>>)
    requires limit > 0 && !Run(mode, limit, Opened(), events).closed
    ensures var s := Run(mode, limit, Opened(), events);
      var t := Run(mode, limit, s, Drain(|s.pending|));
      && !t.closed && t.pending == [] && t.InHand() == []
      && t.delivered == s.delivered + s.InHand() + s.pending
  {
    NoLostWakeup(mode, limit, events);
    OpenIsRunning(mode, limit, events);
    var s := Run(mode, limit, Opened(), events);
    hide Run, Drain;
    DrainMoves(mode, limit, s, |s.pending|);
    var t := Run(mode, limit, s, Drain(|s.pending|));
    assert t.pending == [] && t.delivered + [] == t.delivered;
  }

  lemma {:induction false} OpenIsRunning<T>(mode: Mode<T>, limit: nat, events: seq<Event<T>>)
    ensures var s := Run(mode, limit, Opened(), events); s.phase.Exited? ==> s.closed
  {
    if events != [] {
      OpenIsRunning(mode, limit, events[..|events| - 1]);
    }
  }

  // ------------------------------------------------------- the subscription object

  /** The subscription as the broker and its goroutine update it: a queue read from a
      moving head, which restarts empty whenever the head catches up. */
  class Subscription<T> {
    const maxPending: nat
    const latestOnly: bool
    const coalesceKey: Option<T -> string>
    var queue: seq<T>
    var head: nat
    var closed: bool
    var wake: bool
    var phase: Phase<T>
    ghost var delivered: seq<T>
    ghost var published: seq<T>

    ghost predicate Valid()
      reads this
    {
      && head <= |queue|
      && (latestOnly ==> coalesceKey.None?)
    }

    function Kind(): Mode<T> {
      if latestOnly then LatestOnly
      else if coalesceKey.Some? then Coalesced(coalesceKey.value)
      else Ordered
    }

    ghost function View(): State<T>
      reads this
      requires Valid()
    {
      State(queue[head..], closed, wake, phase, delivered, published)
    }

    /** A limit that is not positive selects the default. */
    constructor (maxPending: int, latestOnly: bool, coalesceKey: Option<T -> string>)
      requires latestOnly ==> coalesceKey.None?
      ensures Valid() && View() == Opened()
      ensures this.maxPending == (if maxPending > 0 then maxPending else DEFAULT_MAX_PENDING) > 0
      ensures this.latestOnly == latestOnly && this.coalesceKey == coalesceKey
    {
      this.maxPending := if maxPending > 0 then maxPending else DEFAULT_MAX_PENDING;
      this.latestOnly, this.coalesceKey := latestOnly, coalesceKey;
      queue, head, closed, wake, phase := [], 0, false, false, Looking;
      delivered, published := [], [];
    }

    method Enqueue(value: T) returns (kept: bool)
      requires Valid()
      modifies this
      ensures Valid() && View() == Apply(Kind(), maxPending, old(View()), Publish(value))
      ensures kept == !closed
    {
      published := published + [value];
      if closed {
        return false;
      }
      if latestOnly && |queue| - head > 0 {
        queue := queue[|queue| - 1 := value];
        return true;
      }
      if coalesceKey.Some? && |queue| - head > 0 {
        var key := coalesceKey.value(value);
        if key != "" && key == coalesceKey.value(queue[|queue| - 1]) {
          queue := queue[|queue| - 1 := value];
          return true;
        }
      }
      if |queue| - head >= maxPending {
        queue, head, closed := [], 0, true;
        return false;
      }
      queue := queue + [value];
      wake := true;
      return true;
    }

    method CloseSubscription()
      requires Valid()
      modifies this
      ensures Valid() && View() == Apply(Kind(), maxPending, old(View()), Close)
    {
      closed := true;
    }

    method Next() returns (value: Option<T>)
      requires Valid()
      modifies this`queue, this`head
      ensures Valid()
      ensures value == if old(View()).pending == [] then None else Some(old(View()).pending[0])
      ensures View().pending == if value.None? then old(View()).pending else old(View()).pending[1..]
    {
      if head >= |queue| {
        return None;
      }
      value := Some(queue[head]);
      head := head + 1;
      if head == |queue| {
        queue, head := [], 0;
      }
    }

    /** One turn of the delivery loop, or of a publisher between two of its turns. */
    method Turn(e: Event<T>)
      requires Valid()
      modifies this
      ensures Valid() && View() == Apply(Kind(), maxPending, old(View()), e)
    {
      hide Enqueued;
      match e {
        case Publish(v) => var _ := Enqueue(v);
        case Close => CloseSubscription();
        case Look =>
          if phase.Looking? {
            var value := Next();
            phase := match value case Some(v) => Sending(v) case None => Parked;
          }
        case Deliver =>
          if phase.Sending? {
            delivered, phase := delivered + [phase.value], Looking;
          }
        case Wake =>
          if phase.Parked? && wake {
            wake, phase := false, Looking;
          }
        case SeeDone =>
          if (phase.Parked? || phase.Sending?) && closed {
            phase := Exited;
          }
      }
    }

    /** The delivery loop: `turns` says which of the select cases fires and what the
        broker does in between. */
    method Deliver(turns: seq<Event<T>>)
      requires Valid()
      modifies this
      ensures Valid() && View() == Run(Kind(), maxPending, old(View()), turns)
    {
      hide Apply, View, Kind;
      for i := 0 to |turns|
        invariant Valid()
        invariant View() == Run(Kind(), maxPending, old(View()), turns[..i])
      {
        assert turns[..i + 1][..i] == turns[..i];
        Turn(turns[i]);
      }
      assert turns[..|turns|] == turns;
    }
  }
}
