/** Agent status reports: prompt tokens and start times make the recorded status
    converge whatever the order in which hook processes deliver their updates. */
module AgentActivity {
  import opened Common

  const MAX_RETIRED_TOKENS := 64

  datatype Status = Working | Finished | Idle

  /** Times are natural numbers; 0 is the zero time, "no generation". */
  datatype Order = Order(active: string, activeStartedAt: nat, latestStartedAt: nat, retired: seq<string>)

  /** What the tracker holds for one key. */
  datatype Entry = Entry(order: Option<Order>, status: Option<Status>)

  // ------------------------------------------------------------ one prompt order

  function NewOrder(): Order {
    Order("", 0, 0, [])
  }

  predicate IsRetired(o: Order, token: string) {
    token != "" && token in o.retired
  }

  function Retire(o: Order, token: string): Order {
    if token == "" || IsRetired(o, token) then o
    else
      var all := o.retired + [token];
      o.(retired := if |all| > MAX_RETIRED_TOKENS then all[|all| - MAX_RETIRED_TOKENS..] else all)
  }

  predicate CanSupersede(o: Order, startedAt: nat, allowUnordered: bool) {
    if startedAt == 0 then allowUnordered && o.latestStartedAt == 0
    else o.latestStartedAt == 0 || startedAt > o.latestStartedAt
  }

  function Observe(o: Order, startedAt: nat): Order {
    o.(latestStartedAt := if startedAt > o.latestStartedAt then startedAt else o.latestStartedAt)
  }

  function Activate(o: Order, token: string, generation: nat): Order {
    Observe(Retire(o, o.active).(active := token, activeStartedAt := generation), generation)
  }

  /** The active prompt learns its start time late. */
  function Stamp(o: Order, generation: nat): Order {
    if o.activeStartedAt == 0 && generation != 0 then Observe(o.(activeStartedAt := generation), generation) else o
  }

  function Settle(o: Order, token: string): Order {
    Retire(if o.active == token then o.(active := "", activeStartedAt := 0) else o, token)
  }

  // ---------------------------------------------------------------- one update

  /** A client clock ahead of the server's is clamped to the arrival time. */
  function Generation(startedAt: Option<nat>, now: nat): nat {
    match startedAt
    case None => 0
    case Some(g) => if g > now then now else g
  }

  /** The order after an update with a token, or None when the update is ignored. */
  function Admit(o: Order, token: string, generation: nat, status: Status): Option<Order> {
    if IsRetired(o, token) then None
    else if status.Working? then
      if o.active == token then Some(Stamp(o, generation))
      else if CanSupersede(o, generation, true) then Some(Activate(o, token, generation))
      else None
    else if o.active == token then Some(Settle(Stamp(o, generation), token))
    else
      var allowUnordered := o.active == "" && o.latestStartedAt == 0;
      if (generation == 0 && allowUnordered) || CanSupersede(o, generation, false) then
        Some(Settle(Activate(o, token, generation), token))
      else None
  }

  function Updated(e: Entry, token: string, startedAt: Option<nat>, status: Status, now: nat): (Entry, bool) {
    var recorded := if status.Idle? then None else Some(status);
    if token != "" then
      var o := if e.order.Some? then e.order.value else NewOrder();
      match Admit(o, token, Generation(startedAt, now), status)
      case None => (e.(order := Some(o)), false)
      case Some(o') => (Entry(Some(o'), recorded), true)
    else if e.order.Some? && (e.order.value.active != "" || e.order.value.retired != []) then (e, false)
    else (e.(status := recorded), true)
  }

  // ------------------------------------------------- runs of generated updates

  /** One delivered report; `now` is its arrival time. */
  datatype Report = Report(token: string, status: Status, now: nat)

  /** Every prompt has its own nonzero start time, not after any report's arrival. */
  ghost predicate Generated(gen: string -> nat, reports: seq<Report>) {
    && (forall i :: 0 <= i < |reports| ==>
          reports[i].token != "" && 0 < gen(reports[i].token) <= reports[i].now)
    && (forall i, j :: 0 <= i < |reports| && 0 <= j < |reports| && gen(reports[i].token) == gen(reports[j].token) ==>
          reports[i].token == reports[j].token)
  }

  function Deliver(gen: string -> nat, e: Entry, r: Report): (Entry, bool) {
    Updated(e, r.token, Some(gen(r.token)), r.status, r.now)
  }

  function Process(gen: string -> nat, reports: seq<Report>): Entry {
    if reports == [] then Entry(None, None)
    else Deliver(gen, Process(gen, reports[..|reports| - 1]), reports[|reports| - 1]).0
  }

  /** Was report `i` applied when it arrived? */
  predicate Applied(gen: string -> nat, reports: seq<Report>, i: nat)
    requires i < |reports|
  {
    Deliver(gen, Process(gen, reports[..i]), reports[i]).1
  }

  /** `token` is the reported prompt that started last. */
  predicate IsNewest(gen: string -> nat, reports: seq<Report>, token: string) {
    && Reported(reports, token)
    && (forall i :: 0 <= i < |reports| ==> gen(reports[i].token) <= gen(token))
  }

  /** Report `i` is the first terminal report of `token`. */
  predicate SettledBy(reports: seq<Report>, token: string, i: nat) {
    && i < |reports| && reports[i].token == token && !reports[i].status.Working?
    && (forall j :: 0 <= j < i && reports[j].token == token ==> reports[j].status.Working?)
  }

  predicate Unsettled(reports: seq<Report>, token: string) {
    forall i :: 0 <= i < |reports| && reports[i].token == token ==> reports[i].status.Working?
  }

  function Shown(s: Status): Option<Status> {
    if s.Idle? then None else Some(s)
  }

  predicate RunsNewest(e: Entry, newest: string, generation: nat)
    requires e.order.Some?
  {
    && e.order.value.active == newest && e.order.value.activeStartedAt == generation
    && newest !in e.order.value.retired && e.status == Some(Working)
  }

  /** The exact meaning of a run: the entry is determined by the newest prompt alone. */
  ghost predicate Summarises(gen: string -> nat, reports: seq<Report>, e: Entry, newest: string) {
    && IsNewest(gen, reports, newest)
    && e.order.Some?
    && e.order.value.latestStartedAt == gen(newest)
    && AllReported(e.order.value.retired, reports)
    && (if Unsettled(reports, newest) then RunsNewest(e, newest, gen(newest)) else e.order.value.active == "")
    && ShowsOutcome(reports, newest, e.status)
  }

  predicate Reported(reports: seq<Report>, token: string) {
    exists i :: 0 <= i < |reports| && reports[i].token == token
  }

  predicate AllReported(tokens: seq<string>, reports: seq<Report>) {
    forall t :: t in tokens ==> Reported(reports, t)
  }

  /** The status is the one of the prompt's first terminal report, if there is one. */
  ghost predicate ShowsOutcome(reports: seq<Report>, token: string, status: Option<Status>) {
    forall i: nat :: SettledBy(reports, token, i) ==> status == Shown(reports[i].status)
  }

  lemma ReportedExtends(init: seq<Report>, r: Report, token: string)
    ensures Reported(init + [r], token) <==> Reported(init, token) || r.token == token
  {
    var all := init + [r];
    assert all[|init|] == r;
    if i :| 0 <= i < |init| && init[i].token == token {
      assert all[i].token == token;
    }
  }

  lemma NewestExtends(gen: string -> nat, init: seq<Report>, r: Report, newest: string)
    requires IsNewest(gen, init, newest) || init == []
    ensures gen(r.token) <= gen(newest) && init != [] ==> IsNewest(gen, init + [r], newest)
    ensures init == [] || gen(r.token) >= gen(newest) ==> IsNewest(gen, init + [r], r.token)
  {
    ReportedExtends(init, r, newest);
    ReportedExtends(init, r, r.token);
  }

  lemma UnsettledExtends(init: seq<Report>, r: Report, token: string)
    ensures Unsettled(init + [r], token) <==> Unsettled(init, token) && (r.token == token ==> r.status.Working?)
  {
    var all := init + [r];
    assert all[|init|] == r && forall i :: 0 <= i < |init| ==> all[i] == init[i];
  }

  /** The first terminal report decides; a later report changes nothing. */
  lemma OutcomeExtends(init: seq<Report>, r: Report, token: string, status: Option<Status>)
    requires Unsettled(init, token) && r.token == token && !r.status.Working? ==> status == Shown(r.status)
    requires !Unsettled(init, token) ==> ShowsOutcome(init, token, status)
    ensures ShowsOutcome(init + [r], token, status)
  {
    var all := init + [r];
    forall i: nat | SettledBy(all, token, i) ensures status == Shown(all[i].status) {
      assert forall j :: 0 <= j < |init| ==> all[j] == init[j];
      if i < |init| {
        assert SettledBy(init, token, i);
      } else {
        assert Unsettled(init, token);
      }
    }
  }

  lemma RetireKeeps(o: Order, token: string, t: string)
    ensures t in Retire(o, token).retired ==> t in o.retired || t == token
    ensures Retire(o, token) == o.(retired := Retire(o, token).retired)
  {
  }

  /** A report of a prompt older than the newest, or of the newest after it settled, is
      ignored; the newest prompt's own reports and any newer prompt's are applied. */
  lemma AdmitDecides(gen: string -> nat, init: seq<Report>, r: Report, e: Entry, newest: string)
    requires Generated(gen, init + [r]) && init != [] && Summarises(gen, init, e, newest)
    ensures Admit(e.order.value, r.token, gen(r.token), r.status).Some? <==>
      gen(r.token) > gen(newest) || (r.token == newest && Unsettled(init, newest))
  {
    var o := e.order.value;
    var all := init + [r];
    var k :| 0 <= k < |init| && init[k].token == newest;
    assert all[|init|] == r && all[k] == init[k];
    assert gen(r.token) == gen(newest) ==> all[|init|].token == all[k].token;
    if r.token in o.retired {
      var i :| 0 <= i < |init| && init[i].token == r.token;
      assert all[i] == init[i];
    }
  }

  lemma AllReportedExtends(tokens: seq<string>, init: seq<Report>, r: Report)
    requires forall t :: t in tokens ==> Reported(init, t) || t == r.token
    ensures AllReported(tokens, init + [r])
  {
    forall t | t in tokens ensures Reported(init + [r], t) {
      ReportedExtends(init, r, t);
    }
  }

  lemma NewerPromptTakesOver(gen: string -> nat, init: seq<Report>, r: Report, e: Entry, newest: string)
    requires Generated(gen, init + [r]) && init != [] && Summarises(gen, init, e, newest)
    requires gen(r.token) > gen(newest)
    ensures Summarises(gen, init + [r], Deliver(gen, e, r).0, r.token)
  {
    AdmitDecides(gen, init, r, e, newest);
    GenerationIsKept(gen, init, r);
    assert forall i :: 0 <= i < |init| ==> init[i].token != r.token;
    assert Unsettled(init, r.token);
    NewestExtends(gen, init, r, newest);
    UnsettledExtends(init, r, r.token);
    var o, o' := e.order.value, Deliver(gen, e, r).0.order.value;
    forall t | t in o'.retired ensures Reported(init, t) || t == r.token {
      ActiveIsReported(gen, init, e, newest);
      RetireKeeps(o, o.active, t);
      RetireKeeps(Activate(o, r.token, gen(r.token)).(active := "", activeStartedAt := 0), r.token, t);
    }
    AllReportedExtends(o'.retired, init, r);
    OutcomeExtends(init, r, r.token, Deliver(gen, e, r).0.status);
    RetireKeeps(o, o.active, r.token);
  }

  lemma ActiveIsReported(gen: string -> nat, init: seq<Report>, e: Entry, newest: string)
    requires Summarises(gen, init, e, newest)
    ensures e.order.value.active == "" || Reported(init, e.order.value.active)
    ensures e.order.value.active == "" || e.order.value.active == newest
  {
  }

  lemma GenerationIsKept(gen: string -> nat, init: seq<Report>, r: Report)
    requires Generated(gen, init + [r])
    ensures r.token != "" && 0 < gen(r.token) && Generation(Some(gen(r.token)), r.now) == gen(r.token)
  {
    assert (init + [r])[|init|] == r;
  }

  lemma NewestReportsAgain(gen: string -> nat, init: seq<Report>, r: Report, e: Entry, newest: string)
    requires Generated(gen, init + [r]) && init != [] && Summarises(gen, init, e, newest)
    requires r.token == newest && Unsettled(init, newest)
    ensures Summarises(gen, init + [r], Deliver(gen, e, r).0, newest)
  {
    AdmitDecides(gen, init, r, e, newest);
    GenerationIsKept(gen, init, r);
    NewestExtends(gen, init, r, newest);
    UnsettledExtends(init, r, newest);
    var o' := Deliver(gen, e, r).0.order.value;
    forall t | t in o'.retired ensures Reported(init, t) || t == r.token {
      RetireKeeps(e.order.value.(active := "", activeStartedAt := 0), newest, t);
    }
    AllReportedExtends(o'.retired, init, r);
    OutcomeExtends(init, r, newest, Deliver(gen, e, r).0.status);
  }

  lemma StaleReportIsIgnored(gen: string -> nat, init: seq<Report>, r: Report, e: Entry, newest: string)
    requires Generated(gen, init + [r]) && init != [] && Summarises(gen, init, e, newest)
    requires gen(r.token) <= gen(newest) && (r.token == newest ==> !Unsettled(init, newest))
    ensures Summarises(gen, init + [r], Deliver(gen, e, r).0, newest)
  {
    hide Admit, IsNewest, Unsettled, ShowsOutcome, RunsNewest;
    AdmitDecides(gen, init, r, e, newest);
    GenerationIsKept(gen, init, r);
    assert Deliver(gen, e, r).0 == e;
    NewestExtends(gen, init, r, newest);
    UnsettledExtends(init, r, newest);
    AllReportedExtends(e.order.value.retired, init, r);
    OutcomeExtends(init, r, newest, e.status);
  }

  lemma FirstReport(gen: string -> nat, r: Report)
    requires Generated(gen, [r])
    ensures Summarises(gen, [r], Deliver(gen, Entry(None, None), r).0, r.token)
  {
    assert [] + [r] == [r];
    GenerationIsKept(gen, [], r);
    NewestExtends(gen, [], r, r.token);
    UnsettledExtends([], r, r.token);
    var e' := Deliver(gen, Entry(None, None), r).0;
    forall t | t in e'.order.value.retired ensures t == r.token {
      RetireKeeps(NewOrder(), "", t);
      RetireKeeps(Activate(NewOrder(), r.token, gen(r.token)).(active := "", activeStartedAt := 0), r.token, t);
    }
    AllReportedExtends(e'.order.value.retired, [], r);
    OutcomeExtends([], r, r.token, e'.status);
  }

  lemma {:induction false} ProcessSummarises(gen: string -> nat, reports: seq<Report>) returns (newest: string)
    requires reports != [] && Generated(gen, reports)
    ensures Summarises(gen, reports, Process(gen, reports), newest)
  {
    var init, r := reports[..|reports| - 1], reports[|reports| - 1];
    assert reports == init + [r];
    if init == [] {
      assert reports == [r];
      FirstReport(gen, r);
      newest := r.token;
    } else {
      newest := ProcessSummarises(gen, init);
      var e := Process(gen, init);
      hide Summarises;
      if gen(r.token) > gen(newest) {
        NewerPromptTakesOver(gen, init, r, e, newest);
        newest := r.token;
      } else if r.token == newest && Unsettled(init, newest) {
        NewestReportsAgain(gen, init, r, e, newest);
      } else {
        StaleReportIsIgnored(gen, init, r, e, newest);
      }
    }
  }

  // --------------------------------------------------------------- main statements

  lemma PrefixGenerated(gen: string -> nat, reports: seq<Report>, n: nat)
    requires Generated(gen, reports) && n <= |reports|
    ensures Generated(gen, reports[..n])
  {
  }

  lemma NewestIsUnique(gen: string -> nat, reports: seq<Report>, a: string, b: string)
    requires Generated(gen, reports) && IsNewest(gen, reports, a) && IsNewest(gen, reports, b)
    ensures a == b
  {
    var i :| 0 <= i < |reports| && reports[i].token == a;
    var j :| 0 <= j < |reports| && reports[j].token == b;
    assert gen(reports[i].token) == gen(reports[j].token);
  }

  lemma NewerThanAll(gen: string -> nat, reports: seq<Report>, newest: string, token: string)
    requires IsNewest(gen, reports, newest)
    ensures gen(newest) < gen(token) <==> forall j :: 0 <= j < |reports| ==> gen(reports[j].token) < gen(token)
  {
    var k :| 0 <= k < |reports| && reports[k].token == newest;
  }

  /** A report is applied exactly when its prompt is newer than every prompt reported
      before, or is the newest of them and has not settled yet. */
  lemma AppliedExactly(gen: string -> nat, reports: seq<Report>, i: nat)
    requires Generated(gen, reports) && i < |reports|
    ensures Applied(gen, reports, i) <==>
      var t := reports[i].token;
      || (forall j :: 0 <= j < i ==> gen(reports[j].token) < gen(t))
      || (IsNewest(gen, reports[..i], t) && Unsettled(reports[..i], t))
  {
    hide Admit, IsNewest, Unsettled, Process, Generated;
    var init, r := reports[..i], reports[i];
    PrefixGenerated(gen, reports, i + 1);
    assert reports[..i + 1] == init + [r];
    GenerationIsKept(gen, init, r);
    if i > 0 {
      PrefixGenerated(gen, reports, i);
      var newest := ProcessSummarises(gen, init);
      AdmitDecides(gen, init, r, Process(gen, init), newest);
      NewerThanAll(gen, init, newest, r.token);
      assert forall j :: 0 <= j < i ==> reports[j] == init[j];
      if IsNewest(gen, init, r.token) {
        NewestIsUnique(gen, init, newest, r.token);
      }
    } else {
      FirstIsAdmitted(gen, r);
    }
  }

  lemma FirstIsAdmitted(gen: string -> nat, r: Report)
    requires r.token != "" && 0 < gen(r.token) && Generation(Some(gen(r.token)), r.now) == gen(r.token)
    ensures Deliver(gen, Process(gen, []), r).1
  {
  }

  /** Applied updates never go back to an older prompt. */
  lemma AppliedNeverGoesBack(gen: string -> nat, reports: seq<Report>, j: nat, i: nat)
    requires Generated(gen, reports) && j < i < |reports| && Applied(gen, reports, i)
    ensures gen(reports[j].token) <= gen(reports[i].token)
  {
    AppliedExactly(gen, reports, i);
    assert reports[..i][j] == reports[j];
  }

  /** Once a prompt's terminal report arrived, no report of that prompt is ever applied
      again, even after its token left the bounded history. */
  lemma SettledStaysSettled(gen: string -> nat, reports: seq<Report>, j: nat, i: nat)
    requires Generated(gen, reports) && j < i < |reports|
    requires reports[j].token == reports[i].token && !reports[j].status.Working?
    ensures !Applied(gen, reports, i)
  {
    AppliedExactly(gen, reports, i);
    assert reports[..i][j] == reports[j];
  }

  lemma {:induction false} FirstTerminal(reports: seq<Report>, token: string, j: nat) returns (i: nat)
    requires j < |reports| && reports[j].token == token && !reports[j].status.Working?
    ensures SettledBy(reports, token, i) && i <= j
    decreases j
  {
    if k: nat :| k < j && reports[k].token == token && !reports[k].status.Working? {
      i := FirstTerminal(reports, token, k);
    } else {
      i := j;
    }
  }

  /** Every delivery order, with any duplicates, that contains the newest prompt's
      terminal report ends in that state. */
  lemma StatusConverges(gen: string -> nat, reports: seq<Report>, newest: string, final: Status)
    requires Generated(gen, reports) && IsNewest(gen, reports, newest)
    requires exists i :: 0 <= i < |reports| && reports[i].token == newest && !reports[i].status.Working?
    requires forall i :: 0 <= i < |reports| && reports[i].token == newest && !reports[i].status.Working? ==>
      reports[i].status == final
    ensures Process(gen, reports).status == Shown(final)
  {
    var n := ProcessSummarises(gen, reports);
    NewestIsUnique(gen, reports, n, newest);
    var j :| 0 <= j < |reports| && reports[j].token == newest && !reports[j].status.Working?;
    var i := FirstTerminal(reports, newest, j);
  }

  /** Every report of `a` also occurs in `b`, at whatever place and time. */
  predicate Covers(b: seq<Report>, a: seq<Report>) {
    forall i :: 0 <= i < |a| ==> Occurs(a[i], b)
  }

  predicate Occurs(x: Report, reports: seq<Report>) {
    exists j :: 0 <= j < |reports| && SameReport(x, reports[j])
  }

  /** No prompt is reported both finished and idle. */
  predicate OneOutcomeEach(reports: seq<Report>) {
    forall i, j | 0 <= i < |reports| && 0 <= j < |reports| && reports[i].token == reports[j].token ::
      reports[i].status.Working? || reports[j].status.Working? || reports[i].status == reports[j].status
  }

  lemma FindReport(b: seq<Report>, a: seq<Report>, i: nat) returns (j: nat)
    requires Covers(b, a) && i < |a|
    ensures j < |b| && SameReport(a[i], b[j])
  {
    assert Occurs(a[i], b);
    j :| j < |b| && SameReport(a[i], b[j]);
  }

  lemma NewestCarriesOver(gen: string -> nat, a: seq<Report>, b: seq<Report>, newest: string)
    requires Covers(b, a) && Covers(a, b) && IsNewest(gen, a, newest)
    ensures IsNewest(gen, b, newest)
    ensures Unsettled(a, newest) ==> Unsettled(b, newest)
  {
    hide Covers;
    var i :| 0 <= i < |a| && a[i].token == newest;
    var j := FindReport(b, a, i);
    assert Reported(b, newest) by {
      assert b[j].token == newest;
    }
    forall k | 0 <= k < |b|
      ensures gen(b[k].token) <= gen(newest)
      ensures Unsettled(a, newest) && b[k].token == newest ==> b[k].status.Working?
    {
      var l := FindReport(a, b, k);
    }
  }

  lemma OutcomeCarriesOver(a: seq<Report>, b: seq<Report>, token: string, p: nat)
    requires Covers(a, b) && OneOutcomeEach(a) && p < |a| && a[p].token == token && !a[p].status.Working?
    ensures forall x :: 0 <= x < |b| && b[x].token == token && !b[x].status.Working? ==> b[x].status == a[p].status
  {
    forall x | 0 <= x < |b| && b[x].token == token && !b[x].status.Working? ensures b[x].status == a[p].status {
      assert Occurs(b[x], a);
      var y :| 0 <= y < |a| && SameReport(b[x], a[y]);
    }
  }

  lemma UnsettledShowsWorking(gen: string -> nat, reports: seq<Report>, newest: string)
    requires Generated(gen, reports) && IsNewest(gen, reports, newest) && Unsettled(reports, newest)
    ensures Process(gen, reports).status == Some(Working)
  {
    var n := ProcessSummarises(gen, reports);
    NewestIsUnique(gen, reports, n, newest);
  }

  lemma SettledStatusesAgree(gen: string -> nat, a: seq<Report>, b: seq<Report>, newest: string, p: nat)
    requires Generated(gen, a) && Generated(gen, b) && IsNewest(gen, a, newest) && IsNewest(gen, b, newest)
    requires Covers(b, a) && Covers(a, b) && OneOutcomeEach(a)
    requires p < |a| && a[p].token == newest && !a[p].status.Working?
    ensures Process(gen, a).status == Process(gen, b).status
  {
    hide Covers, Generated, IsNewest;
    OutcomeCarriesOver(a, b, newest, p);
    var q := FindReport(b, a, p);
    assert a[p].token == newest && b[q].token == newest && !b[q].status.Working?;
    forall i | 0 <= i < |a| && a[i].token == newest && !a[i].status.Working? ensures a[i].status == a[p].status {
    }
    hide OneOutcomeEach;
    StatusConverges(gen, a, newest, a[p].status);
    StatusConverges(gen, b, newest, a[p].status);
  }

  /** Two deliveries of the same reports, however ordered, repeated and delayed, leave
      the same status. */
  lemma DeliveryOrderIsIrrelevant(gen: string -> nat, a: seq<Report>, b: seq<Report>)
    requires Generated(gen, a) && Generated(gen, b) && a != []
    requires Covers(b, a) && Covers(a, b) && OneOutcomeEach(a)
    ensures Process(gen, a).status == Process(gen, b).status
  {
    hide Covers, Generated, OneOutcomeEach;
    var n := ProcessSummarises(gen, a);
    NewestCarriesOver(gen, a, b, n);
    hide IsNewest, Summarises;
    if Unsettled(a, n) {
      UnsettledShowsWorking(gen, a, n);
      UnsettledShowsWorking(gen, b, n);
    } else {
      var p :| 0 <= p < |a| && a[p].token == n && !a[p].status.Working?;
      SettledStatusesAgree(gen, a, b, n, p);
    }
  }

  predicate SameReport(x: Report, y: Report) {
    x.token == y.token && x.status == y.status
  }

  // ----------------------------------------------- any clocks, any start times

  /** Reports that carry a start time: it may equal another prompt's and may lie after the
      arrival of the report, when the client's clock is ahead. */
  ghost predicate Timed(start: string -> nat, reports: seq<Report>) {
    forall i :: 0 <= i < |reports| ==> TimedReport(start, reports[i])
  }

  predicate TimedReport(start: string -> nat, r: Report) {
    r.token != "" && start(r.token) > 0 && r.now > 0
  }

  /** The generation one report carries: its prompt's start time, but no later than the
      report's own arrival. A later report of the same prompt may carry a later one. */
  function Effective(start: string -> nat, r: Report): nat {
    if start(r.token) > r.now then r.now else start(r.token)
  }

  /** The prompt of the last applied report while it works, else "". */
  function Current(start: string -> nat, reports: seq<Report>): string {
    if reports == [] then ""
    else
      var n := |reports| - 1;
      if !Applied(start, reports, n) then Current(start, reports[..n])
      else if reports[n].status.Working? then reports[n].token else ""
  }

  /** Report `i` was applied and began another prompt than the current one. */
  predicate Opens(start: string -> nat, reports: seq<Report>, i: nat)
    requires i < |reports|
  {
    Applied(start, reports, i) && reports[i].token != Current(start, reports[..i])
  }

  /** The generation of the last opening report. */
  function Latest(start: string -> nat, reports: seq<Report>): nat {
    if reports == [] then 0
    else
      var n := |reports| - 1;
      if Opens(start, reports, n) then Effective(start, reports[n]) else Latest(start, reports[..n])
  }

  /** The prompts that were superseded or settled, in that order. */
  function Ended(start: string -> nat, reports: seq<Report>): seq<string> {
    if reports == [] then []
    else
      var n := |reports| - 1;
      var init := Ended(start, reports[..n]);
      var left :=
        if Opens(start, reports, n) && Current(start, reports[..n]) != "" then init + [Current(start, reports[..n])]
        else init;
      if Applied(start, reports, n) && !reports[n].status.Working? then left + [reports[n].token] else left
  }

  function Recent(tokens: seq<string>): seq<string> {
    if |tokens| > MAX_RETIRED_TOKENS then tokens[|tokens| - MAX_RETIRED_TOKENS..] else tokens
  }

  /** The status of the last applied report. */
  function LastStatus(start: string -> nat, reports: seq<Report>): Option<Status> {
    if reports == [] then None
    else
      var n := |reports| - 1;
      if Applied(start, reports, n) then Shown(reports[n].status) else LastStatus(start, reports[..n])
  }

  /** The order record in terms of what was reported and applied. */
  ghost predicate Mirrors(o: Order, current: string, latest: nat, ended: seq<string>) {
    && o.active == current && o.latestStartedAt == latest && o.retired == Recent(ended)
    && (current != "" ==> o.activeStartedAt != 0 && latest > 0 && current !in o.retired)
  }

  lemma RecentAppend(tokens: seq<string>, t: string)
    ensures Recent(tokens + [t]) == (var all := Recent(tokens) + [t];
      if |all| > MAX_RETIRED_TOKENS then all[|all| - MAX_RETIRED_TOKENS..] else all)
    ensures forall x :: x in Recent(tokens + [t]) ==> x in Recent(tokens) || x == t
  {
  }

  lemma RetireIsRecent(o: Order, ended: seq<string>, token: string)
    requires o.retired == Recent(ended) && token !in o.retired
    ensures Retire(o, token) == o.(retired := Recent(if token == "" then ended else ended + [token]))
    ensures forall x :: x in Retire(o, token).retired ==> x in o.retired || x == token
  {
    RecentAppend(ended, token);
  }

  /** Token history and generations decide alone once a start time is given. */
  lemma OrderDecides(o: Order, current: string, latest: nat, ended: seq<string>, token: string, g: nat, status: Status)
    requires Mirrors(o, current, latest, ended) && token != "" && g > 0
    ensures Admit(o, token, g, status).Some? <==> token !in Recent(ended) && (token == current || g > latest)
  {
    hide Recent, Retire;
  }

  lemma CurrentReports(o: Order, current: string, latest: nat, ended: seq<string>, g: nat, status: Status)
    requires Mirrors(o, current, latest, ended) && current != "" && g > 0
    ensures var a := Admit(o, current, g, status);
      a.Some? && Mirrors(a.value, if status.Working? then current else "", latest,
                         if status.Working? then ended else ended + [current])
  {
    RetireIsRecent(o.(active := "", activeStartedAt := 0), ended, current);
    hide Recent, Retire;
  }

  lemma OtherOpens(o: Order, current: string, latest: nat, ended: seq<string>, token: string, g: nat, status: Status)
    requires Mirrors(o, current, latest, ended) && token != "" && token != current
    requires token !in Recent(ended) && g > latest
    ensures var a := Admit(o, token, g, status);
      var left := if current != "" then ended + [current] else ended;
      a.Some? && Mirrors(a.value, if status.Working? then token else "", g,
                         if status.Working? then left else left + [token])
  {
    if current == "" {
      NeverEndedEmpty(o, ended, current);
    } else {
      RetireIsRecent(o, ended, current);
    }
    var left := if current != "" then ended + [current] else ended;
    var begun := Activate(o, token, g);
    hide Retire, Recent;
    assert begun.retired == Recent(left) && token !in begun.retired;
    RetireIsRecent(begun.(active := "", activeStartedAt := 0), left, token);
  }

  lemma NeverEndedEmpty(o: Order, ended: seq<string>, token: string)
    requires o.retired == Recent(ended) && token == ""
    ensures Retire(o, token) == o
  {
  }

  /** What a run makes of its key, with the record of what was applied. */
  ghost predicate Recorded(start: string -> nat, reports: seq<Report>) {
    var e := Process(start, reports);
    && (reports != [] ==> e.order.Some?)
    && Mirrors(if e.order.Some? then e.order.value else NewOrder(),
               Current(start, reports), Latest(start, reports), Ended(start, reports))
    && e.status == LastStatus(start, reports)
  }

  lemma LastApplied(start: string -> nat, init: seq<Report>, r: Report)
    ensures (init + [r])[..|init|] == init
    ensures Process(start, init + [r]) == Deliver(start, Process(start, init), r).0
    ensures Applied(start, init + [r], |init|) == Deliver(start, Process(start, init), r).1
  {
    assert (init + [r])[..|init|] == init;
    hide Deliver;
  }

  lemma HistoryStep(start: string -> nat, init: seq<Report>, r: Report, applied: bool)
    requires applied == Applied(start, init + [r], |init|)
    ensures var all := init + [r];
      var current := Current(start, init);
      var opens := applied && r.token != current;
      var left := if opens && current != "" then Ended(start, init) + [current] else Ended(start, init);
      && Current(start, all) == (if !applied then current else if r.status.Working? then r.token else "")
      && Latest(start, all) == (if opens then Effective(start, r) else Latest(start, init))
      && Ended(start, all) == (if applied && !r.status.Working? then left + [r.token] else left)
      && LastStatus(start, all) == (if applied then Shown(r.status) else LastStatus(start, init))
      && (Opens(start, all, |init|) <==> opens)
  {
    var all := init + [r];
    assert all[..|init|] == init && all[|init|] == r;
    hide Applied;
  }

  lemma DeliverMirrors(start: string -> nat, e: Entry, r: Report, current: string, latest: nat, ended: seq<string>)
    requires TimedReport(start, r)
    requires Mirrors(if e.order.Some? then e.order.value else NewOrder(), current, latest, ended)
    ensures var (e', applied) := Deliver(start, e, r);
      var g := Effective(start, r);
      var left := if r.token != current && current != "" then ended + [current] else ended;
      && e'.order.Some?
      && (applied <==> r.token !in Recent(ended) && (r.token == current || g > latest))
      && (applied ==> Mirrors(e'.order.value, if r.status.Working? then r.token else "",
                              if r.token == current then latest else g,
                              if r.status.Working? then left else left + [r.token]))
      && (!applied ==> Mirrors(e'.order.value, current, latest, ended))
      && e'.status == if applied then Shown(r.status) else e.status
  {
    hide Mirrors, Recent, Admit;
    var o := if e.order.Some? then e.order.value else NewOrder();
    var g := Effective(start, r);
    assert Generation(Some(start(r.token)), r.now) == g;
    OrderDecides(o, current, latest, ended, r.token, g, r.status);
    if r.token !in Recent(ended) && r.token == current {
      CurrentReports(o, current, latest, ended, g, r.status);
    } else if r.token !in Recent(ended) && g > latest {
      OtherOpens(o, current, latest, ended, r.token, g, r.status);
    }
  }

  lemma {:induction false} RunIsRecorded(start: string -> nat, reports: seq<Report>)
    requires Timed(start, reports)
    ensures Recorded(start, reports)
  {
    if reports == [] {
    } else {
      var init, r := reports[..|reports| - 1], reports[|reports| - 1];
      assert reports == init + [r];
      RunIsRecorded(start, init);
      RecordedStep(start, init, r);
    }
  }

  lemma RecordedStep(start: string -> nat, init: seq<Report>, r: Report)
    requires Recorded(start, init) && TimedReport(start, r)
    ensures Recorded(start, init + [r])
    ensures Applied(start, init + [r], |init|) <==>
      && r.token !in Recent(Ended(start, init))
      && (r.token == Current(start, init) || Effective(start, r) > Latest(start, init))
  {
    hide Process, Deliver, Applied, Mirrors, Current, Latest, Ended, LastStatus, Effective, Recent, Opens;
    LastApplied(start, init, r);
    HistoryStep(start, init, r, Applied(start, init + [r], |init|));
    DeliverMirrors(start, Process(start, init), r, Current(start, init), Latest(start, init), Ended(start, init));
  }

  lemma TimedPrefix(start: string -> nat, reports: seq<Report>, n: nat)
    requires Timed(start, reports) && n <= |reports|
    ensures Timed(start, reports[..n])
  {
    hide TimedReport;
  }

  lemma RunStep(start: string -> nat, reports: seq<Report>, i: nat)
    requires Timed(start, reports) && i < |reports|
    ensures reports[..i + 1] == reports[..i] + [reports[i]] && TimedReport(start, reports[i])
    ensures Recorded(start, reports[..i])
    ensures Applied(start, reports, i) == Applied(start, reports[..i + 1], i)
    ensures Opens(start, reports, i) == Opens(start, reports[..i + 1], i)
  {
    hide Process, Deliver, Recorded, Current, TimedReport;
    TimedPrefix(start, reports, i);
    RunIsRecorded(start, reports[..i]);
    assert reports[..i + 1][..i] == reports[..i];
  }

  /** With any clocks and any start times: a report is applied exactly when its prompt is
      not among the last 64 ended ones, and is the current one or carries a later
      generation than the last opening report. */
  lemma AppliedByGeneration(start: string -> nat, reports: seq<Report>, i: nat)
    requires Timed(start, reports) && i < |reports|
    ensures Applied(start, reports, i) <==>
      && reports[i].token !in Recent(Ended(start, reports[..i]))
      && (reports[i].token == Current(start, reports[..i])
          || Effective(start, reports[i]) > Latest(start, reports[..i]))
  {
    hide *;
    RunStep(start, reports, i);
    RecordedStep(start, reports[..i], reports[i]);
    assert |reports[..i]| == i;
  }

  /** The status of a key is the one of its last applied report. */
  lemma StatusIsLastApplied(start: string -> nat, reports: seq<Report>)
    requires Timed(start, reports)
    ensures Process(start, reports).status == LastStatus(start, reports)
  {
    RunIsRecorded(start, reports);
    hide Mirrors;
  }

  lemma LatestStep(start: string -> nat, reports: seq<Report>, i: nat)
    requires Timed(start, reports) && i < |reports|
    ensures Opens(start, reports, i) ==>
      Latest(start, reports[..i]) < Effective(start, reports[i]) == Latest(start, reports[..i + 1])
    ensures !Opens(start, reports, i) ==> Latest(start, reports[..i + 1]) == Latest(start, reports[..i])
    ensures Current(start, reports[..i + 1]) == Current(start, reports[..i])
         || Current(start, reports[..i + 1]) == "" || Current(start, reports[..i + 1]) == reports[i].token
    ensures Current(start, reports[..i + 1]) == reports[i].token != Current(start, reports[..i]) ==>
      Opens(start, reports, i)
    ensures Opens(start, reports, i) ==>
      Current(start, reports[..i + 1]) == (if reports[i].status.Working? then reports[i].token else "")
  {
    RunStep(start, reports, i);
    AppliedByGeneration(start, reports, i);
    HistoryStep(start, reports[..i], reports[i], Applied(start, reports, i));
    hide Applied, Process, Deliver, Current, Latest, Ended, LastStatus, Effective, Recent, Recorded, TimedReport;
    assert |reports[..i]| == i;
  }

  /** The last generation only grows. */
  lemma {:induction false} LatestGrows(start: string -> nat, reports: seq<Report>, m: nat, n: nat)
    requires Timed(start, reports) && m <= n <= |reports|
    ensures Latest(start, reports[..m]) <= Latest(start, reports[..n])
    decreases n
  {
    hide *;
    if m < n {
      LatestGrows(start, reports, m, n - 1);
      LatestStep(start, reports, n - 1);
    }
  }

  /** Prompts open in the order of their generations, whatever the clocks. */
  lemma OpeningsIncrease(start: string -> nat, reports: seq<Report>, i: nat, j: nat)
    requires Timed(start, reports) && i < j < |reports| && Opens(start, reports, i) && Opens(start, reports, j)
    ensures Effective(start, reports[i]) < Effective(start, reports[j])
  {
    hide *;
    LatestStep(start, reports, i);
    LatestStep(start, reports, j);
    LatestGrows(start, reports, i + 1, j);
  }

  /** A prompt that is not current and started no later than the last generation stays
      hidden: none of its later reports is applied, even after its token was evicted. */
  lemma {:induction false} HiddenForGood(start: string -> nat, reports: seq<Report>, token: string, m: nat, n: nat)
    requires Timed(start, reports) && m <= n <= |reports| && token != ""
    requires token != Current(start, reports[..m]) && start(token) <= Latest(start, reports[..m])
    ensures token != Current(start, reports[..n]) && start(token) <= Latest(start, reports[..n])
    ensures n < |reports| && reports[n].token == token ==> !Applied(start, reports, n)
    decreases n
  {
    hide *;
    if m < n {
      HiddenForGood(start, reports, token, m, n - 1);
      LatestStep(start, reports, n - 1);
      LatestGrows(start, reports, n - 1, n);
      NotOpened(start, reports, token, n - 1);
    }
    if n < |reports| && reports[n].token == token {
      AppliedByGeneration(start, reports, n);
      EffectiveIsBounded(start, reports[n]);
    }
  }

  lemma EffectiveIsBounded(start: string -> nat, r: Report)
    ensures Effective(start, r) <= start(r.token)
  {
  }

  lemma NotOpened(start: string -> nat, reports: seq<Report>, token: string, i: nat)
    requires Timed(start, reports) && i < |reports| && token != "" && token != Current(start, reports[..i])
    requires reports[i].token == token ==> !Applied(start, reports, i)
    ensures token != Current(start, reports[..i + 1])
  {
    LatestStep(start, reports, i);
    hide Applied, Process, Deliver, Current, Latest, Effective, TimedReport;
  }

  /** Some continuation of the run applies a report of the prompt. */
  ghost predicate CanAppear(start: string -> nat, reports: seq<Report>, token: string) {
    exists more: seq<Report> :: Appears(start, reports, more, token)
  }

  ghost predicate Appears(start: string -> nat, reports: seq<Report>, more: seq<Report>, token: string) {
    && more != [] && Timed(start, reports + more)
    && more[|more| - 1].token == token && Applied(start, reports + more, |reports + more| - 1)
  }

  /** Which prompts are hidden for good: a prompt that is neither current nor recently
      ended can still appear exactly when it started after the last generation. So a
      second prompt with the start time of one already shown never appears, while one
      whose clock is ahead appears with its first report that arrives late enough. */
  lemma HiddenExactly(start: string -> nat, reports: seq<Report>, token: string)
    requires Timed(start, reports) && token != "" && start(token) > 0
    requires token != Current(start, reports) && token !in Recent(Ended(start, reports))
    ensures CanAppear(start, reports, token) <==> start(token) > Latest(start, reports)
  {
    hide *;
    var latest := Latest(start, reports);
    if start(token) > latest {
      LateReportAppears(start, reports, token);
    } else {
      forall more: seq<Report> | Appears(start, reports, more, token) ensures false {
        StaysHidden(start, reports, more, token);
      }
      AppearsOrNot(start, reports, token);
    }
  }

  lemma AppearsOrNot(start: string -> nat, reports: seq<Report>, token: string)
    requires forall more: seq<Report> :: !Appears(start, reports, more, token)
    ensures !CanAppear(start, reports, token)
  {
    hide Appears;
  }

  lemma LateReportAppears(start: string -> nat, reports: seq<Report>, token: string)
    requires Timed(start, reports) && token != "" && start(token) > Latest(start, reports)
    requires token !in Recent(Ended(start, reports))
    ensures CanAppear(start, reports, token)
  {
    hide Applied, Process, Current, Latest, Ended, Recent;
    var r := Report(token, Working, Latest(start, reports) + 1);
    var all := reports + [r];
    assert all[|reports|] == r && all[..|reports|] == reports;
    AppliedByGeneration(start, all, |reports|);
    assert Appears(start, reports, [r], token);
  }

  lemma StaysHidden(start: string -> nat, reports: seq<Report>, more: seq<Report>, token: string)
    requires token != "" && token != Current(start, reports) && start(token) <= Latest(start, reports)
    ensures !Appears(start, reports, more, token)
  {
    hide Applied, Current, Latest, TimedReport;
    if Appears(start, reports, more, token) {
      var all := reports + more;
      assert all[..|reports|] == reports && all[|all| - 1] == more[|more| - 1];
      HiddenForGood(start, all, token, |reports|, |all| - 1);
    }
  }

  /** Equal start times hide a prompt: once another prompt was opened with a generation no
      earlier than its start, none of its reports is ever applied. */
  lemma EqualGenerationsHidePrompt(start: string -> nat, reports: seq<Report>, i: nat, j: nat)
    requires Timed(start, reports) && i < j < |reports| && Opens(start, reports, i)
    requires reports[j].token != reports[i].token && start(reports[j].token) <= Effective(start, reports[i])
    ensures !Applied(start, reports, j)
  {
    hide Applied, Opens, Process, Current, Latest, Effective;
    LatestStep(start, reports, i);
    HiddenForGood(start, reports, reports[j].token, i + 1, j);
  }

  // A settled prompt can return when its clock is far ahead and its token was evicted.

  function Name(k: nat): string {
    seq(k + 1, _ => 'x')
  }

  /** The first prompt claims a start far in the future, the others start when they arrive. */
  function Ahead(token: string): nat {
    if |token| == 1 then 1000 else |token|
  }

  /** n prompts, each reported once, finished. */
  function Crowd(n: nat): seq<Report> {
    if n == 0 then [] else Crowd(n - 1) + [Report(Name(n - 1), Finished, n)]
  }

  function Names(n: nat): seq<string> {
    seq(n, k requires 0 <= k => Name(k))
  }

  lemma NewName(n: nat)
    ensures Name(n) !in Names(n) && Name(n) != "" && Names(n + 1) == Names(n) + [Name(n)] && Names(0) == []
    ensures |Name(n)| == n + 1
  {
    var names := Names(n);
    forall k | 0 <= k < |names| ensures |names[k]| < n + 1 {
    }
  }

  lemma RecentIsPart(tokens: seq<string>, t: string)
    ensures t in Recent(tokens) ==> t in tokens
  {
  }

  lemma CrowdStep(n: nat)
    ensures Crowd(0) == [] && Crowd(n + 1) == Crowd(n) + [Report(Name(n), Finished, n + 1)]
    ensures n <= MAX_RETIRED_TOKENS ==> Effective(Ahead, Report(Name(n), Finished, n + 1)) == n + 1
    ensures TimedReport(Ahead, Report(Name(n), Finished, n + 1))
  {
    NewName(n);
  }

  lemma NothingReported(start: string -> nat)
    ensures Timed(start, []) && Current(start, []) == "" && Latest(start, []) == 0 && Ended(start, []) == []
  {
  }

  lemma TimedAppend(start: string -> nat, reports: seq<Report>, r: Report)
    requires Timed(start, reports) && TimedReport(start, r)
    ensures Timed(start, reports + [r])
  {
    hide TimedReport;
  }

  lemma {:induction false} CrowdEnds(n: nat)
    requires n <= MAX_RETIRED_TOKENS + 1
    ensures |Crowd(n)| == n && Timed(Ahead, Crowd(n))
    ensures Current(Ahead, Crowd(n)) == "" && Latest(Ahead, Crowd(n)) == n && Ended(Ahead, Crowd(n)) == Names(n)
  {
    hide *;
    if n == 0 {
      CrowdStep(0);
      NewName(0);
      NothingReported(Ahead);
    } else {
      CrowdEnds(n - 1);
      CrowdStep(n - 1);
      NewName(n - 1);
      var init, r := Crowd(n - 1), Report(Name(n - 1), Finished, n);
      RunIsRecorded(Ahead, init);
      RecordedStep(Ahead, init, r);
      RecentIsPart(Ended(Ahead, init), r.token);
      HistoryStep(Ahead, init, r, true);
      TimedAppend(Ahead, init, r);
    }
  }

  /** The arrival bound is needed for settled prompts: one that finished with a start time
      ahead of the server's clock is applied again once 64 other prompts have ended. */
  lemma EvictedPromptReturns()
    ensures var reports := Crowd(MAX_RETIRED_TOKENS + 1) + [Report(Name(0), Working, 100)];
      && Timed(Ahead, reports) && |reports| == MAX_RETIRED_TOKENS + 2
      && reports[0] == Report(Name(0), Finished, 1)
      && Applied(Ahead, reports, MAX_RETIRED_TOKENS + 1)
      && Process(Ahead, reports).status == Some(Working)
  {
    var n := MAX_RETIRED_TOKENS + 1;
    var init, r := Crowd(n), Report(Name(0), Working, 100);
    CrowdEnds(n);
    CrowdStarts(n);
    RunIsRecorded(Ahead, init);
    hide Crowd, Applied, Process, Current, Latest, Ended;
    forall k | 0 <= k < |Recent(Names(n))| ensures |Recent(Names(n))[k]| > 1 {
      assert Recent(Names(n))[k] == Names(n)[k + 1];
    }
    RecordedStep(Ahead, init, r);
    HistoryStep(Ahead, init, r, true);
  }

  lemma {:induction false} CrowdStarts(n: nat)
    requires n > 0
    ensures |Crowd(n)| == n && Crowd(n)[0] == Report(Name(0), Finished, 1)
  {
    if n > 1 {
      CrowdStarts(n - 1);
    }
  }

  // ------------------------------------- how far ahead the clock of an ended prompt must be

  /** How many prompts ended after `token` last did; at least 64 if it never did. */
  function Since(ended: seq<string>, token: string): nat {
    if ended == [] then MAX_RETIRED_TOKENS
    else if ended[|ended| - 1] == token then 0
    else Since(ended[..|ended| - 1], token) + 1
  }

  lemma SinceAppend(ended: seq<string>, t: string, token: string)
    ensures Since(ended + [t], token) == if t == token then 0 else Since(ended, token) + 1
  {
    assert (ended + [t])[..|ended|] == ended;
  }

  lemma {:induction false} SinceIsRecency(ended: seq<string>, token: string, k: nat)
    requires k <= MAX_RETIRED_TOKENS
    ensures token in ended[if |ended| > k then |ended| - k else 0..] <==> Since(ended, token) < k
  {
    if ended != [] && k > 0 {
      var init, from := ended[..|ended| - 1], if |ended| > k then |ended| - k else 0;
      SinceIsRecency(init, token, k - 1);
      assert ended[from..] == init[from..] + [ended[|ended| - 1]];
    }
  }

  lemma RecentExactly(ended: seq<string>, token: string)
    ensures token in Recent(ended) <==> Since(ended, token) < MAX_RETIRED_TOKENS
  {
    SinceIsRecency(ended, token, MAX_RETIRED_TOKENS);
    hide Since;
  }

  /** How many prompts must still open before `token` can have left the history. */
  function Needed(ended: seq<string>, current: string, token: string): nat {
    var gone := Since(ended, token) + if current != "" then 1 else 0;
    if gone >= MAX_RETIRED_TOKENS then 0 else MAX_RETIRED_TOKENS - gone
  }

  /** The generation a prompt that is not current has to exceed. */
  function Bar(start: string -> nat, reports: seq<Report>, token: string): nat {
    Latest(start, reports) + Needed(Ended(start, reports), Current(start, reports), token)
  }

  /** One report of another prompt brings `token` closer only by opening a prompt. */
  lemma NeededShrinks(ended: seq<string>, current: string, token: string, r: Report, applied: bool)
    requires token != current && token != r.token && r.token != ""
    ensures var opens := applied && r.token != current;
      var left := if opens && current != "" then ended + [current] else ended;
      var ended' := if applied && !r.status.Working? then left + [r.token] else left;
      var current' := if !applied then current else if r.status.Working? then r.token else "";
      Needed(ended, current, token) <= Needed(ended', current', token) + if opens then 1 else 0
  {
    var opens := applied && r.token != current;
    var left := if opens && current != "" then ended + [current] else ended;
    SinceAppend(ended, current, token);
    SinceAppend(left, r.token, token);
    hide Since;
  }

  lemma BarStep(start: string -> nat, reports: seq<Report>, token: string, i: nat)
    requires Timed(start, reports) && i < |reports| && token != ""
    requires token != Current(start, reports[..i]) && start(token) <= Bar(start, reports[..i], token)
    ensures reports[i].token == token ==> !Applied(start, reports, i)
    ensures token != Current(start, reports[..i + 1]) && start(token) <= Bar(start, reports[..i + 1], token)
  {
    hide *;
    var init, r := reports[..i], reports[i];
    RunStep(start, reports, i);
    TimedMeans(start, r);
    AppliedByGeneration(start, reports, i);
    assert |init| == i;
    HistoryStep(start, init, r, Applied(start, reports, i));
    LatestStep(start, reports, i);
    BarMeans(start, init, token);
    BarMeans(start, reports[..i + 1], token);
    RecentExactly(Ended(start, init), token);
    EffectiveIsBounded(start, r);
    if r.token != token {
      NeededShrinks(Ended(start, init), Current(start, init), token, r, Applied(start, reports, i));
    }
  }

  lemma TimedMeans(start: string -> nat, r: Report)
    requires TimedReport(start, r)
    ensures r.token != "" && start(r.token) > 0 && r.now > 0
  {
  }

  lemma BarMeans(start: string -> nat, reports: seq<Report>, token: string)
    ensures Bar(start, reports, token) ==
      Latest(start, reports) + Needed(Ended(start, reports), Current(start, reports), token)
    ensures Since(Ended(start, reports), token) >= MAX_RETIRED_TOKENS ==>
      Bar(start, reports, token) == Latest(start, reports)
  {
  }

  /** Below the bar a prompt stays hidden: neither evicting its token nor any other run of
      reports brings it back. */
  lemma {:induction false} StaysBelowBar(start: string -> nat, reports: seq<Report>, token: string, m: nat, n: nat)
    requires Timed(start, reports) && m <= n <= |reports| && token != ""
    requires token != Current(start, reports[..m]) && start(token) <= Bar(start, reports[..m], token)
    ensures token != Current(start, reports[..n]) && start(token) <= Bar(start, reports[..n], token)
    ensures n < |reports| && reports[n].token == token ==> !Applied(start, reports, n)
    decreases n
  {
    hide *;
    if m < n {
      StaysBelowBar(start, reports, token, m, n - 1);
      BarStep(start, reports, token, n - 1);
    }
    if n < |reports| {
      BarStep(start, reports, token, n);
    }
  }

  /** The two clocks agree on every prompt of the run and on `token`. */
  ghost predicate Agrees(start: string -> nat, start': string -> nat, reports: seq<Report>, token: string) {
    && start'(token) == start(token)
    && (forall i :: 0 <= i < |reports| ==> start'(reports[i].token) == start(reports[i].token))
  }

  lemma {:induction false} AgreeingRuns(start: string -> nat, start': string -> nat, reports: seq<Report>,
                                        token: string)
    requires Agrees(start, start', reports, token)
    ensures Process(start', reports) == Process(start, reports)
    ensures Current(start', reports) == Current(start, reports)
    ensures Latest(start', reports) == Latest(start, reports)
    ensures Ended(start', reports) == Ended(start, reports)
  {
    hide Process, Current, Latest, Ended, Applied, Opens, Updated;
    if reports == [] {
      EmptyRun(start);
      EmptyRun(start');
    } else {
      var init, r := reports[..|reports| - 1], reports[|reports| - 1];
      assert reports == init + [r];
      AgreeingRuns(start, start', init, token);
      LastApplied(start, init, r);
      LastApplied(start', init, r);
      HistoryStep(start, init, r, Applied(start, reports, |init|));
      HistoryStep(start', init, r, Applied(start', reports, |init|));
    }
  }

  lemma EmptyRun(start: string -> nat)
    ensures Process(start, []) == Entry(None, None)
    ensures Current(start, []) == "" && Latest(start, []) == 0 && Ended(start, []) == []
  {
  }

  /** Only reported prompts are current or ended. */
  lemma {:induction false} HistoryIsReported(start: string -> nat, reports: seq<Report>, token: string)
    requires token != "" && forall i :: 0 <= i < |reports| ==> reports[i].token != token
    ensures token != Current(start, reports) && token !in Ended(start, reports)
  {
    hide Process, Current, Latest, Ended, Applied, Opens;
    if reports == [] {
      EmptyRun(start);
    } else {
      var init, r := reports[..|reports| - 1], reports[|reports| - 1];
      assert reports == init + [r];
      HistoryIsReported(start, init, token);
      HistoryStep(start, init, r, Applied(start, reports, |init|));
    }
  }

  lemma CurrentIsTimed(start: string -> nat, reports: seq<Report>)
    requires Timed(start, reports) && Current(start, reports) != ""
    ensures start(Current(start, reports)) > 0
    ensures Current(start, reports) !in Recent(Ended(start, reports))
  {
    var current := Current(start, reports);
    RunIsRecorded(start, reports);
    hide Process, Current, Latest, Ended, Recent, LastStatus;
    if forall i :: 0 <= i < |reports| ==> reports[i].token != current {
      HistoryIsReported(start, reports, current);
    }
  }

  /** A token longer than every reported one. */
  function NewToken(reports: seq<Report>, token: string): string {
    if reports == [] then token + ['x']
    else NewToken(reports[..|reports| - 1], token) + reports[|reports| - 1].token
  }

  lemma {:induction false} NewTokenIsNew(reports: seq<Report>, token: string)
    ensures |NewToken(reports, token)| > |token|
    ensures forall i :: 0 <= i < |reports| ==> |NewToken(reports, token)| > |reports[i].token|
  {
    if reports != [] {
      NewTokenIsNew(reports[..|reports| - 1], token);
    }
  }

  /** A continuation of the run that applies a report of the prompt. Every report of it
      arrives at `clock` or later; prompts that were not reported yet start as it likes. */
  ghost predicate Returns(start: string -> nat, reports: seq<Report>, token: string, clock: nat,
                          start': string -> nat, more: seq<Report>) {
    && Agrees(start, start', reports, token)
    && Appears(start', reports, more, token)
    && (forall i :: 0 <= i < |more| ==> more[i].now >= clock)
  }

  ghost predicate CanReturn(start: string -> nat, reports: seq<Report>, token: string, clock: nat) {
    exists start': string -> nat, more: seq<Report> :: Returns(start, reports, token, clock, start', more)
  }

  lemma PrependReport(start: string -> nat, reports: seq<Report>, token: string, clock: nat,
                      start1: string -> nat, r: Report, start': string -> nat, more: seq<Report>)
    requires Agrees(start, start1, reports, token) && r.now >= clock
    requires Returns(start1, reports + [r], token, clock, start', more)
    ensures Returns(start, reports, token, clock, start', [r] + more)
  {
    hide Applied, Timed;
    assert reports + ([r] + more) == reports + [r] + more;
    assert ([r] + more)[|[r] + more| - 1] == more[|more| - 1];
    forall i | 0 <= i < |reports| ensures start'(reports[i].token) == start(reports[i].token) {
      assert (reports + [r])[i] == reports[i];
    }
  }

  lemma TimedIf(start: string -> nat, r: Report)
    requires r.token != "" && start(r.token) > 0 && r.now > 0
    ensures TimedReport(start, r)
  {
  }

  /** When the current prompt ends, no generation is used up. */
  lemma CurrentEnds(start: string -> nat, reports: seq<Report>, token: string, now: nat)
    requires Timed(start, reports) && now > 0 && Current(start, reports) != ""
    requires token != Current(start, reports)
    ensures var all := reports + [Report(Current(start, reports), Finished, now)];
      && Timed(start, all) && Current(start, all) == ""
      && Since(Ended(start, all), token) == Since(Ended(start, reports), token) + 1
      && Bar(start, all, token) <= Bar(start, reports, token)
  {
    hide *;
    var current := Current(start, reports);
    var r := Report(current, Finished, now);
    CurrentIsTimed(start, reports);
    TimedIf(start, r);
    TimedAppend(start, reports, r);
    RunIsRecorded(start, reports);
    RecordedStep(start, reports, r);
    HistoryStep(start, reports, r, true);
    SinceAppend(Ended(start, reports), current, token);
    BarMeans(start, reports, token);
    BarMeans(start, reports + [r], token);
    NeededAfter(Ended(start, reports), current, current, token);
  }

  /** With nothing current a newcomer that starts just late enough opens and ends. */
  lemma NewcomerEnds(start: string -> nat, reports: seq<Report>, token: string, other: string, now: nat)
    requires Timed(start, reports) && Current(start, reports) == "" && token != other && other != ""
    requires start(other) == Latest(start, reports) + 1 <= now
    requires forall i :: 0 <= i < |reports| ==> reports[i].token != other
    requires Since(Ended(start, reports), token) < MAX_RETIRED_TOKENS
    ensures var all := reports + [Report(other, Finished, now)];
      && Timed(start, all) && Current(start, all) == ""
      && Since(Ended(start, all), token) == Since(Ended(start, reports), token) + 1
      && Bar(start, all, token) == Bar(start, reports, token)
  {
    hide *;
    var r := Report(other, Finished, now);
    TimedIf(start, r);
    TimedAppend(start, reports, r);
    RunIsRecorded(start, reports);
    RecordedStep(start, reports, r);
    HistoryIsReported(start, reports, other);
    RecentIsPart(Ended(start, reports), other);
    InTime(start, r);
    HistoryStep(start, reports, r, true);
    SinceAppend(Ended(start, reports), other, token);
    BarMeans(start, reports, token);
    BarMeans(start, reports + [r], token);
    NeededAfter(Ended(start, reports), "", other, token);
  }

  lemma InTime(start: string -> nat, r: Report)
    requires start(r.token) <= r.now
    ensures Effective(start, r) == start(r.token)
  {
  }

  lemma NeededAfter(ended: seq<string>, current: string, t: string, token: string)
    requires t != token
    ensures current != "" ==> Needed(ended + [t], "", token) == Needed(ended, current, token)
    ensures current == "" && Since(ended, token) < MAX_RETIRED_TOKENS ==>
      Needed(ended + [t], "", token) + 1 == Needed(ended, current, token)
    ensures current == "" ==> Needed(ended, current, token) == 0 || Since(ended, token) < MAX_RETIRED_TOKENS
  {
    SinceAppend(ended, t, token);
    hide Since;
  }

  /** Above the bar: end the current prompt, then let newcomers open and end one after the
      other, each one generation later, until the token has left the history. */
  lemma {:induction false} ReturnsAboveBar(start: string -> nat, reports: seq<Report>, token: string, clock: nat)
      returns (start': string -> nat, more: seq<Report>)
    requires Timed(start, reports) && token != "" && token != Current(start, reports)
    requires Bar(start, reports, token) < start(token) <= clock
    ensures Returns(start, reports, token, clock, start', more)
    decreases MAX_RETIRED_TOKENS + 1 - Since(Ended(start, reports), token)
  {
    hide *;
    var since := Since(Ended(start, reports), token);
    BarMeans(start, reports, token);
    AgreesAlready(start, reports, token);
    if since >= MAX_RETIRED_TOKENS {
      start', more := start, [Report(token, Working, clock)];
      LeftHistoryReturns(start, reports, token, clock);
    } else if Current(start, reports) != "" {
      var r := Report(Current(start, reports), Finished, clock);
      CurrentEnds(start, reports, token, clock);
      start', more := ReturnsAboveBar(start, reports + [r], token, clock);
      PrependReport(start, reports, token, clock, start, r, start', more);
      more := [r] + more;
    } else {
      var t := NewToken(reports, token);
      NewTokenIsNew(reports, token);
      var latest := Latest(start, reports);
      var start1 := (x: string) => if x == t then latest + 1 else start(x);
      var r := Report(t, Finished, clock);
      OneMore(start, start1, reports, token, t);
      NewcomerEnds(start1, reports, token, t, clock);
      start', more := ReturnsAboveBar(start1, reports + [r], token, clock);
      PrependReport(start, reports, token, clock, start1, r, start', more);
      more := [r] + more;
    }
  }

  lemma AgreesAlready(start: string -> nat, reports: seq<Report>, token: string)
    ensures Agrees(start, start, reports, token)
  {
  }

  /** Giving a new token its own start time changes nothing so far. */
  lemma OneMore(start: string -> nat, start1: string -> nat, reports: seq<Report>, token: string, t: string)
    requires Timed(start, reports) && token != t
    requires forall i :: 0 <= i < |reports| ==> reports[i].token != t
    requires forall x :: x != t ==> start1(x) == start(x)
    ensures Agrees(start, start1, reports, token) && Timed(start1, reports)
    ensures Current(start1, reports) == Current(start, reports) && Latest(start1, reports) == Latest(start, reports)
    ensures Ended(start1, reports) == Ended(start, reports) && Bar(start1, reports, token) == Bar(start, reports, token)
  {
    hide Process, Current, Latest, Ended, Needed;
    assert Agrees(start, start1, reports, token);
    AgreeingRuns(start, start1, reports, token);
  }

  lemma LeftHistoryReturns(start: string -> nat, reports: seq<Report>, token: string, clock: nat)
    requires Timed(start, reports) && token != ""
    requires Since(Ended(start, reports), token) >= MAX_RETIRED_TOKENS && Latest(start, reports) < start(token) <= clock
    ensures Returns(start, reports, token, clock, start, [Report(token, Working, clock)])
  {
    hide Applied, Process, Current, Latest, Ended, Recent, Since;
    var r := Report(token, Working, clock);
    var all := reports + [r];
    assert all[|reports|] == r && all[..|reports|] == reports;
    RecentExactly(Ended(start, reports), token);
    AppliedByGeneration(start, all, |reports|);
  }

  lemma BelowBarNeverReturns(start: string -> nat, reports: seq<Report>, token: string, clock: nat,
                             start': string -> nat, more: seq<Report>)
    requires Timed(start, reports) && token != "" && token != Current(start, reports)
    requires start(token) <= Bar(start, reports, token)
    ensures !Returns(start, reports, token, clock, start', more)
  {
    hide Applied, Process, Current, Latest, Ended, TimedReport, Needed;
    if Returns(start, reports, token, clock, start', more) {
      var all := reports + more;
      assert all[..|reports|] == reports && all[|all| - 1] == more[|more| - 1];
      AgreeingRuns(start, start', reports, token);
      StaysBelowBar(start', all, token, |reports|, |all| - 1);
    }
  }

  /** How far ahead a clock must be: a prompt that is not current, recently ended or not,
      can appear again exactly when it started more than `Needed` generations after the last
      one. `clock` bounds the arrivals of the continuation and does not matter. */
  lemma ReturnsExactly(start: string -> nat, reports: seq<Report>, token: string, clock: nat)
    requires Timed(start, reports) && token != "" && token != Current(start, reports)
    ensures CanReturn(start, reports, token, clock) <==> start(token) > Bar(start, reports, token)
  {
    hide *;
    if start(token) > Bar(start, reports, token) {
      var late := if clock > start(token) then clock else start(token);
      var start', more := ReturnsAboveBar(start, reports, token, late);
      LaterIsLater(start, reports, token, clock, late, start', more);
    } else {
      forall start': string -> nat, more: seq<Report> | Returns(start, reports, token, clock, start', more)
        ensures false
      {
        BelowBarNeverReturns(start, reports, token, clock, start', more);
      }
      ReturnsOrNot(start, reports, token, clock);
    }
  }

  lemma LaterIsLater(start: string -> nat, reports: seq<Report>, token: string, clock: nat, late: nat,
                     start': string -> nat, more: seq<Report>)
    requires Returns(start, reports, token, late, start', more) && clock <= late
    ensures CanReturn(start, reports, token, clock)
  {
    hide Agrees, Appears;
    assert Returns(start, reports, token, clock, start', more);
  }

  lemma ReturnsOrNot(start: string -> nat, reports: seq<Report>, token: string, clock: nat)
    requires forall start': string -> nat, more: seq<Report> :: !Returns(start, reports, token, clock, start', more)
    ensures !CanReturn(start, reports, token, clock)
  {
    hide Returns;
  }

  /** A prompt that has just settled can return exactly when its clock ran more than 64
      generations ahead. */
  lemma SettledReturnsExactly(start: string -> nat, init: seq<Report>, r: Report, clock: nat)
    requires Timed(start, init + [r]) && !r.status.Working? && Applied(start, init + [r], |init|)
    ensures CanReturn(start, init + [r], r.token, clock) <==>
      start(r.token) > Latest(start, init + [r]) + MAX_RETIRED_TOKENS
  {
    hide *;
    var all := init + [r];
    RunStep(start, all, |init|);
    TimedMeans(start, r);
    HistoryStep(start, init, r, true);
    var left := Ended(start, all)[..|Ended(start, all)| - 1];
    assert Ended(start, all) == left + [r.token];
    SinceAppend(left, r.token, r.token);
    BarMeans(start, all, r.token);
    AllNeeded(Ended(start, all), r.token);
    ReturnsExactly(start, all, r.token, clock);
  }

  lemma AllNeeded(ended: seq<string>, token: string)
    requires Since(ended, token) == 0
    ensures Needed(ended, "", token) == MAX_RETIRED_TOKENS
  {
    hide Since;
  }

  /** With any clocks of the others: a prompt that opened with a report no earlier than its
      own start is never applied again once a terminal report of it has arrived. */
  lemma PunctualStaysSettled(start: string -> nat, reports: seq<Report>, i: nat, j: nat, k: nat)
    requires Timed(start, reports) && i <= j < k < |reports|
    requires reports[i].token == reports[j].token == reports[k].token && !reports[j].status.Working?
    requires Opens(start, reports, i) && start(reports[i].token) <= reports[i].now
    ensures !Applied(start, reports, k)
  {
    hide *;
    var token := reports[i].token;
    RunStep(start, reports, i);
    TimedMeans(start, reports[i]);
    InTime(start, reports[i]);
    LatestStep(start, reports, i);
    LatestGrows(start, reports, i + 1, j + 1);
    TerminalEnds(start, reports, j);
    HiddenForGood(start, reports, token, j + 1, k);
  }

  lemma TerminalEnds(start: string -> nat, reports: seq<Report>, j: nat)
    requires Timed(start, reports) && j < |reports| && !reports[j].status.Working?
    ensures reports[j].token != Current(start, reports[..j + 1])
  {
    hide *;
    var init, r := reports[..j], reports[j];
    RunStep(start, reports, j);
    TimedMeans(start, r);
    AppliedByGeneration(start, reports, j);
    assert |init| == j;
    HistoryStep(start, init, r, Applied(start, reports, j));
    if r.token == Current(start, init) {
      TimedPrefix(start, reports, j);
      CurrentIsTimed(start, init);
    }
  }

  // ------------------------------------------------- tokens against tokenless updates

  /** One update of any integration; the empty token is the legacy form. */
  datatype Update = Update(token: string, startedAt: Option<nat>, status: Status, now: nat)

  function Step(e: Entry, u: Update): (Entry, bool) {
    Updated(e, u.token, u.startedAt, u.status, u.now)
  }

  function Play(updates: seq<Update>): Entry {
    if updates == [] then Entry(None, None) else Step(Play(updates[..|updates| - 1]), updates[|updates| - 1]).0
  }

  predicate Takes(updates: seq<Update>, i: nat)
    requires i < |updates|
  {
    Step(Play(updates[..i]), updates[i]).1
  }

  predicate HasOrder(e: Entry) {
    e.order.Some? && (e.order.value.active != "" || e.order.value.retired != [])
  }

  predicate Bounded(e: Entry) {
    e.order.Some? ==> |e.order.value.retired| <= MAX_RETIRED_TOKENS
  }

  lemma RetireGrows(o: Order, token: string)
    ensures o.retired != [] || token != "" ==> Retire(o, token).retired != []
    ensures |o.retired| <= MAX_RETIRED_TOKENS ==> |Retire(o, token).retired| <= MAX_RETIRED_TOKENS
    ensures Retire(o, token) == o.(retired := Retire(o, token).retired)
  {
  }

  lemma AdmitKeepsOrder(o: Order, token: string, generation: nat, status: Status)
    requires token != "" && Admit(o, token, generation, status).Some?
    ensures var o' := Admit(o, token, generation, status).value;
      && (o'.active != "" || o'.retired != [])
      && (|o.retired| <= MAX_RETIRED_TOKENS ==> |o'.retired| <= MAX_RETIRED_TOKENS)
  {
    forall p: Order, t: string {
      RetireGrows(p, t);
    }
    hide Retire, IsRetired, CanSupersede;
  }

  lemma StepKeepsOrder(e: Entry, u: Update)
    requires Bounded(e)
    ensures Bounded(Step(e, u).0)
    ensures HasOrder(e) || (u.token != "" && Step(e, u).1) ==> HasOrder(Step(e, u).0)
    ensures HasOrder(e) && u.token == "" ==> Step(e, u) == (e, false)
  {
    var o := if e.order.Some? then e.order.value else NewOrder();
    var g := Generation(u.startedAt, u.now);
    if u.token != "" && Admit(o, u.token, g, u.status).Some? {
      AdmitKeepsOrder(o, u.token, g, u.status);
    }
    hide Admit, Generation;
  }

  lemma {:induction false} OrderIsKept(updates: seq<Update>, i: nat, n: nat)
    requires i < n <= |updates| && updates[i].token != "" && Takes(updates, i)
    ensures HasOrder(Play(updates[..n]))
    decreases n
  {
    hide Step, HasOrder;
    assert updates[..n][..n - 1] == updates[..n - 1];
    HistoryIsBounded(updates[..n - 1]);
    StepKeepsOrder(Play(updates[..n - 1]), updates[n - 1]);
    if i < n - 1 {
      OrderIsKept(updates, i, n - 1);
    }
  }

  /** The token history never holds more than 64 tokens. */
  lemma {:induction false} HistoryIsBounded(updates: seq<Update>)
    ensures Bounded(Play(updates))
  {
    hide Step, Bounded;
    if updates == [] {
      NothingRetired();
    } else {
      HistoryIsBounded(updates[..|updates| - 1]);
      StepKeepsOrder(Play(updates[..|updates| - 1]), updates[|updates| - 1]);
    }
  }

  lemma NothingRetired()
    ensures Bounded(Entry(None, None))
  {
  }

  /** Once an update with a token was applied, tokenless updates of the same key are
      ignored for good. */
  lemma TokenlessNeverSupersedes(updates: seq<Update>, i: nat, j: nat)
    requires i < j < |updates| && updates[i].token != "" && Takes(updates, i) && updates[j].token == ""
    ensures !Takes(updates, j) && Play(updates[..j + 1]) == Play(updates[..j])
  {
    hide Step, HasOrder;
    OrderIsKept(updates, i, j);
    HistoryIsBounded(updates[..j]);
    StepKeepsOrder(Play(updates[..j]), updates[j]);
    assert updates[..j + 1][..j] == updates[..j];
  }

  /** Without tokens updates count in the order in which they arrive: every one is applied,
      and the status is that of the last. */
  lemma {:induction false} ArrivalOrderCounts(updates: seq<Update>)
    requires forall i :: 0 <= i < |updates| ==> updates[i].token == ""
    ensures Play(updates) == Entry(None, if updates == [] then None else Shown(updates[|updates| - 1].status))
    ensures forall i :: 0 <= i < |updates| ==> Takes(updates, i)
  {
    if updates != [] {
      var init, u := updates[..|updates| - 1], updates[|updates| - 1];
      ArrivalOrderCounts(init);
      forall i | 0 <= i < |updates| ensures Takes(updates, i) {
        if i < |init| {
          assert updates[..i] == init[..i] && Takes(init, i);
        }
      }
    }
  }

  /** Has a start time been observed? */
  predicate Stamped(e: Entry) {
    e.order.Some? && e.order.value.latestStartedAt > 0
  }

  /** The active prompt's start time is among those observed. */
  predicate StampsAgree(e: Entry) {
    e.order.Some? && e.order.value.activeStartedAt > 0 ==> e.order.value.latestStartedAt > 0
  }

  lemma StepStamps(e: Entry, u: Update)
    requires StampsAgree(e)
    ensures StampsAgree(Step(e, u).0)
    ensures Stamped(e) ==> Stamped(Step(e, u).0)
    ensures u.token != "" && Generation(u.startedAt, u.now) > 0 && Step(e, u).1 ==> Stamped(Step(e, u).0)
  {
    var o := if e.order.Some? then e.order.value else NewOrder();
    forall p: Order, t: string {
      RetireGrows(p, t);
    }
    hide Retire, Generation, IsRetired;
  }

  lemma {:induction false} StampsAreKept(updates: seq<Update>, i: nat, n: nat)
    requires i < n <= |updates| && updates[i].token != "" && Takes(updates, i)
    requires Generation(updates[i].startedAt, updates[i].now) > 0
    ensures Stamped(Play(updates[..n]))
    decreases n
  {
    hide Step, Stamped;
    assert updates[..n][..n - 1] == updates[..n - 1];
    RunStampsAgree(updates[..n - 1]);
    StepStamps(Play(updates[..n - 1]), updates[n - 1]);
    if i < n - 1 {
      StampsAreKept(updates, i, n - 1);
    }
  }

  lemma {:induction false} RunStampsAgree(updates: seq<Update>)
    ensures StampsAgree(Play(updates))
  {
    hide Step;
    if updates != [] {
      RunStampsAgree(updates[..|updates| - 1]);
      StepStamps(Play(updates[..|updates| - 1]), updates[|updates| - 1]);
    }
  }

  /** Once an applied update has carried a start time, even one that its prompt learnt late,
      an update without one can no longer begin another prompt. */
  lemma MissingStartNeverSupersedes(updates: seq<Update>, i: nat, j: nat)
    requires i < j < |updates| && updates[i].token != "" && Takes(updates, i)
    requires Generation(updates[i].startedAt, updates[i].now) > 0
    requires updates[j].token != "" && Generation(updates[j].startedAt, updates[j].now) == 0
    requires var o := Play(updates[..j]).order; o.Some? ==> o.value.active != updates[j].token
    ensures !Takes(updates, j)
  {
    StampsAreKept(updates, i, j);
    hide Play;
  }

  /** Before any start time is known, prompts are told apart by their tokens alone: a report
      is applied exactly when its prompt has not ended recently and it says working, or
      reports on the current prompt, or nothing is current. */
  lemma UnstampedRule(updates: seq<Update>, i: nat)
    requires i < |updates| && updates[i].token != "" && Generation(updates[i].startedAt, updates[i].now) == 0
    requires !Stamped(Play(updates[..i]))
    ensures var order := Play(updates[..i]).order;
      var o := if order.Some? then order.value else NewOrder();
      Takes(updates, i) <==>
        && updates[i].token !in o.retired
        && (updates[i].status.Working? || o.active == updates[i].token || o.active == "")
  {
    hide Play, Retire;
  }

  // -------------------------------------------------------------------- the tracker

  datatype ActivityKey = ActivityKey(project: string, thread: string, agent: string, session: string)

  datatype Activity = Activity(status: Status, updatedAt: nat)

  function Priority(s: Status): nat {
    match s
    case Working => 2
    case Finished => 1
    case Idle => 0
  }

  /** Does `x` win over `y` when one thread has several agent sessions? */
  predicate Outranks(x: Activity, y: Activity) {
    Priority(x.status) > Priority(y.status) || (x.status == y.status && x.updatedAt > y.updatedAt)
  }

  datatype ThreadKey = ThreadKey(project: string, thread: string)

  function ThreadOf(k: ActivityKey): ThreadKey {
    ThreadKey(k.project, k.thread)
  }

  class Tracker {
    var activities: map<ActivityKey, Activity>
    var promptOrder: map<ActivityKey, Order>

    ghost function EntryFor(key: ActivityKey): Entry
      reads this
    {
      Entry(if key in promptOrder then Some(promptOrder[key]) else None,
            if key in activities then Some(activities[key].status) else None)
    }

    constructor ()
      ensures forall key :: EntryFor(key) == Entry(None, None)
    {
      activities, promptOrder := map[], map[];
    }

    /** What a report with a token makes of its key's order; None when it is ignored. */
    static method AdmitPrompt(known: Order, token: string, generation: nat, status: Status)
        returns (admitted: Option<Order>)
      ensures admitted == Admit(known, token, generation, status)
    {
      var order := known;
      if IsRetired(order, token) {
        return None;
      }
      if status.Working? {
        if order.active != token {
          if !CanSupersede(order, generation, true) {
            return None;
          }
          order := Activate(order, token, generation);
        } else if order.activeStartedAt == 0 && generation != 0 {
          order := Observe(order.(activeStartedAt := generation), generation);
        }
        return Some(order);
      }
      if order.active != token {
        var allowUnordered := order.active == "" && order.latestStartedAt == 0;
        if !(generation == 0 && allowUnordered) && !CanSupersede(order, generation, false) {
          return None;
        }
        order := Activate(order, token, generation);
      } else if order.activeStartedAt == 0 && generation != 0 {
        order := Observe(order.(activeStartedAt := generation), generation);
      }
      if order.active == token {
        order := order.(active := "", activeStartedAt := 0);
      }
      return Some(Retire(order, token));
    }

    method UpdateAgentTokenAt(key: ActivityKey, token: string, startedAt: Option<nat>, status: Status, now: nat)
      returns (applied: bool)
      modifies this
      ensures (EntryFor(key), applied) == Updated(old(EntryFor(key)), token, startedAt, status, now)
      ensures applied && !status.Idle? ==> activities[key] == Activity(status, now)
      ensures forall other :: other != key ==>
        EntryFor(other) == old(EntryFor(other)) && (other in activities ==> activities[other] == old(activities)[other])
    {
      hide Admit;
      var generation := 0;
      if startedAt.Some? {
        generation := startedAt.value;
        if generation > now {
          generation := now;
        }
      }
      if token != "" {
        if key !in promptOrder {
          promptOrder := promptOrder[key := NewOrder()];
        }
        var admitted := AdmitPrompt(promptOrder[key], token, generation, status);
        if admitted.None? {
          return false;
        }
        promptOrder := promptOrder[key := admitted.value];
      } else if key in promptOrder && (promptOrder[key].active != "" || promptOrder[key].retired != []) {
        return false;
      }
      if status.Idle? {
        activities := activities - {key};
        return true;
      }
      activities := activities[key := Activity(status, now)];
      return true;
    }

    /** The status shown per thread: working if any session works, else finished if any has
        finished, and of the sessions with that status the latest. The sessions are visited in arbitrary order; the
        result does not depend on it. */
    method Snapshot() returns (shown: map<ThreadKey, Activity>)
      ensures shown.Keys == set k | k in activities :: ThreadOf(k)
      ensures forall k :: k in activities ==> !Outranks(activities[k], shown[ThreadOf(k)])
      ensures forall k :: k in activities && activities[k].status.Working? ==> shown[ThreadOf(k)].status.Working?
      ensures forall k :: k in activities && !activities[k].status.Idle? ==> !shown[ThreadOf(k)].status.Idle?
      ensures forall k :: k in activities && activities[k].status == shown[ThreadOf(k)].status ==>
        activities[k].updatedAt <= shown[ThreadOf(k)].updatedAt
      ensures forall t :: t in shown ==> exists k :: k in activities && ThreadOf(k) == t && activities[k] == shown[t]
    {
      shown := map[];
      var todo := activities.Keys;
      while todo != {}
        invariant todo <= activities.Keys
        invariant shown.Keys == set k | k in activities && k !in todo :: ThreadOf(k)
        invariant forall k :: k in activities && k !in todo ==> !Outranks(activities[k], shown[ThreadOf(k)])
        invariant forall t :: t in shown ==>
          exists k :: k in activities && k !in todo && ThreadOf(k) == t && activities[k] == shown[t]
        decreases |todo|
      {
        var key :| key in todo;
        var activity, thread := activities[key], ThreadOf(key);
        ghost var before := shown;
        if thread !in shown || Outranks(activity, shown[thread]) {
          shown := shown[thread := activity];
        }
        todo := todo - {key};
        forall t | t in shown
          ensures exists k :: k in activities && k !in todo && ThreadOf(k) == t && activities[k] == shown[t]
        {
          if t in before && shown[t] == before[t] {
            var k :| k in activities && k !in todo + {key} && ThreadOf(k) == t && activities[k] == before[t];
            assert k !in todo;
          } else {
            assert key !in todo;
          }
        }
      }
      forall k | k in activities {
        OutranksMeans(activities[k], shown[ThreadOf(k)]);
      }
      hide Outranks;
    }
  }

  lemma OutranksMeans(x: Activity, y: Activity)
    requires !Outranks(x, y)
    ensures x.status.Working? ==> y.status.Working?
    ensures !x.status.Idle? ==> !y.status.Idle?
    ensures x.status == y.status ==> x.updatedAt <= y.updatedAt
  {
  }

  /** The snapshot's contract leaves no choice: the shown activity of a thread is unique. */
  lemma SnapshotIsDetermined(activities: map<ActivityKey, Activity>, t: ThreadKey, x: Activity, y: Activity)
    requires exists k :: k in activities && ThreadOf(k) == t && activities[k] == x
    requires exists k :: k in activities && ThreadOf(k) == t && activities[k] == y
    requires forall k :: k in activities && ThreadOf(k) == t ==>
      !Outranks(activities[k], x) && !Outranks(activities[k], y)
    ensures x == y
  {
    var k :| k in activities && ThreadOf(k) == t && activities[k] == x;
    var l :| l in activities && ThreadOf(l) == t && activities[l] == y;
  }
}
