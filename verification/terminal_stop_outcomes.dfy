/** What the operations on terminal stops achieve, on every run of any number of processes:
    when each of them succeeds, what is on disk then, and what is left when it fails. */
module TerminalStopOutcomes {
  import opened Common
  import opened TerminalStop

  /** The process is done and its lock free; no other lock has moved. */
  predicate Released(r: System, t: System, i: nat, path: Path) {
    i in t.actors && t.actors[i].Finished? && t.locks == r.locks - {path}
  }

  /** The process still holds the lease at `path`, with this marker in memory. */
  predicate Holds(r: System, t: System, i: nat, path: Path, marker: Marker) {
    && i in t.actors && t.actors[i].Open? && t.locks == r.locks
    && t.actors[i].lease.path == path && t.actors[i].lease.marker == marker
  }

  predicate IsOpen(s: System, i: nat) {
    i in s.actors && s.actors[i].Open?
  }

  /** The error that a lease method returns in this step, if the step is one. */
  function Reply(s: System, i: nat, e: Event): Option<Option<LeaseError>> {
    if !IsOpen(s, i) then None
    else
      var l := s.actors[i].lease;
      match e
      case Update(verified, _, _, outcome) => Some(UpdateError(s.disk, l, verified, outcome))
      case Commit(verified, outcome) => Some(CommitError(s.disk, l, verified, outcome))
      case Rollback(verified, removed) => Some(RollbackError(s.disk, l, verified, removed))
      case _ => None
  }

  lemma ReplyToCommit(s: System, i: nat, e: Event)
    requires e.Commit?
    ensures Reply(s, i, e) == Some(None) <==> CommitReply(s, i, e) == Some(true)
  {
  }

  /** The lease of an open process in a run: its marker is on disk under its own token. */
  lemma OpenFacts(s: System, turns: seq<Turn>, i: nat)
    requires Initial(s) && IsOpen(Run(s, turns), i)
    ensures var r := Run(s, turns);
      var l := r.actors[i].lease;
      && l.path in r.disk && l.path in r.locks && r.locks[l.path] == i
      && r.disk[l.path] == OnDisk(l) && (l.lostCommit ==> !l.marker.committed)
      && r.disk[l.path].token == l.marker.token
  {
    hide Run, Apply, Inv;
    RunKeepsInv(s, turns);
    InvFacts(Run(s, turns), i);
  }

  lemma InvFacts(r: System, i: nat)
    requires Inv(r) && IsOpen(r, i)
    ensures var l := r.actors[i].lease;
      && l.path in r.disk && l.path in r.locks && r.locks[l.path] == i
      && r.disk[l.path] == OnDisk(l) && (l.lostCommit ==> !l.marker.committed)
      && r.disk[l.path].token == l.marker.token
  {
    OwnFacts(r, i);
  }

  /** Commit returns no error exactly when the lease is still the owner and the marker is
      committed already or replaced. Then the marker on disk, whatever else it holds, is
      committed and the lease goes on; a lost ownership releases the lock; any other failure
      keeps the lease, and the marker is committed only if the rename had happened. */
  lemma CommitTakes(s: System, turns: seq<Turn>, i: nat, verified: bool, outcome: SaveOutcome)
    requires Initial(s) && IsOpen(Run(s, turns), i)
    ensures var r := Run(s, turns); r.actors[i].lease.path in r.disk
    ensures var e := Commit(verified, outcome);
      var r, t := Run(s, turns), Run(s, turns + [Turn(i, e)]);
      var path, marker := r.actors[i].lease.path, r.actors[i].lease.marker;
      var committed := r.disk[path := r.disk[path].(committed := true)];
      && (Reply(r, i, e) == Some(None) <==> verified && (marker.committed || outcome.Published?))
      && (Reply(r, i, e) == Some(None) ==> t.disk == committed && Holds(r, t, i, path, committed[path]))
      && (!verified ==> t.disk == r.disk && Released(r, t, i, path))
      && (verified && Reply(r, i, e) != Some(None) ==>
            t.disk == (if outcome.NotPublished? then r.disk else committed) && Holds(r, t, i, path, marker))
  {
    OpenFacts(s, turns, i);
    var r := Run(s, turns);
    var path := r.actors[i].lease.path;
    assert r.disk[path := r.disk[path]] == r.disk;
    RunOne(s, turns, Turn(i, Commit(verified, outcome)));
    hide Run;
  }

  /** A stop whose Commit returned no error is there for good, recipe and all, whatever the
      other processes do, as long as callers heed failed commits. */
  lemma SuccessfulCommitIsForever(s: System, before: seq<Turn>, i: nat, verified: bool, outcome: SaveOutcome,
                                  after: seq<Turn>)
    requires Initial(s) && IsOpen(Run(s, before), i)
    requires Reply(Run(s, before), i, Commit(verified, outcome)) == Some(None)
    requires Heeds(s, before + [Turn(i, Commit(verified, outcome))] + after)
    ensures var r, t := Run(s, before), Run(s, before + [Turn(i, Commit(verified, outcome))] + after);
      var path := r.actors[i].lease.path;
      path in r.disk && path in t.disk && t.disk[path] == r.disk[path].(committed := true)
  {
    hide Run, Reply, Heeds;
    OpenFacts(s, before, i);
    CommitTakes(s, before, i, verified, outcome);
    CommittedStopsArePermanent(s, before + [Turn(i, Commit(verified, outcome))], after);
  }

  /** UpdateCleanupRecipe returns no error exactly when the lease is still the owner of a
      marker it knows as uncommitted and the write was published. Then the marker holds the
      new thread and session names under its old token, on disk and in memory. A committed
      marker is refused and stays as it is; every other failure releases the lock. */
  lemma UpdateTakes(s: System, turns: seq<Turn>, i: nat, verified: bool, threads: seq<string>, sessions: seq<string>,
                    outcome: SaveOutcome)
    requires Initial(s) && IsOpen(Run(s, turns), i)
    ensures var r := Run(s, turns); r.actors[i].lease.path in r.disk
    ensures var e := Update(verified, threads, sessions, outcome);
      var r, t := Run(s, turns), Run(s, turns + [Turn(i, e)]);
      var path, marker := r.actors[i].lease.path, r.actors[i].lease.marker;
      var updated := r.disk[path := Marker(r.disk[path].token, threads, sessions, false)];
      && (Reply(r, i, e) == Some(None) <==> verified && !marker.committed && outcome.Published?)
      && (Reply(r, i, e) == Some(None) ==> t.disk == updated && Holds(r, t, i, path, updated[path]))
      && (verified && marker.committed ==>
            Reply(r, i, e) == Some(Some(AlreadyCommitted)) && t.disk == r.disk && Holds(r, t, i, path, marker))
      && (!verified ==> t.disk == r.disk && Released(r, t, i, path))
      && (verified && !marker.committed && !outcome.Published? ==>
            t.disk == (if outcome.NotPublished? then r.disk else updated) && Released(r, t, i, path))
  {
    OpenFacts(s, turns, i);
    RunOne(s, turns, Turn(i, Update(verified, threads, sessions, outcome)));
    var r := Run(s, turns);
    assert r.actors[i := r.actors[i]] == r.actors;
    hide Run;
  }

  /** Rollback always releases the lock. It returns no error exactly when the lease is still
      the owner of a marker it knows as uncommitted and the file could be removed; then the
      marker is gone, and otherwise the directory is unchanged. */
  lemma RollbackTakes(s: System, turns: seq<Turn>, i: nat, verified: bool, removed: bool)
    requires Initial(s) && IsOpen(Run(s, turns), i)
    ensures var e := Rollback(verified, removed);
      var r, t := Run(s, turns), Run(s, turns + [Turn(i, e)]);
      var path, marker := r.actors[i].lease.path, r.actors[i].lease.marker;
      && (Reply(r, i, e) == Some(None) <==> verified && !marker.committed && removed)
      && t.disk == (if Reply(r, i, e) == Some(None) then r.disk - {path} else r.disk)
      && Released(r, t, i, path)
  {
    OpenFacts(s, turns, i);
    RunOne(s, turns, Turn(i, Rollback(verified, removed)));
    hide Run;
  }

  /** Retain, and the death of the process, release the lock and leave the marker. */
  lemma RetainTakes(s: System, turns: seq<Turn>, i: nat, e: Event)
    requires Initial(s) && IsOpen(Run(s, turns), i) && (e.Retain? || e.Crash?)
    ensures var r, t := Run(s, turns), Run(s, turns + [Turn(i, e)]);
      var path := r.actors[i].lease.path;
      t.disk == r.disk && path in t.disk && Released(r, t, i, path)
  {
    hide *;
    OpenFacts(s, turns, i);
    RunOne(s, turns, Turn(i, e));
    RetainReleases(Run(s, turns), i, e);
  }

  lemma RetainReleases(r: System, i: nat, e: Event)
    requires IsOpen(r, i) && (e.Retain? || e.Crash?)
    ensures var t := Apply(r, i, e); t.disk == r.disk && Released(r, t, i, r.actors[i].lease.path)
  {
    hide Settle, CheckOther, Acquire, Start, UpdateEffect, CommitEffect, RollbackEffect, AbandonEffect;
  }

  // ------------------------------------------------------------------ beginning a stop

  /** What an unfinished begin leaves: the lock is free, a marker found is untouched, and a
      marker of its own is taken back if it can be. */
  ghost predicate LeavesNothing(r: System, t: System, i: nat, path: Path, io: BeginIO) {
    && i in t.actors && t.actors[i].Finished? && t.locks == r.locks
    && OnlyPathDiffers(r.disk, t.disk, path)
    && (path in r.disk ==> t.disk == r.disk)
    && (!io.write.PublishedWithError? && io.verified && io.removed ==> t.disk == r.disk)
  }

  /** What a successful begin holds: the lock, and either the marker it found, adopted and
      unchanged, or the one it wrote. */
  predicate Begun(r: System, t: System, i: nat, path: Path, want: Marker) {
    && IsOpen(t, i) && t.actors[i].ordered
    && t.locks == r.locks[path := i]
    && t.disk == (if path in r.disk then r.disk else r.disk[path := want])
    && t.actors[i].lease.path == path && t.actors[i].lease.marker == t.disk[path]
    && t.actors[i].lease.adopted == (path in r.disk)
  }

  /** The lock is free, and the marker can be read and, if there is none, written. */
  predicate CanAcquire(r: System, path: Path, io: BeginIO) {
    && !io.lockFailed && path !in r.locks && !io.existingUnreadable
    && (path in r.disk || io.write.Published?)
  }

  /** The three acquiring steps, amid any other processes. */
  lemma AcquireOutcome(r: System, i: nat, path: Path, want: Marker, todo: seq<string>, io: BeginIO)
    requires i in r.actors && r.actors[i] == BeforeLock(path, Some(want), todo)
    ensures var t :=
      Apply(Apply(Apply(r, i, TryLock(io.lockFailed)), i, ReadExisting(io.existingUnreadable)), i, WriteNew(io.write));
      var disk := if path in r.disk then r.disk else r.disk[path := want];
      if CanAcquire(r, path, io) then
        t == System(disk, r.locks[path := i], r.actors[i := Rechecking(
          Lease(path, disk[path], path in r.disk, Names(todo), {}, false), todo, false)])
      else
        && t.actors == r.actors[i := Finished] && t.locks == r.locks
        && (t.disk == r.disk || (path !in r.disk && io.write.PublishedWithError? && t.disk == r.disk[path := want]))
  {
    hide CheckOther, UseLease, Settle, Start, AbandonEffect, Names;
    var t1 := Apply(r, i, TryLock(io.lockFailed));
    if !io.lockFailed && path !in r.locks {
      assert t1 == System(r.disk, r.locks[path := i], r.actors[i := BeforeRead(path, Some(want), todo)]);
      assert r.locks[path := i] - {path} == r.locks;
      var t2 := Apply(t1, i, ReadExisting(io.existingUnreadable));
      if !io.existingUnreadable && path !in r.disk {
        assert t2 == System(r.disk, r.locks[path := i], r.actors[i := BeforeWrite(path, want, todo)]);
      }
    }
  }

  /** beginThread, undisturbed but from any state of the other processes: it returns a lease
      exactly when the project is seen unmarked twice, the lock is free, and the thread's
      marker can be adopted or written. */
  lemma ThreadStopBegins(r: System, i: nat, p: string, t: string, token: nat, sessions: seq<string>, io: BeginIO)
    requires i !in r.actors && io.checkUnreadable != []
    ensures var u := ThreadAlone(r, i, p, t, token, sessions, io);
      var path := ThreadStop(p, t);
      if !io.firstUnreadable && ProjectStop(p) !in r.disk && CanAcquire(r, path, io) && !io.checkUnreadable[0] then
        Begun(r, u, i, path, Marker(token, [], sessions, false))
      else LeavesNothing(r, u, i, path, io)
  {
    hide *;
    var path, want := ThreadStop(p, t), Marker(token, [], sessions, false);
    ThreadHeadAnywhere(r, i, p, t, token, sessions, io.firstUnreadable);
    ThreadAloneSplits(r, i, p, t, token, sessions, io);
    if io.firstUnreadable || ProjectStop(p) in r.disk {
      RefusedAtOnce(r, i, path, io);
    } else {
      AcquiredThenChecked(r, i, p, t, want, io);
    }
  }

  ghost function AcquireAll(r: System, i: nat, io: BeginIO): System {
    Apply(Apply(Apply(r, i, TryLock(io.lockFailed)), i, ReadExisting(io.existingUnreadable)), i, WriteNew(io.write))
  }

  ghost function CheckOnce(r: System, i: nat, io: BeginIO): System
    requires io.checkUnreadable != []
  {
    Apply(Apply(r, i, Check(io.checkUnreadable[0])), i, Abandon(io.verified, io.removed))
  }

  lemma ThreadAloneSplits(r: System, i: nat, p: string, t: string, token: nat, sessions: seq<string>, io: BeginIO)
    requires io.checkUnreadable != []
    ensures ThreadAlone(r, i, p, t, token, sessions, io) ==
      CheckOnce(AcquireAll(Apply(Apply(r, i, BeginThread(p, t, token, sessions)), i, ReadProject(io.firstUnreadable)),
                           i, io), i, io)
  {
    hide Apply;
  }

  lemma RefusedAtOnce(r: System, i: nat, path: Path, io: BeginIO)
    requires io.checkUnreadable != []
    ensures LeavesNothing(r, CheckOnce(AcquireAll(Move(r, i, Finished), i, io), i, io), i, path, io)
  {
    var t := Move(r, i, Finished);
    hide Apply;
    AcquireStaysFinished(t, i, io);
    FinishedStays(t, i, Check(io.checkUnreadable[0]));
    FinishedStays(t, i, Abandon(io.verified, io.removed));
  }

  lemma AcquiredThenChecked(r: System, i: nat, p: string, t: string, want: Marker, io: BeginIO)
    requires io.checkUnreadable != [] && !want.committed && ProjectStop(p) !in r.disk
    ensures var path := ThreadStop(p, t);
      var u := CheckOnce(AcquireAll(Move(r, i, BeforeLock(path, Some(want), [])), i, io), i, io);
      if CanAcquire(r, path, io) && !io.checkUnreadable[0] then Begun(r, u, i, path, want)
      else LeavesNothing(r, u, i, path, io)
  {
    hide *;
    var path := ThreadStop(p, t);
    var r2 := AcquireAll(Move(r, i, BeforeLock(path, Some(want), [])), i, io);
    Acquired(r, i, path, want, [], io);
    if !CanAcquire(r, path, io) {
      FailedStays(r2, i, io);
    } else {
      CheckedThenEnds(r, r2, i, Fresh(r, path, want, []), p, t, want, io);
    }
  }

  /** The lease as it is acquired. */
  function Fresh(r: System, path: Path, want: Marker, todo: seq<string>): Lease {
    Lease(path, if path in r.disk then r.disk[path] else want, path in r.disk, Names(todo), {}, false)
  }

  lemma NothingLeft(r: System, t: System, i: nat, path: Path, want: Marker, io: BeginIO)
    requires i in t.actors && t.actors[i].Finished? && t.locks == r.locks
    requires t.disk == r.disk || (path !in r.disk && io.write.PublishedWithError? && t.disk == r.disk[path := want])
    ensures LeavesNothing(r, t, i, path, io)
  {
  }

  /** What the acquiring steps leave, in terms of the state before the begin. */
  lemma Acquired(r: System, i: nat, path: Path, want: Marker, todo: seq<string>, io: BeginIO)
    ensures var r2 := AcquireAll(Move(r, i, BeforeLock(path, Some(want), todo)), i, io);
      if CanAcquire(r, path, io) then
        r2 == System(if path in r.disk then r.disk else r.disk[path := want], r.locks[path := i],
                     r.actors[i := Rechecking(Fresh(r, path, want, todo), todo, false)])
      else i in r2.actors && r2.actors[i].Finished? && LeavesNothing(r, r2, i, path, io)
  {
    var r1 := Move(r, i, BeforeLock(path, Some(want), todo));
    AcquireOutcome(r1, i, path, want, todo, io);
    hide Apply, Names, LeavesNothing;
    if !CanAcquire(r, path, io) {
      NothingLeft(r, AcquireAll(r1, i, io), i, path, want, io);
    }
    var a := Rechecking(Fresh(r, path, want, todo), todo, false);
    assert r1.actors[i := Finished] == r.actors[i := Finished] && r1.actors[i := a] == r.actors[i := a];
  }

  lemma FailedStays(r: System, i: nat, io: BeginIO)
    requires i in r.actors && r.actors[i].Finished? && io.checkUnreadable != []
    ensures CheckOnce(r, i, io) == r
  {
    hide Apply;
    FinishedStays(r, i, Check(io.checkUnreadable[0]));
    FinishedStays(r, i, Abandon(io.verified, io.removed));
  }

  lemma CheckedThenEnds(r: System, r2: System, i: nat, l: Lease, p: string, t: string, want: Marker, io: BeginIO)
    requires io.checkUnreadable != [] && !want.committed && CanAcquire(r, ThreadStop(p, t), io)
    requires ProjectStop(p) !in r.disk
    requires l == Fresh(r, ThreadStop(p, t), want, [])
    requires var disk := if ThreadStop(p, t) in r.disk then r.disk else r.disk[ThreadStop(p, t) := want];
      r2 == System(disk, r.locks[ThreadStop(p, t) := i], r.actors[i := Rechecking(l, [], false)])
    ensures var path := ThreadStop(p, t);
      var u := CheckOnce(r2, i, io);
      if !io.checkUnreadable[0] then Begun(r, u, i, path, want) else LeavesNothing(r, u, i, path, io)
  {
    hide Apply, AbandonEffect;
    var path := ThreadStop(p, t);
    ThreadTailAnywhere(r2, i, l, p, t, io.checkUnreadable[0], io.verified, io.removed);
    AbandonTakes(r.disk, l, want, io.verified, io.removed);
    assert r.locks[path := i] - {path} == r.locks;
  }

  lemma ThreadHeadAnywhere(r: System, i: nat, p: string, t: string, token: nat, sessions: seq<string>, unreadable: bool)
    requires i !in r.actors
    ensures Apply(Apply(r, i, BeginThread(p, t, token, sessions)), i, ReadProject(unreadable)) ==
      Move(r, i, if unreadable || ProjectStop(p) in r.disk then Finished
                 else BeforeLock(ThreadStop(p, t), Some(Marker(token, [], sessions, false)), []))
  {
    var r1 := Apply(r, i, BeginThread(p, t, token, sessions));
    assert r1 == Move(r, i, BeforeProjectRead(ThreadStop(p, t), Marker(token, [], sessions, false)));
    hide CheckOther, UseLease, Settle, AbandonEffect;
  }

  lemma ThreadTailAnywhere(r: System, i: nat, l: Lease, p: string, t: string, unreadable: bool, verified: bool,
                           removed: bool)
    requires i in r.actors && r.actors[i] == Rechecking(l, [], false) && l.path == ThreadStop(p, t)
    ensures Apply(Apply(r, i, Check(unreadable)), i, Abandon(verified, removed)) ==
      if !unreadable && ProjectStop(p) !in r.disk then Move(r, i, Open(l, true))
      else System(AbandonEffect(r.disk, l, verified, removed).disk, r.locks - {l.path}, r.actors[i := Finished])
  {
    hide UpdateEffect, CommitEffect, Acquire, Start;
  }

  /** Abandoning takes a marker of one's own back and leaves an adopted one. */
  lemma AbandonTakes(disk: map<Path, Marker>, l: Lease, want: Marker, verified: bool, removed: bool)
    requires !want.committed && l.adopted == (l.path in disk)
    requires l.marker == if l.path in disk then disk[l.path] else want
    ensures var now := if l.path in disk then disk else disk[l.path := want];
      AbandonEffect(now, l, verified, removed).disk == (if l.path !in disk && verified && removed then disk else now)
  {
    if l.path !in disk {
      assert disk[l.path := want] - {l.path} == disk;
    }
  }

  // --------------------------------------------------- a project lease reads its threads

  /** How many threads, from the k-th on, can be read and are unmarked before the first that
      cannot or is. */
  function FirstBlocked(disk: map<Path, Marker>, p: string, threads: seq<string>, unreadable: seq<bool>, k: nat)
    : (f: nat)
    requires k <= |threads| < |unreadable|
    ensures k <= f <= |threads|
    ensures forall j :: k <= j < f ==> !unreadable[j] && ThreadStop(p, threads[j]) !in disk
    ensures f < |threads| ==> unreadable[f] || ThreadStop(p, threads[f]) in disk
    decreases |threads| - k
  {
    if k == |threads| || unreadable[k] || ThreadStop(p, threads[k]) in disk then k
    else FirstBlocked(disk, p, threads, unreadable, k + 1)
  }

  predicate AllClear(disk: map<Path, Marker>, p: string, threads: seq<string>, unreadable: seq<bool>)
    requires |threads| < |unreadable|
  {
    forall k :: 0 <= k < |threads| ==> !unreadable[k] && ThreadStop(p, threads[k]) !in disk
  }

  /** The lease after it found the first f threads clear. */
  function Cleared(l: Lease, threads: seq<string>, f: nat): Lease
    requires f <= |threads|
  {
    l.(cleared := l.cleared + Names(threads[..f]))
  }

  /** Where the reads end when thread f is the first that blocks. */
  function Decided(r: System, i: nat, l: Lease, threads: seq<string>, granted: bool, unreadable: seq<bool>, f: nat)
    : System
    requires f <= |threads| < |unreadable|
  {
    if f == |threads| then Move(r, i, Open(Cleared(l, threads, f), true))
    else if granted && unreadable[f] then Close(r, i, l.path)
    else Move(r, i, Abandoning(Cleared(l, threads, f)))
  }

  lemma NamesGrow(threads: seq<string>, k: nat)
    requires k < |threads|
    ensures Names(threads[..k + 1]) == Names(threads[..k]) + {threads[k]}
    ensures Names(threads[..0]) == {} && Names(threads[..|threads|]) == Names(threads)
  {
    var a, b := threads[..k], threads[..k + 1];
    forall x | x in Names(b) ensures x in Names(a) + {threads[k]} {
      var j: nat :| j < |b| && b[j] == x;
      assert j < k ==> a[j] == x;
    }
    forall x | x in Names(a) ensures x in Names(b) {
      var j: nat :| j < |a| && a[j] == x;
      assert b[j] == x;
    }
    assert b[k] == threads[k];
    assert threads[..|threads|] == threads;
  }

  lemma ClearedStep(l: Lease, threads: seq<string>, k: nat)
    requires k < |threads|
    ensures Cleared(l, threads, k).(cleared := Cleared(l, threads, k).cleared + {threads[k]}) ==
      Cleared(l, threads, k + 1)
  {
    NamesGrow(threads, k);
    hide Names;
  }

  lemma ReadOne(r: System, i: nat, l: Lease, p: string, todo: seq<string>, granted: bool, unreadable: bool)
    requires i in r.actors && r.actors[i] == Rechecking(l, todo, granted) && l.path == ProjectStop(p)
    ensures Apply(r, i, Check(unreadable)) ==
      if todo == [] then Move(r, i, Open(l, true))
      else if unreadable && granted then Close(r, i, l.path)
      else if unreadable || ThreadStop(p, todo[0]) in r.disk then Move(r, i, Abandoning(l))
      else Move(r, i, Rechecking(l.(cleared := l.cleared + {todo[0]}), todo[1..], granted))
  {
  }

  lemma {:induction false} ChecksFrom(r: System, i: nat, l: Lease, p: string, threads: seq<string>, granted: bool,
                                      unreadable: seq<bool>, k: nat)
    requires i in r.actors && l.path == ProjectStop(p) && k <= |threads| && |unreadable| == |threads| + 1
    requires Checks(r, i, unreadable[..k]) == Move(r, i, Rechecking(Cleared(l, threads, k), threads[k..], granted))
    ensures Checks(r, i, unreadable) ==
      Decided(r, i, l, threads, granted, unreadable, FirstBlocked(r.disk, p, threads, unreadable, k))
    decreases |threads| - k
  {
    hide Checks, Apply, Names, Cleared;
    ChecksOne(r, i, unreadable, k);
    var s := Checks(r, i, unreadable[..k]);
    CloseAgain(r, i, Rechecking(Cleared(l, threads, k), threads[k..], granted), l.path);
    ReadOneCleared(s, i, l, p, threads, granted, unreadable[k], k);
    if k == |threads| {
      assert unreadable[..k + 1] == unreadable;
    } else if unreadable[k] || ThreadStop(p, threads[k]) in r.disk {
      DecidedStays(r, i, unreadable, k + 1);
    } else {
      ChecksFrom(r, i, l, p, threads, granted, unreadable, k + 1);
    }
  }

  lemma CloseAgain(r: System, i: nat, a: Actor, path: Path)
    ensures Close(Move(r, i, a), i, path) == Close(r, i, path)
  {
    assert r.actors[i := a][i := Finished] == r.actors[i := Finished];
  }

  lemma ReadOneCleared(s: System, i: nat, l: Lease, p: string, threads: seq<string>, granted: bool, unreadable: bool,
                       k: nat)
    requires k <= |threads| && l.path == ProjectStop(p)
    requires i in s.actors && s.actors[i] == Rechecking(Cleared(l, threads, k), threads[k..], granted)
    ensures Apply(s, i, Check(unreadable)) ==
      if k == |threads| then Move(s, i, Open(Cleared(l, threads, k), true))
      else if unreadable && granted then Close(s, i, l.path)
      else if unreadable || ThreadStop(p, threads[k]) in s.disk then Move(s, i, Abandoning(Cleared(l, threads, k)))
      else Move(s, i, Rechecking(Cleared(l, threads, k + 1), threads[k + 1..], granted))
  {
    ReadOne(s, i, Cleared(l, threads, k), p, threads[k..], granted, unreadable);
    if k < |threads| {
      ClearedStep(l, threads, k);
      assert threads[k..][1..] == threads[k + 1..];
    }
    hide Apply, Names;
  }

  lemma ChecksOutcome(r: System, i: nat, l: Lease, p: string, threads: seq<string>, granted: bool,
                      unreadable: seq<bool>)
    requires i in r.actors && r.actors[i] == Rechecking(l, threads, granted) && l.path == ProjectStop(p)
    requires |unreadable| == |threads| + 1
    ensures Checks(r, i, unreadable) ==
      Decided(r, i, l, threads, granted, unreadable, FirstBlocked(r.disk, p, threads, unreadable, 0))
  {
    hide Apply, Checks;
    NoChecks(r, i, unreadable);
    assert threads[..0] == [] && threads[0..] == threads;
    assert Cleared(l, threads, 0) == l;
    assert r.actors[i := r.actors[i]] == r.actors;
    ChecksFrom(r, i, l, p, threads, granted, unreadable, 0);
  }

  /** beginProject, undisturbed but from any state of the other processes: it returns a lease
      exactly when the lock is free, the project's marker can be adopted or written, and every
      thread it was asked about can be read and is unmarked; it has then cleared all of them. */
  lemma ProjectStopBegins(r: System, i: nat, p: string, threads: seq<string>, token: nat, sessions: seq<string>,
                          io: BeginIO)
    requires i !in r.actors && |io.checkUnreadable| == |threads| + 1
    ensures var u := ProjectAlone(r, i, p, threads, token, sessions, io);
      var path := ProjectStop(p);
      if CanAcquire(r, path, io) && AllClear(r.disk, p, threads, io.checkUnreadable) then
        && Begun(r, u, i, path, Marker(token, threads, sessions, false))
        && u.actors[i].lease.requested == Names(threads) <= u.actors[i].lease.cleared
      else LeavesNothing(r, u, i, path, io)
  {
    hide *;
    var path, want := ProjectStop(p), Marker(token, threads, sessions, false);
    ProjectHeadAnywhere(r, i, p, threads, token, sessions);
    ProjectAloneSplits(r, i, p, threads, token, sessions, io);
    AcquiredThenRead(r, i, p, threads, want, io);
  }

  ghost function CheckAll(r: System, i: nat, io: BeginIO): System {
    Apply(Checks(r, i, io.checkUnreadable), i, Abandon(io.verified, io.removed))
  }

  lemma ProjectAloneSplits(r: System, i: nat, p: string, threads: seq<string>, token: nat, sessions: seq<string>,
                           io: BeginIO)
    ensures ProjectAlone(r, i, p, threads, token, sessions, io) ==
      CheckAll(AcquireAll(Apply(r, i, BeginProject(p, threads, token, sessions)), i, io), i, io)
  {
    hide Apply;
  }

  lemma ProjectHeadAnywhere(r: System, i: nat, p: string, threads: seq<string>, token: nat, sessions: seq<string>)
    requires i !in r.actors
    ensures Apply(r, i, BeginProject(p, threads, token, sessions)) ==
      Move(r, i, BeforeLock(ProjectStop(p), Some(Marker(token, threads, sessions, false)), threads))
  {
  }

  lemma AcquiredThenRead(r: System, i: nat, p: string, threads: seq<string>, want: Marker, io: BeginIO)
    requires |io.checkUnreadable| == |threads| + 1 && !want.committed
    ensures var path := ProjectStop(p);
      var u := CheckAll(AcquireAll(Move(r, i, BeforeLock(path, Some(want), threads)), i, io), i, io);
      if CanAcquire(r, path, io) && AllClear(r.disk, p, threads, io.checkUnreadable) then
        && Begun(r, u, i, path, want)
        && u.actors[i].lease.requested == Names(threads) <= u.actors[i].lease.cleared
      else LeavesNothing(r, u, i, path, io)
  {
    hide *;
    var path := ProjectStop(p);
    var r2 := AcquireAll(Move(r, i, BeforeLock(path, Some(want), threads)), i, io);
    Acquired(r, i, path, want, threads, io);
    if !CanAcquire(r, path, io) {
      FailedReads(r2, i, io);
    } else {
      ReadsThenEnds(r, r2, i, Fresh(r, path, want, threads), p, threads, want, io);
    }
  }

  lemma FailedReads(r: System, i: nat, io: BeginIO)
    requires i in r.actors && r.actors[i].Finished?
    ensures CheckAll(r, i, io) == r
  {
    hide Apply, Checks;
    FinishedIgnoresChecks(r, i, io.checkUnreadable);
    FinishedStays(r, i, Abandon(io.verified, io.removed));
  }

  lemma ReadsThenEnds(r: System, r2: System, i: nat, l: Lease, p: string, threads: seq<string>, want: Marker,
                      io: BeginIO)
    requires |io.checkUnreadable| == |threads| + 1 && !want.committed && CanAcquire(r, ProjectStop(p), io)
    requires l == Fresh(r, ProjectStop(p), want, threads)
    requires var disk := if ProjectStop(p) in r.disk then r.disk else r.disk[ProjectStop(p) := want];
      r2 == System(disk, r.locks[ProjectStop(p) := i], r.actors[i := Rechecking(l, threads, false)])
    ensures var u := CheckAll(r2, i, io);
      if AllClear(r.disk, p, threads, io.checkUnreadable) then
        && Begun(r, u, i, ProjectStop(p), want)
        && u.actors[i].lease.requested == Names(threads) <= u.actors[i].lease.cleared
      else LeavesNothing(r, u, i, ProjectStop(p), io)
  {
    hide Apply, AbandonEffect, Names, Checks;
    ChecksOutcome(r2, i, l, p, threads, false, io.checkUnreadable);
    var f := FirstBlocked(r2.disk, p, threads, io.checkUnreadable, 0);
    OtherMarkers(r.disk, r2.disk, p, threads, io.checkUnreadable);
    var r3 := Checks(r2, i, io.checkUnreadable);
    if f == |threads| {
      OpenIgnoresAbandon(r3, i, io.verified, io.removed);
      assert threads[..f] == threads;
    } else {
      AbandonAnywhere(r3, i, Cleared(l, threads, f), io.verified, io.removed);
      AbandonTakes(r.disk, Cleared(l, threads, f), want, io.verified, io.removed);
      assert r.locks[ProjectStop(p) := i] - {ProjectStop(p)} == r.locks;
    }
  }

  /** The project's own marker says nothing about its threads. */
  lemma OtherMarkers(disk: map<Path, Marker>, now: map<Path, Marker>, p: string, threads: seq<string>,
                     unreadable: seq<bool>)
    requires |threads| < |unreadable| && OnlyPathDiffers(disk, now, ProjectStop(p))
    ensures AllClear(disk, p, threads, unreadable) <==> FirstBlocked(now, p, threads, unreadable, 0) == |threads|
  {
    var f := FirstBlocked(now, p, threads, unreadable, 0);
    if f < |threads| {
      assert unreadable[f] || ThreadStop(p, threads[f]) in disk;
    }
  }

  lemma AbandonAnywhere(s: System, i: nat, l: Lease, verified: bool, removed: bool)
    requires i in s.actors && s.actors[i] == Abandoning(l)
    ensures Apply(s, i, Abandon(verified, removed)) ==
      System(AbandonEffect(s.disk, l, verified, removed).disk, s.locks - {l.path}, s.actors[i := Finished])
  {
    hide UpdateEffect, CommitEffect;
  }

  /** RecheckProjectThreads under an open project lease: it returns no error exactly when
      every thread can be read and is unmarked; the lease is then open and asked about them
      too. A marker that cannot be read releases the lock and keeps the project's own; a
      marked thread makes the lease take its own uncommitted marker back if it can. */
  lemma RecheckTakes(s: System, turns: seq<Turn>, i: nat, threads: seq<string>, unreadable: seq<bool>, verified: bool,
                     removed: bool)
    requires Initial(s) && IsOpen(Run(s, turns), i) && |unreadable| == |threads| + 1
    requires Run(s, turns).actors[i].lease.path.ProjectStop?
    ensures var r := Run(s, turns);
      var u := RecheckAlone(r, i, threads, unreadable, verified, removed);
      var l := r.actors[i].lease;
      var f := FirstBlocked(r.disk, l.path.project, threads, unreadable, 0);
      if AllClear(r.disk, l.path.project, threads, unreadable) then
        && u.disk == r.disk && Holds(r, u, i, l.path, l.marker)
        && u.actors[i].lease.requested == l.requested + Names(threads)
        && l.cleared + Names(threads) <= u.actors[i].lease.cleared
      else
        && f < |threads| && Released(r, u, i, l.path)
        && u.disk == (if !unreadable[f] && !l.adopted && !l.marker.committed && verified && removed
                      then r.disk - {l.path} else r.disk)
  {
    OpenFacts(s, turns, i);
    var r := Run(s, turns);
    var l, ordered := r.actors[i].lease, r.actors[i].ordered;
    hide Run, Names;
    var l1 := l.(requested := l.requested + Names(threads));
    var r1 := Apply(r, i, StartRecheck(threads));
    assert r1 == Move(r, i, Rechecking(l1, threads, true));
    hide Apply, Checks, Inv;
    ChecksOutcome(r1, i, l1, l.path.project, threads, true, unreadable);
    OtherMarkers(r.disk, r.disk, l.path.project, threads, unreadable);
    var f := FirstBlocked(r.disk, l.path.project, threads, unreadable, 0);
    var r2 := Checks(r1, i, unreadable);
    if f == |threads| {
      OpenIgnoresAbandon(r2, i, verified, removed);
      assert threads[..f] == threads;
    } else if unreadable[f] {
      FinishedStays(r2, i, Abandon(verified, removed));
    } else {
      AbandonAnywhere(r2, i, Cleared(l1, threads, f), verified, removed);
      OwnIsTakenBack(r.disk, Cleared(l1, threads, f), verified, removed);
    }
  }

  lemma OwnIsTakenBack(disk: map<Path, Marker>, l: Lease, verified: bool, removed: bool)
    requires l.path in disk && disk[l.path].token == l.marker.token
    ensures AbandonEffect(disk, l, verified, removed).disk ==
      if !l.adopted && !l.marker.committed && verified && removed then disk - {l.path} else disk
  {
  }

  /** acquireExisting, undisturbed: it returns a lease exactly when the marker exists, its
      lock is free and the marker can be read; the marker is never touched. */
  lemma ExistingOpens(r: System, i: nat, path: Path, failed: bool, unreadable: bool)
    requires i !in r.actors
    ensures var u := Apply(Apply(Apply(r, i, BeginExisting(path)), i, TryLock(failed)), i, ReadExisting(unreadable));
      && u.disk == r.disk
      && (IsOpen(u, i) <==> path in r.disk && !failed && path !in r.locks && !unreadable)
      && (if IsOpen(u, i) then
            u.locks == r.locks[path := i] && u.actors[i].lease == Lease(path, r.disk[path], true, {}, {}, false)
          else u.locks == r.locks)
  {
    hide CheckOther, UseLease, Settle, AbandonEffect, Names;
    var r1 := Apply(r, i, BeginExisting(path));
    if path in r.disk && !failed && path !in r.locks {
      assert Apply(r1, i, TryLock(failed)) ==
        System(r.disk, r.locks[path := i], r.actors[i := BeforeRead(path, None, [])]);
      assert r.locks[path := i] - {path} == r.locks;
    }
  }

  /** threadStopped answers no exactly when both markers could be read and neither exists. */
  lemma UnmarkedThreadIsNotStopped(disk: map<Path, Marker>, p: string, t: string,
                                   projectRead: Option<bool>, threadRead: Option<bool>)
    requires ReadOf(disk, ProjectStop(p), projectRead) && ReadOf(disk, ThreadStop(p, t), threadRead)
    ensures !ThreadStopped(projectRead, threadRead) <==>
      projectRead.Some? && threadRead.Some? && ProjectStop(p) !in disk && ThreadStop(p, t) !in disk
  {
  }
}
