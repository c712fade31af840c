/** Durable terminal-stop markers: a lease protocol between processes that share only a
    directory of marker files and their sidecar locks. Project and thread scopes exclude
    each other by writing one's own marker before reading the other scope's. */
module TerminalStop {
  import opened Common

  datatype Path = ProjectStop(project: string) | ThreadStop(project: string, thread: string)

  /** The part of a marker file that the protocol reads: its token, the cleanup recipe
      and whether the deletion it stands for has been committed. */
  datatype Marker = Marker(token: nat, threads: seq<string>, sessions: seq<string>, committed: bool)

  /** A lease in memory. The last three fields are history: `requested` are the threads
      a project lease was asked to exclude, `cleared` those it found unmarked after its
      own marker was on disk, `lostCommit` remembers that a Commit reported an error
      although its marker had already been renamed into place. */
  datatype Lease = Lease(
    path: Path, marker: Marker, adopted: bool,
    requested: set<string>, cleared: set<string>, lostCommit: bool)

  datatype Actor =
    | BeforeProjectRead(path: Path, intended: Marker)                        // beginThread's first check
    | BeforeLock(path: Path, want: Option<Marker>, todo: seq<string>)      // None: acquireExisting
    | BeforeRead(path: Path, want: Option<Marker>, todo: seq<string>)      // lock held
    | BeforeWrite(path: Path, intended: Marker, todo: seq<string>)             // no marker was found
    | Rechecking(lease: Lease, todo: seq<string>, granted: bool)           // reading the other scope
    | Abandoning(lease: Lease)                                             // the other scope won
    | Open(lease: Lease, ordered: bool)                                    // returned to its caller
    | Finished

  datatype System = System(disk: map<Path, Marker>, locks: map<Path, nat>, actors: map<nat, Actor>)

  datatype Event =
    | BeginThread(project: string, thread: string, token: nat, sessions: seq<string>)
    | BeginProject(project: string, threads: seq<string>, token: nat, sessions: seq<string>)
    | BeginExisting(path: Path)
    | ReadProject(unreadable: bool)
    | TryLock(failed: bool)
    | ReadExisting(unreadable: bool)
    | WriteNew(outcome: SaveOutcome)
    | Check(unreadable: bool)
    | Abandon(verified: bool, removed: bool)
    | StartRecheck(threads: seq<string>)
    | Update(verified: bool, threads: seq<string>, sessions: seq<string>, outcome: SaveOutcome)
    | Commit(verified: bool, outcome: SaveOutcome)
    | Retain
    | Rollback(verified: bool, removed: bool)
    | Crash

  // -------------------------------------------------- what a lease method does alone

  /** The directory and the lease after a lease method; None is a closed lease whose
      lock has been released. */
  datatype Effect = Effect(disk: map<Path, Marker>, lease: Option<Lease>)

  predicate Owns(disk: map<Path, Marker>, l: Lease, verified: bool) {
    verified && l.path in disk && disk[l.path].token == l.marker.token
  }

  function UpdateEffect(disk: map<Path, Marker>, l: Lease, verified: bool,
                        threads: seq<string>, sessions: seq<string>, outcome: SaveOutcome): Effect {
    if !Owns(disk, l, verified) then Effect(disk, None)
    else if l.marker.committed then Effect(disk, Some(l))
    else
      var updated := l.marker.(threads := threads, sessions := sessions);
      Effect(if outcome.Visible() then disk[l.path := updated] else disk,
             if outcome.Published? then Some(l.(marker := updated, lostCommit := false)) else None)
  }

  function CommitEffect(disk: map<Path, Marker>, l: Lease, verified: bool, outcome: SaveOutcome): Effect {
    if !Owns(disk, l, verified) then Effect(disk, None)
    else if l.marker.committed then Effect(disk, Some(l))
    else
      var updated := l.marker.(committed := true);
      Effect(if outcome.Visible() then disk[l.path := updated] else disk,
             Some(if outcome.Published? then l.(marker := updated, lostCommit := false)
                  else l.(lostCommit := l.lostCommit || outcome.Visible())))
  }

  function RollbackEffect(disk: map<Path, Marker>, l: Lease, verified: bool, removed: bool): Effect {
    if !Owns(disk, l, verified) || l.marker.committed || !removed then Effect(disk, None)
    else Effect(disk - {l.path}, None)
  }

  function AbandonEffect(disk: map<Path, Marker>, l: Lease, verified: bool, removed: bool): Effect {
    if l.adopted then Effect(disk, None) else RollbackEffect(disk, l, verified, removed)
  }

  // ------------------------------------------------------------------------- steps

  function Held(a: Actor): Option<Path> {
    match a
    case BeforeRead(p, _, _) => Some(p)
    case BeforeWrite(p, _, _) => Some(p)
    case Rechecking(l, _, _) => Some(l.path)
    case Abandoning(l) => Some(l.path)
    case Open(l, _) => Some(l.path)
    case _ => None
  }

  function LeaseOf(a: Actor): Option<Lease> {
    match a
    case Rechecking(l, _, _) => Some(l)
    case Abandoning(l) => Some(l)
    case Open(l, _) => Some(l)
    case _ => None
  }

  function Names(todo: seq<string>): set<string> {
    set k: nat | k < |todo| :: todo[k]
  }

  function Move(s: System, i: nat, a: Actor): System {
    s.(actors := s.actors[i := a])
  }

  /** closePreserving: release the lock, leave the marker. */
  function Close(s: System, i: nat, path: Path): System {
    Move(s.(locks := s.locks - {path}), i, Finished)
  }

  function Settle(s: System, i: nat, path: Path, e: Effect, ordered: bool): System {
    if e.lease.Some? then Move(s.(disk := e.disk), i, Open(e.lease.value, ordered))
    else Close(s.(disk := e.disk), i, path)
  }

  function Start(s: System, i: nat, e: Event): System {
    match e
    case BeginThread(p, t, token, sessions) =>
      Move(s, i, BeforeProjectRead(ThreadStop(p, t), Marker(token, [], sessions, false)))
    case BeginProject(p, threads, token, sessions) =>
      Move(s, i, BeforeLock(ProjectStop(p), Some(Marker(token, threads, sessions, false)), threads))
    case BeginExisting(path) =>
      if path in s.disk then Move(s, i, BeforeLock(path, None, [])) else s
    case _ => s
  }

  function Acquire(s: System, i: nat, a: Actor, e: Event): System {
    match a
    case BeforeProjectRead(path, want) =>
      if !e.ReadProject? then s
      else if e.unreadable || ProjectStop(path.project) in s.disk then Move(s, i, Finished)
      else Move(s, i, BeforeLock(path, Some(want), []))
    case BeforeLock(path, want, todo) =>
      if !e.TryLock? then s
      else if e.failed || path in s.locks then Move(s, i, Finished)
      else Move(s.(locks := s.locks[path := i]), i, BeforeRead(path, want, todo))
    case BeforeRead(path, want, todo) =>
      if !e.ReadExisting? then s
      else if e.unreadable then Close(s, i, path)
      else if path in s.disk then
        var l := Lease(path, s.disk[path], true, if want.Some? then Names(todo) else {}, {}, false);
        Move(s, i, if want.Some? then Rechecking(l, todo, false) else Open(l, false))
      else if want.None? then Close(s, i, path)
      else Move(s, i, BeforeWrite(path, want.value, todo))
    case BeforeWrite(path, want, todo) =>
      if !e.WriteNew? then s
      else
        var t := if e.outcome.Visible() then s.(disk := s.disk[path := want]) else s;
        if e.outcome.Published?
        then Move(t, i, Rechecking(Lease(path, want, false, Names(todo), {}, false), todo, false))
        else Close(t, i, path)
    case _ => s
  }

  /** One read of the other scope: a thread lease looks for the project marker, a
      project lease for the next of its threads. */
  function CheckOther(s: System, i: nat, l: Lease, todo: seq<string>, granted: bool, unreadable: bool): System {
    match l.path
    case ThreadStop(p, _) =>
      if unreadable || ProjectStop(p) in s.disk then Move(s, i, Abandoning(l))
      else Move(s, i, Open(l, true))
    case ProjectStop(p) =>
      if todo == [] then Move(s, i, Open(l, true))
      else if unreadable then (if granted then Close(s, i, l.path) else Move(s, i, Abandoning(l)))
      else if ThreadStop(p, todo[0]) in s.disk then Move(s, i, Abandoning(l))
      else Move(s, i, Rechecking(l.(cleared := l.cleared + {todo[0]}), todo[1..], granted))
  }

  function UseLease(s: System, i: nat, l: Lease, ordered: bool, e: Event): System {
    match e
    case StartRecheck(threads) =>
      if l.path.ProjectStop? then Move(s, i, Rechecking(l.(requested := l.requested + Names(threads)), threads, true))
      else s
    case Update(verified, threads, sessions, outcome) =>
      Settle(s, i, l.path, UpdateEffect(s.disk, l, verified, threads, sessions, outcome), ordered)
    case Commit(verified, outcome) => Settle(s, i, l.path, CommitEffect(s.disk, l, verified, outcome), ordered)
    case Retain => Close(s, i, l.path)
    case Rollback(verified, removed) => Settle(s, i, l.path, RollbackEffect(s.disk, l, verified, removed), ordered)
    case _ => s
  }

  function Apply(s: System, i: nat, e: Event): System {
    if i !in s.actors then Start(s, i, e)
    else if e.Crash? then
      (match Held(s.actors[i]) case Some(p) => Close(s, i, p) case None => Move(s, i, Finished))
    else
      match s.actors[i]
      case Rechecking(l, todo, granted) =>
        if e.Check? then CheckOther(s, i, l, todo, granted, e.unreadable) else s
      case Abandoning(l) =>
        if e.Abandon? then Settle(s, i, l.path, AbandonEffect(s.disk, l, e.verified, e.removed), false) else s
      case Open(l, ordered) => UseLease(s, i, l, ordered, e)
      case a => Acquire(s, i, a, e)
  }

  datatype Turn = Turn(actor: nat, event: Event)

  function Run(s: System, turns: seq<Turn>): System {
    if turns == [] then s
    else
      var last := turns[|turns| - 1];
      Apply(Run(s, turns[..|turns| - 1]), last.actor, last.event)
  }

  /** Any markers may be left over from earlier processes; nobody holds a lock. */
  predicate Initial(s: System) {
    s.locks == map[] && s.actors == map[]
  }

  // -------------------------------------------------------------------- invariants

  function OnDisk(l: Lease): Marker {
    if l.lostCommit then l.marker.(committed := true) else l.marker
  }

  predicate LocksMatch(s: System) {
    && (forall p: Path :: p in s.locks ==> s.locks[p] in s.actors && Held(s.actors[s.locks[p]]) == Some(p))
    && (forall i: nat :: i in s.actors && Held(s.actors[i]).Some? ==>
          Held(s.actors[i]).value in s.locks && s.locks[Held(s.actors[i]).value] == i)
  }

  predicate MarkersMatch(s: System) {
    && (forall i: nat :: i in s.actors && LeaseOf(s.actors[i]).Some? ==>
          var l := LeaseOf(s.actors[i]).value;
          l.path in s.disk && s.disk[l.path] == OnDisk(l) && (l.lostCommit ==> !l.marker.committed))
    && (forall i: nat :: i in s.actors && s.actors[i].BeforeWrite? ==> s.actors[i].path !in s.disk)
    && (forall i: nat :: i in s.actors && s.actors[i].BeforeProjectRead? ==> s.actors[i].path.ThreadStop?)
  }

  /** A thread lease that passed its recheck, opened by beginThread. */
  predicate ThreadOpen(s: System, i: nat, p: string, t: string) {
    i in s.actors && s.actors[i].Open? && s.actors[i].ordered && s.actors[i].lease.path == ThreadStop(p, t)
  }

  /** A project lease that has found thread `t` unmarked since its own marker exists. */
  predicate ProjectCleared(s: System, j: nat, p: string, t: string) {
    && j in s.actors && LeaseOf(s.actors[j]).Some?
    && LeaseOf(s.actors[j]).value.path == ProjectStop(p) && t in LeaseOf(s.actors[j]).value.cleared
  }

  ghost predicate Excluded(s: System) {
    forall i: nat, j: nat, p: string, t: string :: !(ThreadOpen(s, i, p, t) && ProjectCleared(s, j, p, t))
  }

  /** Every thread a lease was asked about is cleared or still waits to be read. */
  predicate AskedAreRead(s: System) {
    forall j: nat :: j in s.actors ==> Asked(s.actors[j])
  }

  predicate Asked(a: Actor) {
    match a
    case Rechecking(l, todo, _) => l.path.ProjectStop? ==> l.requested <= l.cleared + Names(todo)
    case Open(l, _) => l.path.ProjectStop? ==> l.requested <= l.cleared
    case _ => true
  }

  ghost predicate Inv(s: System) {
    LocksMatch(s) && MarkersMatch(s) && Excluded(s) && AskedAreRead(s)
  }

  // ------------------------------------------------------------- step preservation

  /** Only the marker at one path whose lock `i` holds, that lock and `i` itself moved. */
  ghost predicate OnlyOwnPath(s: System, t: System, i: nat, path: Path) {
    && i in s.actors && t.actors.Keys == s.actors.Keys
    && (forall k: nat :: k in s.actors && k != i ==> t.actors[k] == s.actors[k])
    && (forall q: Path :: q != path ==> (q in s.disk <==> q in t.disk) && (q in s.disk ==> t.disk[q] == s.disk[q]))
    && (forall q: Path :: q != path ==> (q in s.locks <==> q in t.locks) && (q in s.locks ==> t.locks[q] == s.locks[q]))
  }

  /** A step of the lock holder on its own path keeps the matching invariants when its
      own phase after the step agrees with the directory. */
  lemma OwnPathKeepsMatch(s: System, t: System, i: nat, path: Path)
    requires LocksMatch(s) && MarkersMatch(s)
    requires OnlyOwnPath(s, t, i, path) && Held(s.actors[i]) == Some(path)
    requires Held(t.actors[i]) == (if path in t.locks then Some(path) else None)
    requires path in t.locks ==> t.locks[path] == i
    requires LeaseOf(t.actors[i]).Some? ==>
      var l := LeaseOf(t.actors[i]).value;
      l.path == path && path in t.disk && t.disk[path] == OnDisk(l) && (l.lostCommit ==> !l.marker.committed)
    requires t.actors[i].BeforeWrite? ==> t.actors[i].path == path && path !in t.disk
    requires !t.actors[i].BeforeProjectRead?
    ensures LocksMatch(t) && MarkersMatch(t)
  {
    hide LocksMatch, MarkersMatch, Held, OnDisk;
    forall k: nat | k in s.actors && k != i ensures Held(s.actors[k]) != Some(path) {
      OnlyHolder(s, i, k, path);
    }
    OwnPathKeepsLocks(s, t, i, path);
    OwnPathKeepsMarkers(s, t, i, path);
  }

  lemma OnlyHolder(s: System, i: nat, k: nat, path: Path)
    requires LocksMatch(s) && i in s.actors && k in s.actors && i != k && Held(s.actors[i]) == Some(path)
    ensures Held(s.actors[k]) != Some(path)
  {
    hide Held;
  }

  lemma OwnPathKeepsLocks(s: System, t: System, i: nat, path: Path)
    requires LocksMatch(s) && OnlyOwnPath(s, t, i, path)
    requires forall k: nat :: k in s.actors && k != i ==> Held(s.actors[k]) != Some(path)
    requires Held(s.actors[i]) == Some(path)
    requires Held(t.actors[i]) == (if path in t.locks then Some(path) else None)
    requires path in t.locks ==> t.locks[path] == i
    ensures LocksMatch(t)
  {
    hide Held;
  }

  lemma LeasesHold(a: Actor)
    ensures LeaseOf(a).Some? ==> Held(a) == Some(LeaseOf(a).value.path)
    ensures a.BeforeWrite? ==> Held(a) == Some(a.path)
  {
  }

  lemma OwnPathKeepsMarkers(s: System, t: System, i: nat, path: Path)
    requires MarkersMatch(s) && OnlyOwnPath(s, t, i, path)
    requires forall k: nat :: k in s.actors && k != i ==> Held(s.actors[k]) != Some(path)
    requires LeaseOf(t.actors[i]).Some? ==>
      var l := LeaseOf(t.actors[i]).value;
      l.path == path && path in t.disk && t.disk[path] == OnDisk(l) && (l.lostCommit ==> !l.marker.committed)
    requires t.actors[i].BeforeWrite? ==> t.actors[i].path == path && path !in t.disk
    requires !t.actors[i].BeforeProjectRead?
    ensures MarkersMatch(t)
  {
    hide Held, LeaseOf, OnDisk;
    forall k: nat | k in s.actors {
      LeasesHold(s.actors[k]);
    }
  }

  /** What the invariants say about one actor. */
  lemma OwnFacts(s: System, i: nat)
    requires LocksMatch(s) && MarkersMatch(s) && i in s.actors
    ensures Held(s.actors[i]).Some? ==>
      Held(s.actors[i]).value in s.locks && s.locks[Held(s.actors[i]).value] == i
    ensures LeaseOf(s.actors[i]).Some? ==>
      var l := LeaseOf(s.actors[i]).value;
      l.path in s.disk && s.disk[l.path] == OnDisk(l) && (l.lostCommit ==> !l.marker.committed)
    ensures s.actors[i].BeforeWrite? ==> s.actors[i].path !in s.disk
    ensures s.actors[i].BeforeProjectRead? ==> s.actors[i].path.ThreadStop?
  {
  }

  /** A step before the lock is taken moves nothing but the actor itself. */
  lemma UnlockedKeepsMatch(s: System, i: nat, a: Actor)
    requires LocksMatch(s) && MarkersMatch(s) && (i in s.actors ==> Held(s.actors[i]).None?)
    requires Held(a).None? && (a.BeforeProjectRead? ==> a.path.ThreadStop?)
    ensures LocksMatch(Move(s, i, a)) && MarkersMatch(Move(s, i, a))
  {
  }

  lemma LockKeepsMatch(s: System, i: nat, path: Path, want: Option<Marker>, todo: seq<string>)
    requires LocksMatch(s) && MarkersMatch(s) && i in s.actors && Held(s.actors[i]).None? && path !in s.locks
    ensures var t := Move(s.(locks := s.locks[path := i]), i, BeforeRead(path, want, todo));
      LocksMatch(t) && MarkersMatch(t)
  {
  }

  ghost predicate OnlyPathDiffers(disk: map<Path, Marker>, disk': map<Path, Marker>, path: Path) {
    forall q: Path :: q != path ==> (q in disk <==> q in disk') && (q in disk ==> disk'[q] == disk[q])
  }

  lemma HolderHasLock(s: System, i: nat, path: Path)
    requires LocksMatch(s) && i in s.actors && Held(s.actors[i]) == Some(path)
    ensures path in s.locks && s.locks[path] == i
  {
  }

  /** The lock holder rewrites its own marker and goes on holding the lock. */
  lemma KeepLockKeepsMatch(s: System, i: nat, path: Path, disk: map<Path, Marker>, a: Actor)
    requires LocksMatch(s) && MarkersMatch(s) && i in s.actors && Held(s.actors[i]) == Some(path)
    requires OnlyPathDiffers(s.disk, disk, path)
    requires Held(a) == Some(path)
    requires LeaseOf(a).Some? ==>
      var l := LeaseOf(a).value;
      path in disk && disk[path] == OnDisk(l) && (l.lostCommit ==> !l.marker.committed)
    requires a.BeforeWrite? ==> path !in disk
    ensures var t := Move(s.(disk := disk), i, a); LocksMatch(t) && MarkersMatch(t)
  {
    hide LocksMatch, MarkersMatch, OnDisk;
    LeasesHold(a);
    HolderHasLock(s, i, path);
    OwnPathKeepsMatch(s, Move(s.(disk := disk), i, a), i, path);
  }

  /** The lock holder rewrites its own marker and lets go. */
  lemma DropLockKeepsMatch(s: System, i: nat, path: Path, disk: map<Path, Marker>)
    requires LocksMatch(s) && MarkersMatch(s) && i in s.actors && Held(s.actors[i]) == Some(path)
    requires OnlyPathDiffers(s.disk, disk, path)
    ensures var t := Close(s.(disk := disk), i, path); LocksMatch(t) && MarkersMatch(t)
  {
    hide LocksMatch, MarkersMatch, OnDisk;
    OwnPathKeepsMatch(s, Close(s.(disk := disk), i, path), i, path);
  }

  lemma ReadKeepsMatch(s: System, i: nat, path: Path, want: Option<Marker>, todo: seq<string>, e: Event)
    requires LocksMatch(s) && MarkersMatch(s) && i in s.actors && s.actors[i] == BeforeRead(path, want, todo)
    ensures var t := Acquire(s, i, s.actors[i], e); LocksMatch(t) && MarkersMatch(t)
  {
    hide LocksMatch, MarkersMatch;
    assert s.(disk := s.disk) == s;
    if e.ReadExisting? {
      if e.unreadable || (path !in s.disk && want.None?) {
        DropLockKeepsMatch(s, i, path, s.disk);
      } else if path in s.disk {
        var l := Lease(path, s.disk[path], true, if want.Some? then Names(todo) else {}, {}, false);
        KeepLockKeepsMatch(s, i, path, s.disk, if want.Some? then Rechecking(l, todo, false) else Open(l, false));
      } else {
        KeepLockKeepsMatch(s, i, path, s.disk, BeforeWrite(path, want.value, todo));
      }
    }
  }

  lemma WriteKeepsMatch(s: System, i: nat, path: Path, want: Marker, todo: seq<string>, e: Event)
    requires LocksMatch(s) && MarkersMatch(s) && i in s.actors && s.actors[i] == BeforeWrite(path, want, todo)
    ensures var t := Acquire(s, i, s.actors[i], e); LocksMatch(t) && MarkersMatch(t)
  {
    hide LocksMatch, MarkersMatch;
    assert s.(disk := s.disk) == s;
    if e.WriteNew? {
      var disk := if e.outcome.Visible() then s.disk[path := want] else s.disk;
      if e.outcome.Published? {
        KeepLockKeepsMatch(s, i, path, disk, Rechecking(Lease(path, want, false, Names(todo), {}, false), todo, false));
      } else {
        DropLockKeepsMatch(s, i, path, disk);
      }
    }
  }

  lemma AcquireKeepsMatch(s: System, i: nat, e: Event)
    requires LocksMatch(s) && MarkersMatch(s) && i in s.actors && LeaseOf(s.actors[i]).None?
    ensures var t := Acquire(s, i, s.actors[i], e); LocksMatch(t) && MarkersMatch(t)
  {
    hide LocksMatch, MarkersMatch;
    match s.actors[i]
    case BeforeProjectRead(path, want) =>
      UnlockedKeepsMatch(s, i, Finished);
      UnlockedKeepsMatch(s, i, BeforeLock(path, Some(want), []));
    case BeforeLock(path, want, todo) =>
      UnlockedKeepsMatch(s, i, Finished);
      if path !in s.locks {
        LockKeepsMatch(s, i, path, want, todo);
      }
    case BeforeRead(path, want, todo) => ReadKeepsMatch(s, i, path, want, todo, e);
    case BeforeWrite(path, want, todo) => WriteKeepsMatch(s, i, path, want, todo, e);
    case Finished =>
  }

  /** An effect touches only the lease's own marker and leaves memory in step with it. */
  ghost predicate Fits(disk: map<Path, Marker>, l: Lease, e: Effect) {
    && OnlyPathDiffers(disk, e.disk, l.path)
    && (e.lease.Some? ==>
          var n := e.lease.value;
          n.path == l.path && l.path in e.disk && e.disk[l.path] == OnDisk(n) && (n.lostCommit ==> !n.marker.committed))
  }

  lemma EffectsFit(disk: map<Path, Marker>, l: Lease, verified: bool, removed: bool,
                   threads: seq<string>, sessions: seq<string>, outcome: SaveOutcome)
    requires l.path in disk && disk[l.path] == OnDisk(l) && (l.lostCommit ==> !l.marker.committed)
    ensures Fits(disk, l, UpdateEffect(disk, l, verified, threads, sessions, outcome))
    ensures Fits(disk, l, CommitEffect(disk, l, verified, outcome))
    ensures Fits(disk, l, RollbackEffect(disk, l, verified, removed))
    ensures Fits(disk, l, AbandonEffect(disk, l, verified, removed))
  {
  }

  lemma EffectKeepsMatch(s: System, i: nat, l: Lease, e: Effect, ordered: bool)
    requires LocksMatch(s) && MarkersMatch(s) && i in s.actors && LeaseOf(s.actors[i]) == Some(l)
    requires Fits(s.disk, l, e)
    ensures var t := Settle(s, i, l.path, e, ordered); LocksMatch(t) && MarkersMatch(t)
  {
    hide LocksMatch, MarkersMatch;
    if e.lease.Some? {
      KeepLockKeepsMatch(s, i, l.path, e.disk, Open(e.lease.value, ordered));
    } else {
      DropLockKeepsMatch(s, i, l.path, e.disk);
    }
  }

  lemma CheckKeepsMatch(s: System, i: nat, l: Lease, todo: seq<string>, granted: bool, unreadable: bool)
    requires LocksMatch(s) && MarkersMatch(s) && i in s.actors && s.actors[i] == Rechecking(l, todo, granted)
    ensures var t := CheckOther(s, i, l, todo, granted, unreadable); LocksMatch(t) && MarkersMatch(t)
  {
    OwnFacts(s, i);
    hide LocksMatch, MarkersMatch;
    assert s.(disk := s.disk) == s;
    var t := CheckOther(s, i, l, todo, granted, unreadable);
    if l.path.ProjectStop? && todo != [] && unreadable && granted {
      DropLockKeepsMatch(s, i, l.path, s.disk);
    } else {
      KeepLockKeepsMatch(s, i, l.path, s.disk, t.actors[i]);
      assert t == Move(s, i, t.actors[i]);
    }
  }

  lemma RecheckKeepsMatch(s: System, i: nat, l: Lease, ordered: bool, threads: seq<string>)
    requires LocksMatch(s) && MarkersMatch(s) && i in s.actors && s.actors[i] == Open(l, ordered)
    ensures var t := Move(s, i, Rechecking(l.(requested := l.requested + Names(threads)), threads, true));
      LocksMatch(t) && MarkersMatch(t)
  {
    OwnFacts(s, i);
    hide LocksMatch, MarkersMatch, Names;
    assert s.(disk := s.disk) == s;
    KeepLockKeepsMatch(s, i, l.path, s.disk, Rechecking(l.(requested := l.requested + Names(threads)), threads, true));
  }

  lemma EffectsKeepMatch(s: System, i: nat, l: Lease, ordered: bool, verified: bool, removed: bool,
                         threads: seq<string>, sessions: seq<string>, outcome: SaveOutcome)
    requires LocksMatch(s) && MarkersMatch(s) && i in s.actors && s.actors[i] == Open(l, ordered)
    ensures var t := Settle(s, i, l.path, UpdateEffect(s.disk, l, verified, threads, sessions, outcome), ordered);
      LocksMatch(t) && MarkersMatch(t)
    ensures var t := Settle(s, i, l.path, CommitEffect(s.disk, l, verified, outcome), ordered);
      LocksMatch(t) && MarkersMatch(t)
    ensures var t := Settle(s, i, l.path, RollbackEffect(s.disk, l, verified, removed), ordered);
      LocksMatch(t) && MarkersMatch(t)
  {
    hide LocksMatch, MarkersMatch, UpdateEffect, CommitEffect, RollbackEffect, Fits, Settle, OnDisk;
    OwnFacts(s, i);
    EffectsFit(s.disk, l, verified, removed, threads, sessions, outcome);
    EffectKeepsMatch(s, i, l, UpdateEffect(s.disk, l, verified, threads, sessions, outcome), ordered);
    EffectKeepsMatch(s, i, l, CommitEffect(s.disk, l, verified, outcome), ordered);
    EffectKeepsMatch(s, i, l, RollbackEffect(s.disk, l, verified, removed), ordered);
  }

  lemma RetainKeepsMatch(s: System, i: nat, l: Lease, ordered: bool)
    requires LocksMatch(s) && MarkersMatch(s) && i in s.actors && s.actors[i] == Open(l, ordered)
    ensures var t := Close(s, i, l.path); LocksMatch(t) && MarkersMatch(t)
  {
    hide LocksMatch, MarkersMatch;
    assert s.(disk := s.disk) == s;
    DropLockKeepsMatch(s, i, l.path, s.disk);
  }

  lemma UseKeepsMatch(s: System, i: nat, l: Lease, ordered: bool, e: Event)
    requires LocksMatch(s) && MarkersMatch(s) && i in s.actors && s.actors[i] == Open(l, ordered)
    ensures var t := UseLease(s, i, l, ordered, e); LocksMatch(t) && MarkersMatch(t)
  {
    hide LocksMatch, MarkersMatch, UpdateEffect, CommitEffect, RollbackEffect, Settle, Close, Move, Names;
    match e
    case StartRecheck(threads) => RecheckKeepsMatch(s, i, l, ordered, threads);
    case Update(verified, threads, sessions, outcome) =>
      EffectsKeepMatch(s, i, l, ordered, verified, false, threads, sessions, outcome);
    case Commit(verified, outcome) => EffectsKeepMatch(s, i, l, ordered, verified, false, [], [], outcome);
    case Retain => RetainKeepsMatch(s, i, l, ordered);
    case Rollback(verified, removed) => EffectsKeepMatch(s, i, l, ordered, verified, removed, [], [], Published);
    case _ =>
  }

  lemma OwnFactsHidden(s: System, i: nat, l: Lease)
    requires LocksMatch(s) && MarkersMatch(s) && i in s.actors && LeaseOf(s.actors[i]) == Some(l)
    ensures l.path in s.disk && s.disk[l.path] == OnDisk(l) && (l.lostCommit ==> !l.marker.committed)
  {
  }

  lemma StepKeepsMatch(s: System, i: nat, e: Event)
    requires LocksMatch(s) && MarkersMatch(s)
    ensures LocksMatch(Apply(s, i, e)) && MarkersMatch(Apply(s, i, e))
  {
    if i !in s.actors {
      hide LocksMatch, MarkersMatch;
      match e
      case BeginThread(p, t, token, sessions) =>
        UnlockedKeepsMatch(s, i, BeforeProjectRead(ThreadStop(p, t), Marker(token, [], sessions, false)));
      case BeginProject(p, threads, token, sessions) =>
        UnlockedKeepsMatch(s, i, BeforeLock(ProjectStop(p), Some(Marker(token, threads, sessions, false)), threads));
      case BeginExisting(path) => UnlockedKeepsMatch(s, i, BeforeLock(path, None, []));
      case _ =>
    } else if e.Crash? {
      hide LocksMatch, MarkersMatch;
      if Held(s.actors[i]).Some? {
        assert s.(disk := s.disk) == s;
        DropLockKeepsMatch(s, i, Held(s.actors[i]).value, s.disk);
      } else {
        UnlockedKeepsMatch(s, i, Finished);
      }
    } else {
      hide LocksMatch, MarkersMatch;
      match s.actors[i]
      case Rechecking(l, todo, granted) =>
        if e.Check? {
          CheckKeepsMatch(s, i, l, todo, granted, e.unreadable);
        }
      case Abandoning(l) =>
        if e.Abandon? {
          OwnFactsHidden(s, i, l);
          EffectsFit(s.disk, l, e.verified, e.removed, [], [], Published);
          EffectKeepsMatch(s, i, l, AbandonEffect(s.disk, l, e.verified, e.removed), false);
        }
      case Open(l, ordered) => UseKeepsMatch(s, i, l, ordered, e);
      case _ => AcquireKeepsMatch(s, i, e);
    }
  }

  /** A step moves at most the acting process. */
  ghost predicate MovesOne(s: System, t: System, i: nat) {
    t.actors == s.actors || (i in t.actors && t.actors == s.actors[i := t.actors[i]])
  }

  lemma SettleMovesOne(s: System, i: nat, path: Path, e: Effect, ordered: bool)
    ensures MovesOne(s, Settle(s, i, path, e, ordered), i)
  {
  }

  lemma AcquireMovesOne(s: System, i: nat, a: Actor, e: Event)
    ensures MovesOne(s, Acquire(s, i, a, e), i)
  {
    hide Names;
  }

  lemma UseMovesOne(s: System, i: nat, l: Lease, ordered: bool, e: Event)
    ensures MovesOne(s, UseLease(s, i, l, ordered, e), i)
  {
    hide Settle, UpdateEffect, CommitEffect, RollbackEffect, Names;
    forall effect {
      SettleMovesOne(s, i, l.path, effect, ordered);
    }
  }

  lemma CheckMovesOne(s: System, i: nat, l: Lease, todo: seq<string>, granted: bool, unreadable: bool)
    ensures MovesOne(s, CheckOther(s, i, l, todo, granted, unreadable), i)
  {
  }

  lemma StepMovesOne(s: System, i: nat, e: Event)
    ensures MovesOne(s, Apply(s, i, e), i)
  {
    hide Settle, CheckOther, UseLease, Acquire, AbandonEffect;
    if i in s.actors && !e.Crash? {
      match s.actors[i]
      case Rechecking(l, todo, granted) =>
        if e.Check? {
          CheckMovesOne(s, i, l, todo, granted, e.unreadable);
        }
      case Abandoning(l) =>
        if e.Abandon? {
          SettleMovesOne(s, i, l.path, AbandonEffect(s.disk, l, e.verified, e.removed), false);
        }
      case Open(l, ordered) => UseMovesOne(s, i, l, ordered, e);
      case a => AcquireMovesOne(s, i, a, e);
    }
  }

  // Which of its own properties an actor may gain in one step.

  lemma StartIsModest(s: System, i: nat, e: Event)
    requires i !in s.actors
    ensures var t := Start(s, i, e); i in t.actors ==> LeaseOf(t.actors[i]).None?
  {
  }

  lemma AcquireIsModest(s: System, i: nat, a: Actor, e: Event)
    requires i in s.actors && s.actors[i] == a && LeaseOf(a).None?
    ensures var t := Acquire(s, i, a, e);
      LeaseOf(t.actors[i]).Some? ==>
        var l := LeaseOf(t.actors[i]).value;
        && l.cleared == {} && !l.lostCommit
        && (t.actors[i].Open? ==> !t.actors[i].ordered && l.requested == {})
        && (t.actors[i].Rechecking? ==> l.requested == Names(t.actors[i].todo))
  {
    hide Names;
  }

  lemma EffectsAreModest(disk: map<Path, Marker>, l: Lease, verified: bool, removed: bool,
                         threads: seq<string>, sessions: seq<string>, outcome: SaveOutcome)
    ensures var n := UpdateEffect(disk, l, verified, threads, sessions, outcome).lease;
      n.Some? ==> SameClaims(l, n.value) && (n.value.lostCommit ==> l.lostCommit)
    ensures var n := CommitEffect(disk, l, verified, outcome).lease;
      n.Some? ==> SameClaims(l, n.value) && (n.value.lostCommit ==> l.lostCommit || outcome.PublishedWithError?)
    ensures RollbackEffect(disk, l, verified, removed).lease.None?
    ensures AbandonEffect(disk, l, verified, removed).lease.None?
  {
  }

  predicate SameClaims(l: Lease, n: Lease) {
    n.path == l.path && n.cleared == l.cleared && n.requested == l.requested
  }

  lemma UseIsModest(s: System, i: nat, l: Lease, ordered: bool, e: Event)
    requires i in s.actors && s.actors[i] == Open(l, ordered)
    ensures var t := UseLease(s, i, l, ordered, e);
      LeaseOf(t.actors[i]).Some? ==>
        var n := LeaseOf(t.actors[i]).value;
        && n.path == l.path && n.cleared == l.cleared
        && (n.lostCommit ==> l.lostCommit || (e.Commit? && e.outcome.PublishedWithError?))
        && (t.actors[i].Open? ==> t.actors[i].ordered == ordered && n.requested == l.requested)
        && (t.actors[i].Rechecking? ==> n.requested == l.requested + Names(t.actors[i].todo))
        && !t.actors[i].Abandoning?
  {
    match e {
      case Update(verified, threads, sessions, outcome) =>
        EffectsAreModest(s.disk, l, verified, false, threads, sessions, outcome);
      case Commit(verified, outcome) => EffectsAreModest(s.disk, l, verified, false, [], [], outcome);
      case Rollback(verified, removed) => EffectsAreModest(s.disk, l, verified, removed, [], [], Published);
      case _ =>
    }
    hide UpdateEffect, CommitEffect, RollbackEffect, AbandonEffect, Names;
  }

  lemma CheckIsModest(s: System, i: nat, l: Lease, todo: seq<string>, granted: bool, unreadable: bool)
    requires i in s.actors && s.actors[i] == Rechecking(l, todo, granted)
    ensures var a := CheckOther(s, i, l, todo, granted, unreadable).actors[i];
      && (LeaseOf(a).Some? ==> LeaseOf(a).value.path == l.path && LeaseOf(a).value.lostCommit == l.lostCommit)
      && (a.Open? && l.path.ThreadStop? ==> ProjectStop(l.path.project) !in s.disk)
      && (LeaseOf(a).Some? && LeaseOf(a).value.cleared != l.cleared ==>
            && l.path.ProjectStop? && todo != [] && ThreadStop(l.path.project, todo[0]) !in s.disk
            && LeaseOf(a).value.cleared == l.cleared + {todo[0]})
      && (Asked(Rechecking(l, todo, granted)) ==> Asked(a))
  {
    if todo != [] {
      NamesSplit(todo);
    } else {
      assert Names([]) == {};
    }
    hide Names;
  }

  lemma NamesSplit(todo: seq<string>)
    requires todo != []
    ensures Names(todo) == {todo[0]} + Names(todo[1..])
  {
    forall x | x in Names(todo) ensures x in {todo[0]} + Names(todo[1..]) {
      var k: nat :| k < |todo| && todo[k] == x;
      assert k > 0 ==> todo[1..][k - 1] == x;
    }
  }

  /** A thread lease passes its recheck only over an unmarked project. */
  lemma NewThreadOpen(s: System, i: nat, e: Event, k: nat, p: string, th: string)
    requires ThreadOpen(Apply(s, i, e), k, p, th) && !ThreadOpen(s, k, p, th)
    ensures k == i && ProjectStop(p) !in s.disk
    ensures MovesOne(s, Apply(s, i, e), i)
  {
    StepMovesOne(s, i, e);
    hide Settle, CheckOther, UseLease, Acquire, AbandonEffect, Start;
    if i !in s.actors {
      StartIsModest(s, i, e);
    } else if !e.Crash? {
      match s.actors[i]
      case Rechecking(l, todo, granted) =>
        if e.Check? {
          CheckIsModest(s, i, l, todo, granted, e.unreadable);
        }
      case Abandoning(l) => AbandonCloses(s, i, l, e);
      case Open(l, ordered) => UseIsModest(s, i, l, ordered, e);
      case a => AcquireIsModest(s, i, a, e);
    }
  }

  lemma AbandonCloses(s: System, i: nat, l: Lease, e: Event)
    requires i in s.actors && s.actors[i] == Abandoning(l)
    ensures e.Abandon? ==>
      Settle(s, i, l.path, AbandonEffect(s.disk, l, e.verified, e.removed), false).actors[i] == Finished
  {
  }

  /** A project lease clears a thread only while that thread is unmarked. */
  lemma NewProjectCleared(s: System, i: nat, e: Event, j: nat, p: string, th: string)
    requires ProjectCleared(Apply(s, i, e), j, p, th) && !ProjectCleared(s, j, p, th)
    ensures j == i && ThreadStop(p, th) !in s.disk
    ensures MovesOne(s, Apply(s, i, e), i)
  {
    StepMovesOne(s, i, e);
    hide Settle, CheckOther, UseLease, Acquire, AbandonEffect, Start;
    if i !in s.actors {
      StartIsModest(s, i, e);
    } else if !e.Crash? {
      match s.actors[i]
      case Rechecking(l, todo, granted) =>
        if e.Check? {
          CheckIsModest(s, i, l, todo, granted, e.unreadable);
        }
      case Abandoning(l) => AbandonCloses(s, i, l, e);
      case Open(l, ordered) => UseIsModest(s, i, l, ordered, e);
      case a => AcquireIsModest(s, i, a, e);
    }
  }

  /** A lease that already stood has its marker on disk, so whichever of the two scopes
      passes last would have seen the other's marker. */
  lemma ThreadPassesAlone(s: System, i: nat, e: Event, k: nat, j: nat, p: string, th: string)
    requires Inv(s) && ThreadOpen(Apply(s, i, e), k, p, th) && !ThreadOpen(s, k, p, th)
    ensures !ProjectCleared(Apply(s, i, e), j, p, th)
  {
    NewThreadOpen(s, i, e, k, p, th);
    if j in s.actors {
      OwnFacts(s, j);
    }
    hide Apply;
  }

  lemma ProjectPassesAlone(s: System, i: nat, e: Event, k: nat, j: nat, p: string, th: string)
    requires Inv(s) && ProjectCleared(Apply(s, i, e), j, p, th) && !ProjectCleared(s, j, p, th)
    ensures !ThreadOpen(Apply(s, i, e), k, p, th)
  {
    NewProjectCleared(s, i, e, j, p, th);
    if k in s.actors {
      OwnFacts(s, k);
    }
    hide Apply;
  }

  lemma StepKeepsExclusion(s: System, i: nat, e: Event)
    requires Inv(s)
    ensures Excluded(Apply(s, i, e))
  {
    var t := Apply(s, i, e);
    hide Apply;
    forall k: nat, j: nat, p: string, th: string
      ensures !(ThreadOpen(t, k, p, th) && ProjectCleared(t, j, p, th))
    {
      if ThreadOpen(t, k, p, th) && !ThreadOpen(s, k, p, th) {
        ThreadPassesAlone(s, i, e, k, j, p, th);
      } else if ProjectCleared(t, j, p, th) && !ProjectCleared(s, j, p, th) {
        ProjectPassesAlone(s, i, e, k, j, p, th);
      }
    }
  }

  lemma ActorStaysAsked(s: System, i: nat, e: Event)
    requires i in s.actors ==> Asked(s.actors[i])
    ensures i in Apply(s, i, e).actors ==> Asked(Apply(s, i, e).actors[i])
  {
    hide Settle, CheckOther, UseLease, Acquire, AbandonEffect, Start, Names;
    if i !in s.actors {
      StartIsModest(s, i, e);
    } else if !e.Crash? {
      match s.actors[i]
      case Rechecking(l, todo, granted) =>
        if e.Check? {
          CheckIsModest(s, i, l, todo, granted, e.unreadable);
        }
      case Abandoning(l) => AbandonCloses(s, i, l, e);
      case Open(l, ordered) => UseIsModest(s, i, l, ordered, e);
      case a => AcquireIsModest(s, i, a, e);
    }
  }

  lemma StepKeepsAsked(s: System, i: nat, e: Event)
    requires AskedAreRead(s)
    ensures AskedAreRead(Apply(s, i, e))
  {
    hide Apply, Asked;
    StepMovesOne(s, i, e);
    ActorStaysAsked(s, i, e);
  }

  lemma {:induction false} RunKeepsInv(s: System, turns: seq<Turn>)
    requires Initial(s)
    ensures Inv(Run(s, turns))
  {
    if turns != [] {
      var before, last := Run(s, turns[..|turns| - 1]), turns[|turns| - 1];
      RunKeepsInv(s, turns[..|turns| - 1]);
      StepKeepsMatch(before, last.actor, last.event);
      StepKeepsExclusion(before, last.actor, last.event);
      StepKeepsAsked(before, last.actor, last.event);
    }
  }

  // --------------------------------------------------------------- main statements

  /** Project and thread stops exclude each other: no run, whatever crashes, errors and
      adopted markers it contains, reaches a state with an open thread lease of
      beginThread and an open project lease that was asked about that thread. */
  lemma StopsExcludeEachOther(s: System, turns: seq<Turn>, i: nat, j: nat, p: string, t: string)
    requires Initial(s)
    requires var r := Run(s, turns);
      && j in r.actors && r.actors[j].Open? && r.actors[j].lease.path == ProjectStop(p)
      && t in r.actors[j].lease.requested
    ensures !ThreadOpen(Run(s, turns), i, p, t)
  {
    RunKeepsInv(s, turns);
    var r := Run(s, turns);
    assert Asked(r.actors[j]);
    assert ProjectCleared(r, j, p, t);
  }

  /** Marker existence is authoritative: while a lease is held its marker is on disk,
      equal to the copy in memory unless a Commit reported an error after its rename,
      and nobody else holds the lock. */
  lemma OpenLeaseIsOnDisk(s: System, turns: seq<Turn>, i: nat, k: nat)
    requires Initial(s)
    requires var r := Run(s, turns);
      i in r.actors && LeaseOf(r.actors[i]).Some?
    ensures var r := Run(s, turns);
      var l := LeaseOf(r.actors[i]).value;
      && l.path in r.disk
      && r.disk[l.path] == (if l.lostCommit then l.marker.(committed := true) else l.marker)
      && (k in r.actors && k != i ==> Held(r.actors[k]) != Some(l.path))
  {
    RunKeepsInv(s, turns);
    OwnFacts(Run(s, turns), i);
    if k in Run(s, turns).actors {
      OwnFacts(Run(s, turns), k);
    }
  }

  /** The only steps that can hurt a committed marker: a lease whose Commit reported an
      error after the rename still believes its marker uncommitted, and is then rolled
      back, updated or abandoned. */
  predicate Forgets(s: System, i: nat, e: Event) {
    i in s.actors &&
    match s.actors[i]
    case Open(l, _) =>
      && l.lostCommit
      && ((e.Rollback? && e.verified && e.removed) || (e.Update? && e.verified && e.outcome.Visible()))
    case Abandoning(l) => l.lostCommit && !l.adopted && e.Abandon? && e.verified && e.removed
    case _ => false
  }

  predicate KeepsCommitted(s: System, t: System) {
    forall p: Path :: p in s.disk && s.disk[p].committed ==> p in t.disk && t.disk[p] == s.disk[p]
  }

  /** The committed marker at `path` was removed or changed. */
  ghost predicate Hurts(disk: map<Path, Marker>, disk': map<Path, Marker>, path: Path) {
    path in disk && disk[path].committed && !(path in disk' && disk'[path] == disk[path])
  }

  lemma KeepsAtPath(s: System, t: System, path: Path)
    requires OnlyPathDiffers(s.disk, t.disk, path)
    ensures KeepsCommitted(s, t) <==> !Hurts(s.disk, t.disk, path)
  {
  }

  lemma EffectsHurt(disk: map<Path, Marker>, l: Lease, verified: bool, removed: bool,
                    threads: seq<string>, sessions: seq<string>, outcome: SaveOutcome)
    requires l.path in disk && disk[l.path] == OnDisk(l) && (l.lostCommit ==> !l.marker.committed)
    ensures var d := UpdateEffect(disk, l, verified, threads, sessions, outcome).disk;
      OnlyPathDiffers(disk, d, l.path) && (Hurts(disk, d, l.path) <==> l.lostCommit && verified && outcome.Visible())
    ensures var d := CommitEffect(disk, l, verified, outcome).disk;
      OnlyPathDiffers(disk, d, l.path) && !Hurts(disk, d, l.path)
    ensures var d := RollbackEffect(disk, l, verified, removed).disk;
      OnlyPathDiffers(disk, d, l.path) && (Hurts(disk, d, l.path) <==> l.lostCommit && verified && removed)
    ensures var d := AbandonEffect(disk, l, verified, removed).disk;
      OnlyPathDiffers(disk, d, l.path)
      && (Hurts(disk, d, l.path) <==> l.lostCommit && !l.adopted && verified && removed)
  {
  }

  lemma UseDiskMoves(s: System, i: nat, l: Lease, ordered: bool, e: Event)
    requires i in s.actors && s.actors[i] == Open(l, ordered)
    requires l.path in s.disk && s.disk[l.path] == OnDisk(l) && (l.lostCommit ==> !l.marker.committed)
    ensures var t := UseLease(s, i, l, ordered, e);
      OnlyPathDiffers(s.disk, t.disk, l.path) && (Hurts(s.disk, t.disk, l.path) <==> Forgets(s, i, e))
  {
    hide UpdateEffect, CommitEffect, RollbackEffect, AbandonEffect, Hurts, OnlyPathDiffers, OnDisk, Names;
    NothingHurts(s.disk, l.path);
    match e {
      case Update(verified, threads, sessions, outcome) =>
        EffectsHurt(s.disk, l, verified, false, threads, sessions, outcome);
      case Commit(verified, outcome) => EffectsHurt(s.disk, l, verified, false, [], [], outcome);
      case Rollback(verified, removed) => EffectsHurt(s.disk, l, verified, removed, [], [], Published);
      case _ =>
    }
  }

  lemma NothingHurts(disk: map<Path, Marker>, path: Path)
    ensures OnlyPathDiffers(disk, disk, path) && !Hurts(disk, disk, path)
  {
  }

  lemma LeaseDiskMoves(s: System, i: nat, e: Event, l: Lease)
    requires i in s.actors && LeaseOf(s.actors[i]) == Some(l)
    requires l.path in s.disk && s.disk[l.path] == OnDisk(l) && (l.lostCommit ==> !l.marker.committed)
    ensures OnlyPathDiffers(s.disk, Apply(s, i, e).disk, l.path)
    ensures Hurts(s.disk, Apply(s, i, e).disk, l.path) <==> Forgets(s, i, e)
  {
    hide UseLease, AbandonEffect, Hurts, OnlyPathDiffers, OnDisk, Names, Acquire, Start;
    NothingHurts(s.disk, l.path);
    match s.actors[i]
    case Rechecking(_, _, _) =>
    case Abandoning(_) =>
      if e.Abandon? {
        EffectsHurt(s.disk, l, e.verified, e.removed, [], [], Published);
      }
    case Open(_, ordered) => UseDiskMoves(s, i, l, ordered, e);
  }

  lemma AcquireWritesUnmarked(s: System, i: nat, e: Event)
    requires i in s.actors ==> LeaseOf(s.actors[i]).None? && (s.actors[i].BeforeWrite? ==> s.actors[i].path !in s.disk)
    ensures KeepsCommitted(s, Apply(s, i, e))
  {
  }

  /** A step destroys or rewrites a committed marker exactly when it is such a step. */
  lemma CommittedSurvivesExactly(s: System, i: nat, e: Event)
    requires Inv(s)
    ensures KeepsCommitted(s, Apply(s, i, e)) <==> !Forgets(s, i, e)
  {
    if i in s.actors {
      OwnFacts(s, i);
    }
    hide LocksMatch, MarkersMatch, Excluded, AskedAreRead, KeepsCommitted, Apply;
    if i in s.actors && LeaseOf(s.actors[i]).Some? {
      var l := LeaseOf(s.actors[i]).value;
      LeaseDiskMoves(s, i, e, l);
      KeepsAtPath(s, Apply(s, i, e), l.path);
    } else {
      AcquireWritesUnmarked(s, i, e);
    }
  }

  /** No Commit of the run reported an error after its rename: a failed marker write
      leaves the old marker, as Commit's own comment assumes. */
  predicate CommitsFailCleanly(turns: seq<Turn>) {
    forall k :: 0 <= k < |turns| ==> !(turns[k].event.Commit? && turns[k].event.outcome.PublishedWithError?)
  }

  predicate NoneLost(s: System) {
    forall i: nat :: i in s.actors ==> KeepsItsCommit(s.actors[i])
  }

  predicate KeepsItsCommit(a: Actor) {
    LeaseOf(a).Some? ==> !LeaseOf(a).value.lostCommit
  }

  lemma ActorKeepsItsCommit(s: System, i: nat, e: Event)
    requires i in s.actors ==> KeepsItsCommit(s.actors[i])
    requires !(e.Commit? && e.outcome.PublishedWithError?)
    ensures i in Apply(s, i, e).actors ==> KeepsItsCommit(Apply(s, i, e).actors[i])
  {
    hide Settle, CheckOther, UseLease, Acquire, AbandonEffect, Start;
    if i !in s.actors {
      StartIsModest(s, i, e);
    } else if !e.Crash? {
      match s.actors[i]
      case Rechecking(l, todo, granted) =>
        if e.Check? {
          CheckIsModest(s, i, l, todo, granted, e.unreadable);
        }
      case Abandoning(l) => AbandonCloses(s, i, l, e);
      case Open(l, ordered) => UseIsModest(s, i, l, ordered, e);
      case a => AcquireIsModest(s, i, a, e);
    }
  }

  lemma StepLosesNone(s: System, i: nat, e: Event)
    requires NoneLost(s) && !(e.Commit? && e.outcome.PublishedWithError?)
    ensures NoneLost(Apply(s, i, e))
  {
    hide Apply, KeepsItsCommit;
    StepMovesOne(s, i, e);
    ActorKeepsItsCommit(s, i, e);
  }

  lemma {:induction false} CleanRunLosesNone(s: System, turns: seq<Turn>)
    requires Initial(s) && CommitsFailCleanly(turns)
    ensures NoneLost(Run(s, turns))
  {
    if turns != [] {
      CleanRunLosesNone(s, turns[..|turns| - 1]);
      StepLosesNone(Run(s, turns[..|turns| - 1]), turns[|turns| - 1].actor, turns[|turns| - 1].event);
    }
  }

  /** When commits fail cleanly, a marker committed at any point of a run is still there,
      recipe unchanged, at every later point, whatever the callers do. */
  lemma {:induction false} CleanFailuresAreHarmless(s: System, before: seq<Turn>, after: seq<Turn>)
    requires Initial(s) && CommitsFailCleanly(before + after)
    ensures KeepsCommitted(Run(s, before), Run(s, before + after))
  {
    if after == [] {
      assert before + after == before;
    } else {
      var init, last := after[..|after| - 1], after[|after| - 1];
      assert (before + after)[..|before + after| - 1] == before + init;
      assert (before + after)[|before + after| - 1] == last;
      forall k | 0 <= k < |before + init|
        ensures !((before + init)[k].event.Commit? && (before + init)[k].event.outcome.PublishedWithError?)
      {
        assert (before + after)[k] == (before + init)[k];
      }
      CleanFailuresAreHarmless(s, before, init);
      RunKeepsInv(s, before + init);
      CleanRunLosesNone(s, before + init);
      var r := Run(s, before + init);
      CommittedSurvivesExactly(r, last.actor, last.event);
    }
  }

  ghost predicate StepKeeps(s: System, turns: seq<Turn>, k: nat)
    requires k < |turns|
  {
    KeepsCommitted(Run(s, turns[..k]), Run(s, turns[..k + 1]))
  }

  predicate StepForgets(s: System, turns: seq<Turn>, k: nat)
    requires k < |turns|
  {
    Forgets(Run(s, turns[..k]), turns[k].actor, turns[k].event)
  }

  lemma StepKeepsExactly(s: System, turns: seq<Turn>, k: nat)
    requires Initial(s) && k < |turns|
    ensures StepKeeps(s, turns, k) <==> !StepForgets(s, turns, k)
  {
    hide Run, KeepsCommitted, Forgets, Inv, Apply;
    RunKeepsInv(s, turns[..k]);
    RunOne(s, turns[..k], turns[k]);
    assert turns[..k + 1] == turns[..k] + [turns[k]];
    CommittedSurvivesExactly(Run(s, turns[..k]), turns[k].actor, turns[k].event);
  }

  /** A run never touches a committed marker exactly when none of its steps is one of
      those that forget a commit. */
  lemma CommittedRunsExactly(s: System, turns: seq<Turn>)
    requires Initial(s)
    ensures (forall k :: 0 <= k < |turns| ==> StepKeeps(s, turns, k)) <==>
      (forall k :: 0 <= k < |turns| ==> !StepForgets(s, turns, k))
  {
    hide StepKeeps, StepForgets;
    forall k | 0 <= k < |turns| ensures StepKeeps(s, turns, k) <==> !StepForgets(s, turns, k) {
      StepKeepsExactly(s, turns, k);
    }
  }

  // -------------------------------------------- what a caller must do after a failed Commit

  datatype LeaseError = LeaseClosed | NotOwned | AlreadyCommitted | WriteFailed | RemoveFailed
                      | WrongScope | Unreadable | ThreadStopping

  /** What the lease methods return; a closed lease answers LeaseClosed instead. */
  function UpdateError(disk: map<Path, Marker>, l: Lease, verified: bool, outcome: SaveOutcome): Option<LeaseError> {
    if !Owns(disk, l, verified) then Some(NotOwned)
    else if l.marker.committed then Some(AlreadyCommitted)
    else if outcome.Published? then None else Some(WriteFailed)
  }

  function CommitError(disk: map<Path, Marker>, l: Lease, verified: bool, outcome: SaveOutcome): Option<LeaseError> {
    if !Owns(disk, l, verified) then Some(NotOwned)
    else if l.marker.committed || outcome.Published? then None else Some(WriteFailed)
  }

  function RollbackError(disk: map<Path, Marker>, l: Lease, verified: bool, removed: bool): Option<LeaseError> {
    if !Owns(disk, l, verified) then Some(NotOwned)
    else if l.marker.committed then Some(AlreadyCommitted)
    else if removed then None else Some(RemoveFailed)
  }

  /** Did this step return from a Commit, and without an error? */
  function CommitReply(s: System, i: nat, e: Event): Option<bool> {
    if i in s.actors && s.actors[i].Open? && e.Commit? then
      Some(CommitError(s.disk, s.actors[i].lease, e.verified, e.outcome).None?)
    else None
  }

  /** The processes whose latest Commit returned an error: all that a caller can see,
      for it cannot tell whether the write failed before or after the rename. */
  function Warned(s: System, turns: seq<Turn>): set<nat> {
    if turns == [] then {}
    else
      var before, last := turns[..|turns| - 1], turns[|turns| - 1];
      match CommitReply(Run(s, before), last.actor, last.event)
      case None => Warned(s, before)
      case Some(ok) => if ok then Warned(s, before) - {last.actor} else Warned(s, before) + {last.actor}
  }

  predicate Undoes(e: Event) {
    e.Rollback? || e.Update? || e.StartRecheck?
  }

  /** After a Commit that returned an error the caller only retains the lease, commits
      again or dies, as every caller in internal/server/terminal.go does. */
  predicate Heeds(s: System, turns: seq<Turn>) {
    forall k :: 0 <= k < |turns| && Undoes(turns[k].event) ==> turns[k].actor !in Warned(s, turns[..k])
  }

  predicate Lost(a: Actor) {
    LeaseOf(a).Some? && LeaseOf(a).value.lostCommit
  }

  /** Every lease that lost its commit belongs to a warned caller and is still open. */
  predicate LostAreWarned(s: System, warned: set<nat>) {
    forall i: nat :: i in s.actors && Lost(s.actors[i]) ==> i in warned && s.actors[i].Open?
  }

  lemma CommitTells(disk: map<Path, Marker>, l: Lease, verified: bool, outcome: SaveOutcome)
    requires l.lostCommit ==> !l.marker.committed
    ensures var n := CommitEffect(disk, l, verified, outcome).lease;
      n.Some? && n.value.lostCommit ==> CommitError(disk, l, verified, outcome).Some?
  {
  }

  lemma UseStaysOpen(s: System, i: nat, l: Lease, ordered: bool, e: Event)
    requires i in s.actors && s.actors[i] == Open(l, ordered) && !e.StartRecheck?
    ensures var a := UseLease(s, i, l, ordered, e).actors[i]; a.Open? || a.Finished?
    ensures e.Commit? && UseLease(s, i, l, ordered, e).actors[i].Open? ==>
      CommitEffect(s.disk, l, e.verified, e.outcome).lease == Some(UseLease(s, i, l, ordered, e).actors[i].lease)
  {
    hide UpdateEffect, CommitEffect, RollbackEffect, Names;
  }

  lemma UseLosesInCommit(s: System, i: nat, l: Lease, ordered: bool, e: Event)
    requires i in s.actors && s.actors[i] == Open(l, ordered)
    requires l.lostCommit ==> !l.marker.committed && !Undoes(e)
    ensures var a := UseLease(s, i, l, ordered, e).actors[i];
      Lost(a) ==> a.Open? && (CommitReply(s, i, e) == Some(false) || (l.lostCommit && CommitReply(s, i, e).None?))
  {
    hide UseLease, CommitEffect, CommitError, Owns;
    UseIsModest(s, i, l, ordered, e);
    if !e.StartRecheck? {
      UseStaysOpen(s, i, l, ordered, e);
    }
    if e.Commit? {
      CommitTells(s.disk, l, e.verified, e.outcome);
    }
  }

  lemma ActorLosesInCommit(s: System, i: nat, e: Event)
    requires i in s.actors && Lost(s.actors[i]) ==>
      s.actors[i].Open? && !LeaseOf(s.actors[i]).value.marker.committed && (Undoes(e) ==> e.Crash?)
    ensures var t := Apply(s, i, e);
      i in t.actors && Lost(t.actors[i]) ==>
        && t.actors[i].Open?
        && (CommitReply(s, i, e) == Some(false) || (i in s.actors && Lost(s.actors[i]) && CommitReply(s, i, e).None?))
  {
    hide Settle, CheckOther, UseLease, Acquire, AbandonEffect, Start, CommitError, Owns;
    if i !in s.actors {
      StartIsModest(s, i, e);
    } else if !e.Crash? {
      match s.actors[i]
      case Rechecking(l, todo, granted) =>
        if e.Check? {
          CheckIsModest(s, i, l, todo, granted, e.unreadable);
        }
      case Abandoning(l) => AbandonCloses(s, i, l, e);
      case Open(l, ordered) => UseLosesInCommit(s, i, l, ordered, e);
      case a => AcquireIsModest(s, i, a, e);
    }
  }

  lemma StepKeepsWarned(s: System, turns: seq<Turn>, last: Turn)
    requires Inv(Run(s, turns)) && LostAreWarned(Run(s, turns), Warned(s, turns))
    requires Undoes(last.event) ==> last.actor !in Warned(s, turns)
    ensures LostAreWarned(Run(s, turns + [last]), Warned(s, turns + [last]))
  {
    RunOne(s, turns, last);
    assert (turns + [last])[..|turns|] == turns;
    var r, i, e := Run(s, turns), last.actor, last.event;
    if i in r.actors {
      OwnFacts(r, i);
    }
    hide Run, Apply, LocksMatch, MarkersMatch, Excluded, AskedAreRead, CommitReply, Undoes;
    ActorLosesInCommit(r, i, e);
    StepMovesOne(r, i, e);
  }

  lemma {:induction false} HeedfulRunsWarn(s: System, turns: seq<Turn>)
    requires Initial(s) && Heeds(s, turns)
    ensures LostAreWarned(Run(s, turns), Warned(s, turns))
  {
    if turns != [] {
      var init, last := turns[..|turns| - 1], turns[|turns| - 1];
      assert turns == init + [last];
      HeedsPrefix(s, init, [last]);
      HeedfulRunsWarn(s, init);
      RunKeepsInv(s, init);
      hide Run, Warned, Inv, LostAreWarned;
      StepKeepsWarned(s, init, last);
    }
  }

  lemma HeedsPrefix(s: System, turns: seq<Turn>, more: seq<Turn>)
    requires Heeds(s, turns + more)
    ensures Heeds(s, turns)
    ensures more != [] && Undoes(more[0].event) ==> more[0].actor !in Warned(s, turns)
  {
    hide Warned, Undoes;
    forall k | 0 <= k < |turns| ensures (turns + more)[k] == turns[k] && (turns + more)[..k] == turns[..k] {
    }
    if more != [] {
      assert (turns + more)[|turns|] == more[0] && (turns + more)[..|turns|] == turns;
    }
  }

  /** Committed stops are permanent for all three outcomes of every marker write: if each
      caller whose Commit returned an error then only retains its lease, commits again or
      dies, a marker committed at any point of a run is still there, recipe unchanged, at
      every later point. */
  lemma {:induction false} CommittedStopsArePermanent(s: System, before: seq<Turn>, after: seq<Turn>)
    requires Initial(s) && Heeds(s, before + after)
    ensures KeepsCommitted(Run(s, before), Run(s, before + after))
  {
    hide Apply, Warned, Forgets;
    if after == [] {
      assert before + after == before;
    } else {
      var init, last := after[..|after| - 1], after[|after| - 1];
      assert before + after == (before + init) + [last];
      HeedsPrefix(s, before + init, [last]);
      CommittedStopsArePermanent(s, before, init);
      HeedfulStepKeeps(s, before + init, last);
    }
  }

  lemma HeedfulStepKeeps(s: System, turns: seq<Turn>, last: Turn)
    requires Initial(s) && Heeds(s, turns) && (Undoes(last.event) ==> last.actor !in Warned(s, turns))
    ensures KeepsCommitted(Run(s, turns), Run(s, turns + [last]))
  {
    HeedfulRunsWarn(s, turns);
    RunKeepsInv(s, turns);
    RunOne(s, turns, last);
    hide Run, Apply, Warned, Inv, KeepsCommitted;
    CommittedSurvivesExactly(Run(s, turns), last.actor, last.event);
  }

  /** The discipline is needed: in every reachable state a failed Commit looks the same to
      its caller whether or not the rename happened, and if it did, each forbidden method
      that then works destroys the committed stop. */
  lemma FailedCommitIsAmbiguous(s: System, turns: seq<Turn>, i: nat, threads: seq<string>, sessions: seq<string>,
                                outcome: SaveOutcome)
    requires Initial(s) && outcome.Visible()
    requires var r := Run(s, turns);
      && i in r.actors && r.actors[i].Open?
      && !r.actors[i].lease.marker.committed && !r.actors[i].lease.lostCommit
    ensures var r := Run(s, turns);
      var early, late := Apply(r, i, Commit(true, NotPublished)), Apply(r, i, Commit(true, PublishedWithError));
      && CommitReply(r, i, Commit(true, NotPublished)) == CommitReply(r, i, Commit(true, PublishedWithError)) ==
           Some(false)
      && early == r
      && late.actors == r.actors[i := r.actors[i].(lease := r.actors[i].lease.(lostCommit := true))]
      && !KeepsCommitted(late, Apply(late, i, Rollback(true, true)))
      && !KeepsCommitted(late, Apply(late, i, Update(true, threads, sessions, outcome)))
  {
    RunKeepsInv(s, turns);
    var r := Run(s, turns);
    OwnFacts(r, i);
    hide Run;
    LateCommit(r, i, r.actors[i].lease, r.actors[i].ordered);
    var late := Apply(r, i, Commit(true, PublishedWithError));
    StepKeepsMatch(r, i, Commit(true, PublishedWithError));
    StepKeepsExclusion(r, i, Commit(true, PublishedWithError));
    StepKeepsAsked(r, i, Commit(true, PublishedWithError));
    hide Apply, LocksMatch, MarkersMatch, Excluded, AskedAreRead, KeepsCommitted;
    CommittedSurvivesExactly(late, i, Rollback(true, true));
    CommittedSurvivesExactly(late, i, Update(true, threads, sessions, outcome));
  }

  lemma LateCommit(s: System, i: nat, l: Lease, ordered: bool)
    requires i in s.actors && s.actors[i] == Open(l, ordered) && !l.marker.committed && !l.lostCommit
    requires l.path in s.disk && s.disk[l.path] == l.marker
    ensures Apply(s, i, Commit(true, NotPublished)) == s
    ensures Apply(s, i, Commit(true, PublishedWithError)) ==
      System(s.disk[l.path := l.marker.(committed := true)], s.locks,
             s.actors[i := Open(l.(lostCommit := true), ordered)])
    ensures CommitReply(s, i, Commit(true, NotPublished)) == CommitReply(s, i, Commit(true, PublishedWithError)) ==
      Some(false)
  {
    assert s.actors[i := Open(l, ordered)] == s.actors;
  }

  /** A process that finds a marker nobody holds recovers it in three steps. */
  lemma RecoveryOpens(disk: map<Path, Marker>, path: Path)
    requires path in disk
    ensures var s := System(disk, map[], map[]);
      var s1 := Apply(s, 0, BeginExisting(path));
      var s2 := Apply(s1, 0, TryLock(false));
      Apply(s2, 0, ReadExisting(false)) ==
        System(disk, map[path := 0], map[0 := Open(Lease(path, disk[path], true, {}, {}, false), false)])
  {
  }

  lemma LateFailureThenRollback(s: System, l: Lease)
    requires s.actors == map[0 := Open(l, false)] && l.path in s.disk && s.disk[l.path] == l.marker
          && !l.marker.committed
    ensures var s1 := Apply(s, 0, Commit(true, PublishedWithError));
      && l.path in s1.disk && s1.disk[l.path].committed
      && l.path !in Apply(s1, 0, Rollback(true, true)).disk
  {
  }

  /** A run at the lease interface that ignores the discipline: a recovering process commits
      a marker, the file is replaced but Commit reports an error, and a rollback removes the
      committed stop. */
  lemma LateCommitFailureLosesStop(marker: Marker, path: Path)
    requires !marker.committed
    ensures var s := System(map[path := marker], map[], map[]);
      var commit := [Turn(0, BeginExisting(path)), Turn(0, TryLock(false)), Turn(0, ReadExisting(false)),
                     Turn(0, Commit(true, PublishedWithError))];
      && path in Run(s, commit).disk && Run(s, commit).disk[path].committed
      && path !in Run(s, commit + [Turn(0, Rollback(true, true))]).disk
  {
    var s := System(map[path := marker], map[], map[]);
    var t1, t2 := Turn(0, BeginExisting(path)), Turn(0, TryLock(false));
    var t3, t4 := Turn(0, ReadExisting(false)), Turn(0, Commit(true, PublishedWithError));
    assert Run(s, []) == s;
    RecoveryOpens(s.disk, path);
    LateFailureThenRollback(Apply(Apply(Apply(s, 0, t1.event), 0, t2.event), 0, t3.event),
                            Lease(path, marker, true, {}, {}, false));
    hide Run, Apply;
    RunOne(s, [], t1);
    assert [] + [t1] == [t1];
    RunOne(s, [t1], t2);
    assert [t1] + [t2] == [t1, t2];
    RunOne(s, [t1, t2], t3);
    assert [t1, t2] + [t3] == [t1, t2, t3];
    RunOne(s, [t1, t2, t3], t4);
    assert [t1, t2, t3] + [t4] == [t1, t2, t3, t4];
    RunOne(s, [t1, t2, t3, t4], Turn(0, Rollback(true, true)));
  }

  lemma RunOne(s: System, turns: seq<Turn>, last: Turn)
    ensures Run(s, turns + [last]) == Apply(Run(s, turns), last.actor, last.event)
  {
    assert (turns + [last])[..|turns|] == turns;
  }

  lemma RemovesOnlyAsAsked(s: System, i: nat, e: Event, l: Lease)
    requires i in s.actors && LeaseOf(s.actors[i]) == Some(l)
    requires l.path in s.disk && l.path !in Apply(s, i, e).disk
    ensures e.Rollback? || (e.Abandon? && !l.adopted)
  {
    hide Acquire, Start, Names;
  }

  lemma AcquireRemovesNothing(s: System, i: nat, e: Event, path: Path)
    requires path in s.disk && (i in s.actors ==> LeaseOf(s.actors[i]).None?)
    ensures path in Apply(s, i, e).disk
  {
    hide CheckOther, UseLease, Settle, AbandonEffect, Names;
  }

  /** A marker disappears only by the hand of the lease that holds its lock and its
      token; a begin that lost a conflict never removes a marker it adopted. */
  lemma RemovalIsOwned(s: System, i: nat, e: Event, path: Path)
    requires Inv(s) && path in s.disk && path !in Apply(s, i, e).disk
    ensures i in s.actors && path in s.locks && s.locks[path] == i
    ensures LeaseOf(s.actors[i]).Some? && LeaseOf(s.actors[i]).value.path == path
    ensures LeaseOf(s.actors[i]).value.marker.token == s.disk[path].token
    ensures e.Rollback? || (e.Abandon? && !LeaseOf(s.actors[i]).value.adopted)
  {
    hide Apply, LocksMatch, MarkersMatch, Excluded, AskedAreRead;
    if i in s.actors && LeaseOf(s.actors[i]).Some? {
      var l := LeaseOf(s.actors[i]).value;
      OwnFacts(s, i);
      LeasesHold(s.actors[i]);
      LeaseDiskMoves(s, i, e, l);
      RemovesOnlyAsAsked(s, i, e, l);
    } else {
      AcquireRemovesNothing(s, i, e, path);
    }
  }

  /** What threadStopped answers from two separate reads of the directory. */
  function ThreadStopped(projectRead: Option<bool>, threadRead: Option<bool>): bool {
    projectRead != Some(false) || threadRead != Some(false)
  }

  /** Reads may fail (None); a completed read tells whether the marker exists. */
  predicate ReadOf(disk: map<Path, Marker>, path: Path, read: Option<bool>) {
    read.Some? ==> read.value == (path in disk)
  }

  /** While a thread lease is open nobody can be told the thread is not stopped, even if
      other processes move between the two reads. */
  lemma OpenLeaseIsVisible(s: System, turns: seq<Turn>, i: nat, p: string, t: string,
                           projectRead: Option<bool>, threadRead: Option<bool>)
    requires Initial(s) && ThreadOpen(Run(s, turns), i, p, t)
    requires ReadOf(Run(s, turns).disk, ThreadStop(p, t), threadRead)
    ensures ThreadStopped(projectRead, threadRead)
  {
    RunKeepsInv(s, turns);
    OwnFacts(Run(s, turns), i);
  }

  // ------------------------------------------------------------- the lease objects

  /** The shared directory: marker files and the holders of their sidecar locks. */
  class StopDirectory {
    var markers: map<Path, Marker>
    var locks: map<Path, nat>

    constructor (markers: map<Path, Marker>)
      ensures this.markers == markers && this.locks == map[]
    {
      this.markers, this.locks := markers, map[];
    }
  }

  class StopLease {
    const directory: StopDirectory
    const path: Path
    var marker: Marker
    var adopted: bool
    var closed: bool
    ghost var requested: set<string>
    ghost var cleared: set<string>
    ghost var lostCommit: bool

    ghost function View(): Option<Lease>
      reads this
    {
      if closed then None else Some(Lease(path, marker, adopted, requested, cleared, lostCommit))
    }

    /** The directory and the lease as one value, to be compared with an effect. */
    ghost function Now(): Effect
      reads this, directory
    {
      Effect(directory.markers, View())
    }

    constructor (directory: StopDirectory, path: Path, marker: Marker, adopted: bool, ghost requested: set<string>)
      ensures this.directory == directory && View() == Some(Lease(path, marker, adopted, requested, {}, false))
    {
      this.directory, this.path, this.marker, this.adopted := directory, path, marker, adopted;
      closed := false;
      this.requested, cleared, lostCommit := requested, {}, false;
    }

    method ClosePreserving()
      modifies this`closed, directory`locks
      ensures closed && directory.locks == old(directory.locks) - {path}
    {
      directory.locks := directory.locks - {path};
      closed := true;
    }

    /** Reads the marker back: it must still carry this lease's token. */
    method VerifyOwnership(verified: bool) returns (owned: bool)
      ensures owned == Owns(directory.markers, Lease(path, marker, adopted, requested, cleared, lostCommit), verified)
    {
      owned := verified && path in directory.markers && directory.markers[path].token == marker.token;
    }

    method UpdateCleanupRecipe(verified: bool, threads: seq<string>, sessions: seq<string>, outcome: SaveOutcome)
      returns (error: Option<LeaseError>)
      modifies this, directory
      ensures old(closed) ==>
        error == Some(LeaseClosed) && Now() == old(Now()) && directory.locks == old(directory.locks)
      ensures !old(closed) ==>
        && Now() == UpdateEffect(old(directory.markers), old(View()).value, verified, threads, sessions, outcome)
        && error == UpdateError(old(directory.markers), old(View()).value, verified, outcome)
        && directory.locks == if closed then old(directory.locks) - {path} else old(directory.locks)
    {
      if closed {
        return Some(LeaseClosed);
      }
      var owned := VerifyOwnership(verified);
      if !owned {
        ClosePreserving();
        return Some(NotOwned);
      }
      if marker.committed {
        return Some(AlreadyCommitted);
      }
      var updated := marker.(threads := threads, sessions := sessions);
      if outcome.Visible() {
        directory.markers := directory.markers[path := updated];
      }
      if !outcome.Published? {
        ClosePreserving();
        return Some(WriteFailed);
      }
      marker := updated;
      lostCommit := false;
      return None;
    }

    method CommitLease(verified: bool, outcome: SaveOutcome) returns (error: Option<LeaseError>)
      modifies this, directory
      ensures old(closed) ==>
        error == Some(LeaseClosed) && Now() == old(Now()) && directory.locks == old(directory.locks)
      ensures !old(closed) ==>
        && Now() == CommitEffect(old(directory.markers), old(View()).value, verified, outcome)
        && error == CommitError(old(directory.markers), old(View()).value, verified, outcome)
        && directory.locks == if closed then old(directory.locks) - {path} else old(directory.locks)
    {
      if closed {
        return Some(LeaseClosed);
      }
      var owned := VerifyOwnership(verified);
      if !owned {
        ClosePreserving();
        return Some(NotOwned);
      }
      if marker.committed {
        return None;
      }
      var updated := marker.(committed := true);
      if outcome.Visible() {
        directory.markers := directory.markers[path := updated];
      }
      if !outcome.Published? {
        lostCommit := lostCommit || outcome.Visible();
        return Some(WriteFailed);
      }
      marker := updated;
      lostCommit := false;
      return None;
    }

    method RollbackLease(verified: bool, removed: bool) returns (error: Option<LeaseError>)
      modifies this, directory
      ensures closed
      ensures old(closed) ==>
        error == Some(LeaseClosed) && Now() == old(Now()) && directory.locks == old(directory.locks)
      ensures !old(closed) ==>
        && Now() == RollbackEffect(old(directory.markers), old(View()).value, verified, removed)
        && error == RollbackError(old(directory.markers), old(View()).value, verified, removed)
        && directory.locks == old(directory.locks) - {path}
    {
      if closed {
        return Some(LeaseClosed);
      }
      var owned := VerifyOwnership(verified);
      if !owned {
        error := Some(NotOwned);
      } else if marker.committed {
        error := Some(AlreadyCommitted);
      } else if !removed {
        error := Some(RemoveFailed);
      } else {
        directory.markers := directory.markers - {path};
        error := None;
      }
      ClosePreserving();
    }

    /** An own marker is rolled back, an adopted one left. */
    method AbandonAfterConflict(verified: bool, removed: bool) returns (error: Option<LeaseError>)
      modifies this, directory
      ensures closed
      ensures old(closed) ==>
        && error == (if old(adopted) then None else Some(LeaseClosed))
        && Now() == old(Now()) && directory.locks == old(directory.locks)
      ensures !old(closed) ==>
        && Now() == AbandonEffect(old(directory.markers), old(View()).value, verified, removed)
        && error ==
             (if old(adopted) then None
              else RollbackError(old(directory.markers), old(View()).value, verified, removed))
        && directory.locks == old(directory.locks) - {path}
    {
      if adopted {
        if !closed {
          ClosePreserving();
        }
        return None;
      }
      error := RollbackLease(verified, removed);
    }

    method RetainLease() returns (error: Option<LeaseError>)
      modifies this, directory
      ensures closed
      ensures directory.markers == old(directory.markers)
      ensures error == if old(closed) then Some(LeaseClosed) else None
      ensures directory.locks == if old(closed) then old(directory.locks) else old(directory.locks) - {path}
    {
      if closed {
        return Some(LeaseClosed);
      }
      ClosePreserving();
      return None;
    }
  }

  /** The replies of the file system to one begin call. */
  datatype BeginIO = BeginIO(
    firstUnreadable: bool, lockFailed: bool, existingUnreadable: bool, write: SaveOutcome,
    checkUnreadable: seq<bool>, verified: bool, removed: bool)

  lemma ReadAndWrite(s: System, i: nat, path: Path, want: Marker, todo: seq<string>, unreadable: bool,
                     write: SaveOutcome)
    requires s.actors == map[i := BeforeRead(path, Some(want), todo)]
    ensures Apply(Apply(s, i, ReadExisting(unreadable)), i, WriteNew(write)) ==
      if unreadable then System(s.disk, s.locks - {path}, map[i := Finished])
      else if path in s.disk then
        System(s.disk, s.locks,
               map[i := Rechecking(Lease(path, s.disk[path], true, Names(todo), {}, false), todo, false)])
      else
        var disk := if write.Visible() then s.disk[path := want] else s.disk;
        if write.Published? then
          System(disk, s.locks, map[i := Rechecking(Lease(path, want, false, Names(todo), {}, false), todo, false)])
        else System(disk, s.locks - {path}, map[i := Finished])
  {
    hide CheckOther, UseLease, Settle, Start, AbandonEffect, Names;
    var s1 := Apply(s, i, ReadExisting(unreadable));
    if !unreadable && path !in s.disk {
      assert s1 == System(s.disk, s.locks, map[i := BeforeWrite(path, want, todo)]);
    }
  }

  lemma LockOne(s: System, i: nat, path: Path, want: Option<Marker>, todo: seq<string>, failed: bool)
    requires s.actors == map[i := BeforeLock(path, want, todo)]
    ensures Apply(s, i, TryLock(failed)) ==
      if failed || path in s.locks then System(s.disk, s.locks, map[i := Finished])
      else System(s.disk, s.locks[path := i], map[i := BeforeRead(path, want, todo)])
  {
    hide CheckOther, UseLease, Settle, Start, AbandonEffect;
  }

  /** The three acquiring steps of one process that nobody interrupts. */
  lemma AcquireSteps(s: System, i: nat, path: Path, want: Marker, todo: seq<string>, io: BeginIO)
    requires s.actors == map[i := BeforeLock(path, Some(want), todo)]
    ensures Apply(Apply(Apply(s, i, TryLock(io.lockFailed)), i, ReadExisting(io.existingUnreadable)), i,
                  WriteNew(io.write)) ==
      if io.lockFailed || path in s.locks then System(s.disk, s.locks, map[i := Finished])
      else if io.existingUnreadable then System(s.disk, s.locks[path := i] - {path}, map[i := Finished])
      else if path in s.disk then
        System(s.disk, s.locks[path := i],
               map[i := Rechecking(Lease(path, s.disk[path], true, Names(todo), {}, false), todo, false)])
      else
        var disk := if io.write.Visible() then s.disk[path := want] else s.disk;
        if io.write.Published? then
          System(disk, s.locks[path := i],
                 map[i := Rechecking(Lease(path, want, false, Names(todo), {}, false), todo, false)])
        else System(disk, s.locks[path := i] - {path}, map[i := Finished])
  {
    hide Apply, Names;
    LockOne(s, i, path, Some(want), todo, io.lockFailed);
    var s1 := Apply(s, i, TryLock(io.lockFailed));
    if io.lockFailed || path in s.locks {
      FinishedStays(s1, i, ReadExisting(io.existingUnreadable));
      FinishedStays(s1, i, WriteNew(io.write));
    } else {
      ReadAndWrite(s1, i, path, want, todo, io.existingUnreadable, io.write);
    }
  }

  /** Takes the sidecar lock, then adopts the marker found or writes a new one. */
  method AcquireLease(directory: StopDirectory, owner: nat, path: Path, want: Marker, todo: seq<string>, io: BeginIO)
    returns (lease: StopLease?)
    modifies directory
    ensures lease != null ==> fresh(lease) && lease.directory == directory && lease.path == path
    ensures var s :=
      System(old(directory.markers), old(directory.locks), map[owner := BeforeLock(path, Some(want), todo)]);
      var t := Apply(Apply(Apply(s, owner, TryLock(io.lockFailed)), owner, ReadExisting(io.existingUnreadable)),
                     owner, WriteNew(io.write));
      && t.disk == directory.markers && t.locks == directory.locks
      && t.actors == map[owner := if lease == null || lease.closed then Finished
                                  else Rechecking(lease.View().value, todo, false)]
  {
    hide Apply, Names;
    AcquireSteps(System(directory.markers, directory.locks, map[owner := BeforeLock(path, Some(want), todo)]),
                 owner, path, want, todo, io);
    if io.lockFailed || path in directory.locks {
      return null;
    }
    directory.locks := directory.locks[path := owner];
    if io.existingUnreadable {
      directory.locks := directory.locks - {path};
      return null;
    }
    if path in directory.markers {
      lease := new StopLease(directory, path, directory.markers[path], true, Names(todo));
      return;
    }
    if io.write.Visible() {
      directory.markers := directory.markers[path := want];
    }
    if !io.write.Published? {
      directory.locks := directory.locks - {path};
      return null;
    }
    lease := new StopLease(directory, path, want, false, Names(todo));
  }

  /** The uninterrupted machine run of one beginThread call. */
  ghost function ThreadAlone(s: System, i: nat, p: string, t: string, token: nat, sessions: seq<string>,
                             io: BeginIO): System
    requires io.checkUnreadable != []
  {
    var s1 := Apply(Apply(s, i, BeginThread(p, t, token, sessions)), i, ReadProject(io.firstUnreadable));
    var s2 :=
      Apply(Apply(Apply(s1, i, TryLock(io.lockFailed)), i, ReadExisting(io.existingUnreadable)), i, WriteNew(io.write));
    Apply(Apply(s2, i, Check(io.checkUnreadable[0])), i, Abandon(io.verified, io.removed))
  }

  lemma FinishedStays(s: System, i: nat, e: Event)
    requires i in s.actors && s.actors[i].Finished? && !e.Crash?
    ensures Apply(s, i, e) == s
  {
  }

  lemma AcquireStaysFinished(s: System, i: nat, io: BeginIO)
    requires i in s.actors && s.actors[i].Finished?
    ensures Apply(Apply(Apply(s, i, TryLock(io.lockFailed)), i, ReadExisting(io.existingUnreadable)), i,
                  WriteNew(io.write)) == s
  {
    FinishedStays(s, i, TryLock(io.lockFailed));
    FinishedStays(s, i, ReadExisting(io.existingUnreadable));
    FinishedStays(s, i, WriteNew(io.write));
  }

  lemma ThreadHead(s: System, i: nat, p: string, t: string, token: nat, sessions: seq<string>, unreadable: bool)
    requires s.actors == map[]
    ensures Apply(Apply(s, i, BeginThread(p, t, token, sessions)), i, ReadProject(unreadable)) ==
      Move(s, i, if unreadable || ProjectStop(p) in s.disk then Finished
                 else BeforeLock(ThreadStop(p, t), Some(Marker(token, [], sessions, false)), []))
  {
  }

  lemma ThreadTail(s: System, i: nat, l: Lease, p: string, t: string, unreadable: bool, verified: bool, removed: bool)
    requires s.actors == map[i := Rechecking(l, [], false)] && l.path == ThreadStop(p, t)
    ensures Apply(Apply(s, i, Check(unreadable)), i, Abandon(verified, removed)) ==
      if !unreadable && ProjectStop(p) !in s.disk then Move(s, i, Open(l, true))
      else System(AbandonEffect(s.disk, l, verified, removed).disk, s.locks - {l.path}, map[i := Finished])
  {
  }

  method BeginThreadStop(directory: StopDirectory, owner: nat, p: string, t: string, token: nat, sessions: seq<string>,
                         io: BeginIO)
    returns (lease: StopLease?)
    requires io.checkUnreadable != []
    modifies directory
    ensures lease != null ==> fresh(lease) && lease.directory == directory && !lease.closed
    ensures var r :=
      ThreadAlone(System(old(directory.markers), old(directory.locks), map[]), owner, p, t, token, sessions, io);
      && r.disk == directory.markers && r.locks == directory.locks
      && r.actors == map[owner := if lease == null then Finished else Open(lease.View().value, true)]
  {
    hide Apply, AbandonEffect;
    var path := ThreadStop(p, t);
    var want := Marker(token, [], sessions, false);
    ghost var s := System(directory.markers, directory.locks, map[]);
    ThreadHead(s, owner, p, t, token, sessions, io.firstUnreadable);
    if io.firstUnreadable || ProjectStop(p) in directory.markers {
      AcquireStaysFinished(Move(s, owner, Finished), owner, io);
      FinishedStays(Move(s, owner, Finished), owner, Check(io.checkUnreadable[0]));
      FinishedStays(Move(s, owner, Finished), owner, Abandon(io.verified, io.removed));
      return null;
    }
    lease := AcquireLease(directory, owner, path, want, [], io);
    ghost var s2 := System(directory.markers, directory.locks,
                           map[owner := if lease == null || lease.closed then Finished
                                        else Rechecking(lease.View().value, [], false)]);
    if lease == null || lease.closed {
      FinishedStays(s2, owner, Check(io.checkUnreadable[0]));
      FinishedStays(s2, owner, Abandon(io.verified, io.removed));
      return null;
    }
    ThreadTail(s2, owner, lease.View().value, p, t, io.checkUnreadable[0], io.verified, io.removed);
    if !io.checkUnreadable[0] && ProjectStop(p) !in directory.markers {
      return lease;
    }
    var _ := lease.AbandonAfterConflict(io.verified, io.removed);
    return null;
  }

  // ---------------------------------------------------- a project begin reads its threads

  ghost function Checks(s: System, i: nat, unreadable: seq<bool>): System {
    if unreadable == [] then s
    else Apply(Checks(s, i, unreadable[..|unreadable| - 1]), i, Check(unreadable[|unreadable| - 1]))
  }

  lemma ChecksOne(s: System, i: nat, unreadable: seq<bool>, k: nat)
    requires k < |unreadable|
    ensures Checks(s, i, unreadable[..k + 1]) == Apply(Checks(s, i, unreadable[..k]), i, Check(unreadable[k]))
  {
    hide Apply;
    assert unreadable[..k + 1][..k] == unreadable[..k];
  }

  lemma NoChecks(s: System, i: nat, unreadable: seq<bool>)
    ensures Checks(s, i, unreadable[..0]) == s
  {
  }

  /** Once the checks have decided, further ones change nothing. */
  lemma {:induction false} DecidedStays(s: System, i: nat, unreadable: seq<bool>, k: nat)
    requires k <= |unreadable|
    requires i in Checks(s, i, unreadable[..k]).actors && !Checks(s, i, unreadable[..k]).actors[i].Rechecking?
    requires LeaseOf(Checks(s, i, unreadable[..k]).actors[i]).Some? || Checks(s, i, unreadable[..k]).actors[i].Finished?
    ensures Checks(s, i, unreadable) == Checks(s, i, unreadable[..k])
    decreases |unreadable|
  {
    if k == |unreadable| {
      assert unreadable[..k] == unreadable;
    } else {
      var init := unreadable[..|unreadable| - 1];
      assert init[..k] == unreadable[..k];
      DecidedStays(s, i, init, k);
    }
  }

  /** The uninterrupted machine run of one beginProject call. */
  ghost function ProjectAlone(s: System, i: nat, p: string, threads: seq<string>, token: nat, sessions: seq<string>,
                              io: BeginIO): System
  {
    var s1 := Apply(s, i, BeginProject(p, threads, token, sessions));
    var s2 :=
      Apply(Apply(Apply(s1, i, TryLock(io.lockFailed)), i, ReadExisting(io.existingUnreadable)), i, WriteNew(io.write));
    Apply(Checks(s2, i, io.checkUnreadable), i, Abandon(io.verified, io.removed))
  }

  lemma CheckOne(s: System, i: nat, l: Lease, p: string, todo: seq<string>, unreadable: bool)
    requires i in s.actors && s.actors[i] == Rechecking(l, todo, false) && l.path == ProjectStop(p)
    ensures Apply(s, i, Check(unreadable)) == Move(s, i,
      if todo == [] then Open(l, true)
      else if unreadable || ThreadStop(p, todo[0]) in s.disk then Abandoning(l)
      else Rechecking(l.(cleared := l.cleared + {todo[0]}), todo[1..], false))
  {
  }

  lemma AbandonOne(s: System, i: nat, l: Lease, verified: bool, removed: bool)
    requires s.actors == map[i := Abandoning(l)]
    ensures Apply(s, i, Abandon(verified, removed)) ==
      System(AbandonEffect(s.disk, l, verified, removed).disk, s.locks - {l.path}, map[i := Finished])
  {
  }

  /** Reads every thread marker in turn; stops at the first that exists or is unreadable. */
  method CheckThreads(lease: StopLease, owner: nat, p: string, threads: seq<string>, unreadable: seq<bool>)
    returns (clear: bool)
    requires |unreadable| == |threads| + 1 && !lease.closed && lease.path == ProjectStop(p)
    modifies lease`cleared
    ensures !lease.closed
    ensures var s := System(lease.directory.markers, lease.directory.locks,
                            map[owner := Rechecking(old(lease.View()).value, threads, false)]);
      Checks(s, owner, unreadable) ==
        Move(s, owner, if clear then Open(lease.View().value, true) else Abandoning(lease.View().value))
  {
    hide Apply, Checks;
    ghost var s := System(lease.directory.markers, lease.directory.locks,
                          map[owner := Rechecking(lease.View().value, threads, false)]);
    NoChecks(s, owner, unreadable);
    var k := 0;
    while k < |threads|
      invariant k <= |threads| && !lease.closed
      invariant Checks(s, owner, unreadable[..k]) == Move(s, owner, Rechecking(lease.View().value, threads[k..], false))
    {
      ChecksOne(s, owner, unreadable, k);
      CheckOne(Checks(s, owner, unreadable[..k]), owner, lease.View().value, p, threads[k..], unreadable[k]);
      if unreadable[k] || ThreadStop(p, threads[k]) in lease.directory.markers {
        DecidedStays(s, owner, unreadable, k + 1);
        return false;
      }
      lease.cleared := lease.cleared + {threads[k]};
      k := k + 1;
    }
    assert unreadable[..k + 1] == unreadable;
    ChecksOne(s, owner, unreadable, k);
    CheckOne(Checks(s, owner, unreadable[..k]), owner, lease.View().value, p, threads[k..], unreadable[k]);
    return true;
  }

  lemma ProjectHead(s: System, i: nat, p: string, threads: seq<string>, token: nat, sessions: seq<string>)
    requires s.actors == map[]
    ensures Apply(s, i, BeginProject(p, threads, token, sessions)) ==
      Move(s, i, BeforeLock(ProjectStop(p), Some(Marker(token, threads, sessions, false)), threads))
  {
  }

  method BeginProjectStop(directory: StopDirectory, owner: nat, p: string, threads: seq<string>, token: nat,
                          sessions: seq<string>, io: BeginIO)
    returns (lease: StopLease?)
    requires |io.checkUnreadable| == |threads| + 1
    modifies directory
    ensures lease != null ==> fresh(lease) && lease.directory == directory && !lease.closed
    ensures var r :=
      ProjectAlone(System(old(directory.markers), old(directory.locks), map[]), owner, p, threads, token, sessions, io);
      && r.disk == directory.markers && r.locks == directory.locks
      && r.actors == map[owner := if lease == null then Finished else Open(lease.View().value, true)]
  {
    hide Apply, AbandonEffect, Checks;
    var path := ProjectStop(p);
    var want := Marker(token, threads, sessions, false);
    ghost var s := System(directory.markers, directory.locks, map[]);
    ProjectHead(s, owner, p, threads, token, sessions);
    lease := AcquireLease(directory, owner, path, want, threads, io);
    ghost var s2 := System(directory.markers, directory.locks,
                           map[owner := if lease == null || lease.closed then Finished
                                        else Rechecking(lease.View().value, threads, false)]);
    if lease == null || lease.closed {
      FinishedIgnoresChecks(s2, owner, io.checkUnreadable);
      FinishedStays(s2, owner, Abandon(io.verified, io.removed));
      return null;
    }
    var clear := CheckThreads(lease, owner, p, threads, io.checkUnreadable);
    if clear {
      OpenIgnoresAbandon(Checks(s2, owner, io.checkUnreadable), owner, io.verified, io.removed);
      return lease;
    }
    AbandonOne(Checks(s2, owner, io.checkUnreadable), owner, lease.View().value, io.verified, io.removed);
    var _ := lease.AbandonAfterConflict(io.verified, io.removed);
    return null;
  }

  lemma FinishedIgnoresChecks(s: System, i: nat, unreadable: seq<bool>)
    requires i in s.actors && s.actors[i].Finished?
    ensures Checks(s, i, unreadable) == s
  {
    assert unreadable[..0] == [];
    DecidedStays(s, i, unreadable, 0);
  }

  lemma OpenIgnoresAbandon(s: System, i: nat, verified: bool, removed: bool)
    requires i in s.actors && s.actors[i].Open?
    ensures Apply(s, i, Abandon(verified, removed)) == s
  {
  }

  lemma RecheckOne(s: System, i: nat, l: Lease, p: string, todo: seq<string>, unreadable: bool)
    requires i in s.actors && s.actors[i] == Rechecking(l, todo, true) && l.path == ProjectStop(p)
    ensures Apply(s, i, Check(unreadable)) ==
      if todo != [] && unreadable then Close(s, i, l.path)
      else Move(s, i,
        if todo == [] then Open(l, true)
        else if ThreadStop(p, todo[0]) in s.disk then Abandoning(l)
        else Rechecking(l.(cleared := l.cleared + {todo[0]}), todo[1..], true))
  {
  }

  lemma StartRecheckOne(s: System, i: nat, l: Lease, ordered: bool, threads: seq<string>)
    requires s.actors == map[i := Open(l, ordered)] && l.path.ProjectStop?
    ensures Apply(s, i, StartRecheck(threads)) ==
      Move(s, i, Rechecking(l.(requested := l.requested + Names(threads)), threads, true))
  {
    hide Names;
  }

  /** The uninterrupted machine run of one RecheckProjectThreads call. */
  ghost function RecheckAlone(s: System, i: nat, threads: seq<string>, unreadable: seq<bool>, verified: bool,
                              removed: bool): System
  {
    Apply(Checks(Apply(s, i, StartRecheck(threads)), i, unreadable), i, Abandon(verified, removed))
  }

  datatype Reading = Clear | Conflict | Failed

  /** Reads every thread marker in turn; stops at the first that exists or is unreadable. */
  method ReadThreadMarkers(lease: StopLease, owner: nat, p: string, threads: seq<string>, unreadable: seq<bool>)
    returns (reading: Reading)
    requires |unreadable| == |threads| + 1 && !lease.closed && lease.path == ProjectStop(p)
    modifies lease`cleared
    ensures !lease.closed
    ensures reading.Clear? ==> forall k :: 0 <= k < |threads| ==> ThreadStop(p, threads[k]) !in lease.directory.markers
    ensures var s := System(lease.directory.markers, lease.directory.locks,
                            map[owner := Rechecking(old(lease.View()).value, threads, true)]);
      Checks(s, owner, unreadable) ==
        if reading.Failed? then Close(s, owner, lease.path)
        else Move(s, owner, if reading.Clear? then Open(lease.View().value, true) else Abandoning(lease.View().value))
  {
    hide Apply, Checks;
    ghost var s := System(lease.directory.markers, lease.directory.locks,
                          map[owner := Rechecking(lease.View().value, threads, true)]);
    NoChecks(s, owner, unreadable);
    var k := 0;
    while k < |threads|
      invariant k <= |threads| && !lease.closed
      invariant Checks(s, owner, unreadable[..k]) == Move(s, owner, Rechecking(lease.View().value, threads[k..], true))
      invariant forall j :: 0 <= j < k ==> ThreadStop(p, threads[j]) !in lease.directory.markers
    {
      ChecksOne(s, owner, unreadable, k);
      RecheckOne(Checks(s, owner, unreadable[..k]), owner, lease.View().value, p, threads[k..], unreadable[k]);
      if unreadable[k] {
        DecidedStays(s, owner, unreadable, k + 1);
        return Failed;
      }
      if ThreadStop(p, threads[k]) in lease.directory.markers {
        DecidedStays(s, owner, unreadable, k + 1);
        return Conflict;
      }
      lease.cleared := lease.cleared + {threads[k]};
      k := k + 1;
    }
    assert unreadable[..k + 1] == unreadable;
    ChecksOne(s, owner, unreadable, k);
    RecheckOne(Checks(s, owner, unreadable[..k]), owner, lease.View().value, p, threads[k..], unreadable[k]);
    return Clear;
  }

  /** Rechecks further threads under an open project lease: an unreadable marker closes
      the lease and keeps its own, an existing one abandons the lease. A closed lease and
      a thread lease are refused as they are. */
  method RecheckProjectThreads(lease: StopLease, owner: nat, threads: seq<string>, unreadable: seq<bool>,
                               verified: bool, removed: bool, ghost ordered: bool)
    returns (error: Option<LeaseError>)
    requires |unreadable| == |threads| + 1
    modifies lease, lease.directory
    ensures error == Some(LeaseClosed) <==> old(lease.closed)
    ensures error == Some(WrongScope) <==> !old(lease.closed) && lease.path.ThreadStop?
    ensures old(lease.closed) || lease.path.ThreadStop? ==>
      lease.Now() == old(lease.Now()) && lease.directory.locks == old(lease.directory.locks)
    ensures !old(lease.closed) && lease.path.ProjectStop? ==>
      var s := System(old(lease.directory.markers), old(lease.directory.locks),
                      map[owner := Open(old(lease.View()).value, ordered)]);
      var r := RecheckAlone(s, owner, threads, unreadable, verified, removed);
      && (error.None? <==> !lease.closed)
      && r.disk == lease.directory.markers && r.locks == lease.directory.locks
      && r.actors == map[owner := if error.None? then Open(lease.View().value, true) else Finished]
      && (error.None? ==> forall k :: 0 <= k < |threads| ==>
            ThreadStop(lease.path.project, threads[k]) !in lease.directory.markers)
      && owner in Checks(Apply(s, owner, StartRecheck(threads)), owner, unreadable).actors
      && var decided := Checks(Apply(s, owner, StartRecheck(threads)), owner, unreadable).actors[owner];
      error == (if decided.Open? then None else if decided.Finished? then Some(Unreadable) else Some(ThreadStopping))
  {
    hide Apply, AbandonEffect, Names, Checks, RollbackError;
    if lease.closed {
      return Some(LeaseClosed);
    }
    if lease.path.ThreadStop? {
      return Some(WrongScope);
    }
    ghost var s0 :=
      System(lease.directory.markers, lease.directory.locks, map[owner := Open(lease.View().value, ordered)]);
    StartRecheckOne(s0, owner, lease.View().value, ordered, threads);
    lease.requested := lease.requested + Names(threads);
    ghost var s := System(lease.directory.markers, lease.directory.locks,
                          map[owner := Rechecking(lease.View().value, threads, true)]);
    assert Apply(s0, owner, StartRecheck(threads)) == s;
    var reading := ReadThreadMarkers(lease, owner, lease.path.project, threads, unreadable);
    ghost var t := Checks(s, owner, unreadable);
    match reading {
      case Clear =>
        OpenIgnoresAbandon(t, owner, verified, removed);
        return None;
      case Conflict =>
        AbandonOne(t, owner, lease.View().value, verified, removed);
        var _ := lease.AbandonAfterConflict(verified, removed);
        return Some(ThreadStopping);
      case Failed =>
        FinishedStays(t, owner, Abandon(verified, removed));
        lease.ClosePreserving();
        return Some(Unreadable);
    }
  }

  /** Opens the marker a stopped process left behind, if it still exists under the lock. */
  method AcquireExistingLease(directory: StopDirectory, owner: nat, path: Path, lockFailed: bool, unreadable: bool)
    returns (lease: StopLease?)
    modifies directory
    ensures lease != null ==> fresh(lease) && lease.directory == directory && !lease.closed && lease.adopted
    ensures directory.markers == old(directory.markers)
    ensures var s := System(old(directory.markers), old(directory.locks), map[]);
      var r :=
        Apply(Apply(Apply(s, owner, BeginExisting(path)), owner, TryLock(lockFailed)), owner, ReadExisting(unreadable));
      && r.locks == directory.locks && r.disk == directory.markers
      && (lease != null ==> r.actors == map[owner := Open(lease.View().value, false)])
      && (lease == null ==> r.actors == map[] || r.actors == map[owner := Finished])
  {
    hide CheckOther, UseLease, Settle, AbandonEffect, Names;
    if path !in directory.markers {
      return null;
    }
    if lockFailed || path in directory.locks {
      return null;
    }
    directory.locks := directory.locks[path := owner];
    if unreadable {
      directory.locks := directory.locks - {path};
      return null;
    }
    lease := new StopLease(directory, path, directory.markers[path], true, {});
  }
}
