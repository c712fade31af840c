/** Thread creation, deletion, rollback and worktree cleanup over three stores that
    cannot commit together: Git, projects.json and orphaned-worktrees.json. The mutation
    lock admits one operation at a time; a crash may fall between any two durable steps. */
module WorktreeStore {
  import opened Common

  datatype Key = Key(project: string, thread: string)
  type Path = string

  /** The part of a thread the protocol reads. */
  datatype Thread = Thread(worktree: bool, path: Path, pending: bool, ready: bool)

  /** An orphan record; `intent` is the deleteBranch flag of a creation intent. */
  datatype Record = Record(key: Key, intent: bool)

  /** What survives a crash. `created` remembers which worktrees this Store added. */
  datatype Disk = Disk(threads: map<Key, Thread>, orphans: map<Path, Record>, git: set<Path>, created: set<Path>)

  /** The two lists a Store instance reloads under the lock. */
  datatype Memory = Memory(threads: map<Key, Thread>, orphans: map<Path, Record>)

  /** The operation holding the lock and its next durable step. */
  datatype Flight =
    | Idle
    | CreateIntent(key: Key, thread: Thread)     // save the creation intent
    | CreateAdd(key: Key, thread: Thread)        // git worktree add
    | CreateSetup(key: Key, thread: Thread)      // directories and setup script
    | CreateSave(key: Key, thread: Thread)       // save projects.json with the thread
    | CreateUndo(key: Key, thread: Thread)       // forced removal after a failure
    | CreateClear(key: Key, thread: Thread)      // drop the creation intent
    | DeleteRemember(keys: seq<Key>)             // save the orphan records
    | DeleteSave(keys: seq<Key>)                 // save projects.json without the threads
    | MarkSave(key: Key)
    | CommitSave(key: Key)
    | FinalReady(key: Key)
    | FinalRemove(key: Key)
    | FinalSave(key: Key)
    | RecoverReady(ready: set<Key>, removed: set<Key>)
    | RecoverSave(removed: set<Key>)
    | RecoverIntents(todo: set<Path>, drop: set<Path>)
    | RecoverClear(drop: set<Path>)
    | Sweep(todo: set<Path>, records: map<Path, Record>, changed: bool)
    | SweepSave(records: map<Path, Record>)

  datatype State = State(disk: Disk, mem: Memory, flight: Flight)

  datatype Verdict = Keep | Prune | Remove(ok: bool, gone: bool)

  datatype Event =
    | StartCreate(key: Key, thread: Thread)
    | StartDelete(keys: seq<Key>)
    | StartMark(key: Key)
    | StartCommit(key: Key)
    | StartFinalize(key: Key)
    | StartRecover
    | StartSweep(discovered: map<Path, Record>)
    | SaveOrphans(outcome: SaveOutcome)
    | SaveProjects(outcome: SaveOutcome)
    | GitAdd(ok: bool, left: bool)                     // a failed add may leave a worktree behind
    | Setup(ok: bool)
    | ForceRemove(ok: bool, gone: bool)                // a failed removal may already have removed it
    | RecoverThread(key: Key, ok: bool, gone: bool)
    | RecoverIntent(path: Path, ok: bool, gone: bool)
    | SweepOne(path: Path, verdict: Verdict)
    | NextStage
    | Crash

  // -------------------------------------------------------------- helper functions

  predicate Owns(threads: map<Key, Thread>, path: Path) {
    exists k :: k in threads && threads[k].worktree && threads[k].path == path
  }

  /** The active check of recovery and cleanup: by path or by thread identity. */
  predicate Active(threads: map<Key, Thread>, path: Path, r: Record) {
    Owns(threads, path) || (r.key in threads && threads[r.key].worktree)
  }

  /** Thread ids and therefore worktree paths are random and never reused. */
  predicate Fresh(d: Disk, key: Key, path: Path) {
    && key !in d.threads
    && (forall p :: p in d.orphans ==> d.orphans[p].key != key)
    && path !in d.git && path !in d.created && path !in d.orphans && !Owns(d.threads, path)
  }

  /** rememberOrphanedWorktree for each deleted thread in turn. */
  function RememberAll(orphans: map<Path, Record>, threads: map<Key, Thread>, keys: seq<Key>): map<Path, Record> {
    if keys == [] then orphans
    else
      var rest := RememberAll(orphans, threads, keys[..|keys| - 1]);
      var k := keys[|keys| - 1];
      if k in threads && threads[k].worktree then rest[threads[k].path := Record(k, false)] else rest
  }

  function WithoutIntent(orphans: map<Path, Record>, key: Key, path: Path): map<Path, Record> {
    if path in orphans && orphans[path] == Record(key, true) then orphans - {path} else orphans
  }

  function KeySet(keys: seq<Key>): set<Key> {
    set k | k in keys
  }

  /** The worktrees Git lists that look managed and belong to nobody. */
  predicate Discoverable(d: Disk, discovered: map<Path, Record>) {
    forall p :: p in discovered ==>
      p in d.git && p !in d.orphans && !discovered[p].intent && !Active(d.threads, p, discovered[p])
  }

  predicate IsReady(t: Thread) {
    t.pending && t.ready
  }

  // ------------------------------------------------------------------------- steps

  function SaveThreads(s: State, threads: map<Key, Thread>, outcome: SaveOutcome, next: Flight, failed: Flight): State {
    if outcome.Visible() then
      s.(disk := s.disk.(threads := threads), mem := s.mem.(threads := threads),
         flight := if outcome.Published? then next else Idle)
    else s.(flight := failed)
  }

  function SaveRecords(s: State, orphans: map<Path, Record>, outcome: SaveOutcome, next: Flight): State {
    var d := if outcome.Visible() then s.disk.(orphans := orphans) else s.disk;
    if outcome.Published? then State(d, s.mem.(orphans := orphans), next) else State(d, s.mem, Idle)
  }

  function Removed(s: State, path: Path, ok: bool, gone: bool): State {
    if ok || gone then s.(disk := s.disk.(git := s.disk.git - {path})) else s
  }

  function Begin(s: State, e: Event): State {
    var t := s.(mem := Memory(s.disk.threads, s.disk.orphans));
    match e
    case StartCreate(key, thread) =>
      if !Fresh(s.disk, key, thread.path) || thread.ready then s
      else t.(flight := if thread.worktree then CreateIntent(key, thread) else CreateSave(key, thread))
    case StartDelete(keys) =>
      if exists k :: k in keys && (k !in s.disk.threads || s.disk.threads[k].pending) then t
      else if exists k :: k in keys && s.disk.threads[k].worktree then
        t.(mem := t.mem.(orphans := RememberAll(s.disk.orphans, s.disk.threads, keys)), flight := DeleteRemember(keys))
      else t.(flight := DeleteSave(keys))
    case StartMark(key) =>
      if key !in s.disk.threads || s.disk.threads[key].pending then t else t.(flight := MarkSave(key))
    case StartCommit(key) =>
      if key !in s.disk.threads || !s.disk.threads[key].pending || s.disk.threads[key].ready then t
      else t.(flight := CommitSave(key))
    case StartFinalize(key) =>
      if key !in s.disk.threads || !s.disk.threads[key].pending then t
      else if !s.disk.threads[key].ready then t.(flight := FinalReady(key))
      else t.(flight := if s.disk.threads[key].worktree then FinalRemove(key) else FinalSave(key))
    case StartRecover => t.(flight := RecoverReady(set k | k in s.disk.threads && IsReady(s.disk.threads[k]), {}))
    case StartSweep(discovered) =>
      if !Discoverable(s.disk, discovered) then s
      else
        var kept := map p | p in s.disk.orphans && !Active(s.disk.threads, p, s.disk.orphans[p]) :: s.disk.orphans[p];
        var records := kept + discovered;
        t.(flight := Sweep(records.Keys, records, discovered != map[] || kept != s.disk.orphans))
    case _ => s
  }

  function Create(s: State, e: Event): State {
    match s.flight
    case CreateIntent(key, thread) =>
      if e.SaveOrphans? then
        SaveRecords(s, s.mem.orphans[thread.path := Record(key, true)], e.outcome, CreateAdd(key, thread))
      else s
    case CreateAdd(key, thread) =>
      if !e.GitAdd? then s
      else
        var d := if e.ok || e.left
          then s.disk.(git := s.disk.git + {thread.path}, created := s.disk.created + {thread.path}) else s.disk;
        s.(disk := d, flight := if e.ok then CreateSetup(key, thread) else CreateUndo(key, thread))
    case CreateSetup(key, thread) =>
      if e.Setup? then s.(flight := if e.ok then CreateSave(key, thread) else CreateUndo(key, thread)) else s
    case CreateSave(key, thread) =>
      if !e.SaveProjects? then s
      else SaveThreads(s, s.mem.threads[key := thread], e.outcome,
                       if thread.worktree then CreateClear(key, thread) else Idle,
                       if thread.worktree then CreateUndo(key, thread) else Idle)
    case CreateUndo(key, thread) =>
      if !e.ForceRemove? then s
      else Removed(s, thread.path, e.ok, e.gone).(flight := if e.ok then CreateClear(key, thread) else Idle)
    case CreateClear(key, thread) =>
      if !e.SaveOrphans? then s
      else
        var kept := WithoutIntent(s.mem.orphans, key, thread.path);
        if kept == s.mem.orphans then s.(flight := Idle) else SaveRecords(s, kept, e.outcome, Idle)
    case _ => s
  }

  function DeleteOrFlag(s: State, e: Event): State {
    match s.flight
    case DeleteRemember(keys) =>
      if e.SaveOrphans? then SaveRecords(s, s.mem.orphans, e.outcome, DeleteSave(keys)) else s
    case DeleteSave(keys) =>
      if e.SaveProjects? then SaveThreads(s, s.mem.threads - KeySet(keys), e.outcome, Idle, Idle) else s
    case MarkSave(key) =>
      if e.SaveProjects? && key in s.mem.threads then
        SaveThreads(s, s.mem.threads[key := s.mem.threads[key].(pending := true, ready := false)], e.outcome, Idle,
                    Idle)
      else s
    case CommitSave(key) =>
      if e.SaveProjects? && key in s.mem.threads then
        SaveThreads(s, s.mem.threads[key := s.mem.threads[key].(pending := false, ready := false)], e.outcome, Idle,
                    Idle)
      else s
    case FinalReady(key) =>
      if e.SaveProjects? && key in s.mem.threads then
        SaveThreads(s, s.mem.threads[key := s.mem.threads[key].(ready := true)], e.outcome,
                    if s.mem.threads[key].worktree then FinalRemove(key) else FinalSave(key), Idle)
      else s
    case FinalRemove(key) =>
      if e.ForceRemove? && key in s.mem.threads then
        Removed(s, s.mem.threads[key].path, e.ok, e.gone).(flight := if e.ok then FinalSave(key) else Idle)
      else s
    case FinalSave(key) =>
      if e.SaveProjects? then SaveThreads(s, s.mem.threads - {key}, e.outcome, Idle, Idle) else s
    case _ => s
  }

  function Recover(s: State, e: Event): State {
    match s.flight
    case RecoverReady(todo, removed) =>
      if e.RecoverThread? && e.key in todo && e.key in s.mem.threads then
        var th := s.mem.threads[e.key];
        if !th.worktree then s.(flight := RecoverReady(todo - {e.key}, removed + {e.key}))
        else Removed(s, th.path, e.ok, e.gone)
               .(flight := if e.ok then RecoverReady(todo - {e.key}, removed + {e.key}) else Idle)
      else if e.NextStage? && todo == {}
      then s.(flight := if removed == {} then FirstIntents(s) else RecoverSave(removed))
      else s
    case RecoverSave(removed) =>
      if !e.SaveProjects? then s
      else
        var t := SaveThreads(s, s.mem.threads - removed, e.outcome, Idle, Idle);
        if e.outcome.Published? then t.(flight := FirstIntents(t)) else t
    case RecoverIntents(todo, drop) =>
      if e.RecoverIntent? && e.path in todo && e.path in s.mem.orphans then
        if Active(s.mem.threads, e.path, s.mem.orphans[e.path]) then
          s.(flight := RecoverIntents(todo - {e.path}, drop + {e.path}))
        else Removed(s, e.path, e.ok, e.gone)
               .(flight := if e.ok then RecoverIntents(todo - {e.path}, drop + {e.path}) else Idle)
      else if e.NextStage? && todo == {} then s.(flight := if drop == {} then Idle else RecoverClear(drop))
      else s
    case RecoverClear(drop) =>
      if e.SaveOrphans? then SaveRecords(s, s.mem.orphans - drop, e.outcome, Idle) else s
    case _ => s
  }

  function FirstIntents(s: State): Flight {
    RecoverIntents(set p | p in s.mem.orphans && s.mem.orphans[p].intent, {})
  }

  function Clean(s: State, e: Event): State {
    match s.flight
    case Sweep(todo, records, changed) =>
      if e.SweepOne? && e.path in todo && e.path in records then
        match e.verdict {
          case Keep => s.(flight := Sweep(todo - {e.path}, records, changed))
          case Prune =>
            if e.path in s.disk.git then s.(flight := Sweep(todo - {e.path}, records, changed))
            else s.(flight := Sweep(todo - {e.path}, records - {e.path}, true))
          case Remove(ok, gone) =>
            Removed(s, e.path, ok, gone).(flight :=
              if ok then Sweep(todo - {e.path}, records - {e.path}, true) else Sweep(todo - {e.path}, records, changed))
        }
      else if e.NextStage? && todo == {} then
        s.(mem := s.mem.(orphans := records), flight := if changed then SweepSave(records) else Idle)
      else s
    case SweepSave(records) => if e.SaveOrphans? then SaveRecords(s, records, e.outcome, Idle) else s
    case _ => s
  }

  function Apply(s: State, e: Event): State {
    if e.Crash? then State(s.disk, Memory(s.disk.threads, s.disk.orphans), Idle)
    else
      match s.flight
      case Idle => Begin(s, e)
      case CreateIntent(_, _) => Create(s, e)
      case CreateAdd(_, _) => Create(s, e)
      case CreateSetup(_, _) => Create(s, e)
      case CreateSave(_, _) => Create(s, e)
      case CreateUndo(_, _) => Create(s, e)
      case CreateClear(_, _) => Create(s, e)
      case RecoverReady(_, _) => Recover(s, e)
      case RecoverSave(_) => Recover(s, e)
      case RecoverIntents(_, _) => Recover(s, e)
      case RecoverClear(_) => Recover(s, e)
      case Sweep(_, _, _) => Clean(s, e)
      case SweepSave(_) => Clean(s, e)
      case _ => DeleteOrFlag(s, e)
  }

  function Run(s: State, events: seq<Event>): State {
    if events == [] then s
    else Apply(Run(s, events[..|events| - 1]), events[|events| - 1])
  }

  function Empty(): State {
    State(Disk(map[], map[], {}, {}), Memory(map[], map[]), Idle)
  }

  // -------------------------------------------------------------------- invariants

  /** Every existing worktree the Store created is owned by a persisted thread or named
      by a persisted orphan record. */
  ghost predicate NoLeak(d: Disk) {
    forall p :: p in d.created && p in d.git ==> Owns(d.threads, p) || p in d.orphans
  }

  predicate OnePathEach(threads: map<Key, Thread>) {
    forall j, k | j in threads && k in threads && threads[j].worktree && threads[k].worktree ::
      threads[j].path == threads[k].path ==> j == k
  }

  ghost predicate DiskOK(d: Disk) {
    && NoLeak(d)
    && OnePathEach(d.threads)
    && (forall p :: p in d.orphans && d.orphans[p].key in d.threads && d.threads[d.orphans[p].key].worktree ==>
          d.threads[d.orphans[p].key].path == p)
    && (forall k :: k in d.threads && d.threads[k].ready ==> d.threads[k].pending)
  }

  /** A thread being created: not persisted, its path nobody's, its intent on disk. */
  ghost predicate Unborn(d: Disk, key: Key, thread: Thread) {
    && key !in d.threads && !Owns(d.threads, thread.path) && !thread.ready
    && (forall p :: p in d.orphans && d.orphans[p].key == key ==> p == thread.path)
  }

  ghost predicate Intended(d: Disk, key: Key, thread: Thread) {
    thread.worktree && thread.path in d.orphans && d.orphans[thread.path] == Record(key, true)
  }

  ghost predicate SameThreads(s: State) {
    s.mem.threads == s.disk.threads
  }

  ghost predicate Same(s: State) {
    s.mem.threads == s.disk.threads && s.mem.orphans == s.disk.orphans
  }

  /** What each pending durable step relies on. */
  ghost predicate FlightOK(s: State) {
    var d := s.disk;
    SameThreads(s) &&
    match s.flight
    case Idle => true
    case CreateIntent(key, thread) =>
      Same(s) && Unborn(d, key, thread) && thread.worktree && thread.path !in d.git && thread.path !in d.orphans
    case CreateAdd(key, thread) => Same(s) && Unborn(d, key, thread) && Intended(d, key, thread)
    case CreateSetup(key, thread) => Same(s) && Unborn(d, key, thread) && Intended(d, key, thread)
    case CreateSave(key, thread) =>
      Same(s) && Unborn(d, key, thread) && (thread.worktree ==> Intended(d, key, thread))
    case CreateUndo(key, thread) => Same(s) && Unborn(d, key, thread) && Intended(d, key, thread)
    case CreateClear(key, thread) => Same(s) && (thread.path !in d.git || Owns(d.threads, thread.path))
    case DeleteRemember(keys) =>
      && (forall k :: k in keys ==> k in d.threads && !d.threads[k].pending)
      && s.mem.orphans == RememberAll(d.orphans, d.threads, keys)
    case DeleteSave(keys) =>
      && Same(s)
      && (forall k :: k in keys ==> k in d.threads && !d.threads[k].pending)
      && (forall k :: k in keys && d.threads[k].worktree ==> d.threads[k].path in d.orphans)
    case MarkSave(key) => Same(s) && key in d.threads && !d.threads[key].pending
    case CommitSave(key) => Same(s) && key in d.threads && d.threads[key].pending && !d.threads[key].ready
    case FinalReady(key) => Same(s) && key in d.threads && d.threads[key].pending && !d.threads[key].ready
    case FinalRemove(key) => Same(s) && key in d.threads && IsReady(d.threads[key]) && d.threads[key].worktree
    case FinalSave(key) =>
      Same(s) && key in d.threads && IsReady(d.threads[key])
      && (d.threads[key].worktree ==> d.threads[key].path !in d.git)
    case RecoverReady(ready, removed) =>
      && Same(s) && Gone(d, removed)
      && (forall k :: k in ready ==> k in d.threads && IsReady(d.threads[k]))
      && (forall k :: k in d.threads && IsReady(d.threads[k]) ==> k in ready + removed)
    case RecoverSave(removed) =>
      Same(s) && Gone(d, removed) && (forall k :: k in d.threads && IsReady(d.threads[k]) ==> k in removed)
    case RecoverIntents(todo, drop) =>
      && Same(s) && Droppable(d, drop) && NoneReady(d)
      && (forall p :: p in d.orphans && d.orphans[p].intent ==> p in todo + drop)
    case RecoverClear(drop) =>
      && Same(s) && Droppable(d, drop) && NoneReady(d)
      && (forall p :: p in d.orphans && d.orphans[p].intent ==> p in drop)
    case Sweep(todo, records, _) =>
      && Same(s) && todo <= records.Keys && Complete(d, records)
      && (forall p :: p in todo ==> !Owns(d.threads, p))
    case SweepSave(records) => Complete(d, records)
  }

  ghost predicate NoneReady(d: Disk) {
    forall k :: k in d.threads ==> !IsReady(d.threads[k])
  }

  /** Ready threads whose worktrees no longer exist. */
  ghost predicate Gone(d: Disk, removed: set<Key>) {
    forall k :: k in removed ==>
      k in d.threads && IsReady(d.threads[k]) && (d.threads[k].worktree ==> d.threads[k].path !in d.git)
  }

  /** Records that may be forgotten: no worktree, or a worktree its thread owns. */
  ghost predicate Droppable(d: Disk, drop: set<Path>) {
    forall p :: p in drop ==> p !in d.git || Owns(d.threads, p)
  }

  /** Records that would still name every unowned created worktree. */
  ghost predicate Complete(d: Disk, records: map<Path, Record>) {
    && (forall p :: p in d.created && p in d.git ==> Owns(d.threads, p) || p in records)
    && (forall p :: p in records && records[p].key in d.threads && d.threads[records[p].key].worktree ==>
          d.threads[records[p].key].path == p)
  }

  ghost predicate Inv(s: State) {
    DiskOK(s.disk) && FlightOK(s)
  }

  // ------------------------------------------------------------- step preservation

  lemma ActiveOwns(d: Disk, p: Path, r: Record)
    requires DiskOK(d) && p in d.orphans && d.orphans[p] == r && Active(d.threads, p, r)
    ensures Owns(d.threads, p)
  {
    if r.key in d.threads && d.threads[r.key].worktree {
      assert d.threads[r.key].path == p;
    }
  }

  lemma RemovalKeepsDisk(d: Disk, p: Path)
    requires DiskOK(d)
    ensures DiskOK(d.(git := d.git - {p}))
  {
  }

  lemma {:induction false} RememberAllAdds(orphans: map<Path, Record>, threads: map<Key, Thread>, keys: seq<Key>)
    requires OnePathEach(threads)
    requires forall p :: p in orphans && orphans[p].key in threads && threads[orphans[p].key].worktree ==>
               threads[orphans[p].key].path == p
    ensures var r := RememberAll(orphans, threads, keys);
      && orphans.Keys <= r.Keys
      && (forall p :: p in r && r[p].key in threads && threads[r[p].key].worktree ==> threads[r[p].key].path == p)
      && (forall k :: k in keys && k in threads && threads[k].worktree ==> threads[k].path in r)
  {
    if keys != [] {
      RememberAllAdds(orphans, threads, keys[..|keys| - 1]);
      assert forall k :: k in keys ==> k == keys[|keys| - 1] || k in keys[..|keys| - 1];
    }
  }

  lemma SweepBegins(s: State, discovered: map<Path, Record>)
    requires Inv(s) && s.flight.Idle? && Discoverable(s.disk, discovered)
    ensures Inv(Begin(s, StartSweep(discovered)))
  {
    var d := s.disk;
    var kept := map p | p in d.orphans && !Active(d.threads, p, d.orphans[p]) :: d.orphans[p];
    var records := kept + discovered;
    forall p | p in d.created && p in d.git ensures Owns(d.threads, p) || p in records {
      if p in d.orphans && Active(d.threads, p, d.orphans[p]) {
        ActiveOwns(d, p, d.orphans[p]);
      }
    }
    forall p | p in records
      ensures !Owns(d.threads, p)
      ensures records[p].key in d.threads && d.threads[records[p].key].worktree ==> d.threads[records[p].key].path == p
    {
      assert !Active(d.threads, p, records[p]);
    }
    hide Active, Owns;
  }

  lemma CreateBegins(s: State, key: Key, thread: Thread)
    requires Inv(s) && s.flight.Idle?
    ensures Inv(Begin(s, StartCreate(key, thread)))
  {
    hide NoLeak, OnePathEach;
  }

  lemma DeleteBegins(s: State, keys: seq<Key>)
    requires Inv(s) && s.flight.Idle?
    ensures Inv(Begin(s, StartDelete(keys)))
  {
    hide DiskOK;
  }

  lemma FlagBegins(s: State, e: Event)
    requires Inv(s) && s.flight.Idle?
    requires e.StartMark? || e.StartCommit? || e.StartFinalize? || e.StartRecover?
    ensures Inv(Begin(s, e))
  {
    hide NoLeak, OnePathEach;
  }

  lemma BeginKeepsInv(s: State, e: Event)
    requires Inv(s) && s.flight.Idle?
    ensures Inv(Begin(s, e))
  {
    hide DiskOK, FlightOK, Fresh;
    match e
    case StartSweep(discovered) =>
      if Discoverable(s.disk, discovered) {
        SweepBegins(s, discovered);
      }
    case StartCreate(key, thread) => CreateBegins(s, key, thread);
    case StartDelete(keys) => DeleteBegins(s, keys);
    case StartMark(_) => FlagBegins(s, e);
    case StartCommit(_) => FlagBegins(s, e);
    case StartFinalize(_) => FlagBegins(s, e);
    case StartRecover => FlagBegins(s, e);
    case _ =>
  }

  lemma OwnsAfterAdd(threads: map<Key, Thread>, key: Key, thread: Thread, p: Path)
    requires key !in threads
    ensures Owns(threads[key := thread], p) <==> Owns(threads, p) || (thread.worktree && thread.path == p)
  {
    if Owns(threads, p) {
      var k :| k in threads && threads[k].worktree && threads[k].path == p;
      assert threads[key := thread][k] == threads[k];
    }
    if thread.worktree && thread.path == p {
      assert threads[key := thread][key] == thread;
    }
  }

  lemma OwnsAfterFlag(threads: map<Key, Thread>, key: Key, pending: bool, ready: bool, p: Path)
    requires key in threads
    ensures Owns(threads[key := threads[key].(pending := pending, ready := ready)], p) <==> Owns(threads, p)
  {
    var t := threads[key := threads[key].(pending := pending, ready := ready)];
    if Owns(threads, p) {
      var k :| k in threads && threads[k].worktree && threads[k].path == p;
      assert t[k].worktree && t[k].path == p;
    }
  }

  lemma OwnsAfterDrop(threads: map<Key, Thread>, gone: set<Key>, p: Path)
    ensures Owns(threads - gone, p) ==> Owns(threads, p)
    ensures Owns(threads, p) && !Owns(threads - gone, p) ==>
      exists k :: k in gone && k in threads && threads[k].worktree && threads[k].path == p
  {
    if Owns(threads, p) {
      var k :| k in threads && threads[k].worktree && threads[k].path == p;
      if k !in gone {
        assert (threads - gone)[k] == threads[k];
      }
    }
  }

  lemma BirthKeepsDisk(d: Disk, key: Key, thread: Thread)
    requires DiskOK(d) && Unborn(d, key, thread)
    ensures DiskOK(d.(threads := d.threads[key := thread]))
  {
    var threads := d.threads[key := thread];
    forall p ensures Owns(threads, p) <==> Owns(d.threads, p) || (thread.worktree && thread.path == p) {
      OwnsAfterAdd(d.threads, key, thread, p);
    }
    forall k | k in d.threads && d.threads[k].worktree ensures d.threads[k].path != thread.path {
      assert Owns(d.threads, d.threads[k].path);
    }
  }

  lemma FlagKeepsDisk(d: Disk, key: Key, pending: bool, ready: bool)
    requires DiskOK(d) && key in d.threads && (ready ==> pending)
    ensures var d' := d.(threads := d.threads[key := d.threads[key].(pending := pending, ready := ready)]);
      DiskOK(d') && forall p :: Owns(d'.threads, p) <==> Owns(d.threads, p)
  {
    forall p {
      OwnsAfterFlag(d.threads, key, pending, ready, p);
    }
  }

  /** Threads may leave projects.json once their worktrees are gone or recorded. */
  lemma DropKeepsDisk(d: Disk, gone: set<Key>)
    requires DiskOK(d)
    requires forall k :: k in gone && k in d.threads && d.threads[k].worktree ==>
      d.threads[k].path !in d.git || d.threads[k].path in d.orphans
    ensures DiskOK(d.(threads := d.threads - gone))
  {
    forall p {
      OwnsAfterDrop(d.threads, gone, p);
    }
  }

  lemma RecordsKeepDisk(d: Disk, orphans: map<Path, Record>)
    requires DiskOK(d) && Complete(d, orphans)
    ensures DiskOK(d.(orphans := orphans))
  {
  }

  lemma IntentKeepsInv(s: State, e: Event)
    requires Inv(s) && s.flight.CreateIntent?
    ensures Inv(Create(s, e))
  {
    RecordsKeepDisk(s.disk, s.disk.orphans[s.flight.thread.path := Record(s.flight.key, true)]);
    hide NoLeak, OnePathEach;
  }

  lemma AddKeepsInv(s: State, e: Event)
    requires Inv(s) && (s.flight.CreateAdd? || s.flight.CreateSetup?)
    ensures Inv(Create(s, e))
  {
    hide OnePathEach, Owns;
  }

  lemma SaveKeepsInv(s: State, e: Event)
    requires Inv(s) && s.flight.CreateSave?
    ensures Inv(Create(s, e))
  {
    BirthKeepsDisk(s.disk, s.flight.key, s.flight.thread);
    OwnsAfterAdd(s.disk.threads, s.flight.key, s.flight.thread, s.flight.thread.path);
    hide NoLeak, OnePathEach, DiskOK, Owns;
  }

  lemma UndoKeepsInv(s: State, e: Event)
    requires Inv(s) && s.flight.CreateUndo?
    ensures Inv(Create(s, e))
  {
    RemovalKeepsDisk(s.disk, s.flight.thread.path);
    hide DiskOK, Owns;
  }

  lemma ClearKeepsInv(s: State, e: Event)
    requires Inv(s) && s.flight.CreateClear?
    ensures Inv(Create(s, e))
  {
    RecordsKeepDisk(s.disk, WithoutIntent(s.disk.orphans, s.flight.key, s.flight.thread.path));
    hide DiskOK, Owns;
  }

  lemma CreateKeepsInv(s: State, e: Event)
    requires Inv(s)
    ensures Inv(Create(s, e))
  {
    hide DiskOK, FlightOK;
    match s.flight
    case CreateIntent(_, _) => IntentKeepsInv(s, e);
    case CreateAdd(_, _) => AddKeepsInv(s, e);
    case CreateSetup(_, _) => AddKeepsInv(s, e);
    case CreateSave(_, _) => SaveKeepsInv(s, e);
    case CreateUndo(_, _) => UndoKeepsInv(s, e);
    case CreateClear(_, _) => ClearKeepsInv(s, e);
    case _ =>
  }

  lemma RememberKeepsInv(s: State, e: Event)
    requires Inv(s) && s.flight.DeleteRemember?
    ensures Inv(DeleteOrFlag(s, e))
  {
    var d, keys := s.disk, s.flight.keys;
    RememberAllAdds(d.orphans, d.threads, keys);
    RecordsKeepDisk(d, RememberAll(d.orphans, d.threads, keys));
    hide DiskOK, RememberAll, Complete;
  }

  lemma DeletionKeepsInv(s: State, e: Event)
    requires Inv(s) && s.flight.DeleteSave?
    ensures Inv(DeleteOrFlag(s, e))
  {
    DropKeepsDisk(s.disk, KeySet(s.flight.keys));
    hide DiskOK;
  }

  lemma FlagKeepsInv(s: State, e: Event)
    requires Inv(s) && (s.flight.MarkSave? || s.flight.CommitSave? || s.flight.FinalReady?)
    ensures Inv(DeleteOrFlag(s, e))
  {
    var key := s.flight.key;
    FlagKeepsDisk(s.disk, key, true, false);
    FlagKeepsDisk(s.disk, key, false, false);
    FlagKeepsDisk(s.disk, key, true, true);
    hide DiskOK, Owns;
  }

  lemma FinalKeepsInv(s: State, e: Event)
    requires Inv(s) && (s.flight.FinalRemove? || s.flight.FinalSave?)
    ensures Inv(DeleteOrFlag(s, e))
  {
    var key := s.flight.key;
    RemovalKeepsDisk(s.disk, s.disk.threads[key].path);
    if s.flight.FinalSave? {
      DropKeepsDisk(s.disk, {key});
    }
    hide DiskOK, Owns;
  }

  lemma DeleteOrFlagKeepsInv(s: State, e: Event)
    requires Inv(s)
    ensures Inv(DeleteOrFlag(s, e))
  {
    hide DiskOK, FlightOK;
    match s.flight
    case DeleteRemember(_) => RememberKeepsInv(s, e);
    case DeleteSave(_) => DeletionKeepsInv(s, e);
    case MarkSave(_) => FlagKeepsInv(s, e);
    case CommitSave(_) => FlagKeepsInv(s, e);
    case FinalReady(_) => FlagKeepsInv(s, e);
    case FinalRemove(_) => FinalKeepsInv(s, e);
    case FinalSave(_) => FinalKeepsInv(s, e);
    case _ =>
  }

  lemma RecoverReadyKeepsInv(s: State, e: Event)
    requires Inv(s) && s.flight.RecoverReady?
    ensures Inv(Recover(s, e))
  {
    if e.RecoverThread? && e.key in s.flight.ready {
      RemovalKeepsDisk(s.disk, s.disk.threads[e.key].path);
    }
    hide DiskOK, Owns;
  }

  lemma RecoverSaveKeepsInv(s: State, e: Event)
    requires Inv(s) && s.flight.RecoverSave?
    ensures Inv(Recover(s, e))
  {
    DropKeepsDisk(s.disk, s.flight.removed);
    hide DiskOK, Owns;
  }

  lemma RecoverIntentsKeepsInv(s: State, e: Event)
    requires Inv(s) && s.flight.RecoverIntents?
    ensures Inv(Recover(s, e))
  {
    var d := s.disk;
    if e.RecoverIntent? && e.path in d.orphans {
      RemovalKeepsDisk(d, e.path);
      if Active(d.threads, e.path, d.orphans[e.path]) {
        ActiveOwns(d, e.path, d.orphans[e.path]);
      }
    }
    hide DiskOK, Owns, Active;
  }

  lemma RecoverClearKeepsInv(s: State, e: Event)
    requires Inv(s) && s.flight.RecoverClear?
    ensures Inv(Recover(s, e))
  {
    RecordsKeepDisk(s.disk, s.disk.orphans - s.flight.drop);
    hide DiskOK, Owns;
  }

  lemma RecoverKeepsInv(s: State, e: Event)
    requires Inv(s)
    ensures Inv(Recover(s, e))
  {
    hide DiskOK, FlightOK, Active, FirstIntents;
    match s.flight
    case RecoverReady(_, _) => RecoverReadyKeepsInv(s, e);
    case RecoverSave(_) => RecoverSaveKeepsInv(s, e);
    case RecoverIntents(_, _) => RecoverIntentsKeepsInv(s, e);
    case RecoverClear(_) => RecoverClearKeepsInv(s, e);
    case _ =>
  }

  /** Forgetting a record that is undecided no more leaves the others complete, once its
      worktree is gone. */
  lemma ForgetKeepsComplete(d: Disk, records: map<Path, Record>, p: Path)
    requires Complete(d, records)
    ensures Complete(d.(git := d.git - {p}), records - {p}) && Complete(d.(git := d.git - {p}), records)
    ensures p !in d.git ==> Complete(d, records - {p})
  {
    hide Owns;
  }

  lemma SweepKeepsInv(s: State, e: Event)
    requires Inv(s) && s.flight.Sweep?
    ensures Inv(Clean(s, e))
  {
    if e.SweepOne? {
      RemovalKeepsDisk(s.disk, e.path);
      ForgetKeepsComplete(s.disk, s.flight.records, e.path);
    }
    hide DiskOK, Owns, Complete;
  }

  lemma SweepSaveKeepsInv(s: State, e: Event)
    requires Inv(s) && s.flight.SweepSave?
    ensures Inv(Clean(s, e))
  {
    RecordsKeepDisk(s.disk, s.flight.records);
    hide DiskOK, Owns, Complete;
  }

  lemma CleanKeepsInv(s: State, e: Event)
    requires Inv(s)
    ensures Inv(Clean(s, e))
  {
    hide DiskOK, FlightOK;
    match s.flight
    case Sweep(_, _, _) => SweepKeepsInv(s, e);
    case SweepSave(_) => SweepSaveKeepsInv(s, e);
    case _ =>
  }

  lemma {:induction false} RunKeepsInv(events: seq<Event>)
    ensures Inv(Run(Empty(), events))
  {
    if events != [] {
      var s, e := Run(Empty(), events[..|events| - 1]), events[|events| - 1];
      RunKeepsInv(events[..|events| - 1]);
      StepKeepsInv(s, e);
    }
  }

  lemma StepKeepsInv(s: State, e: Event)
    requires Inv(s)
    ensures Inv(Apply(s, e))
  {
    hide DiskOK, FlightOK, Begin, Create, DeleteOrFlag, Recover, Clean;
    if e.Crash? {
      CrashKeepsInv(s);
    } else {
      if s.flight.Idle? {
        BeginKeepsInv(s, e);
      }
      CreateKeepsInv(s, e);
      DeleteOrFlagKeepsInv(s, e);
      RecoverKeepsInv(s, e);
      CleanKeepsInv(s, e);
    }
  }

  lemma CrashKeepsInv(s: State)
    requires Inv(s)
    ensures Inv(Apply(s, Crash))
  {
    hide DiskOK, Begin, Create, DeleteOrFlag, Recover, Clean;
  }

  // --------------------------------------------------------------- main statements

  /** No leaked worktree, in every reachable state and so after a crash anywhere. */
  lemma NoLeakedWorktree(events: seq<Event>)
    ensures NoLeak(Run(Empty(), events).disk)
  {
    RunKeepsInv(events);
  }

  /** A worktree may be removed only when no persisted thread still lives in it. */
  ghost predicate Removable(d: Disk, p: Path) {
    forall k :: k in d.threads && d.threads[k].worktree && d.threads[k].path == p ==> IsReady(d.threads[k])
  }

  lemma CreateRemoves(s: State, e: Event, p: Path)
    requires Inv(s) && p in s.disk.git && p !in Create(s, e).disk.git
    ensures Removable(s.disk, p)
  {
    assert !Owns(s.disk.threads, p);
  }

  lemma FinalRemoves(s: State, e: Event, p: Path)
    requires Inv(s) && p in s.disk.git && p !in DeleteOrFlag(s, e).disk.git
    ensures Removable(s.disk, p)
  {
  }

  lemma RecoveryRemoves(s: State, e: Event, p: Path)
    requires Inv(s) && p in s.disk.git && p !in Recover(s, e).disk.git
    ensures Removable(s.disk, p)
  {
    if s.flight.RecoverIntents? {
      assert !Owns(s.disk.threads, p);
    }
  }

  lemma SweepRemoves(s: State, e: Event, p: Path)
    requires Inv(s) && p in s.disk.git && p !in Clean(s, e).disk.git
    ensures Removable(s.disk, p)
  {
    assert !Owns(s.disk.threads, p);
  }

  /** No step of any operation removes a worktree that a persisted thread owns, unless
      that thread's rollback had already been persisted as ready for cleanup. */
  lemma RemovalSparesLiveThreads(events: seq<Event>, e: Event, p: Path)
    requires var s := Run(Empty(), events); p in s.disk.git && p !in Apply(s, e).disk.git
    ensures Removable(Run(Empty(), events).disk, p)
  {
    RunKeepsInv(events);
    var s := Run(Empty(), events);
    hide Run, Inv, Create, DeleteOrFlag, Recover, Clean, Removable;
    if p !in Create(s, e).disk.git {
      CreateRemoves(s, e, p);
    } else if p !in DeleteOrFlag(s, e).disk.git {
      FinalRemoves(s, e, p);
    } else if p !in Recover(s, e).disk.git {
      RecoveryRemoves(s, e, p);
    } else if p !in Clean(s, e).disk.git {
      SweepRemoves(s, e, p);
    }
  }

  datatype Stage = Absent | Running | Pending | Ready

  function StageOf(d: Disk, k: Key): Stage {
    if k !in d.threads then Absent
    else if d.threads[k].ready then Ready
    else if d.threads[k].pending then Pending
    else Running
  }

  /** The persisted life of a thread: created running or pending; running may become
      pending or be deleted; pending may be committed or become ready; ready can only
      disappear, it is never committed. */
  predicate Moves(before: Stage, after: Stage) {
    || before == after
    || (before.Absent? && (after.Running? || after.Pending?))
    || (before.Running? && (after.Pending? || after.Absent?))
    || (before.Pending? && (after.Running? || after.Ready?))
    || (before.Ready? && after.Absent?)
  }

  lemma StagesMoveOnly(events: seq<Event>, e: Event, k: Key)
    ensures var s := Run(Empty(), events);
      && Moves(StageOf(s.disk, k), StageOf(Apply(s, e).disk, k))
      && (StageOf(s.disk, k).Ready? ==> s.disk.threads[k].pending)
      && (StageOf(s.disk, k).Ready? && StageOf(Apply(s, e).disk, k).Absent? && s.disk.threads[k].worktree ==>
            s.disk.threads[k].path !in s.disk.git)
  {
    hide Run, Begin, Create, DeleteOrFlag, Recover, Clean, FlightOK, StageOf, Moves;
    RunKeepsInv(events);
    var s := Run(Empty(), events);
    OthersKeepThreads(s, e);
    SameStage(s.disk, Begin(s, e).disk, k);
    SameStage(s.disk, Clean(s, e).disk, k);
    SameStage(s.disk, s.disk, k);
    CreateStages(s, e, k);
    DeleteOrFlagStages(s, e, k);
    RecoverStages(s, e, k);
    ReadyIsPending(s.disk, k);
  }

  lemma OthersKeepThreads(s: State, e: Event)
    ensures Begin(s, e).disk == s.disk && Clean(s, e).disk.threads == s.disk.threads
  {
  }

  lemma ReadyIsPending(d: Disk, k: Key)
    requires DiskOK(d)
    ensures StageOf(d, k).Ready? ==> k in d.threads && d.threads[k].pending
  {
  }

  lemma SameStage(d: Disk, d': Disk, k: Key)
    requires d.threads == d'.threads
    ensures GoodStage(d, d', k) && StageOf(d', k) == StageOf(d, k)
  {
  }

  /** The allowed moves, and a ready thread leaves only after its worktree is gone. */
  ghost predicate GoodStage(d: Disk, d': Disk, k: Key) {
    && Moves(StageOf(d, k), StageOf(d', k))
    && (StageOf(d, k).Ready? && StageOf(d', k).Absent? && d.threads[k].worktree ==> d.threads[k].path !in d.git)
  }

  lemma CreateStages(s: State, e: Event, k: Key)
    requires Inv(s)
    ensures GoodStage(s.disk, Create(s, e).disk, k)
  {
  }

  lemma DeleteOrFlagStages(s: State, e: Event, k: Key)
    requires Inv(s)
    ensures GoodStage(s.disk, DeleteOrFlag(s, e).disk, k)
  {
    if s.flight.DeleteSave? {
      assert k in KeySet(s.flight.keys) ==> k in s.flight.keys;
    }
  }

  lemma RecoverStages(s: State, e: Event, k: Key)
    requires Inv(s)
    ensures GoodStage(s.disk, Recover(s, e).disk, k)
  {
  }

  /** On return from every operation the instance's memory is what projects.json holds,
      whichever of the three ways each save ended. */
  lemma MemoryMatchesFile(events: seq<Event>)
    ensures var s := Run(Empty(), events); s.flight.Idle? ==> s.mem.threads == s.disk.threads
  {
    RunKeepsInv(events);
  }

  /** When startup recovery runs to its end, no thread is left ready for cleanup and no
      creation intent is left on disk. */
  lemma RecoveryFinishes(events: seq<Event>, e: Event)
    requires var s := Run(Empty(), events);
      || (s.flight == RecoverIntents({}, {}) && e == NextStage)
      || (s.flight.RecoverClear? && e.SaveOrphans? && e.outcome.Visible())
    ensures var t := Apply(Run(Empty(), events), e);
      && t.flight.Idle? && NoneReady(t.disk)
      && (forall p :: p in t.disk.orphans ==> !t.disk.orphans[p].intent)
  {
    RunKeepsInv(events);
  }

  // -------------------------------------------------------------- the Store object

  /** The replies of Git and the file system to one thread creation. */
  datatype CreateIO = CreateIO(
    intent: SaveOutcome, add: bool, addLeft: bool, setup: bool, save: SaveOutcome,
    remove: bool, removeGone: bool, clear: SaveOutcome)

  /** The uninterrupted machine run of one AddThreadWithOptions call. */
  ghost function CreateAlone(s: State, key: Key, thread: Thread, io: CreateIO): State {
    UndoAlone(
      Apply(Apply(Apply(Apply(Apply(s, StartCreate(key, thread)), SaveOrphans(io.intent)),
                        GitAdd(io.add, io.addLeft)), Setup(io.setup)), SaveProjects(io.save)), io)
  }

  ghost function UndoAlone(s: State, io: CreateIO): State {
    Apply(Apply(s, ForceRemove(io.remove, io.removeGone)), SaveOrphans(io.clear))
  }

  /** Events that do not concern the step in flight change nothing. */
  lemma Skips(s: State, e: Event)
    requires !e.Crash?
    requires s.flight.Idle? ==>
      e.SaveOrphans? || e.SaveProjects? || e.GitAdd? || e.Setup? || e.ForceRemove? || e.NextStage? || e.RecoverThread?
      || e.RecoverIntent?
    requires s.flight.Idle? || (s.flight.CreateUndo? && (e.Setup? || e.SaveProjects?))
          || (s.flight.CreateClear? && e.ForceRemove?)
          || (s.flight.CreateSave? && (e.SaveOrphans? || e.GitAdd? || e.Setup?))
          || (s.flight.FinalSave? && e.ForceRemove?) || (s.flight.FinalRemove? && e.SaveProjects?)
          || (s.flight.DeleteSave? && e.SaveOrphans?)
    ensures Apply(s, e) == s
  {
  }

  class Store {
    // files and Git, shared by every Store instance
    var projectsFile: map<Key, Thread>
    var orphansFile: map<Path, Record>
    var git: set<Path>
    ghost var created: set<Path>
    // this instance's memory
    var projects: map<Key, Thread>
    var orphanedWorktrees: map<Path, Record>

    ghost function At(flight: Flight): State
      reads this
    {
      State(Disk(projectsFile, orphansFile, git, created), Memory(projects, orphanedWorktrees), flight)
    }

    constructor ()
      ensures At(Idle) == Empty()
    {
      projectsFile, orphansFile, git, created := map[], map[], {}, {};
      projects, orphanedWorktrees := map[], map[];
    }

    method Reload()
      modifies this`projects, this`orphanedWorktrees
      ensures projects == projectsFile && orphanedWorktrees == orphansFile
    {
      projects, orphanedWorktrees := projectsFile, orphansFile;
    }

    /** The atomic file write; on a failure before the rename the file is untouched. */
    method SaveProjectsFile(outcome: SaveOutcome)
      modifies this`projectsFile
      ensures projectsFile == if outcome.Visible() then projects else old(projectsFile)
    {
      if outcome.Visible() {
        projectsFile := projects;
      }
    }

    method SaveOrphansFile(outcome: SaveOutcome)
      modifies this`orphansFile
      ensures orphansFile == if outcome.Visible() then orphanedWorktrees else old(orphansFile)
    {
      if outcome.Visible() {
        orphansFile := orphanedWorktrees;
      }
    }

    /** Saves the list with one thread's flags changed; the thread is put back when nothing
        was published, and memory then equals the file again. */
    method SaveFlags(key: Key, pending: bool, ready: bool, save: SaveOutcome)
      requires key in projects && projects == projectsFile
      modifies this`projects, this`projectsFile
      ensures projects == projectsFile
      ensures projectsFile ==
        if save.Visible() then old(projects)[key := old(projects)[key].(pending := pending, ready := ready)]
        else old(projectsFile)
    {
      var thread := projects[key];
      projects := projects[key := thread.(pending := pending, ready := ready)];
      SaveProjectsFile(save);
      if !save.Visible() {
        projects := projects[key := thread];
        assert projects == projectsFile;
      }
    }

    /** Saves the list without the given threads, with the same undo. */
    method SaveWithout(keys: set<Key>, save: SaveOutcome)
      requires projects == projectsFile
      modifies this`projects, this`projectsFile
      ensures projects == projectsFile == if save.Visible() then old(projectsFile) - keys else old(projectsFile)
    {
      var previous := projects;
      projects := projects - keys;
      SaveProjectsFile(save);
      if !save.Visible() {
        projects := previous;
      }
    }

    /** The record of a worktree replaces any earlier one of the same path. */
    method RememberOrphanedWorktree(key: Key, thread: Thread)
      modifies this`orphanedWorktrees
      ensures orphanedWorktrees ==
        if thread.worktree then old(orphanedWorktrees)[thread.path := Record(key, false)] else old(orphanedWorktrees)
    {
      if thread.worktree {
        orphanedWorktrees := orphanedWorktrees[thread.path := Record(key, false)];
      }
    }

    /** Remembers the worktree about to be created and marks the record as an intent. */
    method RecordWorktreeCreationIntent(key: Key, thread: Thread, outcome: SaveOutcome) returns (recorded: bool)
      requires thread.worktree
      modifies this`orphanedWorktrees, this`orphansFile
      ensures recorded == outcome.Published?
      ensures At(if recorded then CreateAdd(key, thread) else Idle) ==
        Apply(old(At(CreateIntent(key, thread))), SaveOrphans(outcome))
    {
      var previous := orphanedWorktrees;
      RememberOrphanedWorktree(key, thread);
      orphanedWorktrees := orphanedWorktrees[thread.path := orphanedWorktrees[thread.path].(intent := true)];
      assert orphanedWorktrees == previous[thread.path := Record(key, true)];
      SaveOrphansFile(outcome);
      if !outcome.Published? {
        orphanedWorktrees := previous;
      }
      return outcome.Published?;
    }

    method RemoveRollbackWorktree(path: Path, ok: bool, gone: bool)
      modifies this`git
      ensures git == if ok || gone then old(git) - {path} else old(git)
    {
      if ok || gone {
        git := git - {path};
      }
    }

    method ClearWorktreeCreationIntent(key: Key, path: Path, outcome: SaveOutcome)
      modifies this`orphansFile, this`orphanedWorktrees
      ensures forall thread: Thread :: thread.path == path ==>
        At(Idle) == Apply(old(At(CreateClear(key, thread))), SaveOrphans(outcome))
    {
      var previous := orphanedWorktrees;
      if path !in previous || previous[path] != Record(key, true) {
        return;
      }
      orphanedWorktrees := previous - {path};
      SaveOrphansFile(outcome);
      if !outcome.Published? {
        orphanedWorktrees := previous;
      }
    }

    method CleanupFailedCreation(key: Key, thread: Thread, io: CreateIO)
      modifies this`git, this`orphansFile, this`orphanedWorktrees
      ensures At(Idle) == UndoAlone(old(At(CreateUndo(key, thread))), io)
    {
      RemoveRollbackWorktree(thread.path, io.remove, io.removeGone);
      if io.remove {
        ClearWorktreeCreationIntent(key, thread.path, io.clear);
      } else {
        Skips(At(Idle), SaveOrphans(io.clear));
      }
    }

    /** Records the intent, adds the worktree and prepares it. */
    method CreateWorktreeThread(key: Key, thread: Thread, io: CreateIO) returns (created': bool)
      requires thread.worktree
      modifies this
      ensures var s := Apply(Apply(Apply(old(At(CreateIntent(key, thread))), SaveOrphans(io.intent)),
                                   GitAdd(io.add, io.addLeft)), Setup(io.setup));
        if created' then At(CreateSave(key, thread)) == s
        else At(Idle) == UndoAlone(Apply(s, SaveProjects(io.save)), io)
      ensures projectsFile == old(projectsFile) && projects == old(projects)
    {
      hide Apply;
      var recorded := RecordWorktreeCreationIntent(key, thread, io.intent);
      if !recorded {
        Skips(At(Idle), GitAdd(io.add, io.addLeft));
        Skips(At(Idle), Setup(io.setup));
        Skips(At(Idle), SaveProjects(io.save));
        Skips(At(Idle), ForceRemove(io.remove, io.removeGone));
        Skips(At(Idle), SaveOrphans(io.clear));
        return false;
      }
      GitAddStep(At(CreateAdd(key, thread)), key, thread, io.add, io.addLeft);
      assert git + {} == git && created + {} == created;
      if io.add || io.addLeft {
        git, created := git + {thread.path}, created + {thread.path};
      }
      if !io.add {
        Skips(At(CreateUndo(key, thread)), Setup(io.setup));
        Skips(At(CreateUndo(key, thread)), SaveProjects(io.save));
        CleanupFailedCreation(key, thread, io);
        return false;
      }
      SetupStep(At(CreateSetup(key, thread)), key, thread, io.setup);
      if !io.setup {
        Skips(At(CreateUndo(key, thread)), SaveProjects(io.save));
        CleanupFailedCreation(key, thread, io);
        return false;
      }
      return true;
    }

    /** Saves the list with the new thread; a worktree thread that could not be saved
        is undone, one that was saved no longer needs its intent. */
    method SaveAddedThread(key: Key, thread: Thread, io: CreateIO)
      requires key !in projects && projects == projectsFile
      modifies this
      ensures At(Idle) == UndoAlone(Apply(old(At(CreateSave(key, thread))), SaveProjects(io.save)), io)
      ensures projectsFile == if io.save.Visible() then old(projectsFile)[key := thread] else old(projectsFile)
    {
      hide Apply;
      CreateSaveStep(At(CreateSave(key, thread)), key, thread, io.save);
      var previous := projects;
      projects := projects[key := thread];
      SaveProjectsFile(io.save);
      if io.save.NotPublished? {
        projects := previous;
        if thread.worktree {
          CleanupFailedCreation(key, thread, io);
          return;
        }
      } else if io.save.Published? && thread.worktree {
        Skips(At(CreateClear(key, thread)), ForceRemove(io.remove, io.removeGone));
        ClearWorktreeCreationIntent(key, thread.path, io.clear);
        return;
      }
      Skips(At(Idle), ForceRemove(io.remove, io.removeGone));
      Skips(At(Idle), SaveOrphans(io.clear));
    }

    method AddThread(key: Key, thread: Thread, io: CreateIO) returns (added: bool)
      requires !thread.ready && Fresh(At(Idle).disk, key, thread.path)
      modifies this
      ensures At(Idle) == CreateAlone(old(At(Idle)), key, thread, io)
      ensures projectsFile == if added then old(projectsFile)[key := thread] else old(projectsFile)
    {
      hide Apply;
      StartCreateStep(At(Idle), key, thread);
      Reload();
      if thread.worktree {
        var ready := CreateWorktreeThread(key, thread, io);
        if !ready {
          return false;
        }
      } else {
        Skips(At(CreateSave(key, thread)), SaveOrphans(io.intent));
        Skips(At(CreateSave(key, thread)), GitAdd(io.add, io.addLeft));
        Skips(At(CreateSave(key, thread)), Setup(io.setup));
      }
      hide UndoAlone;
      SaveAddedThread(key, thread, io);
      return io.save.Visible();
    }

    method DeleteThread(key: Key, orphansSave: SaveOutcome, projectsSave: SaveOutcome) returns (deleted: bool)
      modifies this
      ensures At(Idle) ==
        Apply(Apply(Apply(old(At(Idle)), StartDelete([key])), SaveOrphans(orphansSave)), SaveProjects(projectsSave))
      ensures projectsFile == if deleted then old(projectsFile) - {key} else old(projectsFile)
    {
      hide Apply;
      StartDeleteStep(At(Idle), key);
      Reload();
      if key !in projects || projects[key].pending {
        Skips(At(Idle), SaveOrphans(orphansSave));
        Skips(At(Idle), SaveProjects(projectsSave));
        return false;
      }
      if projects[key].worktree {
        RememberOrphanedWorktree(key, projects[key]);
        DeleteRememberStep(At(DeleteRemember([key])), [key], orphansSave);
        SaveOrphansFile(orphansSave);
        if !orphansSave.Published? {
          Skips(At(Idle), SaveProjects(projectsSave));
          return false;
        }
      } else {
        Skips(At(DeleteSave([key])), SaveOrphans(orphansSave));
      }
      DeleteSaveStep(At(DeleteSave([key])), key, projectsSave);
      SaveWithout({key}, projectsSave);
      return projectsSave.Visible();
    }

    /** Deletes a project with all its threads; nothing happens while one is pending. */
    method Delete(keys: seq<Key>, orphansSave: SaveOutcome, projectsSave: SaveOutcome) returns (deleted: bool)
      modifies this
      ensures At(Idle) ==
        Apply(Apply(Apply(old(At(Idle)), StartDelete(keys)), SaveOrphans(orphansSave)), SaveProjects(projectsSave))
      ensures projectsFile == if deleted then old(projectsFile) - KeySet(keys) else old(projectsFile)
      ensures deleted <==>
        && (forall k :: k in keys ==> k in old(projectsFile) && !old(projectsFile)[k].pending)
        && ((exists k :: k in keys && k in old(projectsFile) && old(projectsFile)[k].worktree) ==>
              orphansSave.Published?)
        && projectsSave.Visible()
    {
      hide Apply;
      StartDeleteAllStep(At(Idle), keys);
      Reload();
      var blocked := AnyBlocked(keys);
      if blocked {
        Skips(At(Idle), SaveOrphans(orphansSave));
        Skips(At(Idle), SaveProjects(projectsSave));
        return false;
      }
      var orphanedChanged := RememberThreads(keys);
      if orphanedChanged {
        DeleteRememberStep(At(DeleteRemember(keys)), keys, orphansSave);
        SaveOrphansFile(orphansSave);
        if !orphansSave.Published? {
          Skips(At(Idle), SaveProjects(projectsSave));
          return false;
        }
      } else {
        Skips(At(DeleteSave(keys)), SaveOrphans(orphansSave));
      }
      DeleteAllSaveStep(At(DeleteSave(keys)), keys, projectsSave);
      SaveWithout(KeySet(keys), projectsSave);
      return projectsSave.Visible();
    }

    method AnyBlocked(keys: seq<Key>) returns (blocked: bool)
      ensures blocked <==> exists k :: k in keys && (k !in projects || projects[k].pending)
    {
      for i := 0 to |keys|
        invariant forall k :: k in keys[..i] ==> k in projects && !projects[k].pending
      {
        assert keys[..i + 1] == keys[..i] + [keys[i]];
        if keys[i] !in projects || projects[keys[i]].pending {
          return true;
        }
      }
      assert keys[..|keys|] == keys;
      return false;
    }

    /** Remembers the worktree of every given thread, in order. */
    method RememberThreads(keys: seq<Key>) returns (changed: bool)
      requires forall k :: k in keys ==> k in projects
      modifies this`orphanedWorktrees
      ensures orphanedWorktrees == RememberAll(old(orphanedWorktrees), projects, keys)
      ensures changed <==> exists k :: k in keys && projects[k].worktree
      ensures !changed ==> orphanedWorktrees == old(orphanedWorktrees)
    {
      changed := false;
      for i := 0 to |keys|
        invariant orphanedWorktrees == RememberAll(old(orphanedWorktrees), projects, keys[..i])
        invariant changed <==> exists k :: k in keys[..i] && projects[k].worktree
        invariant !changed ==> orphanedWorktrees == old(orphanedWorktrees)
      {
        assert keys[..i + 1] == keys[..i] + [keys[i]] && keys[i] in keys[..i + 1];
        if projects[keys[i]].worktree {
          changed := true;
        }
        RememberOrphanedWorktree(keys[i], projects[keys[i]]);
      }
      assert keys[..|keys|] == keys;
    }

    method BeginThreadCreationRollback(key: Key, save: SaveOutcome) returns (marked: bool)
      modifies this
      ensures At(Idle) == Apply(Apply(old(At(Idle)), StartMark(key)), SaveProjects(save))
      ensures marked <==> key in projectsFile && projectsFile[key].pending
    {
      hide Apply;
      FlagStartSteps(At(Idle), key);
      Reload();
      if key !in projects || projects[key].pending {
        Skips(At(Idle), SaveProjects(save));
        return key in projects;
      }
      FlagSaveSteps(At(MarkSave(key)), key, save);
      SaveFlags(key, true, false, save);
      return save.Visible();
    }

    method CommitThreadCreation(key: Key, save: SaveOutcome) returns (committed: bool)
      modifies this
      ensures At(Idle) == Apply(Apply(old(At(Idle)), StartCommit(key)), SaveProjects(save))
      ensures committed <==> key in projectsFile && !projectsFile[key].pending
      ensures key in old(projectsFile) && IsReady(old(projectsFile)[key]) ==>
        !committed && projectsFile == old(projectsFile)
    {
      hide Apply;
      FlagStartSteps(At(Idle), key);
      Reload();
      if key !in projects || !projects[key].pending || projects[key].ready {
        Skips(At(Idle), SaveProjects(save));
        return key in projects && !projects[key].pending;
      }
      FlagSaveSteps(At(CommitSave(key)), key, save);
      SaveFlags(key, false, false, save);
      return save.Visible();
    }

    /** Removes the Git artifacts and then the thread itself. */
    method FinishRollback(key: Key, ok: bool, gone: bool, save: SaveOutcome) returns (finished: bool)
      requires key in projects && projects == projectsFile
      modifies this
      ensures At(Idle) ==
        Apply(Apply(old(At(if projects[key].worktree then FinalRemove(key) else FinalSave(key))),
                    ForceRemove(ok, gone)), SaveProjects(save))
      ensures finished <==> (old(projects)[key].worktree ==> ok) && save.Published?
      ensures finished ==> projectsFile == old(projectsFile) - {key}
      ensures !finished && !save.Visible() ==> projectsFile == old(projectsFile)
    {
      hide Apply;
      var thread := projects[key];
      if thread.worktree {
        FinalRemoveStep(At(FinalRemove(key)), key, ok, gone);
        RemoveRollbackWorktree(thread.path, ok, gone);
        if !ok {
          Skips(At(Idle), SaveProjects(save));
          return false;
        }
      } else {
        Skips(At(FinalSave(key)), ForceRemove(ok, gone));
      }
      FlagSaveSteps(At(FinalSave(key)), key, save);
      SaveWithout({key}, save);
      return save.Published?;
    }

    /** First publishes that teardown succeeded, then removes Git artifacts, then the
        thread; each failure stops before the next stage. */
    method FinalizeThreadCreationRollback(key: Key, ready: SaveOutcome, ok: bool, gone: bool, save: SaveOutcome)
      returns (finished: bool)
      modifies this
      ensures key in old(projectsFile) && old(projectsFile)[key].pending ==>
        At(Idle) == FinalizeAlone(old(At(Idle)), key, ready, ok, gone, save)
      ensures finished <==>
        && key in old(projectsFile) && old(projectsFile)[key].pending
        && (old(projectsFile)[key].ready || ready.Published?)
        && (old(projectsFile)[key].worktree ==> ok) && save.Published?
      ensures finished ==> projectsFile == old(projectsFile) - {key}
      ensures !(key in old(projectsFile) && old(projectsFile)[key].pending) ==>
        !finished && projectsFile == old(projectsFile) && git == old(git)
    {
      hide Apply;
      StartFinalizeStep(At(Idle), key);
      Reload();
      if key !in projects || !projects[key].pending {
        return false;
      }
      if !projects[key].ready {
        FlagSaveSteps(At(FinalReady(key)), key, ready);
        SaveFlags(key, projects[key].pending, true, ready);
        if !ready.Published? {
          Skips(At(Idle), ForceRemove(ok, gone));
          Skips(At(Idle), SaveProjects(save));
          return false;
        }
      }
      finished := FinishRollback(key, ok, gone, save);
    }

    /** Force-removes the worktree of every ready thread in list order, up to the first
        failure. */
    method RemoveReadyWorktrees(order: seq<Key>, replies: seq<Reply>) returns (ok: bool)
      requires |order| == |replies| && NoRepeats(order)
      requires forall k :: k in order ==> k in projects
      modifies this`git
      ensures RecoverAlone(old(At(RecoverReady(KeySet(order), {}))), order, replies) ==
        At(if ok then RecoverReady({}, KeySet(order)) else Idle)
    {
      hide Apply, Owns, FirstIntents;
      ghost var s0 := At(RecoverReady(KeySet(order), {}));
      assert order[..0] == [] && order[0..] == order && KeySet([]) == {};
      var i := 0;
      while i < |order|
        invariant i <= |order|
        invariant RecoverAlone(s0, order[..i], replies[..i]) == At(RecoverReady(KeySet(order[i..]), KeySet(order[..i])))
      {
        var key, reply := order[i], replies[i];
        assert order[..i + 1][..i] == order[..i] && replies[..i + 1][..i] == replies[..i];
        KeySetSplit(order, i);
        RecoverThreadStep(At(RecoverReady(KeySet(order[i..]), KeySet(order[..i]))), key, reply.ok, reply.gone);
        if projects[key].worktree {
          RemoveRollbackWorktree(projects[key].path, reply.ok, reply.gone);
          if !reply.ok {
            RecoverStopped(s0, order, replies, i + 1);
            return false;
          }
        }
        i := i + 1;
      }
      assert order[..i] == order && replies[..i] == replies && order[i..] == [];
      return true;
    }

    /** Startup recovery, first half: removes the worktrees of all ready threads, then
        saves the list without them. */
    method RecoverRollbacks(order: seq<Key>, replies: seq<Reply>, save: SaveOutcome) returns (ok: bool)
      requires |order| == |replies| && NoRepeats(order) && projects == projectsFile
      requires forall k :: k in order <==> k in projects && IsReady(projects[k])
      modifies this
      ensures At(if ok then FirstIntents(At(Idle)) else Idle) ==
        Apply(Apply(RecoverAlone(old(At(RecoverReady(KeySet(order), {}))), order, replies), NextStage),
              SaveProjects(save))
      ensures ok ==> projectsFile == old(projectsFile) - KeySet(order)
    {
      hide Apply, RecoverAlone;
      ok := RemoveReadyWorktrees(order, replies);
      if !ok {
        Skips(At(Idle), NextStage);
        Skips(At(Idle), SaveProjects(save));
        return;
      }
      NextStageSteps(At(RecoverReady({}, KeySet(order))), save);
      if order == [] {
        assert KeySet(order) == {} && projects - {} == projects;
        return true;
      }
      assert order[0] in KeySet(order);
      SaveWithout(KeySet(order), save);
      return save.Published?;
    }

    /** Finishes or undoes each unfinished creation in list order, up to the first failure:
        an active thread keeps its worktree, any other worktree is removed. */
    method RemoveUnfinishedWorktrees(order: seq<Path>, replies: seq<Reply>) returns (ok: bool)
      requires |order| == |replies| && NoRepeats(order)
      requires forall p :: p in order ==> p in orphanedWorktrees
      modifies this`git
      ensures IntentsAlone(old(At(RecoverIntents(PathSet(order), {}))), order, replies) ==
        At(if ok then RecoverIntents({}, PathSet(order)) else Idle)
    {
      hide Apply, Owns, FirstIntents;
      ghost var s0 := At(RecoverIntents(PathSet(order), {}));
      assert order[..0] == [] && order[0..] == order && PathSet([]) == {};
      var i := 0;
      while i < |order|
        invariant i <= |order|
        invariant IntentsAlone(s0, order[..i], replies[..i]) ==
          At(RecoverIntents(PathSet(order[i..]), PathSet(order[..i])))
      {
        var path, reply := order[i], replies[i];
        assert order[..i + 1][..i] == order[..i] && replies[..i + 1][..i] == replies[..i];
        PathSetSplit(order, i);
        RecoverIntentStep(At(RecoverIntents(PathSet(order[i..]), PathSet(order[..i]))), path, reply.ok, reply.gone);
        if !Active(projects, path, orphanedWorktrees[path]) {
          RemoveRollbackWorktree(path, reply.ok, reply.gone);
          if !reply.ok {
            IntentsStopped(s0, order, replies, i + 1);
            return false;
          }
        }
        i := i + 1;
      }
      assert order[..i] == order && replies[..i] == replies && order[i..] == [];
      return true;
    }

    /** Startup recovery, second half: decides all creation intents, then forgets them. */
    method RecoverWorktreeCreationIntents(order: seq<Path>, replies: seq<Reply>, save: SaveOutcome) returns (ok: bool)
      requires |order| == |replies| && NoRepeats(order) && orphanedWorktrees == orphansFile
      requires forall p :: p in order <==> p in orphanedWorktrees && orphanedWorktrees[p].intent
      modifies this
      ensures At(Idle) ==
        Apply(Apply(IntentsAlone(old(At(FirstIntents(At(Idle)))), order, replies), NextStage), SaveOrphans(save))
      ensures ok <==>
        && IntentsAlone(old(At(FirstIntents(At(Idle)))), order, replies).flight.RecoverIntents?
        && (order == [] || save.Published?)
      ensures ok ==> orphansFile == old(orphansFile) - PathSet(order)
    {
      hide Apply, IntentsAlone;
      assert FirstIntents(At(Idle)) == RecoverIntents(PathSet(order), {});
      ok := RemoveUnfinishedWorktrees(order, replies);
      if !ok {
        Skips(At(Idle), NextStage);
        Skips(At(Idle), SaveOrphans(save));
        return;
      }
      IntentsEndSteps(At(RecoverIntents({}, PathSet(order))), save);
      if order == [] {
        assert PathSet(order) == {} && orphanedWorktrees - {} == orphanedWorktrees;
        return true;
      }
      assert order[0] in PathSet(order);
      var previous := orphanedWorktrees;
      orphanedWorktrees := orphanedWorktrees - PathSet(order);
      SaveOrphansFile(save);
      if !save.Published? {
        orphanedWorktrees := previous;
      }
      return save.Published?;
    }

    /** Decides each record in turn: keep it, forget it because nothing is left, or try to
        remove its worktree. */
    method DecideRecords(records: map<Path, Record>, order: seq<Path>, verdicts: seq<Verdict>, changed: bool)
      returns (kept: map<Path, Record>, changed': bool)
      requires |order| == |verdicts| && NoRepeats(order) && PathSet(order) == records.Keys
      modifies this`git
      ensures SweepAlone(old(At(Sweep(records.Keys, records, changed))), order, verdicts) ==
        At(Sweep({}, kept, changed'))
    {
      hide Apply;
      kept, changed' := records, changed;
      assert PathSet([]) == {};
      ghost var s0 := At(Sweep(kept.Keys, kept, changed));
      assert order[..0] == [] && order[0..] == order;
      var i := 0;
      while i < |order|
        invariant i <= |order| && PathSet(order[i..]) <= kept.Keys
        invariant SweepAlone(s0, order[..i], verdicts[..i]) == At(Sweep(PathSet(order[i..]), kept, changed'))
      {
        var path := order[i];
        assert order[..i + 1][..i] == order[..i] && verdicts[..i + 1][..i] == verdicts[..i];
        PathSetSplit(order, i);
        SweepOneStep(At(Sweep(PathSet(order[i..]), kept, changed')), path, verdicts[i]);
        match verdicts[i] {
          case Keep =>
          case Prune =>
            if path !in git {
              kept, changed' := kept - {path}, true;
            }
          case Remove(ok, gone) =>
            RemoveRollbackWorktree(path, ok, gone);
            if ok {
              kept, changed' := kept - {path}, true;
            }
        }
        i := i + 1;
      }
      assert order[..i] == order && verdicts[..i] == verdicts && order[i..] == [];
    }

    /** The periodic cleanup: drops records of active worktrees, adds discovered ones,
        decides the remaining records and saves what is kept. */
    method CleanupOrphanedWorktrees(discovered: map<Path, Record>, order: seq<Path>, verdicts: seq<Verdict>,
                                    save: SaveOutcome)
      requires Discoverable(At(Idle).disk, discovered) && |order| == |verdicts| && NoRepeats(order)
      requires forall p :: p in order <==>
        p in discovered || (p in orphansFile && !Active(projectsFile, p, orphansFile[p]))
      modifies this
      ensures At(Idle) ==
        Apply(Apply(SweepAlone(Apply(old(At(Idle)), StartSweep(discovered)), order, verdicts), NextStage),
              SaveOrphans(save))
    {
      hide Apply, SweepAlone;
      SweepStartStep(At(Idle), discovered);
      Reload();
      var kept :=
        (map p | p in orphanedWorktrees && !Active(projects, p, orphanedWorktrees[p]) :: orphanedWorktrees[p]);
      var changed := discovered != map[] || kept != orphanedWorktrees;
      kept := kept + discovered;
      assert PathSet(order) == kept.Keys;
      kept, changed := DecideRecords(kept, order, verdicts, changed);
      SweepEndSteps(At(Sweep({}, kept, changed)), save);
      orphanedWorktrees := kept;
      if changed {
        SaveOrphansFile(save);
      }
    }
  }

  datatype Reply = Reply(ok: bool, gone: bool)

  ghost predicate NoRepeats<T>(xs: seq<T>) {
    forall i, j :: 0 <= i < j < |xs| ==> xs[i] != xs[j]
  }

  function PathSet(paths: seq<Path>): set<Path> {
    set p | p in paths
  }

  lemma KeySetSplit(keys: seq<Key>, i: nat)
    requires i < |keys| && NoRepeats(keys)
    ensures KeySet(keys[i + 1..]) == KeySet(keys[i..]) - {keys[i]} && keys[i] in KeySet(keys[i..])
    ensures KeySet(keys[..i + 1]) == KeySet(keys[..i]) + {keys[i]}
  {
    assert keys[i..] == [keys[i]] + keys[i + 1..];
    assert keys[..i + 1] == keys[..i] + [keys[i]];
  }

  lemma PathSetSplit(paths: seq<Path>, i: nat)
    requires i < |paths| && NoRepeats(paths)
    ensures PathSet(paths[i + 1..]) == PathSet(paths[i..]) - {paths[i]} && paths[i] in PathSet(paths[i..])
    ensures PathSet(paths[..i + 1]) == PathSet(paths[..i]) + {paths[i]}
  {
    assert paths[i..] == [paths[i]] + paths[i + 1..];
    assert paths[..i + 1] == paths[..i] + [paths[i]];
  }

  ghost function RecoverAlone(s: State, order: seq<Key>, replies: seq<Reply>): State
    requires |order| == |replies|
  {
    if order == [] then s
    else
      var n := |order| - 1;
      Apply(RecoverAlone(s, order[..n], replies[..n]), RecoverThread(order[n], replies[n].ok, replies[n].gone))
  }

  ghost function SweepAlone(s: State, order: seq<Path>, verdicts: seq<Verdict>): State
    requires |order| == |verdicts|
  {
    if order == [] then s
    else
      var n := |order| - 1;
      Apply(SweepAlone(s, order[..n], verdicts[..n]), SweepOne(order[n], verdicts[n]))
  }

  /** After an error nothing more happens. */
  lemma {:induction false} RecoverStopped(s: State, order: seq<Key>, replies: seq<Reply>, i: nat)
    requires |order| == |replies| && i <= |order|
    requires RecoverAlone(s, order[..i], replies[..i]).flight.Idle?
    ensures RecoverAlone(s, order, replies) == RecoverAlone(s, order[..i], replies[..i])
    decreases |order|
  {
    hide Apply;
    if i == |order| {
      assert order[..i] == order && replies[..i] == replies;
    } else {
      var n := |order| - 1;
      assert order[..n][..i] == order[..i] && replies[..n][..i] == replies[..i];
      RecoverStopped(s, order[..n], replies[..n], i);
      Skips(RecoverAlone(s, order[..n], replies[..n]), RecoverThread(order[n], replies[n].ok, replies[n].gone));
    }
  }

  ghost function IntentsAlone(s: State, order: seq<Path>, replies: seq<Reply>): State
    requires |order| == |replies|
  {
    if order == [] then s
    else
      var n := |order| - 1;
      Apply(IntentsAlone(s, order[..n], replies[..n]), RecoverIntent(order[n], replies[n].ok, replies[n].gone))
  }

  lemma {:induction false} IntentsStopped(s: State, order: seq<Path>, replies: seq<Reply>, i: nat)
    requires |order| == |replies| && i <= |order|
    requires IntentsAlone(s, order[..i], replies[..i]).flight.Idle?
    ensures IntentsAlone(s, order, replies) == IntentsAlone(s, order[..i], replies[..i])
    decreases |order|
  {
    hide Apply;
    if i == |order| {
      assert order[..i] == order && replies[..i] == replies;
    } else {
      var n := |order| - 1;
      assert order[..n][..i] == order[..i] && replies[..n][..i] == replies[..i];
      IntentsStopped(s, order[..n], replies[..n], i);
      Skips(IntentsAlone(s, order[..n], replies[..n]), RecoverIntent(order[n], replies[n].ok, replies[n].gone));
    }
  }

  lemma RecoverIntentStep(s: State, path: Path, ok: bool, gone: bool)
    requires s.flight.RecoverIntents? && path in s.flight.todo && path in s.mem.orphans
    ensures Apply(s, RecoverIntent(path, ok, gone)) ==
      var next := RecoverIntents(s.flight.todo - {path}, s.flight.drop + {path});
      if Active(s.mem.threads, path, s.mem.orphans[path]) then s.(flight := next)
      else Removed(s, path, ok, gone).(flight := if ok then next else Idle)
  {
    hide Active;
  }

  lemma IntentsEndSteps(s: State, save: SaveOutcome)
    requires s.flight.RecoverIntents? && s.flight.todo == {}
    ensures Apply(Apply(s, NextStage), SaveOrphans(save)) ==
      if s.flight.drop == {} then s.(flight := Idle) else SaveRecords(s, s.mem.orphans - s.flight.drop, save, Idle)
  {
  }

  lemma StartDeleteAllStep(s: State, keys: seq<Key>)
    requires s.flight.Idle?
    ensures Apply(s, StartDelete(keys)) ==
      var t := s.(mem := Memory(s.disk.threads, s.disk.orphans));
      if exists k :: k in keys && (k !in s.disk.threads || s.disk.threads[k].pending) then t
      else if exists k :: k in keys && s.disk.threads[k].worktree then
        t.(mem := t.mem.(orphans := RememberAll(s.disk.orphans, s.disk.threads, keys)), flight := DeleteRemember(keys))
      else t.(flight := DeleteSave(keys))
  {
  }

  lemma DeleteAllSaveStep(s: State, keys: seq<Key>, outcome: SaveOutcome)
    requires s.flight == DeleteSave(keys)
    ensures Apply(s, SaveProjects(outcome)) == SaveThreads(s, s.mem.threads - KeySet(keys), outcome, Idle, Idle)
  {
  }

  predicate AllOk(replies: seq<Reply>) {
    forall k :: 0 <= k < |replies| ==> replies[k].ok
  }

  /** Only Git and the list of what is done move while ready threads are recovered. */
  predicate SameLists(s: State, t: State) {
    t.mem == s.mem && t.disk.threads == s.disk.threads && t.disk.orphans == s.disk.orphans
  }

  lemma {:induction false} ReadyAllRemoved(s: State, order: seq<Key>, replies: seq<Reply>)
    requires |order| == |replies| && NoRepeats(order) && AllOk(replies)
    requires s.flight.RecoverReady? && KeySet(order) <= s.flight.ready
    requires forall k :: k in order ==> k in s.mem.threads
    ensures var t := RecoverAlone(s, order, replies);
      SameLists(s, t) && t.flight == RecoverReady(s.flight.ready - KeySet(order), s.flight.removed + KeySet(order))
  {
    hide Apply;
    if order == [] {
      assert KeySet(order) == {};
    } else {
      var n := |order| - 1;
      var init, key := order[..n], order[n];
      assert order == init + [key] && replies[n].ok;
      assert KeySet(order) == KeySet(init) + {key} && key !in KeySet(init) && key in KeySet(order);
      ReadyAllRemoved(s, init, replies[..n]);
      RecoverThreadStep(RecoverAlone(s, init, replies[..n]), key, replies[n].ok, replies[n].gone);
    }
  }

  lemma {:induction false} IntentsAllDecided(s: State, paths: seq<Path>, replies: seq<Reply>)
    requires |paths| == |replies| && NoRepeats(paths) && AllOk(replies)
    requires s.flight.RecoverIntents? && PathSet(paths) <= s.flight.todo
    requires forall p :: p in paths ==> p in s.mem.orphans
    ensures var t := IntentsAlone(s, paths, replies);
      SameLists(s, t) && t.flight == RecoverIntents(s.flight.todo - PathSet(paths), s.flight.drop + PathSet(paths))
  {
    hide Apply, Active;
    if paths == [] {
      assert PathSet(paths) == {};
    } else {
      var n := |paths| - 1;
      var init, path := paths[..n], paths[n];
      assert paths == init + [path] && replies[n].ok;
      assert PathSet(paths) == PathSet(init) + {path} && path !in PathSet(init) && path in PathSet(paths);
      IntentsAllDecided(s, init, replies[..n]);
      RecoverIntentStep(IntentsAlone(s, init, replies[..n]), path, replies[n].ok, replies[n].gone);
    }
  }

  /** A restart whose removals and saves all succeed. */
  ghost function RecoverWhole(s: State, order: seq<Key>, replies: seq<Reply>, paths: seq<Path>,
                              pathReplies: seq<Reply>): State
    requires |order| == |replies| && |paths| == |pathReplies|
  {
    var s1 := Apply(Apply(s, Crash), StartRecover);
    var s2 := Apply(Apply(RecoverAlone(s1, order, replies), NextStage), SaveProjects(Published));
    Apply(Apply(IntentsAlone(s2, paths, pathReplies), NextStage), SaveOrphans(Published))
  }

  lemma RestartSteps(s: State)
    ensures Apply(Apply(s, Crash), StartRecover) ==
      State(s.disk, Memory(s.disk.threads, s.disk.orphans),
            RecoverReady(set k | k in s.disk.threads && IsReady(s.disk.threads[k]), {}))
  {
  }

  lemma ReadyStageSucceeds(s: State, order: seq<Key>, replies: seq<Reply>)
    requires |order| == |replies| && NoRepeats(order) && AllOk(replies)
    requires forall k :: k in order <==> k in s.disk.threads && IsReady(s.disk.threads[k])
    ensures var t :=
      Apply(Apply(RecoverAlone(Apply(Apply(s, Crash), StartRecover), order, replies), NextStage),
            SaveProjects(Published));
      && t.flight == FirstIntents(t) && t.mem == Memory(t.disk.threads, t.disk.orphans)
      && NoneReady(t.disk) && t.disk.orphans == s.disk.orphans
  {
    hide Apply, RecoverAlone, IsReady;
    RestartSteps(s);
    var s1 := Apply(Apply(s, Crash), StartRecover);
    assert KeySet(order) == s1.flight.ready;
    ReadyAllRemoved(s1, order, replies);
    var s2 := RecoverAlone(s1, order, replies);
    assert s2.flight == RecoverReady({}, KeySet(order));
    NextStageSteps(s2, Published);
    if order == [] {
      assert KeySet(order) == {};
    } else {
      assert order[0] in KeySet(order);
    }
  }

  /** From every reachable state, whatever was in flight, a restart whose removals and
      saves succeed finishes recovery: no thread is left ready for cleanup and no creation
      intent is left, in whatever order the threads and records are visited. */
  lemma RecoverySucceeds(events: seq<Event>, order: seq<Key>, replies: seq<Reply>, paths: seq<Path>,
                         pathReplies: seq<Reply>)
    requires |order| == |replies| && NoRepeats(order) && AllOk(replies)
    requires |paths| == |pathReplies| && NoRepeats(paths) && AllOk(pathReplies)
    requires var d := Run(Empty(), events).disk;
      && (forall k :: k in order <==> k in d.threads && IsReady(d.threads[k]))
      && (forall p :: p in paths <==> p in d.orphans && d.orphans[p].intent)
    ensures var t := RecoverWhole(Run(Empty(), events), order, replies, paths, pathReplies);
      && t.flight.Idle? && NoneReady(t.disk) && t.mem == Memory(t.disk.threads, t.disk.orphans)
      && (forall p :: p in t.disk.orphans ==> !t.disk.orphans[p].intent)
  {
    hide Run, Apply, RecoverAlone, IntentsAlone, NoneReady;
    var s := Run(Empty(), events);
    ReadyStageSucceeds(s, order, replies);
    var s2 :=
      Apply(Apply(RecoverAlone(Apply(Apply(s, Crash), StartRecover), order, replies), NextStage),
            SaveProjects(Published));
    assert PathSet(paths) == s2.flight.todo;
    IntentsAllDecided(s2, paths, pathReplies);
    var s3 := IntentsAlone(s2, paths, pathReplies);
    assert s3.flight == RecoverIntents({}, PathSet(paths));
    IntentsEndSteps(s3, Published);
    SameThreadsNoneReady(s2.disk, s3.disk);
    var t := Apply(Apply(s3, NextStage), SaveOrphans(Published));
    SameThreadsNoneReady(s3.disk, t.disk);
    if paths == [] {
      assert PathSet(paths) == {};
    } else {
      assert paths[0] in PathSet(paths);
    }
  }

  lemma SameThreadsNoneReady(d: Disk, d': Disk)
    requires d.threads == d'.threads
    ensures NoneReady(d) ==> NoneReady(d')
  {
  }

  lemma RecoverThreadStep(s: State, key: Key, ok: bool, gone: bool)
    requires s.flight.RecoverReady? && key in s.flight.ready && key in s.mem.threads
    ensures Apply(s, RecoverThread(key, ok, gone)) ==
      var next := RecoverReady(s.flight.ready - {key}, s.flight.removed + {key});
      if !s.mem.threads[key].worktree then s.(flight := next)
      else Removed(s, s.mem.threads[key].path, ok, gone).(flight := if ok then next else Idle)
  {
  }

  lemma NextStageSteps(s: State, save: SaveOutcome)
    requires s.flight.RecoverReady? && s.flight.ready == {}
    ensures Apply(Apply(s, NextStage), SaveProjects(save)) ==
      if s.flight.removed == {} then s.(flight := FirstIntents(s))
      else
        var t := SaveThreads(s, s.mem.threads - s.flight.removed, save, Idle, Idle);
        if save.Published? then t.(flight := FirstIntents(t)) else t
  {
  }

  lemma SweepStartStep(s: State, discovered: map<Path, Record>)
    requires s.flight.Idle? && Discoverable(s.disk, discovered)
    ensures Apply(s, StartSweep(discovered)) ==
      var kept := map p | p in s.disk.orphans && !Active(s.disk.threads, p, s.disk.orphans[p]) :: s.disk.orphans[p];
      State(s.disk, Memory(s.disk.threads, s.disk.orphans),
            Sweep((kept + discovered).Keys, kept + discovered, discovered != map[] || kept != s.disk.orphans))
  {
  }

  lemma SweepOneStep(s: State, path: Path, verdict: Verdict)
    requires s.flight.Sweep? && path in s.flight.todo && path in s.flight.records
    ensures Apply(s, SweepOne(path, verdict)) ==
      var dropped := (verdict.Prune? && path !in s.disk.git) || (verdict.Remove? && verdict.ok);
      (if verdict.Remove? then Removed(s, path, verdict.ok, verdict.gone) else s)
        .(flight := if dropped then Sweep(s.flight.todo - {path}, s.flight.records - {path}, true)
                    else Sweep(s.flight.todo - {path}, s.flight.records, s.flight.changed))
  {
  }

  lemma SweepEndSteps(s: State, save: SaveOutcome)
    requires s.flight.Sweep? && s.flight.todo == {}
    ensures Apply(Apply(s, NextStage), SaveOrphans(save)) ==
      var t := s.(mem := s.mem.(orphans := s.flight.records), flight := Idle);
      if s.flight.changed then SaveRecords(t, s.flight.records, save, Idle) else t
  {
  }

  ghost function FinalizeAlone(s: State, key: Key, ready: SaveOutcome, ok: bool, gone: bool, save: SaveOutcome): State {
    var s1 := Apply(s, StartFinalize(key));
    var s2 := if s1.flight.FinalReady? then Apply(s1, SaveProjects(ready)) else s1;
    Apply(Apply(s2, ForceRemove(ok, gone)), SaveProjects(save))
  }

  lemma StartDeleteStep(s: State, key: Key)
    requires s.flight.Idle?
    ensures Apply(s, StartDelete([key])) ==
      var t := s.(mem := Memory(s.disk.threads, s.disk.orphans));
      if key !in s.disk.threads || s.disk.threads[key].pending then t
      else if s.disk.threads[key].worktree then
        t.(mem := t.mem.(orphans := s.disk.orphans[s.disk.threads[key].path := Record(key, false)]),
           flight := DeleteRemember([key]))
      else t.(flight := DeleteSave([key]))
  {
    assert key in [key];
    assert [key][..0] == [];
    assert RememberAll(s.disk.orphans, s.disk.threads, [key][..0]) == s.disk.orphans;
  }

  lemma DeleteRememberStep(s: State, keys: seq<Key>, outcome: SaveOutcome)
    requires s.flight == DeleteRemember(keys)
    ensures Apply(s, SaveOrphans(outcome)) == SaveRecords(s, s.mem.orphans, outcome, DeleteSave(keys))
  {
  }

  lemma DeleteSaveStep(s: State, key: Key, outcome: SaveOutcome)
    requires s.flight == DeleteSave([key])
    ensures Apply(s, SaveProjects(outcome)) == SaveThreads(s, s.mem.threads - {key}, outcome, Idle, Idle)
  {
    assert KeySet([key]) == {key};
  }

  lemma FlagStartSteps(s: State, key: Key)
    requires s.flight.Idle?
    ensures var t := s.(mem := Memory(s.disk.threads, s.disk.orphans));
      && Apply(s, StartMark(key)) ==
           (if key !in s.disk.threads || s.disk.threads[key].pending then t else t.(flight := MarkSave(key)))
      && Apply(s, StartCommit(key)) ==
           (if key !in s.disk.threads || !s.disk.threads[key].pending || s.disk.threads[key].ready then t
            else t.(flight := CommitSave(key)))
  {
  }

  lemma StartFinalizeStep(s: State, key: Key)
    requires s.flight.Idle?
    ensures var t := s.(mem := Memory(s.disk.threads, s.disk.orphans));
      Apply(s, StartFinalize(key)) ==
        if key !in s.disk.threads || !s.disk.threads[key].pending then t
        else if !s.disk.threads[key].ready then t.(flight := FinalReady(key))
        else t.(flight := if s.disk.threads[key].worktree then FinalRemove(key) else FinalSave(key))
  {
  }

  lemma FlagSaveSteps(s: State, key: Key, outcome: SaveOutcome)
    requires key in s.mem.threads
    ensures s.flight == MarkSave(key) ==>
      Apply(s, SaveProjects(outcome)) == SaveThreads(s, Flagged(s, key, true, false), outcome, Idle, Idle)
    ensures s.flight == CommitSave(key) ==>
      Apply(s, SaveProjects(outcome)) == SaveThreads(s, Flagged(s, key, false, false), outcome, Idle, Idle)
    ensures s.flight == FinalReady(key) ==>
      Apply(s, SaveProjects(outcome)) ==
        SaveThreads(s, Flagged(s, key, s.mem.threads[key].pending, true), outcome,
                    if s.mem.threads[key].worktree then FinalRemove(key) else FinalSave(key), Idle)
    ensures s.flight == FinalSave(key) ==>
      Apply(s, SaveProjects(outcome)) == SaveThreads(s, s.mem.threads - {key}, outcome, Idle, Idle)
  {
  }

  function Flagged(s: State, key: Key, pending: bool, ready: bool): map<Key, Thread>
    requires key in s.mem.threads
  {
    s.mem.threads[key := s.mem.threads[key].(pending := pending, ready := ready)]
  }

  lemma FinalRemoveStep(s: State, key: Key, ok: bool, gone: bool)
    requires s.flight == FinalRemove(key) && key in s.mem.threads
    ensures Apply(s, ForceRemove(ok, gone)) ==
      Removed(s, s.mem.threads[key].path, ok, gone).(flight := if ok then FinalSave(key) else Idle)
  {
  }

  lemma GitAddStep(s: State, key: Key, thread: Thread, ok: bool, left: bool)
    requires s.flight == CreateAdd(key, thread)
    ensures Apply(s, GitAdd(ok, left)) ==
      var p := if ok || left then {thread.path} else {};
      s.(disk := s.disk.(git := s.disk.git + p, created := s.disk.created + p),
         flight := if ok then CreateSetup(key, thread) else CreateUndo(key, thread))
  {
    assert s.disk.git + {} == s.disk.git && s.disk.created + {} == s.disk.created;
  }

  lemma SetupStep(s: State, key: Key, thread: Thread, ok: bool)
    requires s.flight == CreateSetup(key, thread)
    ensures Apply(s, Setup(ok)) == s.(flight := if ok then CreateSave(key, thread) else CreateUndo(key, thread))
  {
  }

  lemma StartCreateStep(s: State, key: Key, thread: Thread)
    requires s.flight.Idle? && Fresh(s.disk, key, thread.path) && !thread.ready
    ensures Apply(s, StartCreate(key, thread)) ==
      State(s.disk, Memory(s.disk.threads, s.disk.orphans),
            if thread.worktree then CreateIntent(key, thread) else CreateSave(key, thread))
  {
  }

  lemma CreateSaveStep(s: State, key: Key, thread: Thread, outcome: SaveOutcome)
    requires s.flight == CreateSave(key, thread)
    ensures Apply(s, SaveProjects(outcome)) ==
      SaveThreads(s, s.mem.threads[key := thread], outcome,
                  if thread.worktree then CreateClear(key, thread) else Idle,
                  if thread.worktree then CreateUndo(key, thread) else Idle)
  {
  }
}
