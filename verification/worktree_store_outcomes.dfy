/** What the operations on threads and worktrees achieve: for every reachable state of the
    three stores and every reply of Git and the file system, what a whole undisturbed
    operation leaves in projects.json, in orphaned-worktrees.json and in Git. */
module WorktreeStoreOutcomes {
  import opened Common
  import opened WorktreeStore

  // --------------------------------------------------------------------- creation

  /** Everything up to the save of projects.json succeeded. */
  predicate Prepared(io: CreateIO) {
    io.intent.Published? && io.add && io.setup
  }

  /** Git made a worktree, even if it then reported an error. */
  predicate WasAdded(io: CreateIO) {
    io.intent.Published? && (io.add || io.addLeft)
  }

  /** The worktree of a creation is left in Git: it was added, or a failed add left it behind,
      and no removal got rid of it. */
  predicate WorktreeStays(io: CreateIO) {
    && WasAdded(io)
    && ((Prepared(io) && io.save.Visible()) || !(io.remove || io.removeGone))
  }

  /** The record of the creation is left on disk: it was written, and not cleared after the
      creation was saved or undone. */
  predicate IntentStays(io: CreateIO) {
    && io.intent.Visible()
    && !(io.intent.Published? && io.clear.Visible()
         && (if Prepared(io) && io.save.Visible() then io.save.Published? else io.remove))
  }

  /** A creation that undisturbed reaches its end, from every state without an operation in
      flight: the thread is in projects.json exactly when everything before its save succeeded
      and the save became visible; its worktree and its creation record stay exactly as the
      two predicates above say, and nothing else moves. */
  lemma CreationTakes(s: State, key: Key, thread: Thread, io: CreateIO)
    requires s.flight.Idle? && Fresh(s.disk, key, thread.path) && !thread.ready
    ensures var t := CreateAlone(s, key, thread, io);
      var d, path := s.disk, thread.path;
      var saved := (thread.worktree ==> Prepared(io)) && io.save.Visible();
      && t.flight.Idle? && t.mem.threads == t.disk.threads
      && t.disk.threads == (if saved then d.threads[key := thread] else d.threads)
      && t.disk.git == (if thread.worktree && WorktreeStays(io) then d.git + {path} else d.git)
      && t.disk.created == (if thread.worktree && WasAdded(io) then d.created + {path} else d.created)
      && t.disk.orphans ==
           (if thread.worktree && IntentStays(io) then d.orphans[path := Record(key, true)] else d.orphans)
  {
    hide Apply, UndoAlone, IntentStays, WorktreeStays;
    StartCreateStep(s, key, thread);
    var s1 := Apply(s, StartCreate(key, thread));
    if thread.worktree {
      WorktreeSteps(s, key, thread, io);
    } else {
      Skips(s1, SaveOrphans(io.intent));
      Skips(s1, GitAdd(io.add, io.addLeft));
      Skips(s1, Setup(io.setup));
      CreateSaveStep(s1, key, thread, io.save);
      IdleSkipsUndo(Apply(s1, SaveProjects(io.save)), io);
    }
  }

  /** A creation in which everything succeeds adds the thread and its worktree, and leaves
      orphaned-worktrees.json as it was. A failed one whose removal and last save succeed
      leaves all three stores as they were. */
  lemma CreationLeavesNoIntent(s: State, key: Key, thread: Thread, io: CreateIO)
    requires s.flight.Idle? && Fresh(s.disk, key, thread.path) && !thread.ready && thread.worktree
    requires io.intent.Published? && io.clear.Published?
    ensures var t := CreateAlone(s, key, thread, io);
      var d := s.disk;
      && (io.add && io.setup && io.save.Published? ==>
            t.disk.threads == d.threads[key := thread] && t.disk.git == d.git + {thread.path}
            && t.disk.orphans == d.orphans)
      && (!(io.add && io.setup && io.save.Visible()) && io.remove ==>
            t.disk.threads == d.threads && t.disk.git == d.git && t.disk.orphans == d.orphans)
  {
    hide CreateAlone, Fresh;
    CreationTakes(s, key, thread, io);
  }

  lemma IntentStep(s: State, key: Key, thread: Thread, outcome: SaveOutcome)
    requires s.flight == CreateIntent(key, thread)
    ensures Apply(s, SaveOrphans(outcome)) ==
      SaveRecords(s, s.mem.orphans[thread.path := Record(key, true)], outcome, CreateAdd(key, thread))
  {
  }

  lemma IdleSkipsUndo(s: State, io: CreateIO)
    requires s.flight.Idle?
    ensures UndoAlone(s, io) == s
  {
    hide Apply;
    Skips(s, ForceRemove(io.remove, io.removeGone));
    Skips(s, SaveOrphans(io.clear));
  }

  /** The intent is on disk and in memory; `git` and `created` are what Git has by now. */
  function Underway(s: State, key: Key, path: Path, git: set<Path>, created: set<Path>, flight: Flight): State {
    var orphans := s.disk.orphans[path := Record(key, true)];
    State(Disk(s.disk.threads, orphans, git, created), Memory(s.disk.threads, orphans), flight)
  }

  /** Clearing an intent drops exactly its record; memory follows only a clean save. */
  lemma ClearStep(s: State, key: Key, thread: Thread, disk: map<Path, Record>, outcome: SaveOutcome)
    requires s.flight == CreateClear(key, thread) && thread.path !in disk
    requires s.mem.orphans == s.disk.orphans == disk[thread.path := Record(key, true)]
    ensures var t := Apply(s, SaveOrphans(outcome));
      && t.flight.Idle? && t.mem.threads == s.mem.threads
      && t.disk == s.disk.(orphans := if outcome.Visible() then disk else s.disk.orphans)
  {
    assert s.mem.orphans - {thread.path} == disk;
    assert thread.path in s.mem.orphans;
  }

  /** An undo removes the worktree, and forgets the intent only if the removal succeeded. */
  lemma UndoSteps(s: State, key: Key, thread: Thread, disk: map<Path, Record>, io: CreateIO)
    requires s.flight == CreateUndo(key, thread) && thread.path !in disk
    requires s.mem.orphans == s.disk.orphans == disk[thread.path := Record(key, true)]
    ensures var t := UndoAlone(s, io);
      && t.flight.Idle? && t.mem.threads == s.mem.threads && t.disk.threads == s.disk.threads
      && t.disk.created == s.disk.created
      && t.disk.git == (if io.remove || io.removeGone then s.disk.git - {thread.path} else s.disk.git)
      && t.disk.orphans == (if io.remove && io.clear.Visible() then disk else s.disk.orphans)
  {
    var s1 := Apply(s, ForceRemove(io.remove, io.removeGone));
    assert s1 == Removed(s, thread.path, io.remove, io.removeGone)
                   .(flight := if io.remove then CreateClear(key, thread) else Idle);
    hide Apply;
    if io.remove {
      ClearStep(s1, key, thread, disk, io.clear);
    } else {
      Skips(s1, SaveOrphans(io.clear));
    }
  }

  lemma WorktreeSteps(s: State, key: Key, thread: Thread, io: CreateIO)
    requires Fresh(s.disk, key, thread.path) && thread.worktree
    ensures var d, path := s.disk, thread.path;
      var s1 := State(d, Memory(d.threads, d.orphans), CreateIntent(key, thread));
      var t := UndoAlone(Apply(Apply(Apply(Apply(s1, SaveOrphans(io.intent)), GitAdd(io.add, io.addLeft)),
                                     Setup(io.setup)), SaveProjects(io.save)), io);
      && t.flight.Idle? && t.mem.threads == t.disk.threads
      && t.disk.threads == (if Prepared(io) && io.save.Visible() then d.threads[key := thread] else d.threads)
      && t.disk.git == (if WorktreeStays(io) then d.git + {path} else d.git)
      && t.disk.created == (if WasAdded(io) then d.created + {path} else d.created)
      && t.disk.orphans == (if IntentStays(io) then d.orphans[path := Record(key, true)] else d.orphans)
  {
    var d, path := s.disk, thread.path;
    var s1 := State(d, Memory(d.threads, d.orphans), CreateIntent(key, thread));
    IntentStep(s1, key, thread, io.intent);
    hide Apply, UndoAlone;
    var s2 := Apply(s1, SaveOrphans(io.intent));
    if io.intent.Published? {
      assert s2 == Underway(s, key, path, d.git, d.created, CreateAdd(key, thread));
      AddedSteps(s, s2, key, thread, io);
    } else {
      Skips(s2, GitAdd(io.add, io.addLeft));
      Skips(s2, Setup(io.setup));
      Skips(s2, SaveProjects(io.save));
      IdleSkipsUndo(s2, io);
    }
  }

  lemma AddedSteps(s: State, s2: State, key: Key, thread: Thread, io: CreateIO)
    requires Fresh(s.disk, key, thread.path) && thread.worktree && io.intent.Published?
    requires s2 == Underway(s, key, thread.path, s.disk.git, s.disk.created, CreateAdd(key, thread))
    ensures var d, path := s.disk, thread.path;
      var t :=
        UndoAlone(Apply(Apply(Apply(s2, GitAdd(io.add, io.addLeft)), Setup(io.setup)), SaveProjects(io.save)), io);
      && t.flight.Idle? && t.mem.threads == t.disk.threads
      && t.disk.threads == (if Prepared(io) && io.save.Visible() then d.threads[key := thread] else d.threads)
      && t.disk.git == (if WorktreeStays(io) then d.git + {path} else d.git)
      && t.disk.created == (if WasAdded(io) then d.created + {path} else d.created)
      && t.disk.orphans == (if IntentStays(io) then d.orphans[path := Record(key, true)] else d.orphans)
  {
    hide Apply, UndoAlone;
    var d, path := s.disk, thread.path;
    GitAddStep(s2, key, thread, io.add, io.addLeft);
    var s3 := Apply(s2, GitAdd(io.add, io.addLeft));
    assert d.git + {path} - {path} == d.git && d.git + {} == d.git && d.git - {path} == d.git;
    if !io.add {
      Skips(s3, Setup(io.setup));
      Skips(s3, SaveProjects(io.save));
      UndoSteps(s3, key, thread, d.orphans, io);
    } else {
      SetupStep(s3, key, thread, io.setup);
      var s4 := Apply(s3, Setup(io.setup));
      if !io.setup {
        Skips(s4, SaveProjects(io.save));
        UndoSteps(s4, key, thread, d.orphans, io);
      } else {
        SavedSteps(s4, key, thread, d.orphans, io);
      }
    }
  }

  lemma SavedSteps(s: State, key: Key, thread: Thread, disk: map<Path, Record>, io: CreateIO)
    requires s.flight == CreateSave(key, thread) && thread.worktree && thread.path !in disk
    requires s.mem.orphans == s.disk.orphans == disk[thread.path := Record(key, true)]
    requires s.mem.threads == s.disk.threads
    ensures var t := UndoAlone(Apply(s, SaveProjects(io.save)), io);
      && t.flight.Idle? && t.mem.threads == t.disk.threads && t.disk.created == s.disk.created
      && t.disk.threads == (if io.save.Visible() then s.disk.threads[key := thread] else s.disk.threads)
      && t.disk.git == (if !io.save.Visible() && (io.remove || io.removeGone) then s.disk.git - {thread.path}
                        else s.disk.git)
      && t.disk.orphans ==
           (if io.clear.Visible() && (io.save.Published? || (io.save.NotPublished? && io.remove)) then disk
            else s.disk.orphans)
  {
    hide Apply, UndoAlone;
    CreateSaveStep(s, key, thread, io.save);
    var s5 := Apply(s, SaveProjects(io.save));
    match io.save
    case NotPublished => UndoSteps(s5, key, thread, disk, io);
    case PublishedWithError => IdleSkipsUndo(s5, io);
    case Published =>
      Skips(s5, ForceRemove(io.remove, io.removeGone));
      ClearStep(s5, key, thread, disk, io.clear);
      UndoUnfolds(s5, io);
  }

  lemma UndoUnfolds(s: State, io: CreateIO)
    ensures UndoAlone(s, io) == Apply(Apply(s, ForceRemove(io.remove, io.removeGone)), SaveOrphans(io.clear))
  {
    hide Apply;
  }

  // --------------------------------------------------------------------- deletion

  predicate Blocked(d: Disk, keys: seq<Key>) {
    exists k :: k in keys && (k !in d.threads || d.threads[k].pending)
  }

  predicate HasWorktree(d: Disk, keys: seq<Key>) {
    exists k :: k in keys && k in d.threads && d.threads[k].worktree
  }

  /** The records after the deletion of these threads: each of their worktrees is recorded
      under its own thread, and every other record is as before. */
  ghost predicate Remembered(d: Disk, keys: seq<Key>, orphans: map<Path, Record>) {
    && (forall k :: k in keys && k in d.threads && d.threads[k].worktree ==>
          d.threads[k].path in orphans && orphans[d.threads[k].path] == Record(k, false))
    && (forall p :: (forall k :: k in keys && k in d.threads && d.threads[k].worktree ==> d.threads[k].path != p) ==>
          (p in orphans <==> p in d.orphans) && (p in d.orphans ==> orphans[p] == d.orphans[p]))
  }

  lemma {:induction false} RememberAllRemembers(d: Disk, keys: seq<Key>)
    requires OnePathEach(d.threads)
    ensures Remembered(d, keys, RememberAll(d.orphans, d.threads, keys))
  {
    if keys != [] {
      var init, k := keys[..|keys| - 1], keys[|keys| - 1];
      RememberAllRemembers(d, init);
      assert keys == init + [k];
    }
  }

  /** Deleting threads, on every run: nothing moves if one of them is unknown or pending.
      Otherwise they leave projects.json exactly when the records of their worktrees were
      saved first, if they have any, and the save became visible; Git is never touched. */
  lemma DeletionTakes(events: seq<Event>, keys: seq<Key>, orphansSave: SaveOutcome, projectsSave: SaveOutcome)
    requires Run(Empty(), events).flight.Idle?
    ensures var s := Run(Empty(), events);
      var t := Apply(Apply(Apply(s, StartDelete(keys)), SaveOrphans(orphansSave)), SaveProjects(projectsSave));
      var d := s.disk;
      var recorded := HasWorktree(d, keys) ==> orphansSave.Published?;
      && t.flight.Idle? && t.mem.threads == t.disk.threads && t.disk.git == d.git
      && (Blocked(d, keys) ==> t.disk == d)
      && (!Blocked(d, keys) ==>
            && t.disk.threads == (if recorded && projectsSave.Visible() then d.threads - KeySet(keys) else d.threads)
            && (if HasWorktree(d, keys) && orphansSave.Visible() then Remembered(d, keys, t.disk.orphans)
                else t.disk.orphans == d.orphans))
  {
    RunKeepsInv(events);
    var s := Run(Empty(), events);
    assert OnePathEach(s.disk.threads);
    hide Run, Inv, OnePathEach;
    DeletionSteps(s, keys, orphansSave, projectsSave);
  }

  lemma DeletionSteps(s: State, keys: seq<Key>, orphansSave: SaveOutcome, projectsSave: SaveOutcome)
    requires s.flight.Idle? && OnePathEach(s.disk.threads)
    ensures var t := Apply(Apply(Apply(s, StartDelete(keys)), SaveOrphans(orphansSave)), SaveProjects(projectsSave));
      var d := s.disk;
      var recorded := HasWorktree(d, keys) ==> orphansSave.Published?;
      && t.flight.Idle? && t.mem.threads == t.disk.threads && t.disk.git == d.git
      && (Blocked(d, keys) ==> t.disk == d)
      && (!Blocked(d, keys) ==>
            && t.disk.threads == (if recorded && projectsSave.Visible() then d.threads - KeySet(keys) else d.threads)
            && (if HasWorktree(d, keys) && orphansSave.Visible() then Remembered(d, keys, t.disk.orphans)
                else t.disk.orphans == d.orphans))
  {
    hide Apply, RememberAll, Remembered;
    RememberAllRemembers(s.disk, keys);
    StartDeleteAllStep(s, keys);
    var s1 := Apply(s, StartDelete(keys));
    var s2 := Apply(s1, SaveOrphans(orphansSave));
    if Blocked(s.disk, keys) {
      Skips(s1, SaveOrphans(orphansSave));
      Skips(s1, SaveProjects(projectsSave));
    } else if HasWorktree(s.disk, keys) {
      DeleteRememberStep(s1, keys, orphansSave);
      if orphansSave.Published? {
        DeleteAllSaveStep(s2, keys, projectsSave);
      } else {
        Skips(s2, SaveProjects(projectsSave));
      }
    } else {
      Skips(s1, SaveOrphans(orphansSave));
      DeleteAllSaveStep(s2, keys, projectsSave);
    }
  }

  // ------------------------------------------------------ rolling a creation back

  /** Marking a creation for rollback changes exactly the flags of a running thread, and
      committing it exactly those of a pending thread that is not ready for cleanup, if the
      save becomes visible. */
  lemma FlagsTake(s: State, key: Key, save: SaveOutcome)
    requires s.flight.Idle?
    ensures var d := s.disk;
      var marked := Apply(Apply(s, StartMark(key)), SaveProjects(save));
      var committed := Apply(Apply(s, StartCommit(key)), SaveProjects(save));
      var running := key in d.threads && !d.threads[key].pending;
      var pending := key in d.threads && d.threads[key].pending && !d.threads[key].ready;
      && marked.flight.Idle? && committed.flight.Idle?
      && marked.disk == (if running && save.Visible() then
           d.(threads := d.threads[key := d.threads[key].(pending := true, ready := false)]) else d)
      && committed.disk == (if pending && save.Visible() then
           d.(threads := d.threads[key := d.threads[key].(pending := false, ready := false)]) else d)
      && marked.mem == Memory(marked.disk.threads, d.orphans)
      && committed.mem == Memory(committed.disk.threads, d.orphans)
  {
    hide Apply;
    FlagStartSteps(s, key);
    var t := s.(mem := Memory(s.disk.threads, s.disk.orphans));
    var m, c := Apply(s, StartMark(key)), Apply(s, StartCommit(key));
    if m.flight.Idle? {
      Skips(m, SaveProjects(save));
    } else {
      FlagSaveSteps(m, key, save);
    }
    if c.flight.Idle? {
      Skips(c, SaveProjects(save));
    } else {
      FlagSaveSteps(c, key, save);
    }
  }

  /** Finalising the rollback of a pending thread: it leaves projects.json exactly when the
      ready flag was on disk before or is published now, its worktree, if it has one, could
      be removed, and the last save becomes visible. Its worktree is touched only once the
      flag is published; until then, and after a failure, the thread stays. */
  lemma FinalizationTakes(s: State, key: Key, ready: SaveOutcome, ok: bool, gone: bool, save: SaveOutcome)
    requires s.flight.Idle? && key in s.disk.threads && s.disk.threads[key].pending
    ensures var d, t := s.disk, FinalizeAlone(s, key, ready, ok, gone, save);
      var thread := d.threads[key];
      var flagged := thread.ready || ready.Published?;
      var flags := if thread.ready || ready.Visible() then d.threads[key := thread.(ready := true)] else d.threads;
      && t.flight.Idle? && t.mem.threads == t.disk.threads && t.disk.orphans == d.orphans
      && t.disk.threads == (if flagged && (thread.worktree ==> ok) && save.Visible() then d.threads - {key} else flags)
      && t.disk.git == (if flagged && thread.worktree && (ok || gone) then d.git - {thread.path} else d.git)
  {
    hide Apply;
    StartFinalizeStep(s, key);
    var s1 := Apply(s, StartFinalize(key));
    var thread := s.disk.threads[key];
    assert s.disk.threads[key := thread.(ready := thread.ready)] == s.disk.threads;
    var s2 := s1;
    if s1.flight.FinalReady? {
      FlagSaveSteps(s1, key, ready);
      s2 := Apply(s1, SaveProjects(ready));
    }
    RemovalSteps(s2, key, ok, gone, save);
    assert s.disk.threads[key := thread.(ready := true)] - {key} == s.disk.threads - {key};
  }

  /** The last two steps of a finalisation, or nothing if it has stopped. */
  lemma RemovalSteps(s: State, key: Key, ok: bool, gone: bool, save: SaveOutcome)
    requires s.mem.threads == s.disk.threads
    requires s.flight.Idle? || (key in s.mem.threads &&
      s.flight == if s.mem.threads[key].worktree then FinalRemove(key) else FinalSave(key))
    ensures var t := Apply(Apply(s, ForceRemove(ok, gone)), SaveProjects(save));
      && t.flight.Idle? && t.mem.threads == t.disk.threads && t.disk.orphans == s.disk.orphans
      && (s.flight.Idle? ==> t == s)
      && (!s.flight.Idle? ==>
            var thread := s.mem.threads[key];
            && t.disk.threads ==
                 (if (thread.worktree ==> ok) && save.Visible() then s.disk.threads - {key} else s.disk.threads)
            && t.disk.git == (if thread.worktree && (ok || gone) then s.disk.git - {thread.path} else s.disk.git))
  {
    hide Apply;
    if s.flight.FinalRemove? {
      FinalRemoveStep(s, key, ok, gone);
    } else {
      Skips(s, ForceRemove(ok, gone));
    }
    var s1 := Apply(s, ForceRemove(ok, gone));
    if s1.flight.Idle? {
      Skips(s1, SaveProjects(save));
    } else {
      FlagSaveSteps(s1, key, save);
    }
  }

  // ---------------------------------------------------------------- periodic cleanup

  /** The records that the cleanup decides about: those of worktrees nobody uses, and the
      discovered ones. */
  function Candidates(d: Disk, discovered: map<Path, Record>): map<Path, Record> {
    (map p | p in d.orphans && !Active(d.threads, p, d.orphans[p]) :: d.orphans[p]) + discovered
  }

  /** Is the record of this worktree dropped? One that nothing is left of can be forgotten,
      any other only after a removal that succeeded. */
  predicate Drops(verdict: Verdict, exists': bool) {
    (verdict.Prune? && !exists') || (verdict.Remove? && verdict.ok)
  }

  predicate Deletes(verdict: Verdict) {
    verdict.Remove? && (verdict.ok || verdict.gone)
  }

  /** The state of the sweep after the first n records. */
  ghost predicate SweptTo(s: State, t: State, order: seq<Path>, verdicts: seq<Verdict>, n: nat)
    requires n <= |order| == |verdicts| && s.flight.Sweep?
  {
    && t.mem == s.mem && t.disk.threads == s.disk.threads && t.disk.orphans == s.disk.orphans
    && t.flight.Sweep? && t.flight.todo == s.flight.todo - PathSet(order[..n])
    && (forall p :: p in t.flight.records <==>
          p in s.flight.records && !(exists i :: 0 <= i < n && order[i] == p && Drops(verdicts[i], p in s.disk.git)))
    && (forall p :: p in t.flight.records ==> t.flight.records[p] == s.flight.records[p])
    && (forall p :: p in t.disk.git <==>
          p in s.disk.git && !(exists i :: 0 <= i < n && order[i] == p && Deletes(verdicts[i])))
    && (t.flight.changed <==> s.flight.changed || t.flight.records != s.flight.records)
  }

  lemma PathSetGrows(order: seq<Path>, n: nat)
    requires n < |order|
    ensures PathSet(order[..n + 1]) == PathSet(order[..n]) + {order[n]} && order[n] in order
  {
    assert order[..n + 1] == order[..n] + [order[n]];
  }

  lemma {:induction false} SweepDecides(s: State, order: seq<Path>, verdicts: seq<Verdict>, n: nat)
    requires n <= |order| == |verdicts| && NoRepeats(order)
    requires s.flight.Sweep? && s.flight.todo == PathSet(order) == s.flight.records.Keys
    ensures SweptTo(s, SweepAlone(s, order[..n], verdicts[..n]), order, verdicts, n)
    decreases n
  {
    hide Apply;
    if n == 0 {
      assert PathSet(order[..0]) == {};
    } else {
      var k := n - 1;
      SweepDecides(s, order, verdicts, k);
      var r := SweepAlone(s, order[..k], verdicts[..k]);
      PathSetGrows(order, k);
      assert order[..n][..k] == order[..k] && verdicts[..n][..k] == verdicts[..k];
      StillThere(s, r, order, verdicts, k);
      SweepOneStep(r, order[k], verdicts[k]);
      SweptOneMore(s, r, Apply(r, SweepOne(order[k], verdicts[k])), order, verdicts, k);
    }
  }

  lemma StillThere(s: State, r: State, order: seq<Path>, verdicts: seq<Verdict>, k: nat)
    requires k < |order| == |verdicts| && NoRepeats(order)
    requires s.flight.Sweep? && s.flight.todo == PathSet(order) == s.flight.records.Keys
    requires SweptTo(s, r, order, verdicts, k)
    ensures order[k] in r.flight.todo && order[k] in r.flight.records
    ensures order[k] in r.disk.git <==> order[k] in s.disk.git
  {
    assert order[k] in PathSet(order);
    assert order[k] !in order[..k];
  }

  lemma SweptOneMore(s: State, r: State, t: State, order: seq<Path>, verdicts: seq<Verdict>, k: nat)
    requires k < |order| == |verdicts| && NoRepeats(order) && s.flight.Sweep?
    requires SweptTo(s, r, order, verdicts, k)
    requires order[k] in r.flight.records && (order[k] in r.disk.git <==> order[k] in s.disk.git)
    requires
      var dropped := Drops(verdicts[k], order[k] in r.disk.git);
      && t.mem == r.mem && t.disk.threads == r.disk.threads && t.disk.orphans == r.disk.orphans
      && t.disk.git == (if Deletes(verdicts[k]) then r.disk.git - {order[k]} else r.disk.git)
      && t.flight == (if dropped then Sweep(r.flight.todo - {order[k]}, r.flight.records - {order[k]}, true)
                      else Sweep(r.flight.todo - {order[k]}, r.flight.records, r.flight.changed))
    ensures SweptTo(s, t, order, verdicts, k + 1)
  {
    PathSetGrows(order, k);
    hide Drops, Deletes;
    assert s.flight.records.Keys >= t.flight.records.Keys;
    if Drops(verdicts[k], order[k] in r.disk.git) {
      assert order[k] in s.flight.records && order[k] !in t.flight.records;
    }
  }

  /** The whole cleanup, undisturbed: Git loses exactly the worktrees whose removal succeeded
      or had happened; the saved records are exactly the candidates that are not dropped,
      unchanged; without a visible save the file is as before. */
  lemma CleanupTakes(s: State, discovered: map<Path, Record>, order: seq<Path>, verdicts: seq<Verdict>,
                     save: SaveOutcome)
    requires s.flight.Idle? && Discoverable(s.disk, discovered)
    requires |order| == |verdicts| && NoRepeats(order) && PathSet(order) == Candidates(s.disk, discovered).Keys
    ensures var d := s.disk;
      var t :=
        Apply(Apply(SweepAlone(Apply(s, StartSweep(discovered)), order, verdicts), NextStage), SaveOrphans(save));
      && t.flight.Idle? && t.disk.threads == t.mem.threads == d.threads
      && (forall p :: p in t.disk.git <==>
            p in d.git && !(exists i :: 0 <= i < |order| && order[i] == p && Deletes(verdicts[i])))
      && (save.Visible() ==>
            && (forall p :: p in t.disk.orphans <==>
                  && p in Candidates(d, discovered)
                  && !(exists i :: 0 <= i < |order| && order[i] == p && Drops(verdicts[i], p in d.git)))
            && (forall p :: p in t.disk.orphans ==> t.disk.orphans[p] == Candidates(d, discovered)[p]))
      && (!save.Visible() ==> t.disk.orphans == d.orphans)
  {
    hide Apply, Active, SweepAlone, Drops, Deletes;
    SweepStartStep(s, discovered);
    var s1 := Apply(s, StartSweep(discovered));
    assert s1.flight.records == Candidates(s.disk, discovered);
    SweepDecides(s1, order, verdicts, |order|);
    assert order[..|order|] == order && verdicts[..|order|] == verdicts;
    var s2 := SweepAlone(s1, order, verdicts);
    SweepEndSteps(s2, save);
    if !s2.flight.changed {
      NothingChanged(s, discovered);
    }
  }

  lemma NothingChanged(s: State, discovered: map<Path, Record>)
    ensures var kept :=
      map p | p in s.disk.orphans && !Active(s.disk.threads, p, s.disk.orphans[p]) :: s.disk.orphans[p];
      discovered == map[] && kept == s.disk.orphans ==> Candidates(s.disk, discovered) == s.disk.orphans
  {
    hide Active;
  }

  // ------------------------------------------------------------------ startup recovery

  /** Some thread of the list has its worktree here. */
  ghost predicate WorktreeOf(threads: map<Key, Thread>, keys: seq<Key>, p: Path) {
    exists k :: k in keys && k in threads && threads[k].worktree && threads[k].path == p
  }

  lemma {:induction false} ReadyWorktreesGo(s: State, order: seq<Key>, replies: seq<Reply>)
    requires |order| == |replies| && NoRepeats(order) && AllOk(replies)
    requires s.flight.RecoverReady? && KeySet(order) <= s.flight.ready
    requires forall k :: k in order ==> k in s.mem.threads
    ensures forall p :: p in RecoverAlone(s, order, replies).disk.git <==>
      p in s.disk.git && !WorktreeOf(s.mem.threads, order, p)
  {
    hide Apply;
    if order != [] {
      var n := |order| - 1;
      var init, key := order[..n], order[n];
      assert order == init + [key] && replies[n].ok;
      ReadyWorktreesGo(s, init, replies[..n]);
      ReadyAllRemoved(s, init, replies[..n]);
      assert key !in KeySet(init) && key in KeySet(order);
      RecoverThreadStep(RecoverAlone(s, init, replies[..n]), key, replies[n].ok, replies[n].gone);
    }
  }

  lemma {:induction false} IntentWorktreesGo(s: State, paths: seq<Path>, replies: seq<Reply>)
    requires |paths| == |replies| && NoRepeats(paths) && AllOk(replies)
    requires s.flight.RecoverIntents? && PathSet(paths) <= s.flight.todo
    requires forall p :: p in paths ==> p in s.mem.orphans
    ensures forall p :: p in IntentsAlone(s, paths, replies).disk.git <==>
      p in s.disk.git && !(p in paths && !Active(s.mem.threads, p, s.mem.orphans[p]))
  {
    hide Apply, Active;
    if paths != [] {
      var n := |paths| - 1;
      var init, path := paths[..n], paths[n];
      assert paths == init + [path] && replies[n].ok;
      IntentWorktreesGo(s, init, replies[..n]);
      IntentsAllDecided(s, init, replies[..n]);
      assert path !in PathSet(init) && path in PathSet(paths);
      RecoverIntentStep(IntentsAlone(s, init, replies[..n]), path, replies[n].ok, replies[n].gone);
    }
  }

  /** A restart whose removals and saves succeed: exactly the ready threads leave
      projects.json and exactly the creation intents leave the records; Git loses exactly
      the worktrees of the ready threads, and those of the intents that no remaining thread
      uses. */
  lemma RecoveryTakes(s: State, order: seq<Key>, replies: seq<Reply>, paths: seq<Path>, pathReplies: seq<Reply>)
    requires |order| == |replies| && NoRepeats(order) && AllOk(replies)
    requires |paths| == |pathReplies| && NoRepeats(paths) && AllOk(pathReplies)
    requires forall k :: k in order <==> k in s.disk.threads && IsReady(s.disk.threads[k])
    requires forall p :: p in paths <==> p in s.disk.orphans && s.disk.orphans[p].intent
    ensures var d, t := s.disk, RecoverWhole(s, order, replies, paths, pathReplies);
      && t.disk.threads == d.threads - KeySet(order) && t.disk.orphans == d.orphans - PathSet(paths)
      && (forall p :: p in t.disk.git <==>
            && p in d.git && !WorktreeOf(d.threads, order, p)
            && !(p in paths && !Active(t.disk.threads, p, d.orphans[p])))
  {
    hide *;
    var s1 := Apply(Apply(s, Crash), StartRecover);
    var s2 := Apply(Apply(RecoverAlone(s1, order, replies), NextStage), SaveProjects(Published));
    WholeUnfolds(s, order, replies, paths, pathReplies);
    ReadyStageTakes(s, order, replies);
    IntentStageTakes(s2, paths, pathReplies);
  }

  lemma WholeUnfolds(s: State, order: seq<Key>, replies: seq<Reply>, paths: seq<Path>, pathReplies: seq<Reply>)
    requires |order| == |replies| && |paths| == |pathReplies|
    ensures RecoverWhole(s, order, replies, paths, pathReplies) ==
      var s1 := Apply(Apply(s, Crash), StartRecover);
      var s2 := Apply(Apply(RecoverAlone(s1, order, replies), NextStage), SaveProjects(Published));
      Apply(Apply(IntentsAlone(s2, paths, pathReplies), NextStage), SaveOrphans(Published))
  {
    hide Apply, RecoverAlone, IntentsAlone;
  }

  lemma ReadyStageTakes(s: State, order: seq<Key>, replies: seq<Reply>)
    requires |order| == |replies| && NoRepeats(order) && AllOk(replies)
    requires forall k :: k in order <==> k in s.disk.threads && IsReady(s.disk.threads[k])
    ensures var t :=
      Apply(Apply(RecoverAlone(Apply(Apply(s, Crash), StartRecover), order, replies), NextStage),
            SaveProjects(Published));
      && t.flight == FirstIntents(t) && t.mem == Memory(t.disk.threads, t.disk.orphans)
      && t.disk.threads == s.disk.threads - KeySet(order) && t.disk.orphans == s.disk.orphans
      && (forall p :: p in t.disk.git <==> p in s.disk.git && !WorktreeOf(s.disk.threads, order, p))
  {
    hide Apply, RecoverAlone, IsReady, WorktreeOf;
    RestartSteps(s);
    var s1 := Apply(Apply(s, Crash), StartRecover);
    assert KeySet(order) == s1.flight.ready;
    ReadyAllRemoved(s1, order, replies);
    ReadyWorktreesGo(s1, order, replies);
    var s2 := RecoverAlone(s1, order, replies);
    assert s2.flight == RecoverReady({}, KeySet(order));
    NextStageSteps(s2, Published);
    if order == [] {
      assert KeySet(order) == {} && s.disk.threads - {} == s.disk.threads;
    } else {
      assert order[0] in KeySet(order);
    }
  }

  lemma IntentStageTakes(s: State, paths: seq<Path>, replies: seq<Reply>)
    requires |paths| == |replies| && NoRepeats(paths) && AllOk(replies)
    requires s.flight == FirstIntents(s) && s.mem == Memory(s.disk.threads, s.disk.orphans)
    requires forall p :: p in paths <==> p in s.disk.orphans && s.disk.orphans[p].intent
    ensures var t := Apply(Apply(IntentsAlone(s, paths, replies), NextStage), SaveOrphans(Published));
      && t.disk.threads == s.disk.threads && t.disk.orphans == s.disk.orphans - PathSet(paths)
      && (forall p :: p in t.disk.git <==>
            p in s.disk.git && !(p in paths && !Active(s.disk.threads, p, s.disk.orphans[p])))
  {
    hide Apply, IntentsAlone, Active;
    assert PathSet(paths) == s.flight.todo;
    IntentsAllDecided(s, paths, replies);
    IntentWorktreesGo(s, paths, replies);
    var s3 := IntentsAlone(s, paths, replies);
    assert s3.flight == RecoverIntents({}, PathSet(paths));
    IntentsEndSteps(s3, Published);
    if paths == [] {
      assert PathSet(paths) == {} && s.disk.orphans - {} == s.disk.orphans;
    } else {
      assert paths[0] in PathSet(paths);
    }
  }
}
