/** Several Store instances share projects.json. Every mutator takes the file lock,
    reloads, changes its copy, saves and releases; a save may fail before the new file is
    visible, fail after it, or succeed, and a process may crash between any two steps. */
module StoreMutations {
  import opened Common

  /** An operation on the project list; None is an error before anything is saved. */
  type Operation<!T> = T -> Option<T>

  /** `seen` counts the published operations this copy of the list contains. */
  datatype Copy<T> = Copy(list: T, seen: nat)

  datatype Phase<!T> =
    | Resting(copy: Copy<T>)
    | Locked(copy: Copy<T>)                                        // lock held, file not yet read
    | Loaded(copy: Copy<T>)
    | Edited(copy: Copy<T>, edited: T, op: Operation<T>)           // changed in memory, not saved
    | Leaving(copy: Copy<T>, reloaded: bool)                       // about to release

  /** `published` lists the operations whose save became visible, in that order. */
  datatype System<!T> = System(file: T, lock: Option<nat>, stores: map<nat, Phase<T>>, published: seq<Operation<T>>)

  datatype Event<!T> =
    | Open                         // a new instance reads the file
    | TryLock
    | Reload(ok: bool)
    | Operate(op: Operation<T>)
    | Save(outcome: SaveOutcome)
    | Release
    | Crash

  function Move<T>(s: System<T>, i: nat, p: Phase<T>): System<T> {
    s.(stores := s.stores[i := p])
  }

  function Begin<T>(s: System<T>, i: nat, p: Phase<T>, e: Event<T>): System<T> {
    match p
    case Resting(copy) => if e.TryLock? && s.lock.None? then Move(s, i, Locked(copy)).(lock := Some(i)) else s
    case Locked(copy) =>
      if !e.Reload? then s
      else if e.ok then Move(s, i, Loaded(Copy(s.file, |s.published|)))
      else Move(s, i, Leaving(copy, false))
    case Loaded(copy) =>
      if !e.Operate? then s
      else if e.op(copy.list).None? then Move(s, i, Leaving(copy, true))
      else Move(s, i, Edited(copy, e.op(copy.list).value, e.op))
    case _ => s
  }

  function Finish<T>(s: System<T>, i: nat, p: Phase<T>, e: Event<T>): System<T> {
    match p
    case Edited(copy, edited, op) =>
      if !e.Save? then s
      else if e.outcome.Visible() then
        Move(s.(file := edited, published := s.published + [op]), i, Leaving(Copy(edited, |s.published| + 1), true))
      else Move(s, i, Leaving(copy, true))
    case Leaving(copy, _) => if e.Release? then Move(s, i, Resting(copy)).(lock := None) else s
    case _ => s
  }

  function Apply<T>(s: System<T>, i: nat, e: Event<T>): System<T> {
    if i !in s.stores then
      if e.Open? then Move(s, i, Resting(Copy(s.file, |s.published|))) else s
    else if e.Crash? then
      s.(stores := s.stores - {i}, lock := if s.lock == Some(i) then None else s.lock)
    else if s.stores[i].Edited? || s.stores[i].Leaving? then Finish(s, i, s.stores[i], e)
    else Begin(s, i, s.stores[i], e)
  }

  datatype Turn<!T> = Turn(store: nat, event: Event<T>)

  function Run<T>(file: T, turns: seq<Turn<T>>): System<T> {
    if turns == [] then System(file, None, map[], [])
    else
      var last := turns[|turns| - 1];
      Apply(Run(file, turns[..|turns| - 1]), last.store, last.event)
  }

  /** The published operations applied one after the other. */
  function Fold<T>(file: T, ops: seq<Operation<T>>): Option<T> {
    if ops == [] then Some(file)
    else
      match Fold(file, ops[..|ops| - 1])
      case None => None
      case Some(list) => ops[|ops| - 1](list)
  }

  // -------------------------------------------------------------------- invariants

  predicate HoldsLock<T>(p: Phase<T>) {
    !p.Resting?
  }

  /** A copy is the file as it was after some number of published operations. */
  ghost predicate Genuine<T>(file: T, s: System<T>, copy: Copy<T>) {
    copy.seen <= |s.published| && Fold(file, s.published[..copy.seen]) == Some(copy.list)
  }

  ghost predicate Current<T>(s: System<T>, copy: Copy<T>) {
    copy.list == s.file && copy.seen == |s.published|
  }

  ghost predicate PhaseOK<T>(file: T, s: System<T>, i: nat, p: Phase<T>) {
    && Genuine(file, s, p.copy)
    && (HoldsLock(p) <==> s.lock == Some(i))
    && (p.Loaded? || p.Edited? || (p.Leaving? && p.reloaded) ==> Current(s, p.copy))
    && (p.Edited? ==> p.op(s.file) == Some(p.edited))
  }

  ghost predicate Inv<T>(file: T, s: System<T>) {
    && Fold(file, s.published) == Some(s.file)
    && (s.lock.Some? ==> s.lock.value in s.stores)
    && (forall i :: i in s.stores ==> PhaseOK(file, s, i, s.stores[i]))
  }

  lemma FoldAppend<T>(file: T, ops: seq<Operation<T>>, op: Operation<T>, list: T)
    requires Fold(file, ops) == Some(list)
    ensures Fold(file, ops + [op]) == op(list)
  {
    assert (ops + [op])[..|ops|] == ops;
  }

  lemma GenuineLater<T>(file: T, s: System<T>, t: System<T>, copy: Copy<T>)
    requires Genuine(file, s, copy) && s.published <= t.published
    ensures Genuine(file, t, copy)
  {
    assert t.published[..copy.seen] == s.published[..copy.seen];
  }

  lemma NowIsGenuine<T>(file: T, s: System<T>)
    requires Inv(file, s)
    ensures Genuine(file, s, Copy(s.file, |s.published|))
  {
    assert s.published[..|s.published|] == s.published;
  }

  /** A store that does not move keeps its invariant as long as the lock is not its own. */
  lemma OthersKeepPhase<T>(file: T, s: System<T>, t: System<T>, k: nat, p: Phase<T>)
    requires PhaseOK(file, s, k, p) && s.published <= t.published
    requires HoldsLock(p) ==> t.file == s.file && t.published == s.published
    requires s.lock == Some(k) <==> t.lock == Some(k)
    ensures PhaseOK(file, t, k, p)
  {
    GenuineLater(file, s, t, p.copy);
    hide Fold;
  }

  lemma BeginKeepsInv<T>(file: T, s: System<T>, i: nat, e: Event<T>)
    requires Inv(file, s) && i in s.stores
    ensures Inv(file, Begin(s, i, s.stores[i], e))
  {
    var t := Begin(s, i, s.stores[i], e);
    NowIsGenuine(file, s);
    assert PhaseOK(file, s, i, s.stores[i]);
    hide Fold;
    forall k | k in t.stores && k != i ensures PhaseOK(file, t, k, t.stores[k]) {
      assert PhaseOK(file, s, k, s.stores[k]);
      OthersKeepPhase(file, s, t, k, s.stores[k]);
    }
  }

  /** While `i` holds the lock, the resting stores keep their invariant. */
  lemma RestingKeepPhase<T>(file: T, s: System<T>, t: System<T>, i: nat)
    requires Inv(file, s) && i in s.stores && s.lock == Some(i)
    requires i in t.stores && t.stores == s.stores[i := t.stores[i]] && t.lock == s.lock && s.published <= t.published
    ensures forall k :: k in t.stores && k != i ==> PhaseOK(file, t, k, t.stores[k])
  {
    hide Fold, Genuine, Current;
    forall k | k in t.stores && k != i ensures PhaseOK(file, t, k, t.stores[k]) {
      assert PhaseOK(file, s, k, s.stores[k]);
      OthersKeepPhase(file, s, t, k, s.stores[k]);
    }
  }

  lemma HolderHasLock<T>(file: T, s: System<T>, i: nat)
    requires Inv(file, s) && i in s.stores && HoldsLock(s.stores[i])
    ensures s.lock == Some(i)
  {
    assert PhaseOK(file, s, i, s.stores[i]);
  }

  /** The save became visible: the file is one published operation further. */
  lemma VisibleSaveKeepsInv<T>(file: T, s: System<T>, i: nat)
    requires Inv(file, s) && i in s.stores && s.stores[i].Edited?
    ensures var p := s.stores[i];
      Inv(file,
          System(p.edited, s.lock, s.stores[i := Leaving(Copy(p.edited, |s.published| + 1), true)],
                 s.published + [p.op]))
  {
    var p := s.stores[i];
    var t :=
      System(p.edited, s.lock, s.stores[i := Leaving(Copy(p.edited, |s.published| + 1), true)], s.published + [p.op]);
    HolderHasLock(file, s, i);
    RestingKeepPhase(file, s, t, i);
    assert PhaseOK(file, s, i, p);
    FoldAppend(file, s.published, p.op, s.file);
    assert t.published[..|t.published|] == t.published;
    hide Fold;
  }

  /** The save failed before the rename: nothing moved but the phase. */
  lemma FailedSaveKeepsInv<T>(file: T, s: System<T>, i: nat)
    requires Inv(file, s) && i in s.stores && s.stores[i].Edited?
    ensures Inv(file, Move(s, i, Leaving(s.stores[i].copy, true)))
  {
    var p := s.stores[i];
    var t := Move(s, i, Leaving(p.copy, true));
    HolderHasLock(file, s, i);
    RestingKeepPhase(file, s, t, i);
    assert PhaseOK(file, s, i, p);
    hide Fold;
  }

  lemma SaveKeepsInv<T>(file: T, s: System<T>, i: nat, outcome: SaveOutcome)
    requires Inv(file, s) && i in s.stores && s.stores[i].Edited?
    ensures Inv(file, Finish(s, i, s.stores[i], Save(outcome)))
  {
    hide Inv;
    if outcome.Visible() {
      VisibleSaveKeepsInv(file, s, i);
    } else {
      FailedSaveKeepsInv(file, s, i);
    }
  }

  lemma ReleaseKeepsInv<T>(file: T, s: System<T>, i: nat)
    requires Inv(file, s) && i in s.stores && s.stores[i].Leaving?
    ensures Inv(file, Finish(s, i, s.stores[i], Release))
  {
    var t := Finish(s, i, s.stores[i], Release);
    assert PhaseOK(file, s, i, s.stores[i]);
    hide Fold;
    forall k | k in t.stores && k != i ensures PhaseOK(file, t, k, t.stores[k]) {
      assert PhaseOK(file, s, k, s.stores[k]);
      OthersKeepPhase(file, s, t, k, s.stores[k]);
    }
  }

  lemma CrashKeepsInv<T>(file: T, s: System<T>, i: nat)
    requires Inv(file, s) && i in s.stores
    ensures Inv(file, Apply(s, i, Crash))
  {
    var t := Apply(s, i, Crash);
    hide Fold;
    forall k | k in t.stores ensures PhaseOK(file, t, k, t.stores[k]) {
      assert PhaseOK(file, s, k, s.stores[k]);
      OthersKeepPhase(file, s, t, k, s.stores[k]);
    }
  }

  lemma OpenKeepsInv<T>(file: T, s: System<T>, i: nat)
    requires Inv(file, s) && i !in s.stores
    ensures Inv(file, Apply(s, i, Open))
  {
    var t := Apply(s, i, Open);
    NowIsGenuine(file, s);
    hide Fold;
    forall k | k in t.stores && k != i ensures PhaseOK(file, t, k, t.stores[k]) {
      assert PhaseOK(file, s, k, s.stores[k]);
      OthersKeepPhase(file, s, t, k, s.stores[k]);
    }
  }

  lemma StepKeepsInv<T>(file: T, s: System<T>, i: nat, e: Event<T>)
    requires Inv(file, s)
    ensures Inv(file, Apply(s, i, e))
  {
    hide Inv, Begin;
    if i !in s.stores {
      if e.Open? {
        OpenKeepsInv(file, s, i);
      }
    } else if e.Crash? {
      CrashKeepsInv(file, s, i);
    } else if s.stores[i].Edited? {
      if e.Save? {
        SaveKeepsInv(file, s, i, e.outcome);
      }
    } else if s.stores[i].Leaving? {
      if e.Release? {
        ReleaseKeepsInv(file, s, i);
      }
    } else {
      BeginKeepsInv(file, s, i, e);
    }
  }

  lemma {:induction false} RunKeepsInv<T>(file: T, turns: seq<Turn<T>>)
    ensures Inv(file, Run(file, turns))
  {
    if turns != [] {
      var last := turns[|turns| - 1];
      RunKeepsInv(file, turns[..|turns| - 1]);
      StepKeepsInv(file, Run(file, turns[..|turns| - 1]), last.store, last.event);
    }
  }

  // --------------------------------------------------------------- main statements

  /** No lost update: with any number of instances, crashes and failed saves, the file is
      always the published operations applied in order, each to the result of the one
      before it. */
  lemma FileIsFoldOfPublished<T>(file: T, turns: seq<Turn<T>>)
    ensures var s := Run(file, turns); Fold(file, s.published) == Some(s.file)
  {
    RunKeepsInv(file, turns);
  }

  /** On return from a mutator memory equals the file, however its save ended; only a
      mutator that could not read the file leaves memory as it was. */
  lemma MemoryEqualsFileOnReturn<T>(file: T, turns: seq<Turn<T>>, i: nat)
    requires var s := Run(file, turns); i in s.stores && s.stores[i].Leaving? && s.stores[i].reloaded
    ensures var t := Apply(Run(file, turns), i, Release);
      && i in t.stores && t.stores[i].Resting? && t.stores[i].copy == Copy(t.file, |t.published|)
      && t.lock.None?
  {
    RunKeepsInv(file, turns);
    var s := Run(file, turns);
    assert PhaseOK(file, s, i, s.stores[i]);
  }

  /** What any instance has in memory is never invented: it is the file as it stood after
      some of the published operations, and at most one instance is mid-mutation. */
  lemma MemoryIsSomePublishedState<T>(file: T, turns: seq<Turn<T>>, i: nat, j: nat)
    requires var s := Run(file, turns); i in s.stores && j in s.stores
    ensures var s := Run(file, turns);
      var copy := s.stores[i].copy;
      && copy.seen <= |s.published| && Fold(file, s.published[..copy.seen]) == Some(copy.list)
      && (!s.stores[i].Resting? && !s.stores[j].Resting? ==> i == j)
  {
    RunKeepsInv(file, turns);
    var s := Run(file, turns);
    assert PhaseOK(file, s, i, s.stores[i]) && PhaseOK(file, s, j, s.stores[j]);
  }

  lemma BeginSeesMore<T>(s: System<T>, k: nat, e: Event<T>, i: nat)
    requires i in s.stores && k in s.stores && s.stores[i].copy.seen <= |s.published|
    ensures var t := Begin(s, k, s.stores[k], e);
      t.published == s.published && i in t.stores && s.stores[i].copy.seen <= t.stores[i].copy.seen
  {
  }

  lemma FinishSeesMore<T>(s: System<T>, k: nat, e: Event<T>, i: nat)
    requires i in s.stores && k in s.stores && s.stores[i].copy.seen <= |s.published|
    ensures var t := Finish(s, k, s.stores[k], e);
      s.published <= t.published && i in t.stores && s.stores[i].copy.seen <= t.stores[i].copy.seen
  {
  }

  /** An instance never goes back to an older state, and published operations stay. */
  lemma MemoryNeverGoesBack<T>(file: T, turns: seq<Turn<T>>, k: nat, e: Event<T>, i: nat)
    ensures var s, t := Run(file, turns), Apply(Run(file, turns), k, e);
      && s.published <= t.published
      && (i in s.stores && i in t.stores ==> s.stores[i].copy.seen <= t.stores[i].copy.seen)
  {
    RunKeepsInv(file, turns);
    var s := Run(file, turns);
    if i in s.stores {
      assert PhaseOK(file, s, i, s.stores[i]);
    }
    hide Run, Inv, PhaseOK, Fold, Begin, Finish;
    if k in s.stores {
      if i in s.stores {
        BeginSeesMore(s, k, e, i);
        FinishSeesMore(s, k, e, i);
      }
      PublishedStays(s, k, e);
    }
  }

  lemma PublishedStays<T>(s: System<T>, k: nat, e: Event<T>)
    requires k in s.stores
    ensures s.published == Begin(s, k, s.stores[k], e).published <= s.published
    ensures s.published <= Finish(s, k, s.stores[k], e).published
  {
  }

  /** The uninterrupted machine run of one mutator. */
  ghost function MutateAlone<T>(s: System<T>, i: nat, op: Operation<T>, reloaded: bool,
                                outcome: SaveOutcome): System<T>
  {
    var s1 := Apply(Apply(s, i, TryLock), i, Reload(reloaded));
    Apply(Apply(Apply(s1, i, Operate(op)), i, Save(outcome)), i, Release)
  }

  lemma LoadSteps<T>(s: System<T>, i: nat, copy: Copy<T>, reloaded: bool)
    requires i in s.stores && s.stores[i] == Resting(copy) && s.lock.None?
    ensures Apply(Apply(s, i, TryLock), i, Reload(reloaded)) ==
      Move(s, i, if reloaded then Loaded(Copy(s.file, |s.published|)) else Leaving(copy, false)).(lock := Some(i))
  {
    hide Finish;
    assert Apply(s, i, TryLock) == Move(s, i, Locked(copy)).(lock := Some(i));
  }

  lemma LeavingSteps<T>(s: System<T>, i: nat, op: Operation<T>, outcome: SaveOutcome)
    requires i in s.stores && s.stores[i].Leaving?
    ensures Apply(s, i, Operate(op)) == s && Apply(s, i, Save(outcome)) == s
    ensures Apply(s, i, Release) == Move(s, i, Resting(s.stores[i].copy)).(lock := None)
  {
  }

  lemma EditSteps<T>(s: System<T>, i: nat, copy: Copy<T>, op: Operation<T>, outcome: SaveOutcome)
    requires i in s.stores && s.stores[i] == Loaded(copy)
    ensures Apply(Apply(s, i, Operate(op)), i, Save(outcome)) ==
      if op(copy.list).None? || !outcome.Visible() then Move(s, i, Leaving(copy, true))
      else
        var edited := op(copy.list).value;
        Move(s, i, Leaving(Copy(edited, |s.published| + 1), true)).(file := edited, published := s.published + [op])
  {
    var s1 := Apply(s, i, Operate(op));
    if op(copy.list).None? {
      LeavingSteps(s1, i, op, outcome);
    } else {
      assert s1 == Move(s, i, Edited(copy, op(copy.list).value, op));
    }
  }

  /** One undisturbed mutator, from any state in which its instance rests and the lock is
      free: the file becomes the operation's result on the file, whatever the instance had
      in memory, exactly when the file could be read, the operation succeeded on it and the
      save became visible. Memory then equals the file, unless the file could not be read. */
  lemma MutationTakes<T>(s: System<T>, i: nat, op: Operation<T>, reloaded: bool, outcome: SaveOutcome)
    requires i in s.stores && s.stores[i].Resting? && s.lock.None?
    ensures var t := MutateAlone(s, i, op, reloaded, outcome);
      var done := reloaded && op(s.file).Some? && outcome != NotPublished;
      && t.file == (if done then op(s.file).value else s.file)
      && t.published == (if done then s.published + [op] else s.published)
      && t.lock.None? && t.stores.Keys == s.stores.Keys
      && t.stores[i] == Resting(if reloaded then Copy(t.file, |t.published|) else s.stores[i].copy)
      && (forall k :: k in s.stores && k != i ==> t.stores[k] == s.stores[k])
  {
    hide Apply;
    var copy := s.stores[i].copy;
    LoadSteps(s, i, copy, reloaded);
    var s2 := Apply(Apply(s, i, TryLock), i, Reload(reloaded));
    var s4 := Apply(Apply(s2, i, Operate(op)), i, Save(outcome));
    if reloaded {
      EditSteps(s2, i, Copy(s.file, |s.published|), op, outcome);
    } else {
      LeavingSteps(s2, i, op, outcome);
    }
    LeavingSteps(s4, i, op, outcome);
  }

  /** A crash frees the lock and leaves the file. */
  lemma CrashLeavesFile<T>(file: T, turns: seq<Turn<T>>, i: nat)
    requires i in Run(file, turns).stores
    ensures var s, t := Run(file, turns), Apply(Run(file, turns), i, Crash);
      && t.file == s.file && t.published == s.published && i !in t.stores
      && (!s.stores[i].Resting? ==> t.lock.None?)
  {
    RunKeepsInv(file, turns);
    assert PhaseOK(file, Run(file, turns), i, Run(file, turns).stores[i]);
  }

  // ------------------------------------------------------------------ the Store object

  class ProjectsFile<T> {
    var contents: T
    var locked: bool

    constructor (contents: T)
      ensures this.contents == contents && !locked
    {
      this.contents, locked := contents, false;
    }

    /** The atomic write: a failure before the rename leaves the old file. */
    method Write(contents: T, outcome: SaveOutcome)
      modifies this`contents
      ensures this.contents == if outcome.Visible() then contents else old(this.contents)
    {
      if outcome.Visible() {
        this.contents := contents;
      }
    }
  }

  datatype MutationError = LockUnavailable | Unreadable | OperationFailed | SaveFailed(published: bool)

  class Store<T> {
    const file: ProjectsFile<T>
    var projects: T

    constructor (file: ProjectsFile<T>)
      ensures this.file == file && projects == file.contents
    {
      this.file, projects := file, file.contents;
    }

    /** One mutator: lock, reload, operate, save or undo, release. */
    method WithProjectMutation(op: T -> Option<T>, reloaded: bool, outcome: SaveOutcome)
        returns (error: Option<MutationError>)
      modifies this, file
      ensures file.locked == old(file.locked)
      ensures old(file.locked) ==>
        error == Some(LockUnavailable) && projects == old(projects) && file.contents == old(file.contents)
      ensures !old(file.locked) ==>
        var s := System(old(file.contents), None, map[0 := Resting(Copy(old(projects), 0))], []);
        var t := MutateAlone(s, 0, op, reloaded, outcome);
        && t.file == file.contents && t.lock.None? && t.stores.Keys == {0}
        && t.stores[0].Resting? && t.stores[0].copy.list == projects
      ensures error.None? <==>
        !old(file.locked) && reloaded && op(old(file.contents)).Some? && outcome.Published?
      ensures error == Some(Unreadable) <==> !old(file.locked) && !reloaded
      ensures error == Some(OperationFailed) <==>
        !old(file.locked) && reloaded && op(old(file.contents)).None?
      ensures error.Some? && error.value.SaveFailed? ==> error.value.published == outcome.Visible()
      ensures error.None? || (error.value.SaveFailed? && error.value.published) ==>
        op(old(file.contents)) == Some(projects) && file.contents == projects
      ensures error.Some? && !(error.value.SaveFailed? && error.value.published) ==>
        file.contents == old(file.contents)
      ensures error.Some? && (error.value.OperationFailed? || error.value.SaveFailed?) ==> projects == file.contents
    {
      hide MutateAlone;
      if file.locked {
        return Some(LockUnavailable);
      }
      ghost var s := System(file.contents, None, map[0 := Resting(Copy(projects, 0))], []);
      MutationTakes(s, 0, op, reloaded, outcome);
      file.locked := true;
      if !reloaded {
        file.locked := false;
        return Some(Unreadable);
      }
      projects := file.contents;
      var next := op(projects);
      if next.None? {
        file.locked := false;
        return Some(OperationFailed);
      }
      var previous := projects;
      projects := next.value;
      file.Write(projects, outcome);
      if !outcome.Visible() {
        projects := previous;
      }
      file.locked := false;
      if outcome.Published? {
        return None;
      }
      return Some(SaveFailed(outcome.Visible()));
    }
  }
}
