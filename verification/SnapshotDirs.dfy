/** Directories against metadata: Prepare, Remove and Cleanup of the snapshotter
    (pkg/snapshot/overlay.go:481-509, 1008-1063, 1082-1187, 1481-1584) as
    interleaved steps.  The metastore has one write transaction at a time; a
    rolled-back transaction gives its id back.  Cleanup lists directories inside
    a transaction but deletes them after releasing it, so its deletions
    interleave with everything. */
module SnapshotDirs {

  type Id = nat

  /** The open write transaction, if any. */
  datatype Tx =
    | Idle
    | Preparing(id: Id)                    // id allocated, directory still "new-..."
    | Renamed(id: Id)                      // directory in place, not yet committed
    | Removing(id: Id, doomed: set<Id>)    // metadata removed, directories being deleted

  /** - `live`: ids in the committed metadata;
      - `dirs`: directories named by an id;
      - `pending`: the worklists of running Cleanup calls;
      - `torn`: ids whose removal was not committed although their directory
        was already deleted (Remove ignores that error);
      - `stale`: some Prepare failed without taking its directory away. */
  datatype State = State(
    live: set<Id>, dirs: set<Id>, next: Id, tx: Tx, pending: seq<set<Id>>, torn: set<Id>, stale: bool)

  const EMPTY := State({}, {}, 0, Idle, [], {}, false)

  datatype Action =
    | BeginPrepare                        // TransactionContext, prepareDirectory, CreateSnapshot
    | Rename                              // os.Rename(td, path)
    | CommitPrepare
    | FailPrepare(cleaned: bool)          // RemoveAll, Rollback; or a failed Commit
    | BeginRemove(id: Id, async: bool)    // storage.Remove, getCleanupDirectories
    | RemoveDir(id: Id)                   // RemoveAll inside Remove
    | CommitRemove(ok: bool)
    | BeginCleanup                        // cleanupDirectories: list and roll back
    | CleanupDir(c: nat, id: Id)          // RemoveAll inside Cleanup
    | EndCleanup(c: nat)

  predicate Enabled(s: State, a: Action) {
    match a
    case BeginPrepare => s.tx.Idle?
    case Rename => s.tx.Preparing?
    case CommitPrepare => s.tx.Renamed?
    case FailPrepare(_) => s.tx.Preparing? || s.tx.Renamed?
    case BeginRemove(id, _) => s.tx.Idle? && id in s.live
    case RemoveDir(id) => s.tx.Removing? && id in s.tx.doomed
    case CommitRemove(_) => s.tx.Removing?
    case BeginCleanup => s.tx.Idle?
    case CleanupDir(c, id) => c < |s.pending| && id in s.pending[c]
    case EndCleanup(c) => c < |s.pending|
  }

  function Apply(s: State, a: Action): State
    requires Enabled(s, a)
  {
    match a
    case BeginPrepare => s.(tx := Preparing(s.next))
    case Rename =>
      // A non-empty directory in the way makes the rename fail, and the error
      // path takes that directory away.
      if s.tx.id in s.dirs then s.(dirs := s.dirs - {s.tx.id}, tx := Idle)
      else s.(dirs := s.dirs + {s.tx.id}, tx := Renamed(s.tx.id))
    case CommitPrepare => s.(live := s.live + {s.tx.id}, next := s.next + 1, tx := Idle)
    case FailPrepare(cleaned) =>
      if s.tx.Preparing? then s.(tx := Idle)
      else if cleaned then s.(dirs := s.dirs - {s.tx.id}, tx := Idle)
      else s.(tx := Idle, stale := true)
    case BeginRemove(id, async) =>
      // With asyncRemove the directory is left for Cleanup.
      s.(tx := Removing(id, if async then {} else s.dirs - (s.live - {id})))
    case RemoveDir(id) => s.(dirs := s.dirs - {id})
    case CommitRemove(ok) =>
      if ok then s.(live := s.live - {s.tx.id}, tx := Idle)
      else s.(tx := Idle, torn := s.torn + {s.tx.id})
    case BeginCleanup => s.(pending := s.pending + [s.dirs - s.live])
    case CleanupDir(c, id) => s.(dirs := s.dirs - {id})
    case EndCleanup(c) => s.(pending := s.pending[..c] + s.pending[c + 1..])
  }

  ghost predicate Run(s: State, acts: seq<Action>, t: State)
    decreases |acts|
  {
    if acts == [] then s == t else Enabled(s, acts[0]) && Run(Apply(s, acts[0]), acts[1..], t)
  }

  // ---------- What every step does ----------

  /** Deletes this directory: in Remove, in Cleanup, or in a Prepare that fails or
      finds it in its way. */
  predicate Deletes(s: State, a: Action, id: Id) {
    || a == RemoveDir(id)
    || (a.CleanupDir? && a.id == id)
    || (s.tx == Renamed(id) && a == FailPrepare(true))
    || (s.tx == Preparing(id) && a.Rename? && id in s.dirs)
  }

  /** The directories after any step: those that it does not delete, and the one
      that a Prepare has just put into place. */
  lemma DirsAfterStep(s: State, a: Action, id: Id)
    requires Enabled(s, a)
    ensures id in Apply(s, a).dirs <==>
      (if id in s.dirs then !Deletes(s, a, id) else s.tx == Preparing(id) && a.Rename?)
  {
  }

  /** The committed snapshots after any step: only the two commits change them. */
  lemma LiveAfterStep(s: State, a: Action, id: Id)
    requires Enabled(s, a)
    ensures id in Apply(s, a).live <==>
      (if id in s.live then !(s.tx.Removing? && s.tx.id == id && a == CommitRemove(true))
       else s.tx == Renamed(id) && a.CommitPrepare?)
  {
  }

  lemma {:induction false} RunsJoin(s: State, acts: seq<Action>, m: State, more: seq<Action>, t: State)
    requires Run(s, acts, m) && Run(m, more, t)
    ensures Run(s, acts + more, t)
    decreases |acts|
  {
    if acts == [] {
      assert acts + more == more;
    } else {
      assert (acts + more)[1..] == acts[1..] + more;
      RunsJoin(Apply(s, acts[0]), acts[1..], m, more, t);
    }
  }

  lemma OneStep(s: State, a: Action)
    requires Enabled(s, a)
    ensures Run(s, [a], Apply(s, a))
  {
    assert Run(Apply(s, a), [], Apply(s, a));
  }

  /** A Prepare that nothing disturbs makes the next id live, with its directory. */
  lemma PrepareMakesLive(s: State)
    requires s.tx.Idle? && s.next !in s.dirs
    ensures Run(s, [BeginPrepare, Rename, CommitPrepare],
                s.(live := s.live + {s.next}, dirs := s.dirs + {s.next}, next := s.next + 1))
  {
    var m1 := Apply(s, BeginPrepare);
    var m2 := Apply(m1, Rename);
    OneStep(s, BeginPrepare);
    OneStep(m1, Rename);
    OneStep(m2, CommitPrepare);
    RunsJoin(m1, [Rename], m2, [CommitPrepare], Apply(m2, CommitPrepare));
    RunsJoin(s, [BeginPrepare], m1, [Rename, CommitPrepare], Apply(m2, CommitPrepare));
  }

  function Ids(ids: seq<Id>): set<Id> {
    set id | id in ids
  }

  function RemoveDirs(ids: seq<Id>): seq<Action> {
    seq(|ids|, i requires 0 <= i < |ids| => RemoveDir(ids[i]))
  }

  function CleanupDirs(c: nat, ids: seq<Id>): seq<Action> {
    seq(|ids|, i requires 0 <= i < |ids| => CleanupDir(c, ids[i]))
  }

  lemma {:induction false} RemovesDirs(s: State, ids: seq<Id>)
    requires s.tx.Removing? && forall id :: id in ids ==> id in s.tx.doomed
    ensures Run(s, RemoveDirs(ids), s.(dirs := s.dirs - Ids(ids)))
    decreases |ids|
  {
    if ids == [] {
      assert s.dirs - Ids(ids) == s.dirs;
    } else {
      var m := Apply(s, RemoveDir(ids[0]));
      RemovesDirs(m, ids[1..]);
      assert RemoveDirs(ids)[1..] == RemoveDirs(ids[1..]);
      assert m.dirs - Ids(ids[1..]) == s.dirs - Ids(ids);
    }
  }

  lemma {:induction false} CleansDirs(s: State, c: nat, ids: seq<Id>)
    requires c < |s.pending| && forall id :: id in ids ==> id in s.pending[c]
    ensures Run(s, CleanupDirs(c, ids), s.(dirs := s.dirs - Ids(ids)))
    decreases |ids|
  {
    if ids == [] {
      assert s.dirs - Ids(ids) == s.dirs;
    } else {
      var m := Apply(s, CleanupDir(c, ids[0]));
      CleansDirs(m, c, ids[1..]);
      assert CleanupDirs(c, ids)[1..] == CleanupDirs(c, ids[1..]);
      assert m.dirs - Ids(ids[1..]) == s.dirs - Ids(ids);
    }
  }

  /** A synchronous Remove that nothing disturbs takes the snapshot out of the
      metadata, and leaves exactly the directories of the other live snapshots;
      `doomed` are the directories to go, in the order in which they go. */
  lemma RemoveLeavesOnlyLive(s: State, id: Id, doomed: seq<Id>)
    requires s.tx.Idle? && id in s.live && Ids(doomed) == s.dirs - (s.live - {id})
    ensures Run(s, [BeginRemove(id, false)] + RemoveDirs(doomed) + [CommitRemove(true)],
                s.(live := s.live - {id}, dirs := s.dirs * (s.live - {id})))
  {
    var begin, end := BeginRemove(id, false), CommitRemove(true);
    var m1 := Apply(s, begin);
    var m2 := m1.(dirs := m1.dirs - Ids(doomed));
    OneStep(s, begin);
    RemovesDirs(m1, doomed);
    OneStep(m2, end);
    assert m2.dirs == s.dirs * (s.live - {id});
    RunsJoin(s, [begin], m1, RemoveDirs(doomed), m2);
    RunsJoin(s, [begin] + RemoveDirs(doomed), m2, [end], Apply(m2, end));
  }

  /** An asynchronous one leaves the directories ... */
  lemma AsyncRemoveKeepsDirs(s: State, id: Id)
    requires s.tx.Idle? && id in s.live
    ensures Run(s, [BeginRemove(id, true), CommitRemove(true)], s.(live := s.live - {id}))
  {
    var m := Apply(s, BeginRemove(id, true));
    OneStep(s, BeginRemove(id, true));
    OneStep(m, CommitRemove(true));
    RunsJoin(s, [BeginRemove(id, true)], m, [CommitRemove(true)], Apply(m, CommitRemove(true)));
  }

  /** ... to a Cleanup, which, undisturbed, leaves exactly those of live snapshots. */
  lemma CleanupLeavesOnlyLive(s: State, stale: seq<Id>)
    requires s.tx.Idle? && Ids(stale) == s.dirs - s.live
    ensures var c := |s.pending|;
      Run(s, [BeginCleanup] + CleanupDirs(c, stale) + [EndCleanup(c)], s.(dirs := s.dirs * s.live))
  {
    var c := |s.pending|;
    var m1 := Apply(s, BeginCleanup);
    var m2 := m1.(dirs := m1.dirs - Ids(stale));
    OneStep(s, BeginCleanup);
    CleansDirs(m1, c, stale);
    OneStep(m2, EndCleanup(c));
    assert m2.dirs == s.dirs * s.live && Apply(m2, EndCleanup(c)).pending == s.pending;
    RunsJoin(s, [BeginCleanup], m1, CleanupDirs(c, stale), m2);
    RunsJoin(s, [BeginCleanup] + CleanupDirs(c, stale), m2, [EndCleanup(c)], Apply(m2, EndCleanup(c)));
  }

  // ---------- What every step keeps ----------

  /** Ids are handed out in increasing order, only to the open transaction; a
      Remove deletes no directory of another live snapshot. */
  predicate Structure(s: State) {
    && (forall id :: id in s.live ==> id < s.next)
    && (forall id :: id in s.torn ==> id < s.next)
    && (s.tx.Preparing? || s.tx.Renamed? ==> s.tx.id == s.next)
    && (s.tx.Removing? ==> s.tx.id in s.live && forall id :: id in s.tx.doomed && id in s.live ==> id == s.tx.id)
  }

  lemma StepKeepsStructure(s: State, a: Action)
    requires Structure(s) && Enabled(s, a)
    ensures Structure(Apply(s, a))
  {
  }

  // ---------- Directories follow metadata ----------

  predicate Pending(s: State, id: Id) {
    exists c :: 0 <= c < |s.pending| && id in s.pending[c]
  }

  /** A live snapshot has its directory, except while its own Remove is deleting it,
      or when that Remove's closing commit failed; and no pending worklist names a
      live snapshot, so that Cleanup may delete after releasing its transaction. */
  ghost predicate Good(s: State) {
    forall id :: id in s.live ==>
      && !Pending(s, id)
      && (id in s.dirs || id in s.torn || (s.tx.Removing? && id == s.tx.id))
  }

  /** Prepare commits an id whose directory is gone, or is about to go because a
      running Cleanup has listed it. */
  predicate CommitsDoomed(s: State, a: Action) {
    a.CommitPrepare? && s.tx.Renamed? && (s.tx.id !in s.dirs || Pending(s, s.tx.id))
  }

  lemma PendingAfter(s: State, a: Action, id: Id)
    requires Enabled(s, a) && Pending(Apply(s, a), id)
    ensures Pending(s, id) || (a.BeginCleanup? && id in s.dirs && id !in s.live)
  {
    var t := Apply(s, a);
    var c :| 0 <= c < |t.pending| && id in t.pending[c];
    if a.EndCleanup? {
      assert id in s.pending[if c < a.c then c else c + 1];
    }
  }

  /** Each step keeps this, unless it is such a commit, and then it does not. */
  lemma StepIsGoodExactlyWhen(s: State, a: Action)
    requires Structure(s) && Good(s) && Enabled(s, a)
    ensures Good(Apply(s, a)) <==> !CommitsDoomed(s, a)
  {
    var t := Apply(s, a);
    if CommitsDoomed(s, a) {
      assert s.tx.id in t.live && t.pending == s.pending && s.tx.id !in t.torn;
      assert Pending(s, s.tx.id) ==> Pending(t, s.tx.id);
    } else {
      forall id | id in t.live
        ensures !Pending(t, id) && (id in t.dirs || id in t.torn || (t.tx.Removing? && id == t.tx.id))
      {
        if Pending(t, id) {
          PendingAfter(s, a, id);
        }
        if a.CleanupDir? {
          assert Pending(s, a.id);
        }
      }
    }
  }

  ghost predicate AlwaysGood(s: State, acts: seq<Action>)
    decreases |acts|
  {
    Good(s) && (acts == [] || (Enabled(s, acts[0]) && AlwaysGood(Apply(s, acts[0]), acts[1..])))
  }

  predicate NeverCommitsDoomed(s: State, acts: seq<Action>)
    decreases |acts|
  {
    acts == [] ||
    (Enabled(s, acts[0]) && !CommitsDoomed(s, acts[0]) && NeverCommitsDoomed(Apply(s, acts[0]), acts[1..]))
  }

  /** In every state of a run of interleaved Prepares, Removes and Cleanups the
      directories follow the metadata, exactly if no Prepare of the run commits an
      id whose directory is gone or on a pending worklist. */
  lemma {:induction false} GoodExactlyWhen(s: State, acts: seq<Action>, t: State)
    requires Structure(s) && Good(s) && Run(s, acts, t)
    ensures AlwaysGood(s, acts) <==> NeverCommitsDoomed(s, acts)
    decreases |acts|
  {
    if acts != [] {
      StepKeepsStructure(s, acts[0]);
      StepIsGoodExactlyWhen(s, acts[0]);
      if !CommitsDoomed(s, acts[0]) {
        GoodExactlyWhen(Apply(s, acts[0]), acts[1..], t);
      }
    }
  }

  // ---------- Runs in which no Prepare leaves its directory behind ----------

  /** Directories and worklists name past ids only, except for the directory of an
      open Prepare. */
  ghost predicate Tidy(s: State) {
    && (forall id :: id in s.dirs ==> id < s.next || s.tx == Renamed(id))
    && (forall id: Id :: Pending(s, id) ==> id < s.next)
    && (s.tx.Removing? ==> forall id :: id in s.tx.doomed ==> id < s.next)
    && (s.tx.Renamed? ==> s.tx.id in s.dirs)
  }

  lemma StepKeepsTidy(s: State, a: Action)
    requires Structure(s) && Tidy(s) && Enabled(s, a) && !Apply(s, a).stale
    ensures Tidy(Apply(s, a))
  {
    var t := Apply(s, a);
    forall id: Id | Pending(t, id) ensures id < t.next {
      PendingAfter(s, a, id);
    }
    if a.CleanupDir? {
      assert Pending(s, a.id);
    }
  }

  /** A run in which no Prepare fails without taking its directory away never
      commits a doomed id. */
  lemma {:induction false} TidyRunIsGood(s: State, acts: seq<Action>, t: State)
    requires Structure(s) && Tidy(s) && Good(s) && Run(s, acts, t) && !t.stale
    ensures !s.stale && NeverCommitsDoomed(s, acts)
    ensures Structure(t) && Tidy(t) && Good(t)
    decreases |acts|
  {
    if acts != [] {
      StaleStays(Apply(s, acts[0]), acts[1..], t);
      StepKeepsStructure(s, acts[0]);
      StepKeepsTidy(s, acts[0]);
      StepIsGoodExactlyWhen(s, acts[0]);
      TidyRunIsGood(Apply(s, acts[0]), acts[1..], t);
    }
  }

  lemma {:induction false} StaleStays(s: State, acts: seq<Action>, t: State)
    requires Run(s, acts, t)
    ensures s.stale ==> t.stale
    decreases |acts|
  {
    if acts != [] {
      StaleStays(Apply(s, acts[0]), acts[1..], t);
    }
  }

  /** From an empty store: the exact condition for a whole run, and that it is met
      if every failing Prepare takes its directory away; then worklists do not even
      name an id that a later Prepare can be given. */
  lemma DirectoriesFollowMetadata(acts: seq<Action>, t: State)
    requires Run(EMPTY, acts, t)
    ensures AlwaysGood(EMPTY, acts) <==> NeverCommitsDoomed(EMPTY, acts)
    ensures !t.stale ==> AlwaysGood(EMPTY, acts) && Good(t) && forall id: Id :: Pending(t, id) ==> id < t.next
  {
    GoodExactlyWhen(EMPTY, acts, t);
    if !t.stale {
      TidyRunIsGood(EMPTY, acts, t);
    }
  }

  /** A snapshot never changes hands: an id that was live once is never given
      out again. */
  lemma {:induction false} IdsAreNotReused(s: State, acts: seq<Action>, t: State, id: Id)
    requires Run(s, acts, t) && id < s.next && id !in s.live
    requires s.tx.Preparing? || s.tx.Renamed? ==> s.tx.id == s.next
    ensures id !in t.live && id < t.next
    decreases |acts|
  {
    if acts != [] {
      IdsAreNotReused(Apply(s, acts[0]), acts[1..], t, id);
    }
  }

  // ---------- A directory left behind ----------

  const SCRIPT: seq<Action> :=
    [BeginPrepare, Rename, FailPrepare(false), BeginCleanup, BeginPrepare, Rename,
     BeginPrepare, Rename, CommitPrepare, CleanupDir(0, 0)]

  function Scene(k: nat): State {
    if k == 0 then EMPTY
    else if k == 1 then State({}, {}, 0, Preparing(0), [], {}, false)
    else if k == 2 then State({}, {0}, 0, Renamed(0), [], {}, false)
    else if k == 3 then State({}, {0}, 0, Idle, [], {}, true)
    else if k == 4 then State({}, {0}, 0, Idle, [{0}], {}, true)
    else if k == 5 then State({}, {0}, 0, Preparing(0), [{0}], {}, true)
    else if k == 6 then State({}, {}, 0, Idle, [{0}], {}, true)
    else if k == 7 then State({}, {}, 0, Preparing(0), [{0}], {}, true)
    else if k == 8 then State({}, {0}, 0, Renamed(0), [{0}], {}, true)
    else if k == 9 then State({0}, {0}, 1, Idle, [{0}], {}, true)
    else State({0}, {}, 1, Idle, [{0}], {}, true)
  }

  lemma SceneStep(k: nat)
    requires k < 10
    ensures Enabled(Scene(k), SCRIPT[k]) && Apply(Scene(k), SCRIPT[k]) == Scene(k + 1)
  {
    if k == 3 {
      assert Scene(3).dirs - Scene(3).live == {0};
    }
  }

  lemma {:induction false} ScenePlays(k: nat)
    requires k <= 10
    ensures Run(Scene(k), SCRIPT[k..], Scene(10))
    decreases 10 - k
  {
    if k < 10 {
      ScenePlays(k + 1);
      SceneStep(k);
      assert SCRIPT[k..][1..] == SCRIPT[k + 1..];
    }
  }

  /** Why no Prepare may leave its directory behind: the rolled-back transaction
      gives the id back, so a worklist made in between names an id that becomes
      live, and Cleanup deletes a live snapshot's directory. */
  lemma StaleDirectoryLosesSnapshot() returns (acts: seq<Action>, t: State)
    ensures Run(EMPTY, acts, t) && t.tx.Idle? && t.torn == {}
    ensures 0 in t.live && 0 !in t.dirs
  {
    acts, t := SCRIPT, Scene(10);
    ScenePlays(0);
    assert SCRIPT[0..] == SCRIPT;
  }
}
