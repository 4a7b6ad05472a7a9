/** Block devices shared by snapshots: when Prepare, Mounts, Commit and Remove
    attach and detach them (pkg/snapshot/overlay.go:602-704, 796-866, 906-924,
    1082-1187) through UnmountAndDetachBlockDevice and checkIsParent
    (pkg/snapshot/storage.go:236-291), with autoRemoveDev on.  Write transactions
    and the per-snapshot locks make each operation one step. */
module SnapshotDevices {
  import opened Wrappers

  type Key = string
  type Id = nat

  datatype Kind = Active | View | Committed

  /** `block`: its storage is an overlaybd block; `reader`: it was prepared
      read-only over its parent's mounted device. */
  datatype Snap = Snap(id: Id, parent: Option<Key>, kind: Kind, block: bool, reader: bool)

  /** `attached`: ids whose device is attached and mounted. */
  datatype State = State(snaps: map<Key, Snap>, attached: set<Id>, next: Id)

  const EMPTY := State(map[], {}, 0)

  // ---------- UnmountAndDetachBlockDevice ----------

  /** How the host answers: an overlay still uses the mount point, that cannot be
      found out, unmounting fails, detaching fails after the unmount, or all goes
      well. */
  datatype Detaching = Busy | CheckFails | UnmountFails | DetachFails | Detached

  /** checkIsParent: an active or view snapshot other than `exclude` is prepared
      on `key`. */
  ghost predicate HasOtherChild(snaps: map<Key, Snap>, key: Key, exclude: Key) {
    exists k :: k in snaps && k != exclude && snaps[k].parent == Some(key) && !snaps[k].kind.Committed?
  }

  /** The devices afterwards, and whether an error is returned. */
  ghost function Detach(s: State, id: Id, key: Key, exclude: Option<Key>, d: Detaching): (set<Id>, bool) {
    if d.Busy? then (s.attached, true)
    else if d.CheckFails? then (s.attached, false)
    else if exclude.Some? && HasOtherChild(s.snaps, key, exclude.value) then (s.attached, true)
    else
      match d
      case UnmountFails => (s.attached, false)
      case DetachFails => (s.attached - {id}, false)
      case _ => (s.attached - {id}, true)
  }

  // ---------- Operations ----------

  ghost predicate CanAdd(s: State, key: Key, parent: Option<Key>) {
    key !in s.snaps && (parent.Some? ==> parent.value in s.snaps && s.snaps[parent.value].kind.Committed?)
  }

  /** Prepare or View.  `reader` asks for a read-only mount over a block parent,
      `writable` for a device of its own; a failed attach adds nothing. */
  ghost function Prepare(s: State, key: Key, parent: Option<Key>, kind: Kind, reader: bool, writable: bool): State {
    if !CanAdd(s, key, parent) || kind.Committed? then s
    else
      var onParent := reader && !writable && parent.Some? && s.snaps[parent.value].block;
      State(
        s.snaps[key := Snap(s.next, parent, kind, writable, onParent)],
        s.attached + (if onParent then {s.snaps[parent.value].id} else if writable then {s.next} else {}),
        s.next + 1)
  }

  /** Mounts attaches the device of a block parent for every active or view
      snapshot without a device of its own, a reader or not; a failed attach
      changes nothing. */
  ghost function Mounts(s: State, key: Key, attaches: bool): State {
    if attaches && key in s.snaps && OnParent(s.snaps, s.snaps[key])
    then s.(attached := s.attached + {s.snaps[s.snaps[key].parent.value].id}) else s
  }

  ghost predicate OnParent(snaps: map<Key, Snap>, me: Snap) {
    && !me.kind.Committed? && !me.block
    && me.parent.Some? && me.parent.value in snaps && snaps[me.parent.value].block
  }

  /** Commit detaches a writable snapshot's own device, then renames it, which the
      metastore does for active snapshots only. */
  ghost function Commit(s: State, name: Key, key: Key, block: bool, d: Detaching, late: bool): State {
    if key !in s.snaps || s.snaps[key].kind.Committed? then s
    else
      var me := s.snaps[key];
      var (attached, ok) := if me.block then Detach(s, me.id, key, None, d) else (s.attached, true);
      if !ok || late || name in s.snaps || !me.kind.Active? then s.(attached := attached)
      else s.(attached := attached, snaps := (s.snaps - {key})[name := me.(kind := Committed, block := block)])
  }

  /** How the host behaves during one Remove. */
  datatype RemoveEnv = RemoveEnv(own: Detaching, parent: Detaching, parentLooksBlock: bool, late: bool)

  ghost predicate HasChildren(snaps: map<Key, Snap>, key: Key) {
    exists k :: k in snaps && snaps[k].parent == Some(key)
  }

  /** Remove: the own device, then the parent's if no other snapshot is prepared
      on it; only after that are a remaining mount, the metadata (which refuses
      to drop a parent) and the directory listing looked at. */
  ghost function Remove(s: State, key: Key, env: RemoveEnv): (State, bool) {
    if key !in s.snaps then (s, false)
    else
      var me := s.snaps[key];
      var (own, ok1) := if me.block then Detach(s, me.id, key, None, env.own) else (s.attached, true);
      var s1 := s.(attached := own);
      if !ok1 then (s1, false)
      else
        var (rest, ok2) :=
          if me.kind.Active? && me.parent.Some? && me.parent.value in s.snaps && env.parentLooksBlock
          then Detach(s1, s.snaps[me.parent.value].id, me.parent.value, Some(key), env.parent) else (own, true);
        var s2 := s.(attached := rest);
        if !ok2 || me.id in rest || env.late || HasChildren(s.snaps, key) then (s2, false)
        else (s2.(snaps := s.snaps - {key}), true)
  }

  // ---------- Invariant ----------

  /** An active or view snapshot prepared read-only over its parent's device. */
  ghost predicate Reads(s: State, k: Key) {
    k in s.snaps && s.snaps[k].reader && !s.snaps[k].kind.Committed?
  }

  ghost predicate HasReaders(s: State, key: Key) {
    exists k :: Reads(s, k) && s.snaps[k].parent == Some(key)
  }

  ghost predicate UniqueIds(s: State) {
    && (forall j, k :: j in s.snaps && k in s.snaps && s.snaps[j].id == s.snaps[k].id ==> j == k)
    && (forall k :: k in s.snaps ==> s.snaps[k].id < s.next)
    && (forall id :: id in s.attached ==> id < s.next)
  }

  /** Parents exist and are committed. */
  ghost predicate ParentsExist(s: State) {
    forall k :: k in s.snaps && s.snaps[k].parent.Some? ==>
      s.snaps[k].parent.value in s.snaps && s.snaps[s.snaps[k].parent.value].kind.Committed?
  }

  /** A reader has a block below it and no device of its own. */
  ghost predicate ReadersOwnNothing(s: State) {
    forall k :: Reads(s, k) ==>
      && !s.snaps[k].block && s.snaps[k].id !in s.attached
      && s.snaps[k].parent.Some? && s.snaps[k].parent.value in s.snaps && s.snaps[s.snaps[k].parent.value].block
  }

  ghost predicate Structure(s: State) {
    UniqueIds(s) && ParentsExist(s) && ReadersOwnNothing(s)
  }

  /** Every active or view snapshot prepared read-only over a block has its
      parent's device attached and mounted. */
  ghost predicate Covered(s: State) {
    forall k :: Reads(s, k) ==>
      && s.snaps[k].parent.Some? && s.snaps[k].parent.value in s.snaps
      && s.snaps[s.snaps[k].parent.value].id in s.attached
  }

  // ---------- Prepare, Mounts and Commit ----------

  /** `t` is `s` with one more snapshot, whose id is fresh. */
  ghost predicate Adds(s: State, t: State, key: Key, me: Snap) {
    && key !in s.snaps && me.id == s.next && t.snaps == s.snaps[key := me] && t.next == s.next + 1
    && (me.parent.Some? ==> me.parent.value in s.snaps && s.snaps[me.parent.value].kind.Committed?)
    && (me.reader ==>
         me.parent.Some? && !me.block && s.snaps[me.parent.value].block && s.snaps[me.parent.value].id in t.attached)
    && s.attached <= t.attached
    && (forall id :: id in t.attached ==>
      || id in s.attached
      || (me.parent.Some? && id == s.snaps[me.parent.value].id)
      || (id == s.next && !me.reader))
  }

  lemma AddKeepsIds(s: State, t: State, key: Key, me: Snap)
    requires UniqueIds(s) && ParentsExist(s) && Adds(s, t, key, me)
    ensures UniqueIds(t) && ParentsExist(t)
  {
  }

  lemma AddKeepsReaders(s: State, t: State, key: Key, me: Snap)
    requires Structure(s) && Covered(s) && Adds(s, t, key, me)
    ensures ReadersOwnNothing(t) && Covered(t)
  {
    forall k | Reads(t, k) && k != key
      ensures t.snaps[k] == s.snaps[k] && t.snaps[k].id !in t.attached
      ensures t.snaps[t.snaps[k].parent.value].id in t.attached
    {
      assert Reads(s, k);
    }
  }

  /** Prepare and View keep every reader covered, and cover the new one. */
  lemma PrepareKeeps(s: State, key: Key, parent: Option<Key>, kind: Kind, reader: bool, writable: bool)
    requires Structure(s) && Covered(s)
    ensures var t := Prepare(s, key, parent, kind, reader, writable);
      Structure(t) && Covered(t) && s.attached <= t.attached
    ensures kind.Committed? || key in s.snaps ==> Prepare(s, key, parent, kind, reader, writable) == s
    ensures parent.Some? && (parent.value !in s.snaps || !s.snaps[parent.value].kind.Committed?) ==>
      Prepare(s, key, parent, kind, reader, writable) == s
    ensures
      !kind.Committed? && key !in s.snaps
      && (parent.Some? ==> parent.value in s.snaps && s.snaps[parent.value].kind.Committed?) ==>
        PreparesExactly(s, Prepare(s, key, parent, kind, reader, writable), key, parent, kind, reader, writable)
  {
    var t := Prepare(s, key, parent, kind, reader, writable);
    if t != s {
      AddKeepsIds(s, t, key, t.snaps[key]);
      AddKeepsReaders(s, t, key, t.snaps[key]);
    }
  }

  /** One snapshot more, a reader if that was asked for and its parent is a block;
      its parent's device in that case, or its own if it is writable, is attached,
      and no other device is, or is detached. */
  ghost predicate PreparesExactly(s: State, t: State, key: Key, parent: Option<Key>, kind: Kind, reader: bool,
                                  writable: bool)
    requires parent.Some? ==> parent.value in s.snaps
  {
    var onParent := reader && !writable && parent.Some? && s.snaps[parent.value].block;
    && t.snaps == s.snaps[key := Snap(s.next, parent, kind, writable, onParent)] && t.next == s.next + 1
    && (forall id: Id :: id in t.attached <==>
      id in s.attached || (writable && id == s.next) || (onParent && id == s.snaps[parent.value].id))
  }

  /** For every state: Mounts, if it can attach, brings the device of the block that
      an active or view snapshot without its own is prepared on, and nothing else. */
  lemma MountsAttachesExactly(s: State, key: Key, attaches: bool, id: Id)
    ensures var t := Mounts(s, key, attaches);
      && t.snaps == s.snaps && t.next == s.next
      && (id in t.attached <==> id in s.attached || (attaches && IsDeviceBelow(s, key, id)))
  {
  }

  ghost predicate IsDeviceBelow(s: State, key: Key, id: Id) {
    && key in s.snaps && (s.snaps[key].kind.Active? || s.snaps[key].kind.View?) && !s.snaps[key].block
    && exists parent :: parent in s.snaps && s.snaps[key].parent == Some(parent)
         && s.snaps[parent].block && s.snaps[parent].id == id
  }

  lemma MountsKeeps(s: State, key: Key, attaches: bool)
    requires Structure(s) && Covered(s)
    ensures var t := Mounts(s, key, attaches);
      Structure(t) && Covered(t) && t.snaps == s.snaps && s.attached <= t.attached
  {
    MountsKeepsStructure(s, key, attaches);
    var t := Mounts(s, key, attaches);
    forall k | Reads(t, k) ensures Reads(s, k) {
    }
  }

  lemma MountsKeepsStructure(s: State, key: Key, attaches: bool)
    requires Structure(s)
    ensures Structure(Mounts(s, key, attaches))
  {
    var t := Mounts(s, key, attaches);
    forall k | Reads(t, k) ensures Reads(s, k) && t.snaps[k].id !in t.attached {
      assert Reads(s, k);
    }
  }

  /** Every reader but possibly one has its parent's device. */
  ghost predicate CoveredBut(s: State, key: Key) {
    forall k :: Reads(s, k) && k != key ==>
      && s.snaps[k].parent.Some? && s.snaps[k].parent.value in s.snaps
      && s.snaps[s.snaps[k].parent.value].id in s.attached
  }

  /** A reader that has lost its device gets it back from a Mounts that attaches,
      and needs one to: all are covered afterwards exactly if it attaches or
      nothing was missing. */
  lemma MountsCoversAgain(s: State, key: Key, attaches: bool)
    requires Structure(s) && Reads(s, key) && CoveredBut(s, key)
    ensures Structure(Mounts(s, key, attaches))
    ensures Covered(Mounts(s, key, attaches)) <==> attaches || Covered(s)
  {
    MountsKeepsStructure(s, key, attaches);
    var t := Mounts(s, key, attaches);
    MountsAttachesExactly(s, key, attaches, s.snaps[s.snaps[key].parent.value].id);
    forall k | Reads(t, k) ensures Reads(s, k) {
    }
  }

  /** An active snapshot is nobody's parent, so its own device covers nobody. */
  lemma RenameKeeps(s: State, t: State, name: Key, key: Key, me: Snap)
    requires Structure(s) && Covered(s) && key in s.snaps && !s.snaps[key].kind.Committed?
    requires me.id == s.snaps[key].id && me.parent == s.snaps[key].parent
    requires name !in s.snaps && me.kind.Committed? && t.snaps == (s.snaps - {key})[name := me]
    requires t.next == s.next && s.attached - {me.id} <= t.attached <= s.attached
    ensures Structure(t) && Covered(t)
  {
    forall k | Reads(t, k) ensures Reads(s, k) && t.snaps[k] == s.snaps[k] {
    }
    RenamedIds(s, t, name, key, me);
  }

  lemma RenamedIds(s: State, t: State, name: Key, key: Key, me: Snap)
    requires UniqueIds(s) && ParentsExist(s) && key in s.snaps && !s.snaps[key].kind.Committed?
    requires me.id == s.snaps[key].id && me.parent == s.snaps[key].parent
    requires name !in s.snaps && me.kind.Committed? && t.snaps == (s.snaps - {key})[name := me]
    requires t.next == s.next && t.attached <= s.attached
    ensures UniqueIds(t) && ParentsExist(t)
  {
  }

  /** Detaching a device that covers nobody. */
  lemma DetachKeeps(s: State, t: State, id: Id)
    requires Structure(s) && Covered(s) && t == s.(attached := t.attached)
    requires s.attached - {id} <= t.attached <= s.attached
    requires forall k :: Reads(s, k) ==> s.snaps[s.snaps[k].parent.value].id != id
    ensures Structure(t) && Covered(t)
  {
    forall k | Reads(t, k) ensures Reads(s, k) {
    }
  }

  /** Commit takes the name exactly if the snapshot is active, the name free, its own
      device, if it has one, does not fail to go, and nothing fails later; that
      device is gone exactly if an attempt got past the unmount, also in a failing
      Commit. */
  ghost predicate CommitsExactly(s: State, t: State, name: Key, key: Key, block: bool, d: Detaching, late: bool) {
    && t.next == s.next
    && (CommitWorks(s, name, key, d, late) ==>
         t.snaps == (s.snaps - {key})[name := s.snaps[key].(kind := Committed, block := block)])
    && (!CommitWorks(s, name, key, d, late) ==> t.snaps == s.snaps)
    && (forall id: Id :: id in t.attached <==> (id in s.attached && !CommitDetaches(s, key, d, id)))
  }

  ghost predicate CommitDetaches(s: State, key: Key, d: Detaching, id: Id) {
    && key in s.snaps && !s.snaps[key].kind.Committed? && s.snaps[key].block && id == s.snaps[key].id
    && (d.Detached? || d.DetachFails?)
  }

  ghost predicate CommitWorks(s: State, name: Key, key: Key, d: Detaching, late: bool) {
    && key in s.snaps && s.snaps[key].kind.Active? && name !in s.snaps && !late
    && (s.snaps[key].block ==> d.Busy? || d.Detached?)
  }

  /** Commit keeps every reader covered; the only device it can detach is the
      committed snapshot's own. */
  lemma CommitKeeps(s: State, name: Key, key: Key, block: bool, d: Detaching, late: bool)
    requires Structure(s) && Covered(s)
    ensures var t := Commit(s, name, key, block, d, late);
      && Structure(t) && Covered(t) && t.attached <= s.attached
      && (forall id :: id in s.attached - t.attached ==> key in s.snaps && s.snaps[key].block && id == s.snaps[key].id)
    ensures CommitsExactly(s, Commit(s, name, key, block, d, late), name, key, block, d, late)
  {
    if key in s.snaps && !s.snaps[key].kind.Committed? {
      var t, me := Commit(s, name, key, block, d, late), s.snaps[key];
      if t.snaps == s.snaps {
        DetachKeeps(s, t, me.id);
      } else {
        RenameKeeps(s, t, name, key, me.(kind := Committed, block := block));
      }
    }
  }

  // ---------- Remove ----------

  /** The two ways in which Remove takes a device away from a reader, by what its
      caller and the host bring along: it is called on a block snapshot with
      readers (it will refuse, but only after having detached) ... */
  ghost predicate TakesFromReaders(s: State, key: Key, env: RemoveEnv) {
    key in s.snaps && s.snaps[key].block && (env.own.Detached? || env.own.DetachFails?) && HasReaders(s, key)
  }

  /** ... or on the last active or view snapshot over a block, itself an active
      reader, and it fails after having detached the parent's device. */
  ghost predicate TakesOwnParent(s: State, key: Key, env: RemoveEnv) {
    && Reads(s, key) && s.snaps[key].kind.Active? && s.snaps[key].parent.Some? && env.parentLooksBlock
    && !HasOtherChild(s.snaps, s.snaps[key].parent.value, key)
    && (env.parent.DetachFails? || (env.parent.Detached? && env.late))
  }

  ghost predicate Strands(s: State, key: Key, env: RemoveEnv) {
    TakesFromReaders(s, key, env) || TakesOwnParent(s, key, env)
  }

  /** What Remove changes: the snapshot itself on success, and at most two devices. */
  ghost predicate RemoveEffects(s: State, key: Key, env: RemoveEnv, t: State, ok: bool)
    requires key in s.snaps
  {
    var me := s.snaps[key];
    && t.next == s.next && t.attached <= s.attached
    && t.snaps == (if ok then s.snaps - {key} else s.snaps)
    && (ok ==> !HasChildren(s.snaps, key) && me.id !in t.attached)
    && (forall id :: id in s.attached && id !in t.attached ==>
      || (id == me.id && me.block && (env.own.Detached? || env.own.DetachFails?))
      || (id == ParentId(s, key) && ParentDetached(s, key, env)))
    && (me.block && (env.own.Detached? || env.own.DetachFails?) ==> me.id !in t.attached)
  }

  /** The parent's id; an id that no snapshot has if there is no parent. */
  ghost function ParentId(s: State, key: Key): int
    requires key in s.snaps
  {
    var parent := s.snaps[key].parent;
    if parent.Some? && parent.value in s.snaps then s.snaps[parent.value].id else -1
  }

  /** Remove gets as far as detaching the parent's device. */
  ghost predicate ParentDetached(s: State, key: Key, env: RemoveEnv)
    requires key in s.snaps
  {
    var me := s.snaps[key];
    && (me.block ==> env.own.Busy? || env.own.Detached?)
    && me.kind.Active? && me.parent.Some? && me.parent.value in s.snaps && env.parentLooksBlock
    && !HasOtherChild(s.snaps, me.parent.value, key)
    && (env.parent.Detached? || env.parent.DetachFails?)
  }

  lemma RemoveHasEffects(s: State, key: Key, env: RemoveEnv)
    requires key in s.snaps
    ensures RemoveEffects(s, key, env, Remove(s, key, env).0, Remove(s, key, env).1)
  {
  }

  /** Remove looks at the parent's device: an active snapshot, and a parent that
      looks like a block. */
  ghost predicate LooksAtParent(s: State, key: Key, env: RemoveEnv) {
    && key in s.snaps && s.snaps[key].kind.Active? && env.parentLooksBlock
    && s.snaps[key].parent.Some? && s.snaps[key].parent.value in s.snaps
  }

  /** No other active or view snapshot has the same parent. */
  ghost predicate OnlyChild(s: State, key: Key) {
    key in s.snaps && forall k :: k in s.snaps && k != key && s.snaps[k].parent == s.snaps[key].parent ==>
      !s.snaps[k].kind.Active? && !s.snaps[k].kind.View?
  }

  /** What Remove needs to succeed: neither the own device nor the parent's fails to
      go, where each is tried at all, no device is left on the snapshot's own mount
      point, nothing fails later, and there are no children. */
  ghost predicate RemoveWorks(s: State, key: Key, env: RemoveEnv) {
    && key in s.snaps && !env.late && (forall k :: k in s.snaps ==> s.snaps[k].parent != Some(key))
    && (s.snaps[key].block ==> env.own.Busy? || env.own.Detached?)
    && (LooksAtParent(s, key, env) ==> !env.parent.CheckFails?)
    && (LooksAtParent(s, key, env) && OnlyChild(s, key) ==> env.parent.Busy? || env.parent.Detached?)
    && (s.snaps[key].id in s.attached ==> s.snaps[key].block && env.own.Detached?)
  }

  lemma OnlyChildExactlyWhen(s: State, key: Key)
    requires key in s.snaps && s.snaps[key].parent.Some?
    ensures OnlyChild(s, key) <==> !HasOtherChild(s.snaps, s.snaps[key].parent.value, key)
  {
    if k :| k in s.snaps && k != key && s.snaps[k].parent == s.snaps[key].parent && !s.snaps[k].kind.Committed? {
      assert s.snaps[k].parent == Some(s.snaps[key].parent.value);
    }
  }

  lemma ParentIsAnother(s: State, key: Key)
    requires Structure(s) && key in s.snaps && s.snaps[key].parent.Some?
    ensures s.snaps[key].parent.value in s.snaps
    ensures ParentId(s, key) == s.snaps[key].id ==> HasChildren(s.snaps, key)
  {
  }

  /** When Remove succeeds, by the state and what the host does alone. */
  lemma RemoveSucceedsExactlyWhen(s: State, key: Key, env: RemoveEnv)
    requires Structure(s)
    ensures Remove(s, key, env).1 <==> RemoveWorks(s, key, env)
    ensures Remove(s, key, env).0.snaps == if RemoveWorks(s, key, env) then s.snaps - {key} else s.snaps
  {
    if key in s.snaps {
      if s.snaps[key].parent.Some? {
        ParentIsAnother(s, key);
        OnlyChildExactlyWhen(s, key);
      }
      RemoveHasEffects(s, key, env);
    }
  }

  /** Which devices Remove takes away, in a failing call too: the own one, and the
      parent's if it gets that far. */
  lemma RemoveDetachesExactly(s: State, key: Key, env: RemoveEnv, id: Id)
    requires key in s.snaps
    ensures id in Remove(s, key, env).0.attached <==>
      && id in s.attached
      && !(id == s.snaps[key].id && s.snaps[key].block && (env.own.Detached? || env.own.DetachFails?))
      && !(id == ParentId(s, key) && ParentDetached(s, key, env))
  {
  }

  lemma RemovedIds(s: State, key: Key, env: RemoveEnv, t: State, ok: bool)
    requires UniqueIds(s) && ParentsExist(s) && key in s.snaps && RemoveEffects(s, key, env, t, ok)
    ensures UniqueIds(t) && ParentsExist(t)
  {
    forall k | k in t.snaps ensures k in s.snaps && t.snaps[k] == s.snaps[k] {
    }
  }

  lemma RemovedReaders(s: State, key: Key, env: RemoveEnv, t: State, ok: bool)
    requires ReadersOwnNothing(s) && key in s.snaps && RemoveEffects(s, key, env, t, ok)
    ensures ReadersOwnNothing(t)
    ensures forall k :: Reads(t, k) ==> Reads(s, k) && t.snaps[k] == s.snaps[k]
  {
    forall k | Reads(t, k) ensures Reads(s, k) && t.snaps[k] == s.snaps[k] {
    }
  }

  /** How a Remove that gets to the parent's device of a reader ends. */
  lemma RemoveOfReader(s: State, key: Key, env: RemoveEnv)
    requires Structure(s) && Reads(s, key)
    ensures ParentDetached(s, key, env) ==> (Remove(s, key, env).1 <==> env.parent.Detached? && !env.late)
    ensures ParentDetached(s, key, env) ==> ParentId(s, key) !in Remove(s, key, env).0.attached
  {
    assert !HasChildren(s.snaps, key);
  }

  lemma NotStranding(s: State, key: Key, env: RemoveEnv, t: State, ok: bool)
    requires Structure(s) && Covered(s) && key in s.snaps && !Strands(s, key, env)
    requires t == Remove(s, key, env).0 && ok == Remove(s, key, env).1 && RemoveEffects(s, key, env, t, ok)
    requires forall k :: Reads(t, k) ==> Reads(s, k) && t.snaps[k] == s.snaps[k]
    ensures Covered(t)
  {
    forall k | Reads(t, k)
      ensures t.snaps[k].parent.value in t.snaps && s.snaps[t.snaps[k].parent.value].id in t.attached
    {
      assert Reads(s, k);
      var parent := s.snaps[k].parent.value;
      assert parent == key ==> HasReaders(s, key);
      assert k != key ==> HasOtherChild(s.snaps, parent, key);
      if k == key {
        RemoveOfReader(s, key, env);
      }
    }
  }

  lemma Stranding(s: State, key: Key, env: RemoveEnv, t: State, ok: bool)
    requires Structure(s) && Covered(s) && key in s.snaps && Strands(s, key, env)
    requires t == Remove(s, key, env).0 && ok == Remove(s, key, env).1 && RemoveEffects(s, key, env, t, ok)
    ensures !ok && !Covered(t)
  {
    if TakesFromReaders(s, key, env) {
      var k :| Reads(s, k) && s.snaps[k].parent == Some(key);
      assert HasChildren(s.snaps, key);
      assert Reads(t, k);
    } else {
      RemoveOfReader(s, key, env);
      assert Reads(t, key);
    }
  }

  /** Exactly when Remove takes a device away from a reader. */
  lemma RemoveKeepsExactlyWhen(s: State, key: Key, env: RemoveEnv)
    requires Structure(s) && Covered(s)
    ensures Structure(Remove(s, key, env).0)
    ensures Covered(Remove(s, key, env).0) <==> !Strands(s, key, env)
    ensures Strands(s, key, env) ==> !Remove(s, key, env).1
  {
    var (t, ok) := Remove(s, key, env);
    if key in s.snaps {
      RemoveHasEffects(s, key, env);
      RemovedIds(s, key, env, t, ok);
      RemovedReaders(s, key, env, t, ok);
      if Strands(s, key, env) {
        Stranding(s, key, env, t, ok);
      } else {
        NotStranding(s, key, env, t, ok);
      }
    }
  }

  /** For any committed block snapshot whose own device is detached: Remove on it
      keeps its readers covered exactly if it has none, and fails if it has
      children. */
  lemma RemoveOfParent(s: State, key: Key, env: RemoveEnv)
    requires Structure(s) && Covered(s) && key in s.snaps && s.snaps[key].kind.Committed? && s.snaps[key].block
    requires env.own == Detached
    ensures Covered(Remove(s, key, env).0) <==> !HasReaders(s, key)
    ensures HasChildren(s.snaps, key) ==> !Remove(s, key, env).1
  {
    RemoveKeepsExactlyWhen(s, key, env);
  }

  /** When the device is given back: a successful Remove releases the parent's
      device exactly if the removed snapshot was active (a view is not looked
      at), the parent looked like a block, no other active or view snapshot is
      prepared on it, and no overlay still uses it. */
  lemma ReleasesExactlyWhen(s: State, key: Key, env: RemoveEnv)
    requires Structure(s) && Remove(s, key, env).1
    requires s.snaps[key].parent.Some? && ParentId(s, key) in s.attached
    ensures ParentId(s, key) !in Remove(s, key, env).0.attached <==>
      && s.snaps[key].kind.Active? && env.parentLooksBlock && !env.parent.Busy?
      && OnlyChild(s, key)
  {
    OnlyChildExactlyWhen(s, key);
    var me, parent := s.snaps[key], s.snaps[key].parent.value;
    assert parent != key ==> s.snaps[parent].id != me.id;
    assert !HasChildren(s.snaps, key) && parent != key;
  }

  // ---------- Whole runs ----------

  datatype Op =
    | DoPrepare(key: Key, parent: Option<Key>, kind: Kind, reader: bool, writable: bool)
    | DoMounts(key: Key, attaches: bool)
    | DoCommit(name: Key, key: Key, block: bool, detaching: Detaching, late: bool)
    | DoRemove(key: Key, env: RemoveEnv)

  ghost function Do(s: State, op: Op): State {
    match op
    case DoPrepare(key, parent, kind, reader, writable) => Prepare(s, key, parent, kind, reader, writable)
    case DoMounts(key, attaches) => Mounts(s, key, attaches)
    case DoCommit(name, key, block, d, late) => Commit(s, name, key, block, d, late)
    case DoRemove(key, env) => Remove(s, key, env).0
  }

  ghost function DoAll(s: State, ops: seq<Op>): State
    decreases |ops|
  {
    if ops == [] then s else DoAll(Do(s, ops[0]), ops[1..])
  }

  /** Every reader is covered before, between and after the operations. */
  ghost predicate AlwaysCovered(s: State, ops: seq<Op>)
    decreases |ops|
  {
    Covered(s) && (ops == [] || AlwaysCovered(Do(s, ops[0]), ops[1..]))
  }

  /** No Remove of the run strands a reader. */
  ghost predicate NeverStrands(s: State, ops: seq<Op>)
    decreases |ops|
  {
    ops == [] ||
    (!(ops[0].DoRemove? && Strands(s, ops[0].key, ops[0].env)) && NeverStrands(Do(s, ops[0]), ops[1..]))
  }

  lemma StepKeeps(s: State, op: Op)
    requires Structure(s) && Covered(s)
    ensures Structure(Do(s, op))
    ensures Covered(Do(s, op)) <==> !(op.DoRemove? && Strands(s, op.key, op.env))
  {
    match op
    case DoPrepare(key, parent, kind, reader, writable) => PrepareKeeps(s, key, parent, kind, reader, writable);
    case DoMounts(key, attaches) => MountsKeeps(s, key, attaches);
    case DoCommit(name, key, block, d, late) => CommitKeeps(s, name, key, block, d, late);
    case DoRemove(key, env) => RemoveKeepsExactlyWhen(s, key, env);
  }

  /** Across a run of Prepare, View, Mounts, Commit and Remove, the device of a
      block parent stays attached and mounted for as long as an active or view
      snapshot prepared read-only over it exists, exactly if no Remove of the run
      strands a reader. */
  lemma {:induction false} ReadersStayCovered(s: State, ops: seq<Op>)
    requires Structure(s) && Covered(s)
    ensures AlwaysCovered(s, ops) <==> NeverStrands(s, ops)
    ensures NeverStrands(s, ops) ==> Structure(DoAll(s, ops)) && Covered(DoAll(s, ops))
    decreases |ops|
  {
    if ops != [] {
      StepKeeps(s, ops[0]);
      if Covered(Do(s, ops[0])) {
        ReadersStayCovered(Do(s, ops[0]), ops[1..]);
      } else {
        assert !AlwaysCovered(Do(s, ops[0]), ops[1..]);
      }
    }
  }

  /** A caller's way to be safe: Remove only snapshots without children; and if
      it is an active reader, the host lets Remove finish once the parent's device
      has been detached. */
  ghost predicate Careful(s: State, op: Op) {
    op.DoRemove? ==>
      && !HasChildren(s.snaps, op.key)
      && (Reads(s, op.key) && s.snaps[op.key].kind.Active? ==>
        !op.env.parent.DetachFails? && (op.env.parent.Detached? ==> !op.env.late))
  }

  ghost predicate AllCareful(s: State, ops: seq<Op>)
    decreases |ops|
  {
    ops == [] || (Careful(s, ops[0]) && AllCareful(Do(s, ops[0]), ops[1..]))
  }

  lemma ReadersAreChildren(s: State, key: Key)
    ensures HasReaders(s, key) ==> HasChildren(s.snaps, key)
  {
    if k :| Reads(s, k) && s.snaps[k].parent == Some(key) {
      assert k in s.snaps;
    }
  }

  lemma {:induction false} CarefulNeverStrands(s: State, ops: seq<Op>)
    requires AllCareful(s, ops)
    ensures NeverStrands(s, ops)
    decreases |ops|
  {
    if ops != [] {
      if ops[0].DoRemove? {
        ReadersAreChildren(s, ops[0].key);
      }
      CarefulNeverStrands(Do(s, ops[0]), ops[1..]);
    }
  }

  // ---------- A reader without its device ----------

  const PULL_AND_RUN: seq<Op> := [
    DoPrepare("pull", None, Active, false, false),
    DoCommit("image", "pull", true, Busy, false),
    DoPrepare("container", Some("image"), Active, true, false)]

  const PULLING := State(map["pull" := Snap(0, None, Active, false, false)], {}, 1)
  const PULLED := State(map["image" := Snap(0, None, Committed, true, false)], {}, 1)
  const RUNNING := State(PULLED.snaps["container" := Snap(1, Some("image"), Active, false, true)], {0}, 2)

  /** The parent's device goes, then the closing steps fail. */
  const FAILING := RemoveEnv(Busy, Detached, true, true)

  lemma RunningIsCovered()
    ensures Structure(RUNNING) && Covered(RUNNING)
  {
  }

  lemma RunningIsReached()
    ensures DoAll(EMPTY, PULL_AND_RUN) == RUNNING
  {
    var ops := PULL_AND_RUN;
    assert Do(EMPTY, ops[0]) == PULLING;
    assert Do(PULLING, ops[1]) == PULLED;
    assert Do(PULLED, ops[2]) == RUNNING;
    assert DoAll(PULLED, ops[2..]) == DoAll(RUNNING, ops[2..][1..]) == RUNNING;
    assert ops[1..][1..] == ops[2..];
    assert DoAll(PULLING, ops[1..]) == DoAll(PULLED, ops[2..]);
  }

  lemma MountsHealsContainer(s: State)
    requires Structure(s) && s.snaps == RUNNING.snaps
    ensures Covered(Mounts(s, "container", true))
  {
    assert Reads(s, "container") && CoveredBut(s, "container");
    MountsCoversAgain(s, "container", true);
  }

  /** One image and one running container: Remove of the container, a snapshot
      without children, fails after having detached the image's device and leaves
      the container without it, until a Mounts attaches it again. */
  lemma FailedRemoveStrandsReader()
    ensures DoAll(EMPTY, PULL_AND_RUN) == RUNNING && Covered(RUNNING)
    ensures !HasChildren(RUNNING.snaps, "container") && !Remove(RUNNING, "container", FAILING).1
    ensures !Covered(Remove(RUNNING, "container", FAILING).0)
    ensures Covered(Mounts(Remove(RUNNING, "container", FAILING).0, "container", true))
  {
    RunningIsReached();
    RunningIsCovered();
    assert Reads(RUNNING, "container");
    RemoveKeepsExactlyWhen(RUNNING, "container", FAILING);
    RemoveSucceedsExactlyWhen(RUNNING, "container", FAILING);
    MountsHealsContainer(Remove(RUNNING, "container", FAILING).0);
  }
}
