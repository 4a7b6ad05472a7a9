/** What every step of the index conversion keeps, and what a run whose Wait
    returns nil has produced. */
module IndexSafety {
  import opened Wrappers
  import opened IndexConversion

  // ---------- Invariant ----------

  predicate Succeeded(t: Task) {
    || (t.pc.Returned? && t.pc.out.Target?)
    || (t.pc.Exiting? && t.pc.out.Target?)
    || (t.pc.Ended? && t.pc.out.Target?)
  }

  /** The target has been written into the parent's list. */
  predicate Written(t: Task) {
    !t.pc.Returned? && Succeeded(t)
  }

  /** The index is past wg.Wait and the filter. */
  predicate Joined(t: Task) {
    IsIndex(t.src) && (t.pc.Uploading? || Succeeded(t))
  }

  /** What a task's counter says about its own target and list. */
  ghost predicate OwnOk(o: Options, builds: Builds, t: Task) {
    && (t.pc.WaitSem? || t.pc.Building? || t.pc.Releasing? ==> IsManifest(t.src))
    && (t.pc.Fetching? || t.pc.Joining? || t.pc.Uploading? ==> IsIndex(t.src))
    && (t.pc.Fetching? ==> t.slots == [])
    && (t.pc.Joining? || Joined(t) ==> t.src.digest.IndexDigest? && |t.slots| == |Entries(t.src)|)
    && (|t.slots| == |Entries(t.src)| ==>
      forall k :: 0 <= k < |t.slots| && IsAttestation(Entries(t.src)[k]) ==> t.slots[k] == Entries(t.src)[k])
    && (t.pc.Releasing? && t.pc.out.Target? ==> ManifestTarget(builds, t.src, t.pc.out.desc))
    && (t.pc.Uploading? ==> t.pc.index == ConvertedIndex(o, t.src, Keep(t.slots)))
    && (Succeeded(t) ==>
      if IsManifest(t.src) then ManifestTarget(builds, t.src, t.pc.out.desc)
      else Joined(t) && t.pc.out.desc == IndexDesc(ConvertedIndex(o, t.src, Keep(t.slots)), t.pc.out.desc.size))
  }

  /** A child hangs off a slot of an index that has been opened; the slot holds the
      source entry until the child has written its target. */
  ghost predicate Attached(tasks: seq<Task>, i: nat)
    requires i < |tasks|
  {
    var t := tasks[i];
    match t.parent
    case None => i == 0
    case Some(p) =>
      && p < i && !tasks[p].pc.Fetching?
      && t.slot < |tasks[p].slots| == |Entries(tasks[p].src)|
      && Entries(tasks[p].src)[t.slot] == t.src && !IsAttestation(t.src)
      && tasks[p].slots[t.slot] == (if Written(t) then t.pc.out.desc else t.src)
  }

  predicate IsChild(t: Task, parent: nat, slot: nat) {
    t.parent == Some(parent) && t.slot == slot
  }

  ghost predicate HasChild(tasks: seq<Task>, i: nat, k: nat) {
    exists j :: 0 <= j < |tasks| && IsChild(tasks[j], i, k)
  }

  /** An opened index has a child for every entry that is not an attestation;
      a joined one has only children past their wg.Done. */
  ghost predicate Family(tasks: seq<Task>, i: nat)
    requires i < |tasks|
  {
    var t := tasks[i];
    && (t.pc.Joining? || Joined(t) ==>
      forall k :: 0 <= k < |Entries(t.src)| && !IsAttestation(Entries(t.src)[k]) ==> HasChild(tasks, i, k))
    && (Joined(t) ==> ChildrenDone(tasks, i))
  }

  ghost predicate SlotsUnshared(tasks: seq<Task>) {
    forall i, j | 0 <= i < |tasks| && 0 <= j < |tasks| && tasks[i].parent.Some? ::
      tasks[i].parent == tasks[j].parent && tasks[i].slot == tasks[j].slot ==> i == j
  }

  ghost predicate TaskInv(o: Options, s: State, i: nat)
    requires i < |s.tasks|
  {
    && OwnOk(o, s.builds, s.tasks[i]) && Attached(s.tasks, i) && Family(s.tasks, i)
    && (s.tasks[i].pc.Ended? ==> s.tasks[i].pc.out.Target? || s.failed)
  }

  ghost predicate Inv(o: Options, s: State) {
    && (forall i :: 0 <= i < |s.tasks| ==> TaskInv(o, s, i))
    && SlotsUnshared(s.tasks)
  }

  lemma StartInv(o: Options, src: Desc)
    ensures Inv(o, Start(src))
  {
  }

  // ---------- Steps ----------

  /** What a step may do to its own task. */
  ghost predicate OwnEffect(o: Options, builds: Builds, t: Task, t': Task) {
    && t'.src == t.src && t'.parent == t.parent && t'.slot == t.slot
    && OwnOk(o, builds, t')
    && (PastDone(t) ==> PastDone(t'))
    && (Written(t) ==> Written(t') && t'.pc.out == t.pc.out)
    && (t'.pc.Fetching? ==> t.pc.Fetching?)
  }

  lemma OwnStep(o: Options, s: State, a: Action)
    requires Enabled(o, s, a) && !a.Cancel? && OwnOk(o, s.builds, s.tasks[a.i])
    ensures var t, t' := s.tasks[a.i], Move(o, s, a).value;
      && OwnEffect(o, Apply(o, s, a).builds, t, t') && s.builds <= Apply(o, s, a).builds
      && (!a.EndBuild? ==> Apply(o, s, a).builds == s.builds)
      && (!a.FetchIndex? ==> t'.slots == t.slots)
      && (!a.Write? ==> Written(t') ==> Written(t))
      && (a.Write? ==> t.pc.Returned? && t'.pc == Exiting(t.pc.out))
      && (t'.pc.Joining? ==> t.pc.Joining? || a.FetchIndex?)
      && (Joined(t') ==> Joined(t) || a.Join?)
      && (a.FetchIndex? ==> t.pc.Fetching?)
      && (a.FetchIndex? && t'.pc.Joining? ==> t'.slots == Entries(t.src))
      && (a.FetchIndex? && !t'.pc.Joining? ==> t'.slots == t.slots)
      && (a.Join? ==> t.pc.Joining? && ChildrenDone(s.tasks, a.i))
      && (t'.pc.Ended? ==> t.pc.Ended? || t'.pc.out.Target? || a.Record?)
  {
  }

  /** Tasks keep their place, and an opened index is never closed again. */
  ghost predicate Grown(tasks: seq<Task>, tasks': seq<Task>) {
    && |tasks| <= |tasks'|
    && (forall j :: 0 <= j < |tasks| ==>
      && tasks'[j].src == tasks[j].src && tasks'[j].parent == tasks[j].parent && tasks'[j].slot == tasks[j].slot
      && (PastDone(tasks[j]) ==> PastDone(tasks'[j])))
  }

  lemma FamilyKept(tasks: seq<Task>, tasks': seq<Task>, i: nat)
    requires Grown(tasks, tasks') && i < |tasks| && Family(tasks, i)
    requires tasks'[i].pc.Joining? ==> tasks[i].pc.Joining?
    requires Joined(tasks'[i]) ==> Joined(tasks[i]) || (tasks[i].pc.Joining? && ChildrenDone(tasks, i))
    requires forall j :: |tasks| <= j < |tasks'| ==> tasks'[j].parent != Some(i)
    ensures Family(tasks', i)
  {
    forall k | 0 <= k < |Entries(tasks[i].src)| && HasChild(tasks, i, k) ensures HasChild(tasks', i, k) {
      var j :| 0 <= j < |tasks| && IsChild(tasks[j], i, k);
      assert IsChild(tasks'[j], i, k);
    }
  }

  /** A step that neither spawns nor writes. */
  ghost predicate MovedAlone(o: Options, s: State, i: nat, t: Task, s': State) {
    && i < |s.tasks| && s'.tasks == s.tasks[i := t] && s.builds <= s'.builds && (s.failed ==> s'.failed)
    && OwnEffect(o, s'.builds, s.tasks[i], t) && t.slots == s.tasks[i].slots
    && (Written(t) ==> Written(s.tasks[i]) || t.parent == None)
    && (t.pc.Joining? ==> s.tasks[i].pc.Joining?)
    && (Joined(t) ==> Joined(s.tasks[i]) || (s.tasks[i].pc.Joining? && ChildrenDone(s.tasks, i)))
    && (t.pc.Ended? ==> s.tasks[i].pc.Ended? || t.pc.out.Target? || s'.failed)
  }

  lemma LocalStep(o: Options, s: State, i: nat, t: Task, s': State)
    requires Inv(o, s) && MovedAlone(o, s, i, t, s')
    ensures Inv(o, s')
  {
    assert TaskInv(o, s, i);
    forall j: nat | j < |s'.tasks| ensures TaskInv(o, s', j) {
      assert TaskInv(o, s, j);
      FamilyKept(s.tasks, s'.tasks, j);
      AttachedKept(o, s, i, t, s', j);
    }
  }

  lemma AttachedKept(o: Options, s: State, i: nat, t: Task, s': State, j: nat)
    requires MovedAlone(o, s, i, t, s') && j < |s.tasks| && Attached(s.tasks, j)
    ensures Attached(s'.tasks, j)
  {
  }

  /** The state once child i has written its target into its parent's list. */
  ghost predicate WroteSlot(o: Options, s: State, i: nat, t: Task, s': State) {
    && i < |s.tasks| && s.tasks[i].pc.Returned? && s.tasks[i].pc.out.Target?
    && t == s.tasks[i].(pc := Exiting(s.tasks[i].pc.out)) && t.parent.Some? && t.parent.value < i
    && t.slot < |s.tasks[t.parent.value].slots|
    && OwnOk(o, s.builds, t) && s'.failed == s.failed && s'.builds == s.builds
    && s'.tasks == s.tasks[i := t][t.parent.value := Receiving(s.tasks[t.parent.value], t)]
  }

  function Receiving(parent: Task, child: Task): Task
    requires child.slot < |parent.slots| && child.pc.Exiting? && child.pc.out.Target?
  {
    parent.(slots := parent.slots[child.slot := child.pc.out.desc])
  }

  /** A child that succeeded writes its slot. */
  lemma WriteStep(o: Options, s: State, i: nat, t: Task, s': State)
    requires Inv(o, s) && i < |s.tasks| && s.tasks[i].pc.Returned? && s.tasks[i].pc.out.Target?
    requires t == s.tasks[i].(pc := Exiting(s.tasks[i].pc.out)) && t.parent.Some?
    requires OwnOk(o, s.builds, t) && s'.failed == s.failed && s'.builds == s.builds
    requires s'.tasks == WriteSlot(s.tasks[i := t], t)
    ensures Inv(o, s')
  {
    assert TaskInv(o, s, i);
    assert WroteSlot(o, s, i, t, s');
    forall j: nat | j < |s'.tasks| ensures TaskInv(o, s', j) {
      WriteKeepsTask(o, s, i, t, s', j);
    }
  }

  /** The parent is still waiting for this child, so nothing has been derived from
      its list yet. */
  lemma WriteKeepsParent(o: Options, s: State, i: nat, t: Task, s': State)
    requires Inv(o, s) && WroteSlot(o, s, i, t, s')
    ensures OwnOk(o, s.builds, s'.tasks[t.parent.value]) && !Joined(s.tasks[t.parent.value])
  {
    assert TaskInv(o, s, i) && TaskInv(o, s, t.parent.value);
    assert !PastDone(s.tasks[i]);
  }

  lemma WriteKeepsTask(o: Options, s: State, i: nat, t: Task, s': State, j: nat)
    requires Inv(o, s) && WroteSlot(o, s, i, t, s') && j < |s'.tasks|
    ensures TaskInv(o, s', j)
  {
    assert TaskInv(o, s, j);
    WriteKeepsParent(o, s, i, t, s');
    FamilyKept(s.tasks, s'.tasks, j);
    WriteKeepsAttached(o, s, i, t, s', j);
  }

  lemma WriteKeepsAttached(o: Options, s: State, i: nat, t: Task, s': State, j: nat)
    requires Inv(o, s) && WroteSlot(o, s, i, t, s') && j < |s'.tasks|
    ensures Attached(s'.tasks, j)
  {
    assert TaskInv(o, s, j) && TaskInv(o, s, i);
    if s.tasks[j].parent == t.parent && s.tasks[j].slot == t.slot {
      assert i == j;
    }
  }

  // ---------- Spawning ----------

  /** A fresh task for one kept entry of a list whose first entry has number `slot`. */
  predicate Placed(c: Task, ms: seq<Desc>, parent: nat, slot: nat) {
    && slot <= c.slot < slot + |ms|
    && !IsAttestation(ms[c.slot - slot])
    && c == NewTask(ms[c.slot - slot], Some(parent), c.slot)
  }

  lemma {:induction false} ChildrenPlaced(ms: seq<Desc>, parent: nat, slot: nat)
    ensures forall j :: 0 <= j < |Children(ms, parent, slot)| ==>
      Placed(Children(ms, parent, slot)[j], ms, parent, slot)
  {
    if ms != [] {
      ChildrenPlaced(ms[1..], parent, slot + 1);
      var cs, rest := Children(ms, parent, slot), Children(ms[1..], parent, slot + 1);
      forall j | 0 <= j < |cs| ensures Placed(cs[j], ms, parent, slot) {
        if IsAttestation(ms[0]) {
          assert Placed(rest[j], ms[1..], parent, slot + 1);
        } else if j > 0 {
          assert cs[j] == rest[j - 1] && Placed(rest[j - 1], ms[1..], parent, slot + 1);
        }
      }
    }
  }

  lemma {:induction false} ChildrenIncrease(ms: seq<Desc>, parent: nat, slot: nat, j: nat, k: nat)
    requires j < k < |Children(ms, parent, slot)|
    ensures Children(ms, parent, slot)[j].slot < Children(ms, parent, slot)[k].slot
    decreases |ms|
  {
    var rest := Children(ms[1..], parent, slot + 1);
    if IsAttestation(ms[0]) {
      ChildrenIncrease(ms[1..], parent, slot + 1, j, k);
    } else if j > 0 {
      ChildrenIncrease(ms[1..], parent, slot + 1, j - 1, k - 1);
    } else {
      ChildrenPlaced(ms[1..], parent, slot + 1);
      assert Placed(rest[k - 1], ms[1..], parent, slot + 1);
    }
  }

  lemma {:induction false} ChildOf(ms: seq<Desc>, parent: nat, slot: nat, k: nat) returns (j: nat)
    requires k < |ms| && !IsAttestation(ms[k])
    ensures var cs := Children(ms, parent, slot); j < |cs| && IsChild(cs[j], parent, slot + k)
  {
    if k == 0 {
      j := 0;
    } else {
      j := ChildOf(ms[1..], parent, slot + 1, k - 1);
      if !IsAttestation(ms[0]) { j := j + 1; }
    }
  }

  /** The state once process has opened index i and started a goroutine for every
      kept entry. */
  ghost predicate Spawned(o: Options, s: State, i: nat, t: Task, s': State) {
    && i < |s.tasks| && s.tasks[i].pc.Fetching? && t.pc.Joining?
    && OwnEffect(o, s.builds, s.tasks[i], t) && t.slots == Entries(t.src)
    && s'.failed == s.failed && s'.builds == s.builds
    && s'.tasks == s.tasks[i := t] + Children(t.slots, i, 0)
  }

  lemma SpawnStep(o: Options, s: State, i: nat, t: Task, s': State)
    requires Inv(o, s) && Spawned(o, s, i, t, s')
    ensures Inv(o, s')
  {
    forall j: nat | j < |s'.tasks| ensures TaskInv(o, s', j) {
      if j == i {
        assert TaskInv(o, s, i);
        OpenedTaskOk(o, s, i, t, s');
      } else if j < |s.tasks| {
        OldTaskKept(o, s, i, t, s', j);
      } else {
        SpawnedTaskOk(o, s, i, t, s', j);
      }
    }
    SpawnedSlotsUnshared(o, s, i, t, s');
  }

  lemma OpenedTaskOk(o: Options, s: State, i: nat, t: Task, s': State)
    requires Spawned(o, s, i, t, s') && TaskInv(o, s, i)
    ensures TaskInv(o, s', i)
  {
    SpawnedFamily(i, t, s'.tasks, |s.tasks|);
  }

  lemma OldTaskKept(o: Options, s: State, i: nat, t: Task, s': State, j: nat)
    requires Inv(o, s) && Spawned(o, s, i, t, s') && j < |s.tasks| && j != i
    ensures TaskInv(o, s', j)
  {
    assert TaskInv(o, s, j);
    ChildrenPlaced(t.slots, i, 0);
    var n, cs := |s.tasks|, Children(t.slots, i, 0);
    forall x | n <= x < |s'.tasks| ensures s'.tasks[x].parent != Some(j) {
      assert s'.tasks[x] == cs[x - n] && Placed(cs[x - n], t.slots, i, 0);
    }
    FamilyKept(s.tasks, s'.tasks, j);
  }

  lemma SpawnedTaskOk(o: Options, s: State, i: nat, t: Task, s': State, j: nat)
    requires Spawned(o, s, i, t, s') && |s.tasks| <= j < |s'.tasks|
    ensures TaskInv(o, s', j)
  {
    var n, cs := |s.tasks|, Children(t.slots, i, 0);
    ChildrenPlaced(t.slots, i, 0);
    assert s'.tasks[j] == cs[j - n] && Placed(cs[j - n], t.slots, i, 0);
  }

  lemma SpawnedFamily(i: nat, t: Task, tasks: seq<Task>, n: nat)
    requires i < n <= |tasks| && tasks[n..] == Children(t.slots, i, 0)
    ensures forall k: nat :: k < |t.slots| && !IsAttestation(t.slots[k]) ==> HasChild(tasks, i, k)
  {
    forall k: nat | k < |t.slots| && !IsAttestation(t.slots[k]) ensures HasChild(tasks, i, k) {
      var c := ChildOf(t.slots, i, 0, k);
      assert tasks[n + c] == tasks[n..][c];
      assert IsChild(tasks[n + c], i, k);
    }
  }

  /** An index that is opened had no children before. */
  lemma OnlyNewChildren(o: Options, s: State, i: nat, t: Task, s': State)
    requires Inv(o, s) && i < |s.tasks| && s.tasks[i].pc.Fetching?
    requires t.src == s.tasks[i].src && t.parent == s.tasks[i].parent && t.slot == s.tasks[i].slot
    requires s'.tasks == s.tasks[i := t] + Children(t.slots, i, 0)
    ensures forall x :: 0 <= x < |s'.tasks| ==> (s'.tasks[x].parent == Some(i) <==> x >= |s.tasks|)
  {
    var n, cs := |s.tasks|, Children(t.slots, i, 0);
    ChildrenPlaced(t.slots, i, 0);
    forall x | 0 <= x < |s'.tasks| ensures s'.tasks[x].parent == Some(i) <==> x >= n {
      if x < n {
        assert TaskInv(o, s, x);
      } else {
        assert s'.tasks[x] == cs[x - n] && Placed(cs[x - n], t.slots, i, 0);
      }
    }
  }

  lemma SpawnedSlotsUnshared(o: Options, s: State, i: nat, t: Task, s': State)
    requires Inv(o, s) && i < |s.tasks| && s.tasks[i].pc.Fetching?
    requires t.src == s.tasks[i].src && t.parent == s.tasks[i].parent && t.slot == s.tasks[i].slot
    requires s'.tasks == s.tasks[i := t] + Children(t.slots, i, 0)
    ensures SlotsUnshared(s'.tasks)
  {
    var n, cs := |s.tasks|, Children(t.slots, i, 0);
    OnlyNewChildren(o, s, i, t, s');
    forall x, y | 0 <= x < |s'.tasks| && 0 <= y < |s'.tasks| && s'.tasks[x].parent.Some?
      ensures s'.tasks[x].parent == s'.tasks[y].parent && s'.tasks[x].slot == s'.tasks[y].slot ==> x == y
    {
      if x >= n && y >= n {
        assert s'.tasks[x] == cs[x - n] && s'.tasks[y] == cs[y - n];
        if x < y { ChildrenIncrease(t.slots, i, 0, x - n, y - n); }
        if y < x { ChildrenIncrease(t.slots, i, 0, y - n, x - n); }
      }
    }
  }

  lemma StepKeepsInv(o: Options, s: State, a: Action)
    requires Inv(o, s) && Enabled(o, s, a)
    ensures Inv(o, Apply(o, s, a))
  {
    var s' := Apply(o, s, a);
    if a.Cancel? {
      forall j | 0 <= j < |s'.tasks| ensures TaskInv(o, s', j) { assert TaskInv(o, s, j); }
    } else {
      assert TaskInv(o, s, a.i);
      OwnStep(o, s, a);
      var t := Move(o, s, a).value;
      if a.Write? && t.parent.Some? && t.pc.out.Target? {
        WriteStep(o, s, a.i, t, s');
      } else if a.FetchIndex? && t.pc.Joining? {
        SpawnStep(o, s, a.i, t, s');
      } else {
        LocalStep(o, s, a.i, t, s');
      }
    }
  }

  // ---------- Whole runs ----------

  lemma {:induction false} RunKeepsInv(o: Options, s: State, acts: seq<Action>, t: State)
    requires Inv(o, s) && |s.tasks| > 0 && Run(o, s, acts, t)
    ensures Inv(o, t) && |t.tasks| > 0 && t.tasks[0].src == s.tasks[0].src
    decreases |acts|
  {
    if acts != [] {
      StepKeepsInv(o, s, acts[0]);
      RootKept(o, s, acts[0]);
      RunKeepsInv(o, Apply(o, s, acts[0]), acts[1..], t);
    }
  }

  lemma RootKept(o: Options, s: State, a: Action)
    requires |s.tasks| > 0 && Enabled(o, s, a)
    ensures |Apply(o, s, a).tasks| > 0 && Apply(o, s, a).tasks[0].src == s.tasks[0].src
  {
  }

  // ---------- What a run's outcomes say about its targets ----------

  predicate HasTarget(pc: Pc) {
    (pc.Releasing? || pc.Returned? || pc.Exiting? || pc.Ended?) && pc.out.Target?
  }

  /** A manifest's target is what overlaybdBuilder.Build returned for it; an
      index's has the size that was uploaded. */
  ghost predicate TargetTold(done: seq<Action>, tasks: seq<Task>, i: nat)
    requires i < |tasks|
  {
    var t := tasks[i];
    HasTarget(t.pc) ==>
      var d := t.pc.out.desc;
      if IsManifest(t.src) then EndBuild(i, Some((d.mediaType, d.digest, d.size))) in done
      else EndUpload(i, d.size, true) in done
  }

  ghost predicate TaskBuilt(done: seq<Action>, tasks: seq<Task>, src: Desc, out: Desc, i: nat) {
    i < |tasks| && tasks[i].src == src && EndBuild(i, Some((out.mediaType, out.digest, out.size))) in done
  }

  /** What is remembered as built has been returned by overlaybdBuilder.Build for
      a task with that source. */
  ghost predicate BuildsTold(done: seq<Action>, s: State) {
    forall src, out :: (src, out) in s.builds ==> exists i :: TaskBuilt(done, s.tasks, src, out, i)
  }

  ghost predicate Told(done: seq<Action>, s: State) {
    && (forall i :: 0 <= i < |s.tasks| ==> TargetTold(done, s.tasks, i))
    && BuildsTold(done, s)
  }

  /** A step moves one program counter and starts only tasks without a target. */
  ghost predicate PcsMoved(s: State, i: nat, t: Task, s': State) {
    && i < |s.tasks| <= |s'.tasks| && s'.tasks[i].pc == t.pc
    && (forall j :: 0 <= j < |s.tasks| ==>
      s'.tasks[j].src == s.tasks[j].src && (j != i ==> s'.tasks[j].pc == s.tasks[j].pc))
    && (forall j :: |s.tasks| <= j < |s'.tasks| ==> !HasTarget(s'.tasks[j].pc))
  }

  lemma StepMovesPcs(o: Options, s: State, a: Action)
    requires Enabled(o, s, a) && !a.Cancel?
    ensures PcsMoved(s, a.i, Move(o, s, a).value, Apply(o, s, a))
  {
    var t, s' := Move(o, s, a).value, Apply(o, s, a);
    if a.FetchIndex? && t.pc.Joining? {
      var n, cs := |s.tasks|, Children(t.slots, a.i, 0);
      ChildrenPlaced(t.slots, a.i, 0);
      forall j | n <= j < |s'.tasks| ensures !HasTarget(s'.tasks[j].pc) {
        assert s'.tasks[j] == cs[j - n] && Placed(cs[j - n], t.slots, a.i, 0);
      }
    }
  }

  lemma OwnTargetTold(o: Options, s: State, a: Action)
    requires Enabled(o, s, a) && !a.Cancel? && OwnOk(o, s.builds, s.tasks[a.i])
    ensures var t, t' := s.tasks[a.i], Move(o, s, a).value;
      && (HasTarget(t'.pc) ==>
        if a.EndBuild? || a.EndUpload? then TargetTold([a], s.tasks[a.i := t'], a.i)
        else HasTarget(t.pc) && t.pc.out == t'.pc.out)
      && Apply(o, s, a).builds == s.builds + if a.EndBuild? && HasTarget(t'.pc) then {(t.src, t'.pc.out.desc)} else {}
  {
  }

  lemma StepTells(o: Options, done: seq<Action>, s: State, a: Action)
    requires Inv(o, s) && Enabled(o, s, a) && Told(done, s)
    ensures Told(done + [a], Apply(o, s, a))
  {
    var s' := Apply(o, s, a);
    if !a.Cancel? {
      assert TaskInv(o, s, a.i);
      StepMovesPcs(o, s, a);
      OwnTargetTold(o, s, a);
      BuildsGrow(done, s, a, Move(o, s, a).value, s');
    } else {
      forall b, d | (b, d) in s.builds ensures exists i :: TaskBuilt(done + [a], s'.tasks, b, d, i) {
        var i :| TaskBuilt(done, s.tasks, b, d, i);
        assert TaskBuilt(done + [a], s'.tasks, b, d, i);
      }
    }
    forall i: nat | i < |s'.tasks| ensures TargetTold(done + [a], s'.tasks, i) {
      assert i < |s.tasks| ==> TargetTold(done, s.tasks, i);
    }
  }

  lemma BuildsGrow(done: seq<Action>, s: State, a: Action, t: Task, s': State)
    requires BuildsTold(done, s) && !a.Cancel? && PcsMoved(s, a.i, t, s') && t.src == s.tasks[a.i].src
    requires a.EndBuild? && HasTarget(t.pc) ==> TargetTold([a], s.tasks[a.i := t], a.i) && IsManifest(t.src)
    requires s'.builds == s.builds + if a.EndBuild? && HasTarget(t.pc) then {(t.src, t.pc.out.desc)} else {}
    ensures BuildsTold(done + [a], s')
  {
    forall src, out | (src, out) in s'.builds ensures exists i :: TaskBuilt(done + [a], s'.tasks, src, out, i) {
      if (src, out) in s.builds {
        var i :| TaskBuilt(done, s.tasks, src, out, i);
        assert TaskBuilt(done + [a], s'.tasks, src, out, i);
      } else {
        assert TaskBuilt(done + [a], s'.tasks, src, out, a.i);
      }
    }
  }

  lemma {:induction false} RunTells(o: Options, done: seq<Action>, s: State, acts: seq<Action>, t: State)
    requires Inv(o, s) && Told(done, s) && Run(o, s, acts, t)
    ensures Told(done + acts, t)
    decreases |acts|
  {
    if acts == [] {
      assert done + acts == done;
    } else {
      StepKeepsInv(o, s, acts[0]);
      StepTells(o, done, s, acts[0]);
      RunTells(o, done + [acts[0]], Apply(o, s, acts[0]), acts[1..], t);
      assert done + [acts[0]] + acts[1..] == done + acts;
    }
  }

  /** In any run, whatever a task has as its target was returned to it in that
      run, and so was everything remembered as built. */
  lemma TargetsInEveryRun(o: Options, src: Desc, acts: seq<Action>, t: State)
    requires Run(o, Start(src), acts, t)
    ensures forall i :: 0 <= i < |t.tasks| ==> TargetTold(acts, t.tasks, i)
    ensures BuildsTold(acts, t)
  {
    StartInv(o, src);
    RunTells(o, [], Start(src), acts, t);
    assert [] + acts == acts;
  }

  /** In a finished run without an error, every task has converted its source. */
  lemma {:induction false} TaskConverted(o: Options, s: State, i: nat)
    requires Inv(o, s) && WaitReturns(s) && !s.failed && i < |s.tasks|
    ensures s.tasks[i].pc.Ended? && s.tasks[i].pc.out.Target?
    ensures ConvertedFrom(o, s.builds, s.tasks[i].src, s.tasks[i].pc.out.desc)
    decreases |s.tasks| - i
  {
    var t := s.tasks[i];
    assert TaskInv(o, s, i);
    if !IsManifest(t.src) {
      var entries := Entries(t.src);
      forall k | 0 <= k < |entries|
        ensures
          if IsAttestation(entries[k]) then t.slots[k] == entries[k]
          else ConvertedFrom(o, s.builds, entries[k], t.slots[k])
      {
        if !IsAttestation(entries[k]) {
          assert HasChild(s.tasks, i, k);
          var j: nat :| j < |s.tasks| && IsChild(s.tasks[j], i, k);
          assert TaskInv(o, s, j);
          TaskConverted(o, s, j);
        }
      }
      FilterAfterWrites(o, s.builds, entries, t.slots);
    }
  }

  /** Whatever the nesting and the interleaving: when Wait returns nil the root
      has been converted into the same tree, attestations dropped and every other
      entry converted, in source order, manifests into what overlaybdBuilder.Build
      returned for them. */
  lemma SuccessfulConversion(o: Options, src: Desc, acts: seq<Action>, t: State)
    requires Run(o, Start(src), acts, t) && WaitReturns(t) && !t.failed
    ensures |t.tasks| > 0 && t.tasks[0].pc.Ended? && t.tasks[0].pc.out.Target?
    ensures ConvertedFrom(o, t.builds, src, t.tasks[0].pc.out.desc) && BuildsTold(acts, t)
  {
    StartInv(o, src);
    RunKeepsInv(o, Start(src), acts, t);
    TargetsInEveryRun(o, src, acts, t);
    TaskConverted(o, t, 0);
  }

  /** In any run, failing or not, an index that is being uploaded has one child for
      every entry that is not an attestation, all of them past their wg.Done, and
      the entry is the target that the child returned, or still the source entry
      if the child failed; the target of a manifest has been built from it. */
  lemma UploadedIndexInAnyRun(o: Options, src: Desc, acts: seq<Action>, t: State, i: nat)
    requires Run(o, Start(src), acts, t) && i < |t.tasks| && t.tasks[i].pc.Uploading?
    ensures ChildrenDone(t.tasks, i)
    ensures t.tasks[i].src.digest.IndexDigest? && |t.tasks[i].slots| == |Entries(t.tasks[i].src)|
    ensures IndexFields(o, t.tasks[i].src, t.tasks[i].pc.index)
    ensures t.tasks[i].pc.index.manifests == Keep(t.tasks[i].slots)
    ensures forall k :: 0 <= k < |Entries(t.tasks[i].src)| && !IsAttestation(Entries(t.tasks[i].src)[k]) ==>
      HasChild(t.tasks, i, k)
    ensures forall j :: 0 <= j < |t.tasks| && t.tasks[j].parent == Some(i) ==> SlotOf(t.tasks[i], t.tasks[j])
    ensures forall j :: 0 <= j < |t.tasks| && t.tasks[j].parent == Some(i) ==> TargetBuilt(t.builds, t.tasks[j])
  {
    StartInv(o, src);
    RunKeepsInv(o, Start(src), acts, t);
    assert TaskInv(o, t, i);
    forall j | 0 <= j < |t.tasks| && t.tasks[j].parent == Some(i)
      ensures SlotOf(t.tasks[i], t.tasks[j]) && TargetBuilt(t.builds, t.tasks[j])
    {
      assert TaskInv(o, t, j);
    }
  }

  /** The child's slot holds its target, or the source entry if it has written none. */
  predicate SlotOf(parent: Task, child: Task) {
    && child.slot < |parent.slots| == |Entries(parent.src)| && Entries(parent.src)[child.slot] == child.src
    && parent.slots[child.slot] == if Written(child) then child.pc.out.desc else child.src
  }

  predicate TargetBuilt(builds: Builds, t: Task) {
    Written(t) && IsManifest(t.src) ==> ManifestTarget(builds, t.src, t.pc.out.desc)
  }

  // ---------- The window between wg.Done and the cancellation ----------

  /** A one-entry index whose child fails: the child's wg.Done lets the parent
      finish before the errgroup hears of the error. */
  function Script(size: nat): seq<Action> {
    [FetchIndex(0, true), Acquire(1), EndBuild(1, None), Release(1), Write(1), Done(1), Join(0),
     EndUpload(0, size, true)]
  }

  function Scene(o: Options, src: Desc, m: Desc, size: nat, k: nat): State
    requires src.digest.IndexDigest? && k <= 8
  {
    var index := ConvertedIndex(o, src, [m]);
    var root: Pc :=
      if k < 7 then Joining else if k == 7 then Uploading(index) else Returned(Target(IndexDesc(index, size)));
    var child: Pc := if k <= 1 then WaitSem else if k == 2 then Building else if k == 3 then Releasing(Error)
      else if k == 4 then Returned(Error) else if k == 5 then Exiting(Error) else Recording;
    if k == 0 then Start(src)
    else State(
      [NewTask(src, None, 0).(pc := root, slots := [m]), NewTask(m, Some(0), 0).(pc := child)],
      if o.limit > 0 && 2 <= k <= 3 then 1 else 0, 0, false, false, {})
  }

  lemma SceneStep(o: Options, src: Desc, m: Desc, size: nat, k: nat)
    requires IsIndex(src) && src.digest.IndexDigest? && src.digest.index.manifests == [m]
    requires IsManifest(m) && !IsAttestation(m) && k < 8
    ensures Enabled(o, Scene(o, src, m, size, k), Script(size)[k])
    ensures Apply(o, Scene(o, src, m, size, k), Script(size)[k]) == Scene(o, src, m, size, k + 1)
  {
    if k == 0 {
      assert Children([m][1..], 0, 1) == [];
      assert Children([m], 0, 0) == [NewTask(m, Some(0), 0)];
    } else if k == 6 {
      assert Keep([m]) == [m];
    }
  }

  lemma {:induction false} ScenePlays(o: Options, src: Desc, m: Desc, size: nat, k: nat)
    requires IsIndex(src) && src.digest.IndexDigest? && src.digest.index.manifests == [m]
    requires IsManifest(m) && !IsAttestation(m) && k <= 8
    ensures Run(o, Scene(o, src, m, size, k), Script(size)[k..], Scene(o, src, m, size, 8))
    decreases 8 - k
  {
    if k < 8 {
      ScenePlays(o, src, m, size, k + 1);
      SceneStep(o, src, m, size, k);
      assert Script(size)[k..][1..] == Script(size)[k + 1..];
    }
  }

  /** In a run that fails, an index may be uploaded with a source entry left in
      place although nothing has been built from it, so SuccessfulConversion does
      need Wait to return nil. */
  lemma FailedChildWindow(o: Options, src: Desc, m: Desc, size: nat) returns (acts: seq<Action>, t: State)
    requires IsIndex(src) && src.digest.IndexDigest? && src.digest.index.manifests == [m]
    requires IsManifest(m) && !IsAttestation(m)
    ensures Run(o, Start(src), acts, t) && !t.failed && |t.tasks| == 2 && t.tasks[1].pc == Recording
    ensures t.tasks[0].pc.Returned? && t.tasks[0].pc.out.Target? && t.tasks[0].pc.out.desc.size == size
    ensures var digest := t.tasks[0].pc.out.desc.digest;
      digest.IndexDigest? && IndexFields(o, src, digest.index) && digest.index.manifests == [m]
    ensures !ConvertedFrom(o, t.builds, src, t.tasks[0].pc.out.desc)
  {
    acts, t := Script(size), Scene(o, src, m, size, 8);
    ScenePlays(o, src, m, size, 0);
    assert Script(size)[0..] == Script(size);
    assert !ConvertedFrom(o, {}, m, m);
  }
}
