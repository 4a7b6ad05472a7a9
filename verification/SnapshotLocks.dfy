/** The per-snapshot locks that Mounts and Remove take with autoRemoveDev on
    (pkg/snapshot/overlay.go:812-818, 1077-1091, 1131-1137).  A call locks its
    snapshot, then the snapshot's parent; Remove does so inside the metastore's
    one write transaction.  The metastore gives a child a larger id than its
    parent (pkg/snapshot/overlay.go:1506-1514). */
module SnapshotLocks {
  import opened Wrappers
  import opened Counting

  type Id = nat

  /** Where a call is.  `Held` calls hold both locks and use the devices. */
  datatype PC = Starting | Ready | HasOwn | Held | FreedParent | FreedOwn | Finished

  /** `writes`: Remove, which needs the write transaction; `parent`: None if the
      call takes no locks (no parent, or Remove of a view). */
  datatype Call = Call(writes: bool, id: Id, parent: Option<Id>, pc: PC)

  datatype Action =
    | Advance(i: nat)   // take or free the next thing
    | Fail(i: nat)      // an error before the locks: straight to the deferred release

  predicate HasTx(c: Call) {
    c.writes && !c.pc.Starting? && !c.pc.Finished?
  }

  predicate Holds(c: Call, x: Id) {
    c.parent.Some? &&
      match c.pc
      case HasOwn => x == c.id
      case Held => x == c.id || x == c.parent.value
      case FreedParent => x == c.id
      case _ => false
  }

  predicate Free(calls: seq<Call>, x: Id) {
    forall j :: 0 <= j < |calls| ==> !Holds(calls[j], x)
  }

  predicate TxFree(calls: seq<Call>) {
    forall j :: 0 <= j < |calls| ==> !HasTx(calls[j])
  }

  predicate Enabled(calls: seq<Call>, a: Action) {
    a.i < |calls| &&
      var c := calls[a.i];
      if a.Fail? then c.pc.Ready?
      else
        match c.pc
        case Starting => c.writes ==> TxFree(calls)
        case Ready => c.parent.Some? ==> Free(calls, c.id)
        case HasOwn => c.parent.Some? ==> Free(calls, c.parent.value)
        case Finished => false
        case _ => true
  }

  function Next(pc: PC): PC {
    match pc
    case Starting => Ready
    case Ready => HasOwn
    case HasOwn => Held
    case Held => FreedParent
    case FreedParent => FreedOwn
    case _ => Finished
  }

  function Apply(calls: seq<Call>, a: Action): seq<Call>
    requires Enabled(calls, a)
  {
    var c := calls[a.i];
    calls[a.i := c.(pc := if a.Fail? then FreedOwn else Next(c.pc))]
  }

  ghost predicate Run(calls: seq<Call>, acts: seq<Action>, end: seq<Call>)
    decreases |acts|
  {
    if acts == [] then calls == end
    else Enabled(calls, acts[0]) && Run(Apply(calls, acts[0]), acts[1..], end)
  }

  /** Any number of calls about to start, each on a snapshot above its parent. */
  predicate Init(calls: seq<Call>) {
    ParentsBelow(calls) && forall i :: 0 <= i < |calls| ==> calls[i].pc.Starting?
  }

  predicate ParentsBelow(calls: seq<Call>) {
    forall i :: 0 <= i < |calls| && calls[i].parent.Some? ==> calls[i].parent.value < calls[i].id
  }

  // ---------- Mutual exclusion ----------

  ghost predicate Exclusive(calls: seq<Call>) {
    && (forall i, j, x {:trigger Holds(calls[i], x), Holds(calls[j], x)} ::
          0 <= i < j < |calls| && Holds(calls[i], x) ==> !Holds(calls[j], x))
    && (forall i, j :: 0 <= i < j < |calls| && HasTx(calls[i]) ==> !HasTx(calls[j]))
  }

  lemma StepKeepsExclusive(calls: seq<Call>, a: Action)
    requires Exclusive(calls) && Enabled(calls, a)
    ensures Exclusive(Apply(calls, a))
  {
    var next := Apply(calls, a);
    forall i, j, x | 0 <= i < j < |calls| && Holds(next[i], x) ensures !Holds(next[j], x) {
      assert !(Holds(calls[i], x) && Holds(calls[j], x));
    }
  }

  lemma {:induction false} RunKeepsExclusive(calls: seq<Call>, acts: seq<Action>, end: seq<Call>)
    requires Exclusive(calls) && Run(calls, acts, end)
    ensures Exclusive(end)
    decreases |acts|
  {
    if acts != [] {
      StepKeepsExclusive(calls, acts[0]);
      RunKeepsExclusive(Apply(calls, acts[0]), acts[1..], end);
    }
  }

  /** In every run, two calls that use the same parent's device never do so at
      the same time, neither do two calls on one snapshot. */
  lemma LocksExclude(calls: seq<Call>, acts: seq<Action>, end: seq<Call>, i: nat, j: nat)
    requires Init(calls) && Run(calls, acts, end)
    requires i < j < |end| && end[i].pc.Held? && end[j].pc.Held? && end[i].parent.Some? && end[j].parent.Some?
    ensures {end[i].id, end[i].parent.value} !! {end[j].id, end[j].parent.value}
  {
    RunKeepsExclusive(calls, acts, end);
    forall x | Holds(end[i], x) ensures !Holds(end[j], x) {
    }
    assert Holds(end[i], end[i].id) && Holds(end[i], end[i].parent.value);
  }

  /** And two calls of Remove are never inside the write transaction together. */
  lemma RemovesExclude(calls: seq<Call>, acts: seq<Action>, end: seq<Call>, i: nat, j: nat)
    requires Init(calls) && Run(calls, acts, end)
    requires i < |end| && j < |end| && end[i].writes && end[j].writes
    requires !end[i].pc.Starting? && !end[i].pc.Finished? && !end[j].pc.Starting? && !end[j].pc.Finished?
    ensures i == j
  {
    RunKeepsExclusive(calls, acts, end);
    assert HasTx(end[i]) && HasTx(end[j]);
  }

  // ---------- Progress ----------

  /** Some call can go on; a call that waits does not give up. */
  ghost predicate CanMove(calls: seq<Call>) {
    exists i :: Enabled(calls, Advance(i))
  }

  /** Whoever waits for lock x waits for a call that waits, if at all, for a
      smaller lock. */
  lemma {:induction false} LockWaiterMoves(calls: seq<Call>, i: nat, x: Id)
    requires ParentsBelow(calls) && i < |calls| && calls[i].parent.Some?
    requires (calls[i].pc.Ready? && x == calls[i].id) || (calls[i].pc.HasOwn? && x == calls[i].parent.value)
    ensures CanMove(calls)
    decreases x
  {
    if Free(calls, x) {
      assert Enabled(calls, Advance(i));
    } else {
      var j: nat :| j < |calls| && Holds(calls[j], x);
      if calls[j].pc.HasOwn? {
        LockWaiterMoves(calls, j, calls[j].parent.value);
      } else {
        assert Enabled(calls, Advance(j));
      }
    }
  }

  lemma RunningMoves(calls: seq<Call>, i: nat)
    requires ParentsBelow(calls) && i < |calls| && !calls[i].pc.Starting? && !calls[i].pc.Finished?
    ensures CanMove(calls)
  {
    var c := calls[i];
    if c.pc.Ready? && c.parent.Some? {
      LockWaiterMoves(calls, i, c.id);
    } else if c.pc.HasOwn? && c.parent.Some? {
      LockWaiterMoves(calls, i, c.parent.value);
    } else {
      assert Enabled(calls, Advance(i));
    }
  }

  lemma {:induction false} RunKeepsParents(calls: seq<Call>, acts: seq<Action>, end: seq<Call>)
    requires ParentsBelow(calls) && Run(calls, acts, end)
    ensures ParentsBelow(end) && |end| == |calls|
    decreases |acts|
  {
    if acts != [] {
      RunKeepsParents(Apply(calls, acts[0]), acts[1..], end);
    }
  }

  /** Any number of concurrent Mounts and Remove calls cannot deadlock: while one
      of them is unfinished, some call can go on. */
  lemma NoDeadlock(calls: seq<Call>, acts: seq<Action>, end: seq<Call>, i: nat)
    requires Init(calls) && Run(calls, acts, end)
    requires i < |end| && !end[i].pc.Finished?
    ensures CanMove(end)
  {
    RunKeepsParents(calls, acts, end);
    if !end[i].pc.Starting? {
      RunningMoves(end, i);
    } else if end[i].writes && !TxFree(end) {
      var j :| 0 <= j < |end| && HasTx(end[j]);
      RunningMoves(end, j);
    } else {
      assert Enabled(end, Advance(i));
    }
  }

  function Left(pc: PC): nat {
    match pc
    case Starting => 6
    case Ready => 5
    case HasOwn => 4
    case Held => 3
    case FreedParent => 2
    case FreedOwn => 1
    case Finished => 0
  }

  const LEFT: Call -> nat := (c: Call) => Left(c.pc)

  /** ... and all of them end: a run has at most six steps a call. */
  lemma {:induction false} EveryRunIsBounded(calls: seq<Call>, acts: seq<Action>, end: seq<Call>)
    requires Run(calls, acts, end)
    ensures |acts| + Total(LEFT, end) <= Total(LEFT, calls)
    ensures Init(calls) ==> |acts| <= 6 * |calls|
    decreases |acts|
  {
    if acts != [] {
      var a := acts[0];
      TotalUpdate(LEFT, calls, a.i, Apply(calls, a)[a.i]);
      EveryRunIsBounded(Apply(calls, a), acts[1..], end);
    }
    if Init(calls) {
      TotalConstant(LEFT, calls, 6);
    }
  }

  // ---------- Why the ids must decrease ----------

  /** Two calls that lock in opposite orders can block each other for good. */
  lemma OppositeOrdersDeadlock() returns (calls: seq<Call>, acts: seq<Action>, end: seq<Call>)
    ensures calls == [Call(false, 1, Some(2), Starting), Call(false, 2, Some(1), Starting)]
    ensures Run(calls, acts, end) && |end| == 2 && !end[0].pc.Finished? && !CanMove(end)
  {
    var c, d := Call(false, 1, Some(2), Starting), Call(false, 2, Some(1), Starting);
    calls, acts := [c, d], [Advance(0), Advance(0), Advance(1), Advance(1)];
    var s1 := [c.(pc := Ready), d];
    var s2 := [c.(pc := HasOwn), d];
    var s3 := [c.(pc := HasOwn), d.(pc := Ready)];
    end := [c.(pc := HasOwn), d.(pc := HasOwn)];
    assert Apply(calls, Advance(0)) == s1;
    assert Apply(s1, Advance(0)) == s2;
    assert Apply(s2, Advance(1)) == s3;
    assert Free(s3, 2);
    assert Apply(s3, Advance(1)) == end;
    assert Run(end, [], end);
    assert Run(s3, [Advance(1)], end);
    assert Run(s2, [Advance(1)] + [Advance(1)], end);
    assert Run(s1, [Advance(0), Advance(1), Advance(1)], end);
    assert Holds(end[0], 1) && Holds(end[1], 2);
  }
}
