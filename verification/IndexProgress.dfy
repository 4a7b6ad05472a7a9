/** The counting semaphore of the index conversion, and that the conversion
    never deadlocks and always ends, for any nesting and any limit. */
module IndexProgress {
  import opened Wrappers
  import opened Counting
  import opened IndexConversion
  import opened IndexSafety

  // ---------- The semaphore ----------

  /** buildOne is past acquisition and has not yet released. */
  function Holding(t: Task): nat {
    if t.pc.Building? || t.pc.Releasing? then 1 else 0
  }

  /** Every holder owns exactly one token; tokens without an owner were leaked,
      which happens only after cancellation. */
  ghost predicate SemInv(o: Options, s: State) {
    o.limit > 0 ==>
      && s.tokens == Total(Holding, s.tasks) + s.leaked
      && s.tokens <= o.limit
      && (s.leaked > 0 ==> s.cancelled)
  }

  lemma HoldingStep(o: Options, s: State, a: Action)
    requires Enabled(o, s, a) && !a.Cancel?
    ensures var h, h' := Holding(s.tasks[a.i]), Holding(Move(o, s, a).value);
      h' == (if a.Acquire? then 1 else if a.Release? || a.Leak? then 0 else h)
      && (a.Acquire? ==> h == 0) && (a.Release? || a.Leak? ==> h == 1)
  {
  }

  lemma {:induction false} ChildrenHoldNothing(ms: seq<Desc>, parent: nat, slot: nat)
    ensures Total(Holding, Children(ms, parent, slot)) == 0
  {
    if ms != [] {
      ChildrenHoldNothing(ms[1..], parent, slot + 1);
      if !IsAttestation(ms[0]) {
        var c, rest := NewTask(ms[0], Some(parent), slot), Children(ms[1..], parent, slot + 1);
        assert Children(ms, parent, slot)[1..] == rest;
      }
    }
  }

  /** Writing a slot changes nobody's program counter, hence no measure of it. */
  lemma TotalAfterWrite(f: Task -> nat, tasks: seq<Task>, t: Task)
    requires forall x: Task, slots: seq<Desc> :: f(x.(slots := slots)) == f(x) || x.pc.Fetching?
    requires t.parent.Some? && t.parent.value < |tasks| ==> !tasks[t.parent.value].pc.Fetching?
    ensures Total(f, WriteSlot(tasks, t)) == Total(f, tasks)
  {
    if WriteSlot(tasks, t) != tasks {
      var p := tasks[t.parent.value];
      TotalUpdate(f, tasks, t.parent.value, p.(slots := p.slots[t.slot := t.pc.out.desc]));
    }
  }

  lemma TotalHolding(o: Options, s: State, a: Action)
    requires Inv(o, s) && Enabled(o, s, a) && !a.Cancel?
    ensures Total(Holding, Apply(o, s, a).tasks) + Holding(s.tasks[a.i])
         == Total(Holding, s.tasks) + Holding(Move(o, s, a).value)
  {
    var t := Move(o, s, a).value;
    TotalUpdate(Holding, s.tasks, a.i, t);
    if a.Write? {
      ParentIsOpen(o, s, a);
      TotalAfterWrite(Holding, s.tasks[a.i := t], t);
    } else if a.FetchIndex? && t.pc.Joining? {
      ChildrenHoldNothing(t.slots, a.i, 0);
      TotalAppend(Holding, s.tasks[a.i := t], Children(t.slots, a.i, 0));
    }
  }

  lemma ParentIsOpen(o: Options, s: State, a: Action)
    requires Inv(o, s) && Enabled(o, s, a) && a.Write?
    ensures var t := Move(o, s, a).value;
      t.parent.Some? && t.parent.value < |s.tasks| ==> !s.tasks[a.i := t][t.parent.value].pc.Fetching?
  {
    assert TaskInv(o, s, a.i);
  }

  lemma StepKeepsSem(o: Options, s: State, a: Action)
    requires Inv(o, s) && SemInv(o, s) && Enabled(o, s, a)
    ensures SemInv(o, Apply(o, s, a))
  {
    if !a.Cancel? {
      HoldingStep(o, s, a);
      TotalHolding(o, s, a);
    }
  }

  lemma {:induction false} RunKeepsSem(o: Options, s: State, acts: seq<Action>, t: State)
    requires Inv(o, s) && SemInv(o, s) && Run(o, s, acts, t)
    ensures Inv(o, t) && SemInv(o, t)
    decreases |acts|
  {
    if acts != [] {
      StepKeepsInv(o, s, acts[0]);
      StepKeepsSem(o, s, acts[0]);
      RunKeepsSem(o, Apply(o, s, acts[0]), acts[1..], t);
    }
  }

  /** In every run at most `limit` buildOne calls are past acquisition at once,
      and a release never blocks: as long as anybody holds a token there is one
      to take back. */
  lemma ConcurrencyBounded(o: Options, src: Desc, acts: seq<Action>, t: State)
    requires Run(o, Start(src), acts, t) && o.limit > 0
    ensures Total(Holding, t.tasks) <= t.tokens <= o.limit
    ensures !t.cancelled ==> t.tokens == Total(Holding, t.tasks)
    ensures forall i :: 0 <= i < |t.tasks| && t.tasks[i].pc.Releasing? ==> Enabled(o, t, Release(i))
  {
    StartInv(o, src);
    RunKeepsSem(o, Start(src), acts, t);
    forall i: nat | i < |t.tasks| && t.tasks[i].pc.Releasing? ensures Enabled(o, t, Release(i)) {
      TotalAtLeast(Holding, t.tasks, i);
    }
  }

  // ---------- Every run is bounded ----------

  /** All the steps that converting a descriptor can take. */
  function Work(d: Desc): nat
    decreases d, 1
  {
    if IsIndex(d) && d.digest.IndexDigest? then 6 + WorkOf(d.digest.index.manifests) else 6
  }

  function WorkOf(ms: seq<Desc>): nat
    decreases ms, 0
  {
    if ms == [] then 0
    else if IsAttestation(ms[0]) then WorkOf(ms[1..])
    else Work(ms[0]) + WorkOf(ms[1..])
  }

  function Rank(t: Task): nat {
    match t.pc
    case WaitSem => 6
    case Building => 5
    case Releasing(_) => 4
    case Fetching => Work(t.src)
    case Joining => 5
    case Uploading(_) => 4
    case Returned(_) => 3
    case Exiting(_) => 2
    case Recording => 1
    case Ended(_) => 0
  }

  function Remaining(s: State): nat {
    Total(Rank, s.tasks) + if s.cancelled then 0 else 1
  }

  lemma {:induction false} ChildrenWork(ms: seq<Desc>, parent: nat, slot: nat)
    ensures Total(Rank, Children(ms, parent, slot)) <= WorkOf(ms)
  {
    if ms != [] {
      ChildrenWork(ms[1..], parent, slot + 1);
      if !IsAttestation(ms[0]) {
        assert Children(ms, parent, slot)[1..] == Children(ms[1..], parent, slot + 1);
      }
    }
  }

  lemma OwnRank(o: Options, s: State, a: Action)
    requires Enabled(o, s, a) && !a.Cancel?
    ensures var t, t' := s.tasks[a.i], Move(o, s, a).value;
      if a.FetchIndex? && t'.pc.Joining? then IsIndex(t.src) ==> Rank(t') + WorkOf(t'.slots) < Rank(t)
      else Rank(t') < Rank(t)
  {
  }

  lemma StepDecreases(o: Options, s: State, a: Action)
    requires Inv(o, s) && Enabled(o, s, a)
    ensures Remaining(Apply(o, s, a)) < Remaining(s)
  {
    if !a.Cancel? {
      assert TaskInv(o, s, a.i);
      var t := Move(o, s, a).value;
      OwnRank(o, s, a);
      TotalUpdate(Rank, s.tasks, a.i, t);
      if a.Write? {
        ParentIsOpen(o, s, a);
        TotalAfterWrite(Rank, s.tasks[a.i := t], t);
      } else if a.FetchIndex? && t.pc.Joining? {
        ChildrenWork(t.slots, a.i, 0);
        TotalAppend(Rank, s.tasks[a.i := t], Children(t.slots, a.i, 0));
      }
    }
  }

  lemma {:induction false} RunDecreases(o: Options, s: State, acts: seq<Action>, t: State)
    requires Inv(o, s) && Run(o, s, acts, t)
    ensures |acts| + Remaining(t) <= Remaining(s)
    decreases |acts|
  {
    if acts != [] {
      StepKeepsInv(o, s, acts[0]);
      StepDecreases(o, s, acts[0]);
      RunDecreases(o, Apply(o, s, acts[0]), acts[1..], t);
    }
  }

  /** No run takes more steps than the work found in the source tree, plus one
      for the caller's cancellation. */
  lemma EveryRunIsBounded(o: Options, src: Desc, acts: seq<Action>, t: State)
    requires Run(o, Start(src), acts, t)
    ensures |acts| <= Work(src) + 1
  {
    StartInv(o, src);
    RunDecreases(o, Start(src), acts, t);
    var tasks := Start(src).tasks;
    assert Total(Rank, tasks) == Rank(tasks[0]) + Total(Rank, tasks[1..]);
  }

  // ---------- No reachable state is stuck ----------

  /** A step that is neither a failure nor the caller's cancellation is possible. */
  ghost predicate CanMove(o: Options, s: State) {
    exists a: Action :: !Faulty(a) && Enabled(o, s, a)
  }

  lemma Moves(o: Options, s: State, a: Action)
    requires Enabled(o, s, a) && !Faulty(a)
    ensures CanMove(o, s)
  {
  }

  lemma HolderMoves(o: Options, s: State, i: nat)
    requires SemInv(o, s) && i < |s.tasks| && (s.tasks[i].pc.Building? || s.tasks[i].pc.Releasing?)
    ensures CanMove(o, s)
  {
    if s.tasks[i].pc.Building? {
      Moves(o, s, EndBuild(i, Some((OCIManifest, Blob(0), 0))));
    } else {
      TotalAtLeast(Holding, s.tasks, i);
      Moves(o, s, Release(i));
    }
  }

  /** A full semaphore has a holder, unless the context is cancelled. */
  lemma WaiterMoves(o: Options, s: State, i: nat)
    requires SemInv(o, s) && i < |s.tasks| && s.tasks[i].pc.WaitSem?
    ensures CanMove(o, s)
  {
    if o.limit == 0 || s.tokens < o.limit {
      Moves(o, s, Acquire(i));
    } else if s.cancelled {
      Moves(o, s, GiveUp(i));
    } else {
      var j := TotalPositive(Holding, s.tasks);
      HolderMoves(o, s, j);
    }
  }

  lemma JoinMoves(o: Options, s: State, i: nat)
    requires Inv(o, s) && i < |s.tasks| && s.tasks[i].pc.Joining?
    requires forall j :: i < j < |s.tasks| ==> s.tasks[j].pc.Ended?
    ensures CanMove(o, s)
  {
    assert TaskInv(o, s, i);
    forall j | 0 <= j < |s.tasks| && s.tasks[j].parent == Some(i) ensures PastDone(s.tasks[j]) {
      assert TaskInv(o, s, j);
    }
    Moves(o, s, Join(i));
  }

  /** The youngest unfinished task waits for nobody younger. */
  lemma YoungestMoves(o: Options, s: State, i: nat)
    requires Inv(o, s) && SemInv(o, s) && i < |s.tasks| && !s.tasks[i].pc.Ended?
    requires forall j :: i < j < |s.tasks| ==> s.tasks[j].pc.Ended?
    ensures CanMove(o, s)
  {
    match s.tasks[i].pc
    case WaitSem => WaiterMoves(o, s, i);
    case Building => HolderMoves(o, s, i);
    case Releasing(_) => HolderMoves(o, s, i);
    case Fetching => Moves(o, s, FetchIndex(i, true));
    case Joining => JoinMoves(o, s, i);
    case Uploading(_) => Moves(o, s, EndUpload(i, 0, true));
    case Returned(_) => Moves(o, s, Write(i));
    case Exiting(_) => Moves(o, s, Done(i));
    case Recording => Moves(o, s, Record(i));
  }

  lemma Youngest(s: State) returns (i: nat)
    requires !WaitReturns(s)
    ensures i < |s.tasks| && !s.tasks[i].pc.Ended?
    ensures forall j :: i < j < |s.tasks| ==> s.tasks[j].pc.Ended?
  {
    i := |s.tasks| - 1;
    while s.tasks[i].pc.Ended?
      invariant i < |s.tasks| && forall j :: i < j < |s.tasks| ==> s.tasks[j].pc.Ended?
      decreases i
    {
      i := i - 1;
    }
  }

  /** Deadlock freedom, for any nesting depth and any limit: an index waits
      without holding a token, so holders can always finish. */
  lemma NoDeadlock(o: Options, src: Desc, acts: seq<Action>, t: State)
    requires Run(o, Start(src), acts, t) && !WaitReturns(t)
    ensures CanMove(o, t)
  {
    StartInv(o, src);
    RunKeepsSem(o, Start(src), acts, t);
    var i := Youngest(t);
    YoungestMoves(o, t, i);
  }
}
