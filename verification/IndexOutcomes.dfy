/** How an index conversion ends: nothing is uploaded after the cancellation, a run
    without a fault converts exactly the convertible trees, and one can always
    get there. */
module IndexOutcomes {
  import opened Wrappers
  import opened IndexConversion
  import opened IndexSafety
  import opened IndexProgress

  // ---------- After the cancellation ----------

  lemma CancelledStep(o: Options, s: State, a: Action, i: nat)
    requires Enabled(o, s, a) && s.cancelled && i < |Apply(o, s, a).tasks|
    ensures Apply(o, s, a).cancelled && |s.tasks| <= |Apply(o, s, a).tasks|
    ensures Apply(o, s, a).tasks[i].pc.Uploading? ==> i < |s.tasks| && s.tasks[i].pc == Apply(o, s, a).tasks[i].pc
  {
    if !a.Cancel? {
      StepMovesPcs(o, s, a);
      if i >= |s.tasks| {
        var cs := Children(Move(o, s, a).value.slots, a.i, 0);
        ChildrenPlaced(Move(o, s, a).value.slots, a.i, 0);
        assert Placed(cs[i - |s.tasks|], Move(o, s, a).value.slots, a.i, 0);
      }
    }
  }

  /** Once the context is cancelled, no further index begins to be uploaded. */
  lemma {:induction false} NoUploadOnceCancelled(o: Options, s: State, acts: seq<Action>, t: State, i: nat)
    requires Run(o, s, acts, t) && s.cancelled && i < |t.tasks| && t.tasks[i].pc.Uploading?
    ensures i < |s.tasks| && s.tasks[i].pc == t.tasks[i].pc
    decreases |acts|
  {
    if acts != [] {
      var m := Apply(o, s, acts[0]);
      TasksStay(o, s, acts[0]);
      NoUploadOnceCancelled(o, m, acts[1..], t, i);
      CancelledStep(o, s, acts[0], i);
    }
  }

  lemma TasksStay(o: Options, s: State, a: Action)
    requires Enabled(o, s, a) && s.cancelled
    ensures Apply(o, s, a).cancelled
  {
  }

  // ---------- Runs without a fault ----------

  ghost predicate FaultFree(acts: seq<Action>) {
    forall a :: a in acts ==> !Faulty(a)
  }

  /** Manifests, and indexes all of whose entries but the attestations are convertible. */
  predicate Convertible(d: Desc)
    decreases d, 1
  {
    IsManifest(d) || (IsIndex(d) && d.digest.IndexDigest? && AllConvertible(d.digest.index.manifests))
  }

  predicate AllConvertible(ms: seq<Desc>)
    decreases ms, 0
  {
    ms == [] || ((IsAttestation(ms[0]) || Convertible(ms[0])) && AllConvertible(ms[1..]))
  }

  lemma {:induction false} EntryConvertible(ms: seq<Desc>, k: nat)
    requires AllConvertible(ms) && k < |ms| && !IsAttestation(ms[k])
    ensures Convertible(ms[k])
  {
    if k > 0 {
      EntryConvertible(ms[1..], k - 1);
    }
  }

  /** The goroutine has met no error. */
  predicate Healthy(pc: Pc) {
    !pc.Recording? && (pc.Releasing? || pc.Returned? || pc.Exiting? || pc.Ended? ==> pc.out.Target?)
  }

  ghost predicate AllHealthy(s: State) {
    && !s.cancelled && !s.failed
    && (forall i :: 0 <= i < |s.tasks| ==> Convertible(s.tasks[i].src) && Healthy(s.tasks[i].pc))
  }

  lemma OwnStaysHealthy(o: Options, s: State, a: Action)
    requires Enabled(o, s, a) && !Faulty(a) && AllHealthy(s) && OwnOk(o, s.builds, s.tasks[a.i])
    ensures Healthy(Move(o, s, a).value.pc) && !Apply(o, s, a).cancelled && !Apply(o, s, a).failed
  {
    assert Convertible(s.tasks[a.i].src);
  }

  lemma ChildrenHealthy(ms: seq<Desc>, parent: nat, j: nat)
    requires AllConvertible(ms) && j < |Children(ms, parent, 0)|
    ensures Convertible(Children(ms, parent, 0)[j].src) && Healthy(Children(ms, parent, 0)[j].pc)
  {
    ChildrenPlaced(ms, parent, 0);
    var c := Children(ms, parent, 0)[j];
    assert Placed(c, ms, parent, 0);
    EntryConvertible(ms, c.slot);
  }

  lemma StepStaysHealthy(o: Options, s: State, a: Action)
    requires Inv(o, s) && Enabled(o, s, a) && !Faulty(a) && AllHealthy(s)
    ensures AllHealthy(Apply(o, s, a))
  {
    assert TaskInv(o, s, a.i);
    OwnStaysHealthy(o, s, a);
    StepMovesPcs(o, s, a);
    var t, s' := Move(o, s, a).value, Apply(o, s, a);
    forall i: nat | i < |s'.tasks| ensures Convertible(s'.tasks[i].src) && Healthy(s'.tasks[i].pc) {
      if i < |s.tasks| {
        assert Convertible(s.tasks[i].src);
      } else {
        SpawnedHealthy(o, s, a, i);
      }
    }
  }

  lemma SpawnedHealthy(o: Options, s: State, a: Action, i: nat)
    requires Enabled(o, s, a) && !a.Cancel? && Convertible(s.tasks[a.i].src)
    requires OwnOk(o, s.builds, s.tasks[a.i]) && |s.tasks| <= i < |Apply(o, s, a).tasks|
    ensures Convertible(Apply(o, s, a).tasks[i].src) && Healthy(Apply(o, s, a).tasks[i].pc)
  {
    var t := Move(o, s, a).value;
    ChildrenHealthy(t.slots, a.i, i - |s.tasks|);
  }

  lemma {:induction false} RunStaysHealthy(o: Options, s: State, acts: seq<Action>, t: State)
    requires Inv(o, s) && Run(o, s, acts, t) && FaultFree(acts) && AllHealthy(s)
    ensures AllHealthy(t)
    decreases |acts|
  {
    if acts != [] {
      StepKeepsInv(o, s, acts[0]);
      StepStaysHealthy(o, s, acts[0]);
      RunStaysHealthy(o, Apply(o, s, acts[0]), acts[1..], t);
    }
  }

  lemma {:induction false} ConvertedIsConvertible(o: Options, builds: Builds, src: Desc, out: Desc)
    requires ConvertedFrom(o, builds, src, out)
    ensures Convertible(src)
    decreases src, 1
  {
    if !IsManifest(src) {
      ConvertedAreConvertible(o, builds, src.digest.index.manifests, out.digest.index.manifests);
    }
  }

  lemma {:induction false} ConvertedAreConvertible(o: Options, builds: Builds, srcs: seq<Desc>, outs: seq<Desc>)
    requires ConvertedEntries(o, builds, srcs, outs)
    ensures AllConvertible(srcs)
    decreases srcs, 0
  {
    if srcs != [] {
      if IsAttestation(srcs[0]) {
        ConvertedAreConvertible(o, builds, srcs[1..], outs);
      } else {
        ConvertedIsConvertible(o, builds, srcs[0], outs[0]);
        ConvertedAreConvertible(o, builds, srcs[1..], outs[1..]);
      }
    }
  }

  /** If nothing outside fails and nobody cancels, Wait returns nil exactly if
      everything below the root is a manifest or an index, attestations aside. */
  lemma FaultFreeRunsSucceed(o: Options, src: Desc, acts: seq<Action>, t: State)
    requires Run(o, Start(src), acts, t) && FaultFree(acts) && WaitReturns(t)
    ensures !t.failed <==> Convertible(src)
  {
    StartInv(o, src);
    if Convertible(src) {
      RunStaysHealthy(o, Start(src), acts, t);
    } else if !t.failed {
      SuccessfulConversion(o, src, acts, t);
      ConvertedIsConvertible(o, t.builds, src, t.tasks[0].pc.out.desc);
    }
  }

  lemma {:induction false} RunSnoc(o: Options, s: State, acts: seq<Action>, m: State, a: Action)
    requires Run(o, s, acts, m) && Enabled(o, m, a)
    ensures Run(o, s, acts + [a], Apply(o, m, a))
    decreases |acts|
  {
    if acts == [] {
      assert Run(o, Apply(o, m, a), [], Apply(o, m, a));
    } else {
      assert (acts + [a])[1..] == acts[1..] + [a];
      RunSnoc(o, Apply(o, s, acts[0]), acts[1..], m, a);
    }
  }

  lemma NextStep(o: Options, src: Desc, acts: seq<Action>, t: State) returns (a: Action)
    requires Run(o, Start(src), acts, t) && !WaitReturns(t)
    ensures Enabled(o, t, a) && !Faulty(a) && Remaining(Apply(o, t, a)) < Remaining(t)
    ensures Run(o, Start(src), acts + [a], Apply(o, t, a))
  {
    NoDeadlock(o, src, acts, t);
    a :| Enabled(o, t, a) && !Faulty(a);
    StartInv(o, src);
    RunKeepsInv(o, Start(src), acts, t);
    StepDecreases(o, t, a);
    RunSnoc(o, Start(src), acts, t, a);
  }

  /** Wait always returns: every reachable state has a continuation, without
      outside help or a further failure, that ends. */
  lemma {:induction false} WaitIsReached(o: Options, src: Desc, acts: seq<Action>, t: State)
    returns (more: seq<Action>, u: State)
    requires Run(o, Start(src), acts, t)
    ensures Run(o, Start(src), acts + more, u) && WaitReturns(u) && FaultFree(more)
    decreases Remaining(t)
  {
    if WaitReturns(t) {
      more, u := [], t;
      assert acts + more == acts;
    } else {
      var a := NextStep(o, src, acts, t);
      more, u := WaitIsReached(o, src, acts + [a], Apply(o, t, a));
      assert acts + [a] + more == acts + ([a] + more);
      more := [a] + more;
    }
  }

  /** As long as nothing has failed, the conversion of a convertible tree can
      still succeed. */
  lemma FaultFreeRunCanSucceed(o: Options, src: Desc, acts: seq<Action>, t: State)
    returns (more: seq<Action>, u: State)
    requires Run(o, Start(src), acts, t) && FaultFree(acts) && Convertible(src)
    ensures Run(o, Start(src), acts + more, u) && WaitReturns(u) && !u.failed
  {
    more, u := WaitIsReached(o, src, acts, t);
    FaultFreeRunsSucceed(o, src, acts + more, u);
  }
}
