/** Theorems about whole runs of the pipeline: failing, cancelled and successful. */
module PipelineRuns {
  import opened Wrappers
  import opened BuilderEngine
  import opened LayerPipeline
  import opened PipelineSafety
  import opened PipelineHistory

  lemma {:induction false} RunKeepsInv(s: State, acts: seq<Action>, t: State)
    requires Inv(s) && Run(s, acts, t)
    ensures Inv(t) && |t.layers| == |s.layers|
    ensures t.engine.kind == s.engine.kind && t.engine.mkfs == s.engine.mkfs
    ensures forall j :: 0 <= j < |s.layers| ==> t.engine.layers[j].chainID == s.engine.layers[j].chainID
    ensures s.engine.kind == TurboOCI ==> t.engine.rows == s.engine.rows
    decreases |acts|
  {
    if acts != [] {
      var m := Apply(s, acts[0]);
      StepKeepsInv(s, acts[0]);
      StepEffects(s, acts[0]);
      RunKeepsInv(m, acts[1..], t);
    }
  }

  /** Every state that a run can reach. */
  ghost predicate Reaches(s: State, acts: seq<Action>, t: State) {
    Init(s) && Run(s, acts, t)
  }

  function Indices(n: nat): seq<nat> {
    seq(n, i requires 0 <= i < n => i)
  }

  function LayersBelow(n: nat): seq<Lower> {
    seq(n, i requires 0 <= i < n => BuiltLayer(i))
  }

  /** In every reachable state at most one BuildLayer is running.  It is the last
      of a gapless sequence of calls in index order, everything below it has
      returned, and so have its own layer's downloads. */
  lemma BuildsNeverOverlap(s: State, acts: seq<Action>, t: State, i: nat)
    requires Reaches(s, acts, t)
    requires i < |t.layers| && t.layers[i].convert.Building?
    ensures t.builds == Indices(i + 1)
    ensures forall j :: 0 <= j < |t.layers| && t.layers[j].convert.Building? ==> j == i
    ensures forall j :: 0 <= j < i ==> BuildReturned(t.layers[j].convert)
    ensures forall j :: 0 <= j <= i ==> DownloadsReturned(t.layers[j].download)
  {
    InitInv(s);
    RunKeepsInv(s, acts, t);
    forall j: nat | j < |t.layers| && t.layers[j].convert.Building? ensures |t.builds| == j + 1 {
      BuildingIsLatest(t, j);
    }
    forall j: nat | j <= i ensures DownloadsReturned(t.layers[j].download) {
      assert LayerInv(t, j);
    }
  }

  /** The config is shared by all layers, and in every run, failed ones too, it
      lists the base layer and then exactly the successfully built layers in
      index order; a config file written for a layer lists precisely the
      successfully built layers below that layer. */
  lemma LowersInEveryRun(s: State, acts: seq<Action>, t: State)
    requires Reaches(s, acts, t)
    ensures |t.builds| <= |t.layers| == |t.engine.layers| && t.builds == Indices(|t.builds|)
    ensures t.engine.lowers == BaseLowers(s.engine.mkfs) + BuiltLowers(t.layers, |t.builds|)
    ensures forall i :: 0 <= i < |t.layers| && t.engine.layers[i].config.Some? ==>
      t.engine.layers[i].config.value == BaseLowers(s.engine.mkfs) + BuiltLowers(t.layers, i)
  {
    InitInv(s);
    RunKeepsInv(s, acts, t);
    forall i | 0 <= i < |t.layers| && t.engine.layers[i].config.Some?
      ensures t.engine.layers[i].config.value == BaseLowers(s.engine.mkfs) + BuiltLowers(t.layers, i)
    {
      assert LayerInv(t, i);
    }
  }

  lemma EffectsKeepVerdict(s: State, a: Action, t: State, j: nat)
    requires Effects(s, a, t) && j < |s.layers| && BuildReturned(s.layers[j].convert)
    ensures BuildReturned(t.layers[j].convert) && BuiltOk(t.layers[j].convert) == BuiltOk(s.layers[j].convert)
  {
  }

  /** A BuildLayer that returned keeps its verdict. */
  lemma {:induction false} VerdictsAreFinal(s: State, acts: seq<Action>, t: State, j: nat)
    requires Inv(s) && Run(s, acts, t) && j < |s.layers| && BuildReturned(s.layers[j].convert)
    ensures |t.layers| == |s.layers|
    ensures BuildReturned(t.layers[j].convert) && BuiltOk(t.layers[j].convert) == BuiltOk(s.layers[j].convert)
    decreases |acts|
  {
    if acts != [] {
      StepKeepsInv(s, acts[0]);
      StepEffects(s, acts[0]);
      EffectsKeepVerdict(s, acts[0], Apply(s, acts[0]), j);
      VerdictsAreFinal(Apply(s, acts[0]), acts[1..], t, j);
    }
  }

  lemma CancelledMove(s: State, a: Action)
    requires |s.engine.layers| == |s.layers| && Enabled(s, a) && !a.Cancel? && s.cancelled
    ensures Move(s, a).value.convert.Building? ==> s.layers[a.i].convert.Building?
    ensures Move(s, a).value.upload.UploadingLayer? ==> s.layers[a.i].upload.UploadingLayer?
  {
  }

  /** Once the context is cancelled no further BuildLayer or UploadLayer is called. */
  lemma {:induction false} NothingStartsOnceCancelled(s: State, acts: seq<Action>, t: State, i: nat)
    requires Run(s, acts, t) && s.cancelled && i < |s.layers|
    ensures |t.layers| == |s.layers| && t.builds == s.builds
    ensures t.layers[i].upload.UploadingLayer? ==> s.layers[i].upload.UploadingLayer?
    decreases |acts|
  {
    if acts != [] {
      if !acts[0].Cancel? {
        CancelledMove(s, acts[0]);
      }
      NothingStartsOnceCancelled(Apply(s, acts[0]), acts[1..], t, i);
    }
  }

  lemma {:induction false} AllBuilt(layers: seq<Layer>, k: nat)
    requires k <= |layers| && forall i :: 0 <= i < k ==> BuiltOk(layers[i].convert)
    ensures BuiltLowers(layers, k) == LayersBelow(k)
  {
    if k > 0 {
      AllBuilt(layers, k - 1);
    }
  }

  /** Wait returns nil. */
  ghost predicate Succeeded(s: State) {
    WaitReturns(s) && !s.failed
  }

  /** What a run whose Wait will return nil has never seen: a failed build. */
  lemma ReturnedMeansBuilt(m: State, after: seq<Action>, t: State)
    requires Inv(m) && Inv(t) && Run(m, after, t) && Succeeded(t) && |t.layers| == |m.layers|
    ensures forall j :: 0 <= j < |m.layers| && BuildReturned(m.layers[j].convert) ==> BuiltOk(m.layers[j].convert)
  {
    forall j: nat | j < |m.layers| && BuildReturned(m.layers[j].convert) ensures BuiltOk(m.layers[j].convert) {
      VerdictsAreFinal(m, after, t, j);
      assert LayerInv(t, j);
    }
  }

  lemma LowersWhileBuilding(m: State, i: nat)
    requires Inv(m) && i < |m.layers| && m.layers[i].convert.Building?
    requires forall j :: 0 <= j < |m.layers| && BuildReturned(m.layers[j].convert) ==> BuiltOk(m.layers[j].convert)
    ensures m.engine.lowers == BaseLowers(m.engine.mkfs) + LayersBelow(i)
  {
    BuildingIsLatest(m, i);
    AllBuilt(m.layers, i);
    assert BuiltLowers(m.layers, i + 1) == BuiltLowers(m.layers, i);
  }

  /** At every moment of a run whose Wait eventually returns nil: while layer i is
      being built the config's lowers are the base layer followed by layers
      0..i-1, and a layer is only uploaded once its own build has succeeded. */
  lemma DuringSuccessfulRun(s: State, before: seq<Action>, m: State, after: seq<Action>, t: State, i: nat)
    requires Reaches(s, before, m) && Run(m, after, t) && Succeeded(t) && i < |m.layers|
    ensures m.layers[i].convert.Building? ==> m.engine.lowers == BaseLowers(s.engine.mkfs) + LayersBelow(i)
    ensures UploadCalled(m.layers[i].upload) ==> BuiltOk(m.layers[i].convert)
  {
    InitInv(s);
    RunKeepsInv(s, before, m);
    RunKeepsInv(m, after, t);
    ReturnedMeansBuilt(m, after, t);
    assert LayerInv(m, i);
    if m.layers[i].convert.Building? {
      LowersWhileBuilding(m, i);
    }
  }

  /** The rows in any run, failing or not: each is of a layer that has been uploaded
      and not deduplicated, with its chain id and the digest that the run gave its
      file, and whose BuildLayer has returned; it has succeeded unless it is one of
      the failures that keep Wait from returning nil.  Each such layer whose upload
      goroutine has ended well has its row; TurboOCI has none. */
  lemma RowsInEveryRun(s: State, acts: seq<Action>, t: State)
    requires Reaches(s, acts, t)
    ensures |t.engine.layers| == |t.layers| == |s.engine.layers|
    ensures forall r :: r in t.engine.rows ==> RowOk(s.engine, acts, t, r)
    ensures s.engine.kind == TurboOCI ==> t.engine.rows == []
    ensures s.engine.kind == Overlaybd ==>
      forall i :: 0 <= i < |t.layers| && t.layers[i].upload == UploadEnded(true) && !t.engine.layers[i].fromDedup ==>
        Row(i, s.engine.layers[i].chainID, t.engine.layers[i].desc) in t.engine.rows
  {
    InitInv(s);
    RunKeepsInv(s, acts, t);
    RunIsTold(s, acts, t);
    forall r | r in t.engine.rows ensures RowOk(s.engine, acts, t, r) {
      assert LayerInv(t, r.idx) && Told(acts, t, r.idx);
    }
  }

  ghost predicate RowOk(start: EngineState, acts: seq<Action>, t: State, r: Row) {
    && r.idx < |t.layers| == |t.engine.layers| == |start.layers|
    && var e, c := t.engine.layers[r.idx], t.layers[r.idx].convert;
       && Uploaded(t.layers[r.idx].upload) && !e.fromDedup
       && r.chainID == start.layers[r.idx].chainID && e.file == Some(r.digest)
       && BuildReturned(c) && (BuiltOk(c) <==> !BuildFailedWith(c))
       && (BuiltOk(c) ==> EndBuild(r.idx, Succeeds(r.digest)) in acts)
       && (BuildFailedWith(c) ==> !Succeeded(t) && LeftBehind(acts, r.idx, r.digest))
  }

  /** A failed step of layer i left its file behind. */
  ghost predicate LeftBehind(acts: seq<Action>, i: nat, d: Digest) {
    || EndBuild(i, CommitFails(Some(d))) in acts
    || EndConvertedDownload(i, CachedDownload.Failed(Some(d))) in acts
  }

  /** BuildLayer has returned an error. */
  predicate BuildFailedWith(c: ConvertPc) {
    (c.ClosingConvert? || ConvertClosed(c)) && c.out == BuildFailed
  }

  /** When Wait returns nil, every layer was built exactly once and in index
      order; every layer has been uploaded under the one digest that the run gave
      its file, the completed cached download's or else the one the tools made;
      every converted layer's source was downloaded, and its config file lists the
      base layer and precisely the layers below it, while a deduplicated layer has
      no config and the digest that the cache offered; and the rows asked for are
      those of the layers that were not deduplicated. */
  lemma SuccessfulRun(s: State, acts: seq<Action>, t: State)
    requires Reaches(s, acts, t) && Succeeded(t)
    ensures var n := |s.layers|;
      && t.builds == Indices(n) && |t.engine.layers| == n
      && t.engine.lowers == BaseLowers(s.engine.mkfs) + LayersBelow(n)
    ensures forall i :: 0 <= i < |s.layers| ==> SettledLayer(s.engine.mkfs, acts, t.engine.layers[i], i)
    ensures s.engine.kind == Overlaybd ==>
      forall i: nat, c, d :: Row(i, c, d) in t.engine.rows <==>
        (i < |s.layers| && !Fetches(acts, i)
         && c == s.engine.layers[i].chainID && EndBuild(i, Succeeds(d)) in acts)
  {
    RunFinishes(s, acts, t);
    forall i: nat | i < |s.layers|
      ensures SettledLayer(s.engine.mkfs, acts, t.engine.layers[i], i)
    {
      LayerSettles(s, acts, t, i);
    }
    RowsOnlyOfLayers(s, acts, t);
  }

  ghost predicate SettledLayer(mkfs: bool, acts: seq<Action>, e: LayerState, i: nat) {
    && e.file == Some(e.desc) && (forall d :: GivenFile(acts, i, d) <==> d == e.desc)
    && if Fetches(acts, i) then e.fromDedup && Offered(acts, i, e.desc) && e.config == None
       else !e.fromDedup && EndDownload(i, true) in acts && e.config == Some(BaseLowers(mkfs) + LayersBelow(i))
  }

  lemma LayerSettles(s: State, acts: seq<Action>, t: State, i: nat)
    requires Reaches(s, acts, t) && |t.layers| == |t.engine.layers| && i < |t.layers|
    requires FinishedLayer(t.engine, t.layers[i], i) && !t.failed && WaitReturns(t)
    ensures SettledLayer(t.engine.mkfs, acts, t.engine.layers[i], i)
  {
    RunIsTold(s, acts, t);
    FilesInEveryRun(s, acts, t, i);
    assert LayerInv(t, i) && Told(acts, t, i);
  }

  lemma RowsOnlyOfLayers(s: State, acts: seq<Action>, t: State)
    requires |t.layers| == |s.layers| == |t.engine.layers| == |s.engine.layers|
    requires t.engine.kind == Overlaybd ==> FinishedRows(t.engine)
    requires forall i :: 0 <= i < |s.layers| ==>
      SettledLayer(s.engine.mkfs, acts, t.engine.layers[i], i)
      && t.engine.layers[i].chainID == s.engine.layers[i].chainID
    ensures t.engine.kind == Overlaybd ==>
      forall i: nat, c, d :: Row(i, c, d) in t.engine.rows <==>
        (i < |s.layers| && !Fetches(acts, i)
         && c == s.engine.layers[i].chainID && EndBuild(i, Succeeds(d)) in acts)
  {
    if t.engine.kind == Overlaybd {
      forall i: nat, c, d
        ensures Row(i, c, d) in t.engine.rows <==>
          (i < |s.layers| && !Fetches(acts, i)
           && c == s.engine.layers[i].chainID && EndBuild(i, Succeeds(d)) in acts)
      {
        assert i < |s.layers| && !Fetches(acts, i) ==> (GivenFile(acts, i, d) <==> EndBuild(i, Succeeds(d)) in acts);
      }
    }
  }

  /** What holds once Wait has returned nil. */
  ghost predicate Finished(t: State) {
    && |t.layers| == |t.engine.layers|
    && t.builds == Indices(|t.layers|)
    && t.engine.lowers == BaseLowers(t.engine.mkfs) + LayersBelow(|t.layers|)
    && (forall i :: 0 <= i < |t.layers| ==> FinishedLayer(t.engine, t.layers[i], i))
    && (t.engine.kind == Overlaybd ==> FinishedRows(t.engine))
  }

  /** The rows are those of the layers that were not deduplicated. */
  ghost predicate FinishedRows(e: EngineState) {
    forall i: nat, c, d :: Row(i, c, d) in e.rows <==>
      (i < |e.layers| && !e.layers[i].fromDedup && c == e.layers[i].chainID && d == e.layers[i].desc)
  }

  lemma RunFinishes(s: State, acts: seq<Action>, t: State)
    requires Reaches(s, acts, t) && Succeeded(t)
    ensures Finished(t) && |t.layers| == |s.layers| == |s.engine.layers|
    ensures t.engine.kind == s.engine.kind && t.engine.mkfs == s.engine.mkfs
    ensures forall j :: 0 <= j < |s.layers| ==> t.engine.layers[j].chainID == s.engine.layers[j].chainID
  {
    InitInv(s);
    RunKeepsInv(s, acts, t);
    FinishedLayers(t);
    AllBuilt(t.layers, |t.layers|);
    if t.engine.kind == Overlaybd {
      RowsFinish(t);
    }
  }

  lemma FinishedLayers(t: State)
    requires Inv(t) && Succeeded(t)
    ensures t.builds == Indices(|t.layers|)
    ensures forall i :: 0 <= i < |t.layers| ==>
      BuiltOk(t.layers[i].convert) && FinishedLayer(t.engine, t.layers[i], i)
  {
    forall i: nat | i < |t.layers| ensures BuiltOk(t.layers[i].convert) && t.layers[i].upload == UploadEnded(true) {
      assert LayerInv(t, i);
    }
    if |t.layers| > 0 {
      assert BuildStarted(t.layers[|t.layers| - 1].convert);
    }
    forall i: nat | i < |t.layers| ensures FinishedLayer(t.engine, t.layers[i], i) {
      assert LayerInv(t, i);
      AllBuilt(t.layers, i);
    }
  }

  /** Uploaded under the digest of its built file, with the right config if any. */
  ghost predicate FinishedLayer(e: EngineState, l: Layer, i: nat)
    requires i < |e.layers|
  {
    && l.upload == UploadEnded(true)
    && e.layers[i].file == Some(e.layers[i].desc)
    && e.layers[i].config ==
         if e.layers[i].fromDedup then None else Some(BaseLowers(e.mkfs) + LayersBelow(i))
  }

  lemma RowsFinish(t: State)
    requires |t.layers| == |t.engine.layers| && RowsAgree(t) && t.engine.kind == Overlaybd
    requires forall i :: 0 <= i < |t.layers| ==> FinishedLayer(t.engine, t.layers[i], i)
    ensures FinishedRows(t.engine)
  {
    forall i: nat, c, d | Row(i, c, d) in t.engine.rows
      ensures i < |t.layers| && !t.engine.layers[i].fromDedup
      ensures c == t.engine.layers[i].chainID && d == t.engine.layers[i].desc
    {
      assert Row(i, c, d).idx < |t.layers|;
    }
    forall i: nat | i < |t.layers| ensures t.layers[i].upload == UploadEnded(true) {
      assert FinishedLayer(t.engine, t.layers[i], i);
    }
  }

  /** What a run whose Wait returns nil goes on to upload: if UploadImage can push
      the base layer and read the archives, manifest and diff ids correspond, to
      each other and to the files that the run gave the layers. */
  lemma ImageOfSuccessfulRun(s: State, acts: seq<Action>, t: State, diffIDs: seq<Digest>, base: Option<Digest>,
                             unpack: Digest -> Option<Digest>)
    requires Reaches(s, acts, t) && Succeeded(t) && |diffIDs| == |s.layers| == |t.engine.layers|
    ensures UploadImageResult(t.engine, diffIDs, base, unpack).Some? <==>
      && (s.engine.mkfs || base.Some?)
      && (s.engine.kind == TurboOCI ==> forall i :: 0 <= i < |s.layers| ==> unpack(t.engine.layers[i].desc).Some?)
    ensures UploadImageResult(t.engine, diffIDs, base, unpack).Some? ==>
      ImageOfRun(s.engine, acts, UploadImageResult(t.engine, diffIDs, base, unpack).value, base, unpack)
  {
    RunFinishes(s, acts, t);
    SuccessfulRun(s, acts, t);
    GivenImage(s.engine, acts, t.engine, diffIDs, base, unpack);
  }

  lemma GivenImage(start: EngineState, acts: seq<Action>, e: EngineState, diffIDs: seq<Digest>, base: Option<Digest>,
                   unpack: Digest -> Option<Digest>)
    requires |start.layers| == |e.layers| == |diffIDs| && e.kind == start.kind && e.mkfs == start.mkfs
    requires forall i :: 0 <= i < |e.layers| ==> SettledLayer(e.mkfs, acts, e.layers[i], i)
    ensures UploadImageResult(e, diffIDs, base, unpack).Some? <==>
      && (e.mkfs || base.Some?)
      && (e.kind == TurboOCI ==> forall i :: 0 <= i < |e.layers| ==> unpack(e.layers[i].desc).Some?)
    ensures UploadImageResult(e, diffIDs, base, unpack).Some? ==>
      ImageOfRun(start, acts, UploadImageResult(e, diffIDs, base, unpack).value, base, unpack)
  {
    assert forall i :: 0 <= i < |e.layers| ==> e.layers[i].file == Some(e.layers[i].desc);
    ImageOfUploaded(e, diffIDs, base, unpack);
    if UploadImageResult(e, diffIDs, base, unpack).Some? {
      CorrespondsToRun(start, acts, e, UploadImageResult(e, diffIDs, base, unpack).value, base, unpack);
    }
  }

  lemma CorrespondsToRun(start: EngineState, acts: seq<Action>, e: EngineState, image: Image, base: Option<Digest>,
                         unpack: Digest -> Option<Digest>)
    requires |start.layers| == |e.layers| && e.kind == start.kind && e.mkfs == start.mkfs
    requires forall i :: 0 <= i < |e.layers| ==> SettledLayer(e.mkfs, acts, e.layers[i], i)
    requires Corresponds(e, image, base, unpack)
    ensures ImageOfRun(start, acts, image, base, unpack)
  {
    var k := if e.mkfs then 0 else 1;
    forall i: nat | i < |e.layers| ensures PositionOfRun(e.kind, acts, image, k, i, unpack) {
      assert SettledLayer(e.mkfs, acts, e.layers[i], i);
    }
  }

  /** As many diff ids as layers, the base layer first in both unless mkfs is on,
      and then one position for every source layer, in order. */
  ghost predicate ImageOfRun(e: EngineState, acts: seq<Action>, image: Image, base: Option<Digest>,
                             unpack: Digest -> Option<Digest>)
  {
    var k := if e.mkfs then 0 else 1;
    && |image.layers| == |image.diffIDs| == |e.layers| + k
    && (!e.mkfs ==> base == Some(image.layers[0]) == Some(image.diffIDs[0]))
    && (forall i: nat :: i < |e.layers| ==> PositionOfRun(e.kind, acts, image, k, i, unpack))
  }

  /** Behind k base layers the manifest names the digest that the run gave layer
      i's file, and the diff id is that same file's. */
  ghost predicate PositionOfRun(kind: Kind, acts: seq<Action>, image: Image, k: nat, i: nat,
                                unpack: Digest -> Option<Digest>)
    requires k + i < |image.layers| == |image.diffIDs|
  {
    var file := image.layers[k + i];
    GivenFile(acts, i, file) && Some(image.diffIDs[k + i]) == if kind == Overlaybd then Some(file) else unpack(file)
  }

  /** The two errors BuildLayer calls impossible.  From an empty work directory
      "from dedup but commit file is missing" never happens, and "not from dedup
      but commit file is present" happens exactly when a failed cached download
      could not remove its partial file. */
  lemma DedupFlagMatchesCommitFile(s: State, acts: seq<Action>, t: State, i: nat, run: ToolRun)
    requires Reaches(s, acts, t) && s.engine.kind == Overlaybd && !run.StatFails?
    requires i < |t.layers| && t.layers[i].convert.Building?
    ensures |t.engine.layers| == |t.layers|
    ensures var e := t.engine.layers[i];
      && (e.file.Some? <==> e.fromDedup || e.leftover)
      && !(e.fromDedup && e.leftover)
      && BuildLayerResult(t.engine, i, run).1 != Some(CommitFileMissing)
      && (BuildLayerResult(t.engine, i, run).1 == Some(CommitFileUnexpected) <==> e.leftover)
  {
    InitInv(s);
    RunKeepsInv(s, acts, t);
    assert LayerInv(t, i);
  }

  // ---------- A file left behind, and the window between a close and the cancellation ----------

  function Put(s: State, i: nat, l: Layer): State
    requires i < |s.layers|
  {
    s.(layers := s.layers[i := l])
  }

  ghost predicate Step(s: State, a: Action, t: State) {
    |s.engine.layers| == |s.layers| && Enabled(s, a) && t == Apply(s, a)
  }

  /** A run spelled out state by state. */
  ghost predicate Path(states: seq<State>, acts: seq<Action>) {
    && |states| == |acts| + 1
    && (forall k :: 0 <= k < |acts| ==> Step(states[k], acts[k], states[k + 1]))
  }

  lemma {:induction false} PathIsRun(states: seq<State>, acts: seq<Action>)
    requires Path(states, acts) && |states[0].engine.layers| == |states[0].layers|
    ensures Run(states[0], acts, states[|acts|])
    decreases |acts|
  {
    if acts != [] {
      assert Step(states[0], acts[0], states[1]);
      PathIsRun(states[1..], acts[1..]);
    }
  }

  lemma PathsJoin(a: seq<State>, aa: seq<Action>, b: seq<State>, bb: seq<Action>)
    requires Path(a, aa) && Path(b, bb) && a[|aa|] == b[0]
    ensures Path(a + b[1..], aa + bb) && (a + b[1..])[0] == a[0] && (a + b[1..])[|aa + bb|] == b[|bb|]
  {
    var c, cc := a + b[1..], aa + bb;
    forall k | 0 <= k < |cc| ensures Step(c[k], cc[k], c[k + 1]) {
      if k < |aa| {
        assert Step(a[k], aa[k], a[k + 1]);
      } else {
        assert Step(b[k - |aa|], bb[k - |aa|], b[k - |aa| + 1]);
      }
    }
  }

  /** For any image there is a run in which a failed cached download leaves its
      partial file behind, and BuildLayer(0) then fails with the error that
      "should not happen". */
  lemma LeftoverFailsBuild(s: State, cached: Digest, partial: Digest, run: ToolRun)
    returns (acts: seq<Action>, t: State)
    requires Init(s) && |s.layers| >= 1 && s.engine.kind == Overlaybd && !run.StatFails?
    ensures Reaches(s, acts, t) && |t.layers| == |t.engine.layers| >= 1
    ensures t.layers[0].convert.Building? && t.engine.layers[0].leftover
    ensures BuildLayerResult(t.engine, 0, run).1 == Some(CommitFileUnexpected)
  {
    var a, aa := LeavesPartialFile(s, cached, partial);
    var b, bb := ReachBuild(a[|aa|], 0);
    PathsJoin(a, aa, b, bb);
    acts, t := aa + bb, b[|bb|];
    PathIsRun(a + b[1..], acts);
  }

  lemma LeavesPartialFile(m: State, cached: Digest, partial: Digest) returns (states: seq<State>, acts: seq<Action>)
    requires 0 < |m.layers| == |m.engine.layers| && m.layers[0] == FRESH_LAYER && m.engine.kind == Overlaybd
    ensures Path(states, acts) && states[0] == m
    ensures var l := m.engine.layers[0].(file := Some(partial), leftover := true);
      states[|acts|] == Put(m, 0, FRESH_LAYER.(dedup := DedupEnded, download := FetchingLayer))
                        .(engine := SetLayer(m.engine, 0, l))
  {
    var a, aa := OffersCached(m, cached);
    var b, bb := FailsCached(a[|aa|], partial);
    PathsJoin(a, aa, b, bb);
    states, acts := a + b[1..], aa + bb;
  }

  lemma OffersCached(m: State, cached: Digest) returns (states: seq<State>, acts: seq<Action>)
    requires 0 < |m.layers| == |m.engine.layers| && m.layers[0] == FRESH_LAYER && m.engine.kind == Overlaybd
    ensures Path(states, acts) && states[0] == m
    ensures states[|acts|] == Put(m, 0, FRESH_LAYER.(dedup := ClosingDedup, download := FetchingConverted(cached)))
  {
    acts := [CheckHit(0, cached), HandOver(0)];
    var s1 := Put(m, 0, FRESH_LAYER.(dedup := Offering(cached)));
    states := [m, s1, Put(m, 0, FRESH_LAYER.(dedup := ClosingDedup, download := FetchingConverted(cached)))];
  }

  lemma FailsCached(m: State, partial: Digest) returns (states: seq<State>, acts: seq<Action>)
    requires 0 < |m.layers| == |m.engine.layers| && m.layers[0].dedup.ClosingDedup?
    requires m.layers[0].download.FetchingConverted?
    ensures Path(states, acts) && states[0] == m
    ensures var l := m.engine.layers[0].(file := Some(partial), leftover := true);
      states[|acts|] == Put(m, 0, m.layers[0].(dedup := DedupEnded, download := FetchingLayer))
                        .(engine := SetLayer(m.engine, 0, l))
  {
    acts := [CloseDedup(0), EndConvertedDownload(0, CachedDownload.Failed(Some(partial)))];
    var s1 := Put(m, 0, m.layers[0].(dedup := DedupEnded));
    states := [m, s1, Apply(s1, acts[1])];
  }

  /** Layer i misses the cache ... */
  lemma ReachDownload(m: State, i: nat) returns (states: seq<State>, acts: seq<Action>)
    requires i < |m.layers| == |m.engine.layers| && m.layers[i] == FRESH_LAYER && !m.cancelled
    ensures Path(states, acts) && states[0] == m
    ensures states[|acts|] == Put(m, i, FRESH_LAYER.(dedup := DedupEnded, download := FetchingLayer))
  {
    acts := [CheckMiss(i), CloseDedup(i), NothingCached(i)];
    var s1 := Put(m, i, FRESH_LAYER.(dedup := ClosingDedup));
    var s2 := Put(m, i, FRESH_LAYER.(dedup := DedupEnded));
    states := [m, s1, s2, Put(m, i, FRESH_LAYER.(dedup := DedupEnded, download := FetchingLayer))];
  }

  /** ... is downloaded, and its convert goroutine gets as far as it can alone. */
  lemma ReachBuild(m: State, i: nat) returns (states: seq<State>, acts: seq<Action>)
    requires i < |m.layers| == |m.engine.layers| && !m.cancelled
    requires m.layers[i] == FRESH_LAYER.(dedup := DedupEnded, download := FetchingLayer)
    ensures Path(states, acts) && states[0] == m
    ensures var pc := if i == 0 then Building else AwaitPrevious;
      states[|acts|] == Put(m, i, Layer(DedupEnded, ClosingDownload(true), pc, AwaitConverted))
                        .(builds := if i == 0 then m.builds + [i] else m.builds)
  {
    acts := [EndDownload(i, true), Announce(i), PassDownload(i)];
    var l := m.layers[i];
    var s1 := Put(m, i, l.(download := Announcing));
    var s2 := Put(m, i, l.(download := ClosingDownload(true), convert := AfterDownload));
    states := [m, s1, s2, Apply(s2, acts[2])];
  }

  lemma ReachLayer(m: State, i: nat) returns (states: seq<State>, acts: seq<Action>)
    requires i < |m.layers| == |m.engine.layers| && m.layers[i] == FRESH_LAYER && !m.cancelled
    ensures Path(states, acts) && states[0] == m
    ensures var pc := if i == 0 then Building else AwaitPrevious;
      states[|acts|] == Put(m, i, Layer(DedupEnded, ClosingDownload(true), pc, AwaitConverted))
                        .(builds := if i == 0 then m.builds + [i] else m.builds)
  {
    var a, aa := ReachDownload(m, i);
    var b, bb := ReachBuild(a[|aa|], i);
    PathsJoin(a, aa, b, bb);
    states, acts := a + b[1..], aa + bb;
  }

  /** The deferred close of a failed BuildLayer(0) is seen by the next convert
      goroutine ... */
  lemma NextStarts(m: State) returns (states: seq<State>, acts: seq<Action>)
    requires |m.engine.layers| == |m.layers| >= 2
    requires m.layers[0].convert.ReportingConvert?
    requires m.layers[1].convert.AwaitPrevious? && !m.cancelled
    ensures Path(states, acts) && states[0] == m
    ensures states[|acts|] == Put(m, 1, m.layers[1].(convert := Building)).(builds := m.builds + [1])
  {
    acts := [NoticePrevious(1), PassPrevious(1)];
    var s1 := Put(m, 1, m.layers[1].(convert := AfterPrevious));
    states := [m, s1, Put(m, 1, m.layers[1].(convert := Building)).(builds := m.builds + [1])];
  }

  /** ... and by layer 0's own upload ... */
  lemma UploadStarts(m: State) returns (states: seq<State>, acts: seq<Action>)
    requires |m.engine.layers| == |m.layers| >= 2
    requires m.layers[0].convert.ReportingConvert? && m.layers[0].upload.AwaitConverted? && !m.cancelled
    ensures Path(states, acts) && states[0] == m
    ensures states[|acts|] == Put(m, 0, m.layers[0].(upload := UploadingLayer))
  {
    acts := [NoticeConverted(0), PassConverted(0)];
    var s1 := Put(m, 0, m.layers[0].(upload := AfterConverted));
    states := [m, s1, Put(m, 0, m.layers[0].(upload := UploadingLayer))];
  }

  /** ... which finds the file that the failed build left. */
  lemma UploadsLeftFile(m: State) returns (states: seq<State>, acts: seq<Action>)
    requires |m.engine.layers| == |m.layers| >= 2 && m.layers[0].upload.UploadingLayer?
    requires m.engine.kind == Overlaybd && m.engine.layers[0].file.Some? && !m.engine.layers[0].fromDedup
    ensures Path(states, acts) && states[0] == m
    ensures var t, e := states[|acts|], m.engine.layers[0];
      && t.layers == m.layers[0 := m.layers[0].(upload := UploadEnded(true))]
      && |t.engine.layers| == |m.layers|
      && t.failed == m.failed && t.engine.lowers == m.engine.lowers
      && t.engine.rows == m.engine.rows + [Row(0, e.chainID, e.file.value)]
  {
    acts := [EndUpload(0, true), EndStore(0)];
    var s1 := Apply(m, acts[0]);
    states := [m, s1, Apply(s1, acts[1])];
  }

  /** "Has returned" cannot be strengthened to "has succeeded" for all runs: for
      any image of two or more layers, some run has BuildLayer(1) working on a
      config without layer 0, and layer 0's unfinished file uploaded and entered
      in the database, after BuildLayer(0) failed: its deferred close is seen
      before the errgroup cancels the context. */
  lemma FailedBuildWindow(s: State, partial: Digest) returns (acts: seq<Action>, t: State)
    requires Init(s) && |s.layers| >= 2 && s.engine.kind == Overlaybd
    ensures Reaches(s, acts, t) && |t.layers| == |t.engine.layers| >= 2
    ensures t.layers[0].convert == ReportingConvert(BuildFailed) && !t.failed
    ensures t.layers[1].convert.Building? && BuiltLayer(0) !in t.engine.lowers
    ensures t.engine.rows == [Row(0, s.engine.layers[0].chainID, partial)]
  {
    var a, aa := ReachLayer(s, 0);
    var b, bb := ReachLayer(a[|aa|], 1);
    var c, cc := FailingBuild(b[|bb|], partial);
    var d, dd := NextStarts(c[|cc|]);
    var e, ee := UploadStarts(d[|dd|]);
    var f, ff := UploadsLeftFile(e[|ee|]);
    t := f[|ff|];
    PathsJoin(a, aa, b, bb);
    PathsJoin(a + b[1..], aa + bb, c, cc);
    PathsJoin(d, dd, e, ee);
    PathsJoin(d + e[1..], dd + ee, f, ff);
    var x, xx, y, yy := a + b[1..] + c[1..], aa + bb + cc, d + e[1..] + f[1..], dd + ee + ff;
    PathsJoin(x, xx, y, yy);
    acts := xx + yy;
    PathIsRun(x + y[1..], acts);
  }

  lemma FailingBuild(m: State, partial: Digest) returns (states: seq<State>, acts: seq<Action>)
    requires 0 < |m.layers| == |m.engine.layers| && m.layers[0].convert.Building? && Pristine(m.engine.layers[0])
    ensures Path(states, acts) && states[0] == m
    ensures var t := states[|acts|];
      t == Put(m, 0, m.layers[0].(convert := ReportingConvert(BuildFailed))).(engine :=
           SetLayer(m.engine, 0, m.engine.layers[0].(config := Some(m.engine.lowers), file := Some(partial))))
  {
    acts := [EndBuild(0, CommitFails(Some(partial))), CloseConvert(0)];
    var s1 := Apply(m, acts[0]);
    states := [m, s1, Apply(s1, acts[1])];
  }
}
