/** What a run of the pipeline leaves in each layer, told by the outcomes of the
    run's own steps: which file a layer has, which config was written, what was
    uploaded, and that a run without a fault does not fail. */
module PipelineHistory {
  import opened Wrappers
  import opened BuilderEngine
  import opened LayerPipeline
  import opened PipelineSafety

  // ---------- One layer ----------

  /** The cache offered `desc` for layer i, and nothing else. */
  ghost predicate Offered(done: seq<Action>, i: nat, desc: Digest) {
    CheckHit(i, desc) in done && forall d :: CheckHit(i, d) in done ==> d == desc
  }

  /** The deduplication goroutine can offer nothing any more. */
  predicate DedupOver(d: DedupPc) {
    d.ClosingDedup? || d.DedupEnded?
  }

  ghost predicate DedupTold(done: seq<Action>, i: nat, l: Layer, e: LayerState) {
    && (l.dedup.Checking? ==> forall d :: CheckHit(i, d) !in done)
    && (l.dedup.Offering? ==> Offered(done, i, l.dedup.desc))
    && (l.download.FetchingConverted? ==> DedupOver(l.dedup) && Offered(done, i, l.download.desc))
    && (e.fromDedup ==> DedupOver(l.dedup) && Offered(done, i, e.desc))
    && (!e.fromDedup && !Uploaded(l.upload) ==> e.desc == NO_DIGEST)
  }

  predicate Downloaded(w: DownloadPc) {
    w.Announcing? || ((w.ClosingDownload? || w.DownloadEnded?) && w.ok)
  }

  predicate NotDownloaded(w: DownloadPc) {
    w.ReportingDownload? || ((w.ClosingDownload? || w.DownloadEnded?) && !w.ok)
  }

  /** How a cached download that has ended shows in its layer. */
  predicate CachedEnd(l: Layer, e: LayerState, result: CachedDownload) {
    && !l.download.AwaitDedup? && !l.download.FetchingConverted?
    && match result
       case Fetched(got) => e.fromDedup && e.file == Some(got) && Downloaded(l.download)
       case Failed(left) => !e.fromDedup && e.leftover == left.Some? && (left.Some? ==> e.file == left)
  }

  ghost predicate DownloadTold(done: seq<Action>, i: nat, l: Layer, e: LayerState) {
    && (forall result :: EndConvertedDownload(i, result) in done ==> CachedEnd(l, e, result))
    && (e.fromDedup ==> e.file.Some? && EndConvertedDownload(i, Fetched(e.file.value)) in done)
    && (e.leftover ==> e.file.Some? && EndConvertedDownload(i, CachedDownload.Failed(e.file)) in done)
    && (Downloaded(l.download) ==> e.fromDedup || EndDownload(i, true) in done)
    && (NotDownloaded(l.download) ==> EndDownload(i, false) in done)
  }

  /** The built file there is after BuildLayer has worked on an empty directory. */
  function LeftBy(run: ToolRun): Option<Digest> {
    match run
    case CommitFails(left) => left
    case Succeeds(made) => Some(made)
    case _ => None
  }

  /** How a BuildLayer that has returned shows in its layer.  It does not use the
      tools if the layer is deduplicated, and gives up on a file left behind. */
  predicate BuildEnd(l: Layer, e: LayerState, run: ToolRun) {
    && BuildReturned(l.convert)
    && if e.fromDedup || e.leftover then
         (BuiltOk(l.convert) <==> e.fromDedup && !run.StatFails?) && e.config == None
       else
         && (BuiltOk(l.convert) <==> run.Succeeds?)
         && (e.config.Some? <==> run.ApplyFails? || run.CommitFails? || run.Succeeds?)
         && e.file == LeftBy(run)
  }

  ghost predicate BuildTold(done: seq<Action>, i: nat, l: Layer, e: LayerState) {
    && (forall run :: EndBuild(i, run) in done ==> BuildEnd(l, e, run))
    && (BuildReturned(l.convert) ==> exists run :: EndBuild(i, run) in done)
  }

  predicate UploadReturned(u: UploadPc) {
    u.StoringDetails? || u.ReportingUpload? || u.UploadEnded?
  }

  /** An upload succeeds exactly if it is pushed, there is a file, and the file of
      a deduplicated layer is the one that the cache offered. */
  ghost predicate UploadTold(done: seq<Action>, i: nat, l: Layer, e: LayerState, cancelled: bool) {
    && (forall pushed :: EndUpload(i, pushed) in done ==>
      && UploadReturned(l.upload) && BuildReturned(l.convert)
      && (Uploaded(l.upload) <==> pushed && e.file.Some? && (e.fromDedup ==> CheckHit(i, e.file.value) in done)))
    && (UploadReturned(l.upload) ==>
      (!Uploaded(l.upload) && cancelled) || exists pushed :: EndUpload(i, pushed) in done)
  }

  ghost predicate Told(done: seq<Action>, s: State, i: nat)
    requires i < |s.layers| == |s.engine.layers|
  {
    var l, e := s.layers[i], s.engine.layers[i];
    && DedupTold(done, i, l, e)
    && DownloadTold(done, i, l, e)
    && BuildTold(done, i, l, e)
    && UploadTold(done, i, l, e, s.cancelled)
  }

  // ---------- Every step ----------

  /** `more` is `done` with one more step. */
  ghost predicate Adds(done: seq<Action>, a: Action, more: seq<Action>) {
    forall x :: x in more <==> x in done || x == a
  }

  /** A step that ends no call of the layer's, seen from its program counters. */
  predicate Quiet(l: Layer, l': Layer) {
    && l'.dedup == l.dedup && l'.download == l.download
    && BuildReturned(l'.convert) == BuildReturned(l.convert) && BuiltOk(l'.convert) == BuiltOk(l.convert)
    && UploadReturned(l'.upload) == UploadReturned(l.upload) && Uploaded(l'.upload) == Uploaded(l.upload)
  }

  /** Steps that the predicates above do not mention. */
  predicate Untold(a: Action, i: nat) {
    a.Cancel? || a.i != i || !(a.CheckHit? || a.EndConvertedDownload? || a.EndDownload? || a.EndBuild? || a.EndUpload?)
  }

  lemma QuietDownloads(done: seq<Action>, a: Action, more: seq<Action>, i: nat, l: Layer, l': Layer, e: LayerState)
    requires DedupTold(done, i, l, e) && DownloadTold(done, i, l, e)
    requires Adds(done, a, more) && Untold(a, i) && Quiet(l, l')
    ensures DedupTold(more, i, l', e) && DownloadTold(more, i, l', e)
  {
  }

  lemma QuietCalls(done: seq<Action>, a: Action, more: seq<Action>, i: nat, l: Layer, l': Layer, e: LayerState,
                   cancelled: bool, cancelled': bool)
    requires DedupTold(done, i, l, e) && BuildTold(done, i, l, e) && UploadTold(done, i, l, e, cancelled)
    requires Adds(done, a, more) && Untold(a, i) && Quiet(l, l') && (cancelled ==> cancelled')
    ensures BuildTold(more, i, l', e) && UploadTold(more, i, l', e, cancelled')
  {
  }

  lemma QuietStepTells(done: seq<Action>, s: State, a: Action, more: seq<Action>, t: State, i: nat)
    requires i < |s.layers| == |s.engine.layers| == |t.layers| == |t.engine.layers|
    requires Told(done, s, i) && Adds(done, a, more) && Untold(a, i) && Quiet(s.layers[i], t.layers[i])
    requires t.engine.layers[i] == s.engine.layers[i] && (s.cancelled ==> t.cancelled)
    ensures Told(more, t, i)
  {
    QuietDownloads(done, a, more, i, s.layers[i], t.layers[i], s.engine.layers[i]);
    QuietCalls(done, a, more, i, s.layers[i], t.layers[i], s.engine.layers[i], s.cancelled, t.cancelled);
  }

  lemma WaitIsQuiet(s: State, a: Action, t: State)
    requires OwnStepReady(s, a, t) && WaitSide(a)
    ensures Quiet(s.layers[a.i], t.layers[a.i]) && Untold(a, a.i) && t.engine.layers[a.i] == s.engine.layers[a.i]
  {
  }

  lemma SendIsQuiet(s: State, a: Action, t: State)
    requires OwnStepReady(s, a, t) && (SendSide(a) || a.EndStore? || a.NoticeConverted? || a.ReportUpload?)
    ensures Quiet(s.layers[a.i], t.layers[a.i]) && Untold(a, a.i) && t.engine.layers[a.i] == s.engine.layers[a.i]
  {
  }

  // The steps that end a call, or move the two downloading goroutines, as they
  // show in their own layer.

  predicate BuildMoved(l: Layer, e: LayerState, l': Layer, e': LayerState, run: ToolRun) {
    && l.convert.Building? && l' == l.(convert := l'.convert) && BuildEnd(l', e', run)
    && e' == e.(file := e'.file, config := e'.config)
    && (e.fromDedup || e.leftover ==> e'.file == e.file)
  }

  predicate UploadMoved(l: Layer, e: LayerState, l': Layer, e': LayerState, pushed: bool) {
    && l.upload.UploadingLayer? && l' == l.(upload := l'.upload) && UploadReturned(l'.upload)
    && (Uploaded(l'.upload) <==> pushed && e.file.Some? && (e.fromDedup ==> e.file.value == e.desc))
    && e' == (if Uploaded(l'.upload) then e.(desc := e.file.value) else e)
  }

  predicate CachedMoved(l: Layer, e: LayerState, l': Layer, e': LayerState, result: CachedDownload) {
    && l.download.FetchingConverted? && l' == l.(download := l'.download) && CachedEnd(l', e', result)
    && (result.Fetched? ==> e'.desc == l.download.desc && e'.leftover == e.leftover)
    && (result.Failed? ==> e'.desc == e.desc && e'.fromDedup == e.fromDedup && l'.download.FetchingLayer?)
  }

  lemma BuildMoves(s: State, a: Action, t: State)
    requires OwnStepReady(s, a, t) && a.EndBuild?
    ensures BuildMoved(s.layers[a.i], s.engine.layers[a.i], t.layers[a.i], t.engine.layers[a.i], a.run)
  {
  }

  lemma UploadMoves(s: State, a: Action, t: State)
    requires OwnStepReady(s, a, t) && a.EndUpload?
    ensures UploadMoved(s.layers[a.i], s.engine.layers[a.i], t.layers[a.i], t.engine.layers[a.i], a.pushed)
  {
  }

  lemma CachedMoves(s: State, a: Action, t: State)
    requires OwnStepReady(s, a, t) && a.EndConvertedDownload?
    ensures CachedMoved(s.layers[a.i], s.engine.layers[a.i], t.layers[a.i], t.engine.layers[a.i], a.result)
  {
  }

  /** A call that has ended, as Told before it and as it has moved its layer. */
  ghost predicate Ended(done: seq<Action>, s: State, a: Action, more: seq<Action>, t: State) {
    && |s.layers| == |s.engine.layers| == |t.layers| == |t.engine.layers| && !a.Cancel? && a.i < |s.layers|
    && LayerInv(s, a.i) && Told(done, s, a.i) && Adds(done, a, more) && (s.cancelled ==> t.cancelled)
  }

  lemma BuildTells(done: seq<Action>, s: State, a: Action, more: seq<Action>, t: State)
    requires Ended(done, s, a, more, t) && a.EndBuild?
    requires BuildMoved(s.layers[a.i], s.engine.layers[a.i], t.layers[a.i], t.engine.layers[a.i], a.run)
    ensures Told(more, t, a.i)
  {
  }

  lemma UploadTells(done: seq<Action>, s: State, a: Action, more: seq<Action>, t: State)
    requires Ended(done, s, a, more, t) && a.EndUpload?
    requires UploadMoved(s.layers[a.i], s.engine.layers[a.i], t.layers[a.i], t.engine.layers[a.i], a.pushed)
    ensures Told(more, t, a.i)
  {
  }

  lemma CachedTells(done: seq<Action>, s: State, a: Action, more: seq<Action>, t: State)
    requires Ended(done, s, a, more, t) && a.EndConvertedDownload?
    requires CachedMoved(s.layers[a.i], s.engine.layers[a.i], t.layers[a.i], t.engine.layers[a.i], a.result)
    ensures Told(more, t, a.i)
  {
  }

  lemma DedupStepTells(done: seq<Action>, s: State, a: Action, more: seq<Action>, t: State)
    requires OwnStepReady(s, a, t) && Told(done, s, a.i) && Adds(done, a, more)
    requires DownloadSide(a) && !a.EndConvertedDownload?
    ensures DedupTold(more, a.i, t.layers[a.i], t.engine.layers[a.i])
  {
  }

  lemma EndDownloadTells(done: seq<Action>, s: State, a: Action, more: seq<Action>, t: State)
    requires OwnStepReady(s, a, t) && Told(done, s, a.i) && Adds(done, a, more) && a.EndDownload?
    ensures DownloadTold(more, a.i, t.layers[a.i], t.engine.layers[a.i])
  {
  }

  lemma DownloadStepTells(done: seq<Action>, s: State, a: Action, more: seq<Action>, t: State)
    requires OwnStepReady(s, a, t) && Told(done, s, a.i) && Adds(done, a, more)
    requires DownloadSide(a) && !a.EndConvertedDownload? && !a.EndDownload?
    ensures DownloadTold(more, a.i, t.layers[a.i], t.engine.layers[a.i])
  {
  }

  lemma DownloadLeavesRest(s: State, a: Action, t: State)
    requires OwnStepReady(s, a, t) && DownloadSide(a) && !a.EndConvertedDownload?
    ensures RestUntold(s.layers[a.i], a, t.layers[a.i]) && t.engine.layers[a.i] == s.engine.layers[a.i]
  {
  }

  predicate RestUntold(l: Layer, a: Action, l': Layer) {
    && l'.upload == l.upload && (a.CheckHit? ==> l.dedup.Checking?)
    && BuildReturned(l'.convert) == BuildReturned(l.convert) && BuiltOk(l'.convert) == BuiltOk(l.convert)
  }

  lemma OtherCallsUntold(done: seq<Action>, s: State, a: Action, more: seq<Action>, t: State)
    requires Ended(done, s, a, more, t) && DownloadSide(a) && !a.EndConvertedDownload?
    requires RestUntold(s.layers[a.i], a, t.layers[a.i]) && t.engine.layers[a.i] == s.engine.layers[a.i]
    ensures BuildTold(more, a.i, t.layers[a.i], t.engine.layers[a.i])
    ensures UploadTold(more, a.i, t.layers[a.i], t.engine.layers[a.i], t.cancelled)
  {
  }

  lemma PassConvertedTells(done: seq<Action>, s: State, a: Action, more: seq<Action>, t: State)
    requires OwnStepReady(s, a, t) && Told(done, s, a.i) && Adds(done, a, more) && a.PassConverted?
    ensures Told(more, t, a.i)
  {
  }

  lemma OwnStepTells(done: seq<Action>, s: State, a: Action, more: seq<Action>, t: State)
    requires OwnStepReady(s, a, t) && Told(done, s, a.i) && Adds(done, a, more)
    ensures Told(more, t, a.i)
  {
    if a.EndConvertedDownload? {
      CachedMoves(s, a, t);
      CachedTells(done, s, a, more, t);
    } else if DownloadSide(a) {
      DedupStepTells(done, s, a, more, t);
      if a.EndDownload? { EndDownloadTells(done, s, a, more, t); } else { DownloadStepTells(done, s, a, more, t); }
      DownloadLeavesRest(s, a, t);
      OtherCallsUntold(done, s, a, more, t);
    } else if a.EndBuild? {
      BuildMoves(s, a, t);
      BuildTells(done, s, a, more, t);
    } else if a.EndUpload? {
      UploadMoves(s, a, t);
      UploadTells(done, s, a, more, t);
    } else if a.PassConverted? {
      PassConvertedTells(done, s, a, more, t);
    } else {
      if WaitSide(a) { WaitIsQuiet(s, a, t); } else { SendIsQuiet(s, a, t); }
      QuietStepTells(done, s, a, more, t, a.i);
    }
  }

  ghost predicate AllTold(done: seq<Action>, s: State) {
    |s.layers| == |s.engine.layers| && forall i :: 0 <= i < |s.layers| ==> Told(done, s, i)
  }

  lemma OtherIsQuiet(s: State, a: Action, t: State, i: nat)
    requires OtherMoved(s, t, i) && (a.Cancel? || a.i != i)
    ensures Quiet(s.layers[i], t.layers[i]) && Untold(a, i)
  {
  }

  lemma LayerStepTells(done: seq<Action>, s: State, a: Action, more: seq<Action>, t: State, i: nat)
    requires Effects(s, a, t) && i < |s.layers| && Told(done, s, i) && Adds(done, a, more)
    requires !a.Cancel? && a.i == i ==> OwnStepReady(s, a, t)
    ensures Told(more, t, i)
  {
    if !a.Cancel? && a.i == i {
      OwnStepTells(done, s, a, more, t);
    } else {
      OtherStep(s, a, t, i);
      OtherIsQuiet(s, a, t, i);
      QuietStepTells(done, s, a, more, t, i);
    }
  }

  lemma EffectsTell(done: seq<Action>, s: State, a: Action, more: seq<Action>, t: State)
    requires Effects(s, a, t) && AllTold(done, s) && Adds(done, a, more)
    requires !a.Cancel? ==> OwnStepReady(s, a, t)
    ensures AllTold(more, t)
  {
    forall i: nat | i < |s.layers| ensures Told(more, t, i) {
      LayerStepTells(done, s, a, more, t, i);
    }
  }

  lemma StepTells(done: seq<Action>, s: State, a: Action)
    requires Inv(s) && Enabled(s, a) && AllTold(done, s)
    ensures AllTold(done + [a], Apply(s, a))
  {
    StepEffects(s, a);
    if !a.Cancel? {
      StepIsReady(s, a);
    }
    EffectsTell(done, s, a, done + [a], Apply(s, a));
  }

  lemma {:induction false} RunTells(s: State, done: seq<Action>, acts: seq<Action>, t: State)
    requires Inv(s) && AllTold(done, s) && Run(s, acts, t)
    ensures AllTold(done + acts, t) && Inv(t) && |t.layers| == |s.layers|
    decreases |acts|
  {
    if acts == [] {
      assert done + acts == done;
    } else {
      StepKeepsInv(s, acts[0]);
      StepTells(done, s, acts[0]);
      RunTells(Apply(s, acts[0]), done + [acts[0]], acts[1..], t);
      assert done + [acts[0]] + acts[1..] == done + acts;
    }
  }

  // ---------- Whole runs ----------

  lemma RunIsTold(s: State, acts: seq<Action>, t: State)
    requires Init(s) && Run(s, acts, t)
    ensures AllTold(acts, t) && Inv(t) && |t.layers| == |s.layers|
  {
    InitInv(s);
    assert AllTold([], s);
    RunTells(s, [], acts, t);
    assert [] + acts == acts;
  }

  /** A cached download of layer i has been completed. */
  ghost predicate Fetches(acts: seq<Action>, i: nat) {
    exists got :: EndConvertedDownload(i, Fetched(got)) in acts
  }

  /** The outcome that decides which file layer i has: the completed cached
      download, or else what the tools have made. */
  ghost predicate GivenFile(acts: seq<Action>, i: nat, d: Digest) {
    || EndConvertedDownload(i, Fetched(d)) in acts
    || (EndBuild(i, Succeeds(d)) in acts && !Fetches(acts, i))
  }

  /** Every layer in every run.  It is deduplicated exactly if a cached download
      was completed, and then has the descriptor that the cache offered.
      BuildLayer has returned exactly if the run ends it, and then verdict, config
      and file are those its outcome calls for; a layer built successfully has the
      one file that the run gave it.  UploadLayer succeeds exactly if the push
      does, there is a file, and that of a deduplicated layer is the one offered. */
  lemma FilesInEveryRun(s: State, acts: seq<Action>, t: State, i: nat)
    requires Init(s) && Run(s, acts, t) && i < |t.layers|
    ensures |t.engine.layers| == |t.layers| == |s.layers|
    ensures var l, e := t.layers[i], t.engine.layers[i];
      && (e.fromDedup <==> Fetches(acts, i))
      && (e.fromDedup ==> Offered(acts, i, e.desc))
      && (forall result :: EndConvertedDownload(i, result) in acts ==> CachedEnd(l, e, result))
      && (BuildReturned(l.convert) <==> exists run :: EndBuild(i, run) in acts)
      && (forall run :: EndBuild(i, run) in acts ==> BuildEnd(l, e, run))
      && (BuiltOk(l.convert) ==> forall d :: GivenFile(acts, i, d) <==> e.file == Some(d))
      && (forall pushed :: EndUpload(i, pushed) in acts ==>
        (Uploaded(l.upload) <==> pushed && e.file.Some? && (e.fromDedup ==> CheckHit(i, e.file.value) in acts)))
  {
    RunIsTold(s, acts, t);
    assert Told(acts, t, i) && LayerInv(t, i);
    if BuiltOk(t.layers[i].convert) {
      BuiltAsGiven(acts, t, i);
    }
  }

  lemma BuiltAsGiven(acts: seq<Action>, t: State, i: nat)
    requires i < |t.layers| == |t.engine.layers| && Told(acts, t, i) && BuiltOk(t.layers[i].convert)
    ensures forall d :: GivenFile(acts, i, d) <==> t.engine.layers[i].file == Some(d)
  {
    var e := t.engine.layers[i];
    var run :| EndBuild(i, run) in acts;
    assert BuildEnd(t.layers[i], e, run);
    if e.fromDedup {
      assert EndConvertedDownload(i, Fetched(e.file.value)) in acts;
    }
  }

  // ---------- Runs without a fault ----------

  /** Nothing outside fails, nobody cancels, and what a cached download brings is
      what the cache offered. */
  ghost predicate FaultFree(acts: seq<Action>) {
    && (forall a :: a in acts ==> !Faulty(a))
    && (forall i, got, d :: EndConvertedDownload(i, Fetched(got)) in acts && CheckHit(i, d) in acts ==> got == d)
  }

  predicate Healthy(l: Layer) {
    && !NotDownloaded(l.download)
    && (l.convert.ClosingConvert? || ConvertClosed(l.convert) ==> l.convert.out == Converted)
    && !l.upload.ReportingUpload? && l.upload != UploadEnded(false)
  }

  lemma FaultFreeLayer(done: seq<Action>, s: State, i: nat)
    requires i < |s.layers| == |s.engine.layers| && LayerInv(s, i) && Told(done, s, i)
    requires FaultFree(done) && !s.cancelled
    ensures Healthy(s.layers[i])
  {
    var l, e := s.layers[i], s.engine.layers[i];
    assert !e.leftover && !NotDownloaded(l.download);
    if BuildReturned(l.convert) {
      var run :| EndBuild(i, run) in done;
      assert BuildEnd(l, e, run) && !Faulty(EndBuild(i, run));
    }
    if UploadReturned(l.upload) {
      var pushed :| EndUpload(i, pushed) in done;
      assert !Faulty(EndUpload(i, pushed));
    }
  }

  lemma HealthyReportsNothing(s: State, a: Action)
    requires |s.engine.layers| == |s.layers| && Enabled(s, a) && !a.Cancel?
    requires Healthy(s.layers[a.i]) && FailuresReported(s.layers[a.i], s.failed)
    ensures Apply(s, a).cancelled == s.cancelled && Apply(s, a).failed == s.failed
  {
  }

  lemma FaultFreeStep(s: State, done: seq<Action>, a: Action)
    requires Inv(s) && AllTold(done, s) && Enabled(s, a) && FaultFree(done) && !Faulty(a)
    requires !s.cancelled && !s.failed
    ensures !Apply(s, a).cancelled && !Apply(s, a).failed
  {
    assert Told(done, s, a.i) && LayerInv(s, a.i);
    FaultFreeLayer(done, s, a.i);
    HealthyReportsNothing(s, a);
  }

  lemma FaultFreePart(done: seq<Action>, acts: seq<Action>)
    requires FaultFree(done + acts)
    ensures FaultFree(done) && forall a :: a in acts ==> !Faulty(a)
  {
    assert forall a :: a in done || a in acts <==> a in done + acts;
  }

  lemma {:induction false} FaultFreeRun(s: State, done: seq<Action>, acts: seq<Action>, t: State)
    requires Inv(s) && AllTold(done, s) && Run(s, acts, t) && FaultFree(done + acts)
    requires !s.cancelled && !s.failed
    ensures !t.cancelled && !t.failed
    decreases |acts|
  {
    if acts != [] {
      FaultFreePart(done, acts);
      FaultFreeStep(s, done, acts[0]);
      StepKeepsInv(s, acts[0]);
      StepTells(done, s, acts[0]);
      assert done + [acts[0]] + acts[1..] == done + acts;
      FaultFreeRun(Apply(s, acts[0]), done + [acts[0]], acts[1..], t);
    }
  }

  /** If nothing outside fails, no goroutine reports an error and the context is
      never cancelled: Wait can only return nil. */
  lemma FaultFreeRunsSucceed(s: State, acts: seq<Action>, t: State)
    requires Init(s) && Run(s, acts, t) && FaultFree(acts)
    ensures !t.failed && !t.cancelled
    ensures forall i :: 0 <= i < |t.layers| ==> Healthy(t.layers[i])
  {
    RunIsTold(s, acts, t);
    InitInv(s);
    assert AllTold([], s) && [] + acts == acts;
    FaultFreeRun(s, [], acts, t);
    forall i: nat | i < |t.layers| ensures Healthy(t.layers[i]) {
      FaultFreeLayer(acts, t, i);
    }
  }
}
