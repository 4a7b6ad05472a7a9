/** What every step of the pipeline keeps, and what follows for whole runs. */
module PipelineSafety {
  import opened Wrappers
  import opened BuilderEngine
  import opened LayerPipeline

  // ---------- Vocabulary ----------

  /** Layer's download calls have all returned (or will never be made). */
  predicate DownloadsReturned(w: DownloadPc) {
    !(w.AwaitDedup? || w.FetchingConverted? || w.FetchingLayer?)
  }

  /** BuildLayer has returned successfully. */
  predicate BuiltOk(c: ConvertPc) {
    || c.FirstSend? || c.SecondSend?
    || ((c.ClosingConvert? || ConvertClosed(c)) && c.out == Converted)
  }

  /** BuildLayer was called and has returned. */
  predicate BuildReturned(c: ConvertPc) {
    || BuiltOk(c)
    || ((c.ClosingConvert? || ConvertClosed(c)) && c.out == BuildFailed)
  }

  predicate BuildStarted(c: ConvertPc) {
    c.Building? || BuildReturned(c)
  }

  predicate WasAborted(c: ConvertPc) {
    (c.ClosingConvert? || ConvertClosed(c)) && c.out == Aborted
  }

  /** UploadLayer was called and has not failed. */
  predicate UploadCalled(u: UploadPc) {
    u.UploadingLayer? || u.StoringDetails? || (u.UploadEnded? && u.ok)
  }

  predicate Uploaded(u: UploadPc) {
    u.StoringDetails? || (u.UploadEnded? && u.ok)
  }

  /** The lowers contributed by the first k layers: those built successfully. */
  function BuiltLowers(layers: seq<Layer>, k: nat): seq<Lower>
    requires k <= |layers|
  {
    if k == 0 then []
    else BuiltLowers(layers, k - 1) + (if BuiltOk(layers[k - 1].convert) then [BuiltLayer(k - 1)] else [])
  }

  lemma {:induction false} BuiltLowersSame(a: seq<Layer>, b: seq<Layer>, k: nat)
    requires k <= |a| && k <= |b|
    requires forall i :: 0 <= i < k ==> BuiltOk(a[i].convert) == BuiltOk(b[i].convert)
    ensures BuiltLowers(a, k) == BuiltLowers(b, k)
  {
    if k > 0 {
      BuiltLowersSame(a, b, k - 1);
    }
  }

  // ---------- Invariant ----------

  /** BuildLayer calls start in index order, each once, and only the latest one
      can still be running. */
  ghost predicate BuildsInOrder(s: State) {
    var k := |s.builds|;
    && k <= |s.layers|
    && (forall j :: 0 <= j < k ==> s.builds[j] == j)
    && (forall j :: 0 <= j < |s.layers| ==> (BuildStarted(s.layers[j].convert) <==> j < k))
    && (forall j :: 0 <= j < k - 1 ==> BuildReturned(s.layers[j].convert))
  }

  /** What layer i's program counters say about what came before them.  Every
      clause about a wait is weakened by `cancelled`: a cancelled wait returns
      without a sender. */
  ghost predicate Synchronised(s: State, i: nat)
    requires i < |s.layers|
  {
    var l, c := s.layers[i], s.layers[i].convert;
    && (c.AfterDownload? ==> s.cancelled || DownloadsReturned(l.download))
    && (c.AwaitPrevious? || c.AfterPrevious? || BuildStarted(c) ==> DownloadsReturned(l.download))
    && (c.AwaitPrevious? ==> i > 0)
    && (c.AfterPrevious? ==> i > 0 && (s.cancelled || BuildReturned(s.layers[i - 1].convert)))
    && (WasAborted(c) ==> s.cancelled)
    && (l.upload.AfterConverted? ==> s.cancelled || BuildReturned(c))
    && (UploadCalled(l.upload) ==> BuildReturned(c))
  }

  /** Only goroutines that end badly report, and those that have ended so were. */
  predicate FailuresReported(l: Layer, failed: bool) {
    && (l.convert.ReportingConvert? ==> l.convert.out != Converted)
    && (l.convert.ConvertEnded? ==> l.convert.out == Converted || failed)
    && (l.download.DownloadEnded? ==> l.download.ok || failed)
    && (l.upload.UploadEnded? ==> l.upload.ok || failed)
  }

  /** The engine's share of layer i. */
  ghost predicate EngineLayerAgrees(s: State, i: nat)
    requires i < |s.layers| == |s.engine.layers|
  {
    var l, c, e := s.layers[i], s.layers[i].convert, s.engine.layers[i];
    && (l.dedup.Offering? || l.download.FetchingConverted? ==> s.engine.kind == Overlaybd)
    && (l.download.AwaitDedup? || l.download.FetchingConverted? ==> !e.fromDedup && !e.leftover && e.file == None)
    && (e.fromDedup || e.leftover ==> s.engine.kind == Overlaybd)
    && (e.fromDedup ==> !e.leftover && e.file.Some?)
    && (!BuildReturned(c) ==> (e.file.Some? <==> e.fromDedup || e.leftover))
    && (BuiltOk(c) ==> e.file.Some? && (e.fromDedup <==> e.config == None))
    && (e.config.Some? ==> BuildReturned(c) && e.config.value == BaseLowers(s.engine.mkfs) + BuiltLowers(s.layers, i))
    && (Uploaded(l.upload) ==> e.file == Some(e.desc))
  }

  ghost predicate RowsAgree(s: State)
    requires |s.layers| == |s.engine.layers|
  {
    && (forall r :: r in s.engine.rows ==>
      && r.idx < |s.layers|
      && Uploaded(s.layers[r.idx].upload)
      && r == Row(r.idx, s.engine.layers[r.idx].chainID, s.engine.layers[r.idx].desc)
      && !s.engine.layers[r.idx].fromDedup)
    && (forall i :: 0 <= i < |s.layers| && s.engine.kind == Overlaybd ==>
      var e := s.engine.layers[i];
      s.layers[i].upload == UploadEnded(true) && !e.fromDedup ==> Row(i, e.chainID, e.desc) in s.engine.rows)
  }

  ghost predicate LayerInv(s: State, i: nat)
    requires i < |s.layers| == |s.engine.layers|
  {
    Synchronised(s, i) && FailuresReported(s.layers[i], s.failed) && EngineLayerAgrees(s, i)
  }

  ghost predicate Inv(s: State) {
    && |s.layers| == |s.engine.layers|
    && (s.failed ==> s.cancelled)
    && BuildsInOrder(s)
    && s.engine.lowers == BaseLowers(s.engine.mkfs) + BuiltLowers(s.layers, |s.builds|)
    && (forall i :: 0 <= i < |s.layers| ==> LayerInv(s, i))
    && RowsAgree(s)
  }

  lemma InitInv(s: State)
    requires Init(s)
    ensures Inv(s)
  {
  }

  // ---------- What a step changes ----------

  /** A step that begins a BuildLayer call. */
  predicate Starts(s: State, a: Action) {
    !a.Cancel? && !s.cancelled && (a.PassPrevious? || (a.PassDownload? && a.i == 0))
  }

  /** Finished calls stay finished, and only BuildLayer's own return gives a verdict. */
  predicate OwnEffect(s: State, a: Action, l: Layer, l': Layer) {
    && (DownloadsReturned(l.download) ==> DownloadsReturned(l'.download))
    && (BuildReturned(l.convert) ==> BuildReturned(l'.convert) && BuiltOk(l'.convert) == BuiltOk(l.convert))
    && (BuiltOk(l'.convert) ==> BuiltOk(l.convert) || a.EndBuild?)
    && (BuildStarted(l'.convert) <==> BuildStarted(l.convert) || Starts(s, a))
    && (Starts(s, a) ==> !BuildStarted(l.convert) && (l.convert.AfterPrevious? || a.i == 0))
    && (Uploaded(l.upload) ==> Uploaded(l'.upload))
    && (a.EndConvertedDownload? ==> l.download.FetchingConverted?)
    && (a.EndBuild? ==> l.convert.Building? && BuildReturned(l'.convert))
    && (a.SendToNext? ==> BuildReturned(l.convert))
    && (a.EndUpload? ==> l.upload.UploadingLayer?)
    && (a.EndStore? ==> l.upload.StoringDetails?)
    && (l'.upload == UploadEnded(true) ==> l.upload == l'.upload || a.EndStore?)
  }

  /** The next layer can receive a send; other layers are left alone. */
  predicate OtherEffect(a: Action, j: nat, l: Layer, l': Layer) {
    if a.SendToNext? && j == a.i + 1 then l.convert.AwaitPrevious? && l' == l.(convert := AfterPrevious)
    else l' == l
  }

  ghost predicate Effects(s: State, a: Action, t: State) {
    && |t.layers| == |s.layers| == |s.engine.layers| == |t.engine.layers|
    && t.engine.kind == s.engine.kind && t.engine.mkfs == s.engine.mkfs
    && (s.cancelled ==> t.cancelled) && (s.failed ==> t.failed) && (t.failed ==> t.cancelled || s.failed)
    && (a.Cancel? || a.i < |s.layers|)
    && (!a.Cancel? ==> OwnEffect(s, a, s.layers[a.i], t.layers[a.i]))
    && (forall j: nat {:trigger t.layers[j]} {:trigger s.layers[j]} {:trigger t.engine.layers[j]} ::
      j < |s.layers| && (a.Cancel? || a.i != j) ==>
      && OtherEffect(a, j, s.layers[j], t.layers[j])
      && t.engine.layers[j] == s.engine.layers[j])
    && (!a.Cancel? ==> t.engine.layers[a.i].chainID == s.engine.layers[a.i].chainID)
    && (a.Cancel? || t.engine.layers[a.i] == s.engine.layers[a.i]
      || a.EndConvertedDownload? || a.EndBuild? || a.EndUpload?)
    && t.builds == (if Starts(s, a) then s.builds + [a.i] else s.builds)
    && t.engine.lowers == (if a.EndBuild? && BuiltOk(t.layers[a.i].convert)
                           then s.engine.lowers + [BuiltLayer(a.i)] else s.engine.lowers)
    && t.engine.rows == (if a.EndStore? then StoreLayerResult(s.engine, a.i).rows else s.engine.rows)
  }

  // The kinds of steps.

  predicate DownloadSide(a: Action) {
    || a.CheckHit? || a.CheckMiss? || a.HandOver? || a.DropOffer? || a.CloseDedup? || a.NothingCached?
    || a.EndConvertedDownload? || a.EndDownload? || a.Announce? || a.DropAnnounce? || a.CloseDownload?
    || a.ReportDownload?
  }

  predicate UploadSide(a: Action) {
    a.NoticeConverted? || a.PassConverted? || a.ReportUpload?
  }

  predicate StoreSide(a: Action) {
    a.EndUpload? || a.EndStore?
  }

  predicate WaitSide(a: Action) {
    a.NoticeDownload? || a.PassDownload? || a.NoticePrevious? || a.PassPrevious?
  }

  predicate SendSide(a: Action) {
    a.SendToUpload? || a.SendToNext? || a.DropSend? || a.CloseConvert? || a.ReportConvert?
  }

  lemma DownloadStepEffect(s: State, a: Action)
    requires |s.engine.layers| == |s.layers| && Enabled(s, a) && DownloadSide(a)
    ensures OwnEffect(s, a, s.layers[a.i], Move(s, a).value)
  {
  }

  lemma WaitStepEffect(s: State, a: Action)
    requires |s.engine.layers| == |s.layers| && Enabled(s, a) && WaitSide(a)
    ensures OwnEffect(s, a, s.layers[a.i], Move(s, a).value)
  {
  }

  lemma OwnStepEffect(s: State, a: Action)
    requires |s.engine.layers| == |s.layers| && Enabled(s, a) && !a.Cancel?
    ensures OwnEffect(s, a, s.layers[a.i], Move(s, a).value)
  {
    if DownloadSide(a) {
      DownloadStepEffect(s, a);
    } else if WaitSide(a) {
      WaitStepEffect(s, a);
    }
  }

  lemma StartsBuilding(s: State, a: Action)
    requires |s.engine.layers| == |s.layers| && Enabled(s, a) && !a.Cancel?
    ensures Move(s, a).value.convert.Building? && !s.layers[a.i].convert.Building? <==> Starts(s, a)
  {
  }

  /** An engine call touches its own layer's entry, and only a successful
      BuildLayer grows the lowers. */
  ghost predicate EngineEffect(s: State, a: Action, l': Layer, e: EngineState)
    requires !a.Cancel? && a.i < |s.layers| == |s.engine.layers|
  {
    && |e.layers| == |s.layers|
    && e.kind == s.engine.kind && e.mkfs == s.engine.mkfs
    && (forall j :: 0 <= j < |s.layers| && a.i != j ==> e.layers[j] == s.engine.layers[j])
    && e.layers[a.i].chainID == s.engine.layers[a.i].chainID
    && (e.layers[a.i] == s.engine.layers[a.i] || a.EndConvertedDownload? || a.EndBuild? || a.EndUpload?)
    && e.lowers == (if a.EndBuild? && BuiltOk(l'.convert) then s.engine.lowers + [BuiltLayer(a.i)] else s.engine.lowers)
    && e.rows == (if a.EndStore? then StoreLayerResult(s.engine, a.i).rows else s.engine.rows)
  }

  lemma OwnEngineEffect(s: State, a: Action)
    requires |s.engine.layers| == |s.layers| && Enabled(s, a) && !a.Cancel?
    ensures EngineEffect(s, a, Move(s, a).value, EngineAfter(s, a))
  {
  }

  lemma EffectsOf(s: State, a: Action, l: Layer, e: EngineState, t: State)
    requires !a.Cancel? && a.i < |s.layers| == |s.engine.layers| && (s.failed ==> s.cancelled)
    requires OwnEffect(s, a, s.layers[a.i], l) && EngineEffect(s, a, l, e)
    requires a.SendToNext? ==> a.i + 1 < |s.layers| && s.layers[a.i + 1].convert.AwaitPrevious?
    requires l.convert.Building? && !s.layers[a.i].convert.Building? <==> Starts(s, a)
    requires t == Result(s, a, l, e)
    ensures Effects(s, a, t)
  {
  }

  lemma StepEffects(s: State, a: Action)
    requires Inv(s) && Enabled(s, a)
    ensures Effects(s, a, Apply(s, a))
  {
    if !a.Cancel? {
      OwnStepEffect(s, a);
      StartsBuilding(s, a);
      OwnEngineEffect(s, a);
      EffectsOf(s, a, Move(s, a).value, EngineAfter(s, a), Apply(s, a));
    }
  }

  // ---------- Every step keeps the invariant ----------

  /** What a step does to the BuildLayer calls. */
  ghost predicate CallsMoved(s: State, a: Action, t: State) {
    && |s.layers| == |t.layers|
    && t.builds == (if Starts(s, a) then s.builds + [a.i] else s.builds)
    && (forall j :: 0 <= j < |s.layers| ==>
      && (BuildReturned(s.layers[j].convert) ==> BuildReturned(t.layers[j].convert))
      && (BuildStarted(t.layers[j].convert) <==> BuildStarted(s.layers[j].convert) || (Starts(s, a) && j == a.i)))
  }

  lemma StepMovesCalls(s: State, a: Action, t: State)
    requires Effects(s, a, t)
    ensures CallsMoved(s, a, t)
  {
  }

  lemma MovedInOrder(s: State, a: Action, t: State)
    requires BuildsInOrder(s) && CallsMoved(s, a, t)
    requires Starts(s, a) ==>
      a.i == |s.builds| < |s.layers| && (a.i > 0 ==> BuildReturned(s.layers[a.i - 1].convert))
    ensures BuildsInOrder(t)
  {
  }

  lemma KeepsOrder(s: State, a: Action, t: State)
    requires Inv(s) && Effects(s, a, t)
    ensures BuildsInOrder(t)
  {
    StepMovesCalls(s, a, t);
    if Starts(s, a) {
      StartsNext(s, a, t);
    }
    MovedInOrder(s, a, t);
  }

  /** A BuildLayer call starts right after its predecessor has returned. */
  lemma StartsNext(s: State, a: Action, t: State)
    requires Inv(s) && Effects(s, a, t) && Starts(s, a)
    ensures a.i == |s.builds| && (a.i > 0 ==> BuildReturned(s.layers[a.i - 1].convert))
  {
    assert LayerInv(s, a.i);
    assert a.i > 0 ==> BuildStarted(s.layers[a.i - 1].convert) && a.i - 1 < |s.builds|;
  }

  lemma OtherBuiltOk(s: State, a: Action, t: State, k: nat)
    requires Effects(s, a, t) && k <= |s.layers| && (a.EndBuild? ==> k <= a.i)
    ensures BuiltLowers(t.layers, k) == BuiltLowers(s.layers, k)
  {
    forall j | 0 <= j < k ensures BuiltOk(t.layers[j].convert) == BuiltOk(s.layers[j].convert) {
    }
    BuiltLowersSame(t.layers, s.layers, k);
  }

  /** The running BuildLayer is the last one started. */
  lemma BuildingIsLatest(s: State, i: nat)
    requires Inv(s) && i < |s.layers| && s.layers[i].convert.Building?
    ensures |s.builds| == i + 1
  {
    assert BuildStarted(s.layers[i].convert) && !BuildReturned(s.layers[i].convert);
  }

  lemma KeepsLowers(s: State, a: Action, t: State)
    requires Inv(s) && Effects(s, a, t) && BuildsInOrder(t)
    ensures t.engine.lowers == BaseLowers(t.engine.mkfs) + BuiltLowers(t.layers, |t.builds|)
  {
    if a.EndBuild? {
      BuildingIsLatest(s, a.i);
    } else if Starts(s, a) {
      StartsNext(s, a, t);
    }
    LowersMoved(s, a, t);
  }

  lemma LowersMoved(s: State, a: Action, t: State)
    requires Effects(s, a, t) && |s.builds| <= |s.layers|
    requires s.engine.lowers == BaseLowers(s.engine.mkfs) + BuiltLowers(s.layers, |s.builds|)
    requires a.EndBuild? ==> |s.builds| == a.i + 1
    requires Starts(s, a) ==> |s.builds| == a.i
    ensures t.engine.lowers == BaseLowers(t.engine.mkfs) + BuiltLowers(t.layers, |t.builds|)
  {
    if a.EndBuild? {
      OtherBuiltOk(s, a, t, a.i);
      assert BuiltLowers(s.layers, a.i + 1) == BuiltLowers(s.layers, a.i);
    } else {
      OtherBuiltOk(s, a, t, |s.builds|);
    }
  }

  /** Once a layer is uploaded, its share of the engine is final. */
  lemma UploadedIsSettled(s: State, a: Action, t: State, i: nat)
    requires Effects(s, a, t) && i < |s.layers| && LayerInv(s, i) && Uploaded(s.layers[i].upload)
    ensures Uploaded(t.layers[i].upload) && t.engine.layers[i] == s.engine.layers[i]
  {
  }

  /** How a step changes uploads and rows. */
  ghost predicate RowsMoved(s: State, a: Action, t: State) {
    && |s.layers| == |s.engine.layers| == |t.layers| == |t.engine.layers|
    && t.engine.kind == s.engine.kind
    && (forall i :: 0 <= i < |s.layers| && Uploaded(s.layers[i].upload) ==>
      Uploaded(t.layers[i].upload) && t.engine.layers[i] == s.engine.layers[i])
    && (forall i :: 0 <= i < |s.layers| && t.layers[i].upload == UploadEnded(true) ==>
      s.layers[i].upload == UploadEnded(true) || a == EndStore(i))
    && (a.EndStore? ==> a.i < |s.layers| && Uploaded(s.layers[a.i].upload))
    && t.engine.rows == (if a.EndStore? then StoreLayerResult(s.engine, a.i).rows else s.engine.rows)
  }

  lemma StepMovesRows(s: State, a: Action, t: State)
    requires Inv(s) && Effects(s, a, t)
    ensures RowsMoved(s, a, t)
  {
    forall i: nat | i < |s.layers| && Uploaded(s.layers[i].upload)
      ensures Uploaded(t.layers[i].upload) && t.engine.layers[i] == s.engine.layers[i]
    {
      assert LayerInv(s, i);
      UploadedIsSettled(s, a, t, i);
    }
  }

  lemma MovedRowsAgree(s: State, a: Action, t: State)
    requires |s.layers| == |s.engine.layers| && RowsAgree(s) && RowsMoved(s, a, t)
    ensures RowsAgree(t)
  {
  }

  lemma KeepsRows(s: State, a: Action, t: State)
    requires Inv(s) && Effects(s, a, t)
    ensures RowsAgree(t)
  {
    StepMovesRows(s, a, t);
    MovedRowsAgree(s, a, t);
  }

  /** How a step of another layer, or Cancel, can look from layer i. */
  ghost predicate OtherMoved(s: State, t: State, i: nat) {
    && i < |s.layers| == |t.layers| == |s.engine.layers| == |t.engine.layers|
    && (t.layers[i] == s.layers[i]
        || (i > 0 && s.layers[i].convert.AwaitPrevious? && BuildReturned(s.layers[i - 1].convert)
            && t.layers[i] == s.layers[i].(convert := AfterPrevious)))
    && (i > 0 && BuildReturned(s.layers[i - 1].convert) ==> BuildReturned(t.layers[i - 1].convert))
    && (s.cancelled ==> t.cancelled) && (s.failed ==> t.failed)
    && t.engine.layers[i] == s.engine.layers[i]
    && t.engine.kind == s.engine.kind && t.engine.mkfs == s.engine.mkfs
  }

  lemma OtherStep(s: State, a: Action, t: State, i: nat)
    requires Effects(s, a, t) && i < |s.layers| && (a.Cancel? || a.i != i)
    ensures OtherMoved(s, t, i)
  {
  }

  lemma OtherMoveKeepsLayer(s: State, t: State, i: nat)
    requires OtherMoved(s, t, i) && LayerInv(s, i)
    requires BuildReturned(s.layers[i].convert) ==> BuiltLowers(t.layers, i) == BuiltLowers(s.layers, i)
    ensures LayerInv(t, i)
  {
  }

  lemma KeepsOtherLayer(s: State, a: Action, t: State, i: nat)
    requires Inv(s) && Effects(s, a, t) && i < |s.layers| && (a.Cancel? || a.i != i)
    ensures LayerInv(t, i)
  {
    OtherStep(s, a, t, i);
    if BuildReturned(s.layers[i].convert) {
      if a.EndBuild? { BuildingIsLatest(s, a.i); }
      OtherBuiltOk(s, a, t, i);
    }
    OtherMoveKeepsLayer(s, t, i);
  }

  /** The part of the two states that the invariant of a step's own layer
      depends on. */
  ghost predicate OwnStepReady(s: State, a: Action, t: State) {
    && |s.engine.layers| == |s.layers| == |t.layers| == |t.engine.layers| && Enabled(s, a) && !a.Cancel?
    && LayerInv(s, a.i) && (a.i > 0 ==> Synchronised(s, a.i - 1))
    && t.layers[a.i] == Move(s, a).value && t.engine.layers[a.i] == EngineAfter(s, a).layers[a.i]
    && (a.i > 0 && BuildReturned(s.layers[a.i - 1].convert) ==> BuildReturned(t.layers[a.i - 1].convert))
    && (s.cancelled ==> t.cancelled) && t.failed == (s.failed || Reports(a))
    && t.engine.kind == s.engine.kind && t.engine.mkfs == s.engine.mkfs
    && BuiltLowers(t.layers, a.i) == BuiltLowers(s.layers, a.i)
    && (a.EndBuild? ==> s.engine.lowers == BaseLowers(s.engine.mkfs) + BuiltLowers(s.layers, a.i))
  }

  lemma DownloadStepKeepsLayer(s: State, a: Action, t: State)
    requires OwnStepReady(s, a, t) && DownloadSide(a)
    ensures LayerInv(t, a.i)
  {
  }

  lemma UploadStepKeepsLayer(s: State, a: Action, t: State)
    requires OwnStepReady(s, a, t) && UploadSide(a)
    ensures LayerInv(t, a.i)
  {
  }

  lemma BuildStepKeepsLayer(s: State, a: Action, t: State)
    requires OwnStepReady(s, a, t) && a.EndBuild?
    ensures LayerInv(t, a.i)
  {
  }

  lemma StoreStepKeepsLayer(s: State, a: Action, t: State)
    requires OwnStepReady(s, a, t) && StoreSide(a)
    ensures LayerInv(t, a.i)
  {
  }

  lemma WaitStepKeepsLayer(s: State, a: Action, t: State)
    requires OwnStepReady(s, a, t) && WaitSide(a)
    ensures LayerInv(t, a.i)
  {
  }

  lemma SendStepKeepsLayer(s: State, a: Action, t: State)
    requires OwnStepReady(s, a, t) && SendSide(a)
    ensures LayerInv(t, a.i)
  {
  }

  lemma AppliedToOwn(s: State, a: Action)
    requires |s.engine.layers| == |s.layers| && Enabled(s, a) && !a.Cancel?
    ensures var t := Apply(s, a);
      && t.layers[a.i] == Move(s, a).value && t.engine.layers[a.i] == EngineAfter(s, a).layers[a.i]
      && t.failed == (s.failed || Reports(a))
  {
  }

  lemma EffectsBelow(s: State, a: Action, t: State)
    requires Inv(s) && Effects(s, a, t) && !a.Cancel?
    ensures a.i > 0 && BuildReturned(s.layers[a.i - 1].convert) ==> BuildReturned(t.layers[a.i - 1].convert)
    ensures BuiltLowers(t.layers, a.i) == BuiltLowers(s.layers, a.i)
    ensures a.EndBuild? ==> s.engine.lowers == BaseLowers(s.engine.mkfs) + BuiltLowers(s.layers, a.i)
  {
    OtherBuiltOk(s, a, t, a.i);
    if a.EndBuild? {
      BuildingIsLatest(s, a.i);
      assert BuiltLowers(s.layers, a.i + 1) == BuiltLowers(s.layers, a.i);
    }
  }

  lemma StepIsReady(s: State, a: Action)
    requires Inv(s) && Enabled(s, a) && !a.Cancel?
    ensures OwnStepReady(s, a, Apply(s, a))
  {
    StepEffects(s, a);
    AppliedToOwn(s, a);
    EffectsBelow(s, a, Apply(s, a));
    assert LayerInv(s, a.i);
    assert a.i > 0 ==> LayerInv(s, a.i - 1);
  }

  lemma KeepsOwnLayer(s: State, a: Action)
    requires Inv(s) && Enabled(s, a) && !a.Cancel?
    ensures LayerInv(Apply(s, a), a.i)
  {
    StepIsReady(s, a);
    if DownloadSide(a) {
      DownloadStepKeepsLayer(s, a, Apply(s, a));
    } else if UploadSide(a) {
      UploadStepKeepsLayer(s, a, Apply(s, a));
    } else if a.EndBuild? {
      BuildStepKeepsLayer(s, a, Apply(s, a));
    } else if StoreSide(a) {
      StoreStepKeepsLayer(s, a, Apply(s, a));
    } else if WaitSide(a) {
      WaitStepKeepsLayer(s, a, Apply(s, a));
    } else {
      SendStepKeepsLayer(s, a, Apply(s, a));
    }
  }

  lemma StepKeepsInv(s: State, a: Action)
    requires Inv(s) && Enabled(s, a)
    ensures Inv(Apply(s, a))
  {
    var t := Apply(s, a);
    StepEffects(s, a);
    KeepsOrder(s, a, t);
    KeepsLowers(s, a, t);
    KeepsRows(s, a, t);
    forall i: nat | i < |s.layers| ensures LayerInv(t, i) {
      if !a.Cancel? && a.i == i { KeepsOwnLayer(s, a); } else { KeepsOtherLayer(s, a, t, i); }
    }
  }
}
