/** overlaybdBuilder.Build (cmd/convertor/builder/builder.go:408-511) as a state
    machine: four goroutines for each of n layers, joined by unbuffered
    channels, selects on a shared context and deferred closes, under one
    errgroup.

    A goroutine is a program counter.  A send that meets its receiver moves both
    at once.  A channel is closed exactly when its owner is past its deferred
    close; the errgroup records a failure, and cancels the context, in a later
    step of its own.  How every engine call ends is chosen by the step. */
module LayerPipeline {
  import opened Wrappers
  import opened BuilderEngine

  // ---------- State ----------

  /** Deduplication goroutine; owns `alreadyConverted`, closed once Ended. */
  datatype DedupPc = Checking | Offering(desc: Digest) | ClosingDedup | DedupEnded

  /** Download goroutine; owns `downloaded`, closed from Reporting on. */
  datatype DownloadPc =
    | AwaitDedup
    | FetchingConverted(desc: Digest)
    | FetchingLayer
    | Announcing
    | ClosingDownload(ok: bool)
    | ReportingDownload
    | DownloadEnded(ok: bool)

  /** Why a convert goroutine returned. */
  datatype Outcome = Converted | BuildFailed | Aborted

  /** Convert goroutine; owns `converted`, closed from Reporting on. */
  datatype ConvertPc =
    | AwaitDownload
    | AfterDownload
    | AwaitPrevious
    | AfterPrevious
    | Building
    | FirstSend
    | SecondSend
    | ClosingConvert(out: Outcome)
    | ReportingConvert(out: Outcome)
    | ConvertEnded(out: Outcome)

  datatype UploadPc =
    | AwaitConverted
    | AfterConverted
    | UploadingLayer
    | StoringDetails
    | ReportingUpload
    | UploadEnded(ok: bool)

  datatype Layer = Layer(dedup: DedupPc, download: DownloadPc, convert: ConvertPc, upload: UploadPc)

  /** - `cancelled`: the group's context is done;
      - `failed`: the errgroup holds an error, so Wait will return it;
      - `builds`: the BuildLayer calls in the order in which they started. */
  datatype State = State(
    layers: seq<Layer>, engine: EngineState, builds: seq<nat>, cancelled: bool, failed: bool)

  const FRESH_LAYER := Layer(Checking, AwaitDedup, AwaitDownload, AwaitConverted)

  ghost predicate Init(s: State) {
    && (forall i :: 0 <= i < |s.layers| ==> s.layers[i] == FRESH_LAYER)
    && |s.engine.layers| == |s.layers|
    && FreshEngine(s.engine)
    && s.builds == []
    && !s.cancelled && !s.failed
  }

  // ---------- Steps ----------

  datatype Action =
    | Cancel                                                    // the caller's context
    | CheckHit(i: nat, desc: Digest)                            // CheckForConvertedLayer
    | CheckMiss(i: nat)
    | HandOver(i: nat)                                          // alreadyConverted <-
    | DropOffer(i: nat)
    | CloseDedup(i: nat)
    | NothingCached(i: nat)
    | EndConvertedDownload(i: nat, result: CachedDownload)      // DownloadConvertedLayer
    | EndDownload(i: nat, ok: bool)                             // DownloadLayer
    | Announce(i: nat)                                          // downloaded <-
    | DropAnnounce(i: nat)
    | CloseDownload(i: nat)
    | ReportDownload(i: nat)
    | NoticeDownload(i: nat)                                    // waitForChannel without a sender
    | PassDownload(i: nat)                                      // rctx.Err()
    | NoticePrevious(i: nat)
    | PassPrevious(i: nat)
    | EndBuild(i: nat, run: ToolRun)                            // BuildLayer
    | SendToUpload(i: nat)                                      // converted <-
    | SendToNext(i: nat)
    | DropSend(i: nat)
    | CloseConvert(i: nat)
    | ReportConvert(i: nat)
    | NoticeConverted(i: nat)
    | PassConverted(i: nat)
    | EndUpload(i: nat, pushed: bool)                           // UploadLayer
    | EndStore(i: nat)                                          // StoreConvertedLayerDetails
    | ReportUpload(i: nat)

  predicate DownloadClosed(w: DownloadPc) {
    w.ReportingDownload? || w.DownloadEnded?
  }

  predicate ConvertClosed(c: ConvertPc) {
    c.ReportingConvert? || c.ConvertEnded?
  }

  predicate Sending(c: ConvertPc) {
    c.FirstSend? || c.SecondSend?
  }

  /** Two sends when there is a next layer, one otherwise. */
  function AfterSend(c: ConvertPc, i: nat, n: nat): ConvertPc {
    if c.FirstSend? && i + 1 < n then SecondSend else ClosingConvert(Converted)
  }

  function When(enabled: bool, l: Layer): Option<Layer> {
    if enabled then Some(l) else None
  }

  /** When a step is possible, and what it does to its own layer's goroutines.
      A select takes its context branch only once the context is cancelled; a
      goroutine past a wait looks at the context once more before it goes on. */
  function Move(s: State, a: Action): Option<Layer>
    requires |s.engine.layers| == |s.layers| && !a.Cancel? && a.i < |s.layers|
  {
    var l, i, n := s.layers[a.i], a.i, |s.layers|;
    match a
    case CheckHit(_, desc) => When(l.dedup.Checking? && s.engine.kind == Overlaybd, l.(dedup := Offering(desc)))
    case CheckMiss(_) => When(l.dedup.Checking?, l.(dedup := ClosingDedup))
    case HandOver(_) =>
      if l.dedup.Offering? && l.download.AwaitDedup?
      then Some(l.(dedup := ClosingDedup, download := FetchingConverted(l.dedup.desc))) else None
    case DropOffer(_) => When(l.dedup.Offering? && s.cancelled, l.(dedup := ClosingDedup))
    case CloseDedup(_) => When(l.dedup.ClosingDedup?, l.(dedup := DedupEnded))
    case NothingCached(_) =>
      When(l.download.AwaitDedup? && (s.cancelled || l.dedup.DedupEnded?), l.(download := FetchingLayer))
    case EndConvertedDownload(_, result) =>
      When(l.download.FetchingConverted?, l.(download := if result.Fetched? then Announcing else FetchingLayer))
    case EndDownload(_, ok) =>
      When(l.download.FetchingLayer?, l.(download := if ok then Announcing else ClosingDownload(false)))
    case Announce(_) =>
      When(l.download.Announcing? && l.convert.AwaitDownload?,
        l.(download := ClosingDownload(true), convert := AfterDownload))
    case DropAnnounce(_) => When(l.download.Announcing? && s.cancelled, l.(download := ClosingDownload(true)))
    case CloseDownload(_) =>
      if l.download.ClosingDownload?
      then Some(l.(download := if l.download.ok then DownloadEnded(true) else ReportingDownload)) else None
    case ReportDownload(_) => When(l.download.ReportingDownload?, l.(download := DownloadEnded(false)))
    case NoticeDownload(_) =>
      When(l.convert.AwaitDownload? && (s.cancelled || DownloadClosed(l.download)), l.(convert := AfterDownload))
    case PassDownload(_) =>
      When(l.convert.AfterDownload?, l.(convert :=
        if s.cancelled then ClosingConvert(Aborted) else if i > 0 then AwaitPrevious else Building))
    case NoticePrevious(_) =>
      When(l.convert.AwaitPrevious? && i > 0 && (s.cancelled || ConvertClosed(s.layers[i - 1].convert)),
        l.(convert := AfterPrevious))
    case PassPrevious(_) =>
      When(l.convert.AfterPrevious?, l.(convert := if s.cancelled then ClosingConvert(Aborted) else Building))
    case EndBuild(_, run) =>
      When(l.convert.Building?, l.(convert :=
        if BuildLayerResult(s.engine, i, run).1 == None then FirstSend else ClosingConvert(BuildFailed)))
    case SendToUpload(_) =>
      When(Sending(l.convert) && l.upload.AwaitConverted?,
        l.(convert := AfterSend(l.convert, i, n), upload := AfterConverted))
    case SendToNext(_) =>
      When(Sending(l.convert) && i + 1 < n && s.layers[i + 1].convert.AwaitPrevious?,
        l.(convert := AfterSend(l.convert, i, n)))
    case DropSend(_) => When(Sending(l.convert) && s.cancelled, l.(convert := AfterSend(l.convert, i, n)))
    case CloseConvert(_) =>
      if l.convert.ClosingConvert? then Some(l.(convert :=
        if l.convert.out == Converted then ConvertEnded(Converted) else ReportingConvert(l.convert.out))) else None
    case ReportConvert(_) =>
      if l.convert.ReportingConvert? then Some(l.(convert := ConvertEnded(l.convert.out))) else None
    case NoticeConverted(_) =>
      When(l.upload.AwaitConverted? && (s.cancelled || ConvertClosed(l.convert)), l.(upload := AfterConverted))
    case PassConverted(_) =>
      When(l.upload.AfterConverted?, l.(upload := if s.cancelled then ReportingUpload else UploadingLayer))
    case EndUpload(_, pushed) =>
      When(l.upload.UploadingLayer?,
        l.(upload := if UploadLayerResult(s.engine, i, pushed).1 then StoringDetails else ReportingUpload))
    case EndStore(_) => When(l.upload.StoringDetails?, l.(upload := UploadEnded(true)))
    case ReportUpload(_) => When(l.upload.ReportingUpload?, l.(upload := UploadEnded(false)))
  }

  predicate Enabled(s: State, a: Action)
    requires |s.engine.layers| == |s.layers|
  {
    if a.Cancel? then !s.cancelled else a.i < |s.layers| && Move(s, a).Some?
  }

  /** What the engine call that a step ends has done. */
  function EngineAfter(s: State, a: Action): (e: EngineState)
    requires |s.engine.layers| == |s.layers| && Enabled(s, a) && !a.Cancel?
    ensures |e.layers| == |s.layers|
  {
    match a
    case EndConvertedDownload(i, result) => DownloadConvertedResult(s.engine, i, s.layers[i].download.desc, result)
    case EndBuild(i, run) => BuildLayerResult(s.engine, i, run).0
    case EndUpload(i, pushed) => UploadLayerResult(s.engine, i, pushed).0
    case EndStore(i) => StoreLayerResult(s.engine, i)
    case _ => s.engine
  }

  /** The errgroup records an error, keeping the first, and cancels the context. */
  predicate Reports(a: Action) {
    a.ReportDownload? || a.ReportConvert? || a.ReportUpload?
  }

  /** The state once a step has put its own layer's goroutines in `l` and the
      engine in `e`; a send that meets the next layer moves that one along. */
  function Result(s: State, a: Action, l: Layer, e: EngineState): State
    requires !a.Cancel? && a.i < |s.layers| && (a.SendToNext? ==> a.i + 1 < |s.layers|)
  {
    var layers := s.layers[a.i := l];
    State(
      if a.SendToNext? then layers[a.i + 1 := layers[a.i + 1].(convert := AfterPrevious)] else layers,
      e,
      if l.convert.Building? && !s.layers[a.i].convert.Building? then s.builds + [a.i] else s.builds,
      s.cancelled || Reports(a),
      s.failed || Reports(a))
  }

  function Apply(s: State, a: Action): (t: State)
    requires |s.engine.layers| == |s.layers| && Enabled(s, a)
    ensures |t.engine.layers| == |t.layers| == |s.layers|
  {
    if a.Cancel? then s.(cancelled := true) else Result(s, a, Move(s, a).value, EngineAfter(s, a))
  }

  /** `acts` leads from `s` to `t`. */
  ghost predicate Run(s: State, acts: seq<Action>, t: State)
    decreases |acts|
  {
    && |s.engine.layers| == |s.layers|
    && if acts == [] then s == t else Enabled(s, acts[0]) && Run(Apply(s, acts[0]), acts[1..], t)
  }

  /** Outcomes that are failures of something outside, and the caller's cancellation. */
  predicate Faulty(a: Action) {
    || a.Cancel?
    || (a.EndDownload? && !a.ok)
    || (a.EndConvertedDownload? && a.result.Failed? && a.result.left.Some?)
    || (a.EndBuild? && !a.run.Succeeds?)
    || (a.EndUpload? && !a.pushed)
  }

  /** All goroutines have returned, so Wait returns. */
  ghost predicate WaitReturns(s: State) {
    forall i :: 0 <= i < |s.layers| ==>
      var l := s.layers[i];
      l.dedup.DedupEnded? && l.download.DownloadEnded? && l.convert.ConvertEnded? && l.upload.UploadEnded?
  }
}
