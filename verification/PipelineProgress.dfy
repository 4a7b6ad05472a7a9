/** The pipeline never deadlocks and always ends, whatever fails and whenever it
    is cancelled. */
module PipelineProgress {
  import opened Wrappers
  import opened BuilderEngine
  import opened Counting
  import opened LayerPipeline
  import opened PipelineHistory
  import opened PipelineRuns

  // ---------- Every run is bounded ----------

  function DedupRank(d: DedupPc): nat {
    match d
    case Checking => 3
    case Offering(_) => 2
    case ClosingDedup => 1
    case DedupEnded => 0
  }

  function DownloadRank(w: DownloadPc): nat {
    match w
    case AwaitDedup => 6
    case FetchingConverted(_) => 5
    case FetchingLayer => 4
    case Announcing => 3
    case ClosingDownload(_) => 2
    case ReportingDownload => 1
    case DownloadEnded(_) => 0
  }

  function ConvertRank(c: ConvertPc): nat {
    match c
    case AwaitDownload => 9
    case AfterDownload => 8
    case AwaitPrevious => 7
    case AfterPrevious => 6
    case Building => 5
    case FirstSend => 4
    case SecondSend => 3
    case ClosingConvert(_) => 2
    case ReportingConvert(_) => 1
    case ConvertEnded(_) => 0
  }

  function UploadRank(u: UploadPc): nat {
    match u
    case AwaitConverted => 5
    case AfterConverted => 4
    case UploadingLayer => 3
    case StoringDetails => 2
    case ReportingUpload => 1
    case UploadEnded(_) => 0
  }

  /** How many more steps a layer's four goroutines can take. */
  function Rank(l: Layer): nat {
    DedupRank(l.dedup) + DownloadRank(l.download) + ConvertRank(l.convert) + UploadRank(l.upload)
  }

  function Remaining(s: State): nat {
    Total(Rank, s.layers) + if s.cancelled then 0 else 1
  }

  lemma OwnRankDecreases(s: State, a: Action)
    requires |s.engine.layers| == |s.layers| && Enabled(s, a) && !a.Cancel?
    ensures Rank(Move(s, a).value) < Rank(s.layers[a.i])
  {
  }

  lemma StepDecreases(s: State, a: Action)
    requires |s.engine.layers| == |s.layers| && Enabled(s, a)
    ensures Remaining(Apply(s, a)) < Remaining(s)
  {
    if !a.Cancel? {
      OwnRankDecreases(s, a);
      ResultDecreases(s, a, Move(s, a).value, Apply(s, a));
    }
  }

  lemma ResultDecreases(s: State, a: Action, l: Layer, t: State)
    requires !a.Cancel? && a.i < |s.layers| && Rank(l) < Rank(s.layers[a.i])
    requires a.SendToNext? ==> a.i + 1 < |s.layers| && s.layers[a.i + 1].convert.AwaitPrevious?
    requires t.layers == Result(s, a, l, t.engine).layers && (s.cancelled ==> t.cancelled)
    ensures Remaining(t) < Remaining(s)
  {
    TotalUpdate(Rank, s.layers, a.i, l);
    if a.SendToNext? {
      var next := s.layers[a.i + 1];
      TotalUpdate(Rank, s.layers[a.i := l], a.i + 1, next.(convert := AfterPrevious));
    }
  }

  lemma {:induction false} RunDecreases(s: State, acts: seq<Action>, t: State)
    requires Run(s, acts, t)
    ensures |acts| + Remaining(t) <= Remaining(s)
    decreases |acts|
  {
    if acts != [] {
      StepDecreases(s, acts[0]);
      RunDecreases(Apply(s, acts[0]), acts[1..], t);
    }
  }

  /** No run takes more than 23 steps for each layer, plus one. */
  lemma EveryRunIsBounded(s: State, acts: seq<Action>, t: State)
    requires Init(s) && Run(s, acts, t)
    ensures |acts| <= 23 * |s.layers| + 1
  {
    TotalConstant(Rank, s.layers, 23);
    RunDecreases(s, acts, t);
  }

  // ---------- No reachable state is stuck ----------

  /** The convert goroutine has stopped waiting for its predecessor. */
  predicate PastPrevious(c: ConvertPc) {
    !(c.AwaitDownload? || c.AfterDownload? || c.AwaitPrevious?)
  }

  predicate BeforeSend(c: ConvertPc) {
    !PastPrevious(c) || c.AfterPrevious? || c.Building? || c.FirstSend?
  }

  /** The convert goroutine has sent its success and will not send again. */
  predicate SentAll(c: ConvertPc) {
    (c.ClosingConvert? || ConvertClosed(c)) && c.out == Converted
  }

  /** While the context is live nobody gives up on a rendezvous: the partner of
      every pending send has not run away, and of the two sends of a success each
      reaches another receiver. */
  ghost predicate PartnersWait(s: State, i: nat)
    requires i < |s.layers|
  {
    var l := s.layers[i];
    && (l.convert.SecondSend? ==> i + 1 < |s.layers|)
    && (!s.cancelled ==>
      && (l.dedup.Checking? || l.dedup.Offering? ==> l.download.AwaitDedup?)
      && (DownloadRank(l.download) >= 3 ==> l.convert.AwaitDownload?)
      && (BeforeSend(l.convert) ==> l.upload.AwaitConverted?)
      && (BeforeSend(l.convert) && i + 1 < |s.layers| ==> !PastPrevious(s.layers[i + 1].convert))
      && (l.convert.SecondSend? ==> (!l.upload.AwaitConverted? <==> !PastPrevious(s.layers[i + 1].convert)))
      && (SentAll(l.convert) ==>
           !l.upload.AwaitConverted? && (i + 1 < |s.layers| ==> PastPrevious(s.layers[i + 1].convert))))
  }

  lemma OwnStepKeepsPartners(s: State, a: Action, t: State)
    requires |s.engine.layers| == |s.layers| == |t.layers| && Enabled(s, a) && !a.Cancel? && PartnersWait(s, a.i)
    requires t.layers[a.i] == Move(s, a).value && (s.cancelled ==> t.cancelled)
    requires a.i + 1 < |s.layers| ==>
      PastPrevious(t.layers[a.i + 1].convert) == (PastPrevious(s.layers[a.i + 1].convert) || a.SendToNext?)
    ensures PartnersWait(t, a.i)
  {
  }

  /** A step of the layer above passes the wait only after this layer's send or
      close, or cancelled. */
  lemma NextStepWaits(s: State, a: Action)
    requires |s.engine.layers| == |s.layers| && Enabled(s, a) && !a.Cancel? && a.i > 0
    requires PastPrevious(Move(s, a).value.convert)
    ensures PastPrevious(s.layers[a.i].convert) || s.cancelled || ConvertClosed(s.layers[a.i - 1].convert)
  {
  }

  lemma PastStays(s: State, a: Action)
    requires |s.engine.layers| == |s.layers| && Enabled(s, a) && !a.Cancel?
    ensures PastPrevious(s.layers[a.i].convert) ==> PastPrevious(Move(s, a).value.convert)
  {
  }

  /** Another layer's step, seen from layer i and from the one above it. */
  lemma OtherMoveKeepsPartners(s: State, t: State, i: nat)
    requires i < |s.layers| == |t.layers| && PartnersWait(s, i) && (s.cancelled ==> t.cancelled)
    requires t.layers[i] == s.layers[i]
      || (s.layers[i].convert.AwaitPrevious? && t.layers[i] == s.layers[i].(convert := AfterPrevious))
    requires i + 1 < |s.layers| && PastPrevious(t.layers[i + 1].convert) ==>
      PastPrevious(s.layers[i + 1].convert) || s.cancelled || ConvertClosed(s.layers[i].convert)
    requires i + 1 < |s.layers| && PastPrevious(s.layers[i + 1].convert) ==> PastPrevious(t.layers[i + 1].convert)
    ensures PartnersWait(t, i)
  {
  }

  lemma OtherStepKeepsPartners(s: State, a: Action, t: State, i: nat)
    requires |s.engine.layers| == |s.layers| == |t.layers| && Enabled(s, a) && !a.Cancel?
    requires i < |s.layers| && a.i != i && PartnersWait(s, i) && (s.cancelled ==> t.cancelled)
    requires t.layers == Result(s, a, Move(s, a).value, s.engine).layers
    ensures PartnersWait(t, i)
  {
    PastStays(s, a);
    if a.i == i + 1 && PastPrevious(t.layers[a.i].convert) {
      NextStepWaits(s, a);
    }
    OtherMoveKeepsPartners(s, t, i);
  }

  lemma KeepsPartners(s: State, a: Action, i: nat)
    requires |s.engine.layers| == |s.layers| && Enabled(s, a) && i < |s.layers|
    requires PartnersWait(s, i)
    ensures PartnersWait(Apply(s, a), i)
  {
    if !a.Cancel? {
      if a.i == i {
        OwnStepKeepsPartners(s, a, Apply(s, a));
      } else {
        OtherStepKeepsPartners(s, a, Apply(s, a), i);
      }
    }
  }

  lemma {:induction false} RunKeepsPartners(s: State, acts: seq<Action>, t: State)
    requires Run(s, acts, t) && forall j :: 0 <= j < |s.layers| ==> PartnersWait(s, j)
    ensures |t.layers| == |s.layers| == |t.engine.layers| && forall j :: 0 <= j < |t.layers| ==> PartnersWait(t, j)
    decreases |acts|
  {
    if acts != [] {
      var m := Apply(s, acts[0]);
      forall j: nat | j < |s.layers| ensures PartnersWait(m, j) {
        KeepsPartners(s, acts[0], j);
      }
      RunKeepsPartners(m, acts[1..], t);
    }
  }

  /** In every run, as long as the context is live, a convert goroutine that has ended
      with a success has handed it to its own upload and to the next layer's convert
      goroutine, once each. */
  lemma SuccessReachesBoth(s: State, acts: seq<Action>, t: State, i: nat)
    requires Init(s) && Run(s, acts, t) && !t.cancelled && i < |t.layers| && SentAll(t.layers[i].convert)
    ensures !t.layers[i].upload.AwaitConverted?
    ensures i + 1 < |t.layers| ==> PastPrevious(t.layers[i + 1].convert)
  {
    RunKeepsPartners(s, acts, t);
    assert PartnersWait(t, i);
  }

  /** Steps that need neither the caller nor the cache, and with which nothing fails. */
  predicate Smooth(a: Action) {
    !Faulty(a) && !a.CheckHit? && !(a.EndConvertedDownload? && a.result.Fetched?)
  }

  /** Such a step is possible. */
  ghost predicate CanMove(s: State) {
    |s.engine.layers| == |s.layers| && exists a: Action :: Smooth(a) && Enabled(s, a)
  }

  lemma Moves(s: State, a: Action)
    requires |s.engine.layers| == |s.layers| && Enabled(s, a) && Smooth(a)
    ensures CanMove(s)
  {
  }

  lemma DownloadSideMoves(s: State, i: nat)
    requires i < |s.layers| == |s.engine.layers| && PartnersWait(s, i)
    requires !(s.layers[i].dedup.DedupEnded? && s.layers[i].download.DownloadEnded?)
    ensures CanMove(s)
  {
    match s.layers[i].dedup
    case Checking => Moves(s, CheckMiss(i));
    case Offering(_) => Moves(s, if s.cancelled then DropOffer(i) else HandOver(i));
    case ClosingDedup => Moves(s, CloseDedup(i));
    case DedupEnded =>
      match s.layers[i].download {
        case AwaitDedup => Moves(s, NothingCached(i));
        case FetchingConverted(_) => Moves(s, EndConvertedDownload(i, CachedDownload.Failed(None)));
        case FetchingLayer => Moves(s, EndDownload(i, true));
        case Announcing => Moves(s, if s.cancelled then DropAnnounce(i) else Announce(i));
        case ClosingDownload(_) => Moves(s, CloseDownload(i));
        case ReportingDownload => Moves(s, ReportDownload(i));
      }
  }

  /** A convert goroutine that waits for its layer's download or for the layer
      below, both of which have ended, moves. */
  lemma WaitMoves(s: State, i: nat)
    requires i < |s.layers| == |s.engine.layers| && !PastPrevious(s.layers[i].convert)
    requires s.layers[i].download.DownloadEnded?
    requires i > 0 ==> s.layers[i - 1].convert.ConvertEnded?
    requires s.layers[i].convert.AwaitPrevious? ==> i > 0
    ensures CanMove(s)
  {
    match s.layers[i].convert
    case AwaitDownload => Moves(s, NoticeDownload(i));
    case AfterDownload => Moves(s, PassDownload(i));
    case AwaitPrevious => Moves(s, NoticePrevious(i));
  }

  /** The lowest unfinished convert goroutine, or the partner it waits for, moves. */
  lemma ConvertMoves(s: State, i: nat)
    requires i < |s.layers| == |s.engine.layers| && PartnersWait(s, i) && !s.layers[i].convert.ConvertEnded?
    requires i > 0 ==> s.layers[i - 1].convert.ConvertEnded?
    requires s.layers[i].convert.AwaitPrevious? ==> i > 0
    requires forall j :: 0 <= j < |s.layers| ==> s.layers[j].download.DownloadEnded?
    ensures CanMove(s)
  {
    if !PastPrevious(s.layers[i].convert) {
      WaitMoves(s, i);
    } else if s.layers[i].convert.SecondSend? {
      SecondSendMoves(s, i);
    } else {
      PastWaitMoves(s, i);
    }
  }

  lemma PastWaitMoves(s: State, i: nat)
    requires i < |s.layers| == |s.engine.layers| && PartnersWait(s, i) && PastPrevious(s.layers[i].convert)
    requires !s.layers[i].convert.SecondSend? && !s.layers[i].convert.ConvertEnded?
    ensures CanMove(s)
  {
    match s.layers[i].convert
    case AfterPrevious => Moves(s, PassPrevious(i));
    case Building => Moves(s, EndBuild(i, Succeeds(NO_DIGEST)));
    case FirstSend => Moves(s, if s.cancelled then DropSend(i) else SendToUpload(i));
    case ClosingConvert(_) => Moves(s, CloseConvert(i));
    case ReportingConvert(_) => Moves(s, ReportConvert(i));
  }

  lemma SecondSendMoves(s: State, i: nat)
    requires i < |s.layers| == |s.engine.layers| && PartnersWait(s, i) && s.layers[i].convert.SecondSend?
    requires forall j :: 0 <= j < |s.layers| ==> s.layers[j].download.DownloadEnded?
    ensures CanMove(s)
  {
    if s.cancelled {
      Moves(s, DropSend(i));
    } else if s.layers[i].upload.AwaitConverted? {
      Moves(s, SendToUpload(i));
    } else {
      match s.layers[i + 1].convert
      case AwaitDownload => Moves(s, NoticeDownload(i + 1));
      case AfterDownload => Moves(s, PassDownload(i + 1));
      case AwaitPrevious => Moves(s, SendToNext(i));
    }
  }

  lemma UploadMoves(s: State, i: nat)
    requires i < |s.layers| == |s.engine.layers|
    requires s.layers[i].convert.ConvertEnded? && !s.layers[i].upload.UploadEnded?
    ensures CanMove(s)
  {
    match s.layers[i].upload
    case AwaitConverted => Moves(s, NoticeConverted(i));
    case AfterConverted => Moves(s, PassConverted(i));
    case UploadingLayer => Moves(s, EndUpload(i, true));
    case StoringDetails => Moves(s, EndStore(i));
    case ReportingUpload => Moves(s, ReportUpload(i));
  }

  lemma LowestUnfinished(s: State) returns (i: nat)
    requires exists j :: 0 <= j < |s.layers| && !s.layers[j].convert.ConvertEnded?
    ensures i < |s.layers| && !s.layers[i].convert.ConvertEnded?
    ensures forall j :: 0 <= j < i ==> s.layers[j].convert.ConvertEnded?
  {
    i := 0;
    while s.layers[i].convert.ConvertEnded?
      invariant i < |s.layers| && forall j :: 0 <= j < i ==> s.layers[j].convert.ConvertEnded?
      decreases |s.layers| - i
    {
      i := i + 1;
    }
  }

  /** Only layers above the first wait for a predecessor. */
  lemma {:induction false} RunKeepsPredecessors(s: State, acts: seq<Action>, t: State)
    requires Run(s, acts, t) && (|s.layers| > 0 ==> !s.layers[0].convert.AwaitPrevious?)
    ensures |t.layers| > 0 ==> !t.layers[0].convert.AwaitPrevious?
    decreases |acts|
  {
    if acts != [] {
      RunKeepsPredecessors(Apply(s, acts[0]), acts[1..], t);
    }
  }

  /** Deadlock freedom: in every reachable state in which some goroutine has not
      returned, some step of the builder is enabled, with nobody's help, and it
      does not have to be a failure. */
  lemma NoDeadlock(s: State, acts: seq<Action>, t: State)
    requires Init(s) && Run(s, acts, t) && !WaitReturns(t)
    ensures CanMove(t)
  {
    RunKeepsPartners(s, acts, t);
    RunKeepsPredecessors(s, acts, t);
    if i :| 0 <= i < |t.layers| && !(t.layers[i].dedup.DedupEnded? && t.layers[i].download.DownloadEnded?) {
      DownloadSideMoves(t, i);
    } else if exists j :: 0 <= j < |t.layers| && !t.layers[j].convert.ConvertEnded? {
      var i := LowestUnfinished(t);
      ConvertMoves(t, i);
    } else {
      var i :| 0 <= i < |t.layers| && !t.layers[i].upload.UploadEnded?;
      UploadMoves(t, i);
    }
  }

  lemma {:induction false} RunSnoc(s: State, acts: seq<Action>, m: State, a: Action)
    requires Run(s, acts, m) && |m.engine.layers| == |m.layers| && Enabled(m, a)
    ensures Run(s, acts + [a], Apply(m, a))
    decreases |acts|
  {
    if acts == [] {
      assert Run(Apply(m, a), [], Apply(m, a));
    } else {
      assert (acts + [a])[1..] == acts[1..] + [a];
      RunSnoc(Apply(s, acts[0]), acts[1..], m, a);
    }
  }

  /** Wait always returns: every reachable state has a continuation, without
      outside help or a further failure, that ends, and no continuation is longer
      than what remains. */
  lemma {:induction false} WaitIsReached(s: State, acts: seq<Action>, t: State) returns (more: seq<Action>, u: State)
    requires Init(s) && Run(s, acts, t)
    ensures Run(t, more, u) && WaitReturns(u) && |more| <= Remaining(t)
    ensures forall a :: a in more ==> Smooth(a)
    decreases Remaining(t)
  {
    RunKeepsPartners(s, acts, t);
    if WaitReturns(t) {
      more, u := [], t;
    } else {
      NoDeadlock(s, acts, t);
      var a :| Enabled(t, a) && Smooth(a);
      StepDecreases(t, a);
      RunSnoc(s, acts, t, a);
      more, u := WaitIsReached(s, acts + [a], Apply(t, a));
      more := [a] + more;
    }
  }

  lemma {:induction false} RunsJoin(s: State, acts: seq<Action>, m: State, more: seq<Action>, t: State)
    requires Run(s, acts, m) && Run(m, more, t)
    ensures Run(s, acts + more, t)
    decreases |acts|
  {
    if acts == [] {
      assert acts + more == more;
    } else {
      assert (acts + more)[1..] == acts[1..] + more;
      RunsJoin(Apply(s, acts[0]), acts[1..], m, more, t);
    }
  }

  /** As long as nothing has failed, the conversion can still succeed: every
      fault-free run continues to one in which Wait returns nil. */
  lemma FaultFreeRunCanSucceed(s: State, acts: seq<Action>, t: State) returns (more: seq<Action>, u: State)
    requires Init(s) && Run(s, acts, t) && FaultFree(acts)
    ensures Run(t, more, u) && Succeeded(u)
  {
    more, u := WaitIsReached(s, acts, t);
    RunsJoin(s, acts, t, more, u);
    SmoothEnd(acts, more);
    FaultFreeRunsSucceed(s, acts + more, u);
  }

  lemma SmoothEnd(acts: seq<Action>, more: seq<Action>)
    requires FaultFree(acts) && forall a :: a in more ==> Smooth(a)
    ensures FaultFree(acts + more)
  {
    forall a | a in acts + more ensures a in acts || Smooth(a) {
    }
  }
}
