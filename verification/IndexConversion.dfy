/** graphBuilder.Build, process and buildOne (cmd/convertor/builder/builder.go:108-321)
    as a state machine: one goroutine for the root descriptor and one for every
    converted entry of every index below it, all in one errgroup; each index
    waits for its children on a WaitGroup, children write their targets into
    their parent's manifest list in place, and a counting semaphore bounds how
    many manifests are built at once. */
module IndexConversion {
  import opened Wrappers

  // ---------- Descriptors ----------

  datatype MediaType = OCIManifest | DockerManifest | OCIIndex | DockerList | OtherType

  /** Content addresses, idealised as collision free: the digest of an index
      stands for the index, so a descriptor is the tree below it. */
  datatype Digest = Blob(id: nat) | IndexDigest(index: Index)

  datatype Index = Index(
    mediaType: MediaType, manifests: seq<Desc>, artifactType: string, subject: Option<Subject>)

  datatype Subject = Subject(mediaType: MediaType, digest: Digest, size: nat)

  datatype Desc = Desc(
    mediaType: MediaType, digest: Digest, size: nat, annotations: map<string, string>, platform: Option<string>)

  const ATTESTATION_KEY := "vnd.docker.reference.type"
  const ATTESTATION_TYPE := "attestation-manifest"

  predicate IsAttestation(d: Desc) {
    ATTESTATION_KEY in d.annotations && d.annotations[ATTESTATION_KEY] == ATTESTATION_TYPE
  }

  predicate IsManifest(d: Desc) {
    d.mediaType.OCIManifest? || d.mediaType.DockerManifest?
  }

  predicate IsIndex(d: Desc) {
    d.mediaType.OCIIndex? || d.mediaType.DockerList?
  }

  /** The entries of the index that a descriptor names; a blob under an index
      media type does not unmarshal. */
  function Entries(d: Desc): seq<Desc> {
    if IsIndex(d) && d.digest.IndexDigest? then d.digest.index.manifests else []
  }

  /** The filter that drops attestation manifests, keeping the order. */
  function Keep(ms: seq<Desc>): seq<Desc> {
    if ms == [] then []
    else if IsAttestation(ms[0]) then Keep(ms[1..])
    else [ms[0]] + Keep(ms[1..])
  }

  lemma {:induction false} KeepAppend(a: seq<Desc>, b: seq<Desc>)
    ensures Keep(a + b) == Keep(a) + Keep(b)
  {
    if a == [] {
      assert a + b == b;
    } else {
      assert (a + b)[1..] == a[1..] + b;
      KeepAppend(a[1..], b);
    }
  }

  lemma {:induction false} KeptEntries(ms: seq<Desc>)
    ensures forall m :: m in Keep(ms) <==> m in ms && !IsAttestation(m)
  {
    if ms != [] {
      KeptEntries(ms[1..]);
      assert ms == [ms[0]] + ms[1..];
    }
  }

  /** The filter as the source runs it: it appends to the empty prefix of the
      very list it ranges over. */
  method FilterInPlace(manifests: array<Desc>) returns (n: nat)
    modifies manifests
    ensures n <= manifests.Length && manifests[..n] == Keep(old(manifests[..]))
    ensures forall m :: m in manifests[..n] <==> (m in old(manifests[..]) &&
      !(ATTESTATION_KEY in m.annotations && m.annotations[ATTESTATION_KEY] == ATTESTATION_TYPE))
  {
    n := 0;
    for i := 0 to manifests.Length
      invariant n <= i
      invariant manifests[..n] == Keep(old(manifests[..i]))
      invariant manifests[i..] == old(manifests[i..])
    {
      ghost var was := old(manifests[..]);
      assert manifests[i] == manifests[i..][0] == was[i];
      assert was[..i + 1] == was[..i] + [was[i]];
      KeepAppend(was[..i], [was[i]]);
      assert manifests[i + 1..] == manifests[i..][1..];
      if !IsAttestation(manifests[i]) {
        manifests[n] := manifests[i];
        n := n + 1;
      }
      assert old(manifests[..i + 1]) == was[..i + 1];
    }
    assert old(manifests[..manifests.Length]) == old(manifests[..]);
    KeptEntries(old(manifests[..]));
  }

  /** What the caller asked for. */
  datatype Options = Options(oci: bool, referrer: bool, artifactType: string, limit: nat)

  /** The index that is uploaded for `src` with the given entries. */
  function ConvertedIndex(o: Options, src: Desc, manifests: seq<Desc>): Index
    requires src.digest.IndexDigest?
  {
    var index := src.digest.index.(manifests := manifests);
    var index := if o.referrer then
      index.(artifactType := o.artifactType, subject := Some(Subject(src.mediaType, src.digest, src.size))) else index;
    if o.oci then index.(mediaType := OCIIndex) else index
  }

  /** The descriptor of an uploaded index carries nothing but type, digest and size. */
  function IndexDesc(index: Index, size: nat): Desc {
    Desc(index.mediaType, IndexDigest(index), size, map[], None)
  }

  // ---------- The specification ----------

  /** What the fields of the index uploaded for `src` have to be: OCI if that was
      asked for, and referring to `src` if that was; otherwise as in the source. */
  predicate IndexFields(o: Options, src: Desc, index: Index)
    requires src.digest.IndexDigest?
  {
    var source := src.digest.index;
    && index.mediaType == (if o.oci then OCIIndex else source.mediaType)
    && index.artifactType == (if o.referrer then o.artifactType else source.artifactType)
    && index.subject == (if o.referrer then Some(Subject(src.mediaType, src.digest, src.size)) else source.subject)
  }

  /** What overlaybdBuilder.Build has been asked to convert, and into what. */
  type Builds = set<(Desc, Desc)>

  /** `out` is a conversion of `src`: a manifest has been built from it, and every
      field but media type, digest and size is kept; an index has the fields asked
      for, its entries are the conversions of the non-attestation entries, in source
      order, and its descriptor says no more than its media type and size. */
  ghost predicate ConvertedFrom(o: Options, builds: Builds, src: Desc, out: Desc)
    decreases src, 1
  {
    if IsManifest(src) then ManifestTarget(builds, src, out)
    else
      && IsIndex(src) && src.digest.IndexDigest? && out.digest.IndexDigest?
      && IndexFields(o, src, out.digest.index)
      && out.mediaType == out.digest.index.mediaType && out.annotations == map[] && out.platform == None
      && ConvertedEntries(o, builds, src.digest.index.manifests, out.digest.index.manifests)
  }

  predicate ManifestTarget(builds: Builds, src: Desc, out: Desc) {
    (src, out) in builds && out == src.(mediaType := out.mediaType, digest := out.digest, size := out.size)
  }

  ghost predicate ConvertedEntries(o: Options, builds: Builds, srcs: seq<Desc>, outs: seq<Desc>)
    decreases srcs, 0
  {
    if srcs == [] then outs == []
    else if IsAttestation(srcs[0]) then ConvertedEntries(o, builds, srcs[1..], outs)
    else
      && outs != [] && ConvertedFrom(o, builds, srcs[0], outs[0])
      && ConvertedEntries(o, builds, srcs[1..], outs[1..])
  }

  /** A conversion is never taken for an attestation unless its source was. */
  lemma ConvertedIsKept(o: Options, builds: Builds, src: Desc, out: Desc)
    requires ConvertedFrom(o, builds, src, out) && !IsAttestation(src)
    ensures !IsAttestation(out)
  {
  }

  /** Filtering after the in-place writes equals filtering before them. */
  lemma {:induction false} FilterAfterWrites(o: Options, builds: Builds, srcs: seq<Desc>, slots: seq<Desc>)
    requires |slots| == |srcs|
    requires forall k :: 0 <= k < |srcs| ==>
      if IsAttestation(srcs[k]) then slots[k] == srcs[k] else ConvertedFrom(o, builds, srcs[k], slots[k])
    ensures ConvertedEntries(o, builds, srcs, Keep(slots))
  {
    if srcs != [] {
      FilterAfterWrites(o, builds, srcs[1..], slots[1..]);
      if !IsAttestation(srcs[0]) {
        ConvertedIsKept(o, builds, srcs[0], slots[0]);
        assert Keep(slots)[1..] == Keep(slots[1..]);
      }
    }
  }

  // ---------- The machine ----------

  datatype Outcome = Target(desc: Desc) | Error

  /** A call of process in its own goroutine.  Manifests go through
      WaitSem/Building/Releasing, indexes through Fetching/Joining/Uploading.
      `Returned` is process having returned, `Exiting` the deferred wg.Done still
      to run, `Recording` an error the errgroup has not yet recorded. */
  datatype Pc =
    | WaitSem
    | Building
    | Releasing(out: Outcome)
    | Fetching
    | Joining
    | Uploading(index: Index)
    | Returned(out: Outcome)
    | Exiting(out: Outcome)
    | Recording
    | Ended(out: Outcome)

  /** `slots` is the index's manifest list, written by the children. */
  datatype Task = Task(src: Desc, parent: Option<nat>, slot: nat, pc: Pc, slots: seq<Desc>)

  /** `builds` remembers the successful calls of overlaybdBuilder.Build. */
  datatype State = State(
    tasks: seq<Task>, tokens: nat, leaked: nat, cancelled: bool, failed: bool, builds: Builds)

  function NewTask(src: Desc, parent: Option<nat>, slot: nat): Task {
    Task(src, parent, slot,
      if IsManifest(src) then WaitSem else if IsIndex(src) then Fetching else Returned(Error), [])
  }

  /** The goroutines that process starts for an index's entries. */
  function Children(ms: seq<Desc>, parent: nat, slot: nat): seq<Task> {
    if ms == [] then []
    else if IsAttestation(ms[0]) then Children(ms[1..], parent, slot + 1)
    else [NewTask(ms[0], Some(parent), slot)] + Children(ms[1..], parent, slot + 1)
  }

  function Start(src: Desc): State {
    State([NewTask(src, None, 0)], 0, 0, false, false, {})
  }

  datatype Action =
    | Cancel
    | Acquire(i: nat)                                                  // sem <- struct{}{}
    | GiveUp(i: nat)                                                   // ctx.Done() before acquiring
    | EndBuild(i: nat, built: Option<(MediaType, Digest, nat)>)       // overlaybdBuilder.Build
    | Release(i: nat)                                                  // <-sem
    | Leak(i: nat)                                                     // ctx.Done() instead of releasing
    | FetchIndex(i: nat, ok: bool)
    | Join(i: nat)                                                     // wg.Wait, ctx.Err, filter
    | EndUpload(i: nat, size: nat, ok: bool)
    | Write(i: nat)                                                    // index.Manifests[i] = target
    | Done(i: nat)                                                     // wg.Done
    | Record(i: nat)                                                   // errgroup

  /** The child has run its wg.Done. */
  predicate PastDone(t: Task) {
    t.pc.Recording? || t.pc.Ended?
  }

  predicate ChildrenDone(tasks: seq<Task>, i: nat) {
    forall j :: 0 <= j < |tasks| && tasks[j].parent == Some(i) ==> PastDone(tasks[j])
  }

  function When(enabled: bool, t: Task): Option<Task> {
    if enabled then Some(t) else None
  }

  /** When a step is possible, and what it does to its own task. */
  function Move(o: Options, s: State, a: Action): Option<Task>
    requires !a.Cancel? && a.i < |s.tasks|
  {
    var t := s.tasks[a.i];
    match a
    case Acquire(_) => When(t.pc.WaitSem? && (o.limit == 0 || s.tokens < o.limit), t.(pc := Building))
    case GiveUp(_) => When(t.pc.WaitSem? && o.limit > 0 && s.cancelled, t.(pc := Returned(Error)))
    case EndBuild(_, built) =>
      When(t.pc.Building?, t.(pc := Releasing(match built
        case Some((m, d, n)) => Target(t.src.(mediaType := m, digest := d, size := n))
        case None => Error)))
    case Release(_) =>
      if t.pc.Releasing? && (o.limit == 0 || s.tokens > 0) then Some(t.(pc := Returned(t.pc.out))) else None
    case Leak(_) =>
      if t.pc.Releasing? && o.limit > 0 && s.cancelled then Some(t.(pc := Returned(t.pc.out))) else None
    case FetchIndex(_, ok) =>
      When(t.pc.Fetching?, if ok && t.src.digest.IndexDigest? then t.(pc := Joining, slots := Entries(t.src))
                           else t.(pc := Returned(Error)))
    case Join(_) =>
      if t.pc.Joining? && t.src.digest.IndexDigest? && ChildrenDone(s.tasks, a.i)
      then Some(t.(pc := if s.cancelled then Returned(Error) else Uploading(ConvertedIndex(o, t.src, Keep(t.slots)))))
      else None
    case EndUpload(_, size, ok) =>
      if t.pc.Uploading? then Some(t.(pc := Returned(if ok then Target(IndexDesc(t.pc.index, size)) else Error)))
      else None
    case Write(_) => if t.pc.Returned? then Some(t.(pc := Exiting(t.pc.out))) else None
    case Done(_) =>
      if t.pc.Exiting? then Some(t.(pc := if t.pc.out.Error? then Recording else Ended(t.pc.out))) else None
    case Record(_) => When(t.pc.Recording?, t.(pc := Ended(Error)))
  }

  predicate Enabled(o: Options, s: State, a: Action) {
    if a.Cancel? then !s.cancelled else a.i < |s.tasks| && Move(o, s, a).Some?
  }

  /** A successful child writes its slot of the parent's list. */
  function WriteSlot(tasks: seq<Task>, t: Task): seq<Task> {
    if t.parent.Some? && t.parent.value < |tasks| && t.pc.Exiting? && t.pc.out.Target?
       && t.slot < |tasks[t.parent.value].slots|
    then
      var p := tasks[t.parent.value];
      tasks[t.parent.value := p.(slots := p.slots[t.slot := t.pc.out.desc])]
    else tasks
  }

  function Apply(o: Options, s: State, a: Action): State
    requires Enabled(o, s, a)
  {
    if a.Cancel? then s.(cancelled := true)
    else
      var t := Move(o, s, a).value;
      var tasks := s.tasks[a.i := t];
      State(
        if a.Write? then WriteSlot(tasks, t)
        else if a.FetchIndex? && t.pc.Joining? then tasks + Children(t.slots, a.i, 0)
        else tasks,
        if o.limit == 0 then s.tokens
        else if a.Acquire? then s.tokens + 1
        else if a.Release? then s.tokens - 1
        else s.tokens,
        if a.Leak? then s.leaked + 1 else s.leaked,
        s.cancelled || a.Record?,
        s.failed || a.Record?,
        if a.EndBuild? && t.pc.out.Target? then s.builds + {(t.src, t.pc.out.desc)} else s.builds)
  }

  ghost predicate Run(o: Options, s: State, acts: seq<Action>, t: State)
    decreases |acts|
  {
    if acts == [] then s == t else Enabled(o, s, acts[0]) && Run(o, Apply(o, s, acts[0]), acts[1..], t)
  }

  /** Outcomes that are failures of something outside, and the caller's cancellation. */
  predicate Faulty(a: Action) {
    || a.Cancel?
    || (a.EndBuild? && a.built.None?)
    || (a.FetchIndex? && !a.ok)
    || (a.EndUpload? && !a.ok)
  }

  /** The errgroup's Wait returns. */
  ghost predicate WaitReturns(s: State) {
    forall i :: 0 <= i < |s.tasks| ==> s.tasks[i].pc.Ended?
  }
}
