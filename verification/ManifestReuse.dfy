/** Reusing converted manifests: the registry store that checks a manifest's
    layers when it is pushed (cmd/convertor/testingresources/local_repo.go), and
    CheckForConvertedManifest and mountImage
    (cmd/convertor/builder/overlaybd_builder.go:276-380), whose promise rests on
    that check. */
module ManifestReuse {
  import opened Wrappers

  type Repo = string

  datatype MediaType = ImageManifest | DockerManifest | ImageIndex | DockerList | ConfigType | LayerType

  /** What a blob parses to.  Digests are idealised as collision free, so a
      digest stands for its content. */
  datatype Content =
    | Bytes(id: nat)
    | ManifestDoc(config: Ref, layers: seq<Ref>)
    | IndexDoc(manifests: seq<Ref>)

  datatype Digest = DigestOf(content: Content)

  datatype Ref = Ref(mediaType: MediaType, digest: Digest)

  type Blobs = map<Digest, Content>

  /** json.Unmarshal of anything else leaves the list empty. */
  function LayersOf(c: Content): seq<Ref> {
    if c.ManifestDoc? then c.layers else []
  }

  /** The references that a push under this media type checks. */
  function Checked(m: MediaType, c: Content): seq<Ref> {
    if m.ImageManifest? || m.DockerManifest? then LayersOf(c)
    else if (m.ImageIndex? || m.DockerList?) && c.IndexDoc? then c.manifests
    else []
  }

  /** The references that a stored blob depends on. */
  function Needed(c: Content): seq<Ref> {
    match c
    case Bytes(_) => []
    case ManifestDoc(_, layers) => layers
    case IndexDoc(manifests) => manifests
  }

  predicate Present(blobs: Blobs, refs: seq<Ref>) {
    forall r :: r in refs ==> r.digest in blobs
  }

  /** Every stored manifest has all its layers stored, every stored index all
      its manifests, under the digests of their contents. */
  ghost predicate Complete(blobs: Blobs) {
    forall d :: d in blobs ==> DigestOf(blobs[d]) == d && Present(blobs, Needed(blobs[d]))
  }

  /** A document pushed as what it is. */
  predicate TypeFits(m: MediaType, c: Content) {
    Checked(m, c) == Needed(c)
  }

  predicate IsManifestType(m: MediaType) {
    !m.ConfigType? && !m.LayerType?
  }

  /** RepoStore.Push of one blob, as a value: what it accepts and stores. */
  predicate Accepts(blobs: Blobs, ref: Ref, content: Content, ignoresLayers: bool) {
    && ref.digest == DigestOf(content)
    && (ignoresLayers || ref.digest in blobs || Present(blobs, Checked(ref.mediaType, content)))
  }

  /** A manifest has its layers here, an index its manifests; nothing else is
      looked into. */
  predicate LacksNothing(blobs: Blobs, m: MediaType, c: Content) {
    match m
    case ImageManifest => c.ManifestDoc? ==> forall r :: r in c.layers ==> r.digest in blobs
    case DockerManifest => c.ManifestDoc? ==> forall r :: r in c.layers ==> r.digest in blobs
    case ImageIndex => c.IndexDoc? ==> forall r :: r in c.manifests ==> r.digest in blobs
    case DockerList => c.IndexDoc? ==> forall r :: r in c.manifests ==> r.digest in blobs
    case ConfigType => true
    case LayerType => true
  }

  /** The in-memory part of RepoStore. */
  class RepoStore {
    var blobs: Blobs
    var tags: map<string, Digest>

    constructor ()
      ensures blobs == map[] && tags == map[]
    {
      blobs, tags := map[], map[];
    }

    method Push(ref: Ref, tag: string, content: Content, ignoresLayers: bool) returns (ok: bool)
      modifies this
      ensures ok == Accepts(old(blobs), ref, content, ignoresLayers)
      ensures ok <==> (ref.digest == DigestOf(content) &&
        (ignoresLayers || ref.digest in old(blobs) || LacksNothing(old(blobs), ref.mediaType, content)))
      ensures blobs == (if ok then old(blobs)[ref.digest := content] else old(blobs))
      ensures tags ==
        if ok && IsManifestType(ref.mediaType) && tag != "" then old(tags)[tag := ref.digest] else old(tags)
    {
      var alreadyThere := ref.digest in blobs;
      if DigestOf(content) != ref.digest {
        return false;
      }
      if !ignoresLayers && !alreadyThere {
        var refs := Checked(ref.mediaType, content);
        for i := 0 to |refs|
          invariant forall j :: 0 <= j < i ==> refs[j].digest in blobs
        {
          if refs[i].digest !in blobs {
            assert refs[i] in refs;
            return false;
          }
        }
      }
      blobs := blobs[ref.digest := content];
      if IsManifestType(ref.mediaType) && tag != "" {
        tags := tags[tag := ref.digest];
      }
      return true;
    }
  }

  /** A checked push keeps the store complete exactly when the blob was already
      there or everything it needs is: pushing it as what it is suffices. */
  lemma PushKeepsComplete(blobs: Blobs, ref: Ref, content: Content)
    requires Complete(blobs) && Accepts(blobs, ref, content, false)
    ensures TypeFits(ref.mediaType, content) ==> Complete(blobs[ref.digest := content])
    ensures Complete(blobs[ref.digest := content]) <==>
      ref.digest in blobs || Present(blobs[ref.digest := content], Needed(content))
  {
    var after := blobs[ref.digest := content];
    forall d | d in blobs ensures Present(after, Needed(blobs[d])) {
      assert Present(blobs, Needed(blobs[d]));
    }
    if ref.digest in blobs {
      assert blobs[ref.digest] == content;
      assert after == blobs;
    } else if Complete(after) {
      assert after[ref.digest] == content;
    }
  }

  /** A manifest smuggled in under another media type is not checked, neither
      then nor when it is pushed again as a manifest: the "already exists" rule
      waives the check.  This is the one way to lose completeness. */
  lemma MistypedPushBreaksComplete(blobs: Blobs, content: Content)
    requires content.ManifestDoc? && DigestOf(content) !in blobs
    requires !Present(blobs[DigestOf(content) := content], content.layers)
    ensures var asLayer, asManifest := Ref(LayerType, DigestOf(content)), Ref(ImageManifest, DigestOf(content));
      var after := blobs[DigestOf(content) := content];
      && Accepts(blobs, asLayer, content, false) && !Complete(after)
      && Accepts(after, asManifest, content, false)
      && (Complete(blobs) ==> !Accepts(blobs, asManifest, content, false))
  {
    var after := blobs[DigestOf(content) := content];
    var r :| r in content.layers && r.digest !in after;
    assert after[DigestOf(content)] == content && r in Needed(content);
    assert r in Checked(ImageManifest, content);
  }

  /** A history of pushes, rejected ones included. */
  datatype Attempt = Attempt(ref: Ref, content: Content)

  function Replay(blobs: Blobs, attempts: seq<Attempt>): Blobs
    decreases |attempts|
  {
    if attempts == [] then blobs
    else
      var a := attempts[0];
      Replay(if Accepts(blobs, a.ref, a.content, false) then blobs[a.ref.digest := a.content] else blobs, attempts[1..])
  }

  /** Over any history in which documents are pushed as what they are, a stored
      manifest always has all its layers. */
  lemma {:induction false} HistoryKeepsComplete(blobs: Blobs, attempts: seq<Attempt>)
    requires Complete(blobs)
    requires forall i :: 0 <= i < |attempts| ==> TypeFits(attempts[i].ref.mediaType, attempts[i].content)
    ensures Complete(Replay(blobs, attempts)) && blobs.Keys <= Replay(blobs, attempts).Keys
    decreases |attempts|
  {
    if attempts != [] {
      var a := attempts[0];
      if Accepts(blobs, a.ref, a.content, false) {
        PushKeepsComplete(blobs, a.ref, a.content);
        HistoryKeepsComplete(blobs[a.ref.digest := a.content], attempts[1..]);
      } else {
        HistoryKeepsComplete(blobs, attempts[1..]);
      }
    }
  }

  // ---------- Mounting an image from another repository ----------

  /** How the target registry answers a push with a mount source: the blob is
      there already or is mounted, an upload session is opened that nobody
      uses, or the push fails. */
  datatype MountAnswer = AlreadyExists | SessionOpened | PushFailed

  /** What one Push of mountImage does to the target's blobs, and whether it counts
      as success: an opened session does, without adding anything. */
  function AfterMount(target: Blobs, source: Blobs, ref: Ref, answer: MountAnswer): (Blobs, bool) {
    if answer.PushFailed? then (target, false)
    else if answer.SessionOpened? || ref.digest in target then (target, true)
    else if ref.digest in source && Accepts(target, ref, source[ref.digest], false)
    then (target[ref.digest := source[ref.digest]], true)
    else (target, false)
  }

  /** The blobs that mountImage mounts, in its order. */
  function Parts(manifest: Content): seq<Ref>
    requires manifest.ManifestDoc?
  {
    [manifest.config] + manifest.layers
  }

  function AfterMounts(target: Blobs, source: Blobs, refs: seq<Ref>, answers: nat -> MountAnswer, k: nat): (Blobs, bool)
    requires k <= |refs|
  {
    if k == 0 then (target, true)
    else
      var (blobs, ok) := AfterMounts(target, source, refs, answers, k - 1);
      if ok then AfterMount(blobs, source, refs[k - 1], answers(k - 1)) else (blobs, false)
  }

  /** mountImage: the mounts, then the push of the manifest. */
  function AfterImage(target: Blobs, source: Blobs, manifest: Content, mediaType: MediaType,
                      answers: nat -> MountAnswer): (Blobs, bool)
    requires manifest.ManifestDoc?
  {
    var (blobs, ok) := AfterMounts(target, source, Parts(manifest), answers, |Parts(manifest)|);
    if ok && Accepts(blobs, Ref(mediaType, DigestOf(manifest)), manifest, false)
    then (blobs[DigestOf(manifest) := manifest], true) else (blobs, false)
  }

  method MountBlob(target: RepoStore, source: Blobs, ref: Ref, answer: MountAnswer) returns (ok: bool)
    modifies target
    ensures (target.blobs, ok) == AfterMount(old(target.blobs), source, ref, answer)
    ensures target.tags == old(target.tags)
  {
    if answer.PushFailed? {
      return false;
    }
    if answer.SessionOpened? || ref.digest in target.blobs {
      return true;
    }
    if ref.digest !in source {
      return false;
    }
    ok := target.Push(ref, "", source[ref.digest], false);
  }

  method MountImage(target: RepoStore, source: Blobs, manifest: Content, mediaType: MediaType, tag: string,
                    answers: nat -> MountAnswer)
    returns (ok: bool)
    requires manifest.ManifestDoc?
    modifies target
    ensures (target.blobs, ok) == AfterImage(old(target.blobs), source, manifest, mediaType, answers)
    ensures target.tags == if ok && IsManifestType(mediaType) && tag != ""
      then old(target.tags)[tag := DigestOf(manifest)] else old(target.tags)
  {
    ok := MountBlob(target, source, manifest.config, answers(0));
    if !ok {
      FailureStops(old(target.blobs), source, Parts(manifest), answers, 1);
      return false;
    }
    for i := 0 to |manifest.layers|
      invariant (target.blobs, true) == AfterMounts(old(target.blobs), source, Parts(manifest), answers, i + 1)
      invariant target.tags == old(target.tags)
    {
      assert Parts(manifest)[i + 1] == manifest.layers[i];
      ok := MountBlob(target, source, manifest.layers[i], answers(i + 1));
      if !ok {
        FailureStops(old(target.blobs), source, Parts(manifest), answers, i + 2);
        return false;
      }
    }
    ok := target.Push(Ref(mediaType, DigestOf(manifest)), tag, manifest, false);
  }

  lemma {:induction false} FailureStops(target: Blobs, source: Blobs, refs: seq<Ref>, answers: nat -> MountAnswer,
                                        k: nat)
    requires k <= |refs| && !AfterMounts(target, source, refs, answers, k).1
    ensures AfterMounts(target, source, refs, answers, |refs|) == AfterMounts(target, source, refs, answers, k)
    decreases |refs| - k
  {
    if k < |refs| {
      FailureStops(target, source, refs, answers, k + 1);
    }
  }

  /** Some mount of that digest was answered "already exists". */
  ghost predicate Answered(refs: seq<Ref>, answers: nat -> MountAnswer, k: nat, d: Digest)
    requires k <= |refs|
  {
    exists j: nat :: j < k && refs[j].digest == d && answers(j).AlreadyExists?
  }

  /** Successful mounts leave exactly what was there and what was answered with
      "already exists"; failed ones leave no more than that. */
  lemma {:induction false} MountsAdd(target: Blobs, source: Blobs, refs: seq<Ref>, answers: nat -> MountAnswer, k: nat)
    requires k <= |refs|
    ensures var (blobs, ok) := AfterMounts(target, source, refs, answers, k);
      && target.Keys <= blobs.Keys
      && (forall d :: d in blobs ==> d in target || Answered(refs, answers, k, d))
      && (ok ==> forall d :: Answered(refs, answers, k, d) ==> d in blobs)
  {
    if k > 0 {
      MountsAdd(target, source, refs, answers, k - 1);
      var (before, went) := AfterMounts(target, source, refs, answers, k - 1);
      var (blobs, ok) := AfterMounts(target, source, refs, answers, k);
      forall d | d in blobs ensures d in target || Answered(refs, answers, k, d) {
        if d in before && d !in target {
          var j: nat :| j < k - 1 && refs[j].digest == d && answers(j).AlreadyExists?;
        }
      }
      forall d | ok && Answered(refs, answers, k, d) ensures d in blobs {
        var j: nat :| j < k && refs[j].digest == d && answers(j).AlreadyExists?;
        if j < k - 1 {
          assert Answered(refs, answers, k - 1, d);
        }
      }
    }
  }

  /** A mount succeeds unless it is answered with a failure, or with "already
      exists" although neither repo has the blob. */
  predicate MountWorks(target: Blobs, source: Blobs, ref: Ref, answer: MountAnswer) {
    answer.SessionOpened? || (answer.AlreadyExists? && (ref.digest in target || ref.digest in source))
  }

  /** Configs and layers refer to nothing. */
  predicate Leaves(refs: seq<Ref>) {
    forall r :: r in refs ==> r.mediaType.ConfigType? || r.mediaType.LayerType?
  }

  lemma {:induction false} MountsWorkExactlyWhen(target: Blobs, source: Blobs, refs: seq<Ref>,
                                                 answers: nat -> MountAnswer, k: nat)
    requires k <= |refs| && Leaves(refs) && forall d :: d in source ==> DigestOf(source[d]) == d
    ensures AfterMounts(target, source, refs, answers, k).1 <==>
      forall j: nat :: j < k ==> MountWorks(target, source, refs[j], answers(j))
  {
    if k > 0 {
      MountsWorkExactlyWhen(target, source, refs, answers, k - 1);
      MountsAdd(target, source, refs, answers, k - 1);
      var (before, went) := AfterMounts(target, source, refs, answers, k - 1);
      var d := refs[k - 1].digest;
      if went && d in before && d !in target {
        var j: nat :| j < k - 1 && refs[j].digest == d && answers(j).AlreadyExists?;
        assert MountWorks(target, source, refs[j], answers(j));
      }
    }
  }

  /** When mountImage succeeds, by the two repositories and the answers alone: all
      mounts work, and every layer was in the target or is mounted, unless the
      manifest has been there all along. */
  lemma MountImageSucceedsExactlyWhen(target: Blobs, source: Blobs, manifest: Content, mediaType: MediaType,
                                      answers: nat -> MountAnswer)
    requires manifest.ManifestDoc? && (mediaType.ImageManifest? || mediaType.DockerManifest?)
    requires Leaves(Parts(manifest)) && forall d :: d in source ==> DigestOf(source[d]) == d
    ensures AfterImage(target, source, manifest, mediaType, answers).1 <==>
      && (forall j: nat :: j < |Parts(manifest)| ==> MountWorks(target, source, Parts(manifest)[j], answers(j)))
      && (DigestOf(manifest) in target || forall r :: r in manifest.layers ==>
            r.digest in target || Answered(Parts(manifest), answers, |Parts(manifest)|, r.digest))
  {
    var n := |Parts(manifest)|;
    MountsWorkExactlyWhen(target, source, Parts(manifest), answers, n);
    MountsAdd(target, source, Parts(manifest), answers, n);
    ManifestIsNotMounted(manifest, answers);
    var (blobs, ok) := AfterMounts(target, source, Parts(manifest), answers, n);
    if ok {
      assert Checked(mediaType, manifest) == manifest.layers;
      assert forall r :: r in manifest.layers ==>
        (r.digest in blobs <==> r.digest in target || Answered(Parts(manifest), answers, n, r.digest));
    }
  }

  /** A manifest is not among its own blobs. */
  lemma NoOwnPart(manifest: Content, r: Ref)
    requires manifest.ManifestDoc? && (r == manifest.config || r in manifest.layers)
    ensures r.digest != DigestOf(manifest)
  {
    if r in manifest.layers {
      assert r < manifest;
    }
    assert r.digest < r;
  }

  lemma ManifestIsNotMounted(manifest: Content, answers: nat -> MountAnswer)
    requires manifest.ManifestDoc?
    ensures !Answered(Parts(manifest), answers, |Parts(manifest)|, DigestOf(manifest))
  {
    forall j: nat | j < |Parts(manifest)| ensures Parts(manifest)[j].digest != DigestOf(manifest) {
      NoOwnPart(manifest, Parts(manifest)[j]);
    }
  }

  /** Whatever the answers to the mounts: success means that the manifest and all
      its layers are in the target, which the check on the manifest push alone
      guarantees. */
  lemma MountedImageHasLayers(target: Blobs, source: Blobs, manifest: Content, mediaType: MediaType,
                              answers: nat -> MountAnswer)
    requires manifest.ManifestDoc? && (mediaType.ImageManifest? || mediaType.DockerManifest?)
    requires Complete(target) && AfterImage(target, source, manifest, mediaType, answers).1
    ensures var after := AfterImage(target, source, manifest, mediaType, answers).0;
      && target.Keys <= after.Keys
      && DigestOf(manifest) in after && Present(after, manifest.layers)
  {
    MountsAdd(target, source, Parts(manifest), answers, |Parts(manifest)|);
    ManifestIsNotMounted(manifest, answers);
    var blobs := AfterMounts(target, source, Parts(manifest), answers, |Parts(manifest)|).0;
    if DigestOf(manifest) in blobs {
      assert target[DigestOf(manifest)] == manifest && Present(target, Needed(manifest));
    } else {
      assert Present(blobs, Checked(mediaType, manifest));
    }
  }

  /** Nothing checks the config: after a successful mountImage it is in the target
      exactly if it was there before or a mount of its digest was answered
      "already exists". */
  lemma MountedConfigExactlyWhen(target: Blobs, source: Blobs, manifest: Content, mediaType: MediaType,
                                 answers: nat -> MountAnswer)
    requires manifest.ManifestDoc? && AfterImage(target, source, manifest, mediaType, answers).1
    ensures manifest.config.digest in AfterImage(target, source, manifest, mediaType, answers).0 <==>
      || manifest.config.digest in target
      || Answered(Parts(manifest), answers, |Parts(manifest)|, manifest.config.digest)
  {
    MountsAdd(target, source, Parts(manifest), answers, |Parts(manifest)|);
    NoOwnPart(manifest, manifest.config);
  }

  /** An opened session for the config is enough to get an image without one. */
  lemma ImageWithoutConfig(manifest: Content, mediaType: MediaType, source: Blobs)
    requires manifest.ManifestDoc? && manifest.layers == []
    ensures var after := AfterImage(map[], source, manifest, mediaType, _ => SessionOpened);
      after.1 && DigestOf(manifest) in after.0 && manifest.config.digest !in after.0
  {
    var answers: nat -> MountAnswer := _ => SessionOpened;
    assert Parts(manifest) == [manifest.config];
    assert AfterMounts(map[], source, Parts(manifest), answers, 0) == (map[], true);
    assert AfterMounts(map[], source, Parts(manifest), answers, 1) == (map[], true);
    NoOwnPart(manifest, manifest.config);
  }

  /** Every part of the manifest is referred to as what it is. */
  ghost predicate WellTyped(manifest: Content) {
    manifest.ManifestDoc? ==>
      && TypeFits(manifest.config.mediaType, manifest.config.digest.content)
      && (forall r :: r in manifest.layers ==> TypeFits(r.mediaType, r.digest.content))
  }

  lemma {:induction false} MountsKeepComplete(target: Blobs, source: Blobs, refs: seq<Ref>,
                                              answers: nat -> MountAnswer, k: nat)
    requires k <= |refs| && Complete(target) && Complete(source)
    requires forall r :: r in refs ==> TypeFits(r.mediaType, r.digest.content)
    ensures Complete(AfterMounts(target, source, refs, answers, k).0)
  {
    if k > 0 {
      MountsKeepComplete(target, source, refs, answers, k - 1);
      var (before, went) := AfterMounts(target, source, refs, answers, k - 1);
      var ref := refs[k - 1];
      if ref.digest in source && Accepts(before, ref, source[ref.digest], false) {
        assert TypeFits(ref.mediaType, ref.digest.content);
        PushKeepsComplete(before, ref, source[ref.digest]);
      }
    }
  }

  /** Mounting an image keeps the target complete, also when it fails half-way. */
  lemma MountImageKeepsComplete(target: Blobs, source: Blobs, manifest: Content, mediaType: MediaType,
                                answers: nat -> MountAnswer)
    requires manifest.ManifestDoc? && (mediaType.ImageManifest? || mediaType.DockerManifest?)
    requires Complete(target) && Complete(source) && WellTyped(manifest)
    ensures var after := AfterImage(target, source, manifest, mediaType, answers).0;
      Complete(after) && target.Keys <= after.Keys
  {
    var n := |Parts(manifest)|;
    MountsAdd(target, source, Parts(manifest), answers, n);
    MountsKeepComplete(target, source, Parts(manifest), answers, n);
    var (blobs, ok) := AfterMounts(target, source, Parts(manifest), answers, n);
    if ok && Accepts(blobs, Ref(mediaType, DigestOf(manifest)), manifest, false) {
      PushKeepsComplete(blobs, Ref(mediaType, DigestOf(manifest)), manifest);
    }
  }

  // ---------- CheckForConvertedManifest ----------

  /** The manifest table's primary key, on one host. */
  datatype Key = Key(repo: Repo, mediaType: MediaType, original: Digest)

  class ManifestTable {
    var rows: map<Key, Digest>

    constructor ()
      ensures rows == map[]
    {
      rows := map[];
    }
  }

  /** How the database and the registry behave for one candidate repository. */
  datatype Weather = Weather(
    resolves: bool, fetches: bool, deletes: bool, creates: bool, answers: nat -> MountAnswer)

  function Fetch(repos: map<Repo, Blobs>, repo: Repo): Blobs {
    if repo in repos then repos[repo] else map[]
  }

  /** The row of the own repo is gone if its manifest was missing there. */
  function Candidates(rows: map<Key, Digest>, target: Blobs, key: Key, own: Weather): map<Key, Digest> {
    if key in rows && own.fetches && rows[key] !in target then rows - {key} else rows
  }

  /** The image that candidate repository i offers, if any. */
  function Offered(rows: map<Key, Digest>, repos: map<Repo, Blobs>, key: Key, repo: Repo, w: Weather): Option<Content> {
    var row := Key(repo, key.mediaType, key.original);
    if row !in rows || !w.fetches || rows[row] !in Fetch(repos, repo) then None
    else
      var manifest := Fetch(repos, repo)[rows[row]];
      if manifest.ManifestDoc? then Some(manifest) else None
  }

  /** The target after a candidate's image, if any, has been tried. */
  function Tried(before: Blobs, rows: map<Key, Digest>, repos: map<Repo, Blobs>, key: Key, repo: Repo,
                 w: Weather): Blobs
  {
    var offer := Offered(rows, repos, key, repo, w);
    if offer.None? then before else AfterImage(before, Fetch(repos, repo), offer.value, key.mediaType, w.answers).0
  }

  /** The target after the first i candidates have been tried. */
  function AfterCandidates(target: Blobs, rows: map<Key, Digest>, repos: map<Repo, Blobs>, key: Key,
                           others: seq<Repo>, weather: seq<Weather>, i: nat): Blobs
    requires i <= |others| == |weather|
  {
    if i == 0 then target
    else
      var before := AfterCandidates(target, rows, repos, key, others, weather, i - 1);
      Tried(before, rows, repos, key, others[i - 1], weather[i - 1])
  }

  /** Candidate i's image was mounted and is what the lookup returns. */
  ghost predicate MountedFrom(before: Blobs, after: Blobs, rows: map<Key, Digest>, repos: map<Repo, Blobs>, key: Key,
                              repo: Repo, w: Weather, found: Digest)
  {
    var offer := Offered(rows, repos, key, repo, w);
    && offer.Some? && found == rows[Key(repo, key.mediaType, key.original)] && offer.value == found.content
    && (after, true) == AfterImage(before, Fetch(repos, repo), offer.value, key.mediaType, w.answers)
  }

  lemma TriedKeepsComplete(target: Blobs, repos: map<Repo, Blobs>, rows: map<Key, Digest>, key: Key, repo: Repo,
                           w: Weather)
    requires key.mediaType.ImageManifest? || key.mediaType.DockerManifest?
    requires Complete(target) && Offered(rows, repos, key, repo, w).Some?
    requires RegistryComplete(repos)
    ensures var manifest := Offered(rows, repos, key, repo, w).value;
      && manifest == rows[Key(repo, key.mediaType, key.original)].content
      && Complete(AfterImage(target, Fetch(repos, repo), manifest, key.mediaType, w.answers).0)
      && target.Keys <= AfterImage(target, Fetch(repos, repo), manifest, key.mediaType, w.answers).0.Keys
  {
    var digest := rows[Key(repo, key.mediaType, key.original)];
    assert digest in repos[repo] && DigestOf(repos[repo][digest]) == digest;
    MountImageKeepsComplete(target, repos[repo], repos[repo][digest], key.mediaType, w.answers);
  }

  ghost predicate RegistryComplete(repos: map<Repo, Blobs>) {
    && (forall r :: r in repos ==> Complete(repos[r]))
    && (forall r, d :: r in repos && d in repos[r] ==> WellTyped(repos[r][d]))
  }

  /** The lookup ends with an error at this candidate: its repo cannot be resolved,
      or its row is invalid and cannot be deleted. */
  predicate GivesUp(rows: map<Key, Digest>, repos: map<Repo, Blobs>, key: Key, repo: Repo, w: Weather) {
    var row := Key(repo, key.mediaType, key.original);
    row in rows && (!w.resolves || (w.fetches && rows[row] !in Fetch(repos, repo) && !w.deletes))
  }

  /** This candidate's row is invalid, and deleted. */
  predicate Purges(rows: map<Key, Digest>, repos: map<Repo, Blobs>, key: Key, repo: Repo, w: Weather) {
    var row := Key(repo, key.mediaType, key.original);
    row in rows && w.resolves && w.fetches && rows[row] !in Fetch(repos, repo) && w.deletes
  }

  /** This candidate has the manifest, the target gets it, and the database takes
      the new row if the own key is free. */
  predicate Hits(before: Blobs, rows: map<Key, Digest>, repos: map<Repo, Blobs>, key: Key, repo: Repo, w: Weather) {
    var row := Key(repo, key.mediaType, key.original);
    && row in rows && w.resolves && w.fetches && repo in repos && rows[row] in repos[repo]
    && repos[repo][rows[row]].ManifestDoc?
    && AfterImage(before, repos[repo], repos[repo][rows[row]], key.mediaType, w.answers).1
    && w.creates
  }

  /** Candidate i is the first that hits, and no earlier one ended the lookup. */
  ghost predicate FirstHit(target: Blobs, rows: map<Key, Digest>, repos: map<Repo, Blobs>, key: Key,
                           others: seq<Repo>, weather: seq<Weather>, i: nat)
    requires |others| == |weather|
  {
    && i < |others|
    && Hits(AfterCandidates(target, rows, repos, key, others, weather, i), rows, repos, key, others[i], weather[i])
    && forall j: nat :: j < i ==> Passes(target, rows, repos, key, others, weather, j)
  }

  ghost predicate Passes(target: Blobs, rows: map<Key, Digest>, repos: map<Repo, Blobs>, key: Key,
                         others: seq<Repo>, weather: seq<Weather>, j: nat)
    requires j < |others| == |weather|
  {
    && !GivesUp(rows, repos, key, others[j], weather[j])
    && !Hits(AfterCandidates(target, rows, repos, key, others, weather, j), rows, repos, key, others[j], weather[j])
  }

  /** One candidate repository: mount its image, and record that.  `failed`: the
      lookup gives up with an error. */
  method TryCandidate(table: ManifestTable, target: RepoStore, repos: map<Repo, Blobs>, candidates: map<Key, Digest>,
                      key: Key, repo: Repo, tag: string, w: Weather)
    returns (found: Option<Digest>, failed: bool)
    requires key.mediaType.ImageManifest? || key.mediaType.DockerManifest?
    requires Complete(target.blobs) && RegistryComplete(repos)
    modifies table, target
    ensures old(target.blobs).Keys <= target.blobs.Keys && Complete(target.blobs)
    ensures failed <==> GivesUp(candidates, repos, key, repo, w)
    ensures found.Some? <==> Hits(old(target.blobs), candidates, repos, key, repo, w) && key !in old(table.rows)
    ensures failed ==> target.blobs == old(target.blobs)
    ensures found.None? && !failed ==>
      target.blobs == Tried(old(target.blobs), candidates, repos, key, repo, w)
    ensures found.None? && !Purges(candidates, repos, key, repo, w) ==> table.rows == old(table.rows)
    ensures found.None? && Purges(candidates, repos, key, repo, w) ==>
      table.rows == old(table.rows) - {Key(repo, key.mediaType, key.original)}
    ensures found.Some? ==>
      && MountedFrom(old(target.blobs), target.blobs, candidates, repos, key, repo, w, found.value)
      && found.value in target.blobs && Present(target.blobs, LayersOf(found.value.content))
      && key !in old(table.rows) && table.rows == old(table.rows)[key := found.value]
  {
    found, failed := None, false;
    var row := Key(repo, key.mediaType, key.original);
    if row !in candidates {
      return;
    }
    var digest := candidates[row];
    if !w.resolves {
      return None, true;
    }
    if !w.fetches {
      return;
    }
    var source := Fetch(repos, row.repo);
    if digest !in source {
      if !w.deletes {
        return None, true;
      }
      table.rows := table.rows - {row};
    } else if source[digest].ManifestDoc? {
      TriedKeepsComplete(target.blobs, repos, candidates, key, repo, w);
      ghost var before := target.blobs;
      var mounted := MountImage(target, source, source[digest], key.mediaType, tag, w.answers);
      if mounted && w.creates && key !in table.rows {
        MountedImageHasLayers(before, source, source[digest], key.mediaType, w.answers);
        table.rows := table.rows[key := digest];
        return Some(digest), false;
      }
    }
  }

  /** A manifest is found exactly if some candidate hits before the lookup gives
      up, and it is the first such candidate's. */
  ghost predicate Decided(target: Blobs, rows: map<Key, Digest>, repos: map<Repo, Blobs>, key: Key,
                          others: seq<Repo>, weather: seq<Weather>, found: Option<Digest>)
    requires |others| == |weather|
  {
    && (found.Some? ==> exists i: nat :: FirstHit(target, rows, repos, key, others, weather, i))
    && (forall i: nat :: FirstHit(target, rows, repos, key, others, weather, i) ==>
         found == Some(rows[Key(others[i], key.mediaType, key.original)]))
  }

  /** Before candidate i nothing has been decided. */
  ghost predicate AllPass(target: Blobs, rows: map<Key, Digest>, repos: map<Repo, Blobs>, key: Key,
                          others: seq<Repo>, weather: seq<Weather>, i: nat)
    requires i <= |others| == |weather|
  {
    forall j: nat :: j < i ==> Passes(target, rows, repos, key, others, weather, j)
  }

  lemma CandidateDecides(target: Blobs, rows: map<Key, Digest>, repos: map<Repo, Blobs>, key: Key,
                         others: seq<Repo>, weather: seq<Weather>, i: nat, found: Option<Digest>)
    requires i < |others| == |weather| && AllPass(target, rows, repos, key, others, weather, i)
    requires var before := AfterCandidates(target, rows, repos, key, others, weather, i);
      if GivesUp(rows, repos, key, others[i], weather[i]) then found == None
      else
        && Hits(before, rows, repos, key, others[i], weather[i])
        && found == Some(rows[Key(others[i], key.mediaType, key.original)])
    ensures Decided(target, rows, repos, key, others, weather, found)
  {
    forall k: nat ensures FirstHit(target, rows, repos, key, others, weather, k) ==> k == i && found.Some? {
      if k < i {
        assert Passes(target, rows, repos, key, others, weather, k);
      } else if i < k {
        assert !Passes(target, rows, repos, key, others, weather, i);
      }
    }
    if found.Some? {
      assert FirstHit(target, rows, repos, key, others, weather, i);
    }
  }

  lemma NoCandidateDecides(target: Blobs, rows: map<Key, Digest>, repos: map<Repo, Blobs>, key: Key,
                           others: seq<Repo>, weather: seq<Weather>)
    requires |others| == |weather| && AllPass(target, rows, repos, key, others, weather, |others|)
    ensures Decided(target, rows, repos, key, others, weather, None)
  {
    forall k: nat ensures !FirstHit(target, rows, repos, key, others, weather, k) {
      if k < |others| {
        assert Passes(target, rows, repos, key, others, weather, k);
      }
    }
  }

  /** What trying the candidates one after the other makes of target and table. */
  ghost predicate Searched(target: Blobs, rows: map<Key, Digest>, target': Blobs, rows': map<Key, Digest>,
                           repos: map<Repo, Blobs>, key: Key, others: seq<Repo>, weather: seq<Weather>,
                           found: Option<Digest>)
    requires |others| == |weather|
  {
    && target.Keys <= target'.Keys && Complete(target')
    && (found.Some? ==>
      && found.value in target' && Present(target', LayersOf(found.value.content))
      && (exists i: nat :: i < |others| &&
            MountedFrom(AfterCandidates(target, rows, repos, key, others, weather, i), target',
                        rows, repos, key, others[i], weather[i], found.value)))
    && (forall k :: k in rows && k !in rows' ==> rows[k] !in Fetch(repos, k.repo))
    && (forall k :: k in rows' ==> (k in rows && rows'[k] == rows[k]) || (k == key && rows'[k] in target'))
  }

  /** The registry-wide search: every row for the same source manifest and media
      type, in the order `others` in which the database returns them. */
  method TryCandidates(
      table: ManifestTable, target: RepoStore, repos: map<Repo, Blobs>, key: Key, tag: string,
      others: seq<Repo>, weather: seq<Weather>)
    returns (found: Option<Digest>)
    requires |weather| == |others| && (key.mediaType.ImageManifest? || key.mediaType.DockerManifest?)
    requires Complete(target.blobs) && RegistryComplete(repos)
    modifies table, target
    ensures Searched(old(target.blobs), old(table.rows), target.blobs, table.rows, repos, key, others, weather, found)
    ensures key !in old(table.rows) ==>
      Decided(old(target.blobs), old(table.rows), repos, key, others, weather, found)
  {
    var candidates := table.rows;
    ghost var start := target.blobs;
    for i := 0 to |others|
      invariant target.blobs == AfterCandidates(start, candidates, repos, key, others, weather, i)
      invariant start.Keys <= target.blobs.Keys && Complete(target.blobs)
      invariant forall k :: k in candidates && k !in table.rows ==> candidates[k] !in Fetch(repos, k.repo)
      invariant table.rows.Keys <= candidates.Keys && forall k :: k in table.rows ==> table.rows[k] == candidates[k]
      invariant key !in candidates ==> AllPass(start, candidates, repos, key, others, weather, i)
    {
      ghost var before := target.blobs;
      var failed;
      found, failed := TryCandidate(table, target, repos, candidates, key, others[i], tag, weather[i]);
      if found.Some? || failed {
        if key !in candidates {
          CandidateDecides(start, candidates, repos, key, others, weather, i, found);
        }
        return;
      }
      assert key !in candidates ==> Passes(start, candidates, repos, key, others, weather, i);
    }
    if key !in candidates {
      NoCandidateDecides(start, candidates, repos, key, others, weather);
    }
    return None;
  }

  /** The rows of the own repo first, then every row for the same source manifest
      and media type, in the order `others` in which the database returns them.
      A row is deleted only when its blob is missing from its repo; a row is
      created only for a manifest that is in the target; and a returned manifest,
      recorded for this source, is in the target with all of its layers.  It was
      either there before, or has just been mounted from a candidate (then
      MountedConfigExactlyWhen says whether its config is there, too).  The own row
      is returned whenever its manifest can be fetched; without one, a manifest is
      returned exactly if some candidate hits before the lookup gives up, and it is
      the first such candidate's. */
  method CheckForConvertedManifest(
      table: ManifestTable, target: RepoStore, repos: map<Repo, Blobs>, key: Key, tag: string,
      own: Weather, others: seq<Repo>, weather: seq<Weather>)
    returns (found: Option<Digest>)
    requires |weather| == |others| && (key.mediaType.ImageManifest? || key.mediaType.DockerManifest?)
    requires Complete(target.blobs) && target.blobs == Fetch(repos, key.repo)
    requires RegistryComplete(repos)
    modifies table, target
    ensures old(target.blobs).Keys <= target.blobs.Keys && Complete(target.blobs)
    ensures found.Some? ==>
      && found.value in target.blobs && Present(target.blobs, LayersOf(found.value.content))
      && (exists r :: Key(r, key.mediaType, key.original) in old(table.rows)
                      && old(table.rows)[Key(r, key.mediaType, key.original)] == found.value)
    ensures found.Some? ==>
      var rows := Candidates(old(table.rows), old(target.blobs), key, own);
      || target.blobs == old(target.blobs)
      || (exists i :: 0 <= i < |others| &&
            MountedFrom(AfterCandidates(old(target.blobs), rows, repos, key, others, weather, i), target.blobs,
                        rows, repos, key, others[i], weather[i], found.value))
    ensures key in old(table.rows) && own.fetches && old(table.rows)[key] in old(target.blobs) ==>
      found == Some(old(table.rows)[key]) && table.rows == old(table.rows) && target.blobs == old(target.blobs)
    ensures key in old(table.rows) && own.fetches && old(table.rows)[key] !in old(target.blobs) && !own.deletes ==>
      found == None && table.rows == old(table.rows) && target.blobs == old(target.blobs)
    ensures key !in old(table.rows) || (own.fetches && old(table.rows)[key] !in old(target.blobs) && own.deletes) ==>
      var rows := old(table.rows) - {key};
      Decided(old(target.blobs), rows, repos, key, others, weather, found)
    ensures forall k :: k in old(table.rows) && k !in table.rows ==> old(table.rows)[k] !in Fetch(repos, k.repo)
    ensures forall k :: k in table.rows ==>
      if k in old(table.rows) then table.rows[k] == old(table.rows)[k] || (k == key && table.rows[k] in target.blobs)
      else k == key && table.rows[k] in target.blobs
  {
    if key in table.rows {
      var digest := table.rows[key];
      if own.fetches {
        if digest in target.blobs {
          assert Present(target.blobs, Needed(target.blobs[digest]));
          return Some(digest);
        }
        if !own.deletes {
          return None;
        }
        table.rows := table.rows - {key};
      }
    }
    ghost var rows := table.rows;
    assert key !in rows ==> rows == old(table.rows) - {key};
    found := TryCandidates(table, target, repos, key, tag, others, weather);
    if found.Some? {
      FoundRow(old(target.blobs), rows, target.blobs, table.rows, repos, key, others, weather, found.value);
    }
  }

  lemma FoundRow(target: Blobs, rows: map<Key, Digest>, target': Blobs, rows': map<Key, Digest>,
                 repos: map<Repo, Blobs>, key: Key, others: seq<Repo>, weather: seq<Weather>, found: Digest)
    requires |others| == |weather|
    requires Searched(target, rows, target', rows', repos, key, others, weather, Some(found))
    ensures exists r ::
      Key(r, key.mediaType, key.original) in rows && rows[Key(r, key.mediaType, key.original)] == found
  {
    var i: nat :| i < |others| &&
      MountedFrom(AfterCandidates(target, rows, repos, key, others, weather, i), target',
                  rows, repos, key, others[i], weather[i], found);
    assert Key(others[i], key.mediaType, key.original) in rows;
  }
}
