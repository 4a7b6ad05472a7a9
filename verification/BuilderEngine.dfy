/** The two conversion engines (cmd/convertor/builder/overlaybd_builder.go and
    turboOCI_builder.go): the per-layer conversion results, the growing stack of
    lower layers, and the commit files found in the layer directories.

    `EngineState` is the engines' state as a value, and the `...Result` functions
    say what each engine call does to it.  The two classes are the engines
    themselves; each of their methods is proved against its function.  The
    concurrent pipeline of module LayerPipeline calls the functions. */
module BuilderEngine {
  import opened Wrappers

  /** A content digest, idealised as collision free.  The empty string is Go's
      zero value. */
  type Digest = string

  const NO_DIGEST: Digest := ""

  datatype Kind = Overlaybd | TurboOCI

  /** One entry of the backing-store config's `lowers`: the default base layer,
      or the file that building a layer leaves in that layer's own directory. */
  datatype Lower = BaseLayer | BuiltLayer(idx: nat)

  /** Chain ids ('Layer ChainID', OCI Image Format Specification): the first
      layer's chain id is its diff id, every later one digests its predecessor's
      chain id together with its own diff id. */
  datatype ChainID = First(diffID: Digest) | Chained(below: ChainID, diffID: Digest)

  function ChainOf(diffIDs: seq<Digest>): ChainID
    requires diffIDs != []
  {
    if |diffIDs| == 1 then First(diffIDs[0])
    else Chained(ChainOf(diffIDs[..|diffIDs| - 1]), diffIDs[|diffIDs| - 1])
  }

  /** Two layers share a chain id exactly when everything from the bottom of
      their images up to them is the same, so a cached layer is only ever
      reused on top of the layers it was built on. */
  lemma {:induction false} ChainIDsIdentifyPrefixes(a: seq<Digest>, b: seq<Digest>)
    requires a != [] && b != []
    ensures ChainOf(a) == ChainOf(b) <==> a == b
    decreases |a|
  {
    if |a| > 1 && |b| > 1 {
      var a', b' := a[..|a| - 1], b[..|b| - 1];
      ChainIDsIdentifyPrefixes(a', b');
      assert a == a' + [a[|a| - 1]];
      assert b == b' + [b[|b| - 1]];
    }
  }

  /** What the engine knows about one layer.
      - `file` is the digest of the layer's built file (overlaybd.commit, or the
        TurboOCI archive) when it is present in the layer directory.
      - `leftover` records that a failed cached download left a file behind
        because removing it failed, too.
      - `config` holds the lowers written to the layer's config file, if one was. */
  datatype LayerState = LayerState(
    chainID: ChainID,
    fromDedup: bool,
    desc: Digest,
    file: Option<Digest>,
    leftover: bool,
    config: Option<seq<Lower>>)

  /** A database row that StoreConvertedLayerDetails asked for. */
  datatype Row = Row(idx: nat, chainID: ChainID, digest: Digest)

  datatype EngineState = EngineState(
    kind: Kind, mkfs: bool, lowers: seq<Lower>, layers: seq<LayerState>, rows: seq<Row>)

  function BaseLowers(mkfs: bool): seq<Lower> {
    if mkfs then [] else [BaseLayer]
  }

  predicate Pristine(l: LayerState) {
    !l.fromDedup && l.desc == NO_DIGEST && l.file == None && !l.leftover && l.config == None
  }

  /** An engine whose work directory is still empty. */
  predicate FreshEngine(e: EngineState) {
    && e.lowers == BaseLowers(e.mkfs)
    && e.rows == []
    && (forall i :: 0 <= i < |e.layers| ==> Pristine(e.layers[i]))
  }

  /** How the operating system and the external tools behave during one BuildLayer. */
  datatype ToolRun =
    | StatFails
    | CreateFails
    | WriteConfigFails
    | ApplyFails
    | CommitFails(left: Option<Digest>)
    | Succeeds(made: Digest)

  datatype BuildError = StatError | CommitFileMissing | CommitFileUnexpected | ToolError

  function Descriptors(layers: seq<LayerState>): seq<Digest> {
    seq(|layers|, i requires 0 <= i < |layers| => layers[i].desc)
  }

  function SetLayer(e: EngineState, i: nat, l: LayerState): EngineState
    requires i < |e.layers|
  {
    e.(layers := e.layers[i := l])
  }

  function PushLower(e: EngineState, i: nat): EngineState {
    e.(lowers := e.lowers + [BuiltLayer(i)])
  }

  /** BuildLayer: reuse the downloaded commit file of a deduplicated layer, or
      create, write the config, apply and commit. */
  function BuildLayerResult(e: EngineState, i: nat, run: ToolRun): (EngineState, Option<BuildError>)
    requires i < |e.layers|
  {
    var l := e.layers[i];
    if e.kind == Overlaybd && run.StatFails? then
      (e, Some(StatError))
    else if e.kind == Overlaybd && l.fromDedup then
      if l.file.Some? then (PushLower(e, i), None) else (e, Some(CommitFileMissing))
    else if e.kind == Overlaybd && l.file.Some? then
      (e, Some(CommitFileUnexpected))
    else
      var configured := l.(config := Some(e.lowers));
      match run
      case StatFails => (e, Some(ToolError))
      case CreateFails => (e, Some(ToolError))
      case WriteConfigFails => (e, Some(ToolError))
      case ApplyFails => (SetLayer(e, i, configured), Some(ToolError))
      case CommitFails(left) => (SetLayer(e, i, configured.(file := left)), Some(ToolError))
      case Succeeds(made) => (PushLower(SetLayer(e, i, configured.(file := Some(made))), i), None)
  }

  /** How a cached download ends: with the whole verified blob, or failed with
      the partial file removed or (removal failing) left behind. */
  datatype CachedDownload = Fetched(got: Digest) | Failed(left: Option<Digest>)

  function DownloadConvertedResult(e: EngineState, i: nat, desc: Digest, d: CachedDownload): EngineState
    requires i < |e.layers|
  {
    var l := e.layers[i];
    match d
    case Fetched(got) => SetLayer(e, i, l.(file := Some(got), fromDedup := true, desc := desc))
    case Failed(left) => SetLayer(e, i, l.(file := left, leftover := left.Some?))
  }

  /** UploadLayer describes the built file, checks a deduplicated layer against
      the cached digest, pushes, and records the descriptor. */
  function UploadLayerResult(e: EngineState, i: nat, pushed: bool): (EngineState, bool)
    requires i < |e.layers|
  {
    var l := e.layers[i];
    if l.file == None || (l.fromDedup && l.file.value != l.desc) || !pushed then (e, false)
    else (SetLayer(e, i, l.(desc := l.file.value)), true)
  }

  /** StoreConvertedLayerDetails: nothing for a deduplicated layer, and nothing
      at all for TurboOCI. */
  function StoreLayerResult(e: EngineState, i: nat): EngineState
    requires i < |e.layers|
  {
    if e.kind == TurboOCI || e.layers[i].fromDedup then e
    else e.(rows := e.rows + [Row(i, e.layers[i].chainID, e.layers[i].desc)])
  }

  // ---------- The uploaded image ----------

  /** The layer list of the uploaded manifest, and the config's diff ids. */
  datatype Image = Image(layers: seq<Digest>, diffIDs: seq<Digest>)

  /** The diff id of a layer's file: an overlaybd layer is its own, a TurboOCI
      archive's is that of the uncompressed archive; None if it cannot be read. */
  function DiffIDOf(kind: Kind, l: LayerState, unpack: Digest -> Option<Digest>): Option<Digest> {
    if kind == Overlaybd then Some(l.desc)
    else if l.file == None then None
    else unpack(l.file.value)
  }

  predicate Readable(kind: Kind, layers: seq<LayerState>, unpack: Digest -> Option<Digest>) {
    forall i :: 0 <= i < |layers| ==> DiffIDOf(kind, layers[i], unpack).Some?
  }

  function BuiltDiffIDs(kind: Kind, layers: seq<LayerState>, unpack: Digest -> Option<Digest>): seq<Digest>
    requires Readable(kind, layers, unpack)
  {
    seq(|layers|, i requires 0 <= i < |layers| => DiffIDOf(kind, layers[i], unpack).value)
  }

  /** The base layer in front of both lists, unless mkfs is on. */
  function WithBase(mkfs: bool, base: Option<Digest>, image: Image): Option<Image> {
    if mkfs then Some(image)
    else if base == None then None
    else Some(Image([base.value] + image.layers, [base.value] + image.diffIDs))
  }

  /** UploadImage, up to the push of manifest and config: `diffIDs` are the source
      image's, `base` is the pushed base layer's digest (None if pushing it fails),
      and `unpack` uncompresses an archive. */
  function UploadImageResult(e: EngineState, diffIDs: seq<Digest>, base: Option<Digest>,
                             unpack: Digest -> Option<Digest>): Option<Image>
    requires |e.layers| <= |diffIDs|
  {
    if !Readable(e.kind, e.layers, unpack) then None
    else WithBase(e.mkfs, base,
           Image(Descriptors(e.layers), BuiltDiffIDs(e.kind, e.layers, unpack) + diffIDs[|e.layers|..]))
  }

  /** The image of an engine all of whose layers have been uploaded. */
  lemma ImageOfUploaded(e: EngineState, diffIDs: seq<Digest>, base: Option<Digest>, unpack: Digest -> Option<Digest>)
    requires |diffIDs| == |e.layers|
    requires forall i :: 0 <= i < |e.layers| ==> e.layers[i].file == Some(e.layers[i].desc)
    ensures UploadImageResult(e, diffIDs, base, unpack).Some? <==>
      && (e.mkfs || base.Some?)
      && (e.kind == TurboOCI ==> forall i :: 0 <= i < |e.layers| ==> unpack(e.layers[i].desc).Some?)
    ensures UploadImageResult(e, diffIDs, base, unpack).Some? ==>
      Corresponds(e, UploadImageResult(e, diffIDs, base, unpack).value, base, unpack)
  {
    assert diffIDs[|e.layers|..] == [];
    assert e.kind == TurboOCI ==>
      forall i :: 0 <= i < |e.layers| ==> DiffIDOf(e.kind, e.layers[i], unpack) == unpack(e.layers[i].desc);
  }

  /** Manifest and diff ids have equal length, the base layer comes first unless
      mkfs is on, and position by position in source order the manifest names the
      file built for a layer and the diff id belongs to that same file. */
  predicate Corresponds(e: EngineState, image: Image, base: Option<Digest>, unpack: Digest -> Option<Digest>) {
    var k := if e.mkfs then 0 else 1;
    && |image.layers| == |image.diffIDs| == |e.layers| + k
    && (k == 1 ==> base == Some(image.layers[0]) == Some(image.diffIDs[0]))
    && (forall i :: 0 <= i < |e.layers| ==>
      && e.layers[i].file == Some(image.layers[k + i])
      && Some(image.diffIDs[k + i]) == if e.kind == Overlaybd then e.layers[i].file else unpack(image.layers[k + i]))
  }

  /** overlaybdBuilderEngine. */
  class OverlaybdEngine {
    const mkfs: bool
    var lowers: seq<Lower>
    var layers: seq<LayerState>
    var rows: seq<Row>
    var manifest: seq<Digest>
    var diffIDs: seq<Digest>

    ghost function State(): EngineState
      reads this
    {
      EngineState(Overlaybd, mkfs, lowers, layers, rows)
    }

    /** NewOverlayBDBuilderEngine: an empty work directory, and for every layer
        the chain id of the diff ids up to it. */
    constructor (mkfs: bool, manifest: seq<Digest>, diffIDs: seq<Digest>)
      requires |manifest| <= |diffIDs|
      ensures this.mkfs == mkfs && this.manifest == manifest && this.diffIDs == diffIDs
      ensures FreshEngine(State()) && |layers| == |manifest|
      ensures forall i :: 0 <= i < |layers| ==> layers[i].chainID == ChainOf(diffIDs[..i + 1])
    {
      this.mkfs := mkfs;
      this.lowers := BaseLowers(mkfs);
      this.rows := [];
      this.manifest := manifest;
      this.diffIDs := diffIDs;
      var results: seq<LayerState> := [];
      var chain: seq<Digest> := [];
      for i := 0 to |manifest|
        invariant chain == diffIDs[..i]
        invariant |results| == i
        invariant forall j :: 0 <= j < i ==> Pristine(results[j]) && results[j].chainID == ChainOf(diffIDs[..j + 1])
      {
        chain := chain + [diffIDs[i]];
        assert chain == diffIDs[..i + 1];
        results := results + [LayerState(ChainOf(chain), false, NO_DIGEST, None, false, None)];
      }
      this.layers := results;
    }

    method BuildLayer(i: nat, run: ToolRun) returns (err: Option<BuildError>)
      requires i < |layers|
      modifies this`lowers, this`layers
      ensures (State(), err) == BuildLayerResult(old(State()), i, run)
      ensures old(layers)[i].fromDedup ==> (err.None? <==> !run.StatFails? && layers[i].file.Some?)
      ensures !old(layers)[i].fromDedup ==> (err.None? <==> old(layers)[i].file == None && run.Succeeds?)
      ensures err.None? && !layers[i].fromDedup ==> layers[i].file == Some(run.made)
    {
      if run.StatFails? {
        return Some(StatError);
      }
      var commitFilePresent := layers[i].file.Some?;
      if layers[i].fromDedup {
        if !commitFilePresent {
          return Some(CommitFileMissing);
        }
      } else {
        if commitFilePresent {
          return Some(CommitFileUnexpected);
        }
        if run.CreateFails? || run.WriteConfigFails? {
          return Some(ToolError);
        }
        layers := layers[i := layers[i].(config := Some(lowers))];
        if run.ApplyFails? {
          return Some(ToolError);
        }
        if run.CommitFails? {
          layers := layers[i := layers[i].(file := run.left)];
          assert layers == old(layers)[i := layers[i]];
          return Some(ToolError);
        }
        layers := layers[i := layers[i].(file := Some(run.made))];
        assert layers == old(layers)[i := layers[i]];
      }
      lowers := lowers + [BuiltLayer(i)];
      return None;
    }

    method DownloadConvertedLayer(i: nat, desc: Digest, d: CachedDownload) returns (ok: bool)
      requires i < |layers|
      modifies this`layers
      ensures State() == DownloadConvertedResult(old(State()), i, desc, d)
      ensures ok == d.Fetched?
    {
      if d.Failed? {
        layers := layers[i := layers[i].(file := d.left, leftover := d.left.Some?)];
        return false;
      }
      layers := layers[i := layers[i].(file := Some(d.got))];
      layers := layers[i := layers[i].(fromDedup := true)];
      layers := layers[i := layers[i].(desc := desc)];
      return true;
    }

    method UploadLayer(i: nat, pushed: bool) returns (ok: bool)
      requires i < |layers|
      modifies this`layers
      ensures (State(), ok) == UploadLayerResult(old(State()), i, pushed)
      ensures !layers[i].fromDedup ==> (ok <==> pushed && layers[i].file.Some?)
      ensures layers[i].fromDedup ==> (ok <==> pushed && layers[i].file == Some(old(layers)[i].desc))
      ensures ok ==> layers[i].file == Some(layers[i].desc)
    {
      if layers[i].file == None {
        return false;
      }
      var desc := layers[i].file.value;
      if layers[i].fromDedup && desc != layers[i].desc {
        return false;
      }
      if !pushed {
        return false;
      }
      layers := layers[i := layers[i].(desc := desc)];
      return true;
    }

    method StoreConvertedLayerDetails(i: nat)
      requires i < |layers|
      modifies this`rows
      ensures State() == StoreLayerResult(old(State()), i)
    {
      if layers[i].fromDedup {
        return;
      }
      rows := rows + [Row(i, layers[i].chainID, layers[i].desc)];
    }

    /** UploadImage: manifest layers and diff ids are overwritten position by
        position with the uploaded descriptors, then the base layer is prepended
        to both when mkfs is off. */
    method UploadImage(base: Option<Digest>, ghost unpack: Digest -> Option<Digest>) returns (ok: bool)
      requires |manifest| == |layers| <= |diffIDs|
      modifies this`manifest, this`diffIDs
      ensures var image := UploadImageResult(State(), old(diffIDs), base, unpack);
        ok == image.Some? && (ok ==> Image(manifest, diffIDs) == image.value)
    {
      var n := |manifest|;
      for idx := 0 to n
        invariant |manifest| == n && |diffIDs| == |old(diffIDs)|
        invariant forall j :: 0 <= j < idx ==> manifest[j] == layers[j].desc && diffIDs[j] == layers[j].desc
        invariant diffIDs[idx..] == old(diffIDs)[idx..]
      {
        manifest := manifest[idx := layers[idx].desc];
        diffIDs := diffIDs[idx := layers[idx].desc];
      }
      assert manifest == Descriptors(layers);
      assert diffIDs == BuiltDiffIDs(Overlaybd, layers, unpack) + old(diffIDs)[n..];
      if !mkfs {
        if base == None {
          return false;
        }
        manifest := [base.value] + manifest;
        diffIDs := [base.value] + diffIDs;
      }
      return true;
    }
  }

  /** What a lower of a TurboOCI layer names besides its directory: the source
      layer's digest, the file-system metadata file, and whether a gzip index. */
  datatype TurboFiles = TurboFiles(idx: nat, targetDigest: Digest, metaFile: string, gzipIndex: bool)

  /** turboOCIBuilderEngine.  No layer is ever deduplicated. */
  class TurboOCIEngine {
    const mkfs: bool
    /** The source layers, whose digests name the layer directories. */
    const source: seq<Digest>
    const fstype: string
    var lowers: seq<Lower>
    /** The lowers of built layers in full, in the same order. */
    var built: seq<TurboFiles>
    var isGzip: seq<bool>
    var layers: seq<LayerState>
    var manifest: seq<Digest>
    var diffIDs: seq<Digest>

    ghost function State(): EngineState
      reads this
    {
      EngineState(TurboOCI, mkfs, lowers, layers, [])
    }

    constructor (mkfs: bool, fstype: string, manifest: seq<Digest>, diffIDs: seq<Digest>, chains: seq<ChainID>)
      requires |chains| == |manifest|
      ensures this.mkfs == mkfs && this.manifest == source == manifest && this.diffIDs == diffIDs
      ensures this.fstype == fstype && built == [] && |isGzip| == |manifest| && true !in isGzip
      ensures FreshEngine(State()) && |layers| == |manifest|
    {
      this.mkfs := mkfs;
      this.fstype := fstype;
      this.built := [];
      this.isGzip := seq(|manifest|, _ => false);
      this.source := manifest;
      this.lowers := BaseLowers(mkfs);
      this.manifest := manifest;
      this.diffIDs := diffIDs;
      this.layers := seq(|manifest|, i requires 0 <= i < |manifest| =>
        LayerState(chains[i], false, NO_DIGEST, None, false, None));
    }

    /** `gzip`: whether the layer is compressed, None if that cannot be found out. */
    method DownloadLayer(i: nat, gzip: Option<bool>, fetched: bool) returns (ok: bool)
      requires i < |isGzip|
      modifies this`isGzip
      ensures ok == (gzip.Some? && fetched) && isGzip == old(isGzip)[i := gzip == Some(true)]
    {
      isGzip := isGzip[i := gzip == Some(true)];
      if gzip == None {
        return false;
      }
      return fetched;
    }

    method BuildLayer(i: nat, run: ToolRun) returns (err: Option<BuildError>)
      requires i < |layers| == |manifest| == |isGzip|
      modifies this`lowers, this`layers, this`built
      ensures (State(), err) == BuildLayerResult(old(State()), i, run)
      ensures err.None? <==> run.Succeeds?
      ensures err.None? ==> layers[i].file == Some(run.made)
      ensures built == old(built) +
        if err.None?
        then [TurboFiles(i, manifest[i], if fstype == "" then "ext4.fs.meta" else fstype + ".fs.meta", isGzip[i])]
        else []
    {
      if run.CreateFails? || run.StatFails? || run.WriteConfigFails? {
        return Some(ToolError);
      }
      layers := layers[i := layers[i].(config := Some(lowers))];
      if run.ApplyFails? {
        return Some(ToolError);
      }
      if run.CommitFails? {
        layers := layers[i := layers[i].(file := run.left)];
        assert layers == old(layers)[i := layers[i]];
        return Some(ToolError);
      }
      layers := layers[i := layers[i].(file := Some(run.made))];
      assert layers == old(layers)[i := layers[i]];
      lowers := lowers + [BuiltLayer(i)];
      var fsMetaFile := (if fstype == "" then "ext4" else fstype) + ".fs.meta";
      assert "ext4" + ".fs.meta" == "ext4.fs.meta";
      built := built + [TurboFiles(i, manifest[i], fsMetaFile, isGzip[i])];
      return None;
    }

    method UploadLayer(i: nat, pushed: bool) returns (ok: bool)
      requires i < |layers| && !layers[i].fromDedup
      modifies this`layers
      ensures (State(), ok) == UploadLayerResult(old(State()), i, pushed)
      ensures ok <==> pushed && layers[i].file.Some?
      ensures ok ==> layers[i].file == Some(layers[i].desc)
    {
      if layers[i].file == None || !pushed {
        return false;
      }
      layers := layers[i := layers[i].(desc := layers[i].file.value)];
      return true;
    }

    /** The archive in the directory named after an index and a digest; no other
        directories have been made. */
    function ArchiveIn(i: nat, digest: Digest): Option<Digest>
      requires i < |layers| && |source| == |layers|
      reads this
    {
      if digest == source[i] then layers[i].file else None
    }

    /** UploadImage.  The archive of layer i lies in the directory named after i and
        the source digest, which manifest.Layers[i] holds until the loop overwrites
        it: the archive is read before that. */
    method UploadImage(base: Option<Digest>, unpack: Digest -> Option<Digest>) returns (ok: bool)
      requires manifest == source && |manifest| == |layers| <= |diffIDs|
      modifies this`manifest, this`diffIDs
      ensures var image := UploadImageResult(State(), old(diffIDs), base, unpack);
        ok == image.Some? && (ok ==> Image(manifest, diffIDs) == image.value)
    {
      var n := |manifest|;
      for idx := 0 to n
        invariant |manifest| == n && |diffIDs| == |old(diffIDs)|
        invariant manifest[idx..] == source[idx..] && diffIDs[idx..] == old(diffIDs)[idx..]
        invariant forall j :: 0 <= j < idx ==> manifest[j] == layers[j].desc
        invariant forall j :: 0 <= j < idx ==> Some(diffIDs[j]) == DiffIDOf(TurboOCI, layers[j], unpack)
      {
        assert manifest[idx] == manifest[idx..][0] == source[idx];
        var archive := ArchiveIn(idx, manifest[idx]);
        if archive == None || unpack(archive.value) == None {
          assert !Readable(TurboOCI, layers, unpack);
          return false;
        }
        var uncompressed := unpack(archive.value).value;
        manifest := manifest[idx := layers[idx].desc];
        diffIDs := diffIDs[idx := uncompressed];
      }
      assert manifest == Descriptors(layers);
      assert diffIDs == BuiltDiffIDs(TurboOCI, layers, unpack) + old(diffIDs)[n..];
      if !mkfs {
        if base == None {
          return false;
        }
        manifest := [base.value] + manifest;
        diffIDs := [base.value] + diffIDs;
      }
      return true;
    }
  }
}
