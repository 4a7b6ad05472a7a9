/** The backing-store configs of the snapshotter: ConstructOverlayBDSpec,
    constructSpecForAccelLayer and updateSpec (pkg/snapshot/storage.go:627-856)
    as createMountPoint and Commit (pkg/snapshot/overlay.go:481-967) call them.
    Write transactions are exclusive, so each operation is one method; a failed
    operation rolls the metadata back but not the files it has written. */
module SnapshotSpecs {
  import opened Wrappers

  type Key = string
  type Id = nat

  // ---------- Configs ----------

  /** The File field of a lower: unset, a file in a snapshot's directory, or
      (after the ext4 fallback has rewritten an unset field) a bare name. */
  datatype FileRef = NoFile | InSnapshot(dir: Id, name: string) | Bare(name: string)

  datatype Form = RemoteBlob | RemoteTurbo | LocalDir | LocalTurbo

  /** One entry of `lowers`; `owner` is the snapshot whose Dir or TargetFile it names. */
  datatype Lower = Lower(owner: Id, form: Form, file: FileRef)

  datatype Config = Config(lowers: seq<Lower>, writable: bool, accelerated: bool, tracePath: string)

  function Owners(lowers: seq<Lower>): seq<Id> {
    seq(|lowers|, i requires 0 <= i < |lowers| => lowers[i].owner)
  }

  /** The config has an entry for the snapshot itself, on top. */
  predicate HasOwn(c: Config, id: Id) {
    c.lowers != [] && c.lowers[|c.lowers| - 1].owner == id
  }

  const EXT4_META := "ext4.fs.meta"
  const MAGIC_FILE := "overlaybd.commit"

  function MetaName(f: FileRef): string {
    if f.NoFile? then "" else f.name
  }

  /** The fallback keeps the directory part and replaces the file name. */
  function Renamed(l: Lower): Lower {
    l.(file := if l.file.InSnapshot? then InSnapshot(l.file.dir, EXT4_META) else Bare(EXT4_META))
  }

  function ForceExt4(lowers: seq<Lower>): seq<Lower> {
    seq(|lowers|, i requires 0 <= i < |lowers| => Renamed(lowers[i]))
  }

  predicate AllTurbo(lowers: seq<Lower>) {
    forall i :: 0 <= i < |lowers| ==> lowers[i].form.RemoteTurbo?
  }

  /** One file-system metadata name for the whole list, each file in its own
      snapshot's directory. */
  predicate OneMeta(lowers: seq<Lower>) {
    && (forall i :: 0 <= i < |lowers| ==> lowers[i].file.InSnapshot? && lowers[i].file.dir == lowers[i].owner)
    && (forall i, j :: 0 <= i < |lowers| && 0 <= j < |lowers| ==> MetaName(lowers[i].file) == MetaName(lowers[j].file))
  }

  // ---------- Metadata and files ----------

  datatype Kind = Active | View | Committed

  datatype Mode = RoDir | RwDir | RwDev

  /** The labels that the operations look at. */
  datatype Labels = Labels(
    targetRef: Option<Key>,   // containerd.io/snapshot.ref
    blob: bool,               // blob-size and blob-digest
    imageRef: bool,           // image-ref or cri.image-ref
    turbo: bool,              // turbo-oci or fastoci target digest
    accel: bool,              // acceleration-layer == yes
    download: bool,           // download-remote-blob == download
    mode: Option<Mode>,       // overlaybd.writable
    image: bool)              // snapshot/type == image

  datatype Info = Info(id: Id, parent: Option<Key>, kind: Kind, labels: Labels)

  type Infos = map<Key, Info>
  type Configs = map<Id, Config>

  /** Opening a data file and reading its header. */
  datatype Probe = Missing | Unreadable | Overlaybd | Foreign

  datatype Files = Files(commit: Probe, sealed: Probe, writable: Probe, layerTar: bool)

  datatype StorageType = Normal | LocalBlock | RemoteBlock | LocalLayer

  /** identifySnapshotStorageType. */
  function Identify(l: Labels, f: Files, hasConfig: bool): Option<StorageType> {
    if Remote(l) then Some(RemoteBlock)
    else if f.commit.Overlaybd? then Some(LocalBlock)
    else if f.commit.Foreign? then Some(Normal)
    else if f.sealed.Overlaybd? then Some(LocalBlock)
    else if f.sealed.Foreign? then Some(Normal)
    else if f.writable.Overlaybd? then Some(LocalBlock)
    else if f.writable.Foreign? then Some(Normal)
    else if f.layerTar then Some(LocalLayer)
    else if f.writable.Missing? then Some(if hasConfig then RemoteBlock else Normal)
    else None
  }

  predicate Remote(l: Labels) {
    l.targetRef.Some? && l.blob && l.imageRef
  }

  lemma RemoteByLabels(l: Labels, f: Files, hasConfig: bool)
    requires l.targetRef.Some? && l.blob && l.imageRef
    ensures Identify(l, f, hasConfig) == Some(RemoteBlock)
  {
  }

  predicate Readable(p: Probe) {
    p.Overlaybd? || p.Foreign?
  }

  /** Unless the labels say that it is remote, the first of the three data files
      that can be read decides; without one, a layer.tar and then a config do, and
      nothing is known when only the last file's error is not its absence. */
  lemma FirstReadableFileDecides(l: Labels, f: Files, hasConfig: bool, i: nat)
    requires !(l.targetRef.Some? && l.blob && l.imageRef) && i <= 3
    requires var files := [f.commit, f.sealed, f.writable];
      (forall j :: 0 <= j < i ==> !Readable(files[j])) && (i < 3 ==> Readable(files[i]))
    ensures Identify(l, f, hasConfig) ==
      if i < 3 then Some(if [f.commit, f.sealed, f.writable][i].Overlaybd? then LocalBlock else Normal)
      else if f.layerTar then Some(LocalLayer)
      else if f.writable.Unreadable? then None
      else Some(if hasConfig then RemoteBlock else Normal)
  {
    var files := [f.commit, f.sealed, f.writable];
    assert i > 0 ==> !Readable(files[0]);
    assert i > 1 ==> !Readable(files[1]);
    assert i > 2 ==> !Readable(files[2]);
  }

  /** The config of a pulled layer is written by Prepare already. */
  predicate PullsRemote(l: Labels) {
    Remote(l) && (l.download || !l.turbo)
  }

  predicate OnBlock(stype: Option<StorageType>) {
    stype == Some(LocalBlock) || stype == Some(LocalLayer)
  }

  // ---------- The constructions ----------

  /** What the host contributes to one construction: whether the ext4 fallback
      file exists, which metadata file the bottom TurboOCI layer holds, and
      whether label parsing and the external tools succeed. */
  datatype Host = Host(fallback: bool, metaName: string, works: bool)

  /** The snapshot's own entry. */
  function OwnLower(id: Id, stype: StorageType, l: Labels, layerTar: bool, meta: string): Lower {
    match stype
    case RemoteBlock =>
      if l.turbo then Lower(id, RemoteTurbo, InSnapshot(id, meta)) else Lower(id, RemoteBlob, NoFile)
    case LocalBlock =>
      if layerTar then Lower(id, LocalTurbo, InSnapshot(id, MAGIC_FILE)) else Lower(id, LocalDir, NoFile)
    case _ => Lower(id, LocalTurbo, InSnapshot(id, MAGIC_FILE))
  }

  /** A child follows the bottom layer's choice of a metadata file. */
  function MetaOf(lowers: seq<Lower>, host: Host): string {
    if lowers != [] then MetaName(lowers[0].file) else host.metaName
  }

  /** ConstructOverlayBDSpec: the parent's lowers, followed by the own entry
      unless the snapshot is a fresh writable one; for a TurboOCI snapshot the
      fallback then renames every entry's file.  `below` is the parent's list.
      None is an error, or the index panic of a TurboOCI snapshot above an empty
      list. */
  function Construct(hasParent: bool, below: Option<seq<Lower>>, id: Id, stype: StorageType, l: Labels,
                     layerTar: bool, writable: bool, host: Host): Option<Config>
  {
    if !host.works || (hasParent && below.None?) then None
    else if (if writable then stype.RemoteBlock? || stype.LocalBlock? else stype.Normal?) then None
    else
      var lowers := if hasParent then below.value else [];
      if stype.RemoteBlock? && l.turbo && hasParent && lowers == [] then None
      else
        var all :=
          if stype.Normal? then lowers else lowers + [OwnLower(id, stype, l, layerTar, MetaOf(lowers, host))];
        if !l.turbo || !host.fallback then Some(Config(all, stype.Normal?, false, ""))
        else if all == [] then None
        else Some(Config(if all[0].file.NoFile? then all else ForceExt4(all), stype.Normal?, false, ""))
  }

  /** Everything that has to be the case for a construction to write a config: the
      host works, the parent has a config, the storage fits the purpose, and a
      TurboOCI snapshot that looks at the bottom entry finds one. */
  predicate Constructible(hasParent: bool, below: Option<seq<Lower>>, stype: StorageType, l: Labels,
                          writable: bool, host: Host)
  {
    && host.works && (hasParent ==> below.Some?)
    && (writable ==> stype.Normal? || stype.LocalLayer?)
    && (!writable ==> !stype.Normal?)
    && (l.turbo && stype.RemoteBlock? && hasParent ==> below != Some([]))
    && (l.turbo && stype.Normal? && host.fallback ==> hasParent && below != Some([]))
  }

  lemma ConstructSucceedsExactlyWhen(hasParent: bool, below: Option<seq<Lower>>, id: Id, stype: StorageType, l: Labels,
                                     layerTar: bool, writable: bool, host: Host)
    ensures Construct(hasParent, below, id, stype, l, layerTar, writable, host).Some?
      <==> Constructible(hasParent, below, stype, l, writable, host)
  {
    if hasParent && below.Some? {
      assert below != Some([]) <==> below.value != [];
    }
  }

  /** The two constructions that Commit makes for a converted local layer, first
      as a layer blob and then as the block it was converted to, agree. */
  lemma ConvertedLayerConstructedTwice(hasParent: bool, below: Option<seq<Lower>>, id: Id, l: Labels, host: Host)
    ensures Construct(hasParent, below, id, LocalLayer, l, true, false, host)
         == Construct(hasParent, below, id, LocalBlock, l, true, false, host)
  {
  }

  function ListOf(below: Option<seq<Lower>>): seq<Lower> {
    if below.Some? then below.value else []
  }

  /** The parent's entries, then the given ones.  With the fallback every entry is
      renamed, unless the bottom one names no file. */
  function Listed(below: seq<Lower>, own: seq<Lower>, fallback: bool): seq<Lower> {
    var all := below + own;
    if fallback && all != [] && !all[0].file.NoFile? then ForceExt4(all) else all
  }

  /** A list for snapshot `id` over a parent's list: the parent's entries in their
      order, either all as they are or all renamed, followed by at most one entry
      for the snapshot itself, which is renamed with the others. */
  predicate ListedOver(lowers: seq<Lower>, below: seq<Lower>, id: Id) {
    && |below| <= |lowers| <= |below| + 1
    && (lowers[..|below|] == below || (lowers[..|below|] == ForceExt4(below) && lowers == ForceExt4(lowers)))
    && (|lowers| > |below| ==> lowers[|below|].owner == id)
  }

  lemma ListedIsListedOver(below: seq<Lower>, own: seq<Lower>, fallback: bool, id: Id)
    requires |own| <= 1 && (own != [] ==> own[0].owner == id)
    ensures ListedOver(Listed(below, own, fallback), below, id)
    ensures |Listed(below, own, fallback)| == |below| + |own|
  {
    var lowers := Listed(below, own, fallback);
    if lowers == ForceExt4(below + own) {
      assert lowers[..|below|] == ForceExt4(below);
      assert lowers == ForceExt4(lowers);
    } else {
      assert lowers[..|below|] == below;
    }
  }

  /** Every construction lists the parent's entries and, unless the snapshot is a
      fresh writable one, exactly one of its own on top. */
  lemma ConstructListed(hasParent: bool, below: Option<seq<Lower>>, id: Id, stype: StorageType, l: Labels,
                        layerTar: bool, writable: bool, host: Host)
    requires hasParent == below.Some?
    requires Construct(hasParent, below, id, stype, l, layerTar, writable, host).Some?
    ensures var c, list := Construct(hasParent, below, id, stype, l, layerTar, writable, host).value, ListOf(below);
      && c.lowers == Listed(list, if stype.Normal? then [] else [OwnLower(id, stype, l, layerTar, MetaOf(list, host))],
                            l.turbo && host.fallback)
      && ListedOver(c.lowers, list, id) && |c.lowers| == |list| + (if stype.Normal? then 0 else 1)
      && c == Config(c.lowers, stype.Normal?, false, "")
  {
    var list := ListOf(below);
    var own := if stype.Normal? then [] else [OwnLower(id, stype, l, layerTar, MetaOf(list, host))];
    ListedIsListedOver(list, own, l.turbo && host.fallback, id);
    assert list + own == if stype.Normal? then list else list + own;
  }

  /** The inherited entries keep owner, form and order; their files do too, unless
      the fallback gives all of them the same name. */
  lemma InheritedEntries(hasParent: bool, below: Option<seq<Lower>>, id: Id, stype: StorageType, l: Labels,
                         layerTar: bool, writable: bool, host: Host, i: nat)
    requires hasParent == below.Some? && i < |ListOf(below)|
    requires Construct(hasParent, below, id, stype, l, layerTar, writable, host).Some?
    ensures var lowers, list := Construct(hasParent, below, id, stype, l, layerTar, writable, host).value.lowers,
                                ListOf(below);
      && i < |lowers| && lowers[i].owner == list[i].owner && lowers[i].form == list[i].form
      && lowers[i].file ==
           if !(l.turbo && host.fallback) || list[0].file.NoFile? then list[i].file
           else if list[i].file.InSnapshot? then InSnapshot(list[i].file.dir, "ext4.fs.meta")
           else Bare("ext4.fs.meta")
  {
    ConstructListed(hasParent, below, id, stype, l, layerTar, writable, host);
  }

  /** The snapshot's own entry, on top of a read-only list: a blob in the registry
      and a converted one in the own directory name no file, a layer blob names the
      file it was converted to, and a remote TurboOCI layer the same metadata file
      as the bottom entry, or if it is the bottom the one its directory holds. */
  lemma OwnEntryOnTop(hasParent: bool, below: Option<seq<Lower>>, id: Id, stype: StorageType, l: Labels,
                      layerTar: bool, host: Host)
    requires hasParent == below.Some?
    requires Construct(hasParent, below, id, stype, l, layerTar, false, host).Some?
    ensures var list := ListOf(below);
      var lowers := Construct(hasParent, below, id, stype, l, layerTar, false, host).value.lowers;
      && |lowers| == |list| + 1 && lowers[|list|].owner == id
      && (stype.RemoteBlock? && l.turbo ==> lowers[|list|].form == RemoteTurbo)
      && (stype.RemoteBlock? && !l.turbo ==> lowers[|list|].form == RemoteBlob)
      && (stype.LocalBlock? && !layerTar ==> lowers[|list|].form == LocalDir)
      && (stype.LocalLayer? || (stype.LocalBlock? && layerTar) ==> lowers[|list|].form == LocalTurbo)
      && (!(l.turbo && host.fallback) ==>
           lowers[|list|].file ==
             if stype.RemoteBlock? && l.turbo then
               InSnapshot(id, if list == [] then host.metaName
                              else if list[0].file.NoFile? then "" else list[0].file.name)
             else if lowers[|list|].form == LocalTurbo then InSnapshot(id, "overlaybd.commit") else NoFile)
      && (l.turbo && host.fallback && stype.RemoteBlock? && (list == [] || !list[0].file.NoFile?) ==>
           lowers[|list|].file == InSnapshot(id, "ext4.fs.meta"))
  {
    var list := ListOf(below);
    var own := OwnLower(id, stype, l, layerTar, MetaOf(list, host));
    ConstructListed(hasParent, below, id, stype, l, layerTar, false, host);
    assert (list + [own])[|list|] == own;
    assert list != [] ==> (list + [own])[0] == list[0];
  }

  /** A list of TurboOCI layers uses one metadata file name throughout. */
  lemma ConstructOneMeta(hasParent: bool, below: Option<seq<Lower>>, id: Id, stype: StorageType, l: Labels,
                         layerTar: bool, writable: bool, host: Host)
    requires hasParent == below.Some? && (AllTurbo(ListOf(below)) ==> OneMeta(ListOf(below)))
    requires Construct(hasParent, below, id, stype, l, layerTar, writable, host).Some?
    ensures var c := Construct(hasParent, below, id, stype, l, layerTar, writable, host).value;
      AllTurbo(c.lowers) ==> OneMeta(c.lowers)
  {
    var list := ListOf(below);
    var own := if stype.Normal? then [] else [OwnLower(id, stype, l, layerTar, MetaOf(list, host))];
    ConstructListed(hasParent, below, id, stype, l, layerTar, writable, host);
    AppendedOneMeta(list, own, host.metaName);
    RenamedOneMeta(list + own);
  }

  lemma AppendedOneMeta(below: seq<Lower>, own: seq<Lower>, meta: string)
    requires (AllTurbo(below) ==> OneMeta(below)) && |own| <= 1
    requires own != [] && own[0].form.RemoteTurbo? ==>
      own[0].file == InSnapshot(own[0].owner, if below != [] then MetaName(below[0].file) else meta)
    ensures AllTurbo(below + own) ==> OneMeta(below + own)
  {
    if AllTurbo(below + own) {
      assert forall i :: 0 <= i < |below| ==> (below + own)[i] == below[i];
      assert own != [] ==> (below + own)[|below|] == own[0];
    }
  }

  lemma RenamedOneMeta(all: seq<Lower>)
    requires AllTurbo(all) ==> OneMeta(all)
    ensures AllTurbo(ForceExt4(all)) ==> OneMeta(ForceExt4(all))
  {
    assert forall i :: 0 <= i < |all| ==> ForceExt4(all)[i].form == all[i].form;
  }

  // ---------- Invariant ----------

  /** The parent's lowers as constructions see them. */
  function Below(infos: Infos, configs: Configs, parent: Option<Key>): Option<seq<Lower>> {
    if parent.Some? && parent.value in infos && infos[parent.value].id in configs
    then Some(configs[infos[parent.value].id].lowers) else None
  }

  /** A read-only config has an entry for the snapshot itself, a writable root file
      system's has none. */
  predicate OwnEntryWhenReadOnly(c: Config, below: seq<Lower>, info: Info) {
    && (!c.writable ==> |c.lowers| == |below| + 1)
    && (c.writable && !info.kind.Committed? && info.labels.targetRef.None? ==> |c.lowers| == |below|)
  }

  predicate ConfigOk(infos: Infos, configs: Configs, k: Key)
    requires k in infos
  {
    var info := infos[k];
    info.id in configs ==>
      var c, below := configs[info.id], Below(infos, configs, info.parent);
      && (info.parent.Some? ==> below.Some?)
      && ListedOver(c.lowers, ListOf(below), info.id) && OwnEntryWhenReadOnly(c, ListOf(below), info)
      && (AllTurbo(c.lowers) ==> OneMeta(c.lowers))
  }

  /** Ids are unique and increase from parent to child; parents are committed. */
  ghost predicate Chained(infos: Infos, nextId: Id) {
    && (forall j, k :: j in infos && k in infos && infos[j].id == infos[k].id ==> j == k)
    && (forall k :: k in infos ==>
      && infos[k].id < nextId
      && (infos[k].parent.Some? ==>
        var p := infos[k].parent.value; p in infos && infos[p].kind.Committed? && infos[p].id < infos[k].id))
  }

  ghost predicate OwnersOlder(configs: Configs, nextId: Id) {
    && (forall id :: id in configs ==> id < nextId)
    && (forall id :: id in configs ==> forall i :: 0 <= i < |configs[id].lowers| ==> configs[id].lowers[i].owner <= id)
  }

  ghost predicate WellFormed(infos: Infos, configs: Configs, nextId: Id) {
    && Chained(infos, nextId) && OwnersOlder(configs, nextId)
    && (forall k :: k in infos ==> ConfigOk(infos, configs, k))
  }

  predicate Placed(infos: Infos, info: Info) {
    info.parent.Some? ==> info.parent.value in infos && infos[info.parent.value].id < info.id
  }

  predicate Addable(infos: Infos, nextId: Id, info: Info) {
    && info.id == nextId && !info.kind.Committed?
    && (info.parent.Some? ==>
      && info.parent.value in infos && infos[info.parent.value].kind.Committed?
      && infos[info.parent.value].id < info.id)
  }

  /** Existing configs stay, with the same lowers. */
  predicate KeptLists(configs: Configs, configs': Configs) {
    forall id :: id in configs ==> id in configs' && configs'[id].lowers == configs[id].lowers
  }

  /** Exactly one snapshot has been added, and no config but possibly its own,
      which lists the parent's entries and then `own`. */
  predicate Added(infos: Infos, configs: Configs, nextId: Id, infos': Infos, configs': Configs, nextId': Id,
                  key: Key, info: Info, own: seq<Lower>, fallback: bool)
  {
    var below := Below(infos, configs, info.parent);
    && key !in infos && info.id == nextId && nextId' == nextId + 1
    && infos' == infos[key := info]
    && KeptLists(configs, configs') && configs'.Keys <= configs.Keys + {info.id}
    && (info.id in configs' ==>
      (info.parent.Some? ==> below.Some?) && configs'[info.id].lowers == Listed(ListOf(below), own, fallback))
  }

  /** The entry that Prepare writes for the snapshot itself: one for a layer, none
      for a root file system. */
  function PreparedOwn(id: Id, l: Labels, below: seq<Lower>, host: Host): seq<Lower> {
    if l.targetRef.None? then []
    else if l.accel then [Lower(id, LocalDir, NoFile)]
    else [OwnLower(id, RemoteBlock, l, false, MetaOf(below, host))]
  }

  /** The parent's config has an upper: it was written for a writable snapshot that
      was committed without being sealed. */
  predicate CopiesWritable(infos: Infos, configs: Configs, parent: Option<Key>) {
    && parent.Some? && parent.value in infos && infos[parent.value].id in configs
    && configs[infos[parent.value].id].writable
  }

  /** Only an acceleration layer is not subject to the fallback. */
  predicate PreparedFallback(l: Labels, host: Host) {
    l.turbo && host.fallback && !(l.targetRef.Some? && l.accel)
  }

  lemma BelowIsTheParentsList(infos: Infos, configs: Configs, parent: Key)
    ensures Below(infos, configs, Some(parent)).Some? <==> parent in infos && infos[parent].id in configs
    ensures parent in infos && infos[parent].id in configs ==>
      Below(infos, configs, Some(parent)).value == configs[infos[parent].id].lowers
  {
  }

  // ---------- What the invariant means for a whole chain ----------

  /** The ids from the bottom of a snapshot's chain up to the snapshot. */
  ghost function Ancestry(infos: Infos, configs: Configs, nextId: Id, k: Key): seq<Id>
    requires WellFormed(infos, configs, nextId) && k in infos
    decreases infos[k].id
  {
    (if infos[k].parent.Some? then Ancestry(infos, configs, nextId, infos[k].parent.value) else []) + [infos[k].id]
  }

  /** The entries that the snapshots of a chain have written for themselves. */
  ghost function OwnEntries(infos: Infos, configs: Configs, nextId: Id, k: Key): seq<Lower>
    requires WellFormed(infos, configs, nextId) && k in infos
    decreases infos[k].id, 1
  {
    var id := infos[k].id;
    OwnEntriesBelow(infos, configs, nextId, k) + (if id in configs then OwnEntry(configs[id], id) else [])
  }

  ghost function OwnEntriesBelow(infos: Infos, configs: Configs, nextId: Id, k: Key): seq<Lower>
    requires WellFormed(infos, configs, nextId) && k in infos
    decreases infos[k].id, 0
  {
    if infos[k].parent.Some? then OwnEntries(infos, configs, nextId, infos[k].parent.value) else []
  }

  function OwnEntry(c: Config, id: Id): seq<Lower> {
    if HasOwn(c, id) then c.lowers[|c.lowers| - 1..] else []
  }

  /** The same entry, perhaps with its file renamed by the fallback. */
  predicate Same(a: Lower, b: Lower) {
    a == b || a == Renamed(b)
  }

  predicate SameList(a: seq<Lower>, b: seq<Lower>) {
    |a| == |b| && forall i :: 0 <= i < |a| ==> Same(a[i], b[i])
  }

  lemma ExtendsSame(c: Config, below: seq<Lower>, entries: seq<Lower>, id: Id)
    requires forall i :: 0 <= i < |below| ==> below[i].owner < id
    requires ListedOver(c.lowers, below, id) && SameList(below, entries)
    ensures SameList(c.lowers, entries + OwnEntry(c, id))
  {
    OwnOnTop(below, c, id);
    var n := |below|;
    TopEntry(c, below, id);
    assert c.lowers == c.lowers[..n] + OwnEntry(c, id);
    if c.lowers[..n] == ForceExt4(below) {
      RenamedIsSame(below, entries);
    }
    SameAppend(c.lowers[..n], entries, OwnEntry(c, id));
  }

  lemma TopEntry(c: Config, below: seq<Lower>, id: Id)
    requires |c.lowers| == |below| + (if HasOwn(c, id) then 1 else 0)
    ensures c.lowers[|below|..] == OwnEntry(c, id)
  {
  }

  lemma RenamedIsSame(below: seq<Lower>, entries: seq<Lower>)
    requires SameList(below, entries)
    ensures SameList(ForceExt4(below), entries)
  {
    forall i | 0 <= i < |below| ensures Same(Renamed(below[i]), entries[i]) {
      assert Same(below[i], entries[i]);
    }
  }

  lemma SameAppend(a: seq<Lower>, b: seq<Lower>, c: seq<Lower>)
    requires SameList(a, b)
    ensures SameList(a + c, b + c)
  {
  }

  lemma OwnersExtend(c: Config, below: seq<Lower>, id: Id)
    requires forall i :: 0 <= i < |below| ==> below[i].owner < id
    requires ListedOver(c.lowers, below, id)
    ensures Owners(c.lowers) == Owners(below) + if HasOwn(c, id) then [id] else []
  {
    OwnOnTop(below, c, id);
    forall i | 0 <= i < |below| ensures c.lowers[i].owner == below[i].owner {
      assert c.lowers[i] == c.lowers[..|below|][i];
    }
  }

  /** In every reachable state a config lists exactly the entries that the
      snapshots of its chain have written for themselves, each once, bottom
      first; only the fallback may have renamed their files. */
  lemma {:induction false} ConfigListsItsChain(infos: Infos, configs: Configs, nextId: Id, k: Key)
    requires WellFormed(infos, configs, nextId) && k in infos && infos[k].id in configs
    ensures SameList(configs[infos[k].id].lowers, OwnEntries(infos, configs, nextId, k))
    decreases infos[k].id
  {
    assert ConfigOk(infos, configs, k);
    var id, below := infos[k].id, Below(infos, configs, infos[k].parent);
    if infos[k].parent.Some? {
      ConfigListsItsChain(infos, configs, nextId, infos[k].parent.value);
    }
    BelowIsOlder(infos, configs, nextId, infos[k].parent, id);
    ExtendsSame(configs[id], ListOf(below), OwnEntriesBelow(infos, configs, nextId, k), id);
  }

  /** A chain of read-only configs is listed completely: one entry for each of its
      snapshots. */
  lemma {:induction false} ReadOnlyChainIsComplete(infos: Infos, configs: Configs, nextId: Id, k: Key)
    requires WellFormed(infos, configs, nextId) && k in infos
    requires forall id :: id in Ancestry(infos, configs, nextId, k) ==> id in configs && !configs[id].writable
    ensures infos[k].id in configs
    ensures Owners(configs[infos[k].id].lowers) == Ancestry(infos, configs, nextId, k)
    decreases infos[k].id
  {
    assert infos[k].id in Ancestry(infos, configs, nextId, k);
    if infos[k].parent.Some? {
      ReadOnlyChainIsComplete(infos, configs, nextId, infos[k].parent.value);
    }
    assert ConfigOk(infos, configs, k);
    var id, below := infos[k].id, ListOf(Below(infos, configs, infos[k].parent));
    BelowIsOlder(infos, configs, nextId, infos[k].parent, id);
    OwnersExtend(configs[id], below, id);
  }

  /** A writable root file system lists exactly what its image lists, and so the
      whole image if all layers are read-only. */
  lemma RootfsListsItsImage(infos: Infos, configs: Configs, nextId: Id, k: Key)
    requires WellFormed(infos, configs, nextId) && k in infos && infos[k].id in configs
    requires infos[k].parent.Some? && !infos[k].kind.Committed? && infos[k].labels.targetRef.None?
    requires configs[infos[k].id].writable
    ensures var image := infos[k].parent.value;
      && image in infos && infos[image].id in configs
      && (configs[infos[k].id].lowers == configs[infos[image].id].lowers
          || configs[infos[k].id].lowers == ForceExt4(configs[infos[image].id].lowers))
      && ((forall id :: id in Ancestry(infos, configs, nextId, image) ==> id in configs && !configs[id].writable) ==>
            Owners(configs[infos[k].id].lowers) == Ancestry(infos, configs, nextId, image))
  {
    assert ConfigOk(infos, configs, k);
    var image, c := infos[k].parent.value, configs[infos[k].id];
    var below := configs[infos[image].id].lowers;
    assert c.lowers[..|below|] == c.lowers;
    assert Owners(ForceExt4(below)) == Owners(below);
    if forall id :: id in Ancestry(infos, configs, nextId, image) ==> id in configs && !configs[id].writable {
      ReadOnlyChainIsComplete(infos, configs, nextId, image);
    }
  }

  /** A config of nothing but TurboOCI layers uses one metadata file name. */
  lemma TurboChainHasOneMeta(infos: Infos, configs: Configs, nextId: Id, k: Key)
    requires WellFormed(infos, configs, nextId) && k in infos && infos[k].id in configs
    requires AllTurbo(configs[infos[k].id].lowers)
    ensures OneMeta(configs[infos[k].id].lowers)
  {
    assert ConfigOk(infos, configs, k);
  }

  // ---------- The snapshotter ----------

  datatype Prepared = Failed | Mounted | AlreadyCommitted

  /** How the host behaves during one Prepare or View. */
  datatype PrepareEnv = PrepareEnv(
    host: Host, parentFiles: Files, recordTrace: bool, tracePath: string, attaches: bool)

  /** How the host behaves during one Commit: the files found in the snapshot's
      directory, and whether detaching, sealing and the closing metadata update
      succeed. */
  datatype CommitEnv = CommitEnv(host: Host, files: Files, detaches: bool, seals: bool, updates: bool)

  /** A read-only config of the committed snapshot that lists the parent's entries
      and then its own. */
  predicate CommitsTo(c: Config, below: Option<seq<Lower>>, info: Info, stype: StorageType, l: Labels, env: CommitEnv) {
    && !c.writable && !c.accelerated && c.tracePath == "" && (info.parent.Some? ==> below.Some?)
    && c.lowers == Listed(ListOf(below),
         [OwnLower(info.id, stype, l, env.files.layerTar, MetaOf(ListOf(below), env.host))],
         l.turbo && env.host.fallback)
  }

  /** Commit has replaced one config, by such a one. */
  predicate Recommitted(infos: Infos, configs: Configs, configs': Configs, info: Info, l: Labels, env: CommitEnv) {
    var stype := Identify(l, env.files, info.id in configs);
    && stype.Some? && info.id in configs' && configs' == configs[info.id := configs'[info.id]]
    && CommitsTo(configs'[info.id], Below(infos, configs, info.parent), info, stype.value, l, env)
  }

  /** What a new snapshot's own preparation needs.  A layer needs its parent's config
      if it is an acceleration layer, and otherwise, if its blob stays in the
      registry, a config of its own and, unless it is to be downloaded, a free name
      to be committed under at once, which only an active snapshot can be. */
  predicate LayerWorks(infos: Infos, configs: Configs, key: Key, info: Info, host: Host) {
    var below, target := Below(infos, configs, info.parent), info.labels.targetRef;
    if info.labels.accel then below.Some?
    else PullsRemote(info.labels) ==>
      && (info.labels.download || (info.kind.Active? && target != Some(key) && target.Some? && target.value !in infos))
      && Constructible(info.parent.Some?, below, RemoteBlock, info.labels, false, host)
  }

  /** The storage that the parent of a read-only root file system is on. */
  function ParentStorage(infos: Infos, configs: Configs, parent: Option<Key>, files: Files): Option<StorageType> {
    if parent.None? then Some(Normal)
    else if parent.value in infos then
      Identify(infos[parent.value].labels, files, Below(infos, configs, parent).Some?)
    else None
  }

  predicate IsBlock(stype: Option<StorageType>) {
    stype == Some(LocalBlock) || stype == Some(RemoteBlock)
  }

  /** A root file system needs a config of its own and its device if it is writable,
      and its parent's config and device if it is read-only over a block. */
  predicate RootfsWorks(infos: Infos, configs: Configs, info: Info, writable: bool, env: PrepareEnv) {
    var below := Below(infos, configs, info.parent);
    if writable then Constructible(info.parent.Some?, below, Normal, info.labels, true, env.host) && env.attaches
    else
      info.parent.Some? && info.parent.value in infos ==>
        var stype := Identify(infos[info.parent.value].labels, env.parentFiles, below.Some?);
        stype.Some? && (stype == Some(LocalBlock) || stype == Some(RemoteBlock) ==> below.Some? && env.attaches)
  }

  /** Trace flags have been set in the parent's config, and nothing else changed in
      the configs there were: replay for an acceleration layer, recording into a
      file if that was asked for, and neither otherwise. */
  predicate Flagged(infos: Infos, configs: Configs, configs': Configs, parent: Key, env: PrepareEnv) {
    && parent in infos
    && var id, accel := infos[parent].id, infos[parent].labels.accel;
       && id in configs && configs.Keys <= configs'.Keys
       && (forall i :: i in configs && i != id ==> configs'[i] == configs[i])
       && configs'[id] == configs[id].(accelerated := accel,
                                       tracePath := if !accel && env.recordTrace then env.tracePath else "")
  }

  /** The trace flags go to the parent's config exactly if the root file system is
      on a block and its preparation gets that far. */
  predicate RootfsTraced(infos: Infos, configs: Configs, configs': Configs, parent: Option<Key>, writable: bool,
                         env: PrepareEnv, ok: bool)
  {
    if parent.Some? && (writable || IsBlock(ParentStorage(infos, configs, parent, env.parentFiles))) then
      Flagged(infos, configs, configs', parent.value, env) || (!ok && Untouched(configs, configs'))
    else Untouched(configs, configs')
  }

  /** The trace flags of a writable root file system are its parent's. */
  predicate FlagsFollow(infos: Infos, parent: Option<Key>, env: PrepareEnv, c: Config) {
    if parent.None? then !c.accelerated && c.tracePath == ""
    else
      && parent.value in infos && c.accelerated == infos[parent.value].labels.accel
      && c.tracePath == if !c.accelerated && env.recordTrace then env.tracePath else ""
  }

  /** The snapshot has got neither a config nor a block below it. */
  predicate OnOrdinaryStorage(infos: Infos, configs: Configs, parent: Option<Key>, labels: Labels, writable: bool,
                              env: PrepareEnv)
  {
    if labels.targetRef.Some? then !labels.accel && !PullsRemote(labels)
    else labels.image || (!writable && ParentStorage(infos, configs, parent, env.parentFiles) == Some(Normal))
  }

  predicate Untouched(configs: Configs, configs': Configs) {
    forall i :: i in configs ==> i in configs' && configs'[i] == configs[i]
  }

  class Snapshotter {
    const rwMode: Mode
    var infos: Infos
    var configs: Configs
    var nextId: Id

    ghost predicate Valid()
      reads this
    {
      WellFormed(infos, configs, nextId)
    }

    constructor (rwMode: Mode)
      ensures Valid() && infos == map[] && configs == map[] && this.rwMode == rwMode
    {
      this.rwMode := rwMode;
      infos, configs, nextId := map[], map[], 0;
    }

    /** The writable mode that a snapshot prepared over `parent` gets. */
    function WritableType(parent: Option<Key>, labels: Labels): (mode: Mode)
      reads this
      ensures mode != RoDir <==>
        && (parent.Some? ==> Below(infos, configs, parent).Some?)
        && (labels.mode.Some? ==> labels.mode.value != RoDir)
        && (labels.mode.None? ==> parent.Some? && rwMode != RoDir)
    {
      if parent.None? then (if labels.mode.Some? then labels.mode.value else RoDir)
      else if Below(infos, configs, parent).None? then RoDir
      else if labels.mode.Some? then labels.mode.value
      else rwMode
    }

    /** updateSpec changes the trace flags and never the lowers. */
    method UpdateSpec(id: Id, accelerated: bool, tracePath: string) returns (ok: bool)
      requires Valid()
      modifies this`configs
      ensures Valid()
      ensures ok == (id in old(configs)) && configs.Keys == old(configs).Keys
      ensures forall i :: i in configs && i != id ==> configs[i] == old(configs)[i]
      ensures ok ==> configs[id] == old(configs)[id].(accelerated := accelerated, tracePath := tracePath)
    {
      if id !in configs {
        return false;
      }
      var c := configs[id];
      if accelerated == c.accelerated && tracePath == c.tracePath && tracePath == "" {
        return true;
      }
      configs := configs[id := c.(accelerated := accelerated, tracePath := tracePath)];
      SameLowersWellFormed(infos, old(configs), configs, nextId);
      return true;
    }

    /** ConstructOverlayBDSpec for a snapshot of the current metadata. */
    method ConstructSpec(info: Info, stype: StorageType, l: Labels, layerTar: bool, writable: bool, host: Host)
      returns (c: Option<Config>)
      requires Valid() && Placed(infos, info)
      ensures var below := Below(infos, configs, info.parent);
        c == Construct(info.parent.Some?, below, info.id, stype, l, layerTar, writable, host)
      ensures c.Some? ==>
        var below := Below(infos, configs, info.parent);
        var list := ListOf(below);
        && Fits(c.value, info, below)
        && c.value.lowers == Listed(list,
             if stype.Normal? then [] else [OwnLower(info.id, stype, l, layerTar, MetaOf(list, host))],
             l.turbo && host.fallback)
        && c.value == Config(c.value.lowers, stype.Normal?, false, "")
      ensures c.Some? <==>
        Constructible(info.parent.Some?, Below(infos, configs, info.parent), stype, l, writable, host)
    {
      var below := Below(infos, configs, info.parent);
      ConstructSucceedsExactlyWhen(info.parent.Some?, below, info.id, stype, l, layerTar, writable, host);
      BelowIsOlder(infos, configs, nextId, info.parent, info.id);
      c := Construct(info.parent.Some?, below, info.id, stype, l, layerTar, writable, host);
      if c.Some? {
        ConstructFits(info, below, stype, l, layerTar, writable, host);
        ConstructListed(info.parent.Some?, below, info.id, stype, l, layerTar, writable, host);
      }
    }

    /** The transaction's closing commit. */
    method Add(key: Key, info: Info, c: Option<Config>)
      requires Valid() && key !in infos && info.id == nextId
      requires info.parent.Some? ==> info.parent.value in infos && infos[info.parent.value].kind.Committed?
      requires c.Some? ==> Fits(c.value, info, Below(infos, configs, info.parent))
      modifies this
      ensures Valid()
      ensures infos == old(infos)[key := info] && nextId == old(nextId) + 1
      ensures configs == (if c.Some? then old(configs)[info.id := c.value] else old(configs))
      ensures info.id in configs <==> c.Some?
    {
      AddedWellFormed(infos, configs, nextId, key, info, c);
      infos := infos[key := info];
      if c.Some? { configs := configs[info.id := c.value]; }
      nextId := nextId + 1;
    }

    /** constructSpecForAccelLayer: the parent's config with one more entry. */
    method ConstructAccel(info: Info) returns (c: Option<Config>)
      requires Valid() && Placed(infos, info) && info.labels.targetRef.Some?
      ensures var below := Below(infos, configs, info.parent);
        && (c.Some? <==> below.Some?)
        && (c.Some? ==>
             && c.value == configs[infos[info.parent.value].id].(lowers := c.value.lowers)
             && Fits(c.value, info, below)
             && c.value.lowers == Listed(below.value, [Lower(info.id, LocalDir, NoFile)], false))
    {
      var below := Below(infos, configs, info.parent);
      if below.None? {
        return None;
      }
      c := Some(configs[infos[info.parent.value].id].(lowers := below.value + [Lower(info.id, LocalDir, NoFile)]));
      AccelFits(below.value, c.value, info);
    }

    /** createMountPoint for a snapshot that pulls an image layer. */
    method PrepareLayer(key: Key, info: Info, host: Host) returns (r: Prepared)
      requires Valid() && key !in infos && Addable(infos, nextId, info) && info.labels.targetRef.Some?
      modifies this
      ensures Valid()
      ensures !r.Failed? <==> LayerWorks(old(infos), old(configs), key, info, host)
      ensures r.Failed? ==> infos == old(infos) && configs == old(configs) && nextId == old(nextId)
      ensures !r.Failed? ==>
        Added(old(infos), old(configs), old(nextId), infos, configs, nextId,
              if r.AlreadyCommitted? then info.labels.targetRef.value else key,
              if r.AlreadyCommitted? then info.(kind := Committed)
              else if info.labels.accel || PullsRemote(info.labels) then info
              else info.(labels := info.labels.(mode := None)),
              PreparedOwn(info.id, info.labels, ListOf(Below(old(infos), old(configs), info.parent)), host),
              PreparedFallback(info.labels, host))
      ensures Untouched(old(configs), configs)
      ensures !r.Failed? ==> (info.id in configs <==> info.labels.accel || PullsRemote(info.labels))
      ensures !r.Failed? && info.id in configs && !info.labels.accel ==>
        configs[info.id] == Config(configs[info.id].lowers, false, false, "")
      ensures !r.Failed? && info.labels.accel ==>
        info.parent.Some? && info.parent.value in old(infos) && old(infos)[info.parent.value].id in old(configs)
        && configs[info.id] == old(configs)[old(infos)[info.parent.value].id].(lowers := configs[info.id].lowers)
      ensures r.AlreadyCommitted? <==>
        !r.Failed? && PullsRemote(info.labels) && !info.labels.accel && !info.labels.download
    {
      var target := info.labels.targetRef.value;
      if info.labels.accel {
        var c := ConstructAccel(info);
        if c.None? {
          return Failed;
        }
        Add(key, info, c);
        return Mounted;
      }
      if !PullsRemote(info.labels) {
        Add(key, info.(labels := info.labels.(mode := None)), None);
        return Mounted;
      }
      if !info.labels.download && (!info.kind.Active? || target in infos || target == key) {
        return Failed;
      }
      var c := ConstructSpec(info, RemoteBlock, info.labels, false, false, host);
      if c.None? {
        return Failed;
      }
      if info.labels.download {
        Add(key, info, c);
        return Mounted;
      }
      Add(target, info.(kind := Committed), c);
      return AlreadyCommitted;
    }

    /** updateSpec on the parent, and on the snapshot itself when it is writable. */
    method TraceParent(info: Info, c: Option<Config>, env: PrepareEnv) returns (ok: bool, c': Option<Config>)
      requires Valid() && info.parent.Some? && info.parent.value in infos
      requires c.Some? ==> !c.value.accelerated && c.value.tracePath == ""
      modifies this`configs
      ensures Valid() && KeptLists(old(configs), configs) && configs.Keys == old(configs).Keys
      ensures Below(infos, configs, info.parent) == Below(infos, old(configs), info.parent)
      ensures ok <==> infos[info.parent.value].id in old(configs)
      ensures if ok then Flagged(infos, old(configs), configs, info.parent.value, env) else configs == old(configs)
      ensures c'.Some? == c.Some?
      ensures c.Some? ==> var accel := infos[info.parent.value].labels.accel;
        c'.value == c.value.(accelerated := accel, tracePath := if !accel && env.recordTrace then env.tracePath else "")
    {
      var accel := infos[info.parent.value].labels.accel;
      var path := if !accel && env.recordTrace then env.tracePath else "";
      ok := UpdateSpec(infos[info.parent.value].id, accel, path);
      SameBelow(infos, old(configs), configs, info.parent);
      c' := if c.Some? && (accel || path != "")
            then Some(c.value.(accelerated := accel, tracePath := path)) else c;
    }

    /** The trace flags, and then the device. */
    method AttachRootfs(info: Info, c: Option<Config>, env: PrepareEnv) returns (ok: bool, c': Option<Config>)
      requires Valid() && (info.parent.Some? ==> info.parent.value in infos)
      requires c.Some? ==> !c.value.accelerated && c.value.tracePath == ""
      modifies this`configs
      ensures Valid() && KeptLists(old(configs), configs) && configs.Keys == old(configs).Keys
      ensures Below(infos, configs, info.parent) == Below(infos, old(configs), info.parent)
      ensures ok <==> env.attaches && (info.parent.Some? ==> Below(infos, old(configs), info.parent).Some?)
      ensures if info.parent.Some? && Below(infos, old(configs), info.parent).Some?
        then Flagged(infos, old(configs), configs, info.parent.value, env) else configs == old(configs)
      ensures c'.Some? == c.Some?
      ensures ok && c.Some? ==>
        && c'.value.lowers == c.value.lowers && c'.value.writable == c.value.writable
        && FlagsFollow(infos, info.parent, env, c'.value)
    {
      c' := c;
      if info.parent.Some? {
        var traced;
        traced, c' := TraceParent(info, c, env);
        if !traced {
          return false, c';
        }
      }
      ok := env.attaches;
    }

    /** A root file system with a writable layer of its own. */
    method PrepareWritable(key: Key, info: Info, env: PrepareEnv) returns (ok: bool)
      requires Valid() && key !in infos && Addable(infos, nextId, info)
      modifies this
      ensures Valid() && KeptLists(old(configs), configs)
      ensures ok <==> RootfsWorks(old(infos), old(configs), info, true, env)
      ensures RootfsTraced(old(infos), old(configs), configs, info.parent, true, env, ok)
      ensures ok ==> Added(old(infos), old(configs), old(nextId), infos, configs, nextId, key, info,
                           [], info.labels.turbo && env.host.fallback)
      ensures ok ==> info.id in configs && configs[info.id].writable
                     && FlagsFollow(old(infos), info.parent, env, configs[info.id])
      ensures !ok ==> infos == old(infos) && configs.Keys == old(configs).Keys && nextId == old(nextId)
    {
      var c := ConstructSpec(info, Normal, info.labels, false, true, env.host);
      if c.None? {
        return false;
      }
      ghost var lowers := c.value.lowers;
      ok, c := AttachRootfs(info, c, env);
      if ok {
        assert Fits(c.value, info, Below(infos, configs, info.parent));
        ghost var traced := configs;
        Add(key, info, c);
        if info.parent.Some? {
          FlaggedStays(old(infos), old(configs), traced, info.parent.value, env, info.id, c.value);
        }
        assert configs[info.id].lowers == lowers;
      }
    }

    /** A read-only root file system. */
    method PrepareReadOnly(key: Key, info: Info, env: PrepareEnv) returns (ok: bool)
      requires Valid() && key !in infos && Addable(infos, nextId, info)
      modifies this
      ensures Valid() && KeptLists(old(configs), configs)
      ensures ok <==> RootfsWorks(old(infos), old(configs), info, false, env)
      ensures RootfsTraced(old(infos), old(configs), configs, info.parent, false, env, ok)
      ensures ok ==> Added(old(infos), old(configs), old(nextId), infos, configs, nextId, key,
                           if ParentStorage(old(infos), old(configs), info.parent, env.parentFiles) != Some(Normal)
                           then info else info.(labels := info.labels.(mode := None)),
                           [], info.labels.turbo && env.host.fallback)
      ensures info.id !in configs
      ensures !ok ==> infos == old(infos) && configs.Keys == old(configs).Keys && nextId == old(nextId)
    {
      var stype := ParentStorage(infos, configs, info.parent, env.parentFiles);
      if stype.None? {
        return false;
      }
      ok := true;
      if IsBlock(stype) {
        var c;
        ok, c := AttachRootfs(info, None, env);
      }
      if ok {
        Add(key, if stype == Some(Normal) then info.(labels := info.labels.(mode := None)) else info, None);
      }
    }

    /** createMountPoint for a container's root file system. */
    method PrepareRootfs(key: Key, info: Info, env: PrepareEnv) returns (ok: bool)
      requires Valid() && key !in infos && Addable(infos, nextId, info)
      modifies this
      ensures Valid() && KeptLists(old(configs), configs)
      ensures !ok ==> infos == old(infos) && configs.Keys == old(configs).Keys && nextId == old(nextId)
      ensures var writable := old(WritableType(info.parent, info.labels)) != RoDir;
        var stype := ParentStorage(old(infos), old(configs), info.parent, env.parentFiles);
        && (ok <==> RootfsWorks(old(infos), old(configs), info, writable, env))
        && RootfsTraced(old(infos), old(configs), configs, info.parent, writable, env, ok)
        && (ok ==> Added(old(infos), old(configs), old(nextId), infos, configs, nextId, key,
              if writable || stype != Some(Normal) then info else info.(labels := info.labels.(mode := None)),
              [], info.labels.turbo && env.host.fallback))
        && (ok ==> (info.id in configs <==> writable))
      ensures ok && info.id in configs ==>
        configs[info.id].writable && FlagsFollow(old(infos), info.parent, env, configs[info.id])
    {
      if WritableType(info.parent, info.labels) != RoDir {
        ok := PrepareWritable(key, info, env);
      } else {
        ok := PrepareReadOnly(key, info, env);
      }
    }

    /** createMountPoint, for Prepare and View.
        - It succeeds exactly if the key is free, the parent is committed, and what
          the kind of snapshot needs is there.
        - A failure leaves the metadata and every existing list alone.
        - Success adds one snapshot; an acceleration layer, a remote layer and a
          writable rootfs get a config, and nothing else does.  A layer's config
          lists the parent's entries followed by exactly one for the snapshot
          itself, a writable rootfs's config lists the parent's entries.
        - A snapshot on ordinary storage loses the label that asks for a mode. */
    method CreateMountPoint(kind: Kind, key: Key, parent: Option<Key>, labels: Labels, env: PrepareEnv)
      returns (r: Prepared)
      requires Valid() && !kind.Committed?
      modifies this
      ensures Valid()
      ensures KeptLists(old(configs), configs)
      ensures var info, writable := Info(old(nextId), parent, kind, labels), old(WritableType(parent, labels)) != RoDir;
        !r.Failed? <==>
          && key !in old(infos)
          && (parent.Some? ==> parent.value in old(infos) && old(infos)[parent.value].kind.Committed?)
          && (labels.targetRef.Some? ==> LayerWorks(old(infos), old(configs), key, info, env.host))
          && (labels.targetRef.None? && !labels.image ==>
               RootfsWorks(old(infos), old(configs), info, writable, env))
      ensures r.Failed? ==> infos == old(infos) && configs.Keys == old(configs).Keys && nextId == old(nextId)
      ensures !r.Failed? ==>
        var id, writable := old(nextId), old(WritableType(parent, labels)) != RoDir;
        && (r.AlreadyCommitted? <==>
             labels.targetRef.Some? && labels.blob && labels.imageRef
             && !labels.accel && !labels.download && !labels.turbo)
        && Added(old(infos), old(configs), id, infos, configs, nextId,
                 if r.AlreadyCommitted? then labels.targetRef.value else key,
                 Info(id, parent, if r.AlreadyCommitted? then Committed else kind,
                      if OnOrdinaryStorage(old(infos), old(configs), parent, labels, writable, env)
                      then labels.(mode := None) else labels),
                 PreparedOwn(id, labels, ListOf(Below(old(infos), old(configs), parent)), env.host),
                 PreparedFallback(labels, env.host))
        && (id in configs <==>
             if labels.targetRef.Some?
             then labels.accel || (labels.blob && labels.imageRef && (labels.download || !labels.turbo))
             else !labels.image && writable)
        && (id in configs ==>
             (configs[id].writable <==>
                labels.targetRef.None? || (labels.accel && CopiesWritable(old(infos), old(configs), parent))))
        && (id in configs && labels.targetRef.None? ==> FlagsFollow(old(infos), parent, env, configs[id]))
      ensures labels.targetRef.Some? || labels.image ==> Untouched(old(configs), configs)
      ensures labels.targetRef.None? && !labels.image ==>
        RootfsTraced(old(infos), old(configs), configs, parent, old(WritableType(parent, labels)) != RoDir, env,
                     !r.Failed?)
      ensures !r.Failed? && old(nextId) in configs && !PreparedFallback(labels, env.host) ==>
        && (parent.Some? ==> old(infos)[parent.value].id in old(configs))
        && var below := if parent.Some? then old(configs)[old(infos)[parent.value].id].lowers else [];
           configs[old(nextId)].lowers == below + PreparedOwn(old(nextId), labels, below, env.host)
    {
      if key in infos || (parent.Some? && (parent.value !in infos || !infos[parent.value].kind.Committed?)) {
        return Failed;
      }
      var info := Info(nextId, parent, kind, labels);
      if labels.targetRef.Some? {
        r := PrepareLayer(key, info, env.host);
      } else if labels.image {
        Add(key, info.(labels := labels.(mode := None)), None);
        r := Mounted;
      } else {
        var ok := PrepareRootfs(key, info, env);
        r := if ok then Mounted else Failed;
      }
    }

    /** Commit.  It succeeds exactly if the snapshot is active and the name free, a
        writable snapshot with a config (acceleration layers aside) can be detached
        and sealed, its storage can be told, the config that is due can be
        constructed, and the metadata update goes through.  Only the committed
        snapshot's own list can change, and if a config is written it is read-only:
        the parent's entries followed by its own.  A failure rolls back the
        metadata, but a config that was already written stays. */
    method Commit(name: Key, key: Key, labels: Labels, env: CommitEnv) returns (ok: bool)
      requires Valid()
      modifies this`infos, this`configs
      ensures Valid()
      ensures ok <==>
        && key in old(infos) && old(infos)[key].kind.Active? && name !in old(infos) && env.updates
        && var info := old(infos)[key];
           var stype := Identify(labels, env.files, info.id in old(configs));
           && (info.labels.mode.Some? && !info.labels.accel && info.id in old(configs) ==> env.detaches && env.seals)
           && stype.Some?
           && (labels.turbo || stype == Some(LocalBlock) || stype == Some(LocalLayer) ==>
                Constructible(info.parent.Some?, Below(old(infos), old(configs), info.parent), stype.value, labels,
                              false, env.host))
      ensures !ok ==> infos == old(infos)
      ensures ok ==>
        infos == (old(infos) - {key})[name := old(infos)[key].(kind := Committed, labels := labels)]
      ensures configs == old(configs) ||
        (key in old(infos) && old(infos)[key].kind.Active? &&
         Recommitted(old(infos), old(configs), configs, old(infos)[key], labels, env))
      ensures ok && (labels.turbo || OnBlock(Identify(labels, env.files, old(infos)[key].id in old(configs)))) ==>
        Recommitted(old(infos), old(configs), configs, old(infos)[key], labels, env)
    {
      if key !in infos {
        return false;
      }
      var info := infos[key];
      if info.labels.mode.Some? && !info.labels.accel && info.id in configs && (!env.detaches || !env.seals) {
        return false;
      }
      if !info.kind.Active? || name in infos {
        return false;
      }
      var stype := Identify(labels, env.files, info.id in configs);
      if stype.None? {
        return false;
      }
      var constructed, c := ConstructCommitted(info, stype.value, labels, env);
      if !constructed {
        return false;
      }
      ghost var before := configs;
      ok := FinishCommit(name, key, info.(kind := Committed, labels := labels), c, env.updates);
      assert c.Some? ==> configs == before[info.id := c.value] && configs[info.id] == c.value;
    }

    /** The config that Commit constructs, if any: for a TurboOCI layer, for a local
        layer blob, and for a local block. */
    method ConstructCommitted(info: Info, stype: StorageType, l: Labels, env: CommitEnv)
      returns (ok: bool, c: Option<Config>)
      requires Valid() && Placed(infos, info)
      ensures ok <==> (l.turbo || OnBlock(Some(stype)) ==>
        Constructible(info.parent.Some?, Below(infos, configs, info.parent), stype, l, false, env.host))
      ensures ok ==> (c.Some? <==> l.turbo || OnBlock(Some(stype)))
      ensures c.Some? ==>
        && Fits(c.value, info, Below(infos, configs, info.parent))
        && CommitsTo(c.value, Below(infos, configs, info.parent), info, stype, l, env)
    {
      c := None;
      if l.turbo {
        c := ConstructSpec(info, stype, l, env.files.layerTar, false, env.host);
      } else if stype.LocalLayer? {
        // The first construction converts the layer blob, which leaves an
        // overlaybd.commit file behind; the second one finds a local block.
        var first := ConstructSpec(info, LocalLayer, l, true, false, env.host);
        if first.None? {
          return false, None;
        }
        c := ConstructSpec(info, LocalBlock, l, true, false, env.host);
        var below := Below(infos, configs, info.parent);
        ConvertedLayerConstructedTwice(info.parent.Some?, below, info.id, l, env.host);
        assert c == first;
      } else if stype.LocalBlock? {
        c := ConstructSpec(info, LocalBlock, l, env.files.layerTar, false, env.host);
      } else {
        return true, None;
      }
      ok := c.Some?;
    }

    /** Writes the config, then the metadata. */
    method FinishCommit(name: Key, key: Key, committed: Info, c: Option<Config>, updates: bool) returns (ok: bool)
      requires Valid() && key in infos && !infos[key].kind.Committed? && name !in infos
      requires committed.id == infos[key].id && committed.parent == infos[key].parent && committed.kind.Committed?
      requires c.Some? ==> !c.value.writable && Fits(c.value, committed, Below(infos, configs, committed.parent))
      modifies this`infos, this`configs
      ensures Valid()
      ensures ok == updates
      ensures infos == if ok then (old(infos) - {key})[name := committed] else old(infos)
      ensures configs == if c.Some? then old(configs)[committed.id := c.value] else old(configs)
    {
      CommittedWellFormed(infos, configs, nextId, key, name, committed, c);
      RewrittenWellFormed(infos, configs, nextId, key, c);
      if c.Some? {
        configs := configs[committed.id := c.value];
      }
      if !updates {
        return false;
      }
      infos := (infos - {key})[name := committed];
      return true;
    }

    /** Remove.  `works`: no step before the metadata update fails, and the mount
        point is gone by then; the snapshot goes only if it also has no children. */
    method Remove(key: Key, works: bool) returns (ok: bool)
      requires Valid()
      modifies this`infos, this`configs
      ensures Valid()
      ensures ok <==> works && key in old(infos) && forall k :: k in old(infos) ==> old(infos)[k].parent != Some(key)
      ensures infos == if ok then old(infos) - {key} else old(infos)
      ensures configs == if ok then old(configs) - {old(infos)[key].id} else old(configs)
    {
      if key !in infos || !works {
        return false;
      }
      if exists k :: k in infos && infos[k].parent == Some(key) {
        return false;
      }
      RemovedWellFormed(infos, configs, nextId, key);
      configs := configs - {infos[key].id};
      infos := infos - {key};
      return true;
    }
  }

  /** The invariant does not look at the trace flags. */
  lemma SameLowersWellFormed(infos: Infos, configs: Configs, configs': Configs, nextId: Id)
    requires WellFormed(infos, configs, nextId) && configs'.Keys == configs.Keys
    requires forall id :: id in configs ==>
      configs'[id].lowers == configs[id].lowers && configs'[id].writable == configs[id].writable
    ensures WellFormed(infos, configs', nextId)
  {
    forall k | k in infos ensures ConfigOk(infos, configs', k) {
      assert ConfigOk(infos, configs, k);
    }
  }

  /** A config that may be written for a snapshot over the given lowers. */
  ghost predicate Fits(c: Config, info: Info, below: Option<seq<Lower>>) {
    && (info.parent.Some? ==> below.Some?)
    && ListedOver(c.lowers, ListOf(below), info.id) && OwnEntryWhenReadOnly(c, ListOf(below), info)
    && (AllTurbo(c.lowers) ==> OneMeta(c.lowers))
  }

  lemma ConstructFits(info: Info, below: Option<seq<Lower>>, stype: StorageType, l: Labels,
                      layerTar: bool, writable: bool, host: Host)
    requires below.Some? ==> info.parent.Some? && (AllTurbo(below.value) ==> OneMeta(below.value))
    requires Construct(info.parent.Some?, below, info.id, stype, l, layerTar, writable, host).Some?
    ensures Fits(Construct(info.parent.Some?, below, info.id, stype, l, layerTar, writable, host).value, info, below)
  {
    ConstructListed(info.parent.Some?, below, info.id, stype, l, layerTar, writable, host);
    ConstructOneMeta(info.parent.Some?, below, info.id, stype, l, layerTar, writable, host);
  }

  /** The list below a snapshot belongs to older snapshots and is uniform. */
  lemma BelowIsOlder(infos: Infos, configs: Configs, nextId: Id, parent: Option<Key>, id: Id)
    requires WellFormed(infos, configs, nextId)
    requires parent.Some? ==> parent.value in infos && infos[parent.value].id < id
    ensures var below := Below(infos, configs, parent);
      && (forall i :: 0 <= i < |ListOf(below)| ==> ListOf(below)[i].owner < id)
      && (AllTurbo(ListOf(below)) ==> OneMeta(ListOf(below)))
  {
    if Below(infos, configs, parent).Some? {
      assert ConfigOk(infos, configs, parent.value);
    }
  }

  lemma FittingOwners(below: seq<Lower>, c: Config, id: Id)
    requires forall i :: 0 <= i < |below| ==> below[i].owner < id
    requires ListedOver(c.lowers, below, id)
    ensures forall i :: 0 <= i < |c.lowers| ==> c.lowers[i].owner <= id
  {
    forall i | 0 <= i < |below| ensures c.lowers[i].owner == below[i].owner {
      assert c.lowers[i] == c.lowers[..|below|][i];
    }
  }

  /** Adding a snapshot, with or without a config. */
  lemma AddedWellFormed(infos: Infos, configs: Configs, nextId: Id, key: Key, info: Info, c: Option<Config>)
    requires WellFormed(infos, configs, nextId) && key !in infos && info.id == nextId
    requires info.parent.Some? ==> info.parent.value in infos && infos[info.parent.value].kind.Committed?
    requires c.Some? ==> Fits(c.value, info, Below(infos, configs, info.parent))
    ensures WellFormed(infos[key := info], if c.Some? then configs[nextId := c.value] else configs, nextId + 1)
  {
    var infos', configs' := infos[key := info], if c.Some? then configs[nextId := c.value] else configs;
    if c.Some? {
      BelowIsOlder(infos, configs, nextId, info.parent, nextId);
      FittingOwners(ListOf(Below(infos, configs, info.parent)), c.value, nextId);
    }
    forall k | k in infos' ensures ConfigOk(infos', configs', k) {
      AddedConfigOk(infos, configs, nextId, key, info, c, k);
    }
  }

  lemma AddedConfigOk(infos: Infos, configs: Configs, nextId: Id, key: Key, info: Info, c: Option<Config>, k: Key)
    requires WellFormed(infos, configs, nextId) && key !in infos && info.id == nextId
    requires info.parent.Some? ==> info.parent.value in infos && infos[info.parent.value].kind.Committed?
    requires c.Some? ==> Fits(c.value, info, Below(infos, configs, info.parent))
    requires k == key || k in infos
    ensures ConfigOk(infos[key := info], if c.Some? then configs[nextId := c.value] else configs, k)
  {
    if k != key {
      assert ConfigOk(infos, configs, k);
      AddedBelow(infos, configs, nextId, key, info, c, infos[k].parent);
    } else {
      AddedBelow(infos, configs, nextId, key, info, c, info.parent);
    }
  }

  lemma AddedBelow(infos: Infos, configs: Configs, nextId: Id, key: Key, info: Info, c: Option<Config>,
                   parent: Option<Key>)
    requires WellFormed(infos, configs, nextId) && key !in infos && info.id == nextId
    requires parent.Some? ==> parent.value in infos
    ensures Below(infos[key := info], if c.Some? then configs[nextId := c.value] else configs, parent)
         == Below(infos, configs, parent)
  {
  }

  /** Committing an active snapshot under a new name, possibly with a new config. */
  lemma CommittedWellFormed(infos: Infos, configs: Configs, nextId: Id, key: Key, name: Key, info: Info,
                            c: Option<Config>)
    requires WellFormed(infos, configs, nextId) && key in infos && !infos[key].kind.Committed? && name !in infos
    requires info.id == infos[key].id && info.parent == infos[key].parent && info.kind.Committed?
    requires c.Some? ==> Fits(c.value, info, Below(infos, configs, info.parent))
    ensures WellFormed((infos - {key})[name := info], if c.Some? then configs[info.id := c.value] else configs, nextId)
  {
    var infos' := (infos - {key})[name := info];
    var configs' := if c.Some? then configs[info.id := c.value] else configs;
    CommittedChained(infos, nextId, key, name, info);
    if c.Some? {
      BelowIsOlder(infos, configs, nextId, info.parent, info.id);
      FittingOwners(ListOf(Below(infos, configs, info.parent)), c.value, info.id);
    }
    forall k | k in infos' ensures ConfigOk(infos', configs', k) {
      CommittedConfigOk(infos, configs, nextId, key, name, info, c, k);
    }
  }

  lemma CommittedChained(infos: Infos, nextId: Id, key: Key, name: Key, info: Info)
    requires Chained(infos, nextId) && key in infos && !infos[key].kind.Committed? && name !in infos
    requires info.id == infos[key].id && info.parent == infos[key].parent
    ensures Chained((infos - {key})[name := info], nextId)
  {
  }

  lemma CommittedConfigOk(infos: Infos, configs: Configs, nextId: Id, key: Key, name: Key, info: Info,
                          c: Option<Config>, k: Key)
    requires WellFormed(infos, configs, nextId) && key in infos && !infos[key].kind.Committed? && name !in infos
    requires info.id == infos[key].id && info.parent == infos[key].parent && info.kind.Committed?
    requires c.Some? ==> Fits(c.value, info, Below(infos, configs, info.parent))
    requires k in (infos - {key})[name := info]
    ensures ConfigOk((infos - {key})[name := info], if c.Some? then configs[info.id := c.value] else configs, k)
  {
    var was := if k == name then key else k;
    assert ConfigOk(infos, configs, was);
    BelowUnchanged(infos, configs, nextId, key, name, info, c, was);
  }

  /** A rolled-back Commit leaves an active snapshot with its new config. */
  lemma RewrittenWellFormed(infos: Infos, configs: Configs, nextId: Id, key: Key, c: Option<Config>)
    requires WellFormed(infos, configs, nextId) && key in infos && !infos[key].kind.Committed?
    requires c.Some? ==> Fits(c.value, infos[key], Below(infos, configs, infos[key].parent))
    ensures WellFormed(infos, if c.Some? then configs[infos[key].id := c.value] else configs, nextId)
  {
    if c.Some? {
      var id, configs' := infos[key].id, configs[infos[key].id := c.value];
      var below := Below(infos, configs, infos[key].parent);
      BelowIsOlder(infos, configs, nextId, infos[key].parent, id);
      FittingOwners(ListOf(below), c.value, id);
      forall k | k in infos ensures ConfigOk(infos, configs', k) {
        assert ConfigOk(infos, configs, k);
        assert Below(infos, configs', infos[k].parent) == Below(infos, configs, infos[k].parent);
      }
    }
  }

  lemma AccelFits(below: seq<Lower>, c: Config, info: Info)
    requires c.lowers == below + [Lower(info.id, LocalDir, NoFile)] && info.labels.targetRef.Some?
    ensures Fits(c, info, Some(below)) && c.lowers == Listed(below, [Lower(info.id, LocalDir, NoFile)], false)
  {
    assert c.lowers[|below|].form.LocalDir?;
    assert c.lowers[..|below|] == below;
  }

  lemma FlaggedStays(infos: Infos, configs: Configs, traced: Configs, parent: Key, env: PrepareEnv, id: Id, c: Config)
    requires Flagged(infos, configs, traced, parent, env) && id !in configs
    ensures Flagged(infos, configs, traced[id := c], parent, env)
  {
  }

  /** What a construction sees of a parent is its list alone. */
  lemma SameBelow(infos: Infos, configs: Configs, configs': Configs, parent: Option<Key>)
    requires configs'.Keys == configs.Keys
    requires forall id :: id in configs ==> configs'[id].lowers == configs[id].lowers
    ensures Below(infos, configs', parent) == Below(infos, configs, parent)
  {
  }

  lemma BelowUnchanged(infos: Infos, configs: Configs, nextId: Id, key: Key, name: Key, info: Info,
                       c: Option<Config>, k: Key)
    requires WellFormed(infos, configs, nextId) && key in infos && !infos[key].kind.Committed? && name !in infos
    requires info.id == infos[key].id && k in infos
    ensures Below((infos - {key})[name := info], if c.Some? then configs[info.id := c.value] else configs,
                  infos[k].parent)
         == Below(infos, configs, infos[k].parent)
  {
  }

  /** Removing a snapshot without children. */
  lemma RemovedWellFormed(infos: Infos, configs: Configs, nextId: Id, key: Key)
    requires WellFormed(infos, configs, nextId) && key in infos
    requires forall k :: k in infos ==> infos[k].parent != Some(key)
    ensures WellFormed(infos - {key}, configs - {infos[key].id}, nextId)
  {
    forall k | k in infos - {key} ensures ConfigOk(infos - {key}, configs - {infos[key].id}, k) {
      assert ConfigOk(infos, configs, k);
    }
  }

  /** Owners below a snapshot are older than it, so whether it has an entry of
      its own can be read off the list. */
  lemma OwnOnTop(below: seq<Lower>, c: Config, id: Id)
    requires forall i :: 0 <= i < |below| ==> below[i].owner < id
    requires ListedOver(c.lowers, below, id)
    ensures |c.lowers| == |below| + (if HasOwn(c, id) then 1 else 0)
  {
    if c.lowers != [] && |c.lowers| == |below| {
      var last := |below| - 1;
      assert c.lowers[last] == c.lowers[..|below|][last];
      assert c.lowers[last].owner == below[last].owner;
    }
  }
}
