/** The deduplication cache: the layer table of the conversion database against
    the registry it describes, used by any number of converters at once.
    CheckForConvertedLayer, UploadLayer and StoreConvertedLayerDetails
    (cmd/convertor/builder/overlaybd_builder.go:161-186, 212-271, 392-401), and
    findRemote and sentToRemote (pkg/convertor/convertor.go:362-460), step by
    step: every database statement, fetch, mount and push is one step, and steps
    of different converters interleave freely. */
module DedupCache {
  import opened Wrappers

  type Host = string
  type Repo = string
  type ChainID = string
  type Digest = string

  /** The layer table's primary key. */
  datatype Key = Key(host: Host, repo: Repo, chain: ChainID)

  datatype Blob = Blob(host: Host, repo: Repo, digest: Digest)

  /** A converter of that host has built the layer with that chain id into that
      blob, and stored it: the table has accepted its row. */
  datatype Issue = Issue(host: Host, chain: ChainID, digest: Digest)

  datatype Entry = Entry(repo: Repo, digest: Digest)

  datatype Pc =
    | Querying                                    // GetLayerEntryForRepo
    | Probing(digest: Digest)                     // fetcher.Fetch in the own repo
    | Deleting(digest: Digest)                    // DeleteLayerEntry
    | Searching                                   // GetCrossRepoLayerEntries
    | Mounting(entries: seq<Entry>)               // pusher.Push with a mount source
    | Inserting(digest: Digest, rest: seq<Entry>) // CreateLayerEntry after a mount
    | Found(digest: Digest)                       // the lookup returned this descriptor
    | NotFound                                    // it returned ErrNotFound or an error
    | Uploaded(digest: Digest)                    // converted and pushed
    | Finished

  /** One layer of one conversion. */
  datatype Client = Client(key: Key, pc: Pc)

  /** `collected` remembers the blobs that the registry has ever deleted. */
  datatype World = World(
    db: map<Key, Digest>, registry: set<Blob>, collected: set<Blob>, issued: set<Issue>, clients: seq<Client>)

  const EMPTY := World(map[], {}, {}, {}, [])

  datatype ProbeResult = Present | Absent | Unreachable

  datatype Action =
    | Join(key: Key)
    | Query(i: nat, ok: bool)
    | Probe(i: nat, result: ProbeResult)
    | Delete(i: nat, ok: bool)
    | Search(i: nat, rows: seq<Entry>)
    | Mount(i: nat, mounted: bool)
    | Insert(i: nat, ok: bool)
    | Exhaust(i: nat)
    | Convert(i: nat, digest: Digest)
    | Store(i: nat, ok: bool)
    | Collect(blob: Blob)

  function BlobOf(k: Key, d: Digest): Blob {
    Blob(k.host, k.repo, d)
  }

  function IssueOf(k: Key, d: Digest): Issue {
    Issue(k.host, k.chain, d)
  }

  /** A row that a query for this host and chain id can return. */
  predicate IsRow(db: map<Key, Digest>, k: Key, e: Entry) {
    var row := Key(k.host, e.repo, k.chain);
    row in db && db[row] == e.digest
  }

  predicate Enabled(w: World, a: Action) {
    if a.Join? then true
    else if a.Collect? then a.blob in w.registry
    else
      a.i < |w.clients| &&
      var c := w.clients[a.i];
      match a
      case Query(_, _) => c.pc.Querying?
      case Probe(_, r) =>
        && c.pc.Probing?
        && (r == Present ==> BlobOf(c.key, c.pc.digest) in w.registry)
        && (r == Absent ==> BlobOf(c.key, c.pc.digest) !in w.registry)
      case Delete(_, _) => c.pc.Deleting?
      case Search(_, rows) => c.pc.Searching? && forall e :: e in rows ==> IsRow(w.db, c.key, e)
      case Mount(_, mounted) =>
        // 'Mounting a blob from another repository': the push is answered with
        // "already exists" only if the blob is there, or in the named source.
        && c.pc.Mounting? && c.pc.entries != []
        && var e := c.pc.entries[0];
        (mounted ==> BlobOf(c.key, e.digest) in w.registry || Blob(c.key.host, e.repo, e.digest) in w.registry)
      case Insert(_, _) => c.pc.Inserting?
      case Exhaust(_) => c.pc.Mounting? && c.pc.entries == []
      case Convert(_, _) => c.pc.NotFound? || c.pc.Found?
      case Store(_, _) => c.pc.Uploaded?
  }

  /** CreateLayerEntry: refused when the primary key is taken. */
  predicate Accepted(w: World, k: Key, ok: bool) {
    ok && k !in w.db
  }

  function NextPc(w: World, a: Action): Pc
    requires Enabled(w, a) && !a.Join? && !a.Collect?
  {
    var c := w.clients[a.i];
    match a
    case Query(_, ok) => if ok && c.key in w.db then Probing(w.db[c.key]) else Searching
    case Probe(_, r) =>
      if r == Present then Found(c.pc.digest) else if r == Absent then Deleting(c.pc.digest) else Searching
    case Delete(_, ok) => if ok then Searching else NotFound
    case Search(_, rows) => Mounting(rows)
    case Mount(_, mounted) =>
      if mounted then Inserting(c.pc.entries[0].digest, c.pc.entries[1..]) else Mounting(c.pc.entries[1..])
    case Insert(_, ok) => if Accepted(w, c.key, ok) then Found(c.pc.digest) else Mounting(c.pc.rest)
    case Exhaust(_) => NotFound
    case Convert(_, d) => Uploaded(d)
    case Store(_, _) => Finished
  }

  function Apply(w: World, a: Action): World
    requires Enabled(w, a)
  {
    if a.Join? then w.(clients := w.clients + [Client(a.key, Querying)])
    else if a.Collect? then w.(registry := w.registry - {a.blob}, collected := w.collected + {a.blob})
    else
      var c := w.clients[a.i];
      var w' := w.(clients := w.clients[a.i := c.(pc := NextPc(w, a))]);
      match a
      case Delete(_, ok) => if ok then w'.(db := w.db - {c.key}) else w'
      case Mount(_, mounted) =>
        if mounted then w'.(registry := w.registry + {BlobOf(c.key, c.pc.entries[0].digest)}) else w'
      case Insert(_, ok) => if Accepted(w, c.key, ok) then w'.(db := w.db[c.key := c.pc.digest]) else w'
      case Convert(_, d) => w'.(registry := w.registry + {BlobOf(c.key, d)})
      case Store(_, ok) =>
        if Accepted(w, c.key, ok)
        then w'.(db := w.db[c.key := c.pc.digest], issued := w.issued + {IssueOf(c.key, c.pc.digest)}) else w'
      case _ => w'
  }

  ghost predicate Run(w: World, acts: seq<Action>, v: World)
    decreases |acts|
  {
    if acts == [] then w == v else Enabled(w, acts[0]) && Run(Apply(w, acts[0]), acts[1..], v)
  }

  // ---------- Invariant ----------

  /** The blob is in the repo, or was until the registry deleted it. */
  predicate Stored(w: World, k: Key, d: Digest) {
    BlobOf(k, d) in w.registry || BlobOf(k, d) in w.collected
  }

  /** The digest stands for the key's chain id on its host, and its blob has
      been put into its repo. */
  predicate Genuine(w: World, k: Key, d: Digest) {
    Stored(w, k, d) && IssueOf(k, d) in w.issued
  }

  ghost predicate AllIssued(w: World, k: Key, es: seq<Entry>) {
    forall e :: e in es ==> IssueOf(k, e.digest) in w.issued
  }

  /** What a converter has read from the database stays true, whatever the
      others do in the meantime. */
  ghost predicate ClientOk(w: World, c: Client) {
    match c.pc
    case Probing(d) => Genuine(w, c.key, d)
    case Deleting(d) => BlobOf(c.key, d) in w.collected
    case Mounting(es) => AllIssued(w, c.key, es)
    case Inserting(d, rest) => Genuine(w, c.key, d) && AllIssued(w, c.key, rest)
    case Found(d) => Genuine(w, c.key, d)
    case Uploaded(d) => Stored(w, c.key, d)
    case _ => true
  }

  ghost predicate Inv(w: World) {
    && (forall k :: k in w.db ==> Genuine(w, k, w.db[k]))
    && (forall i :: 0 <= i < |w.clients| ==> ClientOk(w, w.clients[i]))
  }

  /** Evidence only accumulates. */
  predicate Grows(w: World, v: World) {
    w.collected <= v.collected && w.issued <= v.issued && w.registry <= v.registry + v.collected
  }

  lemma ClientStaysOk(w: World, v: World, c: Client)
    requires Grows(w, v) && ClientOk(w, c)
    ensures ClientOk(v, c)
  {
  }

  lemma StepGrows(w: World, a: Action)
    requires Enabled(w, a)
    ensures Grows(w, Apply(w, a))
  {
  }

  /** The acting converter's own next state. */
  lemma OwnClientOk(w: World, a: Action)
    requires Inv(w) && Enabled(w, a) && !a.Join? && !a.Collect?
    ensures ClientOk(Apply(w, a), w.clients[a.i].(pc := NextPc(w, a)))
  {
    var c := w.clients[a.i];
    assert ClientOk(w, c);
    if a.Search? {
      forall e | e in a.rows ensures IssueOf(c.key, e.digest) in w.issued {
        assert Genuine(w, Key(c.key.host, e.repo, c.key.chain), e.digest);
      }
    }
  }

  lemma RowsStayGenuine(w: World, a: Action)
    requires Inv(w) && Enabled(w, a)
    ensures var v := Apply(w, a); forall k :: k in v.db ==> Genuine(v, k, v.db[k])
  {
    StepGrows(w, a);
    if !a.Join? && !a.Collect? {
      assert ClientOk(w, w.clients[a.i]);
    }
  }

  lemma StepKeepsInv(w: World, a: Action)
    requires Inv(w) && Enabled(w, a)
    ensures Inv(Apply(w, a))
  {
    var v := Apply(w, a);
    StepGrows(w, a);
    RowsStayGenuine(w, a);
    forall i | 0 <= i < |v.clients| ensures ClientOk(v, v.clients[i]) {
      if !a.Join? && !a.Collect? && i == a.i {
        OwnClientOk(w, a);
      } else if i < |w.clients| {
        ClientStaysOk(w, v, w.clients[i]);
      }
    }
  }

  lemma {:induction false} RunKeepsInv(w: World, acts: seq<Action>, v: World)
    requires Inv(w) && Run(w, acts, v)
    ensures Inv(v)
    decreases |acts|
  {
    if acts != [] {
      StepKeepsInv(w, acts[0]);
      RunKeepsInv(Apply(w, acts[0]), acts[1..], v);
    }
  }

  // ---------- Whole runs ----------

  /** In every interleaving, failing lookups, stores and mounts included: each
      row of the layer table names a blob of the row's own repo (unless the
      registry has deleted it since), and a digest that was built for exactly
      the row's chain id on the row's host. */
  lemma RowsNameTheirBlobs(acts: seq<Action>, w: World, k: Key)
    requires Run(EMPTY, acts, w) && k in w.db
    ensures Blob(k.host, k.repo, w.db[k]) in w.registry + w.collected
    ensures Issue(k.host, k.chain, w.db[k]) in w.issued
  {
    RunKeepsInv(EMPTY, acts, w);
  }

  /** Every descriptor that a lookup returns was built for the chain id looked
      up, on the same host, and its blob has been put into the client's repo. */
  lemma LookupsReturnOwnChain(acts: seq<Action>, w: World, i: nat)
    requires Run(EMPTY, acts, w) && i < |w.clients| && w.clients[i].pc.Found?
    ensures var k, d := w.clients[i].key, w.clients[i].pc.digest;
      Blob(k.host, k.repo, d) in w.registry + w.collected && Issue(k.host, k.chain, d) in w.issued
  {
    RunKeepsInv(EMPTY, acts, w);
    assert ClientOk(w, w.clients[i]);
  }

  /** Where issues come from: somebody uploaded that blob to that host. */
  ghost predicate IssuesUploaded(w: World) {
    forall e :: e in w.issued ==> exists r :: Blob(e.host, r, e.digest) in w.registry + w.collected
  }

  lemma {:induction false} IssuedBlobsExist(w: World, acts: seq<Action>, v: World)
    requires Inv(w) && IssuesUploaded(w) && Run(w, acts, v)
    ensures IssuesUploaded(v)
    decreases |acts|
  {
    if acts != [] {
      var a, m := acts[0], Apply(w, acts[0]);
      StepKeepsInv(w, a);
      StepGrows(w, a);
      forall e | e in m.issued ensures exists r :: Blob(e.host, r, e.digest) in m.registry + m.collected {
        if e in w.issued {
          var r :| Blob(e.host, r, e.digest) in w.registry + w.collected;
          assert Blob(e.host, r, e.digest) in m.registry + m.collected;
        } else {
          var c := w.clients[a.i];
          assert ClientOk(w, c) && Stored(w, c.key, c.pc.digest);
          assert Blob(e.host, c.key.repo, e.digest) in m.registry + m.collected;
        }
      }
      IssuedBlobsExist(m, acts[1..], v);
    }
  }

  /** With a registry that only grows ... */
  ghost predicate OnlyGrows(acts: seq<Action>) {
    forall i :: 0 <= i < |acts| ==> !acts[i].Collect?
  }

  lemma {:induction false} NothingCollected(w: World, acts: seq<Action>, v: World)
    requires Run(w, acts, v) && OnlyGrows(acts)
    ensures v.collected == w.collected
    decreases |acts|
  {
    if acts != [] {
      NothingCollected(Apply(w, acts[0]), acts[1..], v);
    }
  }

  /** ... every row and every returned descriptor names a blob that is in the
      repo now, and the code's "invalid record" branch is never taken: no lookup
      deletes a row. */
  lemma GrowingRegistry(acts: seq<Action>, w: World)
    requires Run(EMPTY, acts, w) && OnlyGrows(acts)
    ensures forall k :: k in w.db ==> Blob(k.host, k.repo, w.db[k]) in w.registry
    ensures forall c :: c in w.clients && c.pc.Found? ==> Blob(c.key.host, c.key.repo, c.pc.digest) in w.registry
    ensures forall c :: c in w.clients ==> !c.pc.Deleting?
  {
    RunKeepsInv(EMPTY, acts, w);
    NothingCollected(EMPTY, acts, w);
    forall c | c in w.clients ensures ClientOk(w, c) {
      var i :| 0 <= i < |w.clients| && w.clients[i] == c;
      assert ClientOk(w, w.clients[i]);
    }
  }

  // ---------- What each step writes ----------

  predicate ActsFor(w: World, a: Action, k: Key) {
    !a.Join? && !a.Collect? && a.i < |w.clients| && w.clients[a.i].key == k
  }

  /** The database accepts the deletion of this row. */
  predicate Deletes(w: World, a: Action, k: Key) {
    a.Delete? && a.ok && ActsFor(w, a, k)
  }

  /** The database is asked, and able, to create this row: by a converter that has
      pushed the layer, or by one that has mounted it. */
  predicate Creates(w: World, a: Action, k: Key, d: Digest) {
    && (a.Store? || a.Insert?) && a.ok && ActsFor(w, a, k)
    && w.clients[a.i].pc == if a.Store? then Uploaded(d) else Inserting(d, Rest(w.clients[a.i].pc))
  }

  function Rest(pc: Pc): seq<Entry> {
    if pc.Inserting? then pc.rest else []
  }

  /** The rows after any step: those not deleted, unchanged, and a created one
      exactly if its primary key was free. */
  lemma TableAfterStep(w: World, a: Action, k: Key, d: Digest)
    requires Enabled(w, a)
    ensures var v := Apply(w, a);
      (k in v.db && v.db[k] == d) <==>
        (if k in w.db then w.db[k] == d && !Deletes(w, a, k) else Creates(w, a, k, d))
  {
  }

  /** How a lookup goes on: it returns a descriptor after a successful probe or an
      accepted row, it ends without one when the candidates are exhausted or its
      row cannot be deleted, and it searches the other repos when there is no row
      or its blob cannot be had. */
  lemma LookupEndsExactlyWhen(w: World, a: Action)
    requires Enabled(w, a) && !a.Join? && !a.Collect?
    ensures var k, pc := w.clients[a.i].key, Apply(w, a).clients[a.i].pc;
      && (pc.Found? <==> a == Probe(a.i, Present) || (a == Insert(a.i, true) && k !in w.db))
      && (pc.NotFound? <==> a.Exhaust? || a == Delete(a.i, false))
      && (pc.Searching? <==>
           a == Query(a.i, false) || (a.Query? && k !in w.db) || a == Probe(a.i, Unreachable) || a == Delete(a.i, true))
      && (pc.Deleting? <==> a == Probe(a.i, Absent))
  {
  }

  /** A push or a mount brings this blob. */
  predicate Brings(w: World, a: Action, b: Blob) {
    || (a.Convert? && a.i < |w.clients| && b == BlobOf(w.clients[a.i].key, a.digest))
    || (a.Mount? && a.mounted && a.i < |w.clients| && w.clients[a.i].pc.Mounting? && w.clients[a.i].pc.entries != []
        && b == BlobOf(w.clients[a.i].key, w.clients[a.i].pc.entries[0].digest))
  }

  /** The blobs after any step. */
  lemma RegistryAfterStep(w: World, a: Action, b: Blob)
    requires Enabled(w, a)
    ensures b in Apply(w, a).registry <==> (b in w.registry && a != Collect(b)) || Brings(w, a, b)
  {
  }

  /** StoreConvertedLayerDetails after a conversion: the row of a free key is
      written, and no other row changes. */
  lemma StoreWritesRow(w: World, i: nat, ok: bool)
    requires i < |w.clients| && w.clients[i].pc.Uploaded?
    ensures Enabled(w, Store(i, ok))
    ensures var k, d, v := w.clients[i].key, w.clients[i].pc.digest, Apply(w, Store(i, ok));
      && v.clients[i].pc == Finished && v.registry == w.registry
      && v.db == (if ok && k !in w.db then w.db[k := d] else w.db)
  {
  }

  /** So it is by CreateLayerEntry after a mount, which decides whether the lookup
      returns the mounted layer or goes on with the next candidate. */
  lemma InsertWritesRow(w: World, i: nat, ok: bool)
    requires i < |w.clients| && w.clients[i].pc.Inserting?
    ensures Enabled(w, Insert(i, ok))
    ensures var k, pc, v := w.clients[i].key, w.clients[i].pc, Apply(w, Insert(i, ok));
      && v.registry == w.registry
      && if ok && k !in w.db then v.db == w.db[k := pc.digest] && v.clients[i].pc == Found(pc.digest)
         else v.db == w.db && v.clients[i].pc == Mounting(pc.rest)
  {
  }

  // ---------- Round trips ----------

  /** Nobody deletes the row of k, and the registry keeps the row's blob. */
  ghost predicate Undisturbed(w: World, acts: seq<Action>, k: Key, d: Digest)
    decreases |acts|
  {
    acts != [] ==>
      && acts[0] != Collect(BlobOf(k, d))
      && Enabled(w, acts[0]) && !Deletes(w, acts[0], k)
      && Undisturbed(Apply(w, acts[0]), acts[1..], k, d)
  }

  /** The queries and probes of client i are answered, and it has not gone on to
      convert the layer all the same. */
  ghost predicate Answered(acts: seq<Action>, i: nat) {
    forall a :: a in acts ==>
      && a != Query(i, false) && a != Probe(i, Unreachable)
      && !(a.Convert? && a.i == i)
  }

  /** The stored digest, or still on the way to it. */
  predicate Finds(pc: Pc, d: Digest) {
    pc == Querying || pc == Probing(d) || pc == Found(d)
  }

  ghost predicate RowIs(w: World, k: Key, d: Digest) {
    k in w.db && w.db[k] == d && BlobOf(k, d) in w.registry
  }

  lemma UndisturbedStep(w: World, a: Action, k: Key, d: Digest, i: nat)
    requires Enabled(w, a) && RowIs(w, k, d) && a != Collect(BlobOf(k, d)) && !Deletes(w, a, k)
    requires i < |w.clients| ==> w.clients[i].key == k && Finds(w.clients[i].pc, d)
    requires a != Query(i, false) && a != Probe(i, Unreachable) && !(a.Convert? && a.i == i)
    requires a.Join? && i == |w.clients| ==> a.key == k
    ensures RowIs(Apply(w, a), k, d)
    ensures i < |Apply(w, a).clients| ==> Apply(w, a).clients[i].key == k && Finds(Apply(w, a).clients[i].pc, d)
  {
    TableAfterStep(w, a, k, d);
    RegistryAfterStep(w, a, BlobOf(k, d));
  }

  lemma {:induction false} KeysStay(w: World, acts: seq<Action>, v: World, i: nat)
    requires Run(w, acts, v) && i < |w.clients|
    ensures i < |v.clients| && v.clients[i].key == w.clients[i].key
    decreases |acts|
  {
    if acts != [] {
      KeysStay(Apply(w, acts[0]), acts[1..], v, i);
    }
  }

  /** While a row and its blob last, any lookup of its key that gets its answers
      returns the row's digest, whatever all the others do in between. */
  lemma {:induction false} RowIsFound(w: World, acts: seq<Action>, v: World, k: Key, d: Digest, i: nat)
    requires Run(w, acts, v) && RowIs(w, k, d) && Undisturbed(w, acts, k, d) && Answered(acts, i)
    requires i < |v.clients| && v.clients[i].key == k
    requires i < |w.clients| ==> Finds(w.clients[i].pc, d)
    ensures RowIs(v, k, d) && Finds(v.clients[i].pc, d)
    decreases |acts|
  {
    if i < |w.clients| {
      KeysStay(w, acts, v, i);
    }
    if acts != [] {
      var m := Apply(w, acts[0]);
      assert acts[0] in acts && forall a :: a in acts[1..] ==> a in acts;
      if i < |m.clients| {
        KeysStay(m, acts[1..], v, i);
      }
      UndisturbedStep(w, acts[0], k, d, i);
      RowIsFound(m, acts[1..], v, k, d, i);
    }
  }

  /** Storing and looking up: after the database has accepted the row of a pushed
      layer, any later lookup of that key, by whomever, ends with its digest, until
      the row is deleted or the registry drops the blob. */
  lemma StoredLayerIsFound(w: World, j: nat, acts: seq<Action>, v: World, i: nat)
    requires j < |w.clients| && w.clients[j].pc.Uploaded? && w.clients[j].key !in w.db
    requires BlobOf(w.clients[j].key, w.clients[j].pc.digest) in w.registry
    requires var k, d, m := w.clients[j].key, w.clients[j].pc.digest, Apply(w, Store(j, true));
      && Run(m, acts, v) && Undisturbed(m, acts, k, d) && Answered(acts, i)
      && i < |v.clients| && v.clients[i].key == k && (i < |w.clients| ==> w.clients[i].pc.Querying?)
    ensures Finds(v.clients[i].pc, w.clients[j].pc.digest)
  {
    StoreWritesRow(w, j, true);
    RowIsFound(Apply(w, Store(j, true)), acts, v, w.clients[j].key, w.clients[j].pc.digest, i);
  }

  /** The same for the row of a layer mounted from another repo. */
  lemma MountedLayerIsFound(w: World, j: nat, acts: seq<Action>, v: World, i: nat)
    requires j < |w.clients| && w.clients[j].pc.Inserting? && w.clients[j].key !in w.db
    requires BlobOf(w.clients[j].key, w.clients[j].pc.digest) in w.registry
    requires var k, d, m := w.clients[j].key, w.clients[j].pc.digest, Apply(w, Insert(j, true));
      && Run(m, acts, v) && Undisturbed(m, acts, k, d) && Answered(acts, i)
      && i < |v.clients| && v.clients[i].key == k && (i < |w.clients| ==> i == j || w.clients[i].pc.Querying?)
    ensures Finds(v.clients[i].pc, w.clients[j].pc.digest)
  {
    InsertWritesRow(w, j, true);
    RowIsFound(Apply(w, Insert(j, true)), acts, v, w.clients[j].key, w.clients[j].pc.digest, i);
  }

  function WithPc(w: World, i: nat, pc: Pc): World
    requires i < |w.clients|
  {
    w.(clients := w.clients[i := w.clients[i].(pc := pc)])
  }

  /** Two steps suffice: query and probe. */
  lemma LookupFinds(w: World, i: nat)
    requires i < |w.clients| && w.clients[i].pc.Querying? && w.clients[i].key in w.db
    requires BlobOf(w.clients[i].key, w.db[w.clients[i].key]) in w.registry
    ensures Run(w, [Query(i, true), Probe(i, Present)], WithPc(w, i, Found(w.db[w.clients[i].key])))
  {
    var d := w.db[w.clients[i].key];
    var m, v := WithPc(w, i, Probing(d)), WithPc(w, i, Found(d));
    assert Apply(w, Query(i, true)) == m && Apply(m, Probe(i, Present)) == v;
    assert Run(m, [Probe(i, Present)], v);
    assert [Query(i, true), Probe(i, Present)][1..] == [Probe(i, Present)];
  }

  /** A lookup without a row of its own takes a blob that another repo of its host
      has for the chain id, and the row that it writes is there for the next one. */
  lemma OtherReposLayerIsMounted(w: World, i: nat, e: Entry)
    requires i < |w.clients| && w.clients[i].pc.Querying? && w.clients[i].key !in w.db
    requires IsRow(w.db, w.clients[i].key, e) && Blob(w.clients[i].key.host, e.repo, e.digest) in w.registry
    ensures var k := w.clients[i].key;
      Run(w, [Query(i, true), Search(i, [e]), Mount(i, true), Insert(i, true)],
          WithPc(w, i, Found(e.digest))
            .(db := w.db[k := e.digest], registry := w.registry + {BlobOf(k, e.digest)}))
  {
    var k := w.clients[i].key;
    var acts := [Query(i, true), Search(i, [e]), Mount(i, true), Insert(i, true)];
    var w1, w2 := WithPc(w, i, Searching), WithPc(w, i, Mounting([e]));
    assert [e][1..] == [];
    var w3 := WithPc(w, i, Inserting(e.digest, [])).(registry := w.registry + {BlobOf(k, e.digest)});
    var w4 := WithPc(w, i, Found(e.digest)).(db := w.db[k := e.digest], registry := w.registry + {BlobOf(k, e.digest)});
    assert Apply(w, acts[0]) == w1 && Apply(w1, acts[1]) == w2 && Apply(w2, acts[2]) == w3 && Apply(w3, acts[3]) == w4;
    assert acts[1..] == [acts[1], acts[2], acts[3]] && acts[1..][1..] == [acts[2], acts[3]];
    assert acts[1..][1..][1..] == [acts[3]];
    assert Run(w4, [], w4);
    assert Run(w3, [acts[3]], w4);
    assert Run(w2, [acts[2], acts[3]], w4);
    assert Run(w1, [acts[1], acts[2], acts[3]], w4);
  }

  /** A row whose blob the registry has lost: the lookup deletes it, and nothing
      else, so that the layer that is converted instead can be stored. */
  lemma LostLayerIsReplaced(w: World, i: nat, d: Digest)
    requires i < |w.clients| && w.clients[i].pc.Querying? && w.clients[i].key in w.db
    requires BlobOf(w.clients[i].key, w.db[w.clients[i].key]) !in w.registry
    ensures var k := w.clients[i].key;
      && Run(w, [Query(i, true), Probe(i, Absent), Delete(i, true)], WithPc(w, i, Searching).(db := w.db - {k}))
      && Run(WithPc(w, i, Searching).(db := w.db - {k}),
             [Search(i, []), Exhaust(i), Convert(i, d), Store(i, true)],
             WithPc(w, i, Finished).(db := (w.db - {k})[k := d], registry := w.registry + {BlobOf(k, d)},
                                     issued := w.issued + {IssueOf(k, d)}))
  {
    LostRowIsDeleted(w, i);
    LayerIsConverted(WithPc(w, i, Searching).(db := w.db - {w.clients[i].key}), i, d);
    assert w.clients[i := w.clients[i].(pc := Searching)][i := w.clients[i].(pc := Finished)]
        == w.clients[i := w.clients[i].(pc := Finished)];
  }

  lemma LostRowIsDeleted(w: World, i: nat)
    requires i < |w.clients| && w.clients[i].pc.Querying? && w.clients[i].key in w.db
    requires BlobOf(w.clients[i].key, w.db[w.clients[i].key]) !in w.registry
    ensures Run(w, [Query(i, true), Probe(i, Absent), Delete(i, true)],
                WithPc(w, i, Searching).(db := w.db - {w.clients[i].key}))
  {
    var d, acts := w.db[w.clients[i].key], [Query(i, true), Probe(i, Absent), Delete(i, true)];
    var w1, w2 := WithPc(w, i, Probing(d)), WithPc(w, i, Deleting(d));
    var w3 := WithPc(w, i, Searching).(db := w.db - {w.clients[i].key});
    assert Apply(w, acts[0]) == w1 && Apply(w1, acts[1]) == w2 && Apply(w2, acts[2]) == w3;
    assert acts[1..] == [acts[1], acts[2]] && acts[1..][1..] == [acts[2]];
    assert Run(w3, [], w3);
    assert Run(w2, [acts[2]], w3);
    assert Run(w1, [acts[1], acts[2]], w3);
  }

  lemma LayerIsConverted(w: World, i: nat, d: Digest)
    requires i < |w.clients| && w.clients[i].pc.Searching? && w.clients[i].key !in w.db
    ensures var k := w.clients[i].key;
      Run(w, [Search(i, []), Exhaust(i), Convert(i, d), Store(i, true)],
          WithPc(w, i, Finished).(db := w.db[k := d], registry := w.registry + {BlobOf(k, d)},
                                  issued := w.issued + {IssueOf(k, d)}))
  {
    var k, acts := w.clients[i].key, [Search(i, []), Exhaust(i), Convert(i, d), Store(i, true)];
    var w1, w2 := WithPc(w, i, Mounting([])), WithPc(w, i, NotFound);
    var w3 := WithPc(w, i, Uploaded(d)).(registry := w.registry + {BlobOf(k, d)});
    var w4 := WithPc(w, i, Finished).(db := w.db[k := d], registry := w.registry + {BlobOf(k, d)},
                                      issued := w.issued + {IssueOf(k, d)});
    assert Apply(w, acts[0]) == w1 && Apply(w1, acts[1]) == w2 && Apply(w2, acts[2]) == w3 && Apply(w3, acts[3]) == w4;
    assert acts[1..] == [acts[1], acts[2], acts[3]] && acts[1..][1..] == [acts[2], acts[3]];
    assert acts[1..][1..][1..] == [acts[3]];
    assert Run(w4, [], w4);
    assert Run(w3, [acts[3]], w4);
    assert Run(w2, [acts[2], acts[3]], w4);
    assert Run(w1, [acts[1], acts[2], acts[3]], w4);
  }

  // ---------- Where recorded digests come from ----------

  /** Converter j made this blob of the issue's layer in the run. */
  ghost predicate ConvertedBy(done: seq<Action>, w: World, e: Issue, j: nat) {
    && j < |w.clients| && w.clients[j].key.host == e.host && w.clients[j].key.chain == e.chain
    && Convert(j, e.digest) in done
  }

  ghost predicate Told(done: seq<Action>, w: World) {
    && (forall e :: e in w.issued ==> exists j :: ConvertedBy(done, w, e, j))
    && (forall j :: 0 <= j < |w.clients| && w.clients[j].pc.Uploaded? ==> Convert(j, w.clients[j].pc.digest) in done)
  }

  lemma StepTells(done: seq<Action>, w: World, a: Action)
    requires Enabled(w, a) && Told(done, w)
    ensures Told(done + [a], Apply(w, a))
  {
    var v := Apply(w, a);
    forall e | e in v.issued ensures exists j :: ConvertedBy(done + [a], v, e, j) {
      if e in w.issued {
        var j :| ConvertedBy(done, w, e, j);
        assert ConvertedBy(done + [a], v, e, j);
      } else {
        assert ConvertedBy(done + [a], v, e, a.i);
      }
    }
  }

  lemma {:induction false} RunTells(done: seq<Action>, w: World, acts: seq<Action>, v: World)
    requires Told(done, w) && Run(w, acts, v)
    ensures Told(done + acts, v)
    decreases |acts|
  {
    if acts == [] {
      assert done + acts == done;
    } else {
      StepTells(done, w, acts[0]);
      RunTells(done + [acts[0]], Apply(w, acts[0]), acts[1..], v);
      assert done + [acts[0]] + acts[1..] == done + acts;
    }
  }

  /** In every run a row's digest was made by some converter working on the row's
      chain id for the row's host, in this or another repo. */
  lemma RowsWereConverted(acts: seq<Action>, w: World, k: Key)
    requires Run(EMPTY, acts, w) && k in w.db
    ensures exists j :: ConvertedBy(acts, w, IssueOf(k, w.db[k]), j)
  {
    RowsNameTheirBlobs(acts, w, k);
    RunTells([], EMPTY, acts, w);
    assert [] + acts == acts && IssueOf(k, w.db[k]) in w.issued;
  }
}
