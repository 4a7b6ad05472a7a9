/** The disk-usage walk (pkg/utils/du_unix.go:46-83) with the rules of
    filepath.Walk about SkipDir.  The file system is a tree that stays as it is
    during the walk; one inode always reports one number of blocks. */
module DiskUsage {

  const MOUNTPOINT := "mountpoint"
  const BLOCK_SIZE := 512

  datatype Inode = Inode(dev: nat, ino: nat)

  /** The entries of a directory, in the order in which the walk reads them. */
  datatype Node =
    | Missing(name: string)    // lstat fails, as for a root that does not exist
    | File(name: string, inode: Inode)
    | Dir(name: string, inode: Inode, entries: seq<Node>, readable: bool)

  /** How the walk of one node ends: nil, SkipDir, another error, or a panic. */
  datatype Outcome = Done | Skip | Fail | Panic

  predicate Aborts(o: Outcome) {
    o.Fail? || o.Panic?
  }

  datatype Trace = Trace(seen: set<Inode>, outcome: Outcome)

  // ---------- What the walk does ----------

  /** The inodes counted while walking a node.  The callback looks at the name
      before the error, so it dereferences the nil FileInfo of a missing node. */
  function Walked(n: Node): Trace
    decreases n, if n.Dir? then |n.entries| + 1 else 0
  {
    if n.Missing? then Trace({}, Panic)
    else if n.name == MOUNTPOINT then Trace({}, Skip)
    else if n.File? then Trace({n.inode}, Done)
    else if !n.readable then Trace({}, Fail)
    else WalkedUpTo(n, |n.entries|)
  }

  /** The same after the first k entries of a directory.  SkipDir from a
      subdirectory skips that directory; from a file it ends the walk of the
      directory that holds the file. */
  function WalkedUpTo(d: Node, k: nat): (t: Trace)
    requires d.Dir? && k <= |d.entries|
    decreases d, k
  {
    if k == 0 then Trace({d.inode}, Done)
    else
      var before, entry := WalkedUpTo(d, k - 1), d.entries[k - 1];
      if before.outcome != Done then before
      else
        var e := Walked(entry);
        Trace(before.seen + e.seen, if e.outcome.Skip? && entry.Dir? then Done else e.outcome)
  }

  lemma {:induction false} EarlyEnd(d: Node, k: nat)
    requires d.Dir? && k <= |d.entries|
    requires WalkedUpTo(d, k).outcome != Done
    ensures WalkedUpTo(d, |d.entries|) == WalkedUpTo(d, k)
    decreases |d.entries| - k
  {
    if k < |d.entries| {
      EarlyEnd(d, k + 1);
    }
  }

  /** The inodes counted over all roots; SkipDir at a root is no error. */
  function SeenFrom(roots: seq<Node>): set<Inode> {
    if roots == [] then {}
    else SeenFrom(roots[..|roots| - 1]) + Walked(roots[|roots| - 1]).seen
  }

  lemma {:induction false} SeenFromSome(roots: seq<Node>, i: Inode)
    ensures i in SeenFrom(roots) <==> exists k :: 0 <= k < |roots| && i in Walked(roots[k]).seen
  {
    if roots != [] {
      var front := roots[..|roots| - 1];
      SeenFromSome(front, i);
      if i in SeenFrom(front) {
        var k :| 0 <= k < |front| && i in Walked(front[k]).seen;
        assert front[k] == roots[k];
      }
      if k :| 0 <= k < |roots| && i in Walked(roots[k]).seen && k < |front| {
        assert front[k] == roots[k];
      }
    }
  }

  predicate WalkFails(roots: seq<Node>) {
    exists k :: 0 <= k < |roots| && Aborts(Walked(roots[k]).outcome)
  }

  /** How the first walk that fails ends. */
  function FirstFailure(roots: seq<Node>): Outcome
    requires WalkFails(roots)
  {
    if Aborts(Walked(roots[0]).outcome) then Walked(roots[0]).outcome
    else
      assert exists k :: 0 <= k < |roots[1..]| && Aborts(Walked(roots[1..][k]).outcome) by {
        var k :| 0 <= k < |roots| && Aborts(Walked(roots[k]).outcome);
        assert roots[1..][k - 1] == roots[k];
      }
      FirstFailure(roots[1..])
  }

  lemma {:induction false} FirstFailureAt(roots: seq<Node>, k: nat)
    requires k < |roots| && Aborts(Walked(roots[k]).outcome)
    requires forall j :: 0 <= j < k ==> !Aborts(Walked(roots[j]).outcome)
    ensures WalkFails(roots) && FirstFailure(roots) == Walked(roots[k]).outcome
  {
    if k > 0 {
      assert roots[1..][k - 1] == roots[k];
      FirstFailureAt(roots[1..], k - 1);
    }
  }

  // ---------- The sum over a set ----------

  ghost function Blocks(s: set<Inode>, blocks: Inode -> int): int {
    if s == {} then 0
    else
      var i :| i in s;
      blocks(i) + Blocks(s - {i}, blocks)
  }

  lemma {:induction false} BlocksInsert(s: set<Inode>, i: Inode, blocks: Inode -> int)
    requires i !in s
    ensures Blocks(s + {i}, blocks) == Blocks(s, blocks) + blocks(i)
    decreases s
  {
    var all := s + {i};
    var j :| j in all && Blocks(all, blocks) == blocks(j) + Blocks(all - {j}, blocks);
    if j == i {
      assert all - {j} == s;
    } else {
      assert all - {j} == (s - {j}) + {i};
      BlocksInsert(s - {j}, i, blocks);
      BlocksInsert(s - {j}, j, blocks);
      assert (s - {j}) + {j} == s;
    }
  }

  // ---------- The walk ----------

  /** The variables that the callback of the walk captures. */
  class Counter {
    const blocks: Inode -> int
    var inodes: set<Inode>
    var size: int

    /** The size is that of the distinct inodes met so far. */
    ghost predicate Valid()
      reads this
    {
      size == BLOCK_SIZE * Blocks(inodes, blocks)
    }

    constructor (blocks: Inode -> int)
      ensures Valid() && inodes == {} && this.blocks == blocks
    {
      this.blocks, inodes, size := blocks, {}, 0;
    }

    method Count(i: Inode)
      requires Valid()
      modifies this
      ensures Valid() && inodes == old(inodes) + {i}
    {
      if i !in inodes {
        BlocksInsert(inodes, i, blocks);
        inodes := inodes + {i};
        size := size + blocks(i) * BLOCK_SIZE;
      }
    }

    method Walk(n: Node) returns (r: Outcome)
      requires Valid()
      modifies this
      ensures Valid() && inodes == old(inodes) + Walked(n).seen && r == Walked(n).outcome
      decreases n
    {
      if n.Missing? {
        return Panic;
      }
      if n.name == MOUNTPOINT {
        return Skip;
      }
      if n.Dir? && !n.readable {
        return Fail;
      }
      Count(n.inode);
      if n.File? {
        return Done;
      }
      for k := 0 to |n.entries|
        invariant Valid()
        invariant WalkedUpTo(n, k).outcome == Done
        invariant inodes == old(inodes) + WalkedUpTo(n, k).seen
      {
        var e := Walk(n.entries[k]);
        if e != Done && !(n.entries[k].Dir? && e.Skip?) {
          EarlyEnd(n, k + 1);
          return e;
        }
      }
      return Done;
    }
  }

  datatype Usage = Usage(inodes: nat, size: int)
  datatype Result = Ok(usage: Usage) | Error | Panicked

  /** The reported usage is the number and the total size of the distinct inodes
      counted, however often the walks meet them. */
  method DiskUsageWithoutMountpoint(roots: seq<Node>, blocks: Inode -> int) returns (r: Result)
    ensures r.Ok? <==> !WalkFails(roots)
    ensures WalkFails(roots) ==> r == if FirstFailure(roots).Panic? then Panicked else Error
    ensures r.Ok? ==> r.usage.inodes == |SeenFrom(roots)|
    ensures r.Ok? ==> r.usage.size == BLOCK_SIZE * Blocks(SeenFrom(roots), blocks)
  {
    var counter := new Counter(blocks);
    for k := 0 to |roots|
      invariant counter.Valid() && counter.blocks == blocks
      invariant counter.inodes == SeenFrom(roots[..k])
      invariant forall j :: 0 <= j < k ==> !Aborts(Walked(roots[j]).outcome)
    {
      assert roots[..k + 1][..k] == roots[..k];
      var outcome := counter.Walk(roots[k]);
      if Aborts(outcome) {
        FirstFailureAt(roots, k);
        return if outcome.Panic? then Panicked else Error;
      }
    }
    assert roots[..|roots|] == roots;
    return Ok(Usage(|counter.inodes|, counter.size));
  }

  // ---------- What it should count ----------

  predicate IsMount(n: Node) {
    n.Dir? && n.name == MOUNTPOINT
  }

  /** The node that a path of entry positions leads to without entering a
      directory named mountpoint has this inode. */
  predicate Reaches(n: Node, path: seq<int>, i: Inode)
    decreases |path|
  {
    && !IsMount(n)
    && if path == [] then !n.Missing? && n.inode == i
       else n.Dir? && 0 <= path[0] < |n.entries| && Reaches(n.entries[path[0]], path[1..], i)
  }

  /** The inodes outside the directories named mountpoint. */
  function Outside(n: Node): set<Inode> {
    if IsMount(n) || n.Missing? then {}
    else if n.File? then {n.inode}
    else {n.inode} + OutsideOf(n.entries)
  }

  function OutsideOf(nodes: seq<Node>): set<Inode> {
    set c, i | c in nodes && i in Outside(c) :: i
  }

  lemma {:induction false} ReachableIsOutside(n: Node, path: seq<int>, i: Inode)
    requires Reaches(n, path, i)
    ensures i in Outside(n)
    decreases |path|
  {
    if path != [] {
      var c := n.entries[path[0]];
      ReachableIsOutside(c, path[1..], i);
      assert i in OutsideOf(n.entries);
    }
  }

  lemma {:induction false} PathTo(n: Node, i: Inode) returns (path: seq<int>)
    requires i in Outside(n)
    ensures Reaches(n, path, i)
    decreases n
  {
    path := [];
    if i != n.inode {
      assert i in OutsideOf(n.entries);
      var k :| 0 <= k < |n.entries| && i in Outside(n.entries[k]);
      var rest := PathTo(n.entries[k], i);
      path := [k] + rest;
      assert path[1..] == rest;
    }
  }

  lemma OutsideIsReachable(n: Node, i: Inode)
    ensures i in Outside(n) ==> exists path :: Reaches(n, path, i)
    ensures forall path :: Reaches(n, path, i) ==> i in Outside(n)
  {
    if i in Outside(n) {
      var path := PathTo(n, i);
      assert Reaches(n, path, i);
    }
    forall path | Reaches(n, path, i) ensures i in Outside(n) {
      ReachableIsOutside(n, path, i);
    }
  }

  /** A file named mountpoint: SkipDir then hides it and the rest of its directory. */
  predicate IsCut(n: Node) {
    n.File? && n.name == MOUNTPOINT
  }

  predicate CutBefore(d: Node, k: nat)
    requires d.Dir? && k <= |d.entries|
  {
    exists j :: 0 <= j < k && IsCut(d.entries[j])
  }

  /** The inodes hidden that way. */
  function Lost(n: Node): set<Inode>
    decreases n, if n.Dir? then |n.entries| + 1 else 0
  {
    if IsMount(n) || n.Missing? then {}
    else if n.File? then if IsCut(n) then {n.inode} else {}
    else LostUpTo(n, |n.entries|)
  }

  function LostUpTo(d: Node, k: nat): set<Inode>
    requires d.Dir? && k <= |d.entries|
    decreases d, k
  {
    if k == 0 then {}
    else
      var entry := d.entries[k - 1];
      LostUpTo(d, k - 1) + if CutBefore(d, k - 1) then Outside(entry) else Lost(entry)
  }

  lemma OutsideOfSnoc(nodes: seq<Node>, k: nat)
    requires k < |nodes|
    ensures OutsideOf(nodes[..k + 1]) == OutsideOf(nodes[..k]) + Outside(nodes[k])
  {
    var a, b := nodes[..k], nodes[..k + 1];
    assert b == a + [nodes[k]];
    forall i | i in OutsideOf(a) ensures i in OutsideOf(b) {
      var c :| c in a && i in Outside(c);
      assert c in b;
    }
    forall i | i in Outside(nodes[k]) ensures i in OutsideOf(b) {
      assert nodes[k] in b;
    }
  }

  /** Every inode outside the mountpoint directories is counted or lost. */
  lemma {:induction false} CountedOrLost(n: Node)
    requires !Aborts(Walked(n).outcome)
    ensures Walked(n).seen + Lost(n) == Outside(n)
    ensures n.File? ==> (Walked(n).outcome == Skip <==> IsCut(n))
    decreases n, if n.Dir? then |n.entries| + 1 else 0
  {
    if n.Dir? && !IsMount(n) {
      CountedOrLostUpTo(n, |n.entries|);
      assert n.entries[..|n.entries|] == n.entries;
    }
  }

  lemma {:induction false} CountedOrLostUpTo(d: Node, k: nat)
    requires d.Dir? && k <= |d.entries|
    requires !Aborts(WalkedUpTo(d, k).outcome)
    ensures WalkedUpTo(d, k).seen + LostUpTo(d, k) == {d.inode} + OutsideOf(d.entries[..k])
    ensures WalkedUpTo(d, k).outcome == Skip <==> CutBefore(d, k)
    decreases d, k
  {
    if k > 0 {
      var entry := d.entries[k - 1];
      CountedOrLostUpTo(d, k - 1);
      OutsideOfSnoc(d.entries, k - 1);
      assert ({d.inode} + OutsideOf(d.entries[..k - 1])) + Outside(entry) == {d.inode} + OutsideOf(d.entries[..k]);
      var seen, lost := WalkedUpTo(d, k - 1).seen, LostUpTo(d, k - 1);
      if CutBefore(d, k - 1) {
        Regroup(seen, lost, {}, Outside(entry));
        assert {} + Outside(entry) == Outside(entry) && seen + {} == seen;
      } else {
        CountedOrLost(entry);
        Regroup(seen, lost, Walked(entry).seen, Lost(entry));
      }
    }
  }

  lemma Regroup(a: set<Inode>, b: set<Inode>, c: set<Inode>, d: set<Inode>)
    ensures (a + c) + (b + d) == (a + b) + (c + d)
  {
  }

  // ---------- When the walk fails ----------

  /** Nothing outside the mountpoint directories is missing. */
  predicate AllThere(n: Node) {
    !n.Missing? && (n.Dir? && !IsMount(n) ==> forall c :: c in n.entries ==> AllThere(c))
  }

  /** All other directories than those can be read. */
  predicate AllReadable(n: Node) {
    n.Dir? && !IsMount(n) ==> n.readable && forall c :: c in n.entries ==> AllReadable(c)
  }

  /** How the walk of a node ends, and that of the first k entries of a directory. */
  predicate EndsAsItShould(o: Outcome, there: bool, readable: bool, cutFree: bool) {
    && (there ==> !o.Panic?) && (readable ==> !o.Fail?)
    && (cutFree && !(there && readable) ==> Aborts(o))
  }

  lemma {:induction false} WalkEnds(n: Node)
    ensures EndsAsItShould(Walked(n).outcome, AllThere(n), AllReadable(n), CutFree(n))
    ensures !n.Dir? && Walked(n).outcome.Skip? ==> !CutFree(n)
    decreases n, if n.Dir? then |n.entries| + 1 else 0
  {
    if n.Dir? && !IsMount(n) && n.readable {
      WalkUpToEnds(n, |n.entries|);
    }
  }

  predicate ThereUpTo(d: Node, k: nat)
    requires d.Dir? && k <= |d.entries|
  {
    forall j :: 0 <= j < k ==> AllThere(d.entries[j])
  }

  predicate ReadableUpTo(d: Node, k: nat)
    requires d.Dir? && k <= |d.entries|
  {
    forall j :: 0 <= j < k ==> AllReadable(d.entries[j])
  }

  predicate CutFreeUpTo(d: Node, k: nat)
    requires d.Dir? && k <= |d.entries|
  {
    forall j :: 0 <= j < k ==> CutFree(d.entries[j])
  }

  lemma {:induction false} WalkUpToEnds(d: Node, k: nat)
    requires d.Dir? && k <= |d.entries|
    ensures EndsAsItShould(WalkedUpTo(d, k).outcome, ThereUpTo(d, k), ReadableUpTo(d, k), CutFreeUpTo(d, k))
    ensures CutFreeUpTo(d, k) ==> !WalkedUpTo(d, k).outcome.Skip?
    decreases d, k
  {
    if k > 0 {
      WalkUpToEnds(d, k - 1);
      WalkEnds(d.entries[k - 1]);
      OneEntryMore(d, k - 1, WalkedUpTo(d, k - 1).outcome, Walked(d.entries[k - 1]).outcome, WalkedUpTo(d, k).outcome);
    }
  }

  lemma OneEntryMore(d: Node, k: nat, before: Outcome, entry: Outcome, after: Outcome)
    requires d.Dir? && k < |d.entries|
    requires EndsAsItShould(before, ThereUpTo(d, k), ReadableUpTo(d, k), CutFreeUpTo(d, k))
    requires CutFreeUpTo(d, k) ==> !before.Skip?
    requires var e := d.entries[k];
      EndsAsItShould(entry, AllThere(e), AllReadable(e), CutFree(e)) && (!e.Dir? && entry.Skip? ==> !CutFree(e))
    requires after ==
      if before != Done then before else if entry.Skip? && d.entries[k].Dir? then Done else entry
    ensures EndsAsItShould(after, ThereUpTo(d, k + 1), ReadableUpTo(d, k + 1), CutFreeUpTo(d, k + 1))
    ensures CutFreeUpTo(d, k + 1) ==> !after.Skip?
  {
    assert ThereUpTo(d, k + 1) <==> ThereUpTo(d, k) && AllThere(d.entries[k]);
    assert ReadableUpTo(d, k + 1) <==> ReadableUpTo(d, k) && AllReadable(d.entries[k]);
    assert CutFreeUpTo(d, k + 1) <==> CutFreeUpTo(d, k) && CutFree(d.entries[k]);
  }

  /** The walk gives no usage exactly if something that it should count is missing
      or cannot be read, provided no file is named mountpoint; such a file can only
      hide what would have failed.  Only a missing node makes it panic, and only a
      directory that cannot be read makes it return an error. */
  lemma FailsExactlyWhen(roots: seq<Node>)
    ensures (forall n :: n in roots ==> AllThere(n) && AllReadable(n)) ==> !WalkFails(roots)
    ensures AllCutFree(roots) ==> (WalkFails(roots) <==> exists n :: n in roots && !(AllThere(n) && AllReadable(n)))
    ensures WalkFails(roots) && (forall n :: n in roots ==> AllThere(n)) ==> FirstFailure(roots) == Fail
    ensures WalkFails(roots) && (forall n :: n in roots ==> AllReadable(n)) ==> FirstFailure(roots) == Panic
  {
    forall k | 0 <= k < |roots|
      ensures EndsAsItShould(Walked(roots[k]).outcome, AllThere(roots[k]), AllReadable(roots[k]), CutFree(roots[k]))
    {
      WalkEnds(roots[k]);
    }
    if n :| n in roots && !(AllThere(n) && AllReadable(n)) && AllCutFree(roots) {
      var k :| 0 <= k < |roots| && roots[k] == n;
      assert Aborts(Walked(roots[k]).outcome);
    }
    if WalkFails(roots) {
      var n := FailingRoot(roots);
      WalkEnds(n);
    }
  }

  lemma {:induction false} FailingRoot(roots: seq<Node>) returns (n: Node)
    requires WalkFails(roots)
    ensures n in roots && Walked(n).outcome == FirstFailure(roots) && Aborts(Walked(n).outcome)
  {
    if Aborts(Walked(roots[0]).outcome) {
      n := roots[0];
    } else {
      var k :| 0 <= k < |roots| && Aborts(Walked(roots[k]).outcome);
      assert roots[1..][k - 1] == roots[k];
      n := FailingRoot(roots[1..]);
    }
  }

  // ---------- When the walk counts everything ----------

  /** No file outside the mountpoint directories is named mountpoint. */
  predicate CutFree(n: Node) {
    !IsCut(n) && (n.Dir? && !IsMount(n) ==> forall c :: c in n.entries ==> CutFree(c))
  }

  lemma {:induction false} NothingLost(n: Node)
    ensures Lost(n) == {} <==> CutFree(n)
    decreases n, if n.Dir? then |n.entries| + 1 else 0
  {
    if n.Dir? && !IsMount(n) {
      NothingLostUpTo(n, |n.entries|);
    }
  }

  lemma {:induction false} NothingLostUpTo(d: Node, k: nat)
    requires d.Dir? && k <= |d.entries|
    ensures LostUpTo(d, k) == {} <==> forall j :: 0 <= j < k ==> CutFree(d.entries[j])
    decreases d, k
  {
    if k > 0 {
      NothingLostUpTo(d, k - 1);
      NothingLost(d.entries[k - 1]);
    }
  }

  /** No two nodes outside the mountpoint directories share an inode. */
  predicate NoHardLinks(n: Node) {
    n.Dir? && !IsMount(n) ==>
      && n.inode !in OutsideOf(n.entries)
      && NoSharing(n.entries)
      && forall c :: c in n.entries ==> NoHardLinks(c)
  }

  predicate NoSharing(nodes: seq<Node>) {
    forall j, k :: 0 <= j < k < |nodes| ==> Outside(nodes[j]) !! Outside(nodes[k])
  }

  lemma {:induction false} LostIsNotCounted(n: Node)
    requires NoHardLinks(n) && !Aborts(Walked(n).outcome)
    ensures Walked(n).seen !! Lost(n)
    decreases n, if n.Dir? then |n.entries| + 1 else 0
  {
    if n.Dir? && !IsMount(n) {
      LostIsNotCountedUpTo(n, |n.entries|);
    }
  }

  lemma {:induction false} LostIsNotCountedUpTo(d: Node, k: nat)
    requires d.Dir? && k <= |d.entries|
    requires !IsMount(d) && NoHardLinks(d) && !Aborts(WalkedUpTo(d, k).outcome)
    ensures WalkedUpTo(d, k).seen !! LostUpTo(d, k)
    decreases d, k
  {
    if k > 0 {
      var entry := d.entries[k - 1];
      LostIsNotCountedUpTo(d, k - 1);
      CountedOrLostUpTo(d, k - 1);
      forall i | i in Outside(entry) ensures i !in WalkedUpTo(d, k - 1).seen + LostUpTo(d, k - 1) {
        assert i in OutsideOf(d.entries);
      }
      if !CutBefore(d, k - 1) {
        CountedOrLost(entry);
        LostIsNotCounted(entry);
      }
    }
  }

  function LostFrom(roots: seq<Node>): set<Inode> {
    set c, i | c in roots && i in Lost(c) :: i
  }

  predicate AllCutFree(roots: seq<Node>) {
    forall c :: c in roots ==> CutFree(c)
  }

  /** Nothing outside the mountpoint directories is hard-linked, no roots overlap. */
  predicate Unshared(roots: seq<Node>) {
    NoSharing(roots) && forall c :: c in roots ==> NoHardLinks(c)
  }

  /** The reported number of inodes is that of the inodes outside the mountpoint
      directories exactly when every inode behind a file named mountpoint is also
      met elsewhere; where nothing is hard-linked and no roots overlap, that is
      exactly when there is no such file. */
  lemma CountsEverythingExactlyWhen(roots: seq<Node>)
    requires !WalkFails(roots)
    ensures SeenFrom(roots) <= OutsideOf(roots)
    ensures |SeenFrom(roots)| == |OutsideOf(roots)| <==> LostFrom(roots) <= SeenFrom(roots)
    ensures AllCutFree(roots) ==> SeenFrom(roots) == OutsideOf(roots)
    ensures Unshared(roots) ==> (|SeenFrom(roots)| == |OutsideOf(roots)| <==> AllCutFree(roots))
  {
    SeenOrLost(roots);
    NothingLostFrom(roots);
    Sizes(SeenFrom(roots), LostFrom(roots));
    if Unshared(roots) {
      forall i | i in LostFrom(roots) ensures i !in SeenFrom(roots) {
        LostFromIsNotCounted(roots, i);
      }
    }
  }

  lemma Sizes(seen: set<Inode>, lost: set<Inode>)
    ensures |seen| == |seen + lost| <==> lost <= seen
    ensures lost == {} ==> seen == seen + lost
    ensures seen !! lost && lost <= seen ==> lost == {}
  {
    if |seen| == |seen + lost| {
      SameSize(seen, seen + lost);
    }
    if lost <= seen {
      assert seen + lost == seen;
    }
  }

  lemma NothingLostFrom(roots: seq<Node>)
    ensures LostFrom(roots) == {} <==> AllCutFree(roots)
  {
    forall c | c in roots ensures Lost(c) == {} <==> CutFree(c) {
      NothingLost(c);
    }
    if !AllCutFree(roots) {
      var c :| c in roots && !CutFree(c);
      var i :| i in Lost(c);
      assert i in LostFrom(roots);
    }
  }

  lemma SeenOrLost(roots: seq<Node>)
    requires !WalkFails(roots)
    ensures SeenFrom(roots) + LostFrom(roots) == OutsideOf(roots)
  {
    forall k | 0 <= k < |roots| ensures Walked(roots[k]).seen + Lost(roots[k]) == Outside(roots[k]) {
      CountedOrLost(roots[k]);
    }
    forall i ensures i in OutsideOf(roots) <==> i in SeenFrom(roots) || i in LostFrom(roots) {
      SeenFromSome(roots, i);
      if i in OutsideOf(roots) {
        var k :| 0 <= k < |roots| && i in Outside(roots[k]);
      }
      if i in LostFrom(roots) {
        var k :| 0 <= k < |roots| && i in Lost(roots[k]);
        assert i in Outside(roots[k]);
      }
    }
  }

  lemma LostFromIsNotCounted(roots: seq<Node>, i: Inode)
    requires !WalkFails(roots) && Unshared(roots)
    requires i in LostFrom(roots)
    ensures i !in SeenFrom(roots)
  {
    SeenFromSome(roots, i);
    var j :| 0 <= j < |roots| && i in Lost(roots[j]);
    forall k | 0 <= k < |roots| ensures i !in Walked(roots[k]).seen {
      CountedOrLost(roots[j]);
      CountedOrLost(roots[k]);
      LostIsNotCounted(roots[j]);
      assert i in Outside(roots[j]);
    }
  }

  lemma {:induction false} SameSize(a: set<Inode>, b: set<Inode>)
    requires a <= b && |a| == |b|
    ensures a == b
    decreases a
  {
    if x :| x in a {
      SameSize(a - {x}, b - {x});
    }
  }

  /** A file named mountpoint hides the files that follow it. */
  lemma MountpointFileHidesSiblings()
    ensures
      var x := File("x", Inode(0, 3));
      var dir := Dir("block", Inode(0, 1), [File(MOUNTPOINT, Inode(0, 2)), x], true);
      SeenFrom([dir]) == {Inode(0, 1)} && x.inode in OutsideOf([dir])
  {
    var x := File("x", Inode(0, 3));
    var dir := Dir("block", Inode(0, 1), [File(MOUNTPOINT, Inode(0, 2)), x], true);
    assert WalkedUpTo(dir, 1) == Trace({dir.inode}, Skip);
    EarlyEnd(dir, 1);
    assert SeenFrom([dir]) == SeenFrom([]) + Walked(dir).seen;
    assert x in dir.entries && x.inode in Outside(x);
    assert x.inode in Outside(dir);
  }

  // ---------- Order, repetition and overlap of the walks ----------

  /** Up to the order of its directories' entries, n is part of m. */
  predicate Within(n: Node, m: Node)
    decreases n
  {
    && n.name == m.name && n.Missing? == m.Missing? && n.Dir? == m.Dir? && (!n.Missing? ==> n.inode == m.inode)
    && (n.Dir? ==> forall c :: c in n.entries ==> exists e :: e in m.entries && Within(c, e))
  }

  lemma {:induction false} OutsideOfPart(n: Node, m: Node, i: Inode)
    requires Within(n, m) && i in Outside(n)
    ensures i in Outside(m)
    decreases n
  {
    if i != n.inode {
      assert i in OutsideOf(n.entries);
      var c :| c in n.entries && i in Outside(c);
      var e :| e in m.entries && Within(c, e);
      OutsideOfPart(c, e, i);
      assert i in OutsideOf(m.entries);
    }
  }

  predicate AllWithin(a: seq<Node>, b: seq<Node>) {
    forall n :: n in a ==> exists m :: m in b && Within(n, m)
  }

  /** Two runs over the same trees count the same inodes, whatever the order of the
      roots and of the directories' entries, and however often a root is repeated. */
  lemma UsageIgnoresOrder(a: seq<Node>, b: seq<Node>)
    requires !WalkFails(a) && !WalkFails(b)
    requires AllCutFree(a) && AllCutFree(b)
    requires AllWithin(a, b) && AllWithin(b, a)
    ensures SeenFrom(a) == SeenFrom(b)
  {
    CountsEverythingExactlyWhen(a);
    CountsEverythingExactlyWhen(b);
    PartOfForest(a, b);
    PartOfForest(b, a);
    SameSet(OutsideOf(a), OutsideOf(b));
  }

  lemma SameSet(x: set<Inode>, y: set<Inode>)
    requires x <= y && y <= x
    ensures x == y
  {
  }

  lemma PartOfForest(a: seq<Node>, b: seq<Node>)
    requires AllWithin(a, b)
    ensures OutsideOf(a) <= OutsideOf(b)
  {
    forall i | i in OutsideOf(a) ensures i in OutsideOf(b) {
      var n :| n in a && i in Outside(n);
      var m :| m in b && Within(n, m);
      OutsideOfPart(n, m, i);
    }
  }
}
