/** The names of the layer directories, `%04d_` followed by the layer's digest
    (cmd/convertor/builder/overlaybd_builder.go:477-479,
    cmd/convertor/builder/turboOCI_builder.go:254-256).  Module BuilderEngine keys
    a layer's files by the layer's index; this module says why it may. */
module LayerDirs {
  import opened Decimals
  import opened Wrappers

  /** fmt.Sprintf("%04d", n). */
  function Padded(n: nat): string {
    var s := Decimal(n);
    if |s| < 4 then Zeros(4 - |s|) + s else s
  }

  function LayerDir(idx: nat, digest: string): string {
    Padded(idx) + "_" + digest
  }

  lemma PaddedDigits(n: nat)
    ensures Digits(Padded(n)) == Some(n) && '_' !in Padded(n)
  {
    var s := Decimal(n);
    DecimalDigits(n, if |s| < 4 then 4 - |s| else 0);
    assert Zeros(0) + s == s;
  }

  /** Two layers share a directory only if they are the same layer: directories
      are pairwise distinct even when an image repeats a layer's digest. */
  lemma DistinctDirectories(i: nat, j: nat, d: string, e: string)
    ensures LayerDir(i, d) == LayerDir(j, e) <==> i == j && d == e
  {
    if LayerDir(i, d) == LayerDir(j, e) {
      PaddedDigits(i);
      PaddedDigits(j);
      FirstUnderscore(Padded(i), d, Padded(j), e);
    }
  }

  lemma FirstUnderscore(p: string, d: string, q: string, e: string)
    requires '_' !in p && '_' !in q
    requires p + "_" + d == q + "_" + e
    ensures p == q && d == e
  {
    var s := p + "_" + d;
    assert s[|p|] == '_' && s[|q|] == '_';
    assert forall k :: 0 <= k < |p| ==> s[k] == p[k] != '_';
    assert forall k :: 0 <= k < |q| ==> s[k] == q[k] != '_';
    assert s[..|p|] == p && s[..|q|] == q;
    assert s[|p| + 1..] == d && s[|q| + 1..] == e;
  }
}
