/** The chunk loops: snapshots are fetched and subscriptions queued one chunk of assets at a time. */
module Chunks {

  function Min(a: nat, b: nat): nat {
    if a <= b then a else b
  }

  function Split(assets: seq<string>, chunkSize: nat): seq<seq<string>>
    requires chunkSize > 0
    decreases |assets|
  {
    if assets == [] then [] else
      var n := Min(chunkSize, |assets|);
      [assets[..n]] + Split(assets[n..], chunkSize)
  }

  function Join(chunks: seq<seq<string>>): seq<string> {
    if chunks == [] then [] else chunks[0] + Join(chunks[1..])
  }

  /** Every asset is in exactly one chunk, in order. */
  lemma {:induction false} SplitJoins(assets: seq<string>, chunkSize: nat)
    requires chunkSize > 0
    ensures Join(Split(assets, chunkSize)) == assets
    decreases |assets|
  {
    if assets == [] {
    } else {
      var n := Min(chunkSize, |assets|);
      SplitJoins(assets[n..], chunkSize);
      assert Split(assets, chunkSize)[1..] == Split(assets[n..], chunkSize);
      assert assets[..n] + assets[n..] == assets;
    }
  }

  /** n is what `count` chunks hold when all but the last are full and the last is not empty. */
  predicate Ceiling(n: nat, chunkSize: nat, count: nat) {
    (count - 1) * chunkSize < n <= count * chunkSize
  }

  lemma CeilingStep(n: nat, chunkSize: nat, count: nat)
    requires chunkSize > 0 && n > 0 && Ceiling(n - Min(chunkSize, n), chunkSize, count)
    ensures Ceiling(n, chunkSize, count + 1)
  {
    assert (count + 1) * chunkSize == count * chunkSize + chunkSize;
    assert (count - 1) * chunkSize == count * chunkSize - chunkSize;
    if n <= chunkSize {
      assert count > 0 ==> (count - 1) * chunkSize >= 0;
    }
  }

  /** Chunks are full except for the last one, which is not empty; there are ceil(n / chunkSize). */
  lemma {:induction false} SplitSizes(assets: seq<string>, chunkSize: nat)
    requires chunkSize > 0
    ensures var chunks := Split(assets, chunkSize);
            && (forall i :: 0 <= i < |chunks| - 1 ==> |chunks[i]| == chunkSize)
            && (chunks != [] ==> 0 < |chunks[|chunks| - 1]| <= chunkSize)
            && Ceiling(|assets|, chunkSize, |chunks|)
    decreases |assets|
  {
    if assets == [] {
    } else {
      var n := Min(chunkSize, |assets|);
      SplitSizes(assets[n..], chunkSize);
      CeilingStep(|assets|, chunkSize, |Split(assets[n..], chunkSize)|);
      assert Split(assets, chunkSize) == [assets[..n]] + Split(assets[n..], chunkSize);
      assert n < chunkSize ==> Split(assets[n..], chunkSize) == [];
    }
  }

  /** i is where some number of full chunks ends. */
  predicate FullChunks(i: nat, chunkSize: nat)
    requires chunkSize > 0
  {
    i == 0 || (i >= chunkSize && FullChunks(i - chunkSize, chunkSize))
  }

  lemma Unchunk(assets: seq<string>, chunkSize: nat, end: nat)
    requires 0 < chunkSize <= end <= |assets|
    ensures Split(assets[..end], chunkSize)
         == [assets[..chunkSize]] + Split(assets[chunkSize..][..end - chunkSize], chunkSize)
  {
    assert assets[..end][..chunkSize] == assets[..chunkSize];
    assert assets[..end][chunkSize..] == assets[chunkSize..][..end - chunkSize];
  }

  lemma SliceOfRest(assets: seq<string>, k: nat, lo: nat, hi: nat)
    requires k <= lo <= hi <= |assets|
    ensures assets[k..][lo - k..hi - k] == assets[lo..hi]
  {
  }

  lemma {:induction false} SplitAppend(assets: seq<string>, chunkSize: nat, i: nat)
    requires chunkSize > 0 && i < |assets| && FullChunks(i, chunkSize)
    ensures var end := Min(i + chunkSize, |assets|);
            Split(assets[..end], chunkSize) == Split(assets[..i], chunkSize) + [assets[i..end]]
    decreases i
  {
    var end := Min(i + chunkSize, |assets|);
    if i == 0 {
      assert assets[..end][..end] == assets[0..end] && assets[..end][end..] == [];
    } else {
      SplitAppend(assets[chunkSize..], chunkSize, i - chunkSize);
      Unchunk(assets, chunkSize, i);
      Unchunk(assets, chunkSize, end);
      SliceOfRest(assets, chunkSize, i, end);
    }
  }

  /** snapshotInChunks, and partialInChunks, whose argument the loop never uses: the assets given
      snapshots and the chunks sent to the subscription channel. */
  method SnapshotInChunks(assets: seq<string>, chunkSize: nat)
    returns (snapshotted: seq<string>, sent: seq<seq<string>>)
    requires chunkSize > 0
    ensures snapshotted == assets
    ensures sent == Split(assets, chunkSize)
  {
    snapshotted, sent := [], [];
    var i := 0;
    assert assets[..0] == [];
    while i < |assets|
      invariant FullChunks(i, chunkSize)
      invariant snapshotted == assets[..Min(i, |assets|)]
      invariant sent == Split(assets[..Min(i, |assets|)], chunkSize)
    {
      var end := i + chunkSize;
      if end > |assets| {
        end := |assets|;
      }
      snapshotted := snapshotted + assets[i..end];
      sent := sent + [assets[i..end]];
      SplitAppend(assets, chunkSize, i);
      assert assets[..end] == assets[..i] + assets[i..end];
      i := i + chunkSize;
    }
    assert assets[..|assets|] == assets;
  }

  lemma FitsIff(assets: seq<string>, chunkSize: nat, room: nat)
    requires chunkSize > 0
    ensures |Split(assets, chunkSize)| <= room <==> |assets| <= room * chunkSize
  {
    SplitSizes(assets, chunkSize);
    CeilingAtMost(|assets|, chunkSize, |Split(assets, chunkSize)|, room);
  }

  lemma CeilingAtMost(n: nat, chunkSize: nat, count: nat, room: nat)
    requires chunkSize > 0 && Ceiling(n, chunkSize, count)
    ensures count <= room <==> n <= room * chunkSize
  {
    if count <= room {
      assert count * chunkSize <= room * chunkSize;
    } else {
      assert (count - 1) * chunkSize >= room * chunkSize;
    }
  }
}
