/**
 Block validation against the header: the transaction Merkle root, whose odd layers repeat their last
 node, and why the duplicate-id check makes the root commit to the list.
 */
module Merkle {
  import opened Types

  type Hash = nat

  /** The pair hash is uninterpreted; only its injectivity is used. */
  type PairHash = (Hash, Hash) -> Hash

  ghost predicate Injective(h: PairHash) {
    forall a, b, c, d :: h(a, b) == h(c, d) ==> a == c && b == d
  }

  /** The next layer: node k hashes entries 2k and 2k+1, an unpaired last entry with itself. */
  function Next(h: PairHash, layer: seq<Hash>): (next: seq<Hash>)
    ensures |next| == (|layer| + 1) / 2
  {
    seq((|layer| + 1) / 2, k requires 0 <= k < (|layer| + 1) / 2 =>
      h(layer[2 * k], if 2 * k + 1 < |layer| then layer[2 * k + 1] else layer[2 * k]))
  }

  function Root(h: PairHash, layer: seq<Hash>): Hash
    requires layer != []
    decreases |layer|
  {
    if |layer| == 1 then layer[0] else Root(h, Next(h, layer))
  }

  function Depth(n: nat): nat
    requires n > 0
  {
    if n == 1 then 0 else 1 + Depth((n + 1) / 2)
  }

  /** One layer collapsed, pair by pair. */
  method NextLayer(h: PairHash, layer: seq<Hash>) returns (next: seq<Hash>)
    ensures next == Next(h, layer)
  {
    next := [];
    var i := 0;
    while i < |layer|
      invariant 0 <= i <= |layer| + 1 && i % 2 == 0
      invariant next == Next(h, layer)[..i / 2]
    {
      var left := layer[i];
      var right := if i + 1 < |layer| then layer[i + 1] else left;
      assert Next(h, layer)[i / 2] == h(left, right);
      next := next + [h(left, right)];
      i := i + 2;
    }
  }

  /** Collapses the list of ids layer by layer until one node, the root, is left. */
  method TransactionMerkleRoot(h: PairHash, txids: seq<Hash>) returns (root: Option<Hash>)
    ensures root == if txids == [] then None else Some(Root(h, txids))
  {
    var layer := txids;
    if |layer| == 0 {
      return None;
    }
    while |layer| > 1
      invariant layer != []
      invariant Root(h, layer) == Root(h, txids)
      decreases |layer|
    {
      layer := NextLayer(h, layer);
    }
    root := Some(layer[0]);
  }

  lemma NextNoDup(h: PairHash, layer: seq<Hash>)
    requires Injective(h)
    requires NoDup(layer)
    ensures NoDup(Next(h, layer))
  {
    var next := Next(h, layer);
    forall i, j | 0 <= i < j < |next|
      ensures next[i] != next[j]
    {
      assert layer[2 * i] != layer[2 * j];
    }
  }

  /** Equal next layers of duplicate-free layers come from equal layers, of either parity. */
  lemma NextInjective(h: PairHash, left: seq<Hash>, right: seq<Hash>)
    requires Injective(h)
    requires NoDup(left) && NoDup(right)
    requires Next(h, left) == Next(h, right)
    ensures left == right
  {
    var m := |Next(h, left)|;
    forall k | 0 <= k < m
      ensures left[2 * k] == right[2 * k]
      ensures 2 * k + 1 < |left| <==> 2 * k + 1 < |right|
      ensures 2 * k + 1 < |left| ==> left[2 * k + 1] == right[2 * k + 1]
    {
      assert Next(h, left)[k] == Next(h, right)[k];
      if 2 * k + 1 < |left| {
        assert left[2 * k] != left[2 * k + 1];
      }
      if 2 * k + 1 < |right| {
        assert right[2 * k] != right[2 * k + 1];
      }
    }
    assert |left| == |right| by {
      if m > 0 {
        assert 2 * (m - 1) + 1 < |left| <==> 2 * (m - 1) + 1 < |right|;
      }
    }
    forall i | 0 <= i < |left|
      ensures left[i] == right[i]
    {
      assert i == 2 * (i / 2) || i == 2 * (i / 2) + 1;
    }
  }

  /** With unique ids and trees of equal depth, equal roots mean equal transaction lists. */
  lemma {:induction false} RootDeterminesList(h: PairHash, left: seq<Hash>, right: seq<Hash>)
    requires Injective(h)
    requires left != [] && right != []
    requires NoDup(left) && NoDup(right)
    requires Depth(|left|) == Depth(|right|)
    ensures Root(h, left) == Root(h, right) <==> left == right
    decreases |left|
  {
    if Root(h, left) == Root(h, right) {
      if |left| == 1 {
        assert left == right;
      } else {
        NextNoDup(h, left);
        NextNoDup(h, right);
        RootDeterminesList(h, Next(h, left), Next(h, right));
        NextInjective(h, left, right);
      }
    }
  }

  lemma RootStep(h: PairHash, layer: seq<Hash>)
    requires |layer| > 1
    ensures Root(h, layer) == Root(h, Next(h, layer))
    ensures Depth(|layer|) == 1 + Depth((|layer| + 1) / 2)
  {
  }

  /** Without the duplicate check two lists share a root, whatever the hash. */
  lemma RepeatedTailSharesRoot(h: PairHash, front: seq<Hash>, last: Hash)
    requires |front| % 2 == 0 && front != []
    ensures Root(h, front + [last]) == Root(h, front + [last, last])
    ensures Depth(|front + [last]|) == Depth(|front + [last, last]|)
    ensures front + [last] != front + [last, last]
  {
    hide Root, Depth;
    var odd := front + [last];
    var even := front + [last, last];
    RootStep(h, odd);
    RootStep(h, even);
    assert |odd| != |even|;
    forall k | 0 <= k < |Next(h, odd)|
      ensures Next(h, odd)[k] == Next(h, even)[k]
    {
      if 2 * k < |front| {
        assert odd[2 * k] == front[2 * k] == even[2 * k];
        assert odd[2 * k + 1] == front[2 * k + 1] == even[2 * k + 1];
      }
    }
    assert Next(h, odd) == Next(h, even);
  }

  /** The list of nodes `k` levels above the leaves. */
  function Layer(h: PairHash, leaves: seq<Hash>, k: nat): seq<Hash>
    decreases k
  {
    if k == 0 then leaves else Layer(h, Next(h, leaves), k - 1)
  }

  /**
   Which lists share a root, whatever their depths: the shallower one is the layer of the deeper one at
   the height by which the trees differ. At height zero the lists are equal.
   */
  lemma {:induction false} RootsMeetAtLayer(h: PairHash, left: seq<Hash>, right: seq<Hash>, k: nat)
    requires Injective(h)
    requires left != [] && right != []
    requires NoDup(left) && NoDup(right)
    requires Depth(|left|) + k == Depth(|right|)
    ensures Root(h, left) == Root(h, right) <==> left == Layer(h, right, k)
    decreases k
  {
    hide Injective, NoDup, Next;
    if k == 0 {
      RootDeterminesList(h, left, right);
    } else {
      NextNoDup(h, right);
      RootsMeetAtLayer(h, left, Next(h, right), k - 1);
    }
  }

  predicate IsPairHash(h: PairHash, node: Hash, a: Hash, b: Hash) {
    node == h(a, b)
  }

  /** No transaction id is itself a pair hash. */
  ghost predicate LeavesAreNotPairs(h: PairHash, leaves: seq<Hash>) {
    forall leaf, a, b :: leaf in leaves ==> !IsPairHash(h, leaf, a, b)
  }

  lemma {:induction false} DeeperTreeDiffers(h: PairHash, left: seq<Hash>, right: seq<Hash>)
    requires Injective(h)
    requires left != [] && right != []
    requires NoDup(left) && NoDup(right)
    requires LeavesAreNotPairs(h, left)
    requires Depth(|left|) < Depth(|right|)
    ensures Root(h, left) != Root(h, right)
    decreases |right|
  {
    var next := Next(h, right);
    NextNoDup(h, right);
    if Depth(|next|) == Depth(|left|) {
      RootDeterminesList(h, left, next);
      assert IsPairHash(h, next[0], right[0], right[1]);
      assert next[0] in next;
    } else {
      DeeperTreeDiffers(h, left, next);
    }
  }

  /** When ids cannot be pair hashes the depth need not be known: unique ids and the root fix the list. */
  lemma RootDeterminesListAtAnyDepth(h: PairHash, left: seq<Hash>, right: seq<Hash>)
    requires Injective(h)
    requires left != [] && right != []
    requires NoDup(left) && NoDup(right)
    requires LeavesAreNotPairs(h, left) && LeavesAreNotPairs(h, right)
    ensures Root(h, left) == Root(h, right) <==> left == right
  {
    if Depth(|left|) < Depth(|right|) {
      DeeperTreeDiffers(h, left, right);
    } else if Depth(|right|) < Depth(|left|) {
      DeeperTreeDiffers(h, right, left);
    } else {
      RootDeterminesList(h, left, right);
    }
  }

  // ----- Complete-block validation -----

  datatype Header = Header(height: nat, previous: BlockHash, merkleRoot: Hash)

  datatype Block = Block(header: Header, txs: seq<Transaction>)

  function Txids(txs: seq<Transaction>): (ids: seq<Hash>)
    ensures |ids| == |txs|
    ensures forall i :: 0 <= i < |txs| ==> ids[i] == txs[i].txid
  {
    seq(|txs|, i requires 0 <= i < |txs| => txs[i].txid)
  }

  datatype BlockFault =
    | WrongHash
    | WrongHeight
    | WrongPredecessor
    | NoTransactions
    | DuplicateTxid
    | WrongMerkleRoot

  /** The hash functions of the chain. */
  datatype Hashing = Hashing(ofHeader: Header -> BlockHash, ofPair: PairHash)

  predicate CompleteBlock(
      hashing: Hashing, block: Block, height: nat, hash: BlockHash, previous: Option<BlockHash>)
  {
    && hashing.ofHeader(block.header) == hash
    && block.header.height == height
    && (previous.Some? ==> block.header.previous == previous.value)
    && block.txs != []
    && NoDup(Txids(block.txs))
    && Root(hashing.ofPair, Txids(block.txs)) == block.header.merkleRoot
  }

  method HasDuplicates(ids: seq<Hash>) returns (duplicates: bool)
    ensures duplicates <==> !NoDup(ids)
  {
    var seen: set<Hash> := {};
    for i := 0 to |ids|
      invariant seen == ToSet(ids[..i])
      invariant NoDup(ids[..i])
    {
      assert ids[..i + 1] == ids[..i] + [ids[i]];
      NoDupAppend(ids[..i], ids[i]);
      if ids[i] in seen {
        var j :| 0 <= j < i && ids[..i][j] == ids[i];
        assert ids[j] == ids[i];
        return true;
      }
      seen := seen + {ids[i]};
    }
    assert ids[..|ids|] == ids;
    duplicates := false;
  }

  method ValidateCompleteBlock(
      hashing: Hashing, block: Block, height: nat, hash: BlockHash, previous: Option<BlockHash>)
    returns (fault: Option<BlockFault>)
    ensures fault.None? <==> CompleteBlock(hashing, block, height, hash, previous)
    ensures fault == Some(DuplicateTxid) ==> !NoDup(Txids(block.txs))
    ensures fault == Some(WrongMerkleRoot) ==> NoDup(Txids(block.txs))
  {
    if hashing.ofHeader(block.header) != hash {
      return Some(WrongHash);
    }
    if block.header.height != height {
      return Some(WrongHeight);
    }
    if previous.Some? && block.header.previous != previous.value {
      return Some(WrongPredecessor);
    }
    if block.txs == [] {
      return Some(NoTransactions);
    }
    var duplicates := HasDuplicates(Txids(block.txs));
    if duplicates {
      return Some(DuplicateTxid);
    }
    var root := TransactionMerkleRoot(hashing.ofPair, Txids(block.txs));
    if root != Some(block.header.merkleRoot) {
      return Some(WrongMerkleRoot);
    }
    fault := None;
  }

  /** One list is the layer of the other at the height by which their trees differ. */
  predicate LayerOf(h: PairHash, upper: seq<Hash>, lower: seq<Hash>) {
    && upper != [] && lower != []
    && Depth(|upper|) <= Depth(|lower|)
    && upper == Layer(h, lower, Depth(|lower|) - Depth(|upper|))
  }

  /**
   Two blocks that pass for one hash have one header, and one id list is a layer of the other: validation
   leaves the transactions open exactly as far as it leaves the depth of the tree open.
   */
  lemma ValidBlocksShareTransactions(
      hashing: Hashing, left: Block, right: Block, height: nat, hash: BlockHash, previous: Option<BlockHash>)
    requires Injective(hashing.ofPair)
    requires forall a, b :: hashing.ofHeader(a) == hashing.ofHeader(b) ==> a == b
    requires CompleteBlock(hashing, left, height, hash, previous)
    requires CompleteBlock(hashing, right, height, hash, previous)
    ensures left.header == right.header
    ensures
      || LayerOf(hashing.ofPair, Txids(left.txs), Txids(right.txs))
      || LayerOf(hashing.ofPair, Txids(right.txs), Txids(left.txs))
    ensures Txids(left.txs) == Txids(right.txs) <==> Depth(|left.txs|) == Depth(|right.txs|)
  {
    hide Injective, NoDup, Next, Root, Txids;
    var (l, r) := (Txids(left.txs), Txids(right.txs));
    if Depth(|l|) <= Depth(|r|) {
      RootsMeetAtLayer(hashing.ofPair, l, r, Depth(|r|) - Depth(|l|));
    } else {
      RootsMeetAtLayer(hashing.ofPair, r, l, Depth(|l|) - Depth(|r|));
    }
    assert l == r ==> |l| == |r|;
  }
}
