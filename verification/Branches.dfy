/**
 Stores that follow branches on which transaction ids do not repeat: such a store accepts every block it
 interprets, and rolling back gives every row of the ancestor back.
 */
module Branches {
  import opened Types
  import opened Ledger
  import opened Overlay
  import opened OverlayRefinement
  import opened OverlayBlocks
  import opened Merkle
  import opened ChainStore

  // ----- An interpreted block has the shape the store admits -----

  /** The creation verifier records the position it was given and names a contract by one of its outpoints. */
  ghost predicate Placed(rules: Rules) {
    forall tx, position, declaration {:trigger rules.verify(tx, position, declaration)} ::
      rules.verify(tx, position, declaration).Some? ==>
        PlacedCore(rules.verify(tx, position, declaration).value, position)
  }

  predicate PlacedCore(core: Core, position: Position) {
    core.position == position && core.id in Outpoints(core.outpoints)
  }

  lemma {:induction false} VerifiedPlaced(rules: Rules, tx: Transaction, position: Position, retained: seq<Declaration>)
    requires Sound(rules) && Placed(rules)
    ensures forall core :: core in Verified(rules, tx, position, retained) ==>
      PlacedCore(core, position) && NewOutpointsOk(core.outpoints, tx.txid, |tx.outputs|)
  {
    if retained != [] {
      VerifiedPlaced(rules, tx, position, retained[..|retained| - 1]);
    }
  }

  lemma {:induction false} RetainedAreCandidates(view: View, candidates: seq<Core>, anchor: Anchor)
    requires RetainAll(view, candidates, anchor).Ok?
    ensures forall r :: r in RetainAll(view, candidates, anchor).value ==> r.core in candidates
  {
    if candidates != [] {
      RetainedAreCandidates(view, candidates[..|candidates| - 1], anchor);
    }
  }

  lemma {:induction false} ContractIdsAreLegIds(position: Position, tx: Transaction, created: seq<Record>, updates: seq<Update>)
    ensures ContractIds(TxDelta(position, tx, created, updates)) == LegIds(LegsOf(created, updates))
    decreases |created| + |updates|
  {
    if updates != [] {
      var k := |updates| - 1;
      ContractIdsAreLegIds(position, tx, created, updates[..k]);
      assert ContractIds(TxDelta(position, tx, created, updates))
          == ContractIds(TxDelta(position, tx, created, updates[..k])) + [updates[k].id];
    } else if created != [] {
      var k := |created| - 1;
      ContractIdsAreLegIds(position, tx, created[..k], []);
      assert ContractIds(TxDelta(position, tx, created, []))
          == ContractIds(TxDelta(position, tx, created[..k], [])) + [created[k].core.id];
    }
  }

  /** One relevant transaction of an interpreted block, at its place. */
  predicate DeltaPlaced(anchor: Anchor, txs: seq<Transaction>, delta: TxDelta) {
    && delta.position.height == anchor.height
    && delta.position.index < |txs|
    && delta.tx == txs[delta.position.index]
    && (forall r :: r in delta.created ==> CreatedOk(r, delta))
    && NoDup(ContractIds(delta))
  }

  predicate DeltasPlaced(anchor: Anchor, txs: seq<Transaction>, deltas: seq<TxDelta>) {
    && (forall i, j :: 0 <= i < j < |deltas| ==> deltas[i].position.index < deltas[j].position.index)
    && (forall d :: d in deltas ==> DeltaPlaced(anchor, txs, d))
  }

  lemma InterpretedIsPlaced(view: View, rules: Rules, site: Site, tx: Transaction)
    requires Sound(rules) && Placed(rules)
    requires Interpret(view, rules, site, tx).Ok?
    ensures
      var result := Interpret(view, rules, site, tx).value;
      var delta := TxDelta(site.position, tx, result.created, result.updates);
      && (forall r :: r in result.created ==> CreatedOk(r, delta))
      && NoDup(ContractIds(delta))
  {
    hide Touched, InterpretTouched;
    var result := Interpret(view, rules, site, tx).value;
    var delta := TxDelta(site.position, tx, result.created, result.updates);
    ContractIdsAreLegIds(site.position, tx, result.created, result.updates);
    RetainedAreCandidates(view, Candidates(rules, tx, site), site.anchor);
    if site.mode.Canonical? {
      VerifiedPlaced(rules, tx, site.position, site.mode.retained);
    }
    forall r | r in result.created
      ensures CreatedOk(r, delta)
    {
      assert r.core in Candidates(rules, tx, site);
      OutpointMembers(r.core.outpoints);
    }
  }

  lemma PlacedExtends(anchor: Anchor, txs: seq<Transaction>, deltas: seq<TxDelta>, tx: Transaction)
    requires DeltasPlaced(anchor, txs, deltas)
    ensures DeltasPlaced(anchor, txs + [tx], deltas)
  {
    forall d | d in deltas
      ensures DeltaPlaced(anchor, txs + [tx], d)
    {
      assert DeltaPlaced(anchor, txs, d);
    }
  }

  lemma PlacedAppends(anchor: Anchor, txs: seq<Transaction>, deltas: seq<TxDelta>, tx: Transaction, delta: TxDelta)
    requires DeltasPlaced(anchor, txs, deltas)
    requires delta.position == Position(anchor.height, |txs|) && delta.tx == tx
    requires (forall r :: r in delta.created ==> CreatedOk(r, delta)) && NoDup(ContractIds(delta))
    ensures DeltasPlaced(anchor, txs + [tx], deltas + [delta])
  {
    hide CreatedOk, ContractIds;
    PlacedExtends(anchor, txs, deltas, tx);
    forall i | 0 <= i < |deltas|
      ensures deltas[i].position.index < |txs|
    {
      assert DeltaPlaced(anchor, txs, deltas[i]);
    }
    assert DeltaPlaced(anchor, txs + [tx], delta);
  }

  lemma {:induction false} BlockIsPlaced(
      rules: Rules, rows: Rows, anchor: Anchor, retained: Txid -> seq<Declaration>, txs: seq<Transaction>)
    requires Sound(rules) && Placed(rules)
    requires InterpretBlock(rules, rows, anchor, retained, txs).Ok?
    ensures DeltasPlaced(anchor, txs, InterpretBlock(rules, rows, anchor, retained, txs).value)
  {
    hide Sound, Placed, Interpret, OverlayView, CreatedOk, ContractIds, DeltasPlaced;
    if txs == [] {
      NothingPlaced(anchor);
    } else {
      var k := |txs| - 1;
      var tx := txs[k];
      assert txs == txs[..k] + [tx];
      BlockIsPlaced(rules, rows, anchor, retained, txs[..k]);
      var deltas := InterpretBlock(rules, rows, anchor, retained, txs[..k]).value;
      var site := Site(Canonical(retained(tx.txid)), anchor, Position(anchor.height, k));
      InterpretedIsPlaced(OverlayView(rows, deltas), rules, site, tx);
      var result := Interpret(OverlayView(rows, deltas), rules, site, tx).value;
      if result.created == [] && result.updates == [] {
        PlacedExtends(anchor, txs[..k], deltas, tx);
      } else {
        var delta := TxDelta(site.position, tx, result.created, result.updates);
        PlacedAppends(anchor, txs[..k], deltas, tx, delta);
      }
    }
  }

  lemma NothingPlaced(anchor: Anchor)
    ensures DeltasPlaced(anchor, [], [])
  {
  }

  /** The delta of every interpreted complete block passes the store's check of its shape. */
  lemma InterpretedShapeOk(
      rules: Rules, rows: Rows, retained: Txid -> seq<Declaration>, txs: seq<Transaction>, block: BlockDelta)
    requires Sound(rules) && Placed(rules)
    requires txs != [] && NoDup(Txids(txs))
    requires block.txids == Txids(txs)
    requires InterpretBlock(rules, rows, block.anchor, retained, txs) == Ok(block.deltas)
    ensures ShapeOk(block)
  {
    hide InterpretBlock, Sound, Placed, CreatedOk, ContractIds;
    BlockIsPlaced(rules, rows, block.anchor, retained, txs);
    forall d | d in block.deltas
      ensures TxShapeOk(block, d)
    {
      assert DeltaPlaced(block.anchor, txs, d);
    }
  }

  // ----- Branches whose transaction ids do not repeat -----

  /** The transaction ids on the branch that ends in a block. */
  type Ancestry = BlockHash -> set<Txid>

  /** The ids of a block are new on the branch below it and known from it on; none of its inputs is its own. */
  ghost predicate FreshBlock(hashing: Hashing, ancestry: Ancestry, block: Block) {
    && ancestry(block.header.previous) <= ancestry(hashing.ofHeader(block.header))
    && forall tx :: tx in block.txs ==>
         && tx.txid !in ancestry(block.header.previous)
         && tx.txid in ancestry(hashing.ofHeader(block.header))
         && SpendsOthers(tx)
  }

  /** A height none of whose stored outputs was undone, the stored ones being of its branch. */
  ghost predicate CleanAt(past: Past, branch: set<Txid>) {
    && OutputsStored(past.rows)
    && (forall o :: o in past.rows.outputs ==> o.txid in branch)
    && (forall o :: o in past.undone ==> o.txid !in branch)
  }

  function HashAt(activation: Anchor, blocks: map<nat, BlockDelta>, height: nat): BlockHash {
    if height in blocks then blocks[height].anchor.hash else activation.hash
  }

  ghost predicate Clean(
      activation: Anchor, blocks: map<nat, BlockDelta>, undo: map<nat, UndoRow>, history: map<nat, Past>,
      ancestry: Ancestry)
  {
    && (forall h :: h in history <==> h == activation.height || h in blocks)
    && history[activation.height].rows == Rows(map[], map[], map[])
    && (forall h :: h in history ==> CleanAt(history[h], ancestry(HashAt(activation, blocks, h))))
    && (forall h :: h in blocks ==> ancestry(blocks[h].previous) <= ancestry(blocks[h].anchor.hash))
    && (forall h :: h in undo ==> h in blocks && UndoesFresh(undo[h], ancestry(blocks[h].previous)))
  }

  predicate UndoesFresh(row: UndoRow, branch: set<Txid>) {
    forall o :: o in row.block.outputs ==> o.txid !in branch
  }

  lemma EmptyIsClean(activation: Anchor, ancestry: Ancestry)
    ensures Clean(activation, map[], map[], map[activation.height := Past(Rows(map[], map[], map[]), {})], ancestry)
  {
  }

  /** On a clean store every height stands as its block left it. */
  lemma CleanStands(
      activation: Anchor, blocks: map<nat, BlockDelta>, undo: map<nat, UndoRow>, history: map<nat, Past>,
      ancestry: Ancestry, height: nat)
    requires Clean(activation, blocks, undo, history, ancestry)
    requires height in history
    ensures history[height].rows.outputs.Keys !! history[height].undone
    ensures Standing(history[height]) == history[height].rows
    ensures OutputsStored(history[height].rows)
  {
    assert CleanAt(history[height], ancestry(HashAt(activation, blocks, height)));
    StandsExactly(history[height]);
  }

  /** Branches grow upwards. */
  lemma {:induction false} BranchGrows(
      activation: Anchor, tip: Anchor, blocks: map<nat, BlockDelta>, undo: map<nat, UndoRow>, history: map<nat, Past>,
      ancestry: Ancestry, low: nat, high: nat)
    requires Linked(activation, tip, blocks) && Clean(activation, blocks, undo, history, ancestry)
    requires activation.height <= low <= high <= tip.height
    ensures ancestry(HashAt(activation, blocks, low)) <= ancestry(HashAt(activation, blocks, high))
    decreases high
  {
    hide CleanAt, UndoesFresh;
    if low < high {
      BranchGrows(activation, tip, blocks, undo, history, ancestry, low, high - 1);
      assert high in blocks && blocks[high].previous == HashAt(activation, blocks, high - 1);
    }
  }

  /** Nothing discarded above an ancestor is on the ancestor's branch. */
  lemma {:induction false} DiscardedIsForeign(
      activation: Anchor, tip: Anchor, blocks: map<nat, BlockDelta>, undo: map<nat, UndoRow>, history: map<nat, Past>,
      ancestry: Ancestry, ancestor: nat, height: nat)
    requires Linked(activation, tip, blocks) && Clean(activation, blocks, undo, history, ancestry)
    requires activation.height <= ancestor && height <= tip.height
    ensures forall o :: o in Discarded(undo, history, ancestor, height) ==>
      o.txid !in ancestry(HashAt(activation, blocks, ancestor))
    decreases height
  {
    if height > ancestor {
      DiscardedIsForeign(activation, tip, blocks, undo, history, ancestry, ancestor, height - 1);
      BranchGrows(activation, tip, blocks, undo, history, ancestry, ancestor, height - 1);
      BranchGrows(activation, tip, blocks, undo, history, ancestry, ancestor, height);
      DiscardedAt(activation, tip, blocks, undo, history, ancestry, height);
    }
  }

  lemma DiscardedAt(
      activation: Anchor, tip: Anchor, blocks: map<nat, BlockDelta>, undo: map<nat, UndoRow>, history: map<nat, Past>,
      ancestry: Ancestry, height: nat)
    requires Linked(activation, tip, blocks) && Clean(activation, blocks, undo, history, ancestry)
    requires activation.height < height <= tip.height
    ensures height in undo ==>
      forall o :: o in undo[height].block.outputs ==> o.txid !in ancestry(HashAt(activation, blocks, height - 1))
    ensures height in history
    ensures forall o :: o in history[height].undone ==> o.txid !in ancestry(HashAt(activation, blocks, height))
  {
    assert height in blocks && blocks[height].previous == HashAt(activation, blocks, height - 1);
    assert CleanAt(history[height], ancestry(HashAt(activation, blocks, height)));
  }

  lemma MoreUndone(past: Past, more: set<OutPoint>, branch: set<Txid>)
    requires CleanAt(past, branch)
    requires forall o :: o in more ==> o.txid !in branch
    ensures CleanAt(Past(past.rows, past.undone + more), branch)
  {
  }

  /** Rolling a clean store back leaves a clean store. */
  lemma DescendedIsClean(
      activation: Anchor, tip: Anchor, blocks: map<nat, BlockDelta>, undo: map<nat, UndoRow>, history: map<nat, Past>,
      ancestry: Ancestry, ancestor: nat)
    requires Linked(activation, tip, blocks) && Clean(activation, blocks, undo, history, ancestry)
    requires activation.height <= ancestor <= tip.height
    ensures Clean(
      activation, UpTo(blocks, ancestor), UpTo(undo, ancestor), Descended(undo, history, ancestor, tip.height), ancestry)
  {
    hide Linked, Discarded, UndoesFresh, CleanAt;
    DiscardedIsForeign(activation, tip, blocks, undo, history, ancestry, ancestor, tip.height);
    var past := Descended(undo, history, ancestor, tip.height);
    forall h | h in past
      ensures CleanAt(past[h], ancestry(HashAt(activation, UpTo(blocks, ancestor), h)))
    {
      var branch := ancestry(HashAt(activation, blocks, h));
      assert HashAt(activation, UpTo(blocks, ancestor), h) == HashAt(activation, blocks, h);
      assert CleanAt(history[h], branch);
      if h == ancestor {
        MoreUndone(history[h], Discarded(undo, history, ancestor, tip.height), branch);
      }
    }
  }

  // ----- A clean store admits every fresh block it interprets -----

  /** Fresh transactions are unknown to the rows at the tip. */
  lemma FreshIsGood(hashing: Hashing, ancestry: Ancestry, block: Block, rows: Rows)
    requires FreshBlock(hashing, ancestry, block) && NoDup(Txids(block.txs))
    requires OutputsStored(rows)
    requires forall o :: o in rows.outputs ==> o.txid in ancestry(block.header.previous)
    ensures GoodBlock(rows, block.txs)
  {
    forall i, j | 0 <= i < j < |block.txs|
      ensures block.txs[i].txid != block.txs[j].txid
    {
      assert Txids(block.txs)[i] != Txids(block.txs)[j];
    }
    forall tx | tx in block.txs
      ensures UnknownTxid(rows, tx.txid) && SpendsOthers(tx)
    {
    }
  }

  lemma {:induction false} UndoOutputTxids(rows: Rows, deltas: seq<TxDelta>)
    requires CommitAll(rows, deltas).Ok?
    ensures forall o :: o in UndoFor(rows, deltas).outputs ==> exists d :: d in deltas && d.tx.txid == o.txid
  {
    if deltas != [] {
      var k := |deltas| - 1;
      UndoOutputTxids(rows, deltas[..k]);
      forall o | o in UndoFor(rows, deltas).outputs
        ensures exists d :: d in deltas && d.tx.txid == o.txid
      {
        if o in UndoFor(rows, deltas[..k]).outputs {
          var d :| d in deltas[..k] && d.tx.txid == o.txid;
          assert d in deltas;
        } else {
          assert deltas[k] in deltas;
        }
      }
    }
  }

  /** What a fresh block over clean rows leaves: rows of its own branch, and undo rows off the branch below. */
  lemma FreshCommits(
      hashing: Hashing, rules: Rules, retained: Txid -> seq<Declaration>, ancestry: Ancestry,
      block: Block, delta: BlockDelta, rows: Rows)
    requires Sound(rules) && Coherent(rows) && OutputsStored(rows)
    requires FreshBlock(hashing, ancestry, block) && NoDup(Txids(block.txs))
    requires forall o :: o in rows.outputs ==> o.txid in ancestry(block.header.previous)
    requires InterpretBlock(rules, rows, delta.anchor, retained, block.txs) == Ok(delta.deltas)
    ensures CommitAll(rows, delta.deltas).Ok?
    ensures CleanAt(Past(CommitAll(rows, delta.deltas).value, {}), ancestry(hashing.ofHeader(block.header)))
    ensures forall o :: o in UndoFor(rows, delta.deltas).outputs ==> o.txid !in ancestry(block.header.previous)
  {
    hide Sound, Coherent, InterpretBlock, GoodBlock, UndoFor, CommitAll, OutputsStored;
    FreshIsGood(hashing, ancestry, block, rows);
    BlockKeepsInvariant(rules, rows, delta.anchor, retained, block.txs);
    UndoOutputTxids(rows, delta.deltas);
    forall o | o in UndoFor(rows, delta.deltas).outputs
      ensures o.txid !in ancestry(block.header.previous)
    {
      var d :| d in delta.deltas && d.tx.txid == o.txid;
      assert d.tx in block.txs;
    }
    var after := CommitAll(rows, delta.deltas).value;
    forall o | o in after.outputs
      ensures o.txid in ancestry(hashing.ofHeader(block.header))
    {
      CommittedOutputTxids(rows, delta.deltas, o);
      if o !in rows.outputs {
        var d :| d in delta.deltas && d.tx.txid == o.txid;
        assert d.tx in block.txs;
      }
    }
  }

  /**
   A clean store admits the interpretation of every fresh complete block that names its tip, and applying
   it leaves a clean store.
   */
  lemma CleanAdmits(
      hashing: Hashing, rules: Rules, retained: Txid -> seq<Declaration>, ancestry: Ancestry,
      activation: Anchor, staged: Staged, history: map<nat, Past>, block: Block, delta: BlockDelta)
    requires Sound(rules) && Placed(rules)
    requires ValidStaged(activation, staged, history)
    requires Clean(activation, staged.blocks, staged.undo, history, ancestry)
    requires CompleteBlock(hashing, block, delta.anchor.height, delta.anchor.hash, Some(delta.previous))
    requires FreshBlock(hashing, ancestry, block)
    requires delta.anchor.height == staged.tip.height + 1 && delta.previous == staged.tip.hash
    requires delta.txids == Txids(block.txs)
    requires InterpretBlock(rules, staged.rows, delta.anchor, retained, block.txs) == Ok(delta.deltas)
    ensures ShapeOk(delta)
    ensures CommitAll(staged.rows, delta.deltas).Ok?
    ensures
      var h := delta.anchor.height;
      var row := UndoRow(staged.tip, UndoFor(staged.rows, delta.deltas));
      Clean(
        activation, staged.blocks[h := delta], Retained(staged.undo[h := row], h),
        history[h := Past(CommitAll(staged.rows, delta.deltas).value, {})], ancestry)
  {
    hide Sound, Placed, InterpretBlock, UndoFor, CommitAll, Coherent, ShapeOk, OutputsStored, FreshBlock, Undoable,
         NoDup, Root;
    InterpretedShapeOk(rules, staged.rows, retained, block.txs, delta);
    TipIsClean(activation, staged, history, ancestry);
    FreshCommits(hashing, rules, retained, ancestry, block, delta, staged.rows);
    var past := Past(CommitAll(staged.rows, delta.deltas).value, {});
    FreshGrowsBranch(hashing, ancestry, block, delta);
    AppliedIsClean(
      activation, staged, history, ancestry, delta,
      UndoRow(staged.tip, UndoFor(staged.rows, delta.deltas)), past);
  }

  lemma FreshGrowsBranch(hashing: Hashing, ancestry: Ancestry, block: Block, delta: BlockDelta)
    requires CompleteBlock(hashing, block, delta.anchor.height, delta.anchor.hash, Some(delta.previous))
    requires FreshBlock(hashing, ancestry, block)
    ensures ancestry(delta.previous) <= ancestry(delta.anchor.hash)
  {
  }

  lemma TipIsClean(activation: Anchor, staged: Staged, history: map<nat, Past>, ancestry: Ancestry)
    requires ValidStaged(activation, staged, history)
    requires Clean(activation, staged.blocks, staged.undo, history, ancestry)
    ensures Coherent(staged.rows) && OutputsStored(staged.rows)
    ensures staged.tip.height in history && staged.rows == history[staged.tip.height].rows
    ensures forall o :: o in staged.rows.outputs ==> o.txid in ancestry(staged.tip.hash)
  {
    var height := staged.tip.height;
    CleanStands(activation, staged.blocks, staged.undo, history, ancestry, height);
    assert HashAt(activation, staged.blocks, height) == staged.tip.hash;
    assert CleanAt(history[height], ancestry(staged.tip.hash));
  }

  lemma AppliedIsClean(
      activation: Anchor, staged: Staged, history: map<nat, Past>, ancestry: Ancestry,
      delta: BlockDelta, row: UndoRow, past: Past)
    requires activation.height <= staged.tip.height && forall h :: h in staged.blocks ==> h <= staged.tip.height
    requires Clean(activation, staged.blocks, staged.undo, history, ancestry)
    requires delta.anchor.height == staged.tip.height + 1
    requires ancestry(delta.previous) <= ancestry(delta.anchor.hash)
    requires CleanAt(past, ancestry(delta.anchor.hash))
    requires UndoesFresh(row, ancestry(delta.previous))
    ensures
      var h := delta.anchor.height;
      Clean(
        activation, staged.blocks[h := delta], Retained(staged.undo[h := row], h), history[h := past], ancestry)
  {
    hide CleanAt, UndoesFresh;
    var h := delta.anchor.height;
    var blocks := staged.blocks[h := delta];
    forall k | k in history
      ensures CleanAt(history[k], ancestry(HashAt(activation, blocks, k)))
    {
      assert HashAt(activation, blocks, k) == HashAt(activation, staged.blocks, k);
    }
  }
}
