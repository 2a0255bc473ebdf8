/**
 The store as the synchronizer sees it: a tip, one row per indexed block above the activation
 checkpoint, undo rows for the newest blocks, the sync status and the materialized rows.
 */
module ChainStore {
  import opened Types
  import opened Ledger

  const UNDO_RETENTION_BLOCKS: nat := 2

  datatype SyncStatus = Starting | Syncing | Ready | BackendUnavailable | RescanRequired

  datatype BlockDelta = BlockDelta(
    anchor: Anchor,
    previous: BlockHash,
    txids: seq<Txid>,
    deltas: seq<TxDelta>)

  datatype UndoRow = UndoRow(previousTip: Anchor, block: BlockUndo)

  datatype ChainStoreError =
    | InvalidBlock
    | RebuildRequired
    | ForkConflict
    | NonContiguousBlock
    | Rejected(cause: StoreError)
    | InvalidRollbackTarget
    | MissingUndo
    | AncestorMismatch

  datatype RollbackResult = Noop | RolledBack | RebuildNeeded

  predicate CreatedOk(record: Record, delta: TxDelta) {
    && record.core.position == delta.position
    && record.core.id.txid == delta.tx.txid
    && record.core.id.vout < |delta.tx.outputs|
    && record.core.id in Outpoints(record.core.outpoints)
    && DistinctTracked(record.core.outpoints)
  }

  function ContractIds(delta: TxDelta): (ids: seq<OutPoint>)
    ensures |ids| == |delta.created| + |delta.updates|
  {
    seq(|delta.created|, i requires 0 <= i < |delta.created| => delta.created[i].core.id)
    + seq(|delta.updates|, i requires 0 <= i < |delta.updates| => delta.updates[i].id)
  }

  predicate TxShapeOk(block: BlockDelta, delta: TxDelta) {
    && delta.position.height == block.anchor.height
    && delta.position.index < |block.txids|
    && block.txids[delta.position.index] == delta.tx.txid
    && (forall r :: r in delta.created ==> CreatedOk(r, delta))
    && NoDup(ContractIds(delta))
  }

  predicate ShapeOk(block: BlockDelta) {
    && block.txids != []
    && NoDup(block.txids)
    && (forall i, j :: 0 <= i < j < |block.deltas| ==> block.deltas[i].position.index < block.deltas[j].position.index)
    && (forall d :: d in block.deltas ==> TxShapeOk(block, d))
  }

  /** Checkpoints above the activation anchor are contiguous, and each block links to the one below. */
  ghost predicate Linked(activation: Anchor, tip: Anchor, blocks: map<nat, BlockDelta>) {
    && activation.height <= tip.height
    && (forall h :: h in blocks <==> activation.height < h <= tip.height)
    && (forall h :: h in blocks ==> blocks[h].anchor.height == h)
    && (forall h :: h in blocks ==>
          blocks[h].previous == (if h - 1 in blocks then blocks[h - 1].anchor.hash else activation.hash))
    && tip == (if tip.height in blocks then blocks[tip.height].anchor else activation)
  }

  /**
   What is known of an indexed height: the rows its block left, and the outpoints of the blocks above it
   that were undone since. Rollback deletes the outputs a block produced, so an undone outpoint is gone.
   */
  datatype Past = Past(rows: Rows, undone: set<OutPoint>)

  /** The rows of a height as they stand: those its block left but for the undone outpoints. */
  ghost function Standing(past: Past): Rows {
    past.rows.(outputs := past.rows.outputs - past.undone)
  }

  /** A height stands as its block left it exactly when no undone block re-produced a stored outpoint. */
  lemma StandsExactly(past: Past)
    ensures Standing(past) == past.rows <==> past.rows.outputs.Keys !! past.undone
  {
    var standing := Standing(past).outputs;
    assert standing.Keys == past.rows.outputs.Keys - past.undone;
    if past.rows.outputs.Keys !! past.undone {
      assert standing == past.rows.outputs;
    }
  }

  /** One retained undo row turns the rows of its height back into those the block was applied to. */
  ghost predicate UndoOk(row: UndoRow, height: nat, block: BlockDelta, history: map<nat, Past>) {
    && height > 0
    && row.previousTip == Anchor(height - 1, block.previous)
    && height in history && height - 1 in history
    && Coherent(history[height - 1].rows)
    && Reverts(history[height].rows, row.block.changes, history[height - 1].rows)
    && history[height].rows.outputs - row.block.outputs
       == Standing(history[height - 1]).outputs - row.block.outputs
  }

  ghost predicate Undoable(
      tip: Anchor, blocks: map<nat, BlockDelta>, undo: map<nat, UndoRow>, rows: Rows, history: map<nat, Past>)
  {
    && Coherent(rows)
    && tip.height in history && rows == Standing(history[tip.height])
    && (forall h :: h in history ==> h <= tip.height)
    && forall h :: h in undo ==>
         h in blocks && tip.height < h + UNDO_RETENTION_BLOCKS && UndoOk(undo[h], h, blocks[h], history)
  }

  lemma ApplyKeepsLinked(activation: Anchor, tip: Anchor, blocks: map<nat, BlockDelta>, block: BlockDelta)
    requires Linked(activation, tip, blocks)
    requires block.anchor.height == tip.height + 1
    requires block.previous == tip.hash
    ensures Linked(activation, block.anchor, blocks[block.anchor.height := block])
  {
  }

  function Retained(undo: map<nat, UndoRow>, height: nat): map<nat, UndoRow> {
    map h | h in undo && height < h + UNDO_RETENTION_BLOCKS :: undo[h]
  }

  lemma AppliedUndoOk(tip: Anchor, rows: Rows, history: map<nat, Past>, block: BlockDelta, after: Rows)
    requires Coherent(rows)
    requires tip.height in history && rows == Standing(history[tip.height])
    requires block.anchor.height == tip.height + 1 && block.previous == tip.hash
    requires CommitAll(rows, block.deltas) == Ok(after)
    ensures
      var height := block.anchor.height;
      UndoOk(UndoRow(tip, UndoFor(rows, block.deltas)), height, block, history[height := Past(after, {})])
  {
    hide CommitAll, UndoFor, RevertChanges;
    RevertsUndo(rows, block.deltas);
    OutputsOutsideBlock(rows, block.deltas);
    var past := history[tip.height];
    assert Bare(rows) == Bare(past.rows);
    assert Coherent(past.rows) by {
      assert rows.contracts == past.rows.contracts && rows.owners == past.rows.owners;
    }
  }

  lemma ApplyKeepsUndoable(
      tip: Anchor, blocks: map<nat, BlockDelta>, undo: map<nat, UndoRow>, rows: Rows, history: map<nat, Past>,
      block: BlockDelta)
    requires Undoable(tip, blocks, undo, rows, history)
    requires block.anchor.height == tip.height + 1 && block.previous == tip.hash
    requires forall h :: h in blocks ==> h <= tip.height
    requires CommitAll(rows, block.deltas).Ok?
    ensures
      var height := block.anchor.height;
      var after := CommitAll(rows, block.deltas).value;
      var row := UndoRow(tip, UndoFor(rows, block.deltas));
      Undoable(
        block.anchor, blocks[height := block], Retained(undo[height := row], height), after,
        history[height := Past(after, {})])
  {
    hide CommitAll, UndoFor, Coherent, Reverts;
    var height := block.anchor.height;
    var after := CommitAll(rows, block.deltas).value;
    CommitKeepsCoherent(rows, block.deltas);
    AppliedUndoOk(tip, rows, history, block, after);
    var later := history[height := Past(after, {})];
    assert after.outputs - {} == after.outputs;
    forall h | h in undo
      ensures UndoOk(undo[h], h, blocks[h], later)
    {
      assert UndoOk(undo[h], h, blocks[h], history);
    }
  }

  function UpTo<V>(m: map<nat, V>, height: nat): map<nat, V> {
    map h | h in m && h <= height :: m[h]
  }

  /** Taking the top block off leaves the chain below it, linked as before. */
  lemma StepDownLinked(activation: Anchor, tip: Anchor, blocks: map<nat, BlockDelta>)
    requires Linked(activation, tip, blocks)
    requires tip.height in blocks
    ensures Linked(activation, Anchor(tip.height - 1, blocks[tip.height].previous), blocks - {tip.height})
  {
  }

  lemma MinusOnceMore<K, V>(above: map<K, V>, below: map<K, V>, lost: set<K>, gone: set<K>, produced: set<K>)
    requires above - produced == (below - gone) - produced
    ensures (above - lost) - produced == below - (gone + lost + produced)
  {
    var left := (above - lost) - produced;
    var right := below - (gone + lost + produced);
    forall k
      ensures k in left <==> k in right
      ensures k in left ==> left[k] == right[k]
    {
      assert k in above - produced <==> k in (below - gone) - produced;
      if k in above - produced {
        assert (above - produced)[k] == ((below - gone) - produced)[k];
      }
    }
  }

  /** The history once the block of a height is undone: its outpoints are undone at the height below. */
  ghost function Fallen(history: map<nat, Past>, height: nat, produced: set<OutPoint>): map<nat, Past>
    requires height > 0 && height in history && height - 1 in history
  {
    var below := history[height - 1];
    (history - {height})[height - 1 := Past(below.rows, below.undone + history[height].undone + produced)]
  }

  lemma StepDownRows(row: UndoRow, block: BlockDelta, rows: Rows, history: map<nat, Past>, height: nat)
    requires UndoOk(row, height, block, history)
    requires rows == Standing(history[height])
    ensures Rollback(rows, row.block) == Ok(Standing(Fallen(history, height, row.block.outputs)[height - 1]))
    ensures Coherent(Standing(Fallen(history, height, row.block.outputs)[height - 1]))
  {
    hide RevertChanges;
    var (above, under) := (history[height], history[height - 1]);
    assert Bare(rows) == Bare(above.rows);
    RevertIgnoresOutputs(rows, row.block.changes);
    MinusOnceMore(above.rows.outputs, under.rows.outputs, above.undone, under.undone, row.block.outputs);
    assert Coherent(under.rows);
  }

  lemma StepDownUndoable(
      tip: Anchor, blocks: map<nat, BlockDelta>, undo: map<nat, UndoRow>, rows: Rows, history: map<nat, Past>)
    requires Undoable(tip, blocks, undo, rows, history)
    requires tip.height in undo
    requires forall h :: h in blocks ==> h <= tip.height
    ensures Rollback(rows, undo[tip.height].block).Ok?
    ensures undo[tip.height].previousTip == Anchor(tip.height - 1, blocks[tip.height].previous)
    ensures tip.height > 0 && tip.height in history && tip.height - 1 in history
    ensures Undoable(
      undo[tip.height].previousTip, blocks - {tip.height}, undo - {tip.height},
      Rollback(rows, undo[tip.height].block).value, Fallen(history, tip.height, undo[tip.height].block.outputs))
  {
    hide Rollback, Coherent, Reverts;
    var height := tip.height;
    assert UndoOk(undo[height], height, blocks[height], history);
    StepDownRows(undo[height], blocks[height], rows, history, height);
    var fallen := Fallen(history, height, undo[height].block.outputs);
    forall h | h in undo - {height}
      ensures UndoOk(undo[h], h, blocks[h], fallen)
    {
      assert UndoOk(undo[h], h, blocks[h], history);
    }
  }

  /** The part of the store a rollback stages before it commits. */
  datatype Staged = Staged(tip: Anchor, blocks: map<nat, BlockDelta>, undo: map<nat, UndoRow>, rows: Rows)

  function Unwind(staged: Staged, height: nat, ancestor: nat): Result<Staged, ChainStoreError>
    decreases height
  {
    if height <= ancestor then
      Ok(staged)
    else if height !in staged.undo then
      Err(MissingUndo)
    else
      var row := staged.undo[height];
      match Rollback(staged.rows, row.block)
      case Err(error) => Err(Rejected(error))
      case Ok(reverted) =>
        Unwind(
          Staged(row.previousTip, staged.blocks - {height}, staged.undo - {height}, reverted),
          height - 1, ancestor)
  }

  /** Canonical anchor of an indexed height; the activation checkpoint has no block row of its own. */
  function CanonicalAnchor(tip: Anchor, blocks: map<nat, BlockDelta>, height: nat): Option<Anchor> {
    if height > tip.height then
      None
    else if height == tip.height then
      Some(tip)
    else if height in blocks then
      Some(blocks[height].anchor)
    else if height + 1 in blocks then
      Some(Anchor(height, blocks[height + 1].previous))
    else
      None
  }

  lemma StepDownAnchor(activation: Anchor, tip: Anchor, blocks: map<nat, BlockDelta>, height: nat)
    requires Linked(activation, tip, blocks)
    requires tip.height in blocks && height < tip.height
    ensures CanonicalAnchor(Anchor(tip.height - 1, blocks[tip.height].previous), blocks - {tip.height}, height)
         == CanonicalAnchor(tip, blocks, height)
  {
  }

  ghost predicate ValidStaged(activation: Anchor, staged: Staged, history: map<nat, Past>) {
    && Linked(activation, staged.tip, staged.blocks)
    && Undoable(staged.tip, staged.blocks, staged.undo, staged.rows, history)
  }

  lemma StepDown(activation: Anchor, staged: Staged, history: map<nat, Past>)
    requires ValidStaged(activation, staged, history)
    requires staged.tip.height in staged.undo
    ensures
      var height := staged.tip.height;
      && height in staged.blocks
      && staged.undo[height].previousTip == Anchor(height - 1, staged.blocks[height].previous)
      && Rollback(staged.rows, staged.undo[height].block).Ok?
      && height > 0 && height in history && height - 1 in history
      && ValidStaged(activation, Lowered(staged), Fallen(history, height, staged.undo[height].block.outputs))
  {
    StepDownLinked(activation, staged.tip, staged.blocks);
    StepDownUndoable(staged.tip, staged.blocks, staged.undo, staged.rows, history);
  }

  function Lowered(staged: Staged): Staged
    requires staged.tip.height in staged.undo
    requires Rollback(staged.rows, staged.undo[staged.tip.height].block).Ok?
  {
    var height := staged.tip.height;
    Staged(staged.undo[height].previousTip, staged.blocks - {height}, staged.undo - {height},
           Rollback(staged.rows, staged.undo[height].block).value)
  }

  lemma UpToLess<V>(m: map<nat, V>, height: nat, ancestor: nat)
    requires ancestor < height
    ensures UpTo(m - {height}, ancestor) == UpTo(m, ancestor)
  {
  }

  lemma UpToAll<V>(m: map<nat, V>, height: nat)
    requires forall h :: h in m ==> h <= height
    ensures UpTo(m, height) == m
  {
  }

  lemma {:induction false} UnwindKeepsRows(staged: Staged, ancestor: nat)
    requires ancestor <= staged.tip.height
    requires Unwind(staged, staged.tip.height, ancestor).Ok?
    requires forall h :: h in staged.undo ==> h <= staged.tip.height && staged.undo[h].previousTip.height == h - 1
    requires forall h :: h in staged.blocks ==> h <= staged.tip.height
    ensures
      var below := Unwind(staged, staged.tip.height, ancestor).value;
      below.blocks == UpTo(staged.blocks, ancestor) && below.undo == UpTo(staged.undo, ancestor)
    decreases staged.tip.height
  {
    var height := staged.tip.height;
    if height > ancestor {
      UnwindKeepsRows(Lowered(staged), ancestor);
      UpToLess(staged.blocks, height, ancestor);
      UpToLess(staged.undo, height, ancestor);
    } else {
      UpToAll(staged.blocks, height);
      UpToAll(staged.undo, height);
    }
  }

  /** The outpoints undone above an ancestor: those its undo rows produced and those undone before. */
  ghost function Discarded(
      undo: map<nat, UndoRow>, history: map<nat, Past>, ancestor: nat, height: nat): set<OutPoint>
  {
    if height <= ancestor then
      {}
    else
      Discarded(undo, history, ancestor, height - 1)
      + (if height in undo then undo[height].block.outputs else {})
      + (if height in history then history[height].undone else {})
  }

  /** The history once every block above the ancestor is undone. */
  ghost function Descended(
      undo: map<nat, UndoRow>, history: map<nat, Past>, ancestor: nat, height: nat): map<nat, Past>
  {
    map h | h in history && h <= ancestor ::
      if h < ancestor then history[h]
      else Past(history[h].rows, history[h].undone + Discarded(undo, history, ancestor, height))
  }

  lemma {:induction false} DiscardedFrame(
      undo: map<nat, UndoRow>, history: map<nat, Past>, other: map<nat, Past>, top: nat, ancestor: nat, height: nat)
    requires height < top
    requires forall h :: h <= height ==> (h in history <==> h in other) && (h in history ==> history[h] == other[h])
    ensures Discarded(undo - {top}, other, ancestor, height) == Discarded(undo, history, ancestor, height)
    decreases height
  {
    if height > ancestor {
      DiscardedFrame(undo, history, other, top, ancestor, height - 1);
    }
  }

  lemma DescendedStep(undo: map<nat, UndoRow>, history: map<nat, Past>, ancestor: nat, height: nat)
    requires ancestor < height
    requires height in undo && height in history && height - 1 in history
    ensures
      var fallen := Fallen(history, height, undo[height].block.outputs);
      Descended(undo - {height}, fallen, ancestor, height - 1) == Descended(undo, history, ancestor, height)
  {
    var fallen := Fallen(history, height, undo[height].block.outputs);
    var all := Discarded(undo, history, ancestor, height);
    if ancestor == height - 1 {
      assert Discarded(undo, history, ancestor, height - 1) == {};
      assert all == undo[height].block.outputs + history[height].undone;
    } else {
      DiscardedFrame(undo, history, fallen, height, ancestor, height - 2);
      var lower := Discarded(undo, history, ancestor, height - 2);
      assert Discarded(undo - {height}, fallen, ancestor, height - 1)
          == lower + (if height - 1 in undo then undo[height - 1].block.outputs else {}) + fallen[height - 1].undone;
      assert Discarded(undo, history, ancestor, height - 1)
          == lower + (if height - 1 in undo then undo[height - 1].block.outputs else {}) + history[height - 1].undone;
      assert Discarded(undo - {height}, fallen, ancestor, height - 1) == all;
    }
    assert ancestor in history ==>
      fallen[ancestor].undone + Discarded(undo - {height}, fallen, ancestor, height - 1) == history[ancestor].undone + all;
    var left := Descended(undo - {height}, fallen, ancestor, height - 1);
    var right := Descended(undo, history, ancestor, height);
    assert forall h :: h in left <==> h in right;
    assert forall h :: h in left ==> left[h] == right[h];
  }

  lemma DescendedAtTip(undo: map<nat, UndoRow>, history: map<nat, Past>, height: nat)
    requires forall h :: h in history ==> h <= height
    ensures Descended(undo, history, height, height) == history
  {
    assert Discarded(undo, history, height, height) == {};
    var same := Descended(undo, history, height, height);
    assert forall h :: h in same <==> h in history;
    assert height in history ==> history[height].undone + {} == history[height].undone;
    assert forall h :: h in same ==> same[h] == history[h];
  }

  lemma {:induction false} UnwindValid(activation: Anchor, staged: Staged, history: map<nat, Past>, ancestor: nat)
    requires ValidStaged(activation, staged, history)
    requires ancestor <= staged.tip.height
    requires forall h :: ancestor < h <= staged.tip.height ==> h in staged.undo
    ensures Unwind(staged, staged.tip.height, ancestor).Ok?
    ensures
      var below := Unwind(staged, staged.tip.height, ancestor).value;
      && ValidStaged(activation, below, Descended(staged.undo, history, ancestor, staged.tip.height))
      && below.tip.height == ancestor
      && CanonicalAnchor(staged.tip, staged.blocks, ancestor) == Some(below.tip)
    decreases staged.tip.height
  {
    hide Linked, Undoable, Fallen, Descended, UndoOk, CanonicalAnchor, Rollback;
    var height := staged.tip.height;
    if height > ancestor {
      StepDown(activation, staged, history);
      StepDownAnchor(activation, staged.tip, staged.blocks, ancestor);
      DescendedStep(staged.undo, history, ancestor, height);
      UnwindValid(activation, Lowered(staged), Fallen(history, height, staged.undo[height].block.outputs), ancestor);
    } else {
      UnwoundAtTip(activation, staged, history);
    }
  }

  lemma UnwoundAtTip(activation: Anchor, staged: Staged, history: map<nat, Past>)
    requires ValidStaged(activation, staged, history)
    ensures Descended(staged.undo, history, staged.tip.height, staged.tip.height) == history
    ensures CanonicalAnchor(staged.tip, staged.blocks, staged.tip.height) == Some(staged.tip)
  {
    DescendedAtTip(staged.undo, history, staged.tip.height);
  }

  /** The outpoints produced by the blocks an unwinding undoes. */
  ghost function Produced(undo: map<nat, UndoRow>, ancestor: nat, height: nat): set<OutPoint> {
    if height <= ancestor then
      {}
    else
      Produced(undo, ancestor, height - 1) + (if height in undo then undo[height].block.outputs else {})
  }

  lemma {:induction false} ProducedFrame(undo: map<nat, UndoRow>, top: nat, ancestor: nat, height: nat)
    requires height < top
    ensures Produced(undo - {top}, ancestor, height) == Produced(undo, ancestor, height)
    decreases height
  {
    if height > ancestor {
      ProducedFrame(undo, top, ancestor, height - 1);
    }
  }

  /** Whatever the store, a completed unwinding takes away exactly the outputs of the undone blocks. */
  lemma {:induction false} UnwindOutputs(staged: Staged, height: nat, ancestor: nat)
    requires Unwind(staged, height, ancestor).Ok?
    ensures Unwind(staged, height, ancestor).value.rows.outputs
         == staged.rows.outputs - Produced(staged.undo, ancestor, height)
    decreases height
  {
    if height > ancestor {
      var row := staged.undo[height];
      RevertKeepsOutputs(staged.rows, row.block.changes);
      ProducedFrame(staged.undo, height, ancestor, height - 1);
      var below := Staged(
        row.previousTip, staged.blocks - {height}, staged.undo - {height}, Rollback(staged.rows, row.block).value);
      UnwindOutputs(below, height - 1, ancestor);
    }
  }

  /**
   Unwinding a valid store over retained undo rows succeeds and gives the store of the ancestor height,
   rows and all but the outputs of undone blocks.
   */
  lemma UnwindRestores(activation: Anchor, staged: Staged, history: map<nat, Past>, ancestor: nat)
    requires ValidStaged(activation, staged, history)
    requires ancestor <= staged.tip.height
    requires forall h :: ancestor < h <= staged.tip.height ==> h in staged.undo
    ensures Unwind(staged, staged.tip.height, ancestor).Ok?
    ensures
      var below := Unwind(staged, staged.tip.height, ancestor).value;
      var past := Descended(staged.undo, history, ancestor, staged.tip.height);
      && ValidStaged(activation, below, past)
      && below.tip.height == ancestor
      && ancestor in past && below.rows == Standing(past[ancestor])
      && below.rows.outputs == staged.rows.outputs - Produced(staged.undo, ancestor, staged.tip.height)
      && (below.rows == past[ancestor].rows <==> past[ancestor].rows.outputs.Keys !! past[ancestor].undone)
      && CanonicalAnchor(staged.tip, staged.blocks, ancestor) == Some(below.tip)
      && below.blocks == UpTo(staged.blocks, ancestor)
      && below.undo == UpTo(staged.undo, ancestor)
  {
    hide Descended, Unwind, CanonicalAnchor;
    UnwindValid(activation, staged, history, ancestor);
    UnwindKeepsRows(staged, ancestor);
    UnwindOutputs(staged, staged.tip.height, ancestor);
    StandsExactly(Descended(staged.undo, history, ancestor, staged.tip.height)[ancestor]);
  }

  class Store {
    const activation: Anchor
    var tip: Anchor
    var status: SyncStatus
    var blocks: map<nat, BlockDelta>
    var undo: map<nat, UndoRow>
    var rows: Rows
    /** The rows each indexed height's block left, and what was undone above it since. */
    ghost var history: map<nat, Past>

    function AnchorAt(height: nat): (anchor: Option<Anchor>)
      reads this
    {
      CanonicalAnchor(tip, blocks, height)
    }

    ghost predicate Valid()
      reads this
    {
      ValidStaged(activation, Staged(tip, blocks, undo, rows), history)
    }

    constructor (start: Anchor)
      ensures Valid()
      ensures activation == start && tip == start && status == Starting
      ensures rows == Rows(map[], map[], map[]) && blocks == map[] && undo == map[]
      ensures history == map[start.height := Past(Rows(map[], map[], map[]), {})]
    {
      activation := start;
      tip := start;
      status := Starting;
      blocks := map[];
      undo := map[];
      rows := Rows(map[], map[], map[]);
      history := map[start.height := Past(Rows(map[], map[], map[]), {})];
    }

    method SetStatus(next: SyncStatus) returns (r: Result<(), ChainStoreError>)
      requires Valid()
      modifies this`status
      ensures Valid()
      ensures r.Err? <==> old(status) == RescanRequired && next != RescanRequired
      ensures r.Ok? ==> status == next
      ensures r.Err? ==> status == old(status)
    {
      if next != RescanRequired && status == RescanRequired {
        return Err(RebuildRequired);
      }
      status := next;
      r := Ok(());
    }

    method InvalidateForRebuild()
      requires Valid()
      modifies this`status
      ensures Valid() && status == RescanRequired
    {
      status := RescanRequired;
    }

    /** Whether a block extends the store: `Ok(false)` for one already indexed, an error otherwise. */
    function Admission(block: BlockDelta): (r: Result<bool, ChainStoreError>)
      reads this
    {
      if !ShapeOk(block) then
        Err(InvalidBlock)
      else if status == RescanRequired then
        Err(RebuildRequired)
      else if block.anchor.height in blocks then
        if blocks[block.anchor.height] == block then Ok(false) else Err(ForkConflict)
      else if block.anchor.height != tip.height + 1 || block.previous != tip.hash then
        Err(NonContiguousBlock)
      else
        match CommitAll(rows, block.deltas)
        case Err(error) => Err(Rejected(error))
        case Ok(_) => Ok(true)
    }

    method WriteBlock(block: BlockDelta)
      requires Valid()
      requires block.anchor.height == tip.height + 1 && block.previous == tip.hash
      requires CommitAll(rows, block.deltas).Ok?
      modifies this`tip, this`blocks, this`undo, this`rows, this`history
      ensures Valid()
      ensures tip == block.anchor
      ensures blocks == old(blocks)[block.anchor.height := block]
      ensures rows == CommitAll(old(rows), block.deltas).value
      ensures history == old(history)[block.anchor.height := Past(rows, {})]
      ensures undo == Retained(
        old(undo)[block.anchor.height := UndoRow(old(tip), UndoFor(old(rows), block.deltas))], block.anchor.height)
    {
      ApplyKeepsLinked(activation, tip, blocks, block);
      ApplyKeepsUndoable(tip, blocks, undo, rows, history, block);
      var height := block.anchor.height;
      undo := Retained(undo[height := UndoRow(tip, UndoFor(rows, block.deltas))], height);
      blocks := blocks[height := block];
      rows := CommitAll(rows, block.deltas).value;
      history := history[height := Past(rows, {})];
      tip := block.anchor;
    }

    /** Appends the block exactly when it extends the tip; anything else leaves the store as it was. */
    method ApplyBlock(block: BlockDelta) returns (r: Result<bool, ChainStoreError>)
      requires Valid()
      modifies this`tip, this`blocks, this`undo, this`rows, this`history
      ensures Valid()
      ensures r == old(Admission(block))
      ensures r == Ok(true) <==>
        && ShapeOk(block)
        && status != RescanRequired
        && block.anchor.height == old(tip).height + 1
        && block.previous == old(tip).hash
        && CommitAll(old(rows), block.deltas).Ok?
      ensures r == Ok(true) ==>
        && tip == block.anchor
        && blocks == old(blocks)[block.anchor.height := block]
        && rows == CommitAll(old(rows), block.deltas).value
        && history == old(history)[block.anchor.height := Past(rows, {})]
        && undo == Retained(
             old(undo)[block.anchor.height := UndoRow(old(tip), UndoFor(old(rows), block.deltas))], block.anchor.height)
      ensures r != Ok(true) ==> unchanged(this)
    {
      r := Admission(block);
      if r == Ok(true) {
        WriteBlock(block);
      }
    }

    /** The undo rows of every height above the ancestor are still retained. */
    predicate UndoAvailable(ancestor: nat)
      reads this
    {
      forall h :: ancestor < h <= tip.height ==> h in undo
    }

    /** Reverts block after block, newest first, on a staged copy of the rows. */
    method StageRollback(ancestor: nat) returns (r: Result<Staged, ChainStoreError>)
      ensures r == Unwind(Staged(tip, blocks, undo, rows), tip.height, ancestor)
    {
      var staged := Staged(tip, blocks, undo, rows);
      var height := tip.height;
      while height > ancestor
        invariant height >= 0
        invariant Unwind(Staged(tip, blocks, undo, rows), tip.height, ancestor) == Unwind(staged, height, ancestor)
      {
        if height !in staged.undo {
          return Err(MissingUndo);
        }
        var row := staged.undo[height];
        var reverted := Rollback(staged.rows, row.block);
        if reverted.Err? {
          return Err(Rejected(reverted.error));
        }
        staged := Staged(row.previousTip, staged.blocks - {height}, staged.undo - {height}, reverted.value);
        height := height - 1;
      }
      r := Ok(staged);
    }

    /**
     Rolls back to an ancestor within the undo window and restores the rows of that height. Contract and
     owner rows come back whole; of the output rows those remain that no undone block produced, which is
     all of them exactly when no undone block re-produced a stored outpoint. A deeper or no longer undoable
     target only marks the store for a rebuild.
     */
    method RollbackTo(ancestor: Anchor) returns (r: Result<RollbackResult, ChainStoreError>)
      requires Valid()
      modifies this`tip, this`blocks, this`undo, this`rows, this`history, this`status
      ensures Valid()
      ensures
        var depth := old(tip).height - ancestor.height;
        var reachable := old(status) != RescanRequired && depth > 0;
        var undoable := depth <= UNDO_RETENTION_BLOCKS && old(UndoAvailable(ancestor.height));
        && (r == Ok(RolledBack) <==> reachable && undoable && old(AnchorAt(ancestor.height)) == Some(ancestor))
        && (r == Ok(RebuildNeeded) <==> reachable && !undoable)
      ensures r == Ok(RolledBack) ==>
        && tip == ancestor
        && status == Syncing
        && blocks == UpTo(old(blocks), ancestor.height)
        && undo == UpTo(old(undo), ancestor.height)
        && history == Descended(old(undo), old(history), ancestor.height, old(tip).height)
        && ancestor.height in old(history) && ancestor.height in history
        && rows.outputs == old(rows).outputs - Produced(old(undo), ancestor.height, old(tip).height)
        && history[ancestor.height].rows == old(history)[ancestor.height].rows
        && Bare(rows) == Bare(old(history)[ancestor.height].rows)
        && (rows == old(history)[ancestor.height].rows <==>
              old(history)[ancestor.height].rows.outputs.Keys !! history[ancestor.height].undone)
      ensures r == Ok(RebuildNeeded) ==>
        status == RescanRequired && unchanged(this`tip, this`blocks, this`undo, this`rows, this`history)
      ensures r == Ok(Noop) ==> ancestor == tip
      ensures r.Err? || r == Ok(Noop) ==> unchanged(this)
    {
      hide Linked, Undoable;
      if status == RescanRequired {
        return Err(RebuildRequired);
      }
      if ancestor == tip {
        return Ok(Noop);
      }
      if ancestor.height >= tip.height {
        return Err(InvalidRollbackTarget);
      }
      if tip.height - ancestor.height > UNDO_RETENTION_BLOCKS || !UndoAvailable(ancestor.height) {
        status := RescanRequired;
        return Ok(RebuildNeeded);
      }
      UnwindRestores(activation, Staged(tip, blocks, undo, rows), history, ancestor.height);
      var staged := StageRollback(ancestor.height);
      assert staged.Ok?;
      if staged.value.tip != ancestor {
        return Err(AncestorMismatch);
      }
      history := Descended(undo, history, ancestor.height, tip.height);
      tip, blocks, undo, rows := ancestor, staged.value.blocks, staged.value.undo, staged.value.rows;
      status := Syncing;
      r := Ok(RolledBack);
    }
  }

  /** Contract and owner rows alone; rollback reads nothing else. */
  ghost function Bare(rows: Rows): Rows {
    rows.(outputs := map[])
  }

  /** Replaying the change log from its end leads from the later rows to the earlier ones. */
  ghost predicate Reverts(after: Rows, changes: seq<ContractUndo>, before: Rows) {
    RevertChanges(Bare(after), changes) == Ok(Bare(before))
  }

  lemma RevertsUndo(rows: Rows, deltas: seq<TxDelta>)
    requires Coherent(rows)
    requires CommitAll(rows, deltas).Ok?
    ensures Reverts(CommitAll(rows, deltas).value, UndoFor(rows, deltas).changes, rows)
  {
    RevertUndoesCommits(rows, deltas, map[]);
  }

  lemma {:induction false} RevertIgnoresOutputs(rows: Rows, changes: seq<ContractUndo>)
    requires RevertChanges(Bare(rows), changes).Ok?
    ensures RevertChanges(rows, changes)
         == Ok(RevertChanges(Bare(rows), changes).value.(outputs := rows.outputs))
    decreases |changes|
  {
    if changes != [] {
      var k := |changes| - 1;
      RevertIgnoresOutputs(RevertChange(rows, changes[k]).value, changes[..k]);
    }
  }

  lemma {:induction false} RevertKeepsOutputs(rows: Rows, changes: seq<ContractUndo>)
    requires RevertChanges(rows, changes).Ok?
    ensures RevertChanges(rows, changes).value.outputs == rows.outputs
    decreases |changes|
  {
    if changes != [] {
      var k := |changes| - 1;
      RevertKeepsOutputs(RevertChange(rows, changes[k]).value, changes[..k]);
    }
  }
}
