/**
 Synchronization with a chain source that may switch branch between any two calls: pin a tip,
 reconcile, roll back or restart, apply blocks up to the pin, and report Ready after a last look.
 */
module ChainSync {
  import opened Types
  import opened Ledger
  import opened Overlay
  import opened Merkle
  import opened ChainStore
  import opened Branches
  import opened OverlayBlocks
  import Interpreter

  datatype SourceError = NotFound | Unavailable

  /** Everything the source could answer at one moment. */
  datatype ChainView = ChainView(
    tip: Result<Anchor, SourceError>,
    hashAt: nat -> Result<BlockHash, SourceError>,
    blockOf: BlockHash -> Result<Block, SourceError>)

  /** A source whose answer to each call is unconstrained: call number t sees the view script(t). */
  class Source {
    const script: nat -> ChainView
    var now: nat

    constructor (script: nat -> ChainView)
      ensures this.script == script && now == 0
    {
      this.script := script;
      now := 0;
    }

    method Tip() returns (r: Result<Anchor, SourceError>)
      modifies this`now
      ensures now == old(now) + 1
      ensures r == script(old(now)).tip
    {
      r := script(now).tip;
      now := now + 1;
    }

    method HashAt(height: nat) returns (r: Result<BlockHash, SourceError>)
      modifies this`now
      ensures now == old(now) + 1
      ensures r == script(old(now)).hashAt(height)
    {
      r := script(now).hashAt(height);
      now := now + 1;
    }

    method BlockOf(hash: BlockHash) returns (r: Result<Block, SourceError>)
      modifies this`now
      ensures now == old(now) + 1
      ensures r == script(old(now)).blockOf(hash)
    {
      r := script(now).blockOf(hash);
      now := now + 1;
    }
  }

  datatype SyncError =
    | ChainSource(source: SourceError)
    | StoreFailure(store: ChainStoreError)
    | MissingCheckpoint(height: nat)
    | InvalidBlockAt(height: nat, fault: BlockFault)
    | Interpretation(reason: NodeError)
    | TooManyBranchChanges
    | CounterOverflow

  datatype Report = Report(
    startingTip: Anchor,
    indexedTip: Anchor,
    blocksApplied: nat,
    blocksRolledBack: nat,
    branchRestarts: nat)

  datatype SyncOutcome = ReadyAt(report: Report) | Rescan(indexedTip: Anchor, sourceTip: Anchor)

  /** How one pass of the synchronization loop ends. */
  datatype Pass = Settled(applied: nat) | Lowered(depth: nat) | Disturbed(applied: nat) | NeedsRescan

  datatype Reconciled = Stable | Back(depth: nat) | Restart | RescanNeeded

  /** What the coordinator calls to read one complete block. */
  datatype Reading = Reading(hashing: Hashing, rules: Rules, retained: Txid -> seq<Declaration>)

  /** The pin was on the source's chain at call t: the tip call before it reached the pin's height. */
  ghost predicate SeenCanonical(script: nat -> ChainView, t: nat, pin: Anchor) {
    && script(t).hashAt(pin.height) == Ok(pin.hash)
    && t > 0 && script(t - 1).tip.Ok? && script(t - 1).tip.value.height >= pin.height
  }

  /** The source does not change over an interval of calls. */
  ghost predicate SteadyDuring(script: nat -> ChainView, from: nat, to: nat) {
    forall t :: from <= t < to ==> script(t) == script(from)
  }

  /** The source does not change any more. */
  ghost predicate SteadyFrom(script: nat -> ChainView, from: nat) {
    forall t :: t >= from ==> script(t) == script(from)
  }

  lemma SteadyStays(script: nat -> ChainView, from: nat, later: nat)
    requires SteadyFrom(script, from) && from <= later
    ensures script(later) == script(from)
    ensures SteadyFrom(script, later) && SteadyDuring(script, from, later)
  {
  }

  /** The pin is the tip of a view and on its chain. */
  predicate PinnedIn(view: ChainView, pin: Anchor) {
    view.tip == Ok(pin) && view.hashAt(pin.height) == Ok(pin.hash)
  }

  /** Every complete block the source returns carries transaction ids that are new on its branch. */
  ghost predicate FreshSource(hashing: Hashing, script: nat -> ChainView, ancestry: Ancestry) {
    forall t, hash :: script(t).blockOf(hash).Ok? ==>
      var block := script(t).blockOf(hash).value;
      CompleteBlock(hashing, block, block.header.height, hash, None) ==> FreshBlock(hashing, ancestry, block)
  }

  lemma SourceIsFresh(
      hashing: Hashing, script: nat -> ChainView, ancestry: Ancestry, t: nat, height: nat, hash: BlockHash,
      previous: Option<BlockHash>)
    requires FreshSource(hashing, script, ancestry) && script(t).blockOf(hash).Ok?
    requires CompleteBlock(hashing, script(t).blockOf(hash).value, height, hash, previous)
    ensures FreshBlock(hashing, ancestry, script(t).blockOf(hash).value)
  {
    hide FreshBlock;
  }

  ghost predicate KnownFresh(reading: Reading, blocks: map<nat, BlockDelta>, known: map<nat, Read>, ancestry: Ancestry) {
    forall h :: h in blocks ==> h in known && FreshBlock(reading.hashing, ancestry, known[h].block)
  }

  lemma KnownFreshExtends(
      reading: Reading, blocks: map<nat, BlockDelta>, known: map<nat, Read>, ancestry: Ancestry, delta: BlockDelta, read: Read)
    requires KnownFresh(reading, blocks, known, ancestry) && FreshBlock(reading.hashing, ancestry, read.block)
    ensures
      var h := delta.anchor.height;
      KnownFresh(reading, blocks[h := delta], known[h := read], ancestry)
  {
    hide FreshBlock;
  }

  lemma KnownFreshBelow(
      reading: Reading, blocks: map<nat, BlockDelta>, known: map<nat, Read>, ancestry: Ancestry, height: nat)
    requires KnownFresh(reading, blocks, known, ancestry)
    ensures KnownFresh(reading, UpTo(blocks, height), known, ancestry)
  {
  }

  predicate StoreFault<T>(r: Result<T, SyncError>) {
    r.Err? && r.error.StoreFailure?
  }

  /** One block as it was read, and the rows it was interpreted over. */
  datatype Read = Read(block: Block, below: Rows)

  /**
   Behind an indexed block stands a complete block of the source: it hashes to the checkpoint, names the
   one below, commits to the stored ids, and the stored changes are its interpretation over the rows of
   the height below as they stood, committed to give the rows of this height.
   */
  ghost predicate ReadAs(reading: Reading, height: nat, delta: BlockDelta, read: Read, history: map<nat, Past>) {
    && CompleteBlock(reading.hashing, read.block, delta.anchor.height, delta.anchor.hash, Some(delta.previous))
    && delta.txids == Txids(read.block.txs)
    && InterpretBlock(reading.rules, read.below, delta.anchor, reading.retained, read.block.txs) == Ok(delta.deltas)
    && height > 0 && height - 1 in history && height in history
    && read.below == Standing(history[height - 1])
    && CommitAll(read.below, delta.deltas) == Ok(history[height].rows)
  }

  ghost predicate Evidence(
      reading: Reading, blocks: map<nat, BlockDelta>, known: map<nat, Read>, history: map<nat, Past>)
  {
    forall h :: h in blocks ==> h in known && ReadAs(reading, h, blocks[h], known[h], history)
  }

  lemma CompleteNamesPrevious(hashing: Hashing, block: Block, anchor: Anchor, previous: BlockHash)
    requires CompleteBlock(hashing, block, anchor.height, anchor.hash, Some(previous))
    ensures block.header.previous == previous
  {
  }

  /** A block read over the rows at the tip becomes evidence for the height above once it is committed. */
  lemma EvidenceExtends(
      reading: Reading, activation: Anchor, staged: Staged, known: map<nat, Read>,
      history: map<nat, Past>, delta: BlockDelta, read: Read, after: Rows)
    requires ValidStaged(activation, staged, history) && read.below == staged.rows
    requires Evidence(reading, staged.blocks, known, history)
    requires delta.anchor.height == staged.tip.height + 1
    requires CompleteBlock(reading.hashing, read.block, delta.anchor.height, delta.anchor.hash, Some(delta.previous))
    requires delta.txids == Txids(read.block.txs)
    requires InterpretBlock(reading.rules, read.below, delta.anchor, reading.retained, read.block.txs) == Ok(delta.deltas)
    requires CommitAll(read.below, delta.deltas) == Ok(after)
    ensures
      var h := delta.anchor.height;
      Evidence(reading, staged.blocks[h := delta], known[h := read], history[h := Past(after, {})])
  {
    hide CompleteBlock, InterpretBlock, CommitAll, Txids, Standing, UndoOk, Coherent;
    var h := delta.anchor.height;
    forall k | k in staged.blocks
      ensures ReadAs(reading, k, staged.blocks[k], known[k], history[h := Past(after, {})])
    {
      assert ReadAs(reading, k, staged.blocks[k], known[k], history);
    }
  }

  /** Undoing blocks leaves the evidence of those that stay: only what was undone above them changes. */
  lemma EvidenceDescends(
      reading: Reading, blocks: map<nat, BlockDelta>, known: map<nat, Read>, history: map<nat, Past>,
      undo: map<nat, UndoRow>, ancestor: nat, height: nat)
    requires Evidence(reading, blocks, known, history)
    ensures Evidence(reading, UpTo(blocks, ancestor), known, Descended(undo, history, ancestor, height))
  {
    hide CompleteBlock, InterpretBlock, CommitAll, Txids, Standing, Discarded;
    forall h | h in UpTo(blocks, ancestor)
      ensures ReadAs(reading, h, blocks[h], known[h], Descended(undo, history, ancestor, height))
    {
      assert ReadAs(reading, h, blocks[h], known[h], history);
    }
  }

  /** A block was read over the rows its predecessor left exactly when no undone block re-produced one of them. */
  lemma ReadOverLeftRows(reading: Reading, height: nat, delta: BlockDelta, read: Read, history: map<nat, Past>)
    requires ReadAs(reading, height, delta, read, history)
    ensures read.below == history[height - 1].rows <==>
      history[height - 1].rows.outputs.Keys !! history[height - 1].undone
  {
    hide CompleteBlock, InterpretBlock, CommitAll, Txids;
    StandsExactly(history[height - 1]);
  }

  /** On branches that repeat no transaction id every block was read over the rows its predecessor left. */
  lemma CleanReads(
      reading: Reading, activation: Anchor, blocks: map<nat, BlockDelta>, undo: map<nat, UndoRow>,
      known: map<nat, Read>, history: map<nat, Past>, ancestry: Ancestry, height: nat)
    requires Evidence(reading, blocks, known, history)
    requires Clean(activation, blocks, undo, history, ancestry)
    requires height in blocks
    ensures height > 0 && height - 1 in history && known[height].below == history[height - 1].rows
  {
    hide CompleteBlock, InterpretBlock, CommitAll, Txids, Standing;
    assert ReadAs(reading, height, blocks[height], known[height], history);
    CleanStands(activation, blocks, undo, history, ancestry, height - 1);
  }

  /** A view offers a complete block for a height on top of a given one. */
  predicate Offers(hashing: Hashing, view: ChainView, height: nat, previous: BlockHash) {
    && view.hashAt(height).Ok?
    && view.blockOf(view.hashAt(height).value).Ok?
    && CompleteBlock(
         hashing, view.blockOf(view.hashAt(height).value).value, height, view.hashAt(height).value, Some(previous))
  }

  /** From a tip it shares up to a height, a view offers complete blocks that can be interpreted one after another. */
  ghost predicate Indexable(reading: Reading, view: ChainView, rows: Rows, tip: Anchor, upTo: nat)
    decreases upTo - tip.height
  {
    && tip.height <= upTo
    && view.hashAt(tip.height) == Ok(tip.hash)
    && (tip.height < upTo ==>
          && Offers(reading.hashing, view, tip.height + 1, tip.hash)
          && var anchor := Anchor(tip.height + 1, view.hashAt(tip.height + 1).value);
             var txs := view.blockOf(anchor.hash).value.txs;
             var read := InterpretBlock(reading.rules, rows, anchor, reading.retained, txs);
             && read.Ok?
             && (CommitAll(rows, read.value).Ok? ==>
                   Indexable(reading, view, CommitAll(rows, read.value).value, anchor, upTo)))
  }

  lemma AheadIsShared(
      reading: Reading, view: ChainView, rows: Rows, tip: Anchor, blocks: map<nat, BlockDelta>, pin: Anchor)
    requires Indexable(reading, view, rows, tip, pin.height)
    ensures TipIsShared(view, tip, pin) && ReconcileAnswers(view, tip, blocks, pin)
  {
  }

  lemma SharedPinIsTip(reading: Reading, view: ChainView, rows: Rows, tip: Anchor, pin: Anchor)
    requires Indexable(reading, view, rows, tip, pin.height) && tip.height == pin.height && PinnedIn(view, pin)
    ensures tip == pin
  {
  }

  /** What indexing one height needs and leaves. */
  lemma IndexableStep(reading: Reading, view: ChainView, rows: Rows, tip: Anchor, upTo: nat)
    requires Indexable(reading, view, rows, tip, upTo) && tip.height < upTo
    ensures Offers(reading.hashing, view, tip.height + 1, tip.hash)
    ensures
      var anchor := Anchor(tip.height + 1, view.hashAt(tip.height + 1).value);
      var read := InterpretBlock(reading.rules, rows, anchor, reading.retained, view.blockOf(anchor.hash).value.txs);
      && read.Ok?
      && (CommitAll(rows, read.value).Ok? ==>
            Indexable(reading, view, CommitAll(rows, read.value).value, anchor, upTo))
  {
  }

  /** The hash functions do not collide, and no stored transaction id is a hash of two. */
  ghost predicate NoCollisions(hashing: Hashing, blocks: map<nat, BlockDelta>) {
    && Injective(hashing.ofPair)
    && (forall a, b :: hashing.ofHeader(a) == hashing.ofHeader(b) ==> a == b)
    && forall h :: h in blocks ==> LeavesAreNotPairs(hashing.ofPair, blocks[h].txids)
  }

  /** Two complete blocks of one hash carry the same predecessor and the same transaction ids. */
  lemma SameHashSameBlock(reading: Reading, height: nat, left: BlockDelta, right: BlockDelta, leftRead: Read, rightRead: Read,
                          leftHistory: map<nat, Past>, rightHistory: map<nat, Past>)
    requires ReadAs(reading, height, left, leftRead, leftHistory)
    requires ReadAs(reading, height, right, rightRead, rightHistory)
    requires left.anchor == right.anchor
    requires NoCollisions(reading.hashing, map[0 := left]) && NoCollisions(reading.hashing, map[0 := right])
    ensures left.previous == right.previous && left.txids == right.txids
  {
    hide InterpretBlock, CommitAll;
    assert leftRead.block.header == rightRead.block.header;
    assert 0 in map[0 := left] && 0 in map[0 := right];
    RootDeterminesListAtAnyDepth(reading.hashing.ofPair, left.txids, right.txids);
  }

  /**
   Whatever sources two stores followed, if they activated at one anchor and stand at one tip then they
   indexed the same blocks: every checkpoint and every list of transaction ids below it agrees.
   */
  lemma {:induction false} TipDeterminesChain(
      reading: Reading, activation: Anchor, tip: Anchor, height: nat,
      left: map<nat, BlockDelta>, leftKnown: map<nat, Read>, leftHistory: map<nat, Past>,
      right: map<nat, BlockDelta>, rightKnown: map<nat, Read>, rightHistory: map<nat, Past>)
    requires Linked(activation, tip, left) && Evidence(reading, left, leftKnown, leftHistory)
    requires Linked(activation, tip, right) && Evidence(reading, right, rightKnown, rightHistory)
    requires NoCollisions(reading.hashing, left) && NoCollisions(reading.hashing, right)
    requires height in left
    ensures height in right
    ensures left[height].anchor == right[height].anchor
    ensures left[height].previous == right[height].previous
    ensures left[height].txids == right[height].txids
    decreases tip.height - height
  {
    hide ReadAs;
    if height < tip.height {
      TipDeterminesChain(
        reading, activation, tip, height + 1, left, leftKnown, leftHistory, right, rightKnown, rightHistory);
    }
    SameHashSameBlock(
      reading, height, left[height], right[height], leftKnown[height], rightKnown[height], leftHistory, rightHistory);
  }

  predicate CommonAt(view: ChainView, tip: Anchor, blocks: map<nat, BlockDelta>, pin: Anchor, height: nat) {
    && height <= pin.height
    && CanonicalAnchor(tip, blocks, height).Some?
    && view.hashAt(height) == Ok(CanonicalAnchor(tip, blocks, height).value.hash)
  }

  /** The least depth from `depth` on, within the undo window, whose block the source shares; 0 if none. */
  function CommonDepth(view: ChainView, tip: Anchor, blocks: map<nat, BlockDelta>, pin: Anchor, depth: nat): nat
    decreases UNDO_RETENTION_BLOCKS + 1 - depth
  {
    if depth > UNDO_RETENTION_BLOCKS || depth > tip.height then
      0
    else if CommonAt(view, tip, blocks, pin, tip.height - depth) then
      depth
    else
      CommonDepth(view, tip, blocks, pin, depth + 1)
  }

  /** The search can compare a height: it lies above the pin, or both the store and the source know it. */
  predicate Answers(view: ChainView, tip: Anchor, blocks: map<nat, BlockDelta>, pin: Anchor, height: nat) {
    height <= pin.height ==> CanonicalAnchor(tip, blocks, height).Some? && view.hashAt(height).Ok?
  }

  /** The search for a shared block from `depth` on meets no height it cannot compare before it ends. */
  predicate SearchAnswers(view: ChainView, tip: Anchor, blocks: map<nat, BlockDelta>, pin: Anchor, depth: nat)
    decreases UNDO_RETENTION_BLOCKS + 1 - depth
  {
    depth <= UNDO_RETENTION_BLOCKS && depth <= tip.height ==>
      && Answers(view, tip, blocks, pin, tip.height - depth)
      && (CommonAt(view, tip, blocks, pin, tip.height - depth) || SearchAnswers(view, tip, blocks, pin, depth + 1))
  }

  /** The source names the stored tip's hash below or at the pin. */
  predicate TipIsShared(view: ChainView, tip: Anchor, pin: Anchor) {
    pin.height >= tip.height && view.hashAt(tip.height) == Ok(tip.hash)
  }

  /** Reconciling gets an answer wherever it asks. */
  predicate ReconcileAnswers(view: ChainView, tip: Anchor, blocks: map<nat, BlockDelta>, pin: Anchor) {
    && (pin.height >= tip.height ==> view.hashAt(tip.height).Ok?)
    && (TipIsShared(view, tip, pin) || SearchAnswers(view, tip, blocks, pin, 1))
  }

  /** A source that names every hash of the window answers the search, wherever the activation lies. */
  lemma {:induction false} WindowAnswers(
      view: ChainView, activation: Anchor, tip: Anchor, blocks: map<nat, BlockDelta>, pin: Anchor, depth: nat)
    requires Linked(activation, tip, blocks) && 1 <= depth
    requires tip.height >= activation.height + UNDO_RETENTION_BLOCKS || CommonDepth(view, tip, blocks, pin, depth) > 0
    requires forall h: nat :: h <= tip.height <= h + UNDO_RETENTION_BLOCKS && h <= pin.height ==> view.hashAt(h).Ok?
    ensures SearchAnswers(view, tip, blocks, pin, depth)
    decreases UNDO_RETENTION_BLOCKS + 1 - depth
  {
    if depth <= UNDO_RETENTION_BLOCKS && depth <= tip.height && !CommonAt(view, tip, blocks, pin, tip.height - depth) {
      var height := tip.height - depth;
      if CommonDepth(view, tip, blocks, pin, depth + 1) > 0 {
        CommonDepthIsHighest(view, tip, blocks, pin, depth + 1);
        KnownAbove(activation, tip, blocks, tip.height - CommonDepth(view, tip, blocks, pin, depth + 1), height);
      } else {
        KnownAbove(activation, tip, blocks, activation.height, height);
      }
      WindowAnswers(view, activation, tip, blocks, pin, depth + 1);
    }
  }

  lemma KnownAbove(activation: Anchor, tip: Anchor, blocks: map<nat, BlockDelta>, low: nat, height: nat)
    requires Linked(activation, tip, blocks) && low <= height <= tip.height
    requires low == activation.height || CanonicalAnchor(tip, blocks, low).Some?
    ensures CanonicalAnchor(tip, blocks, height).Some?
  {
  }

  /** Below the tip, the common depth names the highest block the source shares within the window. */
  lemma {:induction false} CommonDepthIsHighest(
      view: ChainView, tip: Anchor, blocks: map<nat, BlockDelta>, pin: Anchor, from: nat)
    requires from >= 1
    ensures
      var d := CommonDepth(view, tip, blocks, pin, from);
      && (d > 0 ==> from <= d <= UNDO_RETENTION_BLOCKS && d <= tip.height && CommonAt(view, tip, blocks, pin, tip.height - d))
      && (forall h: nat :: h <= tip.height - from && tip.height - h <= UNDO_RETENTION_BLOCKS && CommonAt(view, tip, blocks, pin, h) ==>
            d > 0 && h <= tip.height - d)
    decreases UNDO_RETENTION_BLOCKS + 1 - from
  {
    if from <= UNDO_RETENTION_BLOCKS && from <= tip.height {
      CommonDepthIsHighest(view, tip, blocks, pin, from + 1);
    }
  }

  lemma SteadySuffix(script: nat -> ChainView, from: nat, middle: nat, to: nat)
    requires from <= middle < to
    ensures SteadyDuring(script, from, to) ==>
      script(middle) == script(from) && SteadyDuring(script, from, middle) && SteadyDuring(script, middle, to)
  {
  }

  lemma AnchorHeight(activation: Anchor, tip: Anchor, blocks: map<nat, BlockDelta>, height: nat)
    requires Linked(activation, tip, blocks)
    ensures CanonicalAnchor(tip, blocks, height).Some? ==> CanonicalAnchor(tip, blocks, height).value.height == height
  {
  }

  lemma SearchEnds(view: ChainView, tip: Anchor, blocks: map<nat, BlockDelta>, pin: Anchor, depth: nat)
    requires depth > UNDO_RETENTION_BLOCKS || depth > tip.height
    ensures CommonDepth(view, tip, blocks, pin, depth) == 0 && SearchAnswers(view, tip, blocks, pin, depth)
  {
  }

  lemma SearchStep(view: ChainView, tip: Anchor, blocks: map<nat, BlockDelta>, pin: Anchor, depth: nat)
    requires 1 <= depth <= UNDO_RETENTION_BLOCKS && depth <= tip.height
    ensures SearchAnswers(view, tip, blocks, pin, depth) <==>
      && Answers(view, tip, blocks, pin, tip.height - depth)
      && (CommonAt(view, tip, blocks, pin, tip.height - depth) || SearchAnswers(view, tip, blocks, pin, depth + 1))
  {
  }

  lemma DepthWithinWindow(view: ChainView, tip: Anchor, blocks: map<nat, BlockDelta>, pin: Anchor)
    ensures CommonDepth(view, tip, blocks, pin, 1) <= UNDO_RETENTION_BLOCKS
  {
    CommonDepthIsHighest(view, tip, blocks, pin, 1);
  }

  /** One more depth searched: the common depth is this one or lies further down. */
  lemma CommonDepthStep(view: ChainView, tip: Anchor, blocks: map<nat, BlockDelta>, pin: Anchor, depth: nat)
    requires 1 <= depth <= UNDO_RETENTION_BLOCKS && depth <= tip.height
    ensures CommonDepth(view, tip, blocks, pin, depth)
         == if CommonAt(view, tip, blocks, pin, tip.height - depth) then depth
            else CommonDepth(view, tip, blocks, pin, depth + 1)
  {
  }

  lemma AncestorAboveActivation(activation: Anchor, tip: Anchor, blocks: map<nat, BlockDelta>, height: nat)
    requires Linked(activation, tip, blocks)
    requires CanonicalAnchor(tip, blocks, height).Some?
    ensures activation.height <= height <= tip.height
  {
  }

  class Coordinator {
    const source: Source
    const store: Store
    const reading: Reading
    const maxRestarts: nat
    /** What each indexed block was read from. */
    ghost var known: map<nat, Read>
    /** Source calls made when the last block was applied. */
    ghost var appliedAt: nat
    /** The transaction ids of each branch. */
    ghost const ancestry: Ancestry

    ghost predicate Valid()
      reads this, source, store
    {
      && store.Valid()
      && Evidence(reading, store.blocks, known, store.history)
      && appliedAt <= source.now
    }

    /**
     What makes rollback exact and admission certain: rules that keep their promises, a source whose
     branches repeat no transaction id, and a store that followed such branches so far.
     */
    ghost predicate Orderly()
      reads this, store
    {
      && Sound(reading.rules) && Placed(reading.rules)
      && FreshSource(reading.hashing, source.script, ancestry)
      && KnownFresh(reading, store.blocks, known, ancestry)
      && Clean(store.activation, store.blocks, store.undo, store.history, ancestry)
    }

    /** The store is on the view's chain, and the rest of it up to the pin can be indexed. */
    ghost predicate Ahead(view: ChainView, pin: Anchor)
      reads this, store
    {
      && Orderly() && store.status != RescanRequired
      && PinnedIn(view, pin) && pin.height <= U32_MAX
      && Indexable(reading, view, store.rows, store.tip, pin.height)
    }

    /** The store has left the view's chain, within what can be undone, and the rest from there can be indexed. */
    ghost predicate Behind(view: ChainView, pin: Anchor)
      reads this, store
    {
      var depth := CommonDepth(view, store.tip, store.blocks, pin, 1);
      && Orderly() && store.status != RescanRequired
      && PinnedIn(view, pin) && pin.height <= U32_MAX
      && !TipIsShared(view, store.tip, pin) && ReconcileAnswers(view, store.tip, store.blocks, pin)
      && 0 < depth <= store.tip.height
      && store.UndoAvailable(store.tip.height - depth)
      && var ancestor := store.tip.height - depth;
         && store.AnchorAt(ancestor).Some? && ancestor in store.history
         && Indexable(reading, view, store.history[ancestor].rows, store.AnchorAt(ancestor).value, pin.height)
    }

    constructor (
        source: Source, store: Store, reading: Reading, maxRestarts: nat, ghost known: map<nat, Read>,
        ghost ancestry: Ancestry)
      requires store.Valid() && Evidence(reading, store.blocks, known, store.history)
      ensures Valid()
      ensures this.source == source && this.store == store && this.reading == reading && this.maxRestarts == maxRestarts
      ensures this.known == known && this.ancestry == ancestry && appliedAt == 0
    {
      this.source := source;
      this.store := store;
      this.reading := reading;
      this.maxRestarts := maxRestarts;
      this.known := known;
      this.appliedAt := 0;
      this.ancestry := ancestry;
    }

    method PinStillCanonical(pin: Anchor) returns (r: Result<bool, SyncError>)
      modifies source`now
      ensures !StoreFault(r)
      ensures source.now > old(source.now)
      ensures r == Ok(true) ==> source.now >= old(source.now) + 2 && SeenCanonical(source.script, source.now - 1, pin)
      ensures SteadyDuring(source.script, old(source.now), source.now) && PinnedIn(source.script(old(source.now)), pin) ==>
        r == Ok(true)
    {
      var current := source.Tip();
      if current.Err? {
        return Err(ChainSource(current.error));
      }
      if current.value.height < pin.height {
        return Ok(false);
      }
      var hash := source.HashAt(pin.height);
      if hash.Err? {
        return Err(ChainSource(hash.error));
      }
      r := Ok(hash.value == pin.hash);
    }

    method BlockStillPinned(block: Anchor, pin: Anchor) returns (r: Result<bool, SyncError>)
      modifies source`now
      ensures !StoreFault(r)
      ensures source.now > old(source.now)
      ensures r == Ok(true) ==> source.script(old(source.now)).hashAt(block.height) == Ok(block.hash)
      ensures r == Ok(true) ==> SeenCanonical(source.script, source.now - 1, pin)
      ensures
        var view := source.script(old(source.now));
        SteadyFrom(source.script, old(source.now)) && PinnedIn(view, pin) && view.hashAt(block.height) == Ok(block.hash) ==>
          r == Ok(true)
    {
      var hash := source.HashAt(block.height);
      if hash.Err? {
        return Err(ChainSource(hash.error));
      }
      if hash.value != block.hash {
        return Ok(false);
      }
      r := PinStillCanonical(pin);
    }

    /** The indexed anchor at a height if the source reports the same hash there. */
    method SharedAt(height: nat, pin: Anchor) returns (r: Result<Option<Anchor>, SyncError>)
      requires store.Valid()
      modifies source`now
      ensures !StoreFault(r)
      ensures old(source.now) <= source.now <= old(source.now) + 1
      ensures r.Ok? ==>
        (r.value.Some? <==> CommonAt(source.script(old(source.now)), store.tip, store.blocks, pin, height))
      ensures r.Ok? && r.value.Some? ==> store.AnchorAt(height) == r.value && r.value.value.height == height
      ensures source.now == old(source.now) && r.Ok? ==>
        forall view :: !CommonAt(view, store.tip, store.blocks, pin, height)
      ensures r.Ok? <==> Answers(source.script(old(source.now)), store.tip, store.blocks, pin, height)
      ensures source.now == old(source.now) ==>
        forall view :: Answers(view, store.tip, store.blocks, pin, height) <==> r.Ok?
    {
      AnchorHeight(store.activation, store.tip, store.blocks, height);
      hide Linked, Undoable, CanonicalAnchor;
      if height > pin.height {
        return Ok(None);
      }
      var local := store.AnchorAt(height);
      if local.None? {
        return Err(MissingCheckpoint(height));
      }
      var hash := source.HashAt(height);
      if hash.Err? {
        return Err(ChainSource(hash.error));
      }
      r := Ok(if hash.value == local.value.hash then local else None);
    }

    /** Searches the undo window downwards for a block the source still has. */
    method FindCommon(pin: Anchor) returns (r: Result<Option<(Anchor, nat)>, SyncError>)
      requires store.Valid()
      modifies source`now
      ensures !StoreFault(r)
      ensures source.now >= old(source.now)
      ensures r.Ok? && r.value.Some? ==> Ancestor(r.value.value.0, r.value.value.1)
      ensures SteadyDuring(source.script, old(source.now), source.now) && r.Ok? ==>
        var depth := CommonDepth(source.script(old(source.now)), store.tip, store.blocks, pin, 1);
        if depth == 0 then r.value == None else r.value.Some? && r.value.value.1 == depth
      ensures SteadyDuring(source.script, old(source.now), source.now) ==>
        (r.Ok? <==> SearchAnswers(source.script(old(source.now)), store.tip, store.blocks, pin, 1))
      ensures r.Err? && source.now == old(source.now) ==>
        forall view :: !SearchAnswers(view, store.tip, store.blocks, pin, 1)
    {
      hide ValidStaged, CanonicalAnchor, CommonAt, Answers, SearchAnswers, CommonDepth;
      ghost var view := source.script(source.now);
      ghost var least := CommonDepth(view, store.tip, store.blocks, pin, 1);
      ghost var answers := SearchAnswers(view, store.tip, store.blocks, pin, 1);
      var depth := 1;
      while depth <= UNDO_RETENTION_BLOCKS && depth <= store.tip.height
        invariant depth >= 1
        invariant source.now >= old(source.now)
        invariant SteadyDuring(source.script, old(source.now), source.now) ==>
          && least == CommonDepth(view, store.tip, store.blocks, pin, depth)
          && answers == SearchAnswers(view, store.tip, store.blocks, pin, depth)
        invariant source.now == old(source.now) ==> forall other ::
          SearchAnswers(other, store.tip, store.blocks, pin, 1) ==> SearchAnswers(other, store.tip, store.blocks, pin, depth)
      {
        ghost var before := source.now;
        var shared := SharedAt(store.tip.height - depth, pin);
        CommonDepthStep(view, store.tip, store.blocks, pin, depth);
        SearchStep(view, store.tip, store.blocks, pin, depth);
        if before < source.now {
          SteadySuffix(source.script, old(source.now), before, source.now);
        } else {
          forall other
            ensures SearchAnswers(other, store.tip, store.blocks, pin, depth) ==>
              shared.Ok? && SearchAnswers(other, store.tip, store.blocks, pin, depth + 1)
          {
            SearchStep(other, store.tip, store.blocks, pin, depth);
          }
        }
        if shared.Err? {
          return Err(shared.error);
        }
        if shared.value.Some? {
          return Ok(Some((shared.value.value, depth)));
        }
        depth := depth + 1;
      }
      SearchEnds(view, store.tip, store.blocks, pin, depth);
      r := Ok(None);
    }

    method TipShared() returns (r: Result<bool, SyncError>)
      modifies source`now
      ensures !StoreFault(r)
      ensures source.now == old(source.now) + 1
      ensures r.Ok? ==>
        (r.value <==> source.script(old(source.now)).hashAt(store.tip.height) == Ok(store.tip.hash))
      ensures r.Ok? <==> source.script(old(source.now)).hashAt(store.tip.height).Ok?
    {
      var hash := source.HashAt(store.tip.height);
      if hash.Err? {
        return Err(ChainSource(hash.error));
      }
      r := Ok(hash.value == store.tip.hash);
    }

    /** The common block of the undo window, provided the pin is still canonical after the search. */
    method SearchPinned(pin: Anchor) returns (r: Result<Option<Option<(Anchor, nat)>>, SyncError>)
      requires store.Valid()
      modifies source`now
      ensures !StoreFault(r)
      ensures source.now >= old(source.now)
      ensures r.Ok? ==> source.now > old(source.now)
      ensures r.Ok? && r.value.Some? && r.value.value.Some? ==> Ancestor(r.value.value.value.0, r.value.value.value.1)
      ensures
        var view := source.script(old(source.now));
        SteadyDuring(source.script, old(source.now), source.now) && PinnedIn(view, pin) && r.Ok? ==>
          var depth := CommonDepth(view, store.tip, store.blocks, pin, 1);
          && r.value.Some?
          && if depth == 0 then r.value.value == None else r.value.value.Some? && r.value.value.value.1 == depth
      ensures
        var view := source.script(old(source.now));
        SteadyDuring(source.script, old(source.now), source.now) && PinnedIn(view, pin) ==>
          (r.Ok? <==> SearchAnswers(view, store.tip, store.blocks, pin, 1))
      ensures r.Err? && source.now == old(source.now) ==>
        forall view :: !SearchAnswers(view, store.tip, store.blocks, pin, 1)
    {
      hide ValidStaged, CommonDepth, CanonicalAnchor, SearchAnswers;
      var common := FindCommon(pin);
      if common.Err? {
        return Err(common.error);
      }
      ghost var looked := source.now;
      var canonical := PinStillCanonical(pin);
      SteadySuffix(source.script, old(source.now), looked, source.now);
      if canonical.Err? {
        return Err(canonical.error);
      }
      r := Ok(if canonical.value then Some(common.value) else None);
    }

    ghost predicate Ancestor(ancestor: Anchor, depth: nat)
      reads this, store
    {
      && 0 < depth <= UNDO_RETENTION_BLOCKS && depth <= store.tip.height
      && ancestor.height == store.tip.height - depth
      && store.AnchorAt(store.tip.height - depth) == Some(ancestor)
    }

    method StepBack(common: Option<(Anchor, nat)>) returns (r: Result<Reconciled, SyncError>)
      requires Valid()
      requires common.Some? ==> Ancestor(common.value.0, common.value.1)
      modifies store`tip, store`blocks, store`undo, store`rows, store`history, store`status
      ensures Valid()
      ensures r.Err? ==> unchanged(store) && old(store.status) == RescanRequired
      ensures r.Ok? && common.None? ==> r.value == RescanNeeded
      ensures r.Ok? && common.Some? ==>
        r.value == if old(store.UndoAvailable(common.value.0.height)) then Back(common.value.1) else RescanNeeded
      ensures r.Ok? && r.value.Back? ==> common.Some? && store.tip == common.value.0 && store.status == Syncing
      ensures r.Ok? && !r.value.Back? ==>
        store.status == RescanRequired && unchanged(store`tip, store`blocks, store`undo, store`rows, store`history)
      ensures old(Orderly()) ==> Orderly()
      ensures old(Orderly()) && r.Ok? && r.value.Back? ==>
        common.value.0.height in old(store.history) && store.rows == old(store.history)[common.value.0.height].rows
    {
      hide Linked, Undoable, Evidence, Clean, FreshSource, KnownFresh, Sound, Placed;
      hide Descended, UpTo, Produced, CanonicalAnchor, Standing, Bare;
      if common.None? {
        store.InvalidateForRebuild();
        return Ok(RescanNeeded);
      }
      var (ancestor, depth) := common.value;
      EvidenceDescends(reading, store.blocks, known, store.history, store.undo, ancestor.height, store.tip.height);
      ghost var orderly := Orderly();
      if orderly {
        KnownFreshBelow(reading, store.blocks, known, ancestry, ancestor.height);
        AncestorAboveActivation(store.activation, store.tip, store.blocks, ancestor.height);
        DescendedIsClean(
          store.activation, store.tip, store.blocks, store.undo, store.history, ancestry, ancestor.height);
      }
      var rolled := store.RollbackTo(ancestor);
      if orderly && rolled == Ok(RolledBack) {
        CleanStands(store.activation, store.blocks, store.undo, store.history, ancestry, ancestor.height);
      }
      if rolled.Err? {
        return Err(StoreFailure(rolled.error));
      }
      if rolled.value == RebuildNeeded {
        return Ok(RescanNeeded);
      }
      r := Ok(Back(depth));
    }

    /**
     Compares the indexed tip with the source and rolls back to the newest shared block of the undo
     window. Against a source that is steady during the call the outcome is exact: stable when the tip
     is shared, back by the common depth when that block is shared and undoable, a rescan otherwise; and
     there is an outcome exactly when the source answers wherever it is asked.
     */
    method Reconcile(pin: Anchor) returns (r: Result<Reconciled, SyncError>)
      requires Valid()
      modifies source`now, store`tip, store`blocks, store`undo, store`rows, store`history, store`status
      ensures Valid()
      ensures source.now >= old(source.now)
      ensures r == Ok(Stable) ==> pin.height >= old(store.tip).height
      ensures r == Ok(Stable) || r == Ok(Restart) || r.Err? ==> unchanged(store)
      ensures r.Ok? && r.value.Back? ==>
        && 0 < r.value.depth && store.tip.height + r.value.depth == old(store.tip).height
        && store.status == Syncing
      ensures r == Ok(RescanNeeded) ==> store.status == RescanRequired && store.tip == old(store.tip)
      ensures
        var view := source.script(old(source.now));
        var tip := old(store.tip);
        var depth := CommonDepth(view, tip, old(store.blocks), pin, 1);
        SteadyDuring(source.script, old(source.now), source.now) && PinnedIn(view, pin) && r.Ok? ==>
          if pin.height >= tip.height && view.hashAt(tip.height) == Ok(tip.hash) then
            r.value == Stable
          else if 0 < depth <= tip.height && old(store.UndoAvailable(store.tip.height - depth)) then
            r.value == Back(depth) && Some(store.tip) == old(store.AnchorAt(store.tip.height - depth))
          else
            r.value == RescanNeeded
      ensures
        var view := source.script(old(source.now));
        SteadyDuring(source.script, old(source.now), source.now) && PinnedIn(view, pin)
        && old(store.status) != RescanRequired ==>
          (r.Ok? <==> ReconcileAnswers(view, old(store.tip), old(store.blocks), pin))
      ensures old(Orderly()) ==> Orderly() && (old(store.status) != RescanRequired ==> !StoreFault(r))
      ensures old(Orderly()) && r.Ok? && r.value.Back? ==>
        store.tip.height in old(store.history) && store.rows == old(store.history)[store.tip.height].rows
    {
      hide ValidStaged, CommonDepth, CanonicalAnchor, Evidence, Orderly, SteadyDuring, SeenCanonical, SearchAnswers;
      if pin.height >= store.tip.height {
        var shared := TipShared();
        if shared.Err? {
          return Err(shared.error);
        }
        if shared.value {
          return Ok(Stable);
        }
      }
      ghost var searched := source.now;
      var found := SearchPinned(pin);
      if searched < source.now {
        SteadySuffix(source.script, old(source.now), searched, source.now);
      }
      if found.Err? {
        return Err(found.error);
      }
      if found.value.None? {
        return Ok(Restart);
      }
      r := StepBack(found.value.value);
    }

    /** Reads the block of a height and keeps it only if it and the pin are still canonical afterwards. */
    method FetchBlock(height: nat, pin: Anchor, expectedPrevious: BlockHash)
      returns (r: Result<Option<(Anchor, Block)>, SyncError>)
      modifies source`now
      ensures source.now >= old(source.now)
      ensures r.Ok? && r.value.Some? ==>
        var (anchor, block) := r.value.value;
        && anchor.height == height
        && CompleteBlock(reading.hashing, block, height, anchor.hash, Some(expectedPrevious))
        && (FreshSource(reading.hashing, source.script, ancestry) ==> FreshBlock(reading.hashing, ancestry, block))
      ensures !StoreFault(r)
      ensures
        var view := source.script(old(source.now));
        SteadyFrom(source.script, old(source.now)) && PinnedIn(view, pin)
        && Offers(reading.hashing, view, height, expectedPrevious) ==>
          var hash := view.hashAt(height).value;
          r == Ok(Some((Anchor(height, hash), view.blockOf(hash).value)))
    {
      hide FreshSource, FreshBlock, CompleteBlock;
      var hash := source.HashAt(height);
      if hash.Err? {
        return Err(ChainSource(hash.error));
      }
      var block := source.BlockOf(hash.value);
      if block.Err? {
        return Err(ChainSource(block.error));
      }
      var fault := ValidateCompleteBlock(reading.hashing, block.value, height, hash.value, Some(expectedPrevious));
      if fault.Some? {
        return Err(InvalidBlockAt(height, fault.value));
      }
      if FreshSource(reading.hashing, source.script, ancestry) {
        SourceIsFresh(
          reading.hashing, source.script, ancestry, source.now - 1, height, hash.value, Some(expectedPrevious));
      }
      var anchor := Anchor(height, hash.value);
      var pinned := BlockStillPinned(anchor, pin);
      if pinned.Err? {
        return Err(pinned.error);
      }
      r := Ok(if pinned.value then Some((anchor, block.value)) else None);
    }

    /** Fetches and interprets the block above the tip, and looks again that it is still on the pinned branch. */
    method ReadNext(pin: Anchor) returns (r: Result<Option<(BlockDelta, Block)>, SyncError>)
      modifies source`now
      ensures source.now >= old(source.now)
      ensures r.Ok? && r.value.Some? ==>
        var (delta, block) := r.value.value;
        && CompleteBlock(reading.hashing, block, delta.anchor.height, delta.anchor.hash, Some(delta.previous))
        && delta.txids == Txids(block.txs)
        && InterpretBlock(reading.rules, store.rows, delta.anchor, reading.retained, block.txs) == Ok(delta.deltas)
        && delta.anchor.height == store.tip.height + 1
        && delta.previous == store.tip.hash
        && source.now > 0 && SeenCanonical(source.script, source.now - 1, pin)
        && (FreshSource(reading.hashing, source.script, ancestry) ==> FreshBlock(reading.hashing, ancestry, block))
      ensures !StoreFault(r)
      ensures
        var view := source.script(old(source.now));
        SteadyFrom(source.script, old(source.now)) && PinnedIn(view, pin)
        && store.tip.height < pin.height && Indexable(reading, view, store.rows, store.tip, pin.height) ==>
          && r.Ok? && r.value.Some?
          && view.hashAt(store.tip.height + 1) == Ok(r.value.value.0.anchor.hash)
          && view.blockOf(r.value.value.0.anchor.hash) == Ok(r.value.value.1)
    {
      hide FreshSource, FreshBlock, CompleteBlock, SeenCanonical, InterpretBlock, Txids, Indexable, SteadyFrom;
      ghost var opening := source.now;
      ghost var view := source.script(opening);
      ghost var certain :=
        && SteadyFrom(source.script, opening) && PinnedIn(view, pin)
        && store.tip.height < pin.height && Indexable(reading, view, store.rows, store.tip, pin.height);
      if certain {
        IndexableStep(reading, view, store.rows, store.tip, pin.height);
      }
      var height := store.tip.height + 1;
      var fetched := FetchBlock(height, pin, store.tip.hash);
      if fetched.Err? {
        return Err(fetched.error);
      }
      if fetched.value.None? {
        return Ok(None);
      }
      var (anchor, block) := fetched.value.value;
      if certain {
        SteadyStays(source.script, opening, source.now);
      }
      var deltas := Interpreter.InterpretCanonicalBlock(reading.rules, store.rows, anchor, reading.retained, block.txs);
      if deltas.Err? {
        return Err(SyncError.Interpretation(deltas.error));
      }
      var pinned := BlockStillPinned(anchor, pin);
      if pinned.Err? {
        return Err(pinned.error);
      }
      if !pinned.value {
        return Ok(None);
      }
      CompleteNamesPrevious(reading.hashing, block, anchor, store.tip.hash);
      r := Ok(Some((BlockDelta(anchor, block.header.previous, Txids(block.txs), deltas.value), block)));
    }

    /**
     Hands a block read over the stored rows to the store and keeps it as evidence. A store on branches that
     repeat no transaction id takes it.
     */
    method ApplyRead(delta: BlockDelta, block: Block) returns (r: Result<bool, SyncError>)
      requires Valid()
      requires CompleteBlock(reading.hashing, block, delta.anchor.height, delta.anchor.hash, Some(delta.previous))
      requires delta.txids == Txids(block.txs)
      requires InterpretBlock(reading.rules, store.rows, delta.anchor, reading.retained, block.txs) == Ok(delta.deltas)
      requires delta.anchor.height == store.tip.height + 1 && delta.previous == store.tip.hash
      modifies store`tip, store`blocks, store`undo, store`rows, store`history, this`known, this`appliedAt
      ensures Valid()
      ensures r == Ok(true) ==>
        && store.tip == delta.anchor
        && store.blocks == old(store.blocks)[delta.anchor.height := delta]
        && CommitAll(old(store.rows), delta.deltas) == Ok(store.rows)
        && appliedAt == source.now
      ensures r != Ok(true) ==> unchanged(store) && unchanged(this)
      ensures old(Orderly()) && FreshBlock(reading.hashing, ancestry, block) ==>
        Orderly() && (store.status != RescanRequired ==> r == Ok(true))
    {
      hide FreshSource, FreshBlock, Clean, Sound, Placed, KnownFresh, ShapeOk, ValidStaged, Evidence, CommitAll, UndoFor;
      hide CompleteBlock, InterpretBlock, Txids, Retained;
      ghost var read := Read(block, store.rows);
      ghost var staged := Staged(store.tip, store.blocks, store.undo, store.rows);
      ghost var orderly := Orderly() && FreshBlock(reading.hashing, ancestry, block);
      if orderly {
        CleanAdmits(
          reading.hashing, reading.rules, reading.retained, ancestry, store.activation, staged, store.history,
          block, delta);
        KnownFreshExtends(reading, store.blocks, known, ancestry, delta, read);
      }
      var applied := store.ApplyBlock(delta);
      if applied.Err? {
        return Err(StoreFailure(applied.error));
      }
      if applied.value {
        EvidenceExtends(
          reading, store.activation, staged, known, old(store.history), delta, read, store.rows);
        known := known[delta.anchor.height := read];
        appliedAt := source.now;
      }
      r := Ok(applied.value);
    }

    /** Applies the next block; `Ok(false)` when the branch changed under it. */
    method AdvanceOne(pin: Anchor) returns (r: Result<bool, SyncError>)
      requires Valid()
      modifies source`now, store`tip, store`blocks, store`undo, store`rows, store`history, this`known, this`appliedAt
      ensures Valid()
      ensures source.now >= old(source.now)
      ensures r == Ok(true) ==>
        && store.tip.height == old(store.tip).height + 1
        && store.blocks.Keys == old(store.blocks).Keys + {store.tip.height}
        && appliedAt == source.now
      ensures r != Ok(true) ==> unchanged(store) && unchanged(this)
      ensures old(Orderly()) ==> Orderly() && (store.status != RescanRequired ==> !StoreFault(r))
      ensures
        var view := source.script(old(source.now));
        SteadyFrom(source.script, old(source.now)) && old(Ahead(view, pin)) && old(store.tip).height < pin.height ==>
          r == Ok(true) && Ahead(view, pin)
    {
      hide FreshSource, FreshBlock, Clean, Sound, Placed, KnownFresh, ValidStaged, Evidence, CommitAll;
      hide SeenCanonical, CompleteBlock, InterpretBlock, Txids, Indexable, SteadyFrom;
      ghost var view := source.script(source.now);
      ghost var certain :=
        SteadyFrom(source.script, source.now) && Ahead(view, pin) && store.tip.height < pin.height;
      if certain {
        IndexableStep(reading, view, store.rows, store.tip, pin.height);
      }
      var next := ReadNext(pin);
      if next.Err? {
        return Err(next.error);
      }
      if next.value.None? {
        return Ok(false);
      }
      r := ApplyRead(next.value.value.0, next.value.value.1);
    }

    /** Applies blocks up to the pin, counting them; false when the branch changed on the way. */
    method AdvanceTo(pin: Anchor, already: nat) returns (r: Result<(bool, nat), SyncError>)
      requires Valid() && store.tip.height <= pin.height
      modifies source`now, store`tip, store`blocks, store`undo, store`rows, store`history, this`known, this`appliedAt
      ensures Valid()
      ensures r.Ok? ==> r.value.1 - already == store.tip.height - old(store.tip).height
      ensures r.Ok? && r.value.0 ==> store.tip.height == pin.height
      ensures source.now >= old(source.now)
      ensures old(Orderly()) ==> Orderly() && (store.status != RescanRequired ==> !StoreFault(r))
      ensures
        var view := source.script(old(source.now));
        SteadyFrom(source.script, old(source.now)) && old(Ahead(view, pin)) && already == 0 ==>
          r.Ok? && r.value.0 && store.tip == pin
    {
      hide ValidStaged, Evidence, Orderly, Indexable, SteadyFrom;
      ghost var opening, view := source.now, source.script(source.now);
      ghost var certain := SteadyFrom(source.script, source.now) && Ahead(view, pin) && already == 0;
      var applied := already;
      while store.tip.height < pin.height
        invariant Valid() && store.tip.height <= pin.height
        invariant applied - already == store.tip.height - old(store.tip).height
        invariant source.now >= opening
        invariant old(Orderly()) ==> Orderly()
        invariant certain ==> Ahead(view, pin)
        decreases pin.height - store.tip.height
      {
        if certain {
          SteadyStays(source.script, opening, source.now);
        }
        var step := AdvanceOne(pin);
        if step.Err? {
          return Err(step.error);
        }
        if !step.value {
          return Ok((false, applied));
        }
        if applied >= U32_MAX {
          return Err(CounterOverflow);
        }
        applied := applied + 1;
      }
      if certain {
        SharedPinIsTip(reading, view, store.rows, store.tip, pin);
      }
      r := Ok((true, applied));
    }

    method NoteRestart(restarts: nat) returns (r: Result<nat, SyncError>)
      ensures r.Ok? <==> restarts < maxRestarts && restarts < U32_MAX
      ensures r.Ok? ==> r.value == restarts + 1
      ensures !StoreFault(r)
    {
      if restarts >= U32_MAX {
        return Err(CounterOverflow);
      }
      if restarts + 1 > maxRestarts {
        return Err(TooManyBranchChanges);
      }
      r := Ok(restarts + 1);
    }

    /** The last look: the whole pinned chain is indexed and the pin is still on the source's chain. */
    method ConfirmPin(pin: Anchor) returns (r: Result<bool, SyncError>)
      modifies source`now
      ensures !StoreFault(r)
      ensures source.now >= old(source.now)
      ensures r == Ok(true) ==>
        && store.tip == pin
        && source.now > old(source.now)
        && SeenCanonical(source.script, source.now - 1, pin)
      ensures SteadyFrom(source.script, old(source.now)) && PinnedIn(source.script(old(source.now)), pin) && store.tip == pin ==>
        r == Ok(true)
    {
      if store.tip != pin {
        return Ok(false);
      }
      r := PinStillCanonical(pin);
    }

    /** After a stable reconciliation: indexes up to the pin and looks at the pin one last time. */
    method CatchUp(pin: Anchor, already: nat) returns (r: Result<(bool, nat), SyncError>)
      requires Valid() && store.status != RescanRequired && store.tip.height <= pin.height
      modifies source`now, store`tip, store`blocks, store`undo, store`rows, store`history, store`status
      modifies this`known, this`appliedAt
      ensures Valid()
      ensures store.status != RescanRequired
      ensures r.Ok? ==> r.value.1 - already == store.tip.height - old(store.tip).height
      ensures r.Ok? && r.value.0 ==>
        && store.tip == pin
        && appliedAt < source.now
        && SeenCanonical(source.script, source.now - 1, pin)
      ensures source.now >= old(source.now)
      ensures old(Orderly()) ==> Orderly() && !StoreFault(r)
      ensures
        var view := source.script(old(source.now));
        SteadyFrom(source.script, old(source.now)) && old(Ahead(view, pin)) && already == 0 ==> r.Ok? && r.value.0
    {
      hide ValidStaged, Evidence, Clean, FreshSource, KnownFresh, Sound, Placed, Indexable, SteadyFrom, SeenCanonical;
      ghost var opening := source.now;
      ghost var certain := SteadyFrom(source.script, opening) && Ahead(source.script(opening), pin) && already == 0;
      if store.tip.height < pin.height {
        var _ := store.SetStatus(Syncing);
      }
      r := AdvanceTo(pin, already);
      if r.Err? || !r.value.0 {
        return;
      }
      if certain {
        SteadyStays(source.script, opening, source.now);
      }
      var confirmed := ConfirmPin(pin);
      if confirmed.Err? {
        return Err(confirmed.error);
      }
      r := Ok((confirmed.value, r.value.1));
    }

    /** One look at the pin: settled, or why the pass must be repeated. */
    method Settle(pin: Anchor, applied: nat) returns (r: Result<Pass, SyncError>)
      requires Valid() && store.status != RescanRequired
      modifies source`now, store`tip, store`blocks, store`undo, store`rows, store`history, store`status
      modifies this`known, this`appliedAt
      ensures Valid()
      ensures (r.Ok? && r.value.NeedsRescan?) || store.status != RescanRequired
      ensures r.Ok? && r.value.NeedsRescan? ==> store.status == RescanRequired
      ensures r.Ok? && r.value.Settled? ==>
        && store.tip == pin
        && appliedAt < source.now
        && SeenCanonical(source.script, source.now - 1, pin)
      ensures r.Ok? && r.value.Lowered? ==>
        && 0 < r.value.depth
        && store.tip.height + r.value.depth == old(store.tip).height
      ensures r.Ok? && (r.value.Settled? || r.value.Disturbed?) ==>
        r.value.applied - applied == store.tip.height - old(store.tip).height
      ensures source.now >= old(source.now)
      ensures old(Orderly()) ==> Orderly() && !StoreFault(r)
      ensures
        var view := source.script(old(source.now));
        SteadyFrom(source.script, old(source.now)) && old(Ahead(view, pin)) && applied == 0 ==>
          r.Ok? && r.value.Settled?
      ensures
        var view := source.script(old(source.now));
        SteadyFrom(source.script, old(source.now)) && old(Behind(view, pin)) ==>
          && r == Ok(Pass.Lowered(CommonDepth(view, old(store.tip), old(store.blocks), pin, 1)))
          && Ahead(view, pin)
    {
      hide ValidStaged, Evidence, CommonDepth, SeenCanonical, Orderly, Indexable, SteadyFrom, SearchAnswers, CanonicalAnchor;
      ghost var opening := source.now;
      if Ahead(source.script(opening), pin) {
        AheadIsShared(reading, source.script(opening), store.rows, store.tip, store.blocks, pin);
      }
      var reconciled := Reconcile(pin);
      if SteadyFrom(source.script, opening) {
        SteadyStays(source.script, opening, source.now);
      }
      if reconciled.Err? {
        return Err(reconciled.error);
      }
      match reconciled.value {
        case Stable =>
          var advanced := CatchUp(pin, applied);
          if advanced.Err? {
            return Err(advanced.error);
          }
          r := Ok(if advanced.value.0 then Settled(advanced.value.1) else Disturbed(advanced.value.1));
        case Back(depth) =>
          r := Ok(Pass.Lowered(depth));
        case Restart =>
          r := Ok(Disturbed(applied));
        case RescanNeeded =>
          r := Ok(NeedsRescan);
      }
    }

    /** What a steady source is owed: it is on the way to the view's tip, directly or after a rollback. */
    ghost predicate OnTheWay(view: ChainView)
      reads this, store
    {
      view.tip.Ok? && (Ahead(view, view.tip.value) || Behind(view, view.tip.value))
    }

    /** Blocks to undo first. */
    ghost function DepthDue(view: ChainView): nat
      requires view.tip.Ok?
      reads this, store
    {
      if Ahead(view, view.tip.value) then 0 else CommonDepth(view, store.tip, store.blocks, view.tip.value, 1)
    }

    /** Ready at a tip seen canonical after the last block, with counters that follow the tip. */
    ghost predicate Reports(report: Report, startingTip: Anchor)
      reads this, source, store
    {
      && store.status == SyncStatus.Ready
      && report.indexedTip == store.tip
      && report.startingTip == startingTip
      && store.tip.height + report.blocksRolledBack == startingTip.height + report.blocksApplied
      && report.branchRestarts <= maxRestarts
      && exists t :: appliedAt <= t < source.now && SeenCanonical(source.script, t, store.tip)
    }

    /** One pass: pins the source's tip and settles on it. */
    method OnePass(applied: nat) returns (r: Result<(Anchor, Pass), SyncError>)
      requires Valid() && store.status != RescanRequired
      modifies source`now, store`tip, store`blocks, store`undo, store`rows, store`history, store`status
      modifies this`known, this`appliedAt
      ensures Valid()
      ensures source.now >= old(source.now)
      ensures (r.Ok? && r.value.1.NeedsRescan?) <==> store.status == RescanRequired
      ensures r.Ok? && r.value.1.Settled? ==>
        exists t :: appliedAt <= t < source.now && SeenCanonical(source.script, t, store.tip)
      ensures r.Ok? && r.value.1.Lowered? ==>
        0 < r.value.1.depth && store.tip.height + r.value.1.depth == old(store.tip).height
      ensures r.Ok? && (r.value.1.Settled? || r.value.1.Disturbed?) ==>
        r.value.1.applied - applied == store.tip.height - old(store.tip).height
      ensures old(Orderly()) ==> Orderly() && !StoreFault(r)
      ensures
        var view := source.script(old(source.now));
        SteadyFrom(source.script, old(source.now)) && old(OnTheWay(view)) && applied == 0 ==>
          && r.Ok?
          && (old(DepthDue(view)) == 0 ==> r.value.1.Settled? && store.tip == view.tip.value)
          && (old(DepthDue(view)) > 0 ==>
                r.value.1 == Pass.Lowered(old(DepthDue(view))) && OnTheWay(view) && DepthDue(view) == 0)
          && old(DepthDue(view)) <= UNDO_RETENTION_BLOCKS
    {
      hide ValidStaged, Evidence, Orderly, Indexable, SteadyFrom, SeenCanonical, CommonDepth, SearchAnswers, CanonicalAnchor;
      ghost var opening, view := source.now, source.script(source.now);
      if SteadyFrom(source.script, opening) && view.tip.Ok? {
        SteadyStays(source.script, opening, opening + 1);
        DepthWithinWindow(view, store.tip, store.blocks, view.tip.value);
      }
      var pin := source.Tip();
      if pin.Err? {
        return Err(ChainSource(pin.error));
      }
      var pass := Settle(pin.value, applied);
      if pass.Err? {
        return Err(pass.error);
      }
      r := Ok((pin.value, pass.value));
    }

    /** Passes over the source until one settles, asks for a rescan or uses up the restarts. */
    method Passes() returns (r: Result<SyncOutcome, SyncError>)
      requires Valid() && store.status != RescanRequired
      modifies source`now, store`tip, store`blocks, store`undo, store`rows, store`history, store`status
      modifies this`known, this`appliedAt
      ensures Valid()
      ensures r.Ok? && r.value.ReadyAt? ==> Reports(r.value.report, old(store.tip))
      ensures r.Ok? && r.value.Rescan? ==> store.status == RescanRequired && r.value.indexedTip == store.tip
      ensures old(Orderly()) ==> Orderly() && !StoreFault(r)
      ensures
        var view := source.script(old(source.now));
        SteadyFrom(source.script, old(source.now)) && old(OnTheWay(view)) ==>
          && r.Ok? && r.value.ReadyAt? && store.tip == view.tip.value
          && r.value.report.branchRestarts == 0 && r.value.report.blocksRolledBack == old(DepthDue(view))
    {
      hide ValidStaged, Evidence, Clean, FreshSource, KnownFresh, Sound, Placed, SteadyFrom, SeenCanonical;
      hide Ahead, Behind, DepthDue;
      var startingTip := store.tip;
      ghost var opening, view := source.now, source.script(source.now);
      ghost var certain := SteadyFrom(source.script, opening) && OnTheWay(view);
      ghost var due := if certain then DepthDue(view) else 0;
      var applied, rolledBack, restarts := 0, 0, 0;
      while true
        invariant Valid() && store.status != RescanRequired
        invariant source.now >= opening
        invariant restarts <= maxRestarts
        invariant old(Orderly()) ==> Orderly()
        invariant store.tip.height + rolledBack == startingTip.height + applied
        invariant certain ==>
          && applied == 0 && restarts == 0 && OnTheWay(view)
          && rolledBack + DepthDue(view) == due && (rolledBack == 0 || DepthDue(view) == 0)
        decreases maxRestarts - restarts, store.tip.height
      {
        if certain {
          SteadyStays(source.script, opening, source.now);
        }
        var pass := OnePass(applied);
        if pass.Err? {
          return Err(pass.error);
        }
        match pass.value.1 {
          case Settled(total) =>
            var _ := store.SetStatus(SyncStatus.Ready);
            return Ok(ReadyAt(Report(startingTip, store.tip, total, rolledBack, restarts)));
          case Lowered(depth) =>
            if rolledBack + depth > U32_MAX {
              return Err(CounterOverflow);
            }
            rolledBack := rolledBack + depth;
          case NeedsRescan =>
            return Ok(Rescan(store.tip, pass.value.0));
          case Disturbed(total) =>
            applied := total;
            var noted := NoteRestart(restarts);
            if noted.Err? {
              return Err(noted.error);
            }
            restarts := noted.value;
        }
      }
    }

    /**
     Synchronizes for every source behaviour: each pass either finishes, lowers the indexed tip or uses
     up a restart. Ready is reported only for a stored tip that was seen canonical after the last block
     was applied, and every return leaves the checkpoints linked and backed by the blocks read. On branches
     that repeat no transaction id the store never refuses what it is given. Against a source that stays as
     it is, whose chain the store is on or left within what it can undo, and whose blocks can be
     interpreted, it ends Ready at the source's tip without a restart.
     */
    method SyncToTip() returns (r: Result<SyncOutcome, SyncError>)
      requires Valid()
      modifies source`now, store`tip, store`blocks, store`undo, store`rows, store`history, store`status
      modifies this`known, this`appliedAt
      ensures Valid()
      ensures r.Ok? && r.value.ReadyAt? ==> Reports(r.value.report, old(store.tip))
      ensures r.Ok? && r.value.Rescan? ==> store.status == RescanRequired && r.value.indexedTip == store.tip
      ensures old(Orderly()) ==> Orderly() && !StoreFault(r)
      ensures
        var view := source.script(old(source.now));
        SteadyFrom(source.script, old(source.now)) && old(OnTheWay(view)) ==>
          && r.Ok? && r.value.ReadyAt? && store.tip == view.tip.value
          && r.value.report.branchRestarts == 0 && r.value.report.blocksRolledBack == old(DepthDue(view))
    {
      hide ValidStaged, Evidence, Clean, FreshSource, KnownFresh, Sound, Placed, Indexable, SteadyFrom, SeenCanonical;
      hide CommonDepth, SearchAnswers, CanonicalAnchor;
      if store.status == RescanRequired {
        var indexedTip := store.tip;
        var sourceTip := source.Tip();
        if sourceTip.Err? {
          return Err(ChainSource(sourceTip.error));
        }
        return Ok(Rescan(indexedTip, sourceTip.value));
      }
      if store.status == Starting || store.status == BackendUnavailable {
        var _ := store.SetStatus(Syncing);
      }
      r := Passes();
    }
  }
}
