/** The quote-facing gate between wallet scans and durable inventory allocation. */
module Inventory {
  import opened Types

  /** A wallet output: what the inventory records of it, and the raw output itself. */
  datatype Output = Output(item: Item, utxo: nat)

  datatype Item = Item(outpoint: OutPoint, asset: AssetId, amount: U64, binding: nat)

  datatype Scan = Scan(identity: nat, anchor: nat, commitment: nat, outputs: seq<Output>)

  datatype Token = Token(generation: nat, commitment: nat, observedAt: nat)

  datatype Published = Published(token: Token, anchor: nat, outputs: seq<Output>)

  datatype Eligible = Eligible(token: Token, anchor: nat, revision: nat, commitment: nat, outputs: seq<Output>)

  /** Who asks for a quote, under which key. */
  datatype Requester = Requester(owner: nat, key: nat)

  datatype QuotedInput = QuotedInput(outpoint: OutPoint, utxo: nat, binding: nat)

  datatype Draft = Draft(
    anchor: nat, commitment: nat, revision: nat, eligibleCommitment: nat, asset: AssetId, inputs: seq<QuotedInput>)

  datatype Binding = Binding(digest: nat, outpoints: seq<OutPoint>)

  datatype Outcome = Outcome(outpoints: seq<OutPoint>, created: bool)

  datatype InventoryError =
    | SourceFailure
    | IdentityMismatch
    | SnapshotTooLarge
    | GenerationOverflow
    | NoPublishedSnapshot
    | SnapshotObservedInFuture
    | SnapshotStale
    | SnapshotSuperseded
    | OutpointNotEligible
    | ClockRegression
    | DuplicateOutpoint
    | MetadataConflict
    | CorruptState
    | EligibleInventoryChanged
    | SnapshotMismatch
    | InventoryMismatch
    | IdempotencyConflict
    | OutpointUnavailable

  /** What other holders of the book have written: more records and requests, any allocations, a later time. */
  datatype Change = Change(
    records: map<OutPoint, Item>, bindings: map<Requester, Binding>, allocations: map<OutPoint, nat>,
    revisions: nat, time: nat)

  /** The time each look at the clock shows, and what other holders have written by each moment, if anything. */
  datatype World = World(clock: nat -> nat, interference: nat -> Option<Change>)

  predicate Before(left: OutPoint, right: OutPoint) {
    left.txid < right.txid || (left.txid == right.txid && left.vout < right.vout)
  }

  predicate Sorted(outputs: seq<Output>) {
    forall i :: 0 <= i < |outputs| - 1 ==> Before(outputs[i].item.outpoint, outputs[i + 1].item.outpoint)
  }

  /** The outputs not durably allocated, in order. */
  function Unallocated(outputs: seq<Output>, allocations: map<OutPoint, nat>): seq<Output> {
    if outputs == [] then
      []
    else
      var k := |outputs| - 1;
      Unallocated(outputs[..k], allocations) +
      if outputs[k].item.outpoint in allocations then [] else [outputs[k]]
  }

  lemma {:induction false} UnallocatedExactly(outputs: seq<Output>, allocations: map<OutPoint, nat>, output: Output)
    ensures output in Unallocated(outputs, allocations) <==>
      output in outputs && output.item.outpoint !in allocations
  {
    if outputs != [] {
      var k := |outputs| - 1;
      UnallocatedExactly(outputs[..k], allocations, output);
      assert outputs == outputs[..k] + [outputs[k]];
    }
  }

  predicate DistinctOutpoints(outputs: seq<Output>) {
    forall i, j :: 0 <= i < j < |outputs| ==> outputs[i].item.outpoint != outputs[j].item.outpoint
  }

  lemma {:induction false} SortedOrder(outputs: seq<Output>, i: nat, j: nat)
    requires Sorted(outputs) && i < j < |outputs|
    ensures Before(outputs[i].item.outpoint, outputs[j].item.outpoint)
    decreases j
  {
    if i + 1 < j {
      SortedOrder(outputs, i, j - 1);
    }
  }

  /** Eligible outputs of a sorted scan have distinct outpoints. */
  lemma {:induction false} UnallocatedDistinct(outputs: seq<Output>, allocations: map<OutPoint, nat>)
    requires Sorted(outputs)
    ensures DistinctOutpoints(Unallocated(outputs, allocations))
  {
    if outputs != [] {
      var k := |outputs| - 1;
      UnallocatedDistinct(outputs[..k], allocations);
      var rest := Unallocated(outputs[..k], allocations);
      forall i | 0 <= i < |rest|
        ensures rest[i].item.outpoint != outputs[k].item.outpoint
      {
        UnallocatedExactly(outputs[..k], allocations, rest[i]);
        var m :| 0 <= m < k && outputs[m] == rest[i];
        SortedOrder(outputs, m, k);
      }
    }
  }

  function Items(outputs: seq<Output>): (items: seq<Item>)
    ensures |items| == |outputs| && forall i :: 0 <= i < |outputs| ==> items[i] == outputs[i].item
  {
    seq(|outputs|, i requires 0 <= i < |outputs| => outputs[i].item)
  }

  function OutpointsOf(inputs: seq<QuotedInput>): (points: seq<OutPoint>)
    ensures |points| == |inputs| && forall i :: 0 <= i < |inputs| ==> points[i] == inputs[i].outpoint
  {
    seq(|inputs|, i requires 0 <= i < |inputs| => inputs[i].outpoint)
  }

  predicate DistinctItems(items: seq<Item>) {
    forall i, j :: 0 <= i < j < |items| ==> items[i].outpoint != items[j].outpoint
  }

  /** The latest time seen once the clock has been read: a reading before it is refused and changes nothing. */
  function Advanced(last: Option<nat>, now: nat): Option<nat> {
    if last.Some? && now < last.value then last else Some(now)
  }

  /** Durable inventory: append-only records, allocations with their revision, request bindings, last time seen. */
  class Book {
    const identity: nat
    const world: World
    var records: map<OutPoint, Item>
    var allocations: map<OutPoint, nat>
    var revision: nat
    var lastTime: Option<nat>
    var bindings: map<Requester, Binding>
    var ticks: nat
    var quotes: nat

    constructor (identity: nat, world: World)
      ensures this.identity == identity && this.world == world
      ensures records == map[] && allocations == map[] && bindings == map[] && lastTime == None && revision == 0
    {
      this.identity := identity;
      this.world := world;
      records, allocations, bindings := map[], map[], map[];
      revision, lastTime, ticks, quotes := 0, None, 0, 0;
    }

    method Now() returns (now: nat)
      modifies this`ticks
      ensures now == world.clock(old(ticks))
    {
      now := world.clock(ticks);
      ticks := ticks + 1;
    }

    /** Looks at the clock and remembers the time; a clock that went back is refused. */
    method ObserveTime() returns (r: Result<nat, InventoryError>)
      modifies this`ticks, this`lastTime
      ensures r.Ok? <==> (old(lastTime).Some? ==> old(lastTime).value <= world.clock(old(ticks)))
      ensures r.Ok? ==> r.value == world.clock(old(ticks)) && lastTime == Some(r.value)
      ensures r.Err? ==> lastTime == old(lastTime)
    {
      var now := Now();
      if lastTime.Some? && now < lastTime.value {
        return Err(ClockRegression);
      }
      lastTime := Some(now);
      r := Ok(now);
    }

    /**
     Other holders of the book take their turns: they may add records and requests, change allocations and
     observe a later time. Records and requests stay, time does not go back, and every change of the
     allocations raises the revision.
     */
    method Interfere()
      modifies this`ticks, this`records, this`bindings, this`allocations, this`revision, this`lastTime
      ensures forall o :: o in old(records) ==> o in records && records[o] == old(records)[o]
      ensures forall who :: who in old(bindings) ==> who in bindings && bindings[who] == old(bindings)[who]
      ensures old(lastTime).Some? ==> lastTime.Some? && lastTime.value >= old(lastTime).value
      ensures revision >= old(revision)
      ensures revision == old(revision) ==> allocations == old(allocations)
    {
      var turn := world.interference(ticks);
      ticks := ticks + 1;
      if turn.None? {
        return;
      }
      var change := turn.value;
      records := change.records + records;
      bindings := change.bindings + bindings;
      lastTime := Advanced(lastTime, change.time);
      revision := revision + change.revisions;
      if change.allocations != allocations {
        allocations := change.allocations;
        revision := revision + 1;
      }
    }

    /** Imports one complete scan, or nothing: recorded metadata never changes. */
    method ImportBatch(items: seq<Item>, now: nat) returns (r: Result<(), InventoryError>)
      modifies this`records, this`lastTime
      ensures r.Ok? <==>
        && DistinctItems(items)
        && (old(lastTime).Some? ==> old(lastTime).value <= now)
        && forall i :: 0 <= i < |items| && items[i].outpoint in old(records) ==> old(records)[items[i].outpoint] == items[i]
      ensures r.Ok? ==>
        && lastTime == Some(now)
        && (forall o :: o in old(records) ==> o in records && records[o] == old(records)[o])
        && (forall o :: o in records && o !in old(records) ==> exists i :: 0 <= i < |items| && items[i].outpoint == o)
        && (forall i :: 0 <= i < |items| ==> items[i].outpoint in records && records[items[i].outpoint] == items[i])
      ensures r.Err? ==> records == old(records) && lastTime == old(lastTime)
    {
      var unique: set<OutPoint> := {};
      for i := 0 to |items|
        invariant unique == set k | 0 <= k < i :: items[k].outpoint
        invariant forall j, k :: 0 <= j < k < i ==> items[j].outpoint != items[k].outpoint
      {
        if items[i].outpoint in unique {
          return Err(DuplicateOutpoint);
        }
        unique := unique + {items[i].outpoint};
      }
      if lastTime.Some? && now < lastTime.value {
        return Err(ClockRegression);
      }
      var pending: map<OutPoint, Item> := map[];
      for i := 0 to |items|
        invariant forall o :: o in pending ==> o !in records
        invariant forall k :: 0 <= k < i ==>
          var o := items[k].outpoint;
          if o in records then records[o] == items[k] else o in pending && pending[o] == items[k]
        invariant forall o :: o in pending ==> exists k :: 0 <= k < i && items[k].outpoint == o
      {
        var o := items[i].outpoint;
        if o in records {
          if records[o] != items[i] {
            return Err(MetadataConflict);
          }
        } else {
          pending := pending[o := items[i]];
        }
      }
      records := records + pending;
      lastTime := Some(now);
      r := Ok(());
    }

    /** An exact earlier request is answered again without allocating anything. */
    method Replay(who: Requester, digest: nat) returns (r: Result<Option<Outcome>, InventoryError>)
      modifies this`ticks, this`lastTime
      ensures r.Ok? <==>
        && (old(lastTime).Some? ==> old(lastTime).value <= world.clock(old(ticks)))
        && (who in bindings ==> bindings[who].digest == digest)
      ensures r.Ok? ==>
        r.value == if who in bindings then Some(Outcome(bindings[who].outpoints, false)) else None
      ensures lastTime == Advanced(old(lastTime), world.clock(old(ticks)))
    {
      var now := ObserveTime();
      if now.Err? {
        return Err(now.error);
      }
      if who !in bindings {
        return Ok(None);
      }
      if bindings[who].digest != digest {
        return Err(IdempotencyConflict);
      }
      r := Ok(Some(Outcome(bindings[who].outpoints, false)));
    }

    predicate Reservable(draft: Draft)
      reads this
    {
      forall i :: 0 <= i < |draft.inputs| ==>
        var input := draft.inputs[i];
        && input.outpoint in records
        && records[input.outpoint].asset == draft.asset
        && records[input.outpoint].binding == input.binding
        && input.outpoint !in allocations
    }

    /**
     Allocates the inputs of a new quote at one revision, or changes no allocation. The time was committed
     before the attempt, so it is kept however the attempt ends.
     */
    method Reserve(who: Requester, digest: nat, draft: Draft, observedAt: nat, maxAge: nat)
      returns (r: Result<Outcome, InventoryError>)
      modifies this`ticks, this`lastTime, this`allocations, this`revision, this`bindings, this`quotes
      ensures r.Ok? && r.value.created <==>
        && (old(lastTime).Some? ==> old(lastTime).value <= world.clock(old(ticks)))
        && observedAt <= world.clock(old(ticks)) < observedAt + maxAge
        && old(who !in bindings) && old(revision) == draft.revision && old(Reservable(draft))
      ensures lastTime == Advanced(old(lastTime), world.clock(old(ticks)))
      ensures r.Ok? && r.value.created ==>
        && r.value.outpoints == OutpointsOf(draft.inputs)
        && allocations == Allocated(old(allocations), OutpointsOf(draft.inputs), quotes)
        && revision == old(revision) + 1
        && bindings == old(bindings)[who := Binding(digest, OutpointsOf(draft.inputs))]
      ensures !(r.Ok? && r.value.created) ==>
        allocations == old(allocations) && revision == old(revision) && bindings == old(bindings)
    {
      var observed := ObserveTime();
      if observed.Err? {
        return Err(observed.error);
      }
      var now := observed.value;
      if who in bindings {
        if bindings[who].digest != digest {
          return Err(IdempotencyConflict);
        }
        return Ok(Outcome(bindings[who].outpoints, false));
      }
      if now < observedAt {
        return Err(SnapshotObservedInFuture);
      }
      if now - observedAt >= maxAge {
        return Err(SnapshotStale);
      }
      if revision != draft.revision {
        return Err(EligibleInventoryChanged);
      }
      for i := 0 to |draft.inputs|
        invariant forall k :: 0 <= k < i ==>
          var input := draft.inputs[k];
          && input.outpoint in records
          && records[input.outpoint].asset == draft.asset
          && records[input.outpoint].binding == input.binding
          && input.outpoint !in allocations
      {
        var input := draft.inputs[i];
        if input.outpoint !in records {
          return Err(InventoryMismatch);
        }
        if records[input.outpoint].asset != draft.asset || records[input.outpoint].binding != input.binding {
          return Err(InventoryMismatch);
        }
        if input.outpoint in allocations {
          return Err(OutpointUnavailable);
        }
      }
      quotes := quotes + 1;
      allocations := Allocated(allocations, OutpointsOf(draft.inputs), quotes);
      revision := revision + 1;
      bindings := bindings[who := Binding(digest, OutpointsOf(draft.inputs))];
      r := Ok(Outcome(OutpointsOf(draft.inputs), true));
    }
  }

  function Allocated(allocations: map<OutPoint, nat>, outpoints: seq<OutPoint>, quote: nat): map<OutPoint, nat> {
    allocations + map o | o in outpoints :: quote
  }

  datatype Policy = Policy(maxAge: nat, maxOutputs: nat)

  /** A scan's outputs under the token of its publication. */
  predicate Publishes(published: Published, scan: Scan) {
    && published.outputs == scan.outputs && published.anchor == scan.anchor
    && published.token.commitment == scan.commitment
  }

  /** A quoted input is backed by an output: same outpoint, asset, raw output and binding. */
  predicate Backs(output: Output, input: QuotedInput, asset: AssetId) {
    && output.item.outpoint == input.outpoint
    && output.item.asset == asset && output.utxo == input.utxo && output.item.binding == input.binding
  }

  ghost predicate SomeBacks(outputs: seq<Output>, input: QuotedInput, asset: AssetId) {
    exists o :: o in outputs && Backs(o, input, asset)
  }

  ghost predicate Backed(draft: Draft, outputs: seq<Output>) {
    forall i :: 0 <= i < |draft.inputs| ==> SomeBacks(outputs, draft.inputs[i], draft.asset)
  }

  class Coordinator {
    const book: Book
    const policy: Policy
    /** What each scan of the wallet returns, if it returns. */
    const source: nat -> Option<Scan>
    /** The commitment to a list of eligible outputs. */
    const hash: seq<Output> -> nat
    var scans: nat
    var generation: nat
    var latest: Option<Published>
    /** The last scan the source returned, accepted or not. */
    ghost var lastScan: Option<Scan>
    /** Every publication so far, by generation. */
    ghost var issued: seq<Published>

    ghost predicate Valid()
      reads this
    {
      && |issued| == generation
      && (forall g :: 0 <= g < generation ==> issued[g].token.generation == g + 1)
      && (latest.Some? ==>
            && generation > 0 && latest.value == issued[generation - 1]
            && lastScan.Some? && Publishes(latest.value, lastScan.value))
    }

    constructor (book: Book, policy: Policy, source: nat -> Option<Scan>, hash: seq<Output> -> nat)
      ensures Valid() && latest == None && generation == 0 && lastScan == None
      ensures this.book == book && this.policy == policy && this.source == source && this.hash == hash
    {
      this.book := book;
      this.policy := policy;
      this.source := source;
      this.hash := hash;
      scans, generation, latest := 0, 0, None;
      lastScan, issued := None, [];
    }

    /** The durable intersection: the published outputs no one has allocated. */
    method EligibleFromSnapshot(published: Published) returns (r: Result<Eligible, InventoryError>)
      ensures r.Ok? ==>
        && r.value.token == published.token && r.value.anchor == published.anchor
        && r.value.revision == book.revision
        && r.value.outputs == Unallocated(published.outputs, book.allocations)
        && r.value.commitment == hash(r.value.outputs)
      ensures r.Ok? <==>
        Sorted(published.outputs) && Recorded(published.outputs)
    {
      if !Sorted(published.outputs) {
        return Err(CorruptState);
      }
      var outputs: seq<Output> := [];
      for i := 0 to |published.outputs|
        invariant outputs == Unallocated(published.outputs[..i], book.allocations)
        invariant forall k :: 0 <= k < i ==>
          var item := published.outputs[k].item;
          item.outpoint in book.records && book.records[item.outpoint] == item
      {
        var output := published.outputs[i];
        assert published.outputs[..i + 1][..i] == published.outputs[..i];
        if output.item.outpoint !in book.records || book.records[output.item.outpoint] != output.item {
          return Err(CorruptState);
        }
        if output.item.outpoint !in book.allocations {
          outputs := outputs + [output];
        }
      }
      assert published.outputs[..|published.outputs|] == published.outputs;
      r := Ok(Eligible(published.token, published.anchor, book.revision, hash(outputs), outputs));
    }

    /**
     Runs one scan. A scan the source does not return leaves the last publication; one it returns replaces
     it, or, if anything about it is rejected, leaves nothing published at all.
     */
    method Refresh() returns (r: Result<Eligible, InventoryError>)
      requires Valid()
      modifies this`scans, this`generation, this`latest, this`lastScan, this`issued
      modifies book`ticks, book`records, book`lastTime
      ensures Valid()
      ensures source(old(scans)).None? ==>
        r == Err(SourceFailure) && latest == old(latest) && lastScan == old(lastScan) && generation == old(generation)
      ensures source(old(scans)).Some? ==> lastScan == source(old(scans))
      ensures source(old(scans)).Some? && r.Err? ==> latest == None && generation == old(generation)
      ensures r.Ok? ==>
        && latest.Some? && generation == old(generation) + 1 && issued == old(issued) + [latest.value]
        && r.value.outputs == Unallocated(lastScan.value.outputs, book.allocations)
        && r.value.token == latest.value.token
    {
      var returned := source(scans);
      scans := scans + 1;
      if returned.None? {
        return Err(SourceFailure);
      }
      var scan := returned.value;
      latest := None;
      lastScan := returned;
      if scan.identity != book.identity {
        return Err(IdentityMismatch);
      }
      if |scan.outputs| > policy.maxOutputs {
        return Err(SnapshotTooLarge);
      }
      if generation >= U64_MAX {
        return Err(GenerationOverflow);
      }
      var now := book.Now();
      var imported := book.ImportBatch(Items(scan.outputs), now);
      if imported.Err? {
        return Err(imported.error);
      }
      var published := Published(Token(generation + 1, scan.commitment, now), scan.anchor, scan.outputs);
      r := EligibleFromSnapshot(published);
      if r.Err? {
        return;
      }
      generation := generation + 1;
      latest := Some(published);
      issued := issued + [published];
    }

    /** The publication, if its age allows quoting from it at the given time. */
    method RequireFresh(now: nat) returns (r: Result<Published, InventoryError>)
      ensures r.Ok? <==> Recent(now)
      ensures r.Ok? ==> Some(r.value) == latest
    {
      if book.lastTime.Some? && now < book.lastTime.value {
        return Err(ClockRegression);
      }
      if latest.None? {
        return Err(NoPublishedSnapshot);
      }
      var observedAt := latest.value.token.observedAt;
      if now < observedAt {
        return Err(SnapshotObservedInFuture);
      }
      if now - observedAt >= policy.maxAge {
        return Err(SnapshotStale);
      }
      r := Ok(latest.value);
    }

    /** Re-evaluates availability: only outputs of the last scan, and all of those not allocated. */
    method CurrentlyEligible() returns (r: Result<Eligible, InventoryError>)
      requires Valid()
      modifies book`ticks
      ensures r.Ok? ==>
        && lastScan.Some? && latest.Some? && r.value.token == latest.value.token
        && r.value.outputs == Unallocated(lastScan.value.outputs, book.allocations)
      ensures r.Ok? <==>
        && Recent(book.world.clock(old(book.ticks)))
        && Sorted(latest.value.outputs) && Recorded(latest.value.outputs)
    {
      var now := book.Now();
      var recent := RequireFresh(now);
      if recent.Err? {
        return Err(recent.error);
      }
      r := EligibleFromSnapshot(recent.value);
    }

    /** Every quoted input must be one of the eligible outputs, in full. */
    method CheckInputs(draft: Draft, eligible: Eligible) returns (r: Result<(), InventoryError>)
      requires DistinctOutpoints(eligible.outputs)
      ensures r.Ok? <==> Backed(draft, eligible.outputs)
    {
      for i := 0 to |draft.inputs|
        invariant forall k :: 0 <= k < i ==> SomeBacks(eligible.outputs, draft.inputs[k], draft.asset)
      {
        var found: Option<Output> := None;
        for j := 0 to |eligible.outputs|
          invariant found.Some? ==>
            found.value in eligible.outputs && found.value.item.outpoint == draft.inputs[i].outpoint
          invariant found.None? ==> forall k :: 0 <= k < j ==> eligible.outputs[k].item.outpoint != draft.inputs[i].outpoint
        {
          if found.None? && eligible.outputs[j].item.outpoint == draft.inputs[i].outpoint {
            found := Some(eligible.outputs[j]);
          }
        }
        if found.None? {
          assert !SomeBacks(eligible.outputs, draft.inputs[i], draft.asset);
          return Err(OutpointNotEligible);
        }
        if !Backs(found.value, draft.inputs[i], draft.asset) {
          assert !SomeBacks(eligible.outputs, draft.inputs[i], draft.asset);
          return Err(InventoryMismatch);
        }
      }
      r := Ok(());
    }

    /** The publication's age allows quoting from it at the given time. */
    predicate Recent(now: nat)
      reads this, book
    {
      && (book.lastTime.Some? ==> book.lastTime.value <= now)
      && latest.Some?
      && latest.value.token.observedAt <= now < latest.value.token.observedAt + policy.maxAge
    }

    predicate Recorded(outputs: seq<Output>)
      reads book
    {
      forall i :: 0 <= i < |outputs| ==>
        var item := outputs[i].item;
        item.outpoint in book.records && book.records[item.outpoint] == item
    }

    /** A draft made from the current publication, revision and eligible outputs, within their age. */
    ghost predicate Quotable(now: nat, eligible: Eligible, draft: Draft)
      reads this, book
    {
      && Recent(now)
      && latest.value.token == eligible.token
      && Sorted(latest.value.outputs) && Recorded(latest.value.outputs)
      && draft.revision == book.revision
      && draft.eligibleCommitment == hash(Unallocated(latest.value.outputs, book.allocations))
      && draft.anchor == latest.value.anchor && draft.commitment == latest.value.token.commitment
      && Backed(draft, Unallocated(latest.value.outputs, book.allocations))
    }

    /** The checks made under the scan lock before the book is asked to allocate. */
    method AdmitQuote(eligible: Eligible, draft: Draft) returns (r: Result<Published, InventoryError>)
      requires Valid()
      modifies book`ticks
      ensures r.Ok? <==> Quotable(book.world.clock(old(book.ticks)), eligible, draft)
      ensures r.Ok? ==> latest == Some(r.value)
    {
      var now := book.Now();
      var recent := RequireFresh(now);
      if recent.Err? {
        return Err(recent.error);
      }
      var published := recent.value;
      if published.token != eligible.token {
        return Err(SnapshotSuperseded);
      }
      var current := EligibleFromSnapshot(published);
      if current.Err? {
        return Err(current.error);
      }
      if draft.revision != current.value.revision || draft.eligibleCommitment != current.value.commitment {
        return Err(EligibleInventoryChanged);
      }
      if draft.anchor != published.anchor || draft.commitment != published.token.commitment {
        return Err(SnapshotMismatch);
      }
      UnallocatedDistinct(published.outputs, book.allocations);
      var checked := CheckInputs(draft, current.value);
      if checked.Err? {
        return Err(checked.error);
      }
      r := Ok(published);
    }

    /**
     Creates a firm quote, other holders of the book writing to it before and after the checks. A newly
     created quote uses only outputs of the last scan the source returned, none of them allocated when the book
     took them, and that scan younger than the maximum age; with nothing published none is created.
     */
    method ReserveFirmQuote(eligible: Eligible, who: Requester, digest: nat, draft: Draft)
      returns (r: Result<Outcome, InventoryError>, ghost available: map<OutPoint, nat>)
      requires Valid()
      modifies book`ticks, book`lastTime, book`records, book`allocations, book`revision, book`bindings, book`quotes
      ensures Valid()
      ensures r.Ok? && r.value.created ==>
        && latest.Some? && latest.value.token == eligible.token
        && lastScan.Some? && Publishes(latest.value, lastScan.value)
        && Backed(draft, lastScan.value.outputs)
        && r.value.outpoints == OutpointsOf(draft.inputs)
        && (forall i :: 0 <= i < |draft.inputs| ==> draft.inputs[i].outpoint !in available)
        && book.allocations == Allocated(available, OutpointsOf(draft.inputs), book.quotes)
        && book.lastTime.Some?
        && latest.value.token.observedAt <= book.lastTime.value < latest.value.token.observedAt + policy.maxAge
      ensures latest.None? ==> r.Err? || !r.value.created
    {
      available := book.allocations;
      var replayed := book.Replay(who, digest);
      if replayed.Err? {
        return Err(replayed.error), available;
      }
      if replayed.value.Some? {
        return Ok(replayed.value.value), available;
      }
      book.Interfere();
      available := book.allocations;
      var admitted := AdmitQuote(eligible, draft);
      if admitted.Err? {
        return Err(admitted.error), available;
      }
      BackedByAll(draft, admitted.value.outputs, book.allocations);
      book.Interfere();
      available := book.allocations;
      r := book.Reserve(who, digest, draft, admitted.value.token.observedAt, policy.maxAge);
    }
  }

  lemma BackedByAll(draft: Draft, outputs: seq<Output>, allocations: map<OutPoint, nat>)
    requires Backed(draft, Unallocated(outputs, allocations))
    ensures Backed(draft, outputs)
  {
    forall i | 0 <= i < |draft.inputs|
      ensures SomeBacks(outputs, draft.inputs[i], draft.asset)
    {
      assert SomeBacks(Unallocated(outputs, allocations), draft.inputs[i], draft.asset);
      var o :| o in Unallocated(outputs, allocations) && Backs(o, draft.inputs[i], draft.asset);
      UnallocatedExactly(outputs, allocations, o);
    }
  }

  /** Tokens of different publications never match. */
  lemma TokensDiffer(issued: seq<Published>, i: nat, j: nat)
    requires forall g :: 0 <= g < |issued| ==> issued[g].token.generation == g + 1
    requires i < |issued| && j < |issued|
    ensures issued[i].token == issued[j].token <==> i == j
  {
    assert issued[i].token.generation == i + 1 && issued[j].token.generation == j + 1;
  }
}
