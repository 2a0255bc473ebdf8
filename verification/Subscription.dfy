/** Event subscriptions: replay up to the opening watermark, one marker, then the live tail. */
module Subscription {
  import opened Types

  const BATCH: nat := 256

  datatype StoredEvent =
    | ContractRegistered(contract: OutPoint)
    | ContractReady(contract: OutPoint)
    | BackfillApplied(contract: OutPoint)
    | TransactionApplied(affected: seq<OutPoint>)
    | ChainRolledBack(affected: seq<OutPoint>)
    | SyncStatusChanged

  datatype Filter = All | Contracts(ids: set<OutPoint>)

  predicate EventMatches(event: StoredEvent, filter: Filter) {
    match filter
    case All => true
    case Contracts(ids) =>
      match event
      case ContractRegistered(contract) => contract in ids
      case ContractReady(contract) => contract in ids
      case BackfillApplied(contract) => contract in ids
      case TransactionApplied(affected) => exists c :: c in affected && c in ids
      case ChainRolledBack(affected) => exists c :: c in affected && c in ids
      case SyncStatusChanged => true
  }

  /** The contracts an event is about. */
  function Subjects(event: StoredEvent): set<OutPoint> {
    match event
    case ContractRegistered(contract) => {contract}
    case ContractReady(contract) => {contract}
    case BackfillApplied(contract) => {contract}
    case TransactionApplied(affected) => ToSet(affected)
    case ChainRolledBack(affected) => ToSet(affected)
    case SyncStatusChanged => {}
  }

  /** A contract filter lets through exactly the events about one of its contracts, and every status change. */
  lemma FilterBySubject(event: StoredEvent, ids: set<OutPoint>)
    ensures EventMatches(event, Contracts(ids)) <==> event.SyncStatusChanged? || Subjects(event) * ids != {}
  {
    if EventMatches(event, Contracts(ids)) && !event.SyncStatusChanged? {
      var c :| c in Subjects(event) && c in ids;
      assert c in Subjects(event) * ids;
    }
  }

  /** The journal at one moment: within an epoch event k has sequence number k + 1. */
  datatype JournalView = JournalView(epoch: nat, events: seq<StoredEvent>)

  datatype EndReason = StaleCursor | ServerShutdown

  datatype Item = EventItem(sequence: nat, event: StoredEvent) | CaughtUp(through: nat) | End(reason: EndReason)

  /** A journal only grows within an epoch; epochs may change at any moment. */
  ghost predicate Growing(script: nat -> JournalView) {
    forall s: nat, t: nat :: s <= t && script(s).epoch == script(t).epoch ==> script(s).events <= script(t).events
  }

  /** The matching events after one sequence number up to another, in order. */
  function Matching(events: seq<StoredEvent>, filter: Filter, after: nat, upTo: nat): seq<Item>
    requires upTo <= |events|
  {
    if upTo <= after then
      []
    else
      Matching(events, filter, after, upTo - 1) +
      if EventMatches(events[upTo - 1], filter) then [EventItem(upTo, events[upTo - 1])] else []
  }

  /** What a subscriber at a cursor should have received: replay, and once caught up the marker and the tail. */
  function Expected(
      events: seq<StoredEvent>, filter: Filter, start: nat, through: nat, cursor: nat, caughtUp: bool): seq<Item>
    requires start <= through <= |events| && cursor <= |events|
  {
    if caughtUp then
      Matching(events, filter, start, through) + [CaughtUp(through)] + Matching(events, filter, through, cursor)
    else
      Matching(events, filter, start, cursor)
  }

  lemma {:induction false} MatchingStable(
      events: seq<StoredEvent>, longer: seq<StoredEvent>, filter: Filter, after: nat, upTo: nat)
    requires events <= longer && upTo <= |events|
    ensures Matching(events, filter, after, upTo) == Matching(longer, filter, after, upTo)
  {
    if after < upTo {
      MatchingStable(events, longer, filter, after, upTo - 1);
    }
  }

  lemma ExpectedStable(
      events: seq<StoredEvent>, longer: seq<StoredEvent>, filter: Filter, start: nat, through: nat, cursor: nat,
      caughtUp: bool)
    requires events <= longer && start <= through <= |events| && cursor <= |events|
    ensures Expected(events, filter, start, through, cursor, caughtUp)
         == Expected(longer, filter, start, through, cursor, caughtUp)
  {
    MatchingStable(events, longer, filter, start, through);
    MatchingStable(events, longer, filter, through, cursor);
    MatchingStable(events, longer, filter, start, cursor);
  }

  /** Matching lists exactly the matching events of its range. */
  lemma {:induction false} MatchingExactly(
      events: seq<StoredEvent>, filter: Filter, after: nat, upTo: nat, item: Item)
    requires upTo <= |events|
    ensures item in Matching(events, filter, after, upTo) <==>
      && item.EventItem? && after < item.sequence <= upTo
      && item.event == events[item.sequence - 1] && EventMatches(item.event, filter)
  {
    hide EventMatches;
    if after < upTo {
      MatchingExactly(events, filter, after, upTo - 1, item);
    }
  }

  ghost predicate Increasing(items: seq<Item>) {
    forall i, j :: 0 <= i < j < |items| ==>
      items[i].EventItem? && items[j].EventItem? && items[i].sequence < items[j].sequence
  }

  /** In order and without repeats. */
  lemma {:induction false} MatchingIncreases(events: seq<StoredEvent>, filter: Filter, after: nat, upTo: nat)
    requires upTo <= |events|
    ensures Increasing(Matching(events, filter, after, upTo))
  {
    hide EventMatches;
    if after < upTo {
      MatchingIncreases(events, filter, after, upTo - 1);
      var rest := Matching(events, filter, after, upTo - 1);
      forall i | 0 <= i < |rest|
        ensures rest[i].EventItem? && rest[i].sequence < upTo
      {
        MatchingExactly(events, filter, after, upTo - 1, rest[i]);
      }
    }
  }

  /** The marker comes exactly once, after the whole replay and before anything later. */
  lemma MarkerSplitsExactly(
      events: seq<StoredEvent>, filter: Filter, start: nat, through: nat, cursor: nat, k: nat)
    requires start <= through <= |events| && cursor <= |events|
    requires k < |Expected(events, filter, start, through, cursor, true)|
    ensures
      var items := Expected(events, filter, start, through, cursor, true);
      var marker := |Matching(events, filter, start, through)|;
      && (items[k].CaughtUp? <==> k == marker)
      && (k < marker ==> items[k].EventItem? && items[k].sequence <= through)
      && (k > marker ==> items[k].EventItem? && items[k].sequence > through)
  {
    hide EventMatches, Matching;
    var replay, tail := Matching(events, filter, start, through), Matching(events, filter, through, cursor);
    if k < |replay| {
      MatchingExactly(events, filter, start, through, replay[k]);
    } else if k > |replay| {
      MatchingExactly(events, filter, through, cursor, tail[k - |replay| - 1]);
    }
  }

  lemma MatchingStep(events: seq<StoredEvent>, filter: Filter, after: nat, cursor: nat)
    requires after <= cursor < |events|
    ensures Matching(events, filter, after, cursor + 1)
         == Matching(events, filter, after, cursor) +
            if EventMatches(events[cursor], filter) then [EventItem(cursor + 1, events[cursor])] else []
  {
  }

  /** One event further, replaying or live. */
  lemma ExpectedStep(
      events: seq<StoredEvent>, filter: Filter, start: nat, through: nat, cursor: nat, caughtUp: bool)
    requires start <= through <= |events| && cursor < |events|
    requires if caughtUp then through <= cursor else start <= cursor
    ensures Expected(events, filter, start, through, cursor + 1, caughtUp)
         == Expected(events, filter, start, through, cursor, caughtUp) +
            if EventMatches(events[cursor], filter) then [EventItem(cursor + 1, events[cursor])] else []
  {
    hide EventMatches, Matching;
    MatchingStep(events, filter, if caughtUp then through else start, cursor);
  }

  /** At the watermark the marker is next. */
  lemma ExpectedMarker(events: seq<StoredEvent>, filter: Filter, start: nat, through: nat)
    requires start <= through <= |events|
    ensures Expected(events, filter, start, through, through, true)
         == Expected(events, filter, start, through, through, false) + [CaughtUp(through)]
  {
  }

  /** Reads needed to deliver that many events. */
  function Batches(n: int): nat {
    if n <= 0 then 0 else (n + BATCH - 1) / BATCH
  }

  class Subscriber {
    /** The journal as found by each read, whether reading it fails, and whether each send is received. */
    const script: nat -> JournalView
    const broken: nat -> bool
    const reachable: nat -> bool
    const filter: Filter
    const epoch: nat
    const start: nat
    const through: nat
    var looks: nat
    var sends: nat
    var cursor: nat
    var caughtUp: bool
    var stopped: bool
    var received: seq<Item>
    /** The longest stretch of the journal read so far. */
    ghost var seen: seq<StoredEvent>
    /** Every send so far went through. */
    ghost var delivered: bool

    /** Nothing lost, repeated or out of place: what was received is what the cursor calls for. */
    ghost predicate Valid()
      reads this
    {
      && Growing(script)
      && start <= through <= |seen| && start <= cursor <= |seen|
      && (forall t: nat :: t >= looks && script(t).epoch == epoch ==> seen <= script(t).events)
      && (if caughtUp then through <= cursor else cursor <= through)
      && var expected := Expected(seen, filter, start, through, cursor, caughtUp);
         if !delivered then
           stopped && received <= expected
         else
           received == expected || (stopped && exists reason :: received == expected + [End(reason)])
    }

    /** Opens at the current watermark; a cursor from another epoch or ahead of it is refused by the caller. */
    constructor (
        script: nat -> JournalView, broken: nat -> bool, reachable: nat -> bool, filter: Filter, after: Option<nat>)
      requires Growing(script) && (after.Some? ==> after.value <= |script(0).events|)
      ensures Valid() && !stopped && delivered && received == []
      ensures epoch == script(0).epoch && through == |script(0).events|
      ensures start == (if after.Some? then after.value else 0)
    {
      this.script := script;
      this.broken := broken;
      this.reachable := reachable;
      this.filter := filter;
      epoch := script(0).epoch;
      start := if after.Some? then after.value else 0;
      through := |script(0).events|;
      looks, sends := 1, 0;
      cursor := if after.Some? then after.value else 0;
      caughtUp, stopped, received := false, false, [];
      seen := script(0).events;
      delivered := true;
    }

    method Send(item: Item) returns (ok: bool)
      modifies this`sends, this`received, this`delivered
      ensures ok ==> received == old(received) + [item] && delivered == old(delivered)
      ensures !ok ==> received == old(received) && !delivered
    {
      ok := reachable(sends);
      sends := sends + 1;
      if ok {
        received := received + [item];
      } else {
        delivered := false;
      }
    }

    /** Reads the next batch after the cursor. */
    method EventsAfter() returns (r: Result<seq<StoredEvent>, EndReason>)
      requires Valid()
      modifies this`looks, this`seen
      ensures Valid() && looks == old(looks) + 1
      ensures r.Err? <==> broken(old(looks)) || script(old(looks)).epoch != epoch
      ensures r.Err? ==> seen == old(seen)
      ensures r.Ok? ==>
        && script(old(looks)).epoch == epoch && seen == script(old(looks)).events
        && cursor + |r.value| <= |seen| && r.value == seen[cursor..cursor + |r.value|]
        && |r.value| == (if |seen| - cursor < BATCH then |seen| - cursor else BATCH)
    {
      var view := script(looks);
      var failed := broken(looks);
      looks := looks + 1;
      if failed {
        return Err(ServerShutdown);
      }
      if view.epoch != epoch {
        return Err(StaleCursor);
      }
      ExpectedStable(seen, view.events, filter, start, through, cursor, caughtUp);
      seen := view.events;
      var upTo := if |view.events| - cursor < BATCH then |view.events| else cursor + BATCH;
      r := Ok(view.events[cursor..upTo]);
    }

    /** Emits the boundary marker. */
    method EmitCaughtUp()
      requires Valid() && !stopped && delivered && !caughtUp && cursor >= through && received == ExpectedNow()
      modifies this`sends, this`received, this`delivered, this`cursor, this`caughtUp, this`stopped
      ensures Valid()
      ensures delivered ==> caughtUp && cursor == through && !stopped && received == ExpectedNow()
    {
      ExpectedMarker(seen, filter, start, through);
      var ok := Send(CaughtUp(through));
      if !ok {
        stopped := true;
        return;
      }
      cursor := through;
      caughtUp := true;
    }

    ghost function ExpectedNow(): seq<Item>
      requires start <= through <= |seen| && cursor <= |seen|
      reads this
    {
      Expected(seen, filter, start, through, cursor, caughtUp)
    }

    /** Forwards one batch, stopping at the watermark while replaying. */
    method Forward(events: seq<StoredEvent>)
      requires Valid() && !stopped && delivered && received == ExpectedNow()
      requires caughtUp || cursor < through
      requires cursor + |events| <= |seen| && events == seen[cursor..cursor + |events|]
      modifies this`sends, this`received, this`delivered, this`cursor, this`stopped
      ensures Valid()
      ensures delivered ==> !stopped && received == ExpectedNow()
      ensures delivered ==>
        cursor == if caughtUp || old(cursor) + |events| <= through then old(cursor) + |events| else through
    {
      hide Expected, Growing, EventMatches;
      ghost var first := cursor;
      for i := 0 to |events|
        invariant Valid() && !stopped && delivered && received == ExpectedNow()
        invariant cursor == first + i && (caughtUp || cursor <= through)
      {
        var sequence := cursor + 1;
        assert events[i] == seen[cursor];
        if !caughtUp && sequence > through {
          cursor := through;
          return;
        }
        ExpectedStep(seen, filter, start, through, cursor, caughtUp);
        cursor := sequence;
        if EventMatches(events[i], filter) {
          var ok := Send(EventItem(sequence, events[i]));
          if !ok {
            stopped := true;
            return;
          }
        }
      }
    }

    /** The journal of the subscription's epoch holds that many events at every read from now on. */
    ghost predicate Holds(target: nat)
      reads this
    {
      forall t: nat :: t >= looks && script(t).epoch == epoch ==> target <= |script(t).events|
    }

    /**
     Turns left until that many events and the marker are behind the cursor: reads up to the watermark, one
     turn for the marker, and reads from there on.
     */
    ghost function TurnsTo(target: nat): nat
      reads this
    {
      if caughtUp then
        Batches(target - cursor)
      else
        Batches(through - cursor) + 1 + Batches(target - through)
    }

    /**
     One turn of the subscription's loop. Over any number of turns and any growth of the journal the
     subscriber has what its cursor calls for; a turn that changes nothing found nothing to deliver; and
     every turn is one of those that were left to any target the journal holds.
     */
    method Step(ghost target: nat)
      requires Valid() && !stopped && delivered && received == ExpectedNow()
      requires Holds(target)
      modifies this
      ensures Valid() && Holds(target)
      ensures !stopped ==> delivered && received == ExpectedNow()
      ensures !stopped && cursor == old(cursor) && caughtUp == old(caughtUp) ==> caughtUp && cursor == |seen|
      ensures !stopped ==> cursor >= old(cursor)
      ensures stopped && delivered ==> broken(old(looks)) || script(old(looks)).epoch != epoch
      ensures !stopped ==> TurnsTo(target) + 1 <= old(TurnsTo(target)) || TurnsTo(target) == old(TurnsTo(target)) == 0
    {
      hide Expected, Growing;
      if !caughtUp && cursor >= through {
        EmitCaughtUp();
        return;
      }
      var batch := EventsAfter();
      if batch.Err? {
        var ok := Send(End(batch.error));
        stopped := true;
        return;
      }
      if batch.value == [] {
        return;
      }
      Forward(batch.value);
    }

    /**
     Any number of turns: until an end item or a lost subscriber, everything received is exactly as
     expected, and once the turns left at the start are spent, the marker and every event the journal held
     at the start are delivered.
     */
    method Run(turns: nat)
      requires Valid() && !stopped && delivered && received == ExpectedNow()
      modifies this
      ensures Valid()
      ensures !stopped ==> delivered && received == ExpectedNow()
      ensures cursor >= old(cursor) || stopped
      ensures
        var held := script(old(looks));
        !stopped && held.epoch == epoch && turns >= old(TurnsTo(|script(looks).events|)) ==>
          caughtUp && cursor >= |held.events|
    {
      hide Expected;
      ghost var target := if script(looks).epoch == epoch then |script(looks).events| else 0;
      ghost var left := TurnsTo(target);
      for turn := 0 to turns
        invariant Valid() && Holds(target)
        invariant !stopped ==> delivered && received == ExpectedNow()
        invariant cursor >= old(cursor) || stopped
        invariant !stopped ==> TurnsTo(target) + turn <= left || TurnsTo(target) == 0
      {
        hide Growing;
        if stopped {
          return;
        }
        Step(target);
      }
    }
  }
}
