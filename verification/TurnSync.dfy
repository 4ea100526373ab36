/** When the list a turn keeps up to date by hand is the one a rebuild would make. */
module TurnSync {
  import opened EventLog
  import opened HiddenRanges
  import opened Projection
  import opened ProjectionLaws
  import opened Compacting
  import opened CompactionRuns
  import opened BatchRuns
  import opened TurnPlans

  /** The provider's last count and how many messages it priced; (0, 0) for none. */
  function PriceOf(billing: Option<(nat, nat)>): (nat, nat) { if billing.Some? then billing.value else (0, 0) }

  function LogPrice(log: seq<Record>, hidden: Hidden): (nat, nat) {
    PriceOf(Billing(Items(log, hidden), PlanOf(log, hidden).usageIsCurrent, 1))
  }

  /** The turn's copy equals what rehydrating from the log would build. */
  ghost predicate InSync(log: seq<Record>, hidden: Hidden, ms: seq<Message>, origins: seq<nat>, price: (nat, nat)) {
    && ms != [] && ms[0].System?
    && ms == ListedMessages(log, hidden, ms[0].prompt)
    && origins == ListedOrigins(log, hidden)
    && price == LogPrice(log, hidden)
  }

  /** A copy equal to a rebuild misses nothing a user said, while no recorded span does. */
  lemma {:induction false} InSyncMissesNothing(log: seq<Record>, hidden: Hidden, ms: seq<Message>, origins: seq<nat>, price: (nat, nat))
    requires InSync(log, hidden, ms, origins, price) && Chronological(log) && SpansSpare(log)
    ensures NothingMissing(log, hidden, ms, origins)
  {
    ListedLists(log, hidden, ms[0].prompt);
    ItemsFaithful(log, hidden);
    hide Items, Faithful, ListedMessages, ListedOrigins, LogPrice, NothingMissing, SpansSpare;
    ListedMissesNothing(log, hidden, ms, origins, Items(log, hidden));
  }

  // --- the price ---------------------------------------------------------------------------

  /** A priced reply the model still sees, newer than every compaction and boundary. */
  ghost predicate FreshlyPriced(log: seq<Record>, hidden: Hidden, r: Record) {
    && r in log && Priced(r.event) && !hidden.Contains(r.at)
    && forall q :: q in log && (q.event.ContextCompacted? || q.event.ConversationStarted?) ==> q.at < r.at
  }

  lemma {:induction false} LastUsageIs(log: seq<Record>, hidden: Hidden)
    requires Chronological(log)
    ensures LastUsage(log, hidden) == 0
         || exists r :: r in log && Priced(r.event) && !hidden.Contains(r.at) && r.at == LastUsage(log, hidden)
    ensures forall r :: r in log && Priced(r.event) && !hidden.Contains(r.at) ==> r.at <= LastUsage(log, hidden)
  {
    if log != [] {
      var init, last := log[..|log| - 1], log[|log| - 1];
      LastUsageIs(init, hidden);
      assert log == init + [last];
      assert forall r :: r in log <==> r in init || r == last;
      assert forall r :: r in init ==> r.at < last.at;
    }
  }

  lemma {:induction false} LastCompactionIs(log: seq<Record>)
    requires Chronological(log)
    ensures LastCompaction(log) == 0 || exists r :: r in log && r.event.ContextCompacted? && r.at == LastCompaction(log)
    ensures forall r :: r in log && r.event.ContextCompacted? ==> r.at <= LastCompaction(log)
  {
    if log != [] {
      var init, last := log[..|log| - 1], log[|log| - 1];
      LastCompactionIs(init);
      assert log == init + [last];
      assert forall r :: r in log <==> r in init || r == last;
      assert forall r :: r in init ==> r.at < last.at;
    }
  }

  predicate PricedItem(x: Item) { x.FromRecord? && Priced(x.record.event) }

  /** The last priced item and how many messages its count covered. */
  ghost predicate BilledAt(items: seq<Item>, baseLen: nat, i: nat, billing: Option<(nat, nat)>) {
    && i < |items| && PricedItem(items[i]) && (forall k | i < k < |items| :: !PricedItem(items[k]))
    && billing == Some((items[i].record.event.usage.value.promptTokens, baseLen + i))
  }

  lemma {:induction false} BillingIs(items: seq<Item>, baseLen: nat)
    ensures Billing(items, true, baseLen).None? ==> forall k | 0 <= k < |items| :: !PricedItem(items[k])
    ensures Billing(items, true, baseLen).Some? ==> exists i: nat :: BilledAt(items, baseLen, i, Billing(items, true, baseLen))
  {
    if items != [] {
      var n := |items| - 1;
      BillingIs(items[..n], baseLen);
      if PricedItem(items[n]) {
        assert BilledAt(items, baseLen, n, Billing(items, true, baseLen));
      } else if Billing(items[..n], true, baseLen).Some? {
        var i: nat :| BilledAt(items[..n], baseLen, i, Billing(items[..n], true, baseLen));
        assert BilledAt(items, baseLen, i, Billing(items, true, baseLen));
      }
    }
  }

  lemma {:induction false} UsageIsCurrentIff(log: seq<Record>, hidden: Hidden)
    requires Chronological(log)
    ensures PlanOf(log, hidden).usageIsCurrent <==> exists r :: FreshlyPriced(log, hidden, r)
    ensures PlanOf(log, hidden).usageIsCurrent ==>
              exists r :: FreshlyPriced(log, hidden, r) && r.at == LastUsage(log, hidden)
  {
    LastUsageIs(log, hidden);
    LastCompactionIs(log);
    FloorIs(log);
    hide LastUsage, LastCompaction, Floor;
    if PlanOf(log, hidden).usageIsCurrent {
      var r :| r in log && Priced(r.event) && !hidden.Contains(r.at) && r.at == LastUsage(log, hidden);
      assert FreshlyPriced(log, hidden, r);
    }
  }

  /** A freshly priced reply is on the list. */
  lemma {:induction false} FreshIsShown(log: seq<Record>, hidden: Hidden, r: Record)
    requires Chronological(log) && SpansBehind(log) && FreshlyPriced(log, hidden, r)
    ensures FromRecord(r) in Items(log, hidden)
  {
    FloorIs(log);
    LastAtBounds(log);
    forall q, k | q in log && q.event.ContextCompacted? && 0 <= k < |q.event.compaction.spans|
      ensures q.event.compaction.spans[k].through < r.at {}
    NotCoveredBeyond(log, r.at);
    LiveAboveFloor(log, r.at);
    ItemsAre(log, hidden);
  }

  /** The rebuilt price is that of the newest such reply, covering what stood before
      it; without one there is none: a count taken before a compaction or a boundary
      priced a longer conversation. */
  lemma {:induction false} PriceIsOfTheNewest(log: seq<Record>, hidden: Hidden)
    requires Chronological(log) && SpansBehind(log)
    ensures Billing(Items(log, hidden), PlanOf(log, hidden).usageIsCurrent, 1).None? <==>
              forall r :: !FreshlyPriced(log, hidden, r)
    ensures forall r :: FreshlyPriced(log, hidden, r) && (forall q :: FreshlyPriced(log, hidden, q) ==> q.at <= r.at) ==>
              exists i: nat :: i < |Items(log, hidden)| && Items(log, hidden)[i] == FromRecord(r)
                && Billing(Items(log, hidden), PlanOf(log, hidden).usageIsCurrent, 1)
                   == Some((r.event.usage.value.promptTokens, 1 + i))
  {
    UsageIsCurrentIff(log, hidden);
    var items, current := Items(log, hidden), PlanOf(log, hidden).usageIsCurrent;
    hide Items, PlanOf, LastUsage, FreshlyPriced, SpansBehind, Floor;
    forall r | FreshlyPriced(log, hidden, r) && (forall q :: FreshlyPriced(log, hidden, q) ==> q.at <= r.at)
      ensures exists i: nat :: i < |items| && items[i] == FromRecord(r)
                && Billing(items, current, 1) == Some((r.event.usage.value.promptTokens, 1 + i)) {
      var i := NewestIsBilled(log, hidden, items, r);
    }
    if current {
      var r :| FreshlyPriced(log, hidden, r) && r.at == LastUsage(log, hidden);
      NewestFresh(log, hidden, r);
    } else {
      NothingBilled(items);
    }
  }

  lemma {:induction false} NothingBilled(items: seq<Item>)
    ensures Billing(items, false, 1) == None
  {}

  lemma {:induction false} NewestFresh(log: seq<Record>, hidden: Hidden, r: Record)
    requires Chronological(log) && FreshlyPriced(log, hidden, r) && r.at == LastUsage(log, hidden)
    ensures forall q :: FreshlyPriced(log, hidden, q) ==> q.at <= r.at
  {
    LastUsageIs(log, hidden);
  }

  lemma {:induction false} NewestIsBilled(log: seq<Record>, hidden: Hidden, items: seq<Item>, r: Record) returns (i: nat)
    requires Chronological(log) && SpansBehind(log) && items == Items(log, hidden) && FreshlyPriced(log, hidden, r)
    requires forall q :: FreshlyPriced(log, hidden, q) ==> q.at <= r.at
    ensures i < |items| && items[i] == FromRecord(r)
    ensures Billing(items, true, 1) == Some((r.event.usage.value.promptTokens, 1 + i))
  {
    FreshIsShown(log, hidden, r);
    var k :| 0 <= k < |items| && items[k] == FromRecord(r);
    BillingIs(items, 1);
    i :| BilledAt(items, 1, i, Billing(items, true, 1));
    ItemsFaithful(log, hidden);
    hide Items, Floor, CoveredBy, SpansBehind, Billing;
    ItemIn(items, i);
    NoneLater(log, hidden, r, items[i].record);
    RecordOrder(items, k, i);
  }

  lemma {:induction false} NoneLater(log: seq<Record>, hidden: Hidden, r: Record, q: Record)
    requires FreshlyPriced(log, hidden, r) && q in log && Priced(q.event) && !hidden.Contains(q.at)
    requires forall x :: FreshlyPriced(log, hidden, x) ==> x.at <= r.at
    ensures q.at <= r.at
  {
    assert r.at < q.at ==> FreshlyPriced(log, hidden, q);
  }

  // --- appending one record -------------------------------------------------------------

  /** A record that leaves the plan's reach alone. */
  predicate Plain(e: Event) { !e.ContextCompacted? && !e.ConversationStarted? && !e.UserMessage? }

  lemma {:induction false} PlanAfter(log: seq<Record>, hidden: Hidden, r: Record)
    requires Plain(r.event)
    ensures PlanOf(log + [r], hidden).view == PlanOf(log, hidden).view
    ensures PlanOf(log + [r], hidden).notes == PlanOf(log, hidden).notes
    ensures PlanOf(log + [r], hidden).attribute == PlanOf(log, hidden).attribute
    ensures LastCompaction(log + [r]) == LastCompaction(log) && Floor(log + [r]) == Floor(log)
    ensures LastUsage(log + [r], hidden)
         == if !hidden.Contains(r.at) && Priced(r.event) then r.at else LastUsage(log, hidden)
  {
    assert (log + [r])[..|log|] == log;
    assert Speakers(log + [r], Floor(log)) == Speakers(log, Floor(log)) by {
      assert forall q :: q in log + [r] <==> q in log || q == r;
    }
  }

  lemma {:induction false} LastMarksBounded(log: seq<Record>)
    requires Chronological(log)
    ensures LastCompaction(log) <= LastAt(log) && Floor(log) <= LastAt(log)
  {
    if log != [] {
      var init := log[..|log| - 1];
      if init != [] { assert init[|init| - 1].at < log[|log| - 1].at; }
      LastMarksBounded(init);
    }
  }

  lemma {:induction false} MergeOne(notes: seq<Note>, v: View, r: Record)
    requires forall n :: n in notes ==> n.at <= r.at
    ensures Merge([r], notes, v) == NoteItems(notes) + (if v.Shows(r) then [FromRecord(r)] else [])
  {
    if !v.Skips(r.at) && notes != [] {
      MergeOne(notes[1..], v, r);
      assert NoteItems(notes) == [FromNote(notes[0])] + NoteItems(notes[1..]);
    }
  }

  /** A newest record only adds its own message at the end. */
  lemma {:induction false} MergeSnoc(records: seq<Record>, notes: seq<Note>, v: View, r: Record)
    requires forall n :: n in notes ==> n.at <= r.at
    ensures Merge(records + [r], notes, v)
         == Merge(records, notes, v) + (if v.Shows(r) then [FromRecord(r)] else [])
    decreases |records| + |notes|
  {
    var all := records + [r];
    if records == [] {
      assert all == [r];
      MergeOne(notes, v, r);
    } else {
      assert all[0] == records[0] && all[1..] == records[1..] + [r];
      if !v.Skips(records[0].at) && notes != [] && notes[0].at <= records[0].at {
        MergeSnoc(records, notes[1..], v, r);
      } else {
        MergeSnoc(records[1..], notes, v, r);
      }
    }
  }

  /** Every note stands at or below the log's last sequence. */
  lemma {:induction false} NotesBelow(log: seq<Record>)
    requires Chronological(log) && SpansBehind(log)
    ensures forall n :: n in SortNotes(LiveNotes(log, Floor(log))) ==> n.at <= LastAt(log)
  {
    SortNotesSorted(LiveNotes(log, Floor(log)));
    LiveNotesAre(log, Floor(log));
    LastAtBounds(log);
  }

  lemma {:induction false} ItemsAfter(log: seq<Record>, hidden: Hidden, r: Record)
    requires Chronological(log) && SpansBehind(log) && r.at > LastAt(log) && Plain(r.event)
    requires !hidden.Contains(r.at)
    ensures Items(log + [r], hidden)
         == Items(log, hidden) + (if r.event.Bearing() then [FromRecord(r)] else [])
  {
    PlanAfter(log, hidden, r);
    NotesBelow(log);
    var p := PlanOf(log, hidden);
    MergeSnoc(log, SortNotes(p.notes), p.view, r);
    LastMarksBounded(log);
    NewestShown(log, hidden, r);
  }

  lemma {:induction false} NewestShown(log: seq<Record>, hidden: Hidden, r: Record)
    requires Chronological(log) && SpansBehind(log) && r.at > LastAt(log) && !hidden.Contains(r.at)
    ensures !PlanOf(log, hidden).view.Skips(r.at)
  {
    LastMarksBounded(log);
    LastAtBounds(log);
    SkipsMeans(log, hidden, r.at);
    LiveAboveFloor(log, r.at);
    forall q, k | q in log && q.event.ContextCompacted? && 0 <= k < |q.event.compaction.spans|
      ensures q.event.compaction.spans[k].through < r.at {}
    NotCoveredBeyond(log, r.at);
  }

  lemma {:induction false} BillingSnoc(items: seq<Item>, r: Record, current: bool, baseLen: nat)
    ensures Billing(items + [FromRecord(r)], current, baseLen)
         == if current && Priced(r.event) then Some((r.event.usage.value.promptTokens, baseLen + |items|))
            else Billing(items, current, baseLen)
  {
    assert (items + [FromRecord(r)])[..|items|] == items;
  }

  lemma {:induction false} PriceAfter(log: seq<Record>, hidden: Hidden, r: Record)
    requires Chronological(log) && SpansBehind(log) && r.at > LastAt(log) && Plain(r.event)
    requires !hidden.Contains(r.at)
    ensures LogPrice(log + [r], hidden)
         == if Priced(r.event) then (r.event.usage.value.promptTokens, |Items(log, hidden)| + 1) else LogPrice(log, hidden)
  {
    PlanAfter(log, hidden, r);
    ItemsAfter(log, hidden, r);
    LastMarksBounded(log);
    var items, current := Items(log, hidden), PlanOf(log + [r], hidden).usageIsCurrent;
    assert items + [] == items;
    BillingSnoc(items, r, current, 1);
    assert Priced(r.event) ==> current;
    assert !Priced(r.event) ==> current == PlanOf(log, hidden).usageIsCurrent;
  }

  lemma {:induction false} MessagesSnoc(items: seq<Item>, r: Record, attribute: bool)
    requires AllBearing(items) && r.event.Bearing() && !r.event.UserMessage?
    ensures AllBearing(items + [FromRecord(r)])
    ensures Messages(items + [FromRecord(r)], attribute) == Messages(items, attribute) + [Render(r.event, false)]
    ensures Origins(items + [FromRecord(r)]) == Origins(items) + [r.at]
  {}

  lemma {:induction false} ListedAfter(log: seq<Record>, hidden: Hidden, prompt: string, r: Record)
    requires Chronological(log) && SpansBehind(log) && r.at > LastAt(log) && Plain(r.event)
    requires !hidden.Contains(r.at)
    ensures ListedMessages(log + [r], hidden, prompt)
         == ListedMessages(log, hidden, prompt) + (if r.event.Bearing() then [Render(r.event, false)] else [])
    ensures ListedOrigins(log + [r], hidden)
         == ListedOrigins(log, hidden) + (if r.event.Bearing() then [r.at] else [])
  {
    hide Items, PlanOf, Floor, CoveredBy, SpansBehind, Hidden.Contains;
    var items, after := Items(log, hidden), Items(log + [r], hidden);
    PlanAfter(log, hidden, r);
    ItemsAfter(log, hidden, r);
    ItemsAre(log, hidden);
    ItemsAre(log + [r], hidden);
    ListedOf(log, hidden, prompt, items, PlanOf(log, hidden).attribute);
    ListedOf(log + [r], hidden, prompt, after, PlanOf(log, hidden).attribute);
    if r.event.Bearing() {
      MessagesSnoc(items, r, PlanOf(log, hidden).attribute);
    } else {
      assert items + [] == items;
    }
  }

  lemma {:induction false} ListedOf(log: seq<Record>, hidden: Hidden, prompt: string, items: seq<Item>, attribute: bool)
    requires items == Items(log, hidden) && attribute == PlanOf(log, hidden).attribute && AllBearing(items)
    ensures ListedMessages(log, hidden, prompt) == [System(prompt)] + Messages(items, attribute)
    ensures ListedOrigins(log, hidden) == [0] + Origins(items)
  {}

  /** Appending one record and pushing its message by hand keeps the copy in step;
      a priced reply re-prices the list as it stood before it. */
  lemma {:induction false} AppendInSync(log: seq<Record>, hidden: Hidden, ms: seq<Message>, origins: seq<nat>,
                                        price: (nat, nat), r: Record)
    requires InSync(log, hidden, ms, origins, price)
    requires Chronological(log) && SpansBehind(log) && r.at > LastAt(log) && Plain(r.event) && !hidden.Contains(r.at)
    ensures InSync(log + [r], hidden,
                   ms + (if r.event.Bearing() then [Render(r.event, false)] else []),
                   origins + (if r.event.Bearing() then [r.at] else []),
                   if Priced(r.event) then (r.event.usage.value.promptTokens, |ms|) else price)
  {
    ListedAfter(log, hidden, ms[0].prompt, r);
    PriceAfter(log, hidden, r);
  }

  // --- the turn's standing -----------------------------------------------------------------

  ghost predicate NothingHiddenSince(hidden: Hidden, since: nat) {
    forall at: nat :: at > since ==> !hidden.Contains(at)
  }

  /** The copy equals a rebuild, on a log the turn can go on appending to. */
  ghost predicate Synced(log: seq<Record>, hidden: Hidden, since: nat, ms: seq<Message>, origins: seq<nat>, price: (nat, nat)) {
    && InSync(log, hidden, ms, origins, price)
    && Chronological(log) && SpansBehind(log) && NothingHiddenSince(hidden, since) && since <= LastAt(log)
  }

  /** The turn's own appends, one at a time, whatever the log's batches look like. */
  lemma {:induction false} SyncedAfter(log: seq<Record>, hidden: Hidden, since: nat, ms: seq<Message>,
                                       origins: seq<nat>, price: (nat, nat), r: Record)
    requires Synced(log, hidden, since, ms, origins, price) && r.at > LastAt(log) && Plain(r.event)
    ensures Synced(log + [r], hidden, since,
                   ms + (if r.event.Bearing() then [Render(r.event, false)] else []),
                   origins + (if r.event.Bearing() then [r.at] else []),
                   if Priced(r.event) then (r.event.usage.value.promptTokens, |ms|) else price)
  {
    AppendInSync(log, hidden, ms, origins, price, r);
    ChronologicalAppend(log, r);
    SpansBehindAfter(log, r);
  }

  /** Others logging nothing a user said, no boundary and no compaction. */
  predicate Quiet(e: Event) { !e.Bearing() && !e.ContextCompacted? && !e.ConversationStarted? }

  lemma {:induction false} SyncedAfterQuiet(log: seq<Record>, hidden: Hidden, since: nat, ms: seq<Message>,
                                            origins: seq<nat>, price: (nat, nat), r: Record)
    requires Synced(log, hidden, since, ms, origins, price) && r.at > LastAt(log) && Quiet(r.event)
    ensures Synced(log + [r], hidden, since, ms, origins, price)
  {
    SyncedAfter(log, hidden, since, ms, origins, price, r);
    assert ms + [] == ms && origins + [] == origins;
  }

  ghost predicate Extends(log: seq<Record>, more: seq<Record>) {
    && (forall i | 0 <= i < |more| :: more[i].at > LastAt(log))
    && forall i, j | 0 <= i < j < |more| :: more[i].at < more[j].at
  }

  ghost predicate AllQuiet(more: seq<Record>) { forall i | 0 <= i < |more| :: Quiet(more[i].event) }

  lemma {:induction false} ExtendsChronological(log: seq<Record>, more: seq<Record>)
    requires Chronological(log) && Extends(log, more)
    ensures Chronological(log + more) && LastAt(log) <= LastAt(log + more)
  {
    LastAtBounds(log);
    var all := log + more;
    forall i, j | 0 <= i < j < |all| ensures all[i].at < all[j].at {
      if i < |log| { assert all[i] in log; }
    }
  }

  /** All but the last of what arrives, and the last of it. */
  lemma {:induction false} ExtendsSplit(log: seq<Record>, more: seq<Record>)
    requires Extends(log, more) && more != []
    ensures var n := |more| - 1;
            && Extends(log, more[..n]) && (AllQuiet(more) ==> AllQuiet(more[..n]) && Quiet(more[n].event))
            && log + more == (log + more[..n]) + [more[n]] && LastAt(log + more[..n]) < more[n].at
  {}

  /** Bookkeeping others log meanwhile leaves the copy equal to a rebuild. */
  lemma {:induction false} SyncedAfterOthers(log: seq<Record>, hidden: Hidden, since: nat, ms: seq<Message>,
      origins: seq<nat>, price: (nat, nat), more: seq<Record>)
    requires Synced(log, hidden, since, ms, origins, price) && Extends(log, more) && AllQuiet(more)
    ensures Synced(log + more, hidden, since, ms, origins, price)
    decreases |more|
  {
    hide Synced, Extends, AllQuiet, Quiet, LastAt;
    if more == [] {
      assert log + more == log;
    } else {
      var n := |more| - 1;
      ExtendsSplit(log, more);
      SyncedAfterOthers(log, hidden, since, ms, origins, price, more[..n]);
      SyncedAfterQuiet(log + more[..n], hidden, since, ms, origins, price, more[n]);
    }
  }

  // --- whole batches --------------------------------------------------------------------------

  /** What a log of whole batches keeps as the turn goes on: `owed` calls open, and
      nothing logged since its start hidden. */
  ghost predicate LogStanding(log: seq<Record>, hidden: Hidden, since: nat, owed: seq<string>) {
    && BatchInv(State(log, [])) && HiddenWhole(log, hidden) && LogOwed(log) == Some(owed)
    && NothingHiddenSince(hidden, since) && since <= LastAt(log)
    && (owed != [] ==> Latest(log, None).Some? && Latest(log, None).value.at > since)
  }

  /** The latest caller of a log one record longer. */
  lemma {:induction false} LatestAfter(log: seq<Record>, r: Record)
    ensures Latest(log + [r], None) == if r.event.AssistantMessage? then Some(r) else Latest(log, None)
    ensures LogOwed(log + [r]) == Tick(LogOwed(log), r.event)
  {
    LatestConcat(log, [r], None);
    LogOwedConcat(log, [r], Some([]));
  }

  lemma {:induction false} HiddenWholeAfter(log: seq<Record>, hidden: Hidden, r: Record)
    requires HiddenWhole(log, hidden) && !hidden.Contains(r.at)
    requires r.event.ToolResult? ==> Latest(log, None).Some? && !hidden.Contains(Latest(log, None).value.at)
    ensures HiddenWhole(log + [r], hidden)
  {
    var log' := log + [r];
    forall j | 0 <= j < |log'| && log'[j].event.ToolResult?
      ensures Latest(log'[..j], None).Some?
      ensures hidden.Contains(log'[j].at) <==> hidden.Contains(Latest(log'[..j], None).value.at) {
      if j < |log| {
        assert log'[..j] == log[..j] && log'[j] == log[j];
      } else {
        assert log'[..j] == log;
      }
    }
  }

  lemma {:induction false} LogStandingAfter(log: seq<Record>, hidden: Hidden, since: nat, owed: seq<string>, r: Record)
    requires LogStanding(log, hidden, since, owed)
    requires r.at > LastAt(log) && Plain(r.event) && Tick(Some(owed), r.event).Some?
    ensures LogStanding(log + [r], hidden, since, Tick(Some(owed), r.event).value)
  {
    LatestAfter(log, r);
    AppendKeepsBatches(State(log, []), r);
    HiddenWholeAfter(log, hidden, r);
  }

  lemma {:induction false} LogStandingAfterOthers(log: seq<Record>, hidden: Hidden, since: nat, owed: seq<string>, more: seq<Record>)
    requires LogStanding(log, hidden, since, owed) && Extends(log, more) && AllQuiet(more)
    ensures LogStanding(log + more, hidden, since, owed)
    decreases |more|
  {
    hide LogStanding, Extends, AllQuiet, LastAt;
    if more == [] {
      assert log + more == log;
    } else {
      var n := |more| - 1;
      ExtendsSplit(log, more);
      LogStandingAfterOthers(log, hidden, since, owed, more[..n]);
      LogStandingAfter(log + more[..n], hidden, since, owed, more[n]);
    }
  }

  /** A copy of such a log is a request a provider accepts once nothing is owed. */
  lemma {:induction false} StandingAcceptable(log: seq<Record>, hidden: Hidden, since: nat, ms: seq<Message>,
                                              origins: seq<nat>, price: (nat, nat))
    requires InSync(log, hidden, ms, origins, price) && LogStanding(log, hidden, since, [])
    ensures Acceptable(ms)
  {
    ProjectionAnswers(log, hidden, ms[0].prompt);
  }

  lemma {:induction false} PlannedBatches(log: seq<Record>, hidden: Hidden, prompt: string, tokens: nat, policy: Policy)
    requires BatchInv(State(log, [])) && LogOwed(log) == Some([]) && HiddenWhole(log, hidden)
    requires PlanJobs(ListedMessages(log, hidden, prompt), ListedOrigins(log, hidden), tokens, policy, hidden).Some?
    ensures BatchInv(State(log, PlanJobs(ListedMessages(log, hidden, prompt), ListedOrigins(log, hidden),
                                         tokens, policy, hidden).value))
  {
    hide BatchInv, LogOwed, HiddenWhole, PlanJobs, ListedMessages, ListedOrigins;
    var jobs := PlanJobs(ListedMessages(log, hidden, prompt), ListedOrigins(log, hidden), tokens, policy, hidden).value;
    PlanKeepsBatches(State(log, []), hidden, prompt, tokens, policy, State(log, jobs));
  }

  lemma {:induction false} CommittedBatches(log: seq<Record>, jobs: seq<Job>, kept: seq<nat>, r: Record)
    requires BatchInv(State(log, jobs)) && r.at > LastAt(log) && r.event.ContextCompacted?
    requires kept != [] && Indices(kept, |jobs|) && Records(r.event.compaction.spans, jobs, kept)
    ensures BatchInv(State(log + [r], []))
  {
    hide BatchInv, Indices, Records;
    CommitKeepsBatches(State(log, jobs), kept, r);
  }

  lemma {:induction false} BatchesAfterCompaction(log: seq<Record>, hidden: Hidden, ms: seq<Message>, origins: seq<nat>,
      price: (nat, nat), tokens: nat, policy: Policy, kept: seq<nat>, r: Record)
    requires InSync(log, hidden, ms, origins, price) && r.at > LastAt(log)
    requires BatchInv(State(log, [])) && LogOwed(log) == Some([]) && HiddenWhole(log, hidden)
    requires PlanJobs(ms, origins, tokens, policy, hidden).Some?
    requires var jobs := PlanJobs(ms, origins, tokens, policy, hidden).value;
             && kept != [] && Indices(kept, |jobs|)
             && r.event.ContextCompacted? && Records(r.event.compaction.spans, jobs, kept)
    ensures BatchInv(State(log + [r], []))
  {
    hide BatchInv, HiddenWhole, PlanJobs, ListedMessages, ListedOrigins, LogPrice, LogOwed, Indices, Records, LastAt;
    PlannedBatches(log, hidden, ms[0].prompt, tokens, policy);
    CommittedBatches(log, PlanJobs(ms, origins, tokens, policy, hidden).value, kept, r);
  }

  /** Recording a compaction planned on the copy keeps the log's batches whole. */
  lemma {:induction false} LogStandingAfterCompaction(log: seq<Record>, hidden: Hidden, since: nat, ms: seq<Message>,
      origins: seq<nat>, price: (nat, nat), tokens: nat, policy: Policy, kept: seq<nat>, r: Record)
    requires InSync(log, hidden, ms, origins, price) && LogStanding(log, hidden, since, []) && r.at > LastAt(log)
    requires PlanJobs(ms, origins, tokens, policy, hidden).Some?
    requires var jobs := PlanJobs(ms, origins, tokens, policy, hidden).value;
             && kept != [] && Indices(kept, |jobs|)
             && r.event.ContextCompacted? && Records(r.event.compaction.spans, jobs, kept)
    ensures LogStanding(log + [r], hidden, since, [])
  {
    hide BatchInv, HiddenWhole, PlanJobs, InSync, Latest, LogOwed, NothingHiddenSince, Indices, Records;
    BatchesAfterCompaction(log, hidden, ms, origins, price, tokens, policy, kept, r);
    LatestAfter(log, r);
    NotHiddenLater(hidden, since, r.at);
    HiddenWholeAfter(log, hidden, r);
  }

  lemma {:induction false} NotHiddenLater(hidden: Hidden, since: nat, at: nat)
    requires NothingHiddenSince(hidden, since) && at > since
    ensures !hidden.Contains(at)
  {}
}
