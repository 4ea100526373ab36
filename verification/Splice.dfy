/** What a recorded compaction does to the projected list: one note in place of the
    first summarized stretch, the other stretches gone, every other message kept. */
module Splice {
  import opened EventLog
  import opened HiddenRanges
  import opened Projection
  import opened ProjectionLaws
  import opened Compacting
  import opened CompactionRuns
  import opened DisjointRuns

  /** Origins strictly increase, so a list is determined by what it holds. */
  lemma {:induction false} StrictListsAgree(a: seq<Item>, b: seq<Item>)
    requires OriginsRiseStrictly(a) && OriginsRiseStrictly(b)
    requires forall x :: x in a <==> x in b
    ensures a == b
  {
    NoneIn(a, b);
    NoneIn(b, a);
    if a != [] && b != [] {
      FirstIsLeast(a, b);
      FirstIsLeast(b, a);
      assert a[0] == b[0] by {
        var i :| 0 <= i < |b| && b[i] == a[0];
        if i > 0 { assert b[0].Origin() < b[i].Origin(); }
      }
      forall x ensures x in a[1..] <==> x in b[1..] {
        TailHolds(a, x);
        TailHolds(b, x);
      }
      StrictListsAgree(a[1..], b[1..]);
      assert a == [a[0]] + a[1..] && b == [b[0]] + b[1..];
    }
  }

  lemma {:induction false} FirstIsLeast(a: seq<Item>, b: seq<Item>)
    requires a != [] && b != [] && OriginsRiseStrictly(b) && a[0] in b
    ensures b[0].Origin() <= a[0].Origin()
  {}

  lemma {:induction false} TailHolds(a: seq<Item>, x: Item)
    requires a != [] && OriginsRiseStrictly(a)
    ensures x in a[1..] <==> x in a && x != a[0]
  {
    if x in a && x != a[0] {
      var i :| 0 <= i < |a| && a[i] == x;
      assert a[1..][i - 1] == x;
    }
  }

  // --- strict order ------------------------------------------------------------------------

  /** In a log whose spans are disjoint, live notes stand at different sequences. */
  lemma {:induction false} NotesApart(log: seq<Record>, r: Record, q: Record)
    requires Apart(log) && SpansSpare(log) && r in log && q in log && r != q
    requires Live(r, Floor(log)) && Live(q, Floor(log))
    ensures NoteOf(r.event.compaction).at != NoteOf(q.event.compaction).at
  {
    assert Recorded(log, r, 0) && Recorded(log, q, 0);
    assert !Overlap(SpanAt(r, 0), SpanAt(q, 0));
  }

  lemma {:induction false} LiveNotesDistinct(log: seq<Record>, k: nat)
    requires Chronological(log) && SpansSpare(log) && Apart(log) && k <= |log|
    ensures DistinctNotes(LiveNotes(log[..k], Floor(log)))
    ensures forall n :: n in LiveNotes(log[..k], Floor(log)) ==>
              exists i :: 0 <= i < k && Live(log[i], Floor(log)) && n == NoteOf(log[i].event.compaction)
    decreases k
  {
    hide NoteOf, Floor, SpansSpare, Apart;
    if k > 0 {
      LiveNotesDistinct(log, k - 1);
      var r := log[k - 1];
      assert log[..k][..k - 1] == log[..k - 1] && log[..k][k - 1] == r;
      var prior := LiveNotes(log[..k - 1], Floor(log));
      if Live(r, Floor(log)) {
        forall n | n in prior ensures n.at != NoteOf(r.event.compaction).at {
          var i :| 0 <= i < k - 1 && Live(log[i], Floor(log)) && n == NoteOf(log[i].event.compaction);
          assert log[i].at < r.at;
          NotesApart(log, log[i], r);
        }
      }
    }
  }

  lemma {:induction false} InsertDistinct(n: Note, sorted: seq<Note>)
    requires SortedNotes(sorted) && DistinctNotes(sorted) && forall x :: x in sorted ==> x.at != n.at
    ensures DistinctNotes(InsertNote(n, sorted))
  {
    if !(sorted == [] || n.at < sorted[0].at) {
      InsertDistinct(n, sorted[1..]);
      var t := InsertNote(n, sorted[1..]);
      forall j | 0 <= j < |t| ensures sorted[0].at != t[j].at {
        assert t[j] in t;
        InsertNoteHas(n, sorted[1..], t[j]);
      }
    }
  }

  lemma {:induction false} SortDistinct(notes: seq<Note>)
    requires DistinctNotes(notes)
    ensures DistinctNotes(SortNotes(notes))
  {
    if notes != [] {
      var init, last := notes[..|notes| - 1], notes[|notes| - 1];
      SortDistinct(init);
      SortNotesSorted(init);
      forall x | x in SortNotes(init) ensures x.at != last.at { assert x in init; }
      InsertDistinct(last, SortNotes(init));
    }
  }

  /** Notes stand at different places, and no shown record where one does. */
  ghost predicate NotesStrict(notes: seq<Note>, v: View) {
    SortedNotes(notes) && DistinctNotes(notes) && forall n :: n in notes ==> v.Skips(n.at)
  }

  lemma {:induction false} MergeStrict(records: seq<Record>, notes: seq<Note>, v: View)
    requires Chronological(records) && NotesStrict(notes, v)
    ensures OriginsRiseStrictly(Merge(records, notes, v))
    decreases |records| + |notes|
  {
    if records == [] {
    } else if v.Skips(records[0].at) {
      MergeStrict(records[1..], notes, v);
    } else if notes != [] && notes[0].at <= records[0].at {
      MergeStrict(records, notes[1..], v);
      assert notes[0] in notes;
      MergeAbove(records, notes[1..], v, notes[0].at + 1);
      ConsStrict(FromNote(notes[0]), Merge(records, notes[1..], v));
    } else {
      MergeStrict(records[1..], notes, v);
      if records[0].event.Bearing() {
        MergeAbove(records[1..], notes, v, records[0].at + 1);
        ConsStrict(FromRecord(records[0]), Merge(records[1..], notes, v));
      }
    }
  }

  lemma {:induction false} ConsStrict(x: Item, m: seq<Item>)
    requires OriginsRiseStrictly(m) && forall y :: y in m ==> x.Origin() < y.Origin()
    ensures OriginsRiseStrictly([x] + m)
  {
    forall j | 0 <= j < |m| ensures ([x] + m)[j + 1] == m[j] && m[j] in m {}
  }

  /** Where recorded spans are disjoint, the projection's origins strictly increase. */
  lemma {:induction false} ItemsStrict(log: seq<Record>, hidden: Hidden)
    requires Chronological(log) && SpansSpare(log) && Apart(log)
    ensures OriginsRiseStrictly(Items(log, hidden))
  {
    var p := PlanOf(log, hidden);
    assert log[..|log|] == log;
    LiveNotesDistinct(log, |log|);
    SortNotesSorted(p.notes);
    SortDistinct(p.notes);
    forall n | n in SortNotes(p.notes) ensures p.view.Skips(n.at) {
      LiveNotesAre(log, Floor(log));
      var r :| r in log && Live(r, Floor(log)) && n == NoteOf(r.event.compaction);
      assert r.event.compaction.spans[0].Has(n.at);
      assert CoveredBy(log, Floor(log), n.at);
      SkipsMeans(log, hidden, n.at);
    }
    MergeStrict(log, SortNotes(p.notes), p.view);
  }

  // --- the splice -----------------------------------------------------------------------------

  predicate Gone(x: Item, spans: seq<SeqSpan>) { x.FromRecord? && SomeHas(spans, x.record.at) }

  /** The items no span covers, in order. */
  function Survivors(items: seq<Item>, spans: seq<SeqSpan>): seq<Item> {
    if items == [] then []
    else Survivors(items[..|items| - 1], spans)
         + (if Gone(items[|items| - 1], spans) then [] else [items[|items| - 1]])
  }

  lemma {:induction false} SurvivorsHave(items: seq<Item>, spans: seq<SeqSpan>, x: Item)
    ensures x in Survivors(items, spans) <==> x in items && !Gone(x, spans)
  {
    if items != [] {
      var init, last := items[..|items| - 1], items[|items| - 1];
      SurvivorsHave(init, spans, x);
      assert items == init + [last];
    }
  }

  lemma {:induction false} SurvivorsStrict(items: seq<Item>, spans: seq<SeqSpan>)
    requires OriginsRiseStrictly(items)
    ensures OriginsRiseStrictly(Survivors(items, spans))
  {
    if items != [] {
      var init, last := items[..|items| - 1], items[|items| - 1];
      SurvivorsStrict(init, spans);
      var s := Survivors(init, spans);
      forall i | 0 <= i < |s| ensures s[i].Origin() < last.Origin() {
        assert s[i] in s;
        SurvivorsHave(init, spans, s[i]);
        var k :| 0 <= k < |init| && init[k] == s[i];
        assert items[k].Origin() < items[|init|].Origin();
      }
    }
  }

  /** The list with one note in front of what is left from `cut` on. */
  function Spliced(items: seq<Item>, cut: nat, note: Note, spans: seq<SeqSpan>): seq<Item>
    requires cut <= |items|
  { items[..cut] + [FromNote(note)] + Survivors(items[cut..], spans) }

  lemma {:induction false} SplicedStrict(items: seq<Item>, cut: nat, note: Note, spans: seq<SeqSpan>)
    requires OriginsRiseStrictly(items) && cut < |items|
    requires note.at == items[cut].Origin() && Gone(items[cut], spans)
    ensures OriginsRiseStrictly(Spliced(items, cut, note, spans))
  {
    var tail := items[cut..];
    SurvivorsStrict(tail, spans);
    var s := Survivors(tail, spans);
    forall i | 0 <= i < |s| ensures s[i].Origin() > note.at {
      assert s[i] in s;
      SurvivorsHave(tail, spans, s[i]);
      var k :| 0 <= k < |tail| && tail[k] == s[i];
      assert tail[k] == items[cut + k];
    }
  }

  /** The compaction recorded right on the list it was planned on, and its facts. */
  ghost predicate Recording(log: seq<Record>, items: seq<Item>, jobs: seq<Job>, starts: seq<int>, ends: seq<int>,
                            kept: seq<nat>, r: Record)
  {
    && r.at > LastAt(log) && r.event.ContextCompacted?
    && kept != [] && Indices(kept, |jobs|) && Records(r.event.compaction.spans, jobs, kept)
    && |starts| == |jobs| == |ends|
    && (forall x | 0 <= x < |jobs| :: CoversItems(items, starts[x], ends[x], jobs[x]))
    && forall x, y | 0 <= x < y < |jobs| :: ends[x] < starts[y]
  }

  lemma {:induction false} HasRecord(log: seq<Record>, hidden: Hidden, q: Record)
    ensures FromRecord(q) in Items(log, hidden) <==>
            && q in log && q.event.Bearing() && q.at > Floor(log)
            && !hidden.Contains(q.at) && !CoveredBy(log, Floor(log), q.at)
  {
    hide CoveredBy, Items, Floor;
    ItemsAre(log, hidden);
  }

  ghost predicate NotedBy(log: seq<Record>, n: Note) {
    exists r :: r in log && Live(r, Floor(log)) && n == NoteOf(r.event.compaction)
  }

  lemma {:induction false} HasNote(log: seq<Record>, hidden: Hidden, n: Note)
    ensures FromNote(n) in Items(log, hidden) <==> NotedBy(log, n)
  {
    hide CoveredBy, Items, Floor, NoteOf;
    ItemsAre(log, hidden);
  }

  lemma {:induction false} FloorAfterCompaction(log: seq<Record>, r: Record)
    requires Chronological(log) && r.at > LastAt(log) && r.event.ContextCompacted?
    ensures Floor(log + [r]) == Floor(log) < r.at
  {
    assert (log + [r])[..|log|] == log;
    LastFloor(log);
  }

  /** What a later projection holds: the survivors, the old notes and the new one. */
  lemma {:induction false} ItemsAfterRecording(log: seq<Record>, hidden: Hidden, r: Record, x: Item)
    requires Chronological(log) && r.at > LastAt(log)
    requires r.event.ContextCompacted? && r.event.compaction.spans != []
    ensures x in Items(log + [r], hidden) <==>
              (x in Items(log, hidden) && !Gone(x, r.event.compaction.spans)) || x == FromNote(NoteOf(r.event.compaction))
  {
    hide CoveredBy, Items, Floor, NoteOf, Live;
    FloorAfterCompaction(log, r);
    match x
    case FromRecord(q) =>
      HasRecord(log, hidden, q);
      HasRecord(log + [r], hidden, q);
      CoverageAfterLive(log, r, Floor(log), q.at);
      assert q in log + [r] <==> q in log || q == r;
    case FromNote(n) =>
      HasNote(log, hidden, n);
      HasNote(log + [r], hidden, n);
      NotedAfter(log, r, n);
  }

  lemma {:induction false} NotedAfter(log: seq<Record>, r: Record, n: Note)
    requires Floor(log + [r]) == Floor(log) < r.at
    requires r.event.ContextCompacted? && r.event.compaction.spans != []
    ensures NotedBy(log + [r], n) <==> NotedBy(log, n) || n == NoteOf(r.event.compaction)
  {
    hide Floor, NoteOf;
    if NotedBy(log + [r], n) {
      var q :| q in log + [r] && Live(q, Floor(log + [r])) && n == NoteOf(q.event.compaction);
      assert q in log || q == r;
    }
    if NotedBy(log, n) {
      var q :| q in log && Live(q, Floor(log)) && n == NoteOf(q.event.compaction);
      assert q in log + [r];
    }
    assert r in log + [r] && Live(r, Floor(log + [r]));
  }

  lemma {:induction false} LastFloor(log: seq<Record>)
    requires Chronological(log)
    ensures Floor(log) <= LastAt(log)
  {
    FloorIs(log);
    LastAtBounds(log);
  }

  lemma {:induction false} CoverageAfterLive(log: seq<Record>, r: Record, floor: nat, at: nat)
    requires r.event.ContextCompacted? && r.at > floor && r.event.compaction.spans != []
    ensures CoveredBy(log + [r], floor, at) <==> CoveredBy(log, floor, at) || SomeHas(r.event.compaction.spans, at)
  {
    if CoveredBy(log, floor, at) {
      var q, k :| q in log && Live(q, floor) && 0 <= k < |q.event.compaction.spans| && q.event.compaction.spans[k].Has(at);
      assert q in log + [r];
    }
    if SomeHas(r.event.compaction.spans, at) {
      var k :| 0 <= k < |r.event.compaction.spans| && r.event.compaction.spans[k].Has(at);
      assert r in log + [r] && Live(r, floor);
    }
    if CoveredBy(log + [r], floor, at) {
      var q, k :| q in log + [r] && Live(q, floor) && 0 <= k < |q.event.compaction.spans|
               && q.event.compaction.spans[k].Has(at);
      if q in log { assert CoveredBy(log, floor, at); }
    }
  }

  /** Nothing in front of the first recorded job is covered by any of them. */
  lemma {:induction false} NothingGoneBefore(items: seq<Item>, jobs: seq<Job>, starts: seq<int>, ends: seq<int>,
                                             kept: seq<nat>, log: seq<Record>, r: Record, k: nat)
    requires Recording(log, items, jobs, starts, ends, kept, r) && OriginsRiseStrictly(items)
    requires k < starts[kept[0]] < |items|
    ensures !Gone(items[k], r.event.compaction.spans)
  {
    var spans := r.event.compaction.spans;
    forall i | 0 <= i < |spans| ensures !spans[i].Has(items[k].Origin()) {
      if i > 0 { assert kept[0] < kept[i]; }
      assert CoversItems(items, starts[kept[i]], ends[kept[i]], jobs[kept[i]]);
      assert items[k].Origin() < items[starts[kept[i]]].Origin();
    }
  }

  lemma {:induction false} FirstIsGone(items: seq<Item>, jobs: seq<Job>, starts: seq<int>, ends: seq<int>,
                                       kept: seq<nat>, log: seq<Record>, r: Record)
    requires Recording(log, items, jobs, starts, ends, kept, r) && OriginsRiseStrictly(items)
    ensures 0 <= starts[kept[0]] < |items| && Gone(items[starts[kept[0]]], r.event.compaction.spans)
    ensures NoteOf(r.event.compaction).at == items[starts[kept[0]]].Origin()
  {
    var spans, i, e := r.event.compaction.spans, starts[kept[0]], ends[kept[0]];
    assert CoversItems(items, i, e, jobs[kept[0]]);
    assert items[i].Origin() <= items[e].Origin();
    assert spans[0].Has(items[i].Origin());
  }

  /** Recording a compaction is a splice: one note where the first summarized stretch
      began, the summarized records gone, everything else as it was. */
  lemma {:induction false} RecordingSplices(log: seq<Record>, hidden: Hidden, jobs: seq<Job>, starts: seq<int>,
                                            ends: seq<int>, kept: seq<nat>, r: Record)
    requires Disjoint(State(log, jobs), hidden) && Recording(log, Items(log, hidden), jobs, starts, ends, kept, r)
    ensures 0 <= starts[kept[0]] < |Items(log, hidden)|
    ensures Items(log + [r], hidden)
         == Spliced(Items(log, hidden), starts[kept[0]], NoteOf(r.event.compaction), r.event.compaction.spans)
  {
    hide Items, Gone, Survivors, NoteOf, SpansSpare, Apart, JobsApart, Separated, Chronological, OriginsRiseStrictly;
    var items, after := Items(log, hidden), Items(log + [r], hidden);
    var spans, note := r.event.compaction.spans, NoteOf(r.event.compaction);
    CommitKeepsDisjoint(State(log, jobs), hidden, kept, r);
    ItemsStrict(log, hidden);
    ItemsStrict(log + [r], hidden);
    FirstIsGone(items, jobs, starts, ends, kept, log, r);
    var cut := starts[kept[0]];
    SplicedStrict(items, cut, note, spans);
    var spliced := Spliced(items, cut, note, spans);
    forall x ensures x in after <==> x in spliced {
      ItemsAfterRecording(log, hidden, r, x);
      SurvivorsHave(items[cut..], spans, x);
      SplicedHas(items, cut, spans, x, jobs, starts, ends, kept, log, r);
    }
    StrictListsAgree(after, spliced);
  }

  lemma {:induction false} SplicedHas(items: seq<Item>, cut: nat, spans: seq<SeqSpan>, x: Item, jobs: seq<Job>,
      starts: seq<int>, ends: seq<int>, kept: seq<nat>, log: seq<Record>, r: Record)
    requires Recording(log, items, jobs, starts, ends, kept, r) && OriginsRiseStrictly(items)
    requires cut == starts[kept[0]] < |items| && spans == r.event.compaction.spans
    ensures x in items && !Gone(x, spans) <==> x in items[..cut] || (x in items[cut..] && !Gone(x, spans))
  {
    assert items == items[..cut] + items[cut..];
    if x in items[..cut] {
      var k :| 0 <= k < cut && items[k] == x;
      NothingGoneBefore(items, jobs, starts, ends, kept, log, r, k);
    }
  }

  // --- counting ---------------------------------------------------------------------------------

  /** How many messages the chosen jobs stand for. */
  function MessagesOf(jobs: seq<Job>, kept: seq<nat>): nat {
    if kept == [] || kept[|kept| - 1] >= |jobs| then 0
    else MessagesOf(jobs, kept[..|kept| - 1]) + jobs[kept[|kept| - 1]].messages
  }

  lemma {:induction false} SurvivorsConcat(a: seq<Item>, b: seq<Item>, spans: seq<SeqSpan>)
    ensures Survivors(a + b, spans) == Survivors(a, spans) + Survivors(b, spans)
  {
    if b == [] {
      assert a + b == a && Survivors(b, spans) == [];
    } else {
      var init := b[..|b| - 1];
      SurvivorsConcat(a, init, spans);
      assert (a + b)[..|a + b| - 1] == a + init;
    }
  }

  lemma {:induction false} AllSurvive(items: seq<Item>, spans: seq<SeqSpan>)
    requires forall k | 0 <= k < |items| :: !Gone(items[k], spans)
    ensures Survivors(items, spans) == items
  {
    if items != [] { AllSurvive(items[..|items| - 1], spans); }
  }

  lemma {:induction false} NoneSurvive(items: seq<Item>, spans: seq<SeqSpan>)
    requires forall k | 0 <= k < |items| :: Gone(items[k], spans)
    ensures Survivors(items, spans) == []
  {
    if items != [] { NoneSurvive(items[..|items| - 1], spans); }
  }

  lemma {:induction false} SameSurvivors(items: seq<Item>, a: seq<SeqSpan>, b: seq<SeqSpan>)
    requires forall k | 0 <= k < |items| :: Gone(items[k], a) <==> Gone(items[k], b)
    ensures Survivors(items, a) == Survivors(items, b)
  {
    if items != [] { SameSurvivors(items[..|items| - 1], a, b); }
  }

  /** The spans of the first `n` chosen jobs. */
  function SpansOf(jobs: seq<Job>, kept: seq<nat>): seq<SeqSpan>
    requires Indices(kept, |jobs|)
  { seq(|kept|, i requires 0 <= i < |kept| => SpanOf(jobs[kept[i]])) }

  /** Up to any place behind the chosen jobs, survivors and summarized add up. */
  lemma {:induction false} SurvivorsCount(items: seq<Item>, jobs: seq<Job>, starts: seq<int>, ends: seq<int>,
                                          kept: seq<nat>, end: nat)
    requires OriginsRiseStrictly(items) && Indices(kept, |jobs|) && |starts| == |jobs| == |ends|
    requires forall x | 0 <= x < |jobs| :: CoversItems(items, starts[x], ends[x], jobs[x])
    requires forall x, y | 0 <= x < y < |jobs| :: ends[x] < starts[y]
    requires end <= |items| && (kept != [] ==> ends[kept[|kept| - 1]] < end)
    ensures |Survivors(items[..end], SpansOf(jobs, kept))| + MessagesOf(jobs, kept) == end
    decreases |kept|
  {
    var spans := SpansOf(jobs, kept);
    if kept == [] {
      AllSurvive(items[..end], spans);
    } else {
      var init, x := kept[..|kept| - 1], kept[|kept| - 1];
      var s, e := starts[x], ends[x];
      assert CoversItems(items, s, e, jobs[x]);
      if init != [] { assert init[|init| - 1] < x; }
      SurvivorsCount(items, jobs, starts, ends, init, s);
      StretchSurvivors(items, jobs, starts, ends, kept, end);
    }
  }

  lemma {:induction false} StretchSurvivors(items: seq<Item>, jobs: seq<Job>, starts: seq<int>, ends: seq<int>,
                                            kept: seq<nat>, end: nat)
    requires OriginsRiseStrictly(items) && Indices(kept, |jobs|) && |starts| == |jobs| == |ends| && kept != []
    requires forall x | 0 <= x < |jobs| :: CoversItems(items, starts[x], ends[x], jobs[x])
    requires forall x, y | 0 <= x < y < |jobs| :: ends[x] < starts[y]
    requires ends[kept[|kept| - 1]] < end <= |items|
    ensures var s, e := starts[kept[|kept| - 1]], ends[kept[|kept| - 1]];
            && CoversItems(items, s, e, jobs[kept[|kept| - 1]])
            && |Survivors(items[..end], SpansOf(jobs, kept))|
               == |Survivors(items[..s], SpansOf(jobs, kept[..|kept| - 1]))| + (end - e - 1)
  {
    var init, x := kept[..|kept| - 1], kept[|kept| - 1];
    var spans, s, e := SpansOf(jobs, kept), starts[x], ends[x];
    assert CoversItems(items, s, e, jobs[x]);
    hide Gone, Survivors, SpansOf, OriginsRiseStrictly;
    var front, middle, back := items[..s], items[s..e + 1], items[e + 1..end];
    assert items[..end] == front + middle + back;
    forall k | 0 <= k < |middle| ensures Gone(middle[k], spans) {
      InsideIsGone(items, jobs, starts, ends, kept, s + k);
    }
    forall k | 0 <= k < |back| ensures !Gone(back[k], spans) {
      BehindAll(items, jobs, starts, ends, kept, e + 1 + k);
    }
    forall k | 0 <= k < |front| ensures Gone(front[k], spans) <==> Gone(front[k], SpansOf(jobs, init)) {
      BeforeLast(items, jobs, starts, ends, kept, k);
    }
    ThreeStretches(front, middle, back, spans, SpansOf(jobs, init));
  }

  lemma {:induction false} ThreeStretches(front: seq<Item>, middle: seq<Item>, back: seq<Item>,
                                          spans: seq<SeqSpan>, fewer: seq<SeqSpan>)
    requires forall k | 0 <= k < |front| :: Gone(front[k], spans) <==> Gone(front[k], fewer)
    requires forall k | 0 <= k < |middle| :: Gone(middle[k], spans)
    requires forall k | 0 <= k < |back| :: !Gone(back[k], spans)
    ensures |Survivors(front + middle + back, spans)| == |Survivors(front, fewer)| + |back|
  {
    hide Gone, Survivors;
    SurvivorsConcat(front + middle, back, spans);
    SurvivorsConcat(front, middle, spans);
    NoneSurvive(middle, spans);
    AllSurvive(back, spans);
    SameSurvivors(front, spans, fewer);
  }

  lemma {:induction false} InsideIsGone(items: seq<Item>, jobs: seq<Job>, starts: seq<int>, ends: seq<int>,
                                        kept: seq<nat>, k: int)
    requires OriginsRiseStrictly(items) && Indices(kept, |jobs|) && |starts| == |jobs| == |ends| && kept != []
    requires forall x | 0 <= x < |jobs| :: CoversItems(items, starts[x], ends[x], jobs[x])
    requires starts[kept[|kept| - 1]] <= k <= ends[kept[|kept| - 1]]
    ensures 0 <= k < |items| && Gone(items[k], SpansOf(jobs, kept))
  {
    var x := kept[|kept| - 1];
    assert CoversItems(items, starts[x], ends[x], jobs[x]);
    assert !UserItem(items[k]);
    assert SpansOf(jobs, kept)[|kept| - 1].Has(items[k].Origin());
  }

  lemma {:induction false} BehindAll(items: seq<Item>, jobs: seq<Job>, starts: seq<int>, ends: seq<int>,
                                     kept: seq<nat>, k: int)
    requires OriginsRiseStrictly(items) && Indices(kept, |jobs|) && |starts| == |jobs| == |ends| && kept != []
    requires forall x | 0 <= x < |jobs| :: CoversItems(items, starts[x], ends[x], jobs[x])
    requires forall x, y | 0 <= x < y < |jobs| :: ends[x] < starts[y]
    requires 0 <= k < |items| && ends[kept[|kept| - 1]] < k
    ensures !Gone(items[k], SpansOf(jobs, kept))
  {
    forall i | 0 <= i < |kept| ensures !SpanOf(jobs[kept[i]]).Has(items[k].Origin()) {
      var y := kept[|kept| - 1];
      if i < |kept| - 1 { assert kept[i] < y && ends[kept[i]] < starts[y]; }
      assert CoversItems(items, starts[kept[i]], ends[kept[i]], jobs[kept[i]]);
      assert CoversItems(items, starts[y], ends[y], jobs[y]);
      assert items[ends[kept[i]]].Origin() < items[k].Origin();
    }
  }

  lemma {:induction false} BeforeLast(items: seq<Item>, jobs: seq<Job>, starts: seq<int>, ends: seq<int>,
                                      kept: seq<nat>, k: int)
    requires OriginsRiseStrictly(items) && Indices(kept, |jobs|) && |starts| == |jobs| == |ends| && kept != []
    requires forall x | 0 <= x < |jobs| :: CoversItems(items, starts[x], ends[x], jobs[x])
    requires 0 <= k < starts[kept[|kept| - 1]]
    ensures k < |items|
    ensures Gone(items[k], SpansOf(jobs, kept)) <==> Gone(items[k], SpansOf(jobs, kept[..|kept| - 1]))
  {
    var init, y := kept[..|kept| - 1], kept[|kept| - 1];
    assert CoversItems(items, starts[y], ends[y], jobs[y]);
    var all, fewer, at := SpansOf(jobs, kept), SpansOf(jobs, init), items[k].Origin();
    assert at < items[starts[y]].Origin();
    assert !all[|init|].Has(at);
    forall i | 0 <= i < |init| ensures all[i] == fewer[i] {}
  }

  /** Messages are conserved: what the note says it replaced is what left the list. */
  lemma {:induction false} RecordingConservesMessages(log: seq<Record>, hidden: Hidden, jobs: seq<Job>, starts: seq<int>,
                                                      ends: seq<int>, kept: seq<nat>, r: Record)
    requires Disjoint(State(log, jobs), hidden) && Recording(log, Items(log, hidden), jobs, starts, ends, kept, r)
    ensures |Items(log + [r], hidden)| + MessagesOf(jobs, kept) == |Items(log, hidden)| + 1
  {
    hide Items, Gone, Survivors, MessagesOf, Overlap;
    RecordingSplices(log, hidden, jobs, starts, ends, kept, r);
    ItemsStrict(log, hidden);
    SplicedCount(log, Items(log, hidden), jobs, starts, ends, kept, r);
  }

  lemma {:induction false} SplicedCount(log: seq<Record>, items: seq<Item>, jobs: seq<Job>, starts: seq<int>,
                                        ends: seq<int>, kept: seq<nat>, r: Record)
    requires Recording(log, items, jobs, starts, ends, kept, r) && OriginsRiseStrictly(items)
    requires 0 <= starts[kept[0]] < |items|
    ensures |Spliced(items, starts[kept[0]], NoteOf(r.event.compaction), r.event.compaction.spans)|
          + MessagesOf(jobs, kept) == |items| + 1
  {
    hide Gone, Survivors, MessagesOf, NoteOf, OriginsRiseStrictly;
    var spans, cut := r.event.compaction.spans, starts[kept[0]];
    assert spans == SpansOf(jobs, kept);
    forall k | 0 <= k < cut ensures !Gone(items[..cut][k], spans) {
      NothingGoneBefore(items, jobs, starts, ends, kept, log, r, k);
    }
    AllSurvive(items[..cut], spans);
    assert items == items[..cut] + items[cut..] && items[..|items|] == items;
    SurvivorsConcat(items[..cut], items[cut..], spans);
    var last := kept[|kept| - 1];
    assert CoversItems(items, starts[last], ends[last], jobs[last]);
    SurvivorsCount(items, jobs, starts, ends, kept, |items|);
  }

  /** Planned on the projection, recorded for any of its jobs: the next projection is
      the spliced list, shorter by exactly what the note says it replaced, less one. */
  lemma {:induction false} CompactionSplicesTheList(log: seq<Record>, hidden: Hidden, prompt: string, tokens: nat,
                                                    policy: Policy, kept: seq<nat>, r: Record) returns (cut: nat)
    requires Disjoint(State(log, []), hidden)
    requires PlanJobs(ListedMessages(log, hidden, prompt), ListedOrigins(log, hidden), tokens, policy, hidden).Some?
    requires var jobs := PlanJobs(ListedMessages(log, hidden, prompt), ListedOrigins(log, hidden), tokens, policy, hidden).value;
             && kept != [] && Indices(kept, |jobs|) && r.at > LastAt(log)
             && r.event.ContextCompacted? && Records(r.event.compaction.spans, jobs, kept)
    ensures cut < |Items(log, hidden)|
    ensures Items(log + [r], hidden)
         == Spliced(Items(log, hidden), cut, NoteOf(r.event.compaction), r.event.compaction.spans)
    ensures |ListedMessages(log + [r], hidden, prompt)|
          + MessagesOf(PlanJobs(ListedMessages(log, hidden, prompt), ListedOrigins(log, hidden), tokens, policy, hidden).value, kept)
         == |ListedMessages(log, hidden, prompt)| + 1
  {
    var ms, origins, items := ListedMessages(log, hidden, prompt), ListedOrigins(log, hidden), Items(log, hidden);
    var jobs := PlanJobs(ms, origins, tokens, policy, hidden).value;
    ListedLists(log, hidden, prompt);
    ItemsFaithful(log, hidden);
    var starts, ends := PlannedJobs(ms, origins, items, tokens, policy, hidden);
    PlanKeepsDisjoint(State(log, []), hidden, items, jobs, starts, ends);
    RecordingSplices(log, hidden, jobs, starts, ends, kept, r);
    RecordingConservesMessages(log, hidden, jobs, starts, ends, kept, r);
    cut := starts[kept[0]];
  }
}
