/** What the projection promises: an ordered merge that loses nothing. */
module ProjectionLaws {
  import opened EventLog
  import opened HiddenRanges
  import opened Projection

  ghost predicate SortedNotes(notes: seq<Note>) {
    forall i, j | 0 <= i < j < |notes| :: notes[i].at <= notes[j].at
  }

  ghost predicate DistinctNotes(notes: seq<Note>) {
    forall i, j | 0 <= i < j < |notes| :: notes[i].at != notes[j].at
  }

  lemma {:induction false} InsertNoteHas(n: Note, sorted: seq<Note>, x: Note)
    ensures x in InsertNote(n, sorted) <==> x == n || x in sorted
  {
    if !(sorted == [] || n.at < sorted[0].at) { InsertNoteHas(n, sorted[1..], x); }
  }

  lemma {:induction false} InsertNoteSorted(n: Note, sorted: seq<Note>)
    requires SortedNotes(sorted)
    ensures SortedNotes(InsertNote(n, sorted))
  {
    if !(sorted == [] || n.at < sorted[0].at) {
      InsertNoteSorted(n, sorted[1..]);
      var t := InsertNote(n, sorted[1..]);
      forall j | 0 <= j < |t| ensures sorted[0].at <= t[j].at {
        InsertNoteHas(n, sorted[1..], t[j]);
        assert t[j] in t;
      }
    }
  }

  lemma {:induction false} SortNotesHas(notes: seq<Note>, x: Note)
    ensures x in SortNotes(notes) <==> x in notes
  {
    if notes != [] {
      var init := notes[..|notes| - 1];
      SortNotesHas(init, x);
      InsertNoteHas(notes[|notes| - 1], SortNotes(init), x);
    }
  }

  lemma {:induction false} SortNotesSorted(notes: seq<Note>)
    ensures SortedNotes(SortNotes(notes))
    ensures forall n :: n in SortNotes(notes) <==> n in notes
  {
    if notes != [] {
      var init := notes[..|notes| - 1];
      SortNotesSorted(init);
      InsertNoteSorted(notes[|notes| - 1], SortNotes(init));
    }
    forall n ensures n in SortNotes(notes) <==> n in notes { SortNotesHas(notes, n); }
  }

  // --- contents ---------------------------------------------------------------

  /** The shown records, in log order: an independent reading of "visible". */
  function ShownRecords(records: seq<Record>, v: View): seq<Item> {
    if records == [] then []
    else (if v.Shows(records[0]) then [FromRecord(records[0])] else []) + ShownRecords(records[1..], v)
  }

  lemma {:induction false} ConsSum<T>(x: T, m: seq<T>, a: seq<T>, b: seq<T>)
    requires multiset(m) == multiset(a) + multiset(b)
    ensures multiset([x] + m) == multiset([x] + a) + multiset(b) == multiset(a) + multiset([x] + b)
  {}

  /** Nothing is lost and nothing appears twice. */
  lemma {:induction false} MergeConserves(records: seq<Record>, notes: seq<Note>, v: View)
    ensures multiset(Merge(records, notes, v)) == multiset(ShownRecords(records, v)) + multiset(NoteItems(notes))
    decreases |records| + |notes|
  {
    if records == [] {
    } else if !v.Skips(records[0].at) && notes != [] && notes[0].at <= records[0].at {
      NoteConserves(records, notes, v);
    } else {
      var rest, shown := Merge(records[1..], notes, v), ShownRecords(records[1..], v);
      MergeConserves(records[1..], notes, v);
      if v.Shows(records[0]) {
        ConsSum(FromRecord(records[0]), rest, shown, NoteItems(notes));
      } else {
        assert Merge(records, notes, v) == rest && ShownRecords(records, v) == shown;
      }
    }
  }

  lemma {:induction false} NoteConserves(records: seq<Record>, notes: seq<Note>, v: View)
    requires records != [] && !v.Skips(records[0].at) && notes != [] && notes[0].at <= records[0].at
    ensures multiset(Merge(records, notes, v)) == multiset(ShownRecords(records, v)) + multiset(NoteItems(notes))
    decreases |records| + |notes|, 0
  {
    var rest, shown := Merge(records, notes[1..], v), ShownRecords(records, v);
    MergeConserves(records, notes[1..], v);
    ConsSum(FromNote(notes[0]), rest, shown, NoteItems(notes[1..]));
    assert NoteItems(notes) == [FromNote(notes[0])] + NoteItems(notes[1..]);
  }

  lemma {:induction false} ShownRecordsAre(records: seq<Record>, v: View)
    ensures forall x :: x in ShownRecords(records, v) <==>
                        x.FromRecord? && x.record in records && v.Shows(x.record)
  {
    if records != [] {
      ShownRecordsAre(records[1..], v);
      assert records == [records[0]] + records[1..];
    }
  }

  lemma {:induction false} MergeMembers(records: seq<Record>, notes: seq<Note>, v: View)
    ensures forall r :: FromRecord(r) in Merge(records, notes, v) <==> r in records && v.Shows(r)
    ensures forall n :: FromNote(n) in Merge(records, notes, v) <==> n in notes
    ensures AllBearing(Merge(records, notes, v))
  {
    MergeConserves(records, notes, v);
    ShownRecordsAre(records, v);
    var m := Merge(records, notes, v);
    forall x ensures x in m <==> x in ShownRecords(records, v) || x in NoteItems(notes) {
      assert x in m <==> x in multiset(m);
      assert x in ShownRecords(records, v) <==> x in multiset(ShownRecords(records, v));
      assert x in NoteItems(notes) <==> x in multiset(NoteItems(notes));
    }
    forall n ensures FromNote(n) in NoteItems(notes) <==> n in notes {
      if n in notes {
        var i :| 0 <= i < |notes| && notes[i] == n;
        assert NoteItems(notes)[i] == FromNote(n);
      }
    }
    forall i | 0 <= i < |m| && m[i].FromRecord? ensures m[i].record.event.Bearing() {
      assert m[i] in m;
    }
  }

  // --- order --------------------------------------------------------------------

  /** Where a note stands: `i` before `j` exactly when its sequence is at or before. */
  ghost predicate NotesPlaced(m: seq<Item>) {
    forall i, j | 0 <= i < |m| && 0 <= j < |m| && m[i].FromNote? && m[j].FromRecord? ::
      i < j <==> m[i].note.at <= m[j].record.at
  }

  ghost predicate OriginsRise(m: seq<Item>) {
    forall i, j | 0 <= i < j < |m| :: m[i].Origin() <= m[j].Origin()
  }

  /** Records keep their log order, each in one place. */
  ghost predicate RecordsRise(m: seq<Item>) {
    forall i, j | 0 <= i < j < |m| && m[i].FromRecord? && m[j].FromRecord? :: m[i].record.at < m[j].record.at
  }

  ghost predicate OriginsRiseStrictly(m: seq<Item>) {
    forall i, j | 0 <= i < j < |m| :: m[i].Origin() < m[j].Origin()
  }

  lemma {:induction false} PrependRise(x: Item, m: seq<Item>)
    requires OriginsRise(m) && forall y :: y in m ==> x.Origin() <= y.Origin()
    ensures OriginsRise([x] + m)
  {
    forall j | 0 <= j < |m| ensures ([x] + m)[j + 1] == m[j] && m[j] in m {}
  }

  lemma {:induction false} PrependRecords(x: Item, m: seq<Item>)
    requires RecordsRise(m) && (x.FromRecord? ==> forall y :: y in m ==> x.Origin() < y.Origin())
    ensures RecordsRise([x] + m)
  {
    forall j | 0 <= j < |m| ensures ([x] + m)[j + 1] == m[j] && m[j] in m {}
  }

  lemma {:induction false} PrependPlaced(x: Item, m: seq<Item>)
    requires NotesPlaced(m) && forall y :: y in m ==> x.Origin() <= y.Origin()
    requires x.FromRecord? ==> forall y :: y in m ==> x.Origin() < y.Origin()
    ensures NotesPlaced([x] + m)
  {
    var t := [x] + m;
    forall j | 0 <= j < |m| ensures t[j + 1] == m[j] && m[j] in m {}
    forall i, j | 0 <= i < |t| && 0 <= j < |t| && t[i].FromNote? && t[j].FromRecord?
      ensures i < j <==> t[i].note.at <= t[j].record.at {
      if i > 0 && j > 0 { assert t[i] == m[i - 1] && t[j] == m[j - 1]; }
    }
  }

  lemma {:induction false} PrependItem(x: Item, m: seq<Item>)
    requires OriginsRise(m) && NotesPlaced(m) && RecordsRise(m)
    requires forall y :: y in m ==> x.Origin() <= y.Origin()
    requires x.FromRecord? ==> forall y :: y in m ==> x.Origin() < y.Origin()
    ensures OriginsRise([x] + m) && NotesPlaced([x] + m) && RecordsRise([x] + m)
  {
    PrependRise(x, m);
    PrependPlaced(x, m);
    PrependRecords(x, m);
  }

  lemma {:induction false} MergeOrdered(records: seq<Record>, notes: seq<Note>, v: View)
    requires Chronological(records) && SortedNotes(notes)
    ensures OriginsRise(Merge(records, notes, v)) && NotesPlaced(Merge(records, notes, v))
    ensures RecordsRise(Merge(records, notes, v))
    decreases |records| + |notes|
  {
    if records == [] {
    } else if v.Skips(records[0].at) {
      MergeOrdered(records[1..], notes, v);
    } else if notes != [] && notes[0].at <= records[0].at {
      MergeOrdered(records, notes[1..], v);
      MergeAbove(records, notes[1..], v, notes[0].at);
      PrependItem(FromNote(notes[0]), Merge(records, notes[1..], v));
    } else {
      MergeOrdered(records[1..], notes, v);
      if records[0].event.Bearing() {
        MergeAbove(records[1..], notes, v, records[0].at + 1);
        PrependItem(FromRecord(records[0]), Merge(records[1..], notes, v));
      }
    }
  }

  lemma {:induction false} MergeAbove(records: seq<Record>, notes: seq<Note>, v: View, lo: nat)
    requires forall i | 0 <= i < |records| :: lo <= records[i].at
    requires forall i | 0 <= i < |notes| :: lo <= notes[i].at
    ensures forall y :: y in Merge(records, notes, v) ==> lo <= y.Origin()
  {
    MergeMembers(records, notes, v);
    forall y | y in Merge(records, notes, v) ensures lo <= y.Origin() {
      if y.FromRecord? { assert FromRecord(y.record) in Merge(records, notes, v); }
      else { assert FromNote(y.note) in Merge(records, notes, v); }
    }
  }

  // --- facts about the plan -----------------------------------------------------

  lemma {:induction false} FloorIs(log: seq<Record>)
    ensures Floor(log) == 0 || exists r :: r in log && r.event.ConversationStarted? && r.at == Floor(log)
    ensures Chronological(log) ==> forall r :: r in log && r.event.ConversationStarted? ==> r.at <= Floor(log)
  {
    if log != [] {
      var init, last := log[..|log| - 1], log[|log| - 1];
      FloorIs(init);
      assert log == init + [last];
      assert forall r :: r in log <==> r in init || r == last;
      if Chronological(log) { assert forall r :: r in init ==> r.at < last.at; }
    }
  }

  /** `at` lies in a span some live compaction of the log recorded. */
  ghost predicate CoveredBy(log: seq<Record>, floor: nat, at: nat) {
    exists r, k :: r in log && Live(r, floor) && 0 <= k < |r.event.compaction.spans|
                && r.event.compaction.spans[k].Has(at)
  }

  lemma {:induction false} LiveSpansAre(log: seq<Record>, floor: nat, at: nat)
    ensures SomeHas(LiveSpans(log, floor), at) <==> CoveredBy(log, floor, at)
  {
    if log != [] {
      var init, last := log[..|log| - 1], log[|log| - 1];
      LiveSpansAre(init, floor, at);
      assert log == init + [last];
      var all, prior := LiveSpans(log, floor), LiveSpans(init, floor);
      if SomeHas(all, at) {
        var i :| 0 <= i < |all| && all[i].Has(at);
        if i < |prior| {
          assert prior[i].Has(at);
          assert SomeHas(prior, at);
          var r, k :| r in init && Live(r, floor) && 0 <= k < |r.event.compaction.spans|
                   && r.event.compaction.spans[k].Has(at);
          assert r in log;
        } else {
          assert last.event.compaction.spans[i - |prior|].Has(at);
        }
      }
      if CoveredBy(log, floor, at) {
        var r, k :| r in log && Live(r, floor) && 0 <= k < |r.event.compaction.spans|
                && r.event.compaction.spans[k].Has(at);
        if r in init {
          assert CoveredBy(init, floor, at);
          var i :| 0 <= i < |prior| && prior[i].Has(at);
          assert all[i].Has(at);
        } else {
          assert all[|prior| + k].Has(at);
        }
      }
    }
  }

  lemma {:induction false} SkipsMeans(log: seq<Record>, hidden: Hidden, at: nat)
    ensures PlanOf(log, hidden).view.Skips(at)
        <==> at <= Floor(log) || hidden.Contains(at) || CoveredBy(log, Floor(log), at)
  {
    LiveSpansAre(log, Floor(log), at);
  }

  lemma {:induction false} LiveNotesAre(log: seq<Record>, floor: nat)
    ensures forall n :: n in LiveNotes(log, floor) <==>
            exists r :: r in log && Live(r, floor) && n == NoteOf(r.event.compaction)
  {
    hide NoteOf;
    if log != [] {
      var init, last := log[..|log| - 1], log[|log| - 1];
      LiveNotesAre(init, floor);
      assert log == init + [last];
      assert forall r :: r in log <==> r in init || r == last;
      forall n ensures n in LiveNotes(log, floor) <==>
            exists r :: r in log && Live(r, floor) && n == NoteOf(r.event.compaction) {
        if r :| r in log && Live(r, floor) && n == NoteOf(r.event.compaction) {
          if r in init { assert n in LiveNotes(init, floor); }
        }
      }
    }
  }

  /** The projected list, described without its loop. */
  lemma {:induction false} ItemsAre(log: seq<Record>, hidden: Hidden)
    ensures AllBearing(Items(log, hidden))
    ensures forall r :: FromRecord(r) in Items(log, hidden) <==>
            && r in log && r.event.Bearing() && r.at > Floor(log)
            && !hidden.Contains(r.at) && !CoveredBy(log, Floor(log), r.at)
    ensures forall n :: FromNote(n) in Items(log, hidden) <==>
            exists r :: r in log && Live(r, Floor(log)) && n == NoteOf(r.event.compaction)
  {
    var p := PlanOf(log, hidden);
    SortNotesSorted(p.notes);
    MergeMembers(log, SortNotes(p.notes), p.view);
    LiveNotesAre(log, Floor(log));
    forall r ensures FromRecord(r) in Items(log, hidden) <==>
            && r in log && r.event.Bearing() && r.at > Floor(log)
            && !hidden.Contains(r.at) && !CoveredBy(log, Floor(log), r.at)
    { SkipsMeans(log, hidden, r.at); }
  }

  /** The projection is an ordered merge: origins never fall, every note stands
      before the first shown record at or after its first covered sequence, and
      each shown record and each live compaction contributes exactly one message. */
  lemma {:induction false} ItemsMergeInOrder(log: seq<Record>, hidden: Hidden)
    requires Chronological(log)
    ensures OriginsRise(Items(log, hidden)) && NotesPlaced(Items(log, hidden)) && RecordsRise(Items(log, hidden))
    ensures multiset(Items(log, hidden))
         == multiset(ShownRecords(log, PlanOf(log, hidden).view))
          + multiset(NoteItems(LiveNotes(log, Floor(log))))
  {
    var p := PlanOf(log, hidden);
    SortNotesSorted(p.notes);
    MergeOrdered(log, SortNotes(p.notes), p.view);
    MergeConserves(log, SortNotes(p.notes), p.view);
    SortedNoteItems(p.notes);
  }

  /** Everything the lemmas about a projected list need, without its definition. */
  ghost predicate Faithful(log: seq<Record>, hidden: Hidden, items: seq<Item>) {
    && AllBearing(items) && OriginsRise(items) && NotesPlaced(items) && RecordsRise(items)
    && (forall r :: FromRecord(r) in items <==>
          && r in log && r.event.Bearing() && r.at > Floor(log)
          && !hidden.Contains(r.at) && !CoveredBy(log, Floor(log), r.at))
    && (forall n :: FromNote(n) in items <==>
          exists r :: r in log && Live(r, Floor(log)) && n == NoteOf(r.event.compaction))
  }

  lemma {:induction false} ItemsFaithful(log: seq<Record>, hidden: Hidden)
    requires Chronological(log)
    ensures Faithful(log, hidden, Items(log, hidden))
  {
    ItemsAre(log, hidden);
    ItemsMergeInOrder(log, hidden);
  }

  lemma {:induction false} InsertNoteItem(n: Note, sorted: seq<Note>)
    ensures multiset(NoteItems(InsertNote(n, sorted))) == multiset(NoteItems(sorted)) + multiset{FromNote(n)}
  {
    if sorted == [] || n.at < sorted[0].at {
      assert NoteItems([n] + sorted) == [FromNote(n)] + NoteItems(sorted);
    } else {
      InsertNoteItem(n, sorted[1..]);
      assert NoteItems(sorted) == [FromNote(sorted[0])] + NoteItems(sorted[1..]);
      var t := InsertNote(n, sorted[1..]);
      assert NoteItems([sorted[0]] + t) == [FromNote(sorted[0])] + NoteItems(t);
    }
  }

  lemma {:induction false} SortedNoteItems(notes: seq<Note>)
    ensures multiset(NoteItems(SortNotes(notes))) == multiset(NoteItems(notes))
  {
    if notes != [] {
      var init, last := notes[..|notes| - 1], notes[|notes| - 1];
      SortedNoteItems(init);
      InsertNoteItem(last, SortNotes(init));
      assert NoteItems(notes) == NoteItems(init) + [FromNote(last)];
    }
  }
}
