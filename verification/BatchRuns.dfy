/** Calls and their results stay together.

    A provider rejects a request in which a tool message does not follow the turn
    that called it, or a call has no result.  A log whose batches are whole keeps
    projecting to acceptable requests, however often it is compacted. */
module BatchRuns {
  import opened EventLog
  import opened HiddenRanges
  import opened Projection
  import opened ProjectionLaws
  import opened Compacting
  import opened CompactionRuns

  /** Ids still to be answered, in call order; None once the order was broken. */
  type Owed = Option<seq<string>>

  function Ids(calls: seq<Call>): seq<string> {
    seq(|calls|, i requires 0 <= i < |calls| => calls[i].id)
  }

  /** What one message does to the calls owed an answer. */
  function Answer(owed: Owed, m: Message): Owed {
    if owed.None? then None
    else if m.Tool? then
      if owed.value != [] && owed.value[0] == m.callId then Some(owed.value[1..]) else None
    else if owed.value != [] then None
    else Some(if m.Assistant? then Ids(m.calls) else [])
  }

  function OwedAfter(ms: seq<Message>, owed: Owed): Owed {
    if ms == [] then owed else OwedAfter(ms[1..], Answer(owed, ms[0]))
  }

  /** A request a provider accepts: every call answered, nothing out of place. */
  predicate Acceptable(ms: seq<Message>) { OwedAfter(ms, Some([])) == Some([]) }

  lemma {:induction false} OwedAfterConcat(a: seq<Message>, b: seq<Message>, owed: Owed)
    ensures OwedAfter(a + b, owed) == OwedAfter(b, OwedAfter(a, owed))
  {
    if a == [] {
      assert a + b == b;
    } else {
      OwedAfterConcat(a[1..], b, Answer(owed, a[0]));
      assert (a + b)[1..] == a[1..] + b;
    }
  }

  lemma {:induction false} NoneStays(ms: seq<Message>)
    ensures OwedAfter(ms, None) == None
  {
    if ms != [] { NoneStays(ms[1..]); }
  }

  /** Every tool message stands behind its calling turn or a sibling result. */
  ghost predicate ToolsFollowCalls(ms: seq<Message>) {
    forall k | 0 <= k < |ms| && ms[k].Tool? :: k > 0 && (ms[k - 1].Tool? || ms[k - 1].HasToolCalls())
  }

  lemma {:induction false} OwedMeansToolsFollow(ms: seq<Message>)
    requires OwedAfter(ms, Some([])).Some?
    ensures ToolsFollowCalls(ms)
  {
    forall k | 0 <= k < |ms| && ms[k].Tool? ensures k > 0 && (ms[k - 1].Tool? || ms[k - 1].HasToolCalls()) {
      assert ms == ms[..k] + ms[k..];
      OwedAfterConcat(ms[..k], ms[k..], Some([]));
      var o := OwedAfter(ms[..k], Some([]));
      NoneStays(ms[k + 1..]);
      assert ms[k..][0] == ms[k] && ms[k..][1..] == ms[k + 1..];
      assert o.Some? && o.value != [];
      if k > 0 {
        assert ms[..k] == ms[..k - 1] + [ms[k - 1]];
        OwedAfterConcat(ms[..k - 1], [ms[k - 1]], Some([]));
        assert o == Answer(OwedAfter(ms[..k - 1], Some([])), ms[k - 1]);
      }
    }
  }

  // --- the same reading of a log ------------------------------------------------------

  /** A conversation boundary may not part a call from its results either. */
  function Tick(owed: Owed, e: Event): Owed {
    if e.Bearing() then Answer(owed, Render(e, false))
    else if e.ConversationStarted? then (if owed == Some([]) then owed else None)
    else owed
  }

  function LogOwedFrom(log: seq<Record>, owed: Owed): Owed {
    if log == [] then owed else LogOwedFrom(log[1..], Tick(owed, log[0].event))
  }

  function LogOwed(log: seq<Record>): Owed { LogOwedFrom(log, Some([])) }

  lemma {:induction false} LogOwedConcat(a: seq<Record>, b: seq<Record>, owed: Owed)
    ensures LogOwedFrom(a + b, owed) == LogOwedFrom(b, LogOwedFrom(a, owed))
  {
    if a == [] {
      assert a + b == b;
    } else {
      LogOwedConcat(a[1..], b, Tick(owed, a[0].event));
      assert (a + b)[1..] == a[1..] + b;
    }
  }

  lemma {:induction false} LogNoneStays(log: seq<Record>)
    ensures LogOwedFrom(log, None) == None
  {
    if log != [] { LogNoneStays(log[1..]); }
  }

  lemma {:induction false} PrefixOwed(log: seq<Record>, k: int)
    requires LogOwed(log).Some? && 0 <= k <= |log|
    ensures LogOwed(log[..k]).Some?
    ensures k < |log| ==> LogOwed(log[..k + 1]) == Tick(LogOwed(log[..k]), log[k].event)
  {
    assert log == log[..k] + log[k..];
    LogOwedConcat(log[..k], log[k..], Some([]));
    LogNoneStays(log[k..]);
    if k < |log| {
      assert log[..k + 1] == log[..k] + [log[k]];
      LogOwedConcat(log[..k], [log[k]], Some([]));
    }
  }

  /** The latest assistant record: the caller of any result that comes next. */
  function Latest(log: seq<Record>, cur: Option<Record>): Option<Record> {
    if log == [] then cur
    else Latest(log[1..], if log[0].event.AssistantMessage? then Some(log[0]) else cur)
  }

  lemma {:induction false} LatestConcat(a: seq<Record>, b: seq<Record>, cur: Option<Record>)
    ensures Latest(a + b, cur) == Latest(b, Latest(a, cur))
  {
    if a == [] {
      assert a + b == b;
    } else {
      LatestConcat(a[1..], b, if a[0].event.AssistantMessage? then Some(a[0]) else cur);
      assert (a + b)[1..] == a[1..] + b;
    }
  }

  /** Index of the latest assistant record of a prefix still owing answers; only
      results and bookkeeping follow it. */
  lemma {:induction false} OpenBatch(log: seq<Record>, k: int) returns (c: int)
    requires LogOwed(log).Some? && 0 <= k <= |log|
    requires LogOwed(log[..k]).Some? && LogOwed(log[..k]).value != []
    ensures 0 <= c < k && log[c].event.AssistantMessage? && Latest(log[..k], None) == Some(log[c])
    ensures LogOwed(log[..c]) == Some([])
    ensures forall m | c < m < k :: !log[m].event.AssistantMessage? && !log[m].event.UserKind()
                                 && !log[m].event.ConversationStarted?
    decreases k
  {
    PrefixOwed(log, k);
    assert k > 0 by { assert log[..0] == []; }
    PrefixOwed(log, k - 1);
    assert log[..k] == log[..k - 1] + [log[k - 1]];
    LatestConcat(log[..k - 1], [log[k - 1]], None);
    if log[k - 1].event.AssistantMessage? {
      c := k - 1;
    } else {
      c := OpenBatch(log, k - 1);
    }
  }

  // --- whole batches -------------------------------------------------------------------

  /** A set of sequences that holds a result exactly when it holds its call. */
  ghost predicate WholeIn(log: seq<Record>, holds: nat -> bool) {
    forall j | 0 <= j < |log| && log[j].event.ToolResult? ::
      Latest(log[..j], None).Some? && (holds(log[j].at) <==> holds(Latest(log[..j], None).value.at))
  }

  ghost predicate HiddenWhole(log: seq<Record>, hidden: Hidden) { WholeIn(log, (at: nat) => hidden.Contains(at)) }
  ghost predicate CoveredWhole(log: seq<Record>) { WholeIn(log, (at: nat) => CoveredBy(log, 0, at)) }

  /** The same, walking a suffix with the caller carried along. */
  ghost predicate SkipsWhole(records: seq<Record>, cur: Option<Record>, v: View) {
    records == [] ||
    (var r := records[0];
     && (r.event.ToolResult? ==> cur.Some? && (v.Skips(r.at) <==> v.Skips(cur.value.at)))
     && SkipsWhole(records[1..], if r.event.AssistantMessage? then Some(r) else cur, v))
  }

  lemma {:induction false} WholeMeansSkipsWhole(log: seq<Record>, k: int, v: View)
    requires 0 <= k <= |log|
    requires forall j | 0 <= j < |log| && log[j].event.ToolResult? ::
               && Latest(log[..j], None).Some?
               && (v.Skips(log[j].at) <==> v.Skips(Latest(log[..j], None).value.at))
    ensures SkipsWhole(log[k..], Latest(log[..k], None), v)
    decreases |log| - k
  {
    if k < |log| {
      assert log[..k + 1] == log[..k] + [log[k]];
      LatestConcat(log[..k], [log[k]], None);
      WholeMeansSkipsWhole(log, k + 1, v);
      assert log[k..][1..] == log[k + 1..];
    }
  }

  /** A caller's result never has the floor between them. */
  lemma {:induction false} FloorWhole(log: seq<Record>, j: int)
    requires Chronological(log) && LogOwed(log).Some? && 0 <= j < |log| && log[j].event.ToolResult?
    ensures Latest(log[..j], None).Some?
    ensures log[j].at <= Floor(log) <==> Latest(log[..j], None).value.at <= Floor(log)
  {
    PrefixOwed(log, j);
    PrefixOwed(log, j + 1);
    var c := OpenBatch(log, j);
    FloorIs(log);
    if log[c].at <= Floor(log) < log[j].at {
      assert false;
    }
  }

  lemma {:induction false} SkipsAreWhole(log: seq<Record>, hidden: Hidden)
    requires Chronological(log) && SpansSpare(log) && LogOwed(log).Some?
    requires HiddenWhole(log, hidden) && CoveredWhole(log)
    ensures SkipsWhole(log, None, PlanOf(log, hidden).view)
  {
    var v := PlanOf(log, hidden).view;
    forall j | 0 <= j < |log| && log[j].event.ToolResult?
      ensures Latest(log[..j], None).Some?
      ensures v.Skips(log[j].at) <==> v.Skips(Latest(log[..j], None).value.at) {
      FloorWhole(log, j);
      var c := Latest(log[..j], None).value.at;
      SkipsMeans(log, hidden, log[j].at);
      SkipsMeans(log, hidden, c);
      if log[j].at > Floor(log) {
        CoverageAboveFloor(log, log[j].at);
        CoverageAboveFloor(log, c);
      }
    }
    assert log[0..] == log && log[..0] == [];
    WholeMeansSkipsWhole(log, 0, v);
  }

  // --- the projection answers its calls -------------------------------------------------

  ghost predicate HasAssistantAt(records: seq<Record>, at: nat) {
    exists a :: a in records && a.event.AssistantMessage? && a.at == at
  }

  /** Notes stand where an assistant turn was, or behind everything still to come. */
  ghost predicate NotesAtTurns(records: seq<Record>, notes: seq<Note>) {
    forall n :: n in notes ==>
      HasAssistantAt(records, n.at) || (records != [] ==> n.at < records[0].at)
  }

  ghost predicate NotesAhead(records: seq<Record>, notes: seq<Note>) {
    forall n :: n in notes ==> HasAssistantAt(records, n.at)
  }

  function ItemAnswer(owed: Owed, x: Item): Owed
    requires x.FromRecord? ==> x.record.event.Bearing()
  {
    if x.FromNote? then (if owed == Some([]) then owed else None) else Tick(owed, x.record.event)
  }

  function ItemsOwed(items: seq<Item>, owed: Owed): Owed
    requires AllBearing(items)
  {
    if items == [] then owed else
    assert forall i | 0 <= i < |items[1..]| :: items[1..][i] == items[i + 1];
    ItemsOwed(items[1..], ItemAnswer(owed, items[0]))
  }

  lemma {:induction false} NotesOwed(notes: seq<Note>)
    ensures ItemsOwed(NoteItems(notes), Some([])) == Some([])
  {
    if notes != [] {
      NotesOwed(notes[1..]);
      assert NoteItems(notes)[1..] == NoteItems(notes[1..]);
    }
  }

  lemma {:induction false} ConsOwed(x: Item, rest: seq<Item>, owed: Owed)
    requires AllBearing(rest) && (x.FromRecord? ==> x.record.event.Bearing())
    ensures AllBearing([x] + rest)
    ensures ItemsOwed([x] + rest, owed) == ItemsOwed(rest, ItemAnswer(owed, x))
  {
    assert ([x] + rest)[1..] == rest;
  }

  /** What the list owes follows what the log owes: the same calls while the batch
      under way is shown, none while it is not. */
  ghost predicate Tracks(cur: Option<Record>, v: View, logOwed: seq<string>, listOwed: seq<string>) {
    && (logOwed == [] ==> listOwed == [])
    && (logOwed != [] ==> cur.Some? && listOwed == if v.Skips(cur.value.at) then [] else logOwed)
  }

  lemma {:induction false} MergeAnswers(records: seq<Record>, notes: seq<Note>, v: View, cur: Option<Record>,
                                        logOwed: seq<string>, listOwed: seq<string>)
    requires Chronological(records)
    requires LogOwedFrom(records, Some(logOwed)).Some? && Tracks(cur, v, logOwed, listOwed)
    requires SkipsWhole(records, cur, v) && SortedNotes(notes) && NotesAtTurns(records, notes)
    requires listOwed != [] ==> NotesAhead(records, notes)
    ensures AllBearing(Merge(records, notes, v))
    ensures ItemsOwed(Merge(records, notes, v), Some(listOwed)).Some?
    ensures LogOwedFrom(records, Some(logOwed)) == Some([]) ==>
              ItemsOwed(Merge(records, notes, v), Some(listOwed)) == Some([])
    decreases |records| + |notes|
  {
    MergeMembers(records, notes, v);
    if records == [] {
      if listOwed == [] { NotesOwed(notes); } else {
        assert forall n :: n in notes ==> HasAssistantAt(records, n.at);
        assert notes == [];
      }
    } else {
      var r := records[0];
      if !v.Skips(r.at) && notes != [] && notes[0].at <= r.at {
        NoteIsDue(records, notes, v, cur, logOwed, listOwed);
        MergeAnswers(records, notes[1..], v, cur, logOwed, []);
        ConsOwed(FromNote(notes[0]), Merge(records, notes[1..], v), Some([]));
      } else {
        RecordIsDue(records, notes, v, cur, logOwed, listOwed);
      }
    }
  }

  /** A note that is due stands at no open call. */
  lemma {:induction false} NoteIsDue(records: seq<Record>, notes: seq<Note>, v: View, cur: Option<Record>,
                  logOwed: seq<string>, listOwed: seq<string>)
    requires Chronological(records) && records != [] && notes != [] && notes[0].at <= records[0].at
    requires LogOwedFrom(records, Some(logOwed)).Some? && Tracks(cur, v, logOwed, listOwed)
    requires listOwed != [] ==> NotesAhead(records, notes)
    ensures listOwed == []
  {
    LogNoneStays(records[1..]);
  }

  lemma {:induction false} RecordIsDue(records: seq<Record>, notes: seq<Note>, v: View, cur: Option<Record>,
                                       logOwed: seq<string>, listOwed: seq<string>)
    requires Chronological(records) && records != []
    requires LogOwedFrom(records, Some(logOwed)).Some? && Tracks(cur, v, logOwed, listOwed)
    requires SkipsWhole(records, cur, v) && SortedNotes(notes) && NotesAtTurns(records, notes)
    requires listOwed != [] ==> NotesAhead(records, notes)
    requires v.Skips(records[0].at) || notes == [] || notes[0].at > records[0].at
    ensures AllBearing(Merge(records, notes, v))
    ensures ItemsOwed(Merge(records, notes, v), Some(listOwed)).Some?
    ensures LogOwedFrom(records, Some(logOwed)) == Some([]) ==>
              ItemsOwed(Merge(records, notes, v), Some(listOwed)) == Some([])
    decreases |records| + |notes|, 0
  {
    MergeMembers(records, notes, v);
    var r, rest := records[0], records[1..];
    LogNoneStays(rest);
    var logNext := Tick(Some(logOwed), r.event);
    var curNext := if r.event.AssistantMessage? then Some(r) else cur;
    var shown := v.Shows(r);
    var listNext := if shown then Tick(Some(listOwed), r.event) else Some(listOwed);
    RecordTracks(records, v, cur, logOwed, listOwed);
    DropRecord(records, notes, r.at);
    hide Tracks, SkipsWhole, Answer;
    if listNext.value != [] {
      if listOwed == [] { assert r.event.AssistantMessage? && shown; }
      assert NotesAhead(rest, notes);
    }
    MergeAnswers(rest, notes, v, curNext, logNext.value, listNext.value);
    if shown {
      assert Merge(records, notes, v) == [FromRecord(r)] + Merge(rest, notes, v);
      ConsOwed(FromRecord(r), Merge(rest, notes, v), Some(listOwed));
    } else {
      assert Merge(records, notes, v) == Merge(rest, notes, v);
    }
  }

  lemma {:induction false} RecordTracks(records: seq<Record>, v: View, cur: Option<Record>, logOwed: seq<string>, listOwed: seq<string>)
    requires records != [] && LogOwedFrom(records, Some(logOwed)).Some? && Tracks(cur, v, logOwed, listOwed)
    requires SkipsWhole(records, cur, v)
    ensures var r := records[0];
            var logNext := Tick(Some(logOwed), r.event);
            var listNext := if v.Shows(r) then Tick(Some(listOwed), r.event) else Some(listOwed);
            var curNext := if r.event.AssistantMessage? then Some(r) else cur;
            && logNext.Some? && listNext.Some? && Tracks(curNext, v, logNext.value, listNext.value)
            && SkipsWhole(records[1..], curNext, v)
  {
    LogNoneStays(records[1..]);
  }

  /** Passing a record keeps notes at turns, and ahead unless they stood at it. */
  lemma {:induction false} DropRecord(records: seq<Record>, notes: seq<Note>, at: nat)
    requires Chronological(records) && records != [] && records[0].at == at && NotesAtTurns(records, notes)
    ensures NotesAtTurns(records[1..], notes)
    ensures !records[0].event.AssistantMessage? && NotesAhead(records, notes) ==> NotesAhead(records[1..], notes)
    ensures (forall n :: n in notes ==> n.at > at) ==> NotesAhead(records[1..], notes)
  {
    var rest := records[1..];
    assert records == [records[0]] + rest;
    forall n | n in notes ensures HasAssistantAt(rest, n.at) || (rest != [] ==> n.at < rest[0].at) {
      if HasAssistantAt(records, n.at) {
        var a :| a in records && a.event.AssistantMessage? && a.at == n.at;
        assert a == records[0] || a in rest;
      }
    }
    forall n | n in notes && HasAssistantAt(records, n.at) && (n.at > at || !records[0].event.AssistantMessage?)
      ensures HasAssistantAt(rest, n.at) {
      var a :| a in records && a.event.AssistantMessage? && a.at == n.at;
      assert a in rest;
    }
  }

  // --- the projected request -------------------------------------------------------------

  lemma {:induction false} ItemsOwedIsOwedAfter(items: seq<Item>, attribute: bool, owed: Owed)
    requires AllBearing(items) && forall i | 0 <= i < |items| && items[i].FromNote? :: items[i].note.message.User?
    ensures OwedAfter(Messages(items, attribute), owed) == ItemsOwed(items, owed)
  {
    if items != [] {
      var rest := items[1..];
      assert forall i | 0 <= i < |rest| :: rest[i] == items[i + 1];
      ItemsOwedIsOwedAfter(rest, attribute, ItemAnswer(owed, items[0]));
      assert Messages(items, attribute)[1..] == Messages(rest, attribute);
    }
  }

  /** Every recorded span starts at an assistant turn. */
  ghost predicate SpansAtTurns(log: seq<Record>) {
    forall r, k :: r in log && r.event.ContextCompacted? && 0 <= k < |r.event.compaction.spans| ==>
      HasAssistantAt(log, r.event.compaction.spans[k].from)
  }

  /** A log whose batches are whole, under coverage and hiding that never part a
      call from its results, projects to a request in which every tool message
      answers the call before it; and a complete log, to an acceptable request. */
  lemma {:induction false} ProjectionAnswers(log: seq<Record>, hidden: Hidden, prompt: string)
    requires Chronological(log) && SpansSpare(log) && SpansAtTurns(log) && LogOwed(log).Some?
    requires HiddenWhole(log, hidden) && CoveredWhole(log)
    ensures OwedAfter(ListedMessages(log, hidden, prompt), Some([])).Some?
    ensures LogOwed(log) == Some([]) ==> Acceptable(ListedMessages(log, hidden, prompt))
  {
    ItemsAnswer(log, hidden);
    hide Items, PlanOf, ItemsOwed, HiddenWhole, CoveredWhole, LogOwed;
    ListedOwes(log, hidden, prompt);
  }

  lemma {:induction false} ItemsAnswer(log: seq<Record>, hidden: Hidden)
    requires Chronological(log) && SpansSpare(log) && SpansAtTurns(log) && LogOwed(log).Some?
    requires HiddenWhole(log, hidden) && CoveredWhole(log)
    ensures AllBearing(Items(log, hidden))
    ensures ItemsOwed(Items(log, hidden), Some([])).Some?
    ensures LogOwed(log) == Some([]) ==> ItemsOwed(Items(log, hidden), Some([])) == Some([])
  {
    var p := PlanOf(log, hidden);
    var notes := SortNotes(p.notes);
    SortNotesSorted(p.notes);
    SkipsAreWhole(log, hidden);
    forall n | n in notes ensures HasAssistantAt(log, n.at) { NoteAtTurn(log, n); }
    hide View.Skips, SkipsWhole, HiddenWhole, CoveredWhole, Floor;
    MergeAnswers(log, notes, p.view, None, [], []);
  }

  lemma {:induction false} NoteAtTurn(log: seq<Record>, n: Note)
    requires SpansAtTurns(log) && n in LiveNotes(log, Floor(log))
    ensures HasAssistantAt(log, n.at)
  {
    hide Floor, HasAssistantAt;
    LiveNotesAre(log, Floor(log));
    var r :| r in log && Live(r, Floor(log)) && n == NoteOf(r.event.compaction);
    assert HasAssistantAt(log, r.event.compaction.spans[0].from);
  }

  /** What a request owes is what its items owe: the prompt owes nothing. */
  lemma {:induction false} ListedOwes(log: seq<Record>, hidden: Hidden, prompt: string)
    ensures AllBearing(Items(log, hidden))
    ensures OwedAfter(ListedMessages(log, hidden, prompt), Some([])) == ItemsOwed(Items(log, hidden), Some([]))
  {
    hide Items, PlanOf, ItemsOwed;
    var items, attribute := Items(log, hidden), PlanOf(log, hidden).attribute;
    ItemsAre(log, hidden);
    forall i | 0 <= i < |items| && items[i].FromNote? ensures items[i].note.message.User? { NoteReads(log, hidden, i); }
    ItemsOwedIsOwedAfter(items, attribute, Some([]));
    assert ListedMessages(log, hidden, prompt)[1..] == Messages(items, attribute);
  }

  // --- plans keep batches whole ------------------------------------------------------------

  lemma {:induction false} RoundsClean(ms: seq<Message>, i: nat, hi: nat)
    requires hi < |ms| && ToolsFollowCalls(ms) && !IsTool(ms, hi + 1)
    requires i <= hi ==> !ms[i].Tool?
    ensures forall x | 0 <= x < |Rounds(ms, i, hi)| ::
              !IsTool(ms, Rounds(ms, i, hi)[x].start) && !IsTool(ms, Rounds(ms, i, hi)[x].end + 1)
    decreases hi + 1 - i
  {
    if i > hi {
    } else if ms[i].User? {
      RoundsClean(ms, i + 1, hi);
    } else {
      RoundsClean(ms, RoundAt(ms, i, hi).end + 1, hi);
    }
  }

  /** On a list whose tool messages follow their calls, no span starts on a result
      or stops short of one. */
  lemma {:induction false} PlanSpansClean(ms: seq<Message>, tokens: nat, policy: Policy)
    requires ToolsFollowCalls(ms)
    ensures forall s :: s in PlanSpans(ms, tokens, policy) ==> !IsTool(ms, s.start) && !IsTool(ms, s.end + 1)
  {
    var middle := EligibleMiddle(ms, policy.keepHead, policy.keepTail);
    if middle.Some? {
      var lo, hi := middle.value.0, middle.value.1;
      var rounds := Rounds(ms, lo, hi);
      var need := SatSub(tokens, policy.target);
      var selected := SelectFrom(ms, rounds, need, 0);
      SelectFromIsSelection(ms, rounds, need, 0);
      RoundsClean(ms, lo, hi);
      SpansOnBoundaries(selected);
      forall s | s in Spans(selected) ensures !IsTool(ms, s.start) && !IsTool(ms, s.end + 1) {
        assert StartsAt(selected, s.start) && EndsAt(selected, s.end);
        var i :| 0 <= i < |selected| && selected[i].start == s.start;
        var j :| 0 <= j < |selected| && selected[j].end == s.end;
        assert rounds[i] == selected[i] && rounds[j] == selected[j];
      }
    }
  }

  ghost predicate ResultItem(items: seq<Item>, k: int) {
    0 <= k < |items| && items[k].FromRecord? && items[k].record.event.ToolResult?
  }

  /** No turn and no user text of the log lies behind the call and up to the result. */
  ghost predicate SameBatch(log: seq<Record>, c: Record, r: Record) {
    && c in log && r in log && c.event.AssistantMessage? && r.event.ToolResult? && c.at < r.at
    && forall q :: q in log && c.at < q.at <= r.at ==> !q.event.AssistantMessage? && !q.event.UserKind()
  }

  lemma {:induction false} CallerOf(log: seq<Record>, j: int) returns (c: Record)
    requires Chronological(log) && LogOwed(log).Some? && 0 <= j < |log| && log[j].event.ToolResult?
    ensures Latest(log[..j], None) == Some(c) && SameBatch(log, c, log[j])
    ensures c.at <= Floor(log) <==> log[j].at <= Floor(log)
  {
    PrefixOwed(log, j);
    PrefixOwed(log, j + 1);
    var i := OpenBatch(log, j);
    c := log[i];
    FloorWhole(log, j);
    forall q | q in log && c.at < q.at <= log[j].at ensures !q.event.AssistantMessage? && !q.event.UserKind() {
      var m :| 0 <= m < |log| && log[m] == q;
      assert i < m <= j;
    }
  }

  /** Between a shown call and its shown result only sibling results stand. */
  lemma {:induction false} OnlyResultsBetween(log: seq<Record>, hidden: Hidden, items: seq<Item>,
                                              c: Record, r: Record, m: int, q: int, k: int)
    requires Chronological(log) && Faithful(log, hidden, items) && SpansAtTurns(log) && SameBatch(log, c, r)
    requires 0 <= m < k <= q < |items| && items[m] == FromRecord(c) && items[q] == FromRecord(r)
    ensures ResultItem(items, k)
  {
    hide Floor, CoveredBy, SpansAtTurns, Chronological;
    ItemIn(items, k);
    assert items[k].Origin() <= items[q].Origin();
    if items[k].FromNote? {
      NoteNotInBatch(log, hidden, items, c, r, m, k);
    } else {
      assert items[m].record.at < items[k].record.at;
    }
  }

  lemma {:induction false} NoteNotInBatch(log: seq<Record>, hidden: Hidden, items: seq<Item>,
                                          c: Record, r: Record, m: int, k: int)
    requires Chronological(log) && Faithful(log, hidden, items) && SpansAtTurns(log) && SameBatch(log, c, r)
    requires 0 <= m < k < |items| && items[m] == FromRecord(c) && items[k].FromNote?
    ensures items[k].note.at > r.at
  {
    hide Floor, CoveredBy, RecordsRise, OriginsRise, AllBearing;
    ItemIn(items, k);
    assert !(k < m);
    assert c.at < items[k].note.at;
    assert items[k].note in LiveNotes(log, Floor(log)) by { LiveNotesAre(log, Floor(log)); }
    hide LiveNotes, Faithful;
    NoteAtTurn(log, items[k].note);
    var a :| a in log && a.event.AssistantMessage? && a.at == items[k].note.at;
  }

  /** A job that holds an uncovered call or result holds the other one too. */
  ghost predicate JobWhole(log: seq<Record>, job: Job) {
    forall c, r :: SameBatch(log, c, r) && !CoveredBy(log, 0, c.at) && !CoveredBy(log, 0, r.at) ==>
      (job.first <= c.at <= job.last <==> job.first <= r.at <= job.last)
  }

  /** Every batch of the log that is hidden is hidden whole. */
  ghost predicate BatchHiddenWhole(log: seq<Record>, hidden: Hidden) {
    forall c, r :: SameBatch(log, c, r) ==> (hidden.Contains(c.at) <==> hidden.Contains(r.at))
  }

  /** In the order of the log a result's batch-mate is its caller. */
  lemma {:induction false} SameBatchIsCaller(log: seq<Record>, j: int, c: Record)
    requires Chronological(log) && LogOwed(log).Some? && 0 <= j < |log| && SameBatch(log, c, log[j])
    ensures Latest(log[..j], None) == Some(c)
  {
    var d := CallerOf(log, j);
    if d.at < c.at { assert false; }
    if c.at < d.at { assert false; }
    SameAtSameRecord(log, c, d);
  }

  lemma {:induction false} HiddenWholeBatches(log: seq<Record>, hidden: Hidden)
    requires Chronological(log) && LogOwed(log).Some? && HiddenWhole(log, hidden)
    ensures BatchHiddenWhole(log, hidden)
  {
    forall c, r | SameBatch(log, c, r) ensures hidden.Contains(c.at) <==> hidden.Contains(r.at) {
      var j :| 0 <= j < |log| && log[j] == r;
      SameBatchIsCaller(log, j, c);
    }
  }

  lemma {:induction false} BatchAboveFloor(log: seq<Record>, c: Record, r: Record)
    requires Chronological(log) && LogOwed(log).Some? && SameBatch(log, c, r)
    ensures c.at <= Floor(log) <==> r.at <= Floor(log)
  {
    var j :| 0 <= j < |log| && log[j] == r;
    var d := CallerOf(log, j);
    SameBatchIsCaller(log, j, c);
  }

  /** Both members of an uncovered batch are shown, or neither is. */
  lemma {:induction false} BatchShown(log: seq<Record>, hidden: Hidden, items: seq<Item>, c: Record, r: Record)
    requires Chronological(log) && LogOwed(log).Some? && Faithful(log, hidden, items) && SpansSpare(log)
    requires BatchHiddenWhole(log, hidden) && SameBatch(log, c, r)
    requires !CoveredBy(log, 0, c.at) && !CoveredBy(log, 0, r.at)
    requires c.at > Floor(log) || r.at > Floor(log)
    requires !hidden.Contains(c.at) || !hidden.Contains(r.at)
    ensures FromRecord(c) in items && FromRecord(r) in items
  {
    BatchAboveFloor(log, c, r);
    CoverageAboveFloor(log, c.at);
    CoverageAboveFloor(log, r.at);
  }

  /** A job cut from whole spans holds whole batches. */
  lemma {:induction false} CleanJobWhole(log: seq<Record>, hidden: Hidden, items: seq<Item>, i: int, e: int, job: Job)
    requires Chronological(log) && LogOwed(log).Some? && Faithful(log, hidden, items)
    requires SpansSpare(log) && SpansAtTurns(log) && BatchHiddenWhole(log, hidden)
    requires CoversItems(items, i, e, job) && !hidden.Intersects(job.first, job.last)
    requires !ResultItem(items, i) && !ResultItem(items, e + 1)
    ensures JobWhole(log, job)
  {
    JobEnds(log, hidden, items, i, e, job);
    forall c, r | SameBatch(log, c, r) && !CoveredBy(log, 0, c.at) && !CoveredBy(log, 0, r.at)
      ensures job.first <= c.at <= job.last <==> job.first <= r.at <= job.last {
      if job.first <= c.at <= job.last || job.first <= r.at <= job.last {
        BatchInJob(log, hidden, items, i, e, job, c, r);
      }
    }
  }

  lemma {:induction false} BatchInJob(log: seq<Record>, hidden: Hidden, items: seq<Item>, i: int, e: int, job: Job,
                                      c: Record, r: Record)
    requires Chronological(log) && LogOwed(log).Some? && Faithful(log, hidden, items)
    requires SpansSpare(log) && SpansAtTurns(log) && BatchHiddenWhole(log, hidden)
    requires CoversItems(items, i, e, job) && !hidden.Intersects(job.first, job.last) && Floor(log) < job.first
    requires !ResultItem(items, i) && !ResultItem(items, e + 1)
    requires SameBatch(log, c, r) && !CoveredBy(log, 0, c.at) && !CoveredBy(log, 0, r.at)
    requires job.first <= c.at <= job.last || job.first <= r.at <= job.last
    ensures job.first <= c.at && r.at <= job.last
  {
    if job.first <= c.at <= job.last { NotHiddenInside(hidden, job, c.at); }
    else { NotHiddenInside(hidden, job, r.at); }
    BatchShown(log, hidden, items, c, r);
    var m :| 0 <= m < |items| && items[m] == FromRecord(c);
    var q :| 0 <= q < |items| && items[q] == FromRecord(r);
    BatchPlaces(log, hidden, items, i, e, job, c, r, m, q);
  }

  /** Neither end of a clean span falls between a call and its result. */
  lemma {:induction false} BatchPlaces(log: seq<Record>, hidden: Hidden, items: seq<Item>, i: int, e: int, job: Job,
                                       c: Record, r: Record, m: int, q: int)
    requires Chronological(log) && Faithful(log, hidden, items) && SpansAtTurns(log) && SameBatch(log, c, r)
    requires CoversItems(items, i, e, job) && !ResultItem(items, i) && !ResultItem(items, e + 1)
    requires 0 <= m < |items| && items[m] == FromRecord(c) && 0 <= q < |items| && items[q] == FromRecord(r)
    requires job.first <= c.at <= job.last || job.first <= r.at <= job.last
    ensures job.first <= c.at && r.at <= job.last
  {
    OtherNotBetween(log, hidden, items, c, r, m, q, i);
    OtherNotBetween(log, hidden, items, c, r, m, q, e + 1);
    PlacesInJob(items, i, e, m, q);
  }

  lemma {:induction false} PlacesInJob(items: seq<Item>, i: int, e: int, m: int, q: int)
    requires RecordsRise(items) && 0 <= i <= e < |items| && 0 <= m < |items| && 0 <= q < |items|
    requires items[i].FromRecord? && items[e].FromRecord? && items[m].FromRecord? && items[q].FromRecord?
    requires items[m].record.at < items[q].record.at
    requires !(m < i <= q) && !(m < e + 1 <= q)
    requires items[i].record.at <= items[m].record.at <= items[e].record.at
          || items[i].record.at <= items[q].record.at <= items[e].record.at
    ensures items[i].record.at <= items[m].record.at && items[q].record.at <= items[e].record.at
  {
    RecordOrder(items, m, q);
    RecordOrder(items, m, i);
    RecordOrder(items, i, m);
    RecordOrder(items, q, e);
    RecordOrder(items, e, q);
    RecordOrder(items, e, m);
    RecordOrder(items, q, i);
  }

  lemma {:induction false} OtherNotBetween(log: seq<Record>, hidden: Hidden, items: seq<Item>,
                                           c: Record, r: Record, m: int, q: int, k: int)
    requires Chronological(log) && Faithful(log, hidden, items) && SpansAtTurns(log) && SameBatch(log, c, r)
    requires 0 <= m < |items| && 0 <= q < |items| && items[m] == FromRecord(c) && items[q] == FromRecord(r)
    requires !ResultItem(items, k)
    ensures !(m < k <= q)
  {
    if m < k <= q {
      OnlyResultsBetween(log, hidden, items, c, r, m, q, k);
      assert false;
    }
  }

  lemma {:induction false} RecordOrder(items: seq<Item>, a: int, b: int)
    requires RecordsRise(items) && 0 <= a < |items| && 0 <= b < |items|
    requires items[a].FromRecord? && items[b].FromRecord?
    ensures a < b <==> items[a].record.at < items[b].record.at
  {}

  // --- the run --------------------------------------------------------------------------------

  /** While the last turn's batch is open, nothing recorded or planned reaches it. */
  ghost predicate ClosedUpTo(log: seq<Record>, through: nat) {
    Latest(log, None).Some? && Latest(log, None).value.at <= through ==> LogOwed(log) == Some([])
  }

  ghost predicate BatchInv(s: State) {
    && Safe(s) && LogOwed(s.log).Some?
    && CoveredWhole(s.log) && SpansAtTurns(s.log)
    && (forall r, k :: r in s.log && r.event.ContextCompacted? && 0 <= k < |r.event.compaction.spans| ==>
          ClosedUpTo(s.log, r.event.compaction.spans[k].through))
    && forall x | 0 <= x < |s.jobs| ::
         JobWhole(s.log, s.jobs[x]) && HasAssistantAt(s.log, s.jobs[x].first) && ClosedUpTo(s.log, s.jobs[x].last)
  }

  lemma {:induction false} ClosedUpToAppend(log: seq<Record>, r: Record, through: nat)
    requires ClosedUpTo(log, through) && through < r.at && LogOwed(log).Some? && LogOwed(log + [r]).Some?
    ensures ClosedUpTo(log + [r], through)
    ensures r.event.ToolResult? && Latest(log, None).Some? ==> Latest(log, None).value.at > through
  {
    LatestConcat(log, [r], None);
    LogOwedConcat(log, [r], Some([]));
  }

  lemma {:induction false} HasAssistantAppend(log: seq<Record>, r: Record, at: nat)
    requires HasAssistantAt(log, at)
    ensures HasAssistantAt(log + [r], at)
  {
    var a :| a in log && a.event.AssistantMessage? && a.at == at;
    assert a in log + [r];
  }

  /** A record newer than a job never joins a batch inside it. */
  lemma {:induction false} JobWholeAppend(log: seq<Record>, job: Job, r: Record)
    requires Chronological(log) && r.at > LastAt(log) && job.last <= LastAt(log) && !r.event.ContextCompacted?
    requires LogOwed(log).Some? && LogOwed(log + [r]).Some? && ClosedUpTo(log, job.last) && JobWhole(log, job)
    ensures JobWhole(log + [r], job)
  {
    ChronologicalAppend(log, r);
    ClosedUpToAppend(log, r, job.last);
    var log' := log + [r];
    forall c, t | SameBatch(log', c, t) && !CoveredBy(log', 0, c.at) && !CoveredBy(log', 0, t.at)
      ensures job.first <= c.at <= job.last <==> job.first <= t.at <= job.last {
      if t == r {
        assert log'[|log|] == r && log'[..|log|] == log;
        SameBatchIsCaller(log', |log|, c);
      } else {
        assert c in log && t in log;
        assert SameBatch(log, c, t);
        if CoveredBy(log, 0, c.at) { CoverageGrows(log, r, c.at); }
        if CoveredBy(log, 0, t.at) { CoverageGrows(log, r, t.at); }
      }
    }
  }

  /** Coverage after an append: what was covered, and what a new compaction covers. */
  lemma {:induction false} CoverageAfter(log: seq<Record>, r: Record, at: nat)
    requires r.at > 0
    ensures CoveredBy(log + [r], 0, at) <==>
            || CoveredBy(log, 0, at)
            || (r.event.ContextCompacted? && SomeHas(r.event.compaction.spans, at))
  {
    if CoveredBy(log, 0, at) { CoverageGrows(log, r, at); }
    if CoveredBy(log + [r], 0, at) {
      var q, k :| q in log + [r] && Live(q, 0) && 0 <= k < |q.event.compaction.spans|
               && q.event.compaction.spans[k].Has(at);
      if q in log { assert CoveredBy(log, 0, at); }
    }
    if r.event.ContextCompacted? && SomeHas(r.event.compaction.spans, at) {
      var k :| 0 <= k < |r.event.compaction.spans| && r.event.compaction.spans[k].Has(at);
      assert Live(r, 0) && r in log + [r];
    }
  }

  lemma {:induction false} NotCoveredBeyond(log: seq<Record>, at: nat)
    requires forall r, k :: r in log && r.event.ContextCompacted? && 0 <= k < |r.event.compaction.spans| ==>
               r.event.compaction.spans[k].through < at
    ensures !CoveredBy(log, 0, at)
  {}

  lemma {:induction false} AppendCoveredWhole(s: State, r: Record)
    requires BatchInv(s) && r.at > LastAt(s.log) && !r.event.ContextCompacted? && LogOwed(s.log + [r]).Some?
    ensures CoveredWhole(s.log + [r])
  {
    hide BatchInv, CoveredBy, LogOwed, Latest;
    forall j | 0 <= j < |s.log + [r]| && (s.log + [r])[j].event.ToolResult?
      ensures Latest((s.log + [r])[..j], None).Some?
      ensures CoveredBy(s.log + [r], 0, (s.log + [r])[j].at)
         <==> CoveredBy(s.log + [r], 0, Latest((s.log + [r])[..j], None).value.at) {
      ResultStaysWhole(s, r, j);
    }
  }

  lemma {:induction false} ResultStaysWhole(s: State, r: Record, j: int)
    requires BatchInv(s) && r.at > LastAt(s.log) && !r.event.ContextCompacted? && LogOwed(s.log + [r]).Some?
    requires 0 <= j < |s.log + [r]| && (s.log + [r])[j].event.ToolResult?
    ensures Latest((s.log + [r])[..j], None).Some?
    ensures CoveredBy(s.log + [r], 0, (s.log + [r])[j].at)
       <==> CoveredBy(s.log + [r], 0, Latest((s.log + [r])[..j], None).value.at)
  {
    var log' := s.log + [r];
    ChronologicalAppend(s.log, r);
    hide CoveredBy, LogOwed, ClosedUpTo, JobWhole, HasAssistantAt, Spares, SameBatch, SpansSpare, JobsSpare, SpansAtTurns;
    var c := CallerOf(log', j);
    CoverageAfter(s.log, r, log'[j].at);
    CoverageAfter(s.log, r, c.at);
    if j < |s.log| {
      assert log'[..j] == s.log[..j] && log'[j] == s.log[j];
    } else {
      assert log'[..j] == s.log && log'[j] == r;
      OpenBatchUncovered(s, r, c);
    }
  }

  /** The batch a new result belongs to is not covered yet, nor is the result. */
  lemma {:induction false} OpenBatchUncovered(s: State, r: Record, c: Record)
    requires BatchInv(s) && r.at > LastAt(s.log) && r.event.ToolResult? && LogOwed(s.log + [r]).Some?
    requires Latest(s.log, None) == Some(c)
    ensures !CoveredBy(s.log, 0, c.at) && !CoveredBy(s.log, 0, r.at)
  {
    LastAtBounds(s.log);
    hide CoveredBy, LogOwed, Latest, JobWhole, HasAssistantAt, Spares, CoveredWhole, Chronological;
    forall q, k | q in s.log && q.event.ContextCompacted? && 0 <= k < |q.event.compaction.spans|
      ensures q.event.compaction.spans[k].through < c.at && q.event.compaction.spans[k].through < r.at {
      ClosedUpToAppend(s.log, r, q.event.compaction.spans[k].through);
    }
    NotCoveredBeyond(s.log, c.at);
    NotCoveredBeyond(s.log, r.at);
  }

  lemma {:induction false} AppendKeepsBatches(s: State, r: Record)
    requires BatchInv(s) && r.at > LastAt(s.log) && !r.event.ContextCompacted? && LogOwed(s.log + [r]).Some?
    ensures BatchInv(State(s.log + [r], s.jobs))
  {
    var log' := s.log + [r];
    AppendKeepsSafe(s.log, s.jobs, r);
    AppendCoveredWhole(s, r);
    LastAtBounds(s.log);
    forall q, k | q in log' && q.event.ContextCompacted? && 0 <= k < |q.event.compaction.spans|
      ensures ClosedUpTo(log', q.event.compaction.spans[k].through)
      ensures HasAssistantAt(log', q.event.compaction.spans[k].from) {
      ClosedUpToAppend(s.log, r, q.event.compaction.spans[k].through);
      HasAssistantAppend(s.log, r, q.event.compaction.spans[k].from);
    }
    forall x | 0 <= x < |s.jobs|
      ensures JobWhole(log', s.jobs[x]) && HasAssistantAt(log', s.jobs[x].first) && ClosedUpTo(log', s.jobs[x].last) {
      JobWholeAppend(s.log, s.jobs[x], r);
      HasAssistantAppend(s.log, r, s.jobs[x].first);
      ClosedUpToAppend(s.log, r, s.jobs[x].last);
    }
  }

  lemma {:induction false} CommitCoveredWhole(s: State, kept: seq<nat>, r: Record)
    requires BatchInv(s) && Step(s, Commit(kept, r), State(s.log + [r], []))
    ensures CoveredWhole(s.log + [r])
  {
    var log', spans := s.log + [r], r.event.compaction.spans;
    ChronologicalAppend(s.log, r);
    LogOwedConcat(s.log, [r], Some([]));
    forall j | 0 <= j < |log'| && log'[j].event.ToolResult?
      ensures Latest(log'[..j], None).Some?
      ensures CoveredBy(log', 0, log'[j].at) <==> CoveredBy(log', 0, Latest(log'[..j], None).value.at) {
      assert j < |s.log| && log'[..j] == s.log[..j] && log'[j] == s.log[j];
      var c := CallerOf(s.log, j);
      CoverageAfter(s.log, r, s.log[j].at);
      CoverageAfter(s.log, r, c.at);
      if !CoveredBy(s.log, 0, c.at) {
        SpansHoldBatch(s, kept, spans, c, s.log[j]);
      }
    }
  }

  lemma {:induction false} SpansHoldBatch(s: State, kept: seq<nat>, spans: seq<SeqSpan>, c: Record, r: Record)
    requires BatchInv(s) && Indices(kept, |s.jobs|) && Records(spans, s.jobs, kept)
    requires SameBatch(s.log, c, r) && !CoveredBy(s.log, 0, c.at) && !CoveredBy(s.log, 0, r.at)
    ensures SomeHas(spans, c.at) <==> SomeHas(spans, r.at)
  {
    forall k | 0 <= k < |spans| ensures spans[k].Has(c.at) <==> spans[k].Has(r.at) {
      assert JobWhole(s.log, s.jobs[kept[k]]);
    }
  }

  lemma {:induction false} CommitKeepsBatches(s: State, kept: seq<nat>, r: Record)
    requires BatchInv(s) && Step(s, Commit(kept, r), State(s.log + [r], []))
    ensures BatchInv(State(s.log + [r], []))
  {
    var log' := s.log + [r];
    StepKeepsSafe(s, Commit(kept, r), State(log', []));
    CommitCoveredWhole(s, kept, r);
    LogOwedConcat(s.log, [r], Some([]));
    LastAtBounds(s.log);
    hide CoveredWhole, ClosedUpTo, HasAssistantAt, JobWhole, Chronological, Spares;
    forall q, k | q in log' && q.event.ContextCompacted? && 0 <= k < |q.event.compaction.spans|
      ensures ClosedUpTo(log', q.event.compaction.spans[k].through)
      ensures HasAssistantAt(log', q.event.compaction.spans[k].from) {
      SpanStaysClosed(s, kept, r, q, k);
    }
  }

  lemma {:induction false} SpanStaysClosed(s: State, kept: seq<nat>, r: Record, q: Record, k: int)
    requires BatchInv(s) && Step(s, Commit(kept, r), State(s.log + [r], []))
    requires q in s.log + [r] && q.event.ContextCompacted? && 0 <= k < |q.event.compaction.spans|
    ensures ClosedUpTo(s.log + [r], q.event.compaction.spans[k].through)
    ensures HasAssistantAt(s.log + [r], q.event.compaction.spans[k].from)
  {
    LastAtBounds(s.log);
    LogOwedConcat(s.log, [r], Some([]));
    hide CoveredWhole, ClosedUpTo, HasAssistantAt, JobWhole, Chronological, Spares;
    if q in s.log {
      ClosedUpToAppend(s.log, r, q.event.compaction.spans[k].through);
      HasAssistantAppend(s.log, r, q.event.compaction.spans[k].from);
    } else {
      ClosedUpToAppend(s.log, r, s.jobs[kept[k]].last);
      HasAssistantAppend(s.log, r, s.jobs[kept[k]].first);
    }
  }

  lemma {:induction false} PlanKeepsBatches(s: State, hidden: Hidden, prompt: string, tokens: nat, policy: Policy, s': State)
    requires BatchInv(s) && Step(s, Propose(hidden, prompt, tokens, policy), s')
    requires LogOwed(s.log) == Some([]) && HiddenWhole(s.log, hidden)
    ensures BatchInv(s')
  {
    var ms, items := ListedMessages(s.log, hidden, prompt), Items(s.log, hidden);
    StepKeepsSafe(s, Propose(hidden, prompt, tokens, policy), s');
    ListedLists(s.log, hidden, prompt);
    ItemsFaithful(s.log, hidden);
    HiddenWholeBatches(s.log, hidden);
    var starts, ends := PlannedJobs(ms, ListedOrigins(s.log, hidden), items, tokens, policy, hidden);
    ProjectionAnswers(s.log, hidden, prompt);
    OwedMeansToolsFollow(ms);
    PlanSpansClean(ms, tokens, policy);
    forall k: int | 1 <= k ensures IsTool(ms, k) <==> ResultItem(items, k - 1) { ListedTool(s.log, hidden, prompt, k); }
    CleanJobsWhole(s.log, hidden, ms, items, PlanSpans(ms, tokens, policy), s'.jobs, starts, ends);
  }

  lemma {:induction false} CleanJobsWhole(log: seq<Record>, hidden: Hidden, ms: seq<Message>, items: seq<Item>,
                                          spans: seq<Round>, jobs: seq<Job>, starts: seq<int>, ends: seq<int>)
    requires Chronological(log) && LogOwed(log).Some? && Faithful(log, hidden, items)
    requires SpansSpare(log) && SpansAtTurns(log) && BatchHiddenWhole(log, hidden)
    requires GoodJobs(items, hidden, jobs, starts, ends) && MadeFrom(spans, starts, ends)
    requires forall s :: s in spans ==> !IsTool(ms, s.start) && !IsTool(ms, s.end + 1)
    requires forall k: int | 1 <= k :: IsTool(ms, k) <==> ResultItem(items, k - 1)
    ensures forall x | 0 <= x < |jobs| :: JobWhole(log, jobs[x]) && HasAssistantAt(log, jobs[x].first)
  {
    hide Chronological, LogOwed, Faithful, SpansSpare, SpansAtTurns, BatchHiddenWhole, JobWhole, HasAssistantAt;
    hide CoversItems, ResultItem, IsTool, UserBefore, Hidden.Intersects;
    forall x | 0 <= x < |jobs| ensures JobWhole(log, jobs[x]) && HasAssistantAt(log, jobs[x].first) {
      assert Round(starts[x] + 1, ends[x] + 1) in spans;
      assert !IsTool(ms, starts[x] + 1) && !IsTool(ms, ends[x] + 1 + 1);
      CleanJobWhole(log, hidden, items, starts[x], ends[x], jobs[x]);
      JobAtTurn(log, hidden, items, starts[x], ends[x], jobs[x]);
    }
  }

  lemma {:induction false} JobAtTurn(log: seq<Record>, hidden: Hidden, items: seq<Item>, i: int, e: int, job: Job)
    requires Chronological(log) && Faithful(log, hidden, items) && SpansSpare(log)
    requires CoversItems(items, i, e, job) && !ResultItem(items, i)
    ensures HasAssistantAt(log, job.first)
  {
    JobEnds(log, hidden, items, i, e, job);
    hide Floor, CoveredBy, RecordsRise, OriginsRise, NotesPlaced, SpansSpare, Chronological;
    ItemIn(items, i);
  }

  lemma {:induction false} ListedTool(log: seq<Record>, hidden: Hidden, prompt: string, k: int)
    requires 1 <= k
    ensures IsTool(ListedMessages(log, hidden, prompt), k) <==> ResultItem(Items(log, hidden), k - 1)
  {
    hide Items, PlanOf;
    var items := Items(log, hidden);
    if k - 1 < |items| {
      NoteReads(log, hidden, k - 1);
      assert ListedMessages(log, hidden, prompt)[k] == MessageOf(items[k - 1], PlanOf(log, hidden).attribute);
    }
  }

  /** The hypotheses the code does not establish itself: no record a user said (and
      no conversation boundary) lands between a call and its results, plans are made
      when no call is owed, and hidden ranges never cut a batch. */
  ghost predicate Orderly(states: seq<State>, acts: seq<Action>)
    requires |states| == |acts| + 1
  {
    && (forall i | 0 <= i < |states| :: LogOwed(states[i].log).Some?)
    && forall i | 0 <= i < |acts| && acts[i].Propose? ::
         LogOwed(states[i].log) == Some([]) && HiddenWhole(states[i].log, acts[i].hidden)
  }

  lemma {:induction false} StepKeepsBatches(s: State, a: Action, s': State)
    requires BatchInv(s) && Step(s, a, s') && LogOwed(s'.log).Some?
    requires a.Propose? ==> LogOwed(s.log) == Some([]) && HiddenWhole(s.log, a.hidden)
    ensures BatchInv(s')
  {
    match a
    case Append(r) => AppendKeepsBatches(s, r);
    case Propose(hidden, prompt, tokens, policy) => PlanKeepsBatches(s, hidden, prompt, tokens, policy, s');
    case Commit(kept, r) => CommitKeepsBatches(s, kept, r);
    case GiveUp =>
  }

  lemma {:induction false} RunKeepsBatches(states: seq<State>, acts: seq<Action>)
    requires Run(states, acts) && Orderly(states, acts)
    ensures BatchInv(states[|acts|])
    decreases |acts|
  {
    if acts != [] {
      var n := |acts| - 1;
      var earlier, before := states[..n + 1], acts[..n];
      assert Run(earlier, before) && Orderly(earlier, before);
      RunKeepsBatches(earlier, before);
      assert earlier[n] == states[n];
      StepKeepsBatches(states[n], acts[n], states[n + 1]);
    }
  }

  /** After any number of compactions the projected list still answers its calls:
      each tool message follows its call or a sibling, and once the log owes
      nothing no visible call has lost its result. */
  lemma {:induction false} CompactedRequestsStayValid(states: seq<State>, acts: seq<Action>, hidden: Hidden, prompt: string)
    requires Run(states, acts) && Orderly(states, acts)
    requires HiddenWhole(states[|acts|].log, hidden)
    ensures ToolsFollowCalls(ListedMessages(states[|acts|].log, hidden, prompt))
    ensures LogOwed(states[|acts|].log) == Some([]) ==> Acceptable(ListedMessages(states[|acts|].log, hidden, prompt))
  {
    RunKeepsBatches(states, acts);
    ProjectionAnswers(states[|acts|].log, hidden, prompt);
    OwedMeansToolsFollow(ListedMessages(states[|acts|].log, hidden, prompt));
  }
}
