/** Rebuilding the model's view of a conversation from its log.

    `Plan` gathers what the projection applies (floor, hidden ranges, spans that
    compactions cover, the notes that stand for them); `Merge` is the projection
    itself, an ordered merge of visible records and notes. */
module Projection {
  import opened EventLog
  import opened HiddenRanges
  import opened Text

  datatype Note = Note(at: nat, message: Message)

  predicate SomeHas(spans: seq<SeqSpan>, at: nat) {
    exists i :: 0 <= i < |spans| && spans[i].Has(at)
  }

  /** What the projection keeps out of sight. */
  datatype View = View(floor: nat, covered: seq<SeqSpan>, hidden: Hidden) {
    predicate Skips(at: nat) {
      at <= floor || hidden.Contains(at) || SomeHas(covered, at)
    }
    /** A record the merge turns into a message. */
    predicate Shows(r: Record) { !Skips(r.at) && r.event.Bearing() }
  }

  datatype Plan = Plan(view: View, notes: seq<Note>, usageIsCurrent: bool, attribute: bool)

  /** A projected message, remembering where it came from. */
  datatype Item = FromRecord(record: Record) | FromNote(note: Note) {
    function Origin(): nat { if FromRecord? then record.at else note.at }
  }

  // --- planning -----------------------------------------------------------

  /** The last `ConversationStarted`; nothing at or below it is shown. */
  function Floor(log: seq<Record>): nat {
    if log == [] then 0
    else var r := log[|log| - 1];
         if r.event.ConversationStarted? then r.at else Floor(log[..|log| - 1])
  }

  function NoteText(c: Compaction, first: nat, last: nat): string {
    "[context compacted: " + Dec(c.replaced) + " earlier messages, originally events "
    + Dec(first) + "-" + Dec(last) + ", summarized below." + " The originals are still in this session's log"
    + " if a detail is missing.]\n\n" + c.summary
  }

  /** The one note a recorded compaction leaves, standing at its first sequence. */
  function NoteOf(c: Compaction): Note
    requires c.spans != []
  {
    var first, last := c.spans[0].from, c.spans[|c.spans| - 1].through;
    Note(first, User(NoteText(c, first, last)))
  }

  /** A compaction recorded after the floor and standing for something. */
  predicate Live(r: Record, floor: nat) {
    r.event.ContextCompacted? && r.at > floor && r.event.compaction.spans != []
  }

  function LiveSpans(log: seq<Record>, floor: nat): seq<SeqSpan> {
    if log == [] then []
    else var r := log[|log| - 1];
         LiveSpans(log[..|log| - 1], floor) + (if Live(r, floor) then r.event.compaction.spans else [])
  }

  function LiveNotes(log: seq<Record>, floor: nat): seq<Note> {
    if log == [] then []
    else var r := log[|log| - 1];
         LiveNotes(log[..|log| - 1], floor) + (if Live(r, floor) then [NoteOf(r.event.compaction)] else [])
  }

  predicate Priced(e: Event) { e.AssistantMessage? && e.usage.Some? }

  function LastUsage(log: seq<Record>, hidden: Hidden): nat {
    if log == [] then 0
    else var r := log[|log| - 1];
         if !hidden.Contains(r.at) && Priced(r.event) then r.at else LastUsage(log[..|log| - 1], hidden)
  }

  function LastCompaction(log: seq<Record>): nat {
    if log == [] then 0
    else var r := log[|log| - 1];
         if r.event.ContextCompacted? then r.at else LastCompaction(log[..|log| - 1])
  }

  /** Ids of the authors who spoke above the floor. */
  function Speakers(log: seq<Record>, floor: nat): set<string> {
    set r | r in log && r.at > floor && r.event.UserMessage? && r.event.author.Some?
            && r.event.author.value.id != "" :: r.event.author.value.id
  }

  function PlanOf(log: seq<Record>, hidden: Hidden): Plan {
    var floor := Floor(log);
    Plan(View(floor, LiveSpans(log, floor), hidden), LiveNotes(log, floor),
         LastUsage(log, hidden) > Max(LastCompaction(log), floor),
         |Speakers(log, floor)| > 1)
  }

  // --- the merge ------------------------------------------------------------

  /** Stable insertion: behind every note standing at the same sequence. */
  function InsertNote(n: Note, sorted: seq<Note>): seq<Note> {
    if sorted == [] || n.at < sorted[0].at then [n] + sorted
    else [sorted[0]] + InsertNote(n, sorted[1..])
  }

  /** `sort_by_key`, a stable sort on the sequence. */
  function SortNotes(notes: seq<Note>): seq<Note> {
    if notes == [] then [] else InsertNote(notes[|notes| - 1], SortNotes(notes[..|notes| - 1]))
  }

  function NoteItems(notes: seq<Note>): seq<Item> {
    seq(|notes|, i requires 0 <= i < |notes| => FromNote(notes[i]))
  }

  function Merge(records: seq<Record>, notes: seq<Note>, v: View): seq<Item>
    decreases |records| + |notes|
  {
    if records == [] then NoteItems(notes)
    else if v.Skips(records[0].at) then Merge(records[1..], notes, v)
    else if notes != [] && notes[0].at <= records[0].at then
      [FromNote(notes[0])] + Merge(records, notes[1..], v)
    else (if records[0].event.Bearing() then [FromRecord(records[0])] else [])
         + Merge(records[1..], notes, v)
  }

  /** Every projected message of a log, with its source. */
  function Items(log: seq<Record>, hidden: Hidden): seq<Item> {
    var p := PlanOf(log, hidden);
    Merge(log, SortNotes(p.notes), p.view)
  }

  /** A speaker's name in front of their words; an author naming nobody adds nothing. */
  function AuthorPrefix(author: Option<Author>): string {
    if author.Some? && Trim(author.value.display) != "" then "[" + Trim(author.value.display) + "] " else ""
  }

  function Render(e: Event, attribute: bool): Message
    requires e.Bearing()
  {
    match e
    case UserMessage(text, author) => User((if attribute then AuthorPrefix(author) else "") + text)
    case Nudge(text) => User(text)
    case SystemNote(text) => User("[system note] " + text)
    case AssistantMessage(content, calls, _) => Assistant(content, calls)
    case ToolResult(id, ok, output) => Tool(id, output, ok)
  }

  function MessageOf(item: Item, attribute: bool): Message
    requires item.FromRecord? ==> item.record.event.Bearing()
  {
    if item.FromRecord? then Render(item.record.event, attribute) else item.note.message
  }

  ghost predicate AllBearing(items: seq<Item>) {
    forall i | 0 <= i < |items| && items[i].FromRecord? :: items[i].record.event.Bearing()
  }

  function Messages(items: seq<Item>, attribute: bool): seq<Message>
    requires AllBearing(items)
  {
    seq(|items|, i requires 0 <= i < |items| => MessageOf(items[i], attribute))
  }

  function Origins(items: seq<Item>): seq<nat> {
    seq(|items|, i requires 0 <= i < |items| => items[i].Origin())
  }

  /** What the provider last priced, and how many messages that count covered. */
  function Billing(items: seq<Item>, current: bool, baseLen: nat): Option<(nat, nat)> {
    if !current || items == [] then None
    else var last := items[|items| - 1];
         if last.FromRecord? && Priced(last.record.event)
         then Some((last.record.event.usage.value.promptTokens, baseLen + |items| - 1))
         else Billing(items[..|items| - 1], current, baseLen)
  }

  // --- the loops of the source ------------------------------------------------

  method ConversationFloor(log: seq<Record>) returns (floor: nat)
    ensures floor == Floor(log)
  {
    var i := |log|;
    assert log[..|log|] == log;
    while i > 0
      invariant 0 <= i <= |log|
      invariant Floor(log) == Floor(log[..i])
    {
      i := i - 1;
      if log[i].event.ConversationStarted? { return log[i].at; }
      assert log[..i + 1][..i] == log[..i];
    }
    floor := 0;
  }

  method NeedsAttribution(log: seq<Record>, floor: nat) returns (b: bool)
    ensures b <==> |Speakers(log, floor)| > 1
  {
    var seen: set<string> := {};
    for i := 0 to |log|
      invariant seen == Speakers(log[..i], floor)
      invariant |seen| <= 1
    {
      ghost var before := seen;
      assert log[..i + 1] == log[..i] + [log[i]];
      var e := log[i].event;
      if log[i].at > floor && e.UserMessage? && e.author.Some? && e.author.value.id != "" {
        seen := seen + {e.author.value.id};
        assert seen == Speakers(log[..i + 1], floor);
        if |seen| > 1 {
          assert seen <= Speakers(log, floor);
          SubsetSize(seen, Speakers(log, floor));
          return true;
        }
      } else {
        assert seen == Speakers(log[..i + 1], floor);
      }
    }
    assert log[..|log|] == log;
    b := false;
  }

  lemma {:induction false} SubsetSize<T>(a: set<T>, b: set<T>)
    requires a <= b
    ensures |a| <= |b|
  {
    if a != {} {
      var x :| x in a;
      SubsetSize(a - {x}, b - {x});
    }
  }

  /** The planning loop, against the plan it is specified by. */
  method PlanProjection(log: seq<Record>, hidden: Hidden) returns (p: Plan)
    ensures p == PlanOf(log, hidden)
  {
    var floor := ConversationFloor(log);
    var covered: seq<SeqSpan>, notes: seq<Note> := [], [];
    var lastCompaction, lastUsage := 0, 0;
    for i := 0 to |log|
      invariant covered == LiveSpans(log[..i], floor) && notes == LiveNotes(log[..i], floor)
      invariant lastCompaction == LastCompaction(log[..i]) && lastUsage == LastUsage(log[..i], hidden)
    {
      var r := log[i];
      assert log[..i + 1][..i] == log[..i] && log[..i + 1][i] == r;
      if !hidden.Contains(r.at) && Priced(r.event) { lastUsage := r.at; }
      if r.event.ContextCompacted? {
        lastCompaction := r.at;
        if r.at <= floor { continue; }
        var c := r.event.compaction;
        if c.spans != [] {
          covered := covered + c.spans;
          notes := notes + [NoteOf(c)];
        }
      }
    }
    assert log[..|log|] == log;
    var attribute := NeedsAttribution(log, floor);
    p := Plan(View(floor, covered, hidden), notes, lastUsage > Max(lastCompaction, floor), attribute);
  }

  /** `out` is the rendering of `items`, and `billing` their last price. */
  ghost predicate Emits(out: seq<(Message, nat)>, billing: Option<(nat, nat)>,
                        items: seq<Item>, p: Plan, baseLen: nat)
  {
    && AllBearing(items)
    && |out| == |items|
    && (forall i | 0 <= i < |out| :: out[i] == (MessageOf(items[i], p.attribute), items[i].Origin()))
    && billing == Billing(items, p.usageIsCurrent, baseLen)
  }

  lemma {:induction false} EmitOne(out: seq<(Message, nat)>, billing: Option<(nat, nat)>,
                items: seq<Item>, item: Item, p: Plan, baseLen: nat)
    requires Emits(out, billing, items, p, baseLen)
    requires item.FromRecord? ==> item.record.event.Bearing()
    ensures Emits(out + [(MessageOf(item, p.attribute), item.Origin())],
                  if item.FromRecord? && Priced(item.record.event) && p.usageIsCurrent
                  then Some((item.record.event.usage.value.promptTokens, baseLen + |out|)) else billing,
                  items + [item], p, baseLen)
  {
    assert (items + [item])[..|items|] == items;
  }

  /** Having emitted `done`, what is left to merge completes `all`. */
  ghost predicate Owes(done: seq<Item>, rest: seq<Record>, notes: seq<Note>, v: View, all: seq<Item>) {
    done + Merge(rest, notes, v) == all
  }

  lemma {:induction false} OwesNote(done: seq<Item>, rest: seq<Record>, notes: seq<Note>, v: View, all: seq<Item>)
    requires Owes(done, rest, notes, v, all) && rest != [] && !v.Skips(rest[0].at)
    requires notes != [] && notes[0].at <= rest[0].at
    ensures Owes(done + [FromNote(notes[0])], rest, notes[1..], v, all)
  {
    assert done + ([FromNote(notes[0])] + Merge(rest, notes[1..], v))
        == (done + [FromNote(notes[0])]) + Merge(rest, notes[1..], v);
  }

  lemma {:induction false} OwesRecord(done: seq<Item>, rest: seq<Record>, notes: seq<Note>, v: View, all: seq<Item>)
    requires Owes(done, rest, notes, v, all) && rest != []
    requires v.Skips(rest[0].at) || notes == [] || notes[0].at > rest[0].at
    ensures Owes(if v.Shows(rest[0]) then done + [FromRecord(rest[0])] else done, rest[1..], notes, v, all)
  {
    var tail := Merge(rest[1..], notes, v);
    if v.Shows(rest[0]) {
      assert done + ([FromRecord(rest[0])] + tail) == (done + [FromRecord(rest[0])]) + tail;
    } else {
      assert Merge(rest, notes, v) == tail;
    }
  }

  /** The projecting loop: what it returns is the merge, rendered and priced. */
  method Project(log: seq<Record>, p: Plan, baseLen: nat)
    returns (out: seq<(Message, nat)>, billing: Option<(nat, nat)>)
    ensures Emits(out, billing, Merge(log, SortNotes(p.notes), p.view), p, baseLen)
  {
    var notes := SortNotes(p.notes);
    ghost var all := Merge(log, notes, p.view);
    ghost var done: seq<Item> := [];
    out, billing := [], None;
    assert log[0..] == log;
    for i := 0 to |log|
      invariant Owes(done, log[i..], notes, p.view, all)
      invariant Emits(out, billing, done, p, baseLen)
    {
      var r := log[i];
      assert log[i..][0] == r && log[i..][1..] == log[i + 1..];
      if p.view.Skips(r.at) {
        OwesRecord(done, log[i..], notes, p.view, all);
        continue;
      }
      out, notes, done := FlushNotes(log[i..], p, baseLen, out, billing, notes, done, all);
      OwesRecord(done, log[i..], notes, p.view, all);
      if r.event.Bearing() {
        EmitOne(out, billing, done, FromRecord(r), p, baseLen);
        if r.event.AssistantMessage? && p.usageIsCurrent && r.event.usage.Some? {
          billing := Some((r.event.usage.value.promptTokens, baseLen + |out|));
        }
        out := out + [(Render(r.event, p.attribute), r.at)];
        done := done + [FromRecord(r)];
      }
    }
    out, done := FlushRest(p, baseLen, out, billing, notes, done, all);
  }

  /** The inner loop: notes standing at or before the record about to be shown. */
  method FlushNotes(rest: seq<Record>, p: Plan, baseLen: nat, out0: seq<(Message, nat)>,
                    billing: Option<(nat, nat)>, notes0: seq<Note>, ghost done0: seq<Item>, ghost all: seq<Item>)
    returns (out: seq<(Message, nat)>, notes: seq<Note>, ghost done: seq<Item>)
    requires rest != [] && !p.view.Skips(rest[0].at)
    requires Owes(done0, rest, notes0, p.view, all) && Emits(out0, billing, done0, p, baseLen)
    ensures Owes(done, rest, notes, p.view, all) && Emits(out, billing, done, p, baseLen)
    ensures notes != [] ==> notes[0].at > rest[0].at
  {
    out, notes, done := out0, notes0, done0;
    while notes != [] && notes[0].at <= rest[0].at
      invariant Owes(done, rest, notes, p.view, all)
      invariant Emits(out, billing, done, p, baseLen)
      decreases |notes|
    {
      EmitOne(out, billing, done, FromNote(notes[0]), p, baseLen);
      OwesNote(done, rest, notes, p.view, all);
      out := out + [(notes[0].message, notes[0].at)];
      done := done + [FromNote(notes[0])];
      notes := notes[1..];
    }
  }

  /** The closing `extend`: notes nothing visible stands behind. */
  method FlushRest(p: Plan, baseLen: nat, out0: seq<(Message, nat)>, billing: Option<(nat, nat)>,
                   notes0: seq<Note>, ghost done0: seq<Item>, ghost all: seq<Item>)
    returns (out: seq<(Message, nat)>, ghost done: seq<Item>)
    requires Owes(done0, [], notes0, p.view, all) && Emits(out0, billing, done0, p, baseLen)
    ensures done == all && Emits(out, billing, done, p, baseLen)
  {
    var notes := notes0;
    out, done := out0, done0;
    while notes != []
      invariant done + NoteItems(notes) == all
      invariant Emits(out, billing, done, p, baseLen)
      decreases |notes|
    {
      EmitOne(out, billing, done, FromNote(notes[0]), p, baseLen);
      assert NoteItems(notes) == [FromNote(notes[0])] + NoteItems(notes[1..]);
      out := out + [(notes[0].message, notes[0].at)];
      done := done + [FromNote(notes[0])];
      notes := notes[1..];
    }
    assert done + NoteItems(notes) == done;
  }
}
