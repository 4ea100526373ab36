/** What a request reads: every record shown in its own words, every compaction's note
    with its summary. */
module Requests {
  import opened EventLog
  import opened HiddenRanges
  import opened Text
  import opened Projection
  import opened ProjectionLaws
  import opened CompactionRuns
  import Splice

  predicate IsDigit(c: char) { '0' <= c <= '9' }

  /** Text that does not run into a number on either side. */
  predicate PartsNumbers(s: string) { s != "" && !IsDigit(s[0]) && !IsDigit(s[|s| - 1]) }

  /** A text that gives a compaction's count, its first and last sequence, and ends in
      its summary. */
  ghost predicate TellsOf(text: string, c: Compaction) {
    c.spans != [] &&
    exists front, mid, back: string ::
      && text == front + Dec(c.replaced) + mid + Dec(c.spans[0].from) + "-" + Dec(c.spans[|c.spans| - 1].through) + back + c.summary
      && PartsNumbers(front) && PartsNumbers(mid) && PartsNumbers(back)
  }

  /** A user message standing where a compaction's summarized stretch began, telling of it. */
  ghost predicate ReadsSummary(ms: seq<Message>, origins: seq<nat>, c: Compaction) {
    |origins| == |ms| && c.spans != []
    && exists k :: 1 <= k < |ms| && origins[k] == c.spans[0].from && ms[k].User? && TellsOf(ms[k].content, c)
  }

  function Front(): string { "[context compacted: " }
  function Mid(): string { " earlier messages, originally events " }
  function Back(): string {
    ", summarized below." + " The originals are still in this session's log" + " if a detail is missing.]\n\n"
  }

  function Notice(c: Compaction): string
    requires c.spans != []
  { Front() + Dec(c.replaced) + Mid() + Dec(c.spans[0].from) + "-" + Dec(c.spans[|c.spans| - 1].through) + Back() + c.summary }

  lemma {:induction false} NoteTells(c: Compaction)
    requires c.spans != []
    ensures NoteOf(c).at == c.spans[0].from && NoteOf(c).message.User? && TellsOf(NoteOf(c).message.content, c)
  {
    hide TellsOf, Front, Mid, Back, Dec, NoteText, Notice;
    NoticeIsNote(c);
    NoticeTells(c);
  }

  lemma {:induction false} NoticeTells(c: Compaction)
    requires c.spans != []
    ensures TellsOf(Notice(c), c)
  {
    FrontParts();
    MidParts();
    BackParts();
    hide Front, Mid, Back, Dec, PartsNumbers;
  }

  lemma {:induction false} FrontParts()
    ensures PartsNumbers(Front())
  {
    assert Front()[0] == '[' && Front()[|Front()| - 1] == ' ';
  }

  lemma {:induction false} MidParts()
    ensures PartsNumbers(Mid())
  {
    assert Mid()[0] == ' ' && Mid()[|Mid()| - 1] == ' ';
  }

  lemma {:induction false} BackParts()
    ensures PartsNumbers(Back())
  {
    var a, b := ", summarized below.", " if a detail is missing.]\n\n";
    assert a[0] == ',' && |b| == 27 && b[26] == '\n';
    JoinedParts(a + " The originals are still in this session's log", b);
  }

  lemma {:induction false} NoticeIsNote(c: Compaction)
    requires c.spans != []
    ensures NoteText(c, c.spans[0].from, c.spans[|c.spans| - 1].through) == Notice(c)
  {
    hide Dec;
    Reordered("[context compacted: " + Dec(c.replaced) + " earlier messages, originally events " + Dec(c.spans[0].from) + "-"
              + Dec(c.spans[|c.spans| - 1].through),
              ", summarized below.", " The originals are still in this session's log", " if a detail is missing.]\n\n", c.summary);
  }

  lemma {:induction false} Reordered(x: string, a: string, b: string, d: string, y: string)
    ensures x + a + b + d + y == x + (a + b + d) + y
  {}

  lemma {:induction false} JoinedParts(a: string, b: string)
    requires a != "" && b != "" && !IsDigit(a[0]) && !IsDigit(b[|b| - 1])
    ensures PartsNumbers(a + b)
  {}

  /** Every live compaction is read on the request, its summary included. */
  lemma {:induction false} SummariesAreRead(log: seq<Record>, hidden: Hidden, prompt: string, r: Record)
    requires r in log && Live(r, Floor(log))
    ensures ReadsSummary(ListedMessages(log, hidden, prompt), ListedOrigins(log, hidden), r.event.compaction)
  {
    hide Items, Floor, NoteOf, TellsOf, PlanOf;
    var c := r.event.compaction;
    NoteTells(c);
    assert Splice.NotedBy(log, NoteOf(c));
    Splice.HasNote(log, hidden, NoteOf(c));
    var items := Items(log, hidden);
    var k :| 0 <= k < |items| && items[k] == FromNote(NoteOf(c));
    CompactionRuns.NoteReads(log, hidden, k);
    assert ListedOrigins(log, hidden)[k + 1] == c.spans[0].from;
    assert ListedMessages(log, hidden, prompt)[k + 1] == NoteOf(c).message;
  }

  /** A message in a record's own words.  What a user typed is preceded at most by the
      speaker's name in brackets, and only where several spoke. */
  ghost predicate Says(m: Message, e: Event, several: bool) {
    match e
    case UserMessage(text, author) =>
      && m.User?
      && m.content == if several && author.Some? && Trim(author.value.display) != ""
                      then "[" + Trim(author.value.display) + "] " + text else text
    case Nudge(text) => m == User(text)
    case SystemNote(text) => m.User? && m.content == "[system note] " + text
    case AssistantMessage(content, calls, _) => m == Assistant(content, calls)
    case ToolResult(id, ok, output) => m == Tool(id, output, ok)
    case _ => false
  }

  /** Two identified authors spoke above the floor. */
  ghost predicate SeveralSpoke(log: seq<Record>) {
    exists p, q: Record :: SpokeAs(log, p) && SpokeAs(log, q) && p.event.author.value.id != q.event.author.value.id
  }

  ghost predicate SpokeAs(log: seq<Record>, r: Record) {
    r in log && r.at > Floor(log) && r.event.UserMessage? && r.event.author.Some? && r.event.author.value.id != ""
  }

  lemma {:induction false} AttributeMeansSeveral(log: seq<Record>, hidden: Hidden)
    ensures PlanOf(log, hidden).attribute <==> SeveralSpoke(log)
  {
    hide Floor, LastUsage, LastCompaction;
    var ids := Speakers(log, Floor(log));
    if |ids| > 1 {
      var a :| a in ids;
      var rest := ids - {a};
      assert |rest| == |ids| - 1 > 0;
      var b :| b in rest;
      var p :| SpokeAs(log, p) && p.event.author.value.id == a;
      var q :| SpokeAs(log, q) && q.event.author.value.id == b;
    }
    if SeveralSpoke(log) {
      var p, q :| SpokeAs(log, p) && SpokeAs(log, q) && p.event.author.value.id != q.event.author.value.id;
      var a, b := p.event.author.value.id, q.event.author.value.id;
      assert a in ids && b in ids;
      SubsetSize({a, b}, ids);
      assert |{a, b}| == 2;
    }
  }

  /** Every record shown is read on the request in its own words, at its own sequence. */
  lemma {:induction false} RecordsAreRead(log: seq<Record>, hidden: Hidden, prompt: string, r: Record) returns (k: nat)
    requires FromRecord(r) in Items(log, hidden)
    ensures 1 <= k < |ListedMessages(log, hidden, prompt)| == |ListedOrigins(log, hidden)|
    ensures ListedOrigins(log, hidden)[k] == r.at
    ensures Says(ListedMessages(log, hidden, prompt)[k], r.event, SeveralSpoke(log))
  {
    AttributeMeansSeveral(log, hidden);
    hide Items, PlanOf, SeveralSpoke, Render;
    var items := Items(log, hidden);
    var i :| 0 <= i < |items| && items[i] == FromRecord(r);
    CompactionRuns.NoteReads(log, hidden, i);
    RenderSays(r.event, PlanOf(log, hidden).attribute);
    k := i + 1;
  }

  lemma {:induction false} RenderSays(e: Event, several: bool)
    requires e.Bearing()
    ensures Says(Render(e, several), e, several)
  {
    match e
    case UserMessage(text, author) => assert "" + text == text;
    case _ =>
  }
}
