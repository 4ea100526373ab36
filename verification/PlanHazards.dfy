/** Conversations on which a plan covers what a user said, or what an earlier
    compaction stands for: the inputs behind what the run theorems ask for. */
module PlanHazards {
  import opened EventLog
  import opened HiddenRanges
  import opened Projection
  import opened ProjectionLaws
  import opened Compacting
  import opened CompactionRuns
  import opened BatchRuns
  import opened TurnPlans
  import opened TurnSync
  import DisjointRuns
  import Splice
  import Hazards

  const Bare: Hidden := Hidden([])

  /** Plans over one kept message at the head and two at the tail, shedding all it can. */
  const Tight: Policy := Policy(true, 1, 0, 1, 2)

  function Talk(at: nat, text: string): Record { Record(at, AssistantMessage(text, [], None)) }
  function Ask(at: nat, text: string): Record { Record(at, UserMessage(text, None)) }

  // --- plans with room for every round ------------------------------------------------------

  lemma {:induction false} ShedBound(ms: seq<Message>, rounds: seq<Round>, most: nat)
    requires forall x | 0 <= x < |rounds| :: RoundTokens(ms, rounds[x]) <= most
    ensures Shed(ms, rounds) <= |rounds| * most
  {
    hide RoundTokens;
    if rounds != [] {
      var init := rounds[..|rounds| - 1];
      ShedBound(ms, init, most);
      assert |rounds| * most == |init| * most + most;
    }
  }

  lemma {:induction false} NoMore(a: nat, b: nat, each: nat)
    requires a <= b
    ensures a * each <= b * each
  {}

  /** Where all rounds together shed less than is needed, all are chosen. */
  lemma {:induction false} AllSelected(ms: seq<Message>, rounds: seq<Round>, need: nat, most: nat)
    requires forall x | 0 <= x < |rounds| :: RoundTokens(ms, rounds[x]) <= most
    requires |rounds| * most < need
    ensures SelectFrom(ms, rounds, need, 0) == rounds
  {
    hide Shed, RoundTokens, SelectFrom;
    forall n | 0 <= n < |rounds| ensures Shed(ms, rounds[..n]) < need {
      ShedBound(ms, rounds[..n], most);
      NoMore(n, |rounds|, most);
    }
    SelectFromIsSelection(ms, rounds, need, 0);
    SelectionUnique(ms, rounds, need, rounds, SelectFrom(ms, rounds, need, 0));
  }

  /** Both edges off tool results, and room for every round. */
  lemma {:induction false} AllPlanned(ms: seq<Message>, tokens: nat, policy: Policy, lo: nat, hi: nat, rounds: seq<Round>)
    requires EligibleMiddle(ms, policy.keepHead, policy.keepTail) == Some((lo, hi)) && hi < |ms|
    requires Rounds(ms, lo, hi) == rounds && |rounds| * 50 < SatSub(tokens, policy.target)
    requires forall x | 0 <= x < |rounds| :: RoundTokens(ms, rounds[x]) <= 50
    ensures PlanSpans(ms, tokens, policy) == Spans(rounds)
  {
    hide RoundTokens, EligibleMiddle, Rounds, SelectFrom;
    AllSelected(ms, rounds, SatSub(tokens, policy.target), 50);
  }

  /** A plan of one span, none of it hidden. */
  lemma {:induction false} OneJob(ms: seq<Message>, origins: seq<nat>, tokens: nat, policy: Policy, hidden: Hidden, s: Round)
    requires |origins| == |ms| && s.start <= s.end < |ms| && PlanSpans(ms, tokens, policy) == [s]
    requires origins[s.start] > 0 && origins[s.end] > 0 && !hidden.Intersects(origins[s.start], origins[s.end])
    ensures PlanJobs(ms, origins, tokens, policy, hidden)
         == Some([Job(origins[s.start], origins[s.end], s.end - s.start + 1)])
  {
    hide PlanSpans, Hidden.Intersects;
    var jobs := JobsOf([s], origins);
    assert jobs == [Job(origins[s.start], origins[s.end], s.end - s.start + 1)] && jobs[1..] == [];
    assert DropHiddenJobs(jobs, hidden) == [jobs[0]] + DropHiddenJobs(jobs[1..], hidden) == jobs;
    assert !SourceLess([s], origins);
  }

  // --- a nudge said without its sequence --------------------------------------------------------

  /** A nudge logged while the reply "b" streamed; the turn pushed it behind that reply. */
  const NudgeMidReply: seq<Record> := [Ask(1, "go"), Talk(2, "a"), Record(3, Nudge("no")), Talk(4, "b"), Talk(5, "c")]

  function NudgeMidReplyList(prompt: string): seq<Message> {
    [System(prompt), User("go"), Assistant("a", []), Assistant("b", []), User("no"), Assistant("c", [])]
  }

  const NudgeMidReplyOrigins: seq<nat> := [0, 1, 2, 4, 0, 5]

  lemma {:induction false} TwoRepliesPlanned(ms: seq<Message>, tokens: nat)
    requires |ms| == 6 && ms[2] == Assistant("a", []) && ms[3] == Assistant("b", []) && !ms[4].Tool? && tokens > 100
    ensures PlanSpans(ms, tokens, Tight) == [Round(2, 3)]
  {
    var rounds := [Round(2, 2), Round(3, 3)];
    assert EligibleMiddle(ms, 1, 2) == Some((2, 3)) by {
      assert SkipTools(ms, 2, 3) == 2 && PullBack(ms, 2, 3) == 3;
    }
    assert Rounds(ms, 2, 3) == rounds by {
      assert Rounds(ms, 4, 3) == [];
      assert Rounds(ms, 3, 3) == [Round(3, 3)] + Rounds(ms, 4, 3);
      assert Rounds(ms, 2, 3) == [Round(2, 2)] + Rounds(ms, 3, 3);
    }
    forall x | 0 <= x < |rounds| ensures RoundTokens(ms, rounds[x]) <= 50 { OneRoundTokens(ms, rounds[x].start); }
    AllPlanned(ms, tokens, Tight, 2, 3, rounds);
    hide PlanSpans;
    assert rounds[..1] == [Round(2, 2)] && rounds[..1][..0] == [];
    assert Spans(rounds[..1]) == Join(Spans([]), Round(2, 2)) == [Round(2, 2)];
    assert Spans(rounds) == Join(Spans(rounds[..1]), Round(3, 3));
  }

  lemma {:induction false} OneRoundTokens(ms: seq<Message>, i: nat)
    requires i < |ms|
    ensures RoundTokens(ms, Round(i, i)) == EstTokens(ms[i])
  {
    assert TokensIn(ms, i, i + 1) == EstTokens(ms[i]) + TokensIn(ms, i + 1, i + 1);
  }

  /** On such a list the planner covers what the user said, and once the compaction is
      recorded no rebuild shows it again. */
  lemma {:induction false} NudgeIsPlannedOver(prompt: string, tokens: nat, rec: Record)
    requires tokens > 100 && rec.at > 5 && rec.event.ContextCompacted?
    requires rec.event.compaction.spans == [SeqSpan(2, 4)]
    ensures Chronological(NudgeMidReply) && Sourced(NudgeMidReply, NudgeMidReplyList(prompt), NudgeMidReplyOrigins)
    ensures PlanJobs(NudgeMidReplyList(prompt), NudgeMidReplyOrigins, tokens, Tight, Bare) == Some([Job(2, 4, 2)])
    ensures FromRecord(NudgeMidReply[2]) in Items(NudgeMidReply, Bare)
    ensures FromRecord(NudgeMidReply[2]) !in Items(NudgeMidReply + [rec], Bare)
  {
    hide PlanJobs, PlanSpans, Sourced, Items, Hidden.Intersects;
    NudgeListSourced(prompt);
    TwoRepliesPlanned(NudgeMidReplyList(prompt), tokens);
    NothingBare(2, 4);
    OneJob(NudgeMidReplyList(prompt), NudgeMidReplyOrigins, tokens, Tight, Bare, Round(2, 3));
    CoveredOnceRecorded(NudgeMidReply, rec, NudgeMidReply[2], 0);
  }

  lemma {:induction false} NothingBare(a: nat, b: nat)
    ensures !Bare.Intersects(a, b) && !Bare.Contains(a)
  {}

  lemma {:induction false} IsSaid(log: seq<Record>, i: nat)
    requires i < |log| && (log[i].event.AssistantMessage? || log[i].event.ToolResult?)
    ensures SaidAt(log, log[i].at)
  {
    assert log[i] in log;
  }

  lemma {:induction false} NudgeListSourced(prompt: string)
    ensures Sourced(NudgeMidReply, NudgeMidReplyList(prompt), NudgeMidReplyOrigins)
  {
    hide SaidAt;
    IsSaid(NudgeMidReply, 1);
    IsSaid(NudgeMidReply, 3);
    IsSaid(NudgeMidReply, 4);
  }

  /** A record covered by a span just recorded is gone from the projection. */
  lemma {:induction false} CoveredOnceRecorded(log: seq<Record>, rec: Record, q: Record, k: nat)
    requires Chronological(log) && rec.at > LastAt(log) && rec.event.ContextCompacted? && q in log && q.event.Bearing()
    requires forall r :: r in log ==> !r.event.ContextCompacted? && !r.event.ConversationStarted?
    requires k < |rec.event.compaction.spans| && rec.event.compaction.spans[k].Has(q.at)
    ensures FromRecord(q) in Items(log, Bare)
    ensures FromRecord(q) !in Items(log + [rec], Bare)
  {
    var log' := log + [rec];
    assert rec in log';
    ChronologicalAppend(log, rec);
    FloorIs(log);
    FloorIs(log');
    assert q in log && q in log' && q.at > 0;
    Splice.HasRecord(log, Bare, q);
    Splice.HasRecord(log', Bare, q);
    assert Floor(log') == 0 && Live(rec, 0);
    assert CoveredBy(log', 0, q.at);
  }

  // --- a note logged while its call was under way ------------------------------------------------

  /** The turn in which a sub-agent was spawned, two replies later. */
  const SpawnLater: seq<Record> := [
    Ask(1, "go"),
    Record(2, AssistantMessage("", [Call("c1", "spawn", "{}")], None)),
    Record(3, ToolInvocation(Call("c1", "spawn", "{}"))),
    Record(4, SystemNote("subagent:spawned s1 helper")),
    Record(5, ToolResult("c1", true, "started")),
    Talk(6, "b"), Talk(7, "c")]

  function SpawnLaterList(prompt: string): seq<Message> {
    [System(prompt), User("go"), Assistant("", [Call("c1", "spawn", "{}")]), Tool("c1", "started", true),
     Assistant("b", []), Assistant("c", [])]
  }

  const SpawnLaterOrigins: seq<nat> := [0, 1, 2, 5, 6, 7]

  lemma {:induction false} SpawnListSourced(prompt: string)
    ensures Sourced(SpawnLater, SpawnLaterList(prompt), SpawnLaterOrigins)
  {
    hide SaidAt;
    IsSaid(SpawnLater, 1);
    IsSaid(SpawnLater, 4);
    IsSaid(SpawnLater, 5);
    IsSaid(SpawnLater, 6);
  }

  lemma {:induction false} BatchPlanned(prompt: string, tokens: nat)
    requires tokens > 100
    ensures PlanSpans(SpawnLaterList(prompt), tokens, Tight) == [Round(2, 3)]
  {
    var ms, rounds := SpawnLaterList(prompt), [Round(2, 3)];
    assert EligibleMiddle(ms, 1, 2) == Some((2, 3)) by {
      assert SkipTools(ms, 2, 3) == 2 && PullBack(ms, 2, 3) == 3;
    }
    assert Rounds(ms, 2, 3) == rounds by {
      assert ToolRunEnd(ms, 2, 3) == 3;
      assert Rounds(ms, 2, 3) == [Round(2, 3)] + Rounds(ms, 4, 3);
    }
    assert RoundTokens(ms, rounds[0]) <= 50 by { BatchTokens(prompt); }
    AllPlanned(ms, tokens, Tight, 2, 3, rounds);
    hide PlanSpans;
    assert rounds[..0] == [];
    assert Spans(rounds) == Join(Spans([]), Round(2, 3)) == [Round(2, 3)];
  }

  lemma {:induction false} BatchTokens(prompt: string)
    ensures RoundTokens(SpawnLaterList(prompt), Round(2, 3)) <= 50
  {
    var ms := SpawnLaterList(prompt);
    assert CallChars([Call("c1", "spawn", "{}")]) == 44;
    hide CallChars;
    assert EstTokens(ms[2]) <= 20 && EstTokens(ms[3]) <= 20;
    hide EstTokens, SpawnLaterList;
    assert TokensIn(ms, 2, 4) == EstTokens(ms[2]) + TokensIn(ms, 3, 4);
    assert TokensIn(ms, 3, 4) == EstTokens(ms[3]) + TokensIn(ms, 4, 4);
  }

  /** A turn's own list can miss user text although every message behind the prompt has
      a sequence: the note others logged between the call and its result is planned
      over. */
  lemma {:induction false} SpawnNoteIsPlannedOver(prompt: string, tokens: nat, rec: Record)
    requires tokens > 100 && rec.at > 7 && rec.event.ContextCompacted?
    requires rec.event.compaction.spans == [SeqSpan(2, 5)]
    ensures Chronological(SpawnLater) && Sourced(SpawnLater, SpawnLaterList(prompt), SpawnLaterOrigins)
    ensures forall k | 1 <= k < |SpawnLaterOrigins| :: SpawnLaterOrigins[k] > 0
    ensures PlanJobs(SpawnLaterList(prompt), SpawnLaterOrigins, tokens, Tight, Bare) == Some([Job(2, 5, 2)])
    ensures FromRecord(SpawnLater[3]) in Items(SpawnLater, Bare)
    ensures FromRecord(SpawnLater[3]) !in Items(SpawnLater + [rec], Bare)
  {
    hide PlanJobs, PlanSpans, Sourced, Items, Hidden.Intersects;
    SpawnListSourced(prompt);
    BatchPlanned(prompt, tokens);
    NothingBare(2, 5);
    OneJob(SpawnLaterList(prompt), SpawnLaterOrigins, tokens, Tight, Bare, Round(2, 3));
    CoveredOnceRecorded(SpawnLater, rec, SpawnLater[3], 0);
  }

  // --- hidden ranges ------------------------------------------------------------------------

  lemma {:induction false} MergeSkips(r: Record, rest: seq<Record>, notes: seq<Note>, v: View)
    requires v.Skips(r.at)
    ensures Merge([r] + rest, notes, v) == Merge(rest, notes, v)
  {
    assert ([r] + rest)[1..] == rest;
  }

  lemma {:induction false} MergeShows(r: Record, rest: seq<Record>, notes: seq<Note>, v: View)
    requires v.Shows(r) && (notes == [] || notes[0].at > r.at)
    ensures Merge([r] + rest, notes, v) == [FromRecord(r)] + Merge(rest, notes, v)
  {
    assert ([r] + rest)[1..] == rest;
  }

  lemma {:induction false} MergeNotes(r: Record, rest: seq<Record>, n: Note, v: View)
    requires v.Shows(r) && n.at <= r.at
    ensures Merge([r] + rest, [n], v) == [FromNote(n)] + Merge([r] + rest, [], v)
  {
    assert [n][1..] == [];
  }

  lemma {:induction false} MergePasses(r: Record, rest: seq<Record>, v: View)
    requires !r.event.Bearing()
    ensures Merge([r] + rest, [], v) == Merge(rest, [], v)
  {
    assert ([r] + rest)[1..] == rest && [] + Merge(rest, [], v) == Merge(rest, [], v);
  }

  lemma {:induction false} NothingMerges(v: View)
    ensures Merge([], [], v) == []
  {}

  // --- a hidden range that cuts a batch ----------------------------------------------------------

  /** A call whose result is hidden. */
  const CallAndResult: seq<Record> := [
    Ask(1, "go"), Record(2, AssistantMessage("", [Call("c1", "run", "{}")], None)), Record(3, ToolResult("c1", true, "ok"))]

  const ResultHidden: Hidden := Hidden([(3, 3)])

  lemma {:induction false} HiddenContains(a: nat, b: nat, at: nat)
    ensures Hidden([(a, b)]).Contains(at) <==> a <= at <= b
    ensures Hidden([(a, b)]).Intersects(at, at) <==> a <= at <= b
  {
    var h := Hidden([(a, b)]);
    assert h.ranges[0] == (a, b);
  }

  lemma {:induction false} ThirdSkipped(a: Record, b: Record, c: Record, v: View)
    requires v.Shows(a) && v.Shows(b) && v.Skips(c.at)
    ensures Merge([a, b, c], [], v) == [FromRecord(a), FromRecord(b)]
  {
    hide Merge, View.Shows, View.Skips;
    MergeShows(a, [b, c], [], v);
    MergeShows(b, [c], [], v);
    MergeSkips(c, [], [], v);
    NothingMerges(v);
    assert [a] + [b, c] == [a, b, c] && [b] + [c] == [b, c] && [c] + [] == [c];
  }

  /** What an uncompacted log's view shows. */
  lemma {:induction false} PlainView(log: seq<Record>, hidden: Hidden)
    requires Hazards.Uncompacted(log)
    ensures PlanOf(log, hidden).view == View(0, [], hidden)
    ensures Items(log, hidden) == Merge(log, [], View(0, [], hidden))
    ensures forall r: Record :: View(0, [], hidden).Skips(r.at) <==> r.at == 0 || hidden.Contains(r.at)
  {
    Hazards.NothingLive(log, 0);
  }

  lemma {:induction false} ResultHiddenItems()
    ensures Items(CallAndResult, ResultHidden) == [FromRecord(CallAndResult[0]), FromRecord(CallAndResult[1])]
  {
    HiddenContains(3, 3, 1);
    HiddenContains(3, 3, 2);
    HiddenContains(3, 3, 3);
    hide Hidden.Contains, Merge, Items, PlanOf;
    PlainView(CallAndResult, ResultHidden);
    ThirdSkipped(CallAndResult[0], CallAndResult[1], CallAndResult[2], View(0, [], ResultHidden));
  }

  lemma {:induction false} OneCallAnswered(a: Record, b: Record, c: Record, call: Call)
    requires a.event.UserMessage? && b.event.AssistantMessage? && b.event.calls == [call]
    requires c.event.ToolResult? && c.event.callId == call.id
    ensures LogOwed([a, b, c]) == Some([]) && Latest([a, b], None) == Some(b)
    ensures ItemsOwed([FromRecord(a), FromRecord(b)], Some([])) == Some([call.id])
  {
    var owed := Some([call.id]);
    assert Ids([call]) == [call.id] && [call.id][1..] == [];
    assert [a, b, c][1..] == [b, c] && [b, c][1..] == [c] && [c][1..] == [] && [a, b][1..] == [b] && [b][1..] == [];
    assert Tick(Some([]), a.event) == Some([]) && Tick(Some([]), b.event) == owed && Tick(owed, c.event) == Some([]);
    hide Tick, Ids;
    assert LogOwedFrom([c], owed) == LogOwedFrom([], Some([])) == Some([]);
    assert LogOwedFrom([b, c], Some([])) == Some([]);
    assert Latest([b], None) == Latest([], Some(b)) == Some(b);
    ConsOwed(FromRecord(a), [FromRecord(b)], Some([]));
    ConsOwed(FromRecord(b), [], Some([]));
    assert [FromRecord(a)] + [FromRecord(b)] == [FromRecord(a), FromRecord(b)] && [FromRecord(b)] + [] == [FromRecord(b)];
  }

  lemma {:induction false} ResultCut()
    requires Latest(CallAndResult[..2], None) == Some(CallAndResult[1])
    ensures !HiddenWhole(CallAndResult, ResultHidden)
  {
    HiddenContains(3, 3, 2);
    HiddenContains(3, 3, 3);
    hide Latest, Hidden.Contains;
    assert CallAndResult[2].event.ToolResult?;
  }

  /** The batch is answered in the log, and the request still shows a call without its
      result. */
  lemma {:induction false} HiddenResultBreaksTheRequest(prompt: string)
    ensures Chronological(CallAndResult) && LogOwed(CallAndResult) == Some([])
    ensures !HiddenWhole(CallAndResult, ResultHidden)
    ensures !Acceptable(ListedMessages(CallAndResult, ResultHidden, prompt))
  {
    hide ListedMessages, Items, LogOwed, HiddenWhole, Latest, ItemsOwed;
    var log := CallAndResult;
    assert log == [log[0], log[1], log[2]] && log[..2] == [log[0], log[1]];
    OneCallAnswered(log[0], log[1], log[2], Call("c1", "run", "{}"));
    ResultHiddenItems();
    ResultCut();
    ListedOwes(log, ResultHidden, prompt);
  }

  // --- a hidden set that changes between two plans ------------------------------------------------

  const Small: Policy := Policy(true, 1, 0, 1, 1)

  const Parted: seq<Record> := [Ask(1, "go"), Talk(2, "a"), Ask(3, "on"), Talk(4, "b"), Talk(5, "c"), Talk(6, "d")]
  const OneHidden: Hidden := Hidden([(4, 4)])
  const Halves: seq<SeqSpan> := [SeqSpan(2, 2), SeqSpan(5, 5)]

  lemma {:induction false} FourthSkipped(a: Record, b: Record, c: Record, d: Record, e: Record, f: Record, v: View)
    requires v.Shows(a) && v.Shows(b) && v.Shows(c) && v.Skips(d.at) && v.Shows(e) && v.Shows(f)
    ensures Merge([a, b, c, d, e, f], [], v) == [FromRecord(a), FromRecord(b), FromRecord(c), FromRecord(e), FromRecord(f)]
  {
    hide Merge, View.Shows, View.Skips;
    MergeShows(a, [b, c, d, e, f], [], v);
    MergeShows(b, [c, d, e, f], [], v);
    MergeShows(c, [d, e, f], [], v);
    MergeSkips(d, [e, f], [], v);
    MergeShows(e, [f], [], v);
    MergeShows(f, [], [], v);
    NothingMerges(v);
    assert [a] + [b, c, d, e, f] == [a, b, c, d, e, f] && [b] + [c, d, e, f] == [b, c, d, e, f];
    assert [c] + [d, e, f] == [c, d, e, f] && [d] + [e, f] == [d, e, f] && [e] + [f] == [e, f] && [f] + [] == [f];
  }

  lemma {:induction false} PartedItems()
    ensures Items(Parted, OneHidden)
         == [FromRecord(Parted[0]), FromRecord(Parted[1]), FromRecord(Parted[2]), FromRecord(Parted[4]), FromRecord(Parted[5])]
  {
    HiddenContains(4, 4, 1);
    HiddenContains(4, 4, 2);
    HiddenContains(4, 4, 3);
    HiddenContains(4, 4, 4);
    HiddenContains(4, 4, 5);
    HiddenContains(4, 4, 6);
    hide Hidden.Contains, Merge, Items, PlanOf;
    PlainView(Parted, OneHidden);
    FourthSkipped(Parted[0], Parted[1], Parted[2], Parted[3], Parted[4], Parted[5], View(0, [], OneHidden));
  }

  /** The plan on that list: one span before the user's second message, one behind. */
  lemma {:induction false} FirstPlan(ms: seq<Message>, tokens: nat)
    requires |ms| == 6 && ms[2] == Assistant("a", []) && ms[3].User? && ms[4] == Assistant("c", []) && !ms[5].Tool?
    requires tokens > 100
    ensures PlanSpans(ms, tokens, Small) == [Round(2, 2), Round(4, 4)]
  {
    var rounds := [Round(2, 2), Round(4, 4)];
    assert EligibleMiddle(ms, 1, 1) == Some((2, 4)) by {
      assert SkipTools(ms, 2, 4) == 2 && PullBack(ms, 2, 4) == 4;
    }
    assert Rounds(ms, 2, 4) == rounds by {
      assert Rounds(ms, 5, 4) == [];
      assert Rounds(ms, 4, 4) == [Round(4, 4)] + Rounds(ms, 5, 4);
      assert Rounds(ms, 3, 4) == Rounds(ms, 4, 4);
      assert Rounds(ms, 2, 4) == [Round(2, 2)] + Rounds(ms, 3, 4);
    }
    forall x | 0 <= x < |rounds| ensures RoundTokens(ms, rounds[x]) <= 50 { OneRoundTokens(ms, rounds[x].start); }
    AllPlanned(ms, tokens, Small, 2, 4, rounds);
    hide PlanSpans;
    assert rounds[..1] == [Round(2, 2)] && rounds[..1][..0] == [];
    assert Spans(rounds[..1]) == Join(Spans([]), Round(2, 2)) == [Round(2, 2)];
    assert Spans(rounds) == Join(Spans(rounds[..1]), Round(4, 4));
  }

  lemma {:induction false} SecondPlan(ms: seq<Message>, tokens: nat)
    requires |ms| == 7 && ms[2].User? && ms[3].User? && ms[4] == Assistant("b", []) && ms[5] == Assistant("d", []) && !ms[6].Tool?
    requires tokens > 100
    ensures PlanSpans(ms, tokens, Small) == [Round(4, 5)]
  {
    var rounds := [Round(4, 4), Round(5, 5)];
    assert EligibleMiddle(ms, 1, 1) == Some((2, 5)) by {
      assert SkipTools(ms, 2, 5) == 2 && PullBack(ms, 2, 5) == 5;
    }
    assert Rounds(ms, 2, 5) == rounds by {
      assert Rounds(ms, 6, 5) == [];
      assert Rounds(ms, 5, 5) == [Round(5, 5)] + Rounds(ms, 6, 5);
      assert Rounds(ms, 4, 5) == [Round(4, 4)] + Rounds(ms, 5, 5);
      assert Rounds(ms, 3, 5) == Rounds(ms, 4, 5);
      assert Rounds(ms, 2, 5) == Rounds(ms, 3, 5);
    }
    forall x | 0 <= x < |rounds| ensures RoundTokens(ms, rounds[x]) <= 50 { OneRoundTokens(ms, rounds[x].start); }
    AllPlanned(ms, tokens, Small, 2, 5, rounds);
    hide PlanSpans;
    assert rounds[..1] == [Round(4, 4)] && rounds[..1][..0] == [];
    assert Spans(rounds[..1]) == Join(Spans([]), Round(4, 4)) == [Round(4, 4)];
    assert Spans(rounds) == Join(Spans(rounds[..1]), Round(5, 5)) == [Round(4, 5)];
  }

  /** The log behind the recorded compaction, a reply longer. */
  function PartedLater(summary: string): seq<Record> {
    Parted + [Record(7, ContextCompacted(Compaction(Halves, summary, 2))), Talk(8, "e")]
  }

  function HalvesNote(summary: string): Note { NoteOf(Compaction(Halves, summary, 2)) }

  lemma {:induction false} LaterPlan(log: seq<Record>, rec: Record, t: Record)
    requires Hazards.Uncompacted(log) && Live(rec, 0) && t.event.AssistantMessage?
    ensures PlanOf(log + [rec, t], Bare).view == View(0, rec.event.compaction.spans, Bare)
    ensures Items(log + [rec, t], Bare)
         == Merge(log + [rec, t], [NoteOf(rec.event.compaction)], View(0, rec.event.compaction.spans, Bare))
  {
    Hazards.NothingLive(log, 0);
    var all, mid := log + [rec, t], log + [rec];
    assert all[..|all| - 1] == mid && mid[..|mid| - 1] == log;
    assert Floor(all) == Floor(mid) == 0;
    assert LiveSpans(mid, 0) == [] + rec.event.compaction.spans == rec.event.compaction.spans;
    assert LiveSpans(all, 0) == LiveSpans(mid, 0) + [] == LiveSpans(mid, 0);
    assert LiveNotes(mid, 0) == [NoteOf(rec.event.compaction)];
    assert LiveNotes(all, 0) == LiveNotes(mid, 0) + [] == LiveNotes(mid, 0);
    OneNote(NoteOf(rec.event.compaction));
  }

  lemma {:induction false} OneNote(n: Note)
    ensures SortNotes([n]) == [n]
  {
    assert [n][..0] == [];
  }

  lemma {:induction false} LaterMerge(a: Record, b: Record, c: Record, d: Record, e: Record, f: Record, rec: Record, t: Record,
                                      n: Note, v: View)
    requires v.Shows(a) && v.Skips(b.at) && v.Shows(c) && v.Shows(d) && v.Skips(e.at) && v.Shows(f) && v.Shows(t)
    requires a.at < n.at <= c.at && !rec.event.Bearing()
    ensures Merge([a, b, c, d, e, f, rec, t], [n], v)
         == [FromRecord(a), FromNote(n), FromRecord(c), FromRecord(d), FromRecord(f), FromRecord(t)]
  {
    hide Merge, View.Shows, View.Skips;
    MergeShows(a, [b, c, d, e, f, rec, t], [n], v);
    MergeSkips(b, [c, d, e, f, rec, t], [n], v);
    MergeNotes(c, [d, e, f, rec, t], n, v);
    MergeShows(c, [d, e, f, rec, t], [], v);
    LaterTail(d, e, f, rec, t, v);
    assert [a] + [b, c, d, e, f, rec, t] == [a, b, c, d, e, f, rec, t];
    assert [b] + [c, d, e, f, rec, t] == [b, c, d, e, f, rec, t] && [c] + [d, e, f, rec, t] == [c, d, e, f, rec, t];
  }

  lemma {:induction false} LaterTail(d: Record, e: Record, f: Record, rec: Record, t: Record, v: View)
    requires v.Shows(d) && v.Skips(e.at) && v.Shows(f) && v.Shows(t) && !rec.event.Bearing()
    ensures Merge([d, e, f, rec, t], [], v) == [FromRecord(d), FromRecord(f), FromRecord(t)]
  {
    hide Merge, View.Shows, View.Skips;
    MergeShows(d, [e, f, rec, t], [], v);
    MergeSkips(e, [f, rec, t], [], v);
    MergeShows(f, [rec, t], [], v);
    MergePasses(rec, [t], v);
    MergeShows(t, [], [], v);
    NothingMerges(v);
    assert [d] + [e, f, rec, t] == [d, e, f, rec, t] && [e] + [f, rec, t] == [e, f, rec, t];
    assert [f] + [rec, t] == [f, rec, t] && [rec] + [t] == [rec, t] && [t] + [] == [t];
  }

  lemma {:induction false} LaterView(r: Record)
    requires r.at > 0
    ensures View(0, Halves, Bare).Skips(r.at) <==> r.at == 2 || r.at == 5
    ensures r.event.Bearing() && r.at != 2 && r.at != 5 ==> View(0, Halves, Bare).Shows(r)
  {
    assert Halves[0].Has(r.at) <==> r.at == 2;
    assert Halves[1].Has(r.at) <==> r.at == 5;
    assert SomeHas(Halves, r.at) <==> r.at == 2 || r.at == 5;
  }

  lemma {:induction false} LaterShows(v: View)
    requires v == View(0, Halves, Bare)
    ensures v.Shows(Parted[0]) && v.Skips(2) && v.Shows(Parted[2]) && v.Shows(Parted[3])
    ensures v.Skips(5) && v.Shows(Parted[5]) && v.Shows(Talk(8, "e"))
  {
    hide View.Shows, View.Skips;
    LaterView(Parted[0]);
    LaterView(Parted[1]);
    LaterView(Parted[2]);
    LaterView(Parted[3]);
    LaterView(Parted[4]);
    LaterView(Parted[5]);
    LaterView(Talk(8, "e"));
  }

  lemma {:induction false} LaterItems(summary: string)
    ensures Items(PartedLater(summary), Bare)
         == [FromRecord(Parted[0]), FromNote(HalvesNote(summary)), FromRecord(Parted[2]), FromRecord(Parted[3]),
             FromRecord(Parted[5]), FromRecord(Talk(8, "e"))]
  {
    var rec, v := Record(7, ContextCompacted(Compaction(Halves, summary, 2))), View(0, Halves, Bare);
    assert HalvesNote(summary).at == 2;
    hide Items, PlanOf, Merge, View.Skips, View.Shows, NoteOf;
    LaterShows(v);
    LaterPlan(Parted, rec, Talk(8, "e"));
    LaterMerge(Parted[0], Parted[1], Parted[2], Parted[3], Parted[4], Parted[5], rec, Talk(8, "e"), HalvesNote(summary), v);
    PartedLaterIs(summary);
  }

  lemma {:induction false} PartedLaterIs(summary: string)
    ensures PartedLater(summary)
         == [Parted[0], Parted[1], Parted[2], Parted[3], Parted[4], Parted[5],
             Record(7, ContextCompacted(Compaction(Halves, summary, 2))), Talk(8, "e")]
  {}

  /** The list of items the plan is made on. */
  lemma {:induction false} ListOf(log: seq<Record>, hidden: Hidden, prompt: string, items: seq<Item>, k: nat)
    requires Items(log, hidden) == items && k < |items|
    ensures |ListedMessages(log, hidden, prompt)| == |items| + 1 == |ListedOrigins(log, hidden)|
    ensures ListedOrigins(log, hidden)[k + 1] == items[k].Origin()
    ensures items[k].FromNote? ==> ListedMessages(log, hidden, prompt)[k + 1].User?
    ensures items[k].FromRecord? ==>
              && items[k].record.event.Bearing()
              && ListedMessages(log, hidden, prompt)[k + 1] == Render(items[k].record.event, PlanOf(log, hidden).attribute)
  {
    hide Items, PlanOf;
    NoteReads(log, hidden, k);
  }

  lemma {:induction false} FirstJobs(prompt: string, tokens: nat)
    requires tokens > 100
    ensures PlanJobs(ListedMessages(Parted, OneHidden, prompt), ListedOrigins(Parted, OneHidden), tokens, Small, OneHidden)
         == Some([Job(2, 2, 1), Job(5, 5, 1)])
  {
    var ms, origins := ListedMessages(Parted, OneHidden, prompt), ListedOrigins(Parted, OneHidden);
    PartedItems();
    var items := Items(Parted, OneHidden);
    hide Items, ListedMessages, ListedOrigins, PlanOf, PlanSpans;
    ListOf(Parted, OneHidden, prompt, items, 1);
    ListOf(Parted, OneHidden, prompt, items, 2);
    ListOf(Parted, OneHidden, prompt, items, 3);
    ListOf(Parted, OneHidden, prompt, items, 4);
    FirstPlan(ms, tokens);
    HiddenContains(4, 4, 2);
    HiddenContains(4, 4, 5);
    hide Hidden.Intersects;
    TwoJobs(ms, origins, tokens, Small, OneHidden, Round(2, 2), Round(4, 4));
  }

  lemma {:induction false} TwoJobs(ms: seq<Message>, origins: seq<nat>, tokens: nat, policy: Policy, hidden: Hidden, a: Round, b: Round)
    requires |origins| == |ms| && a.start <= a.end < |ms| && b.start <= b.end < |ms| && PlanSpans(ms, tokens, policy) == [a, b]
    requires origins[a.start] > 0 && origins[a.end] > 0 && !hidden.Intersects(origins[a.start], origins[a.end])
    requires origins[b.start] > 0 && origins[b.end] > 0 && !hidden.Intersects(origins[b.start], origins[b.end])
    ensures PlanJobs(ms, origins, tokens, policy, hidden)
         == Some([Job(origins[a.start], origins[a.end], a.end - a.start + 1),
                  Job(origins[b.start], origins[b.end], b.end - b.start + 1)])
  {
    hide PlanSpans, Hidden.Intersects;
    var jobs := JobsOf([a, b], origins);
    assert jobs == [Job(origins[a.start], origins[a.end], a.end - a.start + 1),
                    Job(origins[b.start], origins[b.end], b.end - b.start + 1)];
    assert jobs[1..] == [jobs[1]] && jobs[1..][1..] == [];
    assert DropHiddenJobs(jobs[1..], hidden) == [jobs[1]] + DropHiddenJobs([], hidden) == [jobs[1]];
    assert DropHiddenJobs(jobs, hidden) == [jobs[0]] + DropHiddenJobs(jobs[1..], hidden) == jobs;
    assert !SourceLess([a, b], origins);
  }

  lemma {:induction false} SecondJobs(summary: string, prompt: string, tokens: nat)
    requires tokens > 100
    ensures PlanJobs(ListedMessages(PartedLater(summary), Bare, prompt), ListedOrigins(PartedLater(summary), Bare), tokens, Small, Bare)
         == Some([Job(4, 6, 2)])
  {
    var log := PartedLater(summary);
    var ms, origins := ListedMessages(log, Bare, prompt), ListedOrigins(log, Bare);
    LaterItems(summary);
    var items := Items(log, Bare);
    hide Items, ListedMessages, ListedOrigins, PlanOf, PlanSpans, PartedLater, HalvesNote, Hidden.Intersects;
    ListOf(log, Bare, prompt, items, 1);
    ListOf(log, Bare, prompt, items, 2);
    ListOf(log, Bare, prompt, items, 3);
    ListOf(log, Bare, prompt, items, 4);
    ListOf(log, Bare, prompt, items, 5);
    SecondPlan(ms, tokens);
    NothingBare(4, 6);
    OneJob(ms, origins, tokens, Small, Bare, Round(4, 5));
  }

  const FirstPlanned: State := State(Parted, [Job(2, 2, 1), Job(5, 5, 1)])

  lemma {:induction false} HalvesRecorded(summary: string)
    ensures Step(FirstPlanned, Commit([0, 1], PartedLater(summary)[6]), State(PartedLater(summary)[..7], []))
    ensures Step(State(PartedLater(summary)[..7], []), Append(PartedLater(summary)[7]), State(PartedLater(summary), []))
  {
    var log := PartedLater(summary);
    assert log[..7] == Parted + [log[6]] && log == log[..7] + [log[7]];
  }

  lemma {:induction false} LaterOverlaps(summary: string)
    ensures !DisjointRuns.JobsApart(PartedLater(summary), [Job(4, 6, 2)])
  {
    var log := PartedLater(summary);
    assert DisjointRuns.Recorded(log, log[6], 1);
    assert DisjointRuns.SpanAt(log[6], 1) == SeqSpan(5, 5);
    assert DisjointRuns.SpanOf([Job(4, 6, 2)][0]) == SeqSpan(4, 6);
  }

  lemma {:induction false} Proposes(log: seq<Record>, hidden: Hidden, prompt: string, tokens: nat, policy: Policy, jobs: seq<Job>)
    requires PlanJobs(ListedMessages(log, hidden, prompt), ListedOrigins(log, hidden), tokens, policy, hidden) == Some(jobs)
    ensures Step(State(log, []), Propose(hidden, prompt, tokens, policy), State(log, jobs))
  {
    hide PlanJobs, ListedMessages, ListedOrigins;
  }

  /** A range hidden for one plan and shown again for the next lets a planned interval
      overlap a recorded one, though every step is one a run may take. */
  lemma {:induction false} UnhidingOverlaps(summary: string, prompt: string, tokens: nat)
    requires tokens > 100
    ensures Step(State(Parted, []), Propose(OneHidden, prompt, tokens, Small), FirstPlanned)
    ensures Step(FirstPlanned, Commit([0, 1], PartedLater(summary)[6]), State(PartedLater(summary)[..7], []))
    ensures Step(State(PartedLater(summary)[..7], []), Append(PartedLater(summary)[7]), State(PartedLater(summary), []))
    ensures Step(State(PartedLater(summary), []), Propose(Bare, prompt, tokens, Small), State(PartedLater(summary), [Job(4, 6, 2)]))
    ensures !DisjointRuns.JobsApart(PartedLater(summary), [Job(4, 6, 2)])
  {
    hide Step, PlanJobs, ListedMessages, ListedOrigins, PartedLater, DisjointRuns.JobsApart;
    FirstJobs(prompt, tokens);
    SecondJobs(summary, prompt, tokens);
    Proposes(Parted, OneHidden, prompt, tokens, Small, [Job(2, 2, 1), Job(5, 5, 1)]);
    Proposes(PartedLater(summary), Bare, prompt, tokens, Small, [Job(4, 6, 2)]);
    PartedLength(summary);
    HalvesRecorded(summary);
    LaterOverlaps(summary);
  }

  lemma {:induction false} PartedLength(summary: string)
    ensures |PartedLater(summary)| == 8
  {}
}
