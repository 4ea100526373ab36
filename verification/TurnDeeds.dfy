/** What a turn ran, asked and answered: its trace held against its part of the log. */
module TurnDeeds {
  import opened EventLog
  import opened Compacting
  import opened CompactionRuns
  import opened BatchRuns
  import opened TurnTrace
  import Todos
  import Splice
  import Text

  // --- the trace ---------------------------------------------------------------------------

  /** The calls run, in order, each with what came of it. */
  function Deeds(trace: seq<Act>): seq<Deed> {
    if trace == [] then []
    else Deeds(trace[..|trace| - 1]) + (if trace[|trace| - 1].Invoked? then [trace[|trace| - 1].deed] else [])
  }

  /** The summaries asked for, in order. */
  function Askings(trace: seq<Act>): seq<Asking> {
    if trace == [] then []
    else Askings(trace[..|trace| - 1]) + (if trace[|trace| - 1].Summarized? then [trace[|trace| - 1].asking] else [])
  }

  function CallsOf(deeds: seq<Deed>): seq<Call> { seq(|deeds|, i requires 0 <= i < |deeds| => deeds[i].call) }
  function ResultsOf(deeds: seq<Deed>): seq<Message> { seq(|deeds|, i requires 0 <= i < |deeds| => deeds[i].Result()) }
  function OksOf(deeds: seq<Deed>): seq<bool> { seq(|deeds|, i requires 0 <= i < |deeds| => deeds[i].ok) }

  lemma {:induction false} DeedsAfter(trace: seq<Act>, a: Act)
    ensures Deeds(trace + [a]) == if a.Invoked? then Deeds(trace) + [a.deed] else Deeds(trace)
    ensures Askings(trace + [a]) == if a.Summarized? then Askings(trace) + [a.asking] else Askings(trace)
  {
    assert (trace + [a])[..|trace|] == trace;
  }

  /** The last thing seen was an inbox without a cancel. */
  ghost predicate JustLooked(trace: seq<Act>) {
    trace != [] && trace[|trace| - 1].Polled? && CancelItem !in trace[|trace| - 1].items
  }

  /** Nothing costly is done but right behind a look at the inbox that found no cancel. */
  ghost predicate Watched(trace: seq<Act>) {
    forall i | 0 <= i < |trace| && Costly(trace[i]) :: JustLooked(trace[..i])
  }

  lemma {:induction false} WatchedAfter(trace: seq<Act>, a: Act)
    requires Watched(trace) && (Costly(a) ==> JustLooked(trace))
    ensures Watched(trace + [a])
  {
    hide JustLooked, Costly;
    var t := trace + [a];
    forall i | 0 <= i < |t| && Costly(t[i]) ensures JustLooked(t[..i]) {
      if i < |trace| { assert t[..i] == trace[..i] && t[i] == trace[i]; } else { assert t[..i] == trace; }
    }
  }

  /** The stream of the last completion. */
  function LastStream(trace: seq<Act>): Option<seq<StreamItem>> {
    if trace == [] then None
    else if trace[|trace| - 1].Opened? then trace[|trace| - 1].stream
    else LastStream(trace[..|trace| - 1])
  }

  lemma {:induction false} LastStreamAfter(trace: seq<Act>, a: Act)
    ensures LastStream(trace + [a]) == if a.Opened? then a.stream else LastStream(trace)
  {
    assert (trace + [a])[..|trace|] == trace;
  }

  /** The stream of every completion, in order. */
  function Streams(trace: seq<Act>): seq<Option<seq<StreamItem>>> {
    if trace == [] then []
    else Streams(trace[..|trace| - 1]) + (if trace[|trace| - 1].Opened? then [trace[|trace| - 1].stream] else [])
  }

  lemma {:induction false} StreamsAfter(trace: seq<Act>, a: Act)
    ensures Streams(trace + [a]) == if a.Opened? then Streams(trace) + [a.stream] else Streams(trace)
  {
    assert (trace + [a])[..|trace|] == trace;
  }

  lemma {:induction false} StreamsEnd(trace: seq<Act>)
    ensures Streams(trace) != [] ==> Streams(trace)[|Streams(trace)| - 1] == LastStream(trace)
  {
    if trace != [] && !trace[|trace| - 1].Opened? { StreamsEnd(trace[..|trace| - 1]); }
  }

  /** A stream that was never opened, or broke off before its end. */
  predicate Fails(stream: Option<seq<StreamItem>>) {
    stream.None? || forall i | 0 <= i < |stream.value| :: !stream.value[i].Finished?
  }

  /** A turn's end when the model has nothing more to say: two looks at the inbox found
      neither a nudge nor a cancel, and the todos called for no reminder. */
  ghost predicate QuietEnd(trace: seq<Act>, reminders: nat, fingerprint: string, most: nat) {
    var n := |trace|;
    && n >= 3 && trace[n - 3].Polled? && trace[n - 2].Polled? && trace[n - 1].ReadTodos?
    && NudgesIn(trace[n - 3].items) == 0 && CancelItem !in trace[n - 3].items
    && NudgesIn(trace[n - 2].items) == 0 && CancelItem !in trace[n - 2].items
    && Todos.NudgeFor(trace[n - 1].list, reminders, fingerprint, most).None?
  }

  /** A reply that says what the first items of a stream spell, up to its end. */
  ghost predicate Transcribes(e: Event, items: seq<StreamItem>, heard: seq<StreamItem>) {
    && heard <= items && (forall k | 0 <= k < |heard| - 1 :: !heard[k].Finished?)
    && e == AssistantMessage(Spoken(heard), CallsAsked(heard), if RunsToEnd(heard) then heard[|heard| - 1].usage else None)
  }

  /** A reply heard from a stream, to its end unless the turn was stopped. */
  ghost predicate HeardFrom(stream: Option<seq<StreamItem>>, e: Event, stopped: bool) {
    stream.Some? && exists heard :: Transcribes(e, stream.value, heard) && (stopped || RunsToEnd(heard))
  }

  /** The last two looks at the inbox, with nothing done since, brought a nudge. */
  ghost predicate Stirred(trace: seq<Act>) {
    var n := |trace|;
    n >= 2 && trace[n - 2].Polled? && trace[n - 1].Polled? && NudgesIn(trace[n - 2].items) + NudgesIn(trace[n - 1].items) > 0
  }

  // --- the log --------------------------------------------------------------------------------

  /** Every call a log's replies asked for. */
  function CallsLogged(log: seq<Record>): seq<Call> {
    if log == [] then []
    else CallsLogged(log[..|log| - 1])
         + (if log[|log| - 1].event.AssistantMessage? then log[|log| - 1].event.calls else [])
  }

  function ResultOf(e: Event): Message
    requires e.ToolResult?
  { Tool(e.callId, e.output, e.ok) }

  /** Every result logged. */
  function ResultsLogged(log: seq<Record>): seq<Message> {
    if log == [] then []
    else ResultsLogged(log[..|log| - 1])
         + (if log[|log| - 1].event.ToolResult? then [ResultOf(log[|log| - 1].event)] else [])
  }

  /** Every reply logged. */
  function RepliesLogged(log: seq<Record>): seq<Event> {
    if log == [] then []
    else RepliesLogged(log[..|log| - 1]) + (if log[|log| - 1].event.AssistantMessage? then [log[|log| - 1].event] else [])
  }

  /** Each reply is what its own completion's stream spelled; the last stream may not be
      answered yet. */
  ghost predicate Transcribed(log: seq<Record>, trace: seq<Act>, answering: bool) {
    var replies, streams := RepliesLogged(log), Streams(trace);
    && |streams| == |replies| + (if answering then 1 else 0)
    && forall i | 0 <= i < |replies| :: HeardFrom(streams[i], replies[i], SawCancel(trace))
  }

  lemma {:induction false} TranscribedAfter(log: seq<Record>, trace: seq<Act>, answering: bool, a: Act)
    requires Transcribed(log, trace, answering) && (a.Opened? ==> !answering)
    ensures Transcribed(log, trace + [a], answering || a.Opened?)
  {
    StreamsAfter(trace, a);
    TraceAfter(trace, a);
    hide Streams, RepliesLogged, SawCancel, ReportsCancel, Transcribes, IdleAfterCancel, NudgesSeen, Completions;
    var replies, streams := RepliesLogged(log), Streams(trace);
    forall i | 0 <= i < |replies| ensures HeardFrom(Streams(trace + [a])[i], replies[i], SawCancel(trace + [a])) {
      assert Streams(trace + [a])[i] == streams[i] && HeardFrom(streams[i], replies[i], SawCancel(trace));
    }
  }

  lemma {:induction false} TranscribedSame(was: seq<Record>, now: seq<Record>, trace: seq<Act>, answering: bool)
    requires Transcribed(was, trace, answering) && RepliesLogged(now) == RepliesLogged(was)
    ensures Transcribed(now, trace, answering)
  {
    hide Streams, RepliesLogged, SawCancel, HeardFrom;
  }

  lemma {:induction false} TranscribedReply(was: seq<Record>, now: seq<Record>, trace: seq<Act>, e: Event)
    requires Transcribed(was, trace, true) && HeardFrom(LastStream(trace), e, SawCancel(trace))
    requires RepliesLogged(now) == RepliesLogged(was) + [e]
    ensures Transcribed(now, trace, false)
  {
    StreamsEnd(trace);
    hide Streams, RepliesLogged, SawCancel, HeardFrom, LastStream;
  }

  /** The last reply's calls, and how those answered since went. */
  datatype Batch = Batch(calls: seq<Call>, oks: seq<bool>)

  function LastBatch(log: seq<Record>): Option<Batch> {
    if log == [] then None
    else var b := LastBatch(log[..|log| - 1]);
         match log[|log| - 1].event {
           case AssistantMessage(_, calls, _) => Some(Batch(calls, []))
           case ToolResult(_, ok, _) => if b.Some? then Some(b.value.(oks := b.value.oks + [ok])) else None
           case _ => b
         }
  }

  /** Some call of the last reply succeeded and hands control back. */
  ghost predicate HandedBack(batch: Option<Batch>, endingTools: set<string>) {
    batch.Some? && HandsBack(batch.value.calls, batch.value.oks, endingTools)
  }

  lemma {:induction false} LogStretchAfter(log: seq<Record>, start: nat, r: Record)
    requires start <= |log|
    ensures var part, was := (log + [r])[start..], log[start..];
            && CallsLogged(part) == CallsLogged(was) + (if r.event.AssistantMessage? then r.event.calls else [])
            && ResultsLogged(part) == ResultsLogged(was) + (if r.event.ToolResult? then [ResultOf(r.event)] else [])
            && RepliesLogged(part) == RepliesLogged(was) + (if r.event.AssistantMessage? then [r.event] else [])
            && LastBatch(part) == match r.event {
                 case AssistantMessage(_, calls, _) => Some(Batch(calls, []))
                 case ToolResult(_, ok, _) =>
                   if LastBatch(was).Some? then Some(LastBatch(was).value.(oks := LastBatch(was).value.oks + [ok])) else None
                 case _ => LastBatch(was)
               }
  {
    assert (log + [r])[start..] == log[start..] + [r];
    assert (log[start..] + [r])[..|log| - start] == log[start..];
  }

  lemma {:induction false} LogStretchPasses(log: seq<Record>, start: nat, r: Record)
    requires start <= |log| && !r.event.AssistantMessage? && !r.event.ToolResult?
    ensures var part, was := (log + [r])[start..], log[start..];
            && CallsLogged(part) == CallsLogged(was) && ResultsLogged(part) == ResultsLogged(was)
            && RepliesLogged(part) == RepliesLogged(was) && LastBatch(part) == LastBatch(was)
  {
    LogStretchAfter(log, start, r);
    var was := log[start..];
    assert CallsLogged(was) + [] == CallsLogged(was) && ResultsLogged(was) + [] == ResultsLogged(was);
    assert RepliesLogged(was) + [] == RepliesLogged(was);
  }

  // --- the one held against the other --------------------------------------------------------

  /** Where a turn stands: its last batch, the calls of it still left, those skipped after
      a stop, and whether a stream is open that is not answered yet. */
  datatype Standing = Standing(batch: Option<Batch>, left: seq<Call>, skipped: seq<Call>, answering: bool)

  /** Replies are what the streams spelled.  The calls run are those the replies asked for,
      in order, but for those skipped and those left; each result logged is what came of
      its call, or says that it was not run. */
  ghost predicate Served(w: World, log: seq<Record>, trace: seq<Act>, at: Standing) {
    w.start <= |log| && ServedIn(log[w.start..], trace, at)
  }

  ghost predicate ServedIn(part: seq<Record>, trace: seq<Act>, at: Standing) {
    && Transcribed(part, trace, at.answering)
    && CallsLogged(part) == CallsOf(Deeds(trace)) + at.skipped + at.left
    && ResultsLogged(part) == ResultsOf(Deeds(trace)) + NotRun(at.skipped)
    && LastBatch(part) == at.batch && LeftOf(at)
  }

  /** What is left is what its batch has no answer to yet. */
  ghost predicate LeftOf(at: Standing) {
    && (at.batch.None? ==> at.left == [])
    && (at.batch.Some? ==> |at.batch.value.oks| <= |at.batch.value.calls|
                           && at.left == at.batch.value.calls[|at.batch.value.oks|..])
  }

  lemma {:induction false} LeftAfter(at: Standing, call: Call, rest: seq<Call>, ok: bool)
    requires LeftOf(at) && at.left == [call] + rest
    ensures at.batch.Some?
    ensures LeftOf(at.(batch := Some(at.batch.value.(oks := at.batch.value.oks + [ok])), left := rest))
  {
    assert rest == at.left[1..] == at.batch.value.calls[|at.batch.value.oks| + 1..];
  }

  lemma {:induction false} ServedAfterQuiet(w: World, log: seq<Record>, trace: seq<Act>, at: Standing, r: Record)
    requires Served(w, log, trace, at) && !r.event.AssistantMessage? && !r.event.ToolResult?
    ensures Served(w, log + [r], trace, at)
  {
    LogStretchPasses(log, w.start, r);
    hide CallsLogged, ResultsLogged, LastBatch, Deeds, RepliesLogged, Transcribed, LeftOf;
    TranscribedSame(log[w.start..], (log + [r])[w.start..], trace, at.answering);
  }

  lemma {:induction false} ServedAfterForeign(w: World, log: seq<Record>, trace: seq<Act>, at: Standing, more: seq<Record>)
    requires Served(w, log, trace, at) && forall i | 0 <= i < |more| :: Foreign(more[i].event)
    ensures Served(w, log + more, trace, at)
    decreases |more|
  {
    hide Served;
    if more == [] {
      assert log + more == log;
    } else {
      var n := |more| - 1;
      ServedAfterForeign(w, log, trace, at, more[..n]);
      ServedAfterQuiet(w, log + more[..n], trace, at, more[n]);
      assert log + more == (log + more[..n]) + [more[n]];
    }
  }

  lemma {:induction false} ServedAfterAct(w: World, log: seq<Record>, trace: seq<Act>, at: Standing, a: Act)
    requires Served(w, log, trace, at) && !a.Invoked? && (a.Opened? ==> !at.answering)
    ensures Served(w, log, trace + [a], at.(answering := at.answering || a.Opened?))
  {
    DeedsAfter(trace, a);
    TranscribedAfter(log[w.start..], trace, at.answering, a);
    hide CallsLogged, ResultsLogged, LastBatch, Deeds, Transcribed;
  }

  lemma {:induction false} ServedAfterReply(w: World, log: seq<Record>, trace: seq<Act>, at: Standing, r: Record)
    requires Served(w, log, trace, at) && at.left == [] && at.skipped == [] && at.answering
    requires r.event.AssistantMessage? && HeardFrom(LastStream(trace), r.event, SawCancel(trace))
    ensures Served(w, log + [r], trace, Standing(Some(Batch(r.event.calls, [])), r.event.calls, [], false))
  {
    LogStretchAfter(log, w.start, r);
    TranscribedReply(log[w.start..], (log + [r])[w.start..], trace, r.event);
    hide CallsLogged, ResultsLogged, LastBatch, Deeds, Transcribed, HeardFrom, LastStream, SawCancel;
    var done := CallsOf(Deeds(trace));
    assert (done + [] + []) + r.event.calls == done + [] + r.event.calls;
    assert ResultsLogged(log[w.start..]) + [] == ResultsLogged(log[w.start..]);
  }

  /** A call is run and answered by what came of it. */
  lemma {:induction false} ServedAfterDeed(w: World, log: seq<Record>, trace: seq<Act>, at: Standing, deed: Deed,
                                           rest: seq<Call>, r: Record)
    requires Served(w, log, trace, at) && at.left == [deed.call] + rest && at.skipped == []
    requires r.event == ToolResult(deed.call.id, deed.ok, deed.output)
    ensures at.batch.Some?
    ensures Served(w, log + [r], trace + [Invoked(deed)],
                   at.(batch := Some(at.batch.value.(oks := at.batch.value.oks + [deed.ok])), left := rest))
  {
    var part, now := log[w.start..], (log + [r])[w.start..];
    ResultStretch(log, w.start, r);
    LeftAfter(at, deed.call, rest, deed.ok);
    DeedsAfter(trace, Invoked(deed));
    TranscribedAfter(part, trace, at.answering, Invoked(deed));
    hide CallsLogged, ResultsLogged, LastBatch, Deeds, RepliesLogged, Transcribed, LeftOf, CallsOf, ResultsOf, NotRun;
    TranscribedSame(part, now, trace + [Invoked(deed)], at.answering);
    DeedSnoc(Deeds(trace), deed, rest);
  }

  /** A result adds itself and how its call went, and nothing else. */
  lemma {:induction false} ResultStretch(log: seq<Record>, start: nat, r: Record)
    requires start <= |log| && r.event.ToolResult?
    ensures var part, was := (log + [r])[start..], log[start..];
            && CallsLogged(part) == CallsLogged(was) && RepliesLogged(part) == RepliesLogged(was)
            && ResultsLogged(part) == ResultsLogged(was) + [Tool(r.event.callId, r.event.output, r.event.ok)]
            && (LastBatch(was).Some? ==>
                  LastBatch(part) == Some(LastBatch(was).value.(oks := LastBatch(was).value.oks + [r.event.ok])))
  {
    LogStretchAfter(log, start, r);
    var was := log[start..];
    assert CallsLogged(was) + [] == CallsLogged(was) && RepliesLogged(was) + [] == RepliesLogged(was);
  }

  lemma {:induction false} DeedSnoc(deeds: seq<Deed>, deed: Deed, rest: seq<Call>)
    ensures CallsOf(deeds + [deed]) == CallsOf(deeds) + [deed.call] && ResultsOf(deeds + [deed]) == ResultsOf(deeds) + [deed.Result()]
    ensures CallsOf(deeds) + [] + ([deed.call] + rest) == CallsOf(deeds + [deed]) + [] + rest
    ensures ResultsOf(deeds) + NotRun([]) + [deed.Result()] == ResultsOf(deeds + [deed]) + NotRun([])
  {}

  /** A call is answered without being run. */
  lemma {:induction false} ServedAfterSkip(w: World, log: seq<Record>, trace: seq<Act>, at: Standing, call: Call,
                                           rest: seq<Call>, r: Record)
    requires Served(w, log, trace, at) && at.left == [call] + rest && r.event == ToolResult(call.id, false, NOT_RUN)
    ensures at.batch.Some?
    ensures Served(w, log + [r], trace,
                   at.(batch := Some(at.batch.value.(oks := at.batch.value.oks + [false])), left := rest, skipped := at.skipped + [call]))
  {
    var part, now := log[w.start..], (log + [r])[w.start..];
    ResultStretch(log, w.start, r);
    LeftAfter(at, call, rest, false);
    LeftIgnoresSkipped(at.(batch := Some(at.batch.value.(oks := at.batch.value.oks + [false])), left := rest), at.skipped + [call]);
    hide CallsLogged, ResultsLogged, LastBatch, Deeds, RepliesLogged, Transcribed, LeftOf, CallsOf, ResultsOf, NotRun;
    TranscribedSame(part, now, trace, at.answering);
    SkipSnoc(CallsOf(Deeds(trace)), ResultsOf(Deeds(trace)), at.skipped, call, rest);
  }

  lemma {:induction false} LeftIgnoresSkipped(at: Standing, skipped: seq<Call>)
    ensures LeftOf(at.(skipped := skipped)) <==> LeftOf(at)
  {}

  lemma {:induction false} SkipSnoc(done: seq<Call>, results: seq<Message>, skipped: seq<Call>, call: Call, rest: seq<Call>)
    ensures done + skipped + ([call] + rest) == done + (skipped + [call]) + rest
    ensures (results + NotRun(skipped)) + [Tool(call.id, NOT_RUN, false)] == results + NotRun(skipped + [call])
  {
    assert NotRun(skipped + [call]) == NotRun(skipped) + [Tool(call.id, NOT_RUN, false)];
  }

  /** What the ledger comes to for a reader: the first calls asked for were run and their
      results logged; the rest were answered as not run. */
  lemma {:induction false} ServedMeans(w: World, log: seq<Record>, trace: seq<Act>, at: Standing)
    requires Served(w, log, trace, at) && at.left == []
    ensures var calls, deeds := CallsLogged(log[w.start..]), Deeds(trace);
            && |deeds| <= |calls| && CallsOf(deeds) == calls[..|deeds|] && at.skipped == calls[|deeds|..]
            && ResultsLogged(log[w.start..]) == ResultsOf(deeds) + NotRun(calls[|deeds|..])
  {
    hide CallsLogged, ResultsLogged, LastBatch, Deeds, Transcribed;
    var calls, done := CallsLogged(log[w.start..]), CallsOf(Deeds(trace));
    assert calls == done + at.skipped;
  }

  lemma {:induction false} NothingRun(calls: seq<Call>, ms: seq<Message>, endingTools: set<string>)
    ensures CallsOf([]) == calls[..0] && OksOf([]) == [] && ms + ResultsOf([]) == ms && NotRun([]) == [] && UserMessages([]) == []
    ensures !HandsBack(calls, [], endingTools)
  {}

  lemma {:induction false} RunNext(calls: seq<Call>, ran: seq<Deed>, deed: Deed, ms: seq<Message>, endingTools: set<string>)
    requires |ran| < |calls| && deed.call == calls[|ran|] && CallsOf(ran) == calls[..|ran|]
    ensures CallsOf(ran + [deed]) == calls[..|ran| + 1] && OksOf(ran + [deed]) == OksOf(ran) + [deed.ok]
    ensures ms + ResultsOf(ran) + [deed.Result()] == ms + ResultsOf(ran + [deed])
    ensures HandsBack(calls, OksOf(ran + [deed]), endingTools)
       <==> HandsBack(calls, OksOf(ran), endingTools) || (deed.ok && deed.call.name in endingTools)
  {
    HandsBackNext(calls, OksOf(ran), deed.ok, endingTools);
    hide HandsBack;
    assert CallsOf(ran + [deed]) == CallsOf(ran) + [deed.call] && OksOf(ran + [deed]) == OksOf(ran) + [deed.ok];
    assert ResultsOf(ran + [deed]) == ResultsOf(ran) + [deed.Result()];
    assert calls[..|ran| + 1] == calls[..|ran|] + [calls[|ran|]];
  }

  /** The first calls of a batch have run, behind `done`, and their results follow `list`. */
  ghost predicate Underway(deeds: seq<Deed>, batch: Option<Batch>, ms: seq<Message>, calls: seq<Call>, ran: seq<Deed>,
                           done: seq<Deed>, list: seq<Message>)
  {
    && |ran| <= |calls| && CallsOf(ran) == calls[..|ran|] && deeds == done + ran
    && batch == Some(Batch(calls, OksOf(ran))) && ms == list + ResultsOf(ran)
  }

  lemma {:induction false} UnderwayNext(deeds: seq<Deed>, batch: Option<Batch>, ms: seq<Message>, calls: seq<Call>, ran: seq<Deed>,
                                        done: seq<Deed>, list: seq<Message>, deed: Deed)
    requires Underway(deeds, batch, ms, calls, ran, done, list) && |ran| < |calls| && deed.call == calls[|ran|]
    ensures batch.Some?
    ensures Underway(deeds + [deed], Some(batch.value.(oks := batch.value.oks + [deed.ok])), ms + [deed.Result()], calls,
                     ran + [deed], done, list)
  {
    RunNext(calls, ran, deed, list, {});
    hide CallsOf, OksOf, ResultsOf, HandsBack;
    assert (done + ran) + [deed] == done + (ran + [deed]);
  }

  lemma {:induction false} AllAnswered(ms: seq<Message>, ran: seq<Deed>, calls: seq<Call>, i: nat)
    requires i <= |calls|
    ensures ms + ResultsOf(ran) + NotRun(calls[i..]) + UserMessages([]) == ms + ResultsOf(ran) + NotRun(calls[i..])
    ensures i == |calls| ==> calls[i..] == [] && ms + ResultsOf(ran) + NotRun(calls[i..]) == ms + ResultsOf(ran)
  {}

  lemma {:induction false} UrgencyIs(cancelled: bool, items: seq<InboxItem>)
    ensures Urgency(cancelled, items).Cancelled? <==> cancelled || CancelItem in items
    ensures Urgency(cancelled, items).Nudged? <==> !cancelled && CancelItem !in items && NudgesIn(items) > 0
  {}

  /** One attempt to compact: whether enough was shed, whether anything was recorded and
      what, and the summaries asked for. */
  datatype Try = Try(shed: bool, recorded: bool, made: Compaction, asked: seq<Asking>)

  // --- summaries -------------------------------------------------------------------------------

  /** The jobs are asked for one after the other, from the first. */
  ghost predicate AskedInTurn(jobs: seq<Job>, asked: seq<Asking>) {
    |asked| <= |jobs| && forall i | 0 <= i < |asked| :: asked[i].job == jobs[i]
  }

  /** The answers of use, and where they came from. */
  ghost predicate AreAnswers(asked: seq<Asking>, kept: seq<nat>, texts: seq<string>) {
    && |texts| == |kept| && Rises(kept)
    && (forall i | 0 <= i < |kept| :: kept[i] < |asked| && asked[kept[i]].answer == Some(texts[i]))
    && forall k: nat | k < |asked| && asked[k].answer.Some? :: k in kept
  }

  lemma {:induction false} NothingAsked(jobs: seq<Job>)
    ensures AskedInTurn(jobs, []) && AreAnswers([], [], [])
  {}

  lemma {:induction false} AnswerNext(jobs: seq<Job>, asked: seq<Asking>, kept: seq<nat>, texts: seq<string>, answer: Option<string>)
    requires AskedInTurn(jobs, asked) && AreAnswers(asked, kept, texts) && |asked| < |jobs|
    ensures var all := asked + [Asking(jobs[|asked|], answer)];
            && AskedInTurn(jobs, all)
            && if answer.Some? then AreAnswers(all, kept + [|asked|], texts + [answer.value]) else AreAnswers(all, kept, texts)
  {
    var all := asked + [Asking(jobs[|asked|], answer)];
    assert forall k | 0 <= k < |asked| :: all[k] == asked[k];
    if answer.Some? {
      var more := kept + [|asked|];
      assert more[|kept|] == |asked|;
      forall k: nat | k < |all| && all[k].answer.Some? ensures k in more {
        if k < |asked| { assert k in kept; }
      }
    }
  }

  lemma {:induction false} AnswersKept(asked: seq<Asking>, kept: seq<nat>, texts: seq<string>)
    requires AreAnswers(asked, kept, texts)
    ensures kept != [] <==> exists i :: 0 <= i < |asked| && asked[i].answer.Some?
  {
    if kept != [] { assert asked[kept[0]].answer.Some?; }
  }

  /** A record made of the answers of use: a span and a text block each, in order, and
      the number of messages they stand for. */
  ghost predicate MadeOf(c: Compaction, jobs: seq<Job>, asked: seq<Asking>) {
    exists kept, texts ::
      && AreAnswers(asked, kept, texts) && Indices(kept, |jobs|) && Records(c.spans, jobs, kept)
      && c.replaced == Splice.MessagesOf(jobs, kept) && Tells(c.summary, jobs, kept, texts)
      && forall i | 0 <= i < |texts| :: Text.Mentions(c.summary, Told(jobs[kept[i]], texts[i]))
  }

  /** What a summary says of one job: the sequences it stands for, and the answer. */
  function Told(job: Job, text: string): string { Dec(job.first) + "-" + Dec(job.last) + "\n\n" + text }

  lemma {:induction false} BlockTells(job: Job, text: string)
    ensures SummaryBlock(job, text) == "### events " + Told(job, text)
  {}

  lemma {:induction false} SummaryMentions(summary: string, jobs: seq<Job>, kept: seq<nat>, texts: seq<string>, i: nat)
    requires Tells(summary, jobs, kept, texts) && i < |texts|
    ensures Text.Mentions(summary, Told(jobs[kept[i]], texts[i]))
  {
    var block := SummaryBlock(jobs[kept[i]], texts[i]);
    Text.JoinMentions(Blocks(jobs, kept, texts), "\n\n", i);
    BlockTells(jobs[kept[i]], texts[i]);
    hide Text.Join, SummaryBlock, Told;
    var a, b: string :| summary == a + block + b;
    assert summary == (a + "### events ") + Told(jobs[kept[i]], texts[i]) + b;
  }

  lemma {:induction false} MadeOfAnswers(c: Compaction, jobs: seq<Job>, asked: seq<Asking>, kept: seq<nat>, texts: seq<string>)
    requires AreAnswers(asked, kept, texts) && Indices(kept, |jobs|) && Records(c.spans, jobs, kept)
    requires c.replaced == Splice.MessagesOf(jobs, kept) && Tells(c.summary, jobs, kept, texts)
    ensures MadeOf(c, jobs, asked)
  {
    assert |texts| == |kept|;
    hide AreAnswers, Indices, Tells, Splice.MessagesOf, Told;
    assert forall i | 0 <= i < |kept| :: kept[i] < |jobs| by { IndicesFit(kept, |jobs|); }
    forall i | 0 <= i < |kept| ensures Text.Mentions(c.summary, Told(jobs[kept[i]], texts[i])) {
      SummaryMentions(c.summary, jobs, kept, texts, i);
    }
  }

  lemma {:induction false} IndicesFit(kept: seq<nat>, n: nat)
    requires Indices(kept, n)
    ensures forall i | 0 <= i < |kept| :: kept[i] < n
  {}
}
