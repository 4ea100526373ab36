/** What a turn does and keeps, said about values: its trace, its part of the log, and
    the list it holds. */
module TurnTrace {
  import opened EventLog
  import opened HiddenRanges
  import opened Projection
  import opened ProjectionLaws
  import opened Compacting
  import opened CompactionRuns
  import opened BatchRuns
  import opened TurnPlans
  import opened TurnSync
  import opened Splice
  import Text
  import Todos

  datatype InboxItem = NudgeItem(text: string) | CancelItem | ControlItem(command: string)

  datatype Interrupt = Clear | Nudged | Cancelled {
    /** The more urgent of two observations. */
    function Or(other: Interrupt): Interrupt {
      if Cancelled? || other.Cancelled? then Cancelled
      else if Nudged? || other.Nudged? then Nudged
      else Clear
    }
  }

  datatype StreamItem =
    | Delta(text: string)
    | Reasoning(thought: string)
    | Calls(calls: seq<Call>)
    | Finished(usage: Option<Usage>)

  datatype Reply = Reply(text: string, calls: seq<Call>, usage: Option<Usage>)

  datatype Ending = Stopped | StoppedByUser | AskedUser | OutOfIterations | LlmError(error: string)

  /** A call that was run, and what came of it. */
  datatype Deed = Deed(call: Call, ok: bool, output: string) {
    function Result(): Message { Tool(call.id, output, ok) }
  }

  /** A summary asked for, and the answer if it was of use. */
  datatype Asking = Asking(job: Job, answer: Option<string>)

  /** What passes between a turn and the outside world, as a reader of its behaviour sees
      it.  `Opened` keeps the turn's list as it went out, the log, whether the list was
      sound (rebuilt to an acceptable request, and no text put among open calls since),
      and the stream that came back, if one did. */
  datatype Act =
    | Polled(items: seq<InboxItem>)
    | Opened(request: seq<Message>, origins: seq<nat>, price: (nat, nat), log: seq<Record>, sound: bool,
             stream: Option<seq<StreamItem>>)
    | Invoked(deed: Deed)
    | Summarized(asking: Asking)
    | ReadTodos(list: Todos.TodoList)

  datatype Attempt = Attempt(size: nat, shed: bool)

  // --- what a trace promises -----------------------------------------------------------

  predicate ReportsCancel(a: Act) { a.Polled? && CancelItem in a.items }
  predicate Costly(a: Act) { a.Opened? || a.Invoked? || a.Summarized? }

  ghost predicate SawCancel(trace: seq<Act>) { exists i :: 0 <= i < |trace| && ReportsCancel(trace[i]) }

  /** Once a poll reported a cancel, nothing costly happens. */
  ghost predicate IdleAfterCancel(trace: seq<Act>) {
    forall i, j | 0 <= i < j < |trace| && ReportsCancel(trace[i]) :: !Costly(trace[j])
  }

  function NudgesIn(items: seq<InboxItem>): nat {
    if items == [] then 0 else NudgesIn(items[..|items| - 1]) + (if items[|items| - 1].NudgeItem? then 1 else 0)
  }

  /** The nudge texts among inbox items, in arrival order. */
  function NudgeTexts(items: seq<InboxItem>): seq<string> {
    if items == [] then []
    else NudgeTexts(items[..|items| - 1]) + (if items[|items| - 1].NudgeItem? then [items[|items| - 1].text] else [])
  }

  /** What one reading of the inbox reports: a stop outranks a nudge. */
  function Urgency(cancelled: bool, items: seq<InboxItem>): Interrupt {
    if cancelled || CancelItem in items then Cancelled
    else if NudgesIn(items) > 0 then Nudged
    else Clear
  }

  /** Every nudge text the polls of a trace brought, in arrival order. */
  function TextsSeen(trace: seq<Act>): seq<string> {
    if trace == [] then []
    else TextsSeen(trace[..|trace| - 1])
         + (if trace[|trace| - 1].Polled? then NudgeTexts(trace[|trace| - 1].items) else [])
  }

  lemma {:induction false} TextsAfter(trace: seq<Act>, a: Act)
    ensures TextsSeen(trace + [a]) == TextsSeen(trace) + (if a.Polled? then NudgeTexts(a.items) else [])
    ensures !a.Polled? ==> TextsSeen(trace + [a]) == TextsSeen(trace)
  {
    assert (trace + [a])[..|trace|] == trace;
  }

  /** What the deltas of a stream spell; reasoning is not part of the answer. */
  function Spoken(items: seq<StreamItem>): string {
    if items == [] then ""
    else Spoken(items[..|items| - 1]) + (if items[|items| - 1].Delta? then items[|items| - 1].text else "")
  }

  /** The calls a stream asked for last. */
  function CallsAsked(items: seq<StreamItem>): seq<Call> {
    if items == [] then []
    else if items[|items| - 1].Calls? then items[|items| - 1].calls
    else CallsAsked(items[..|items| - 1])
  }

  /** What is spelled is the deltas' texts, one behind the other. */
  lemma {:induction false} SpokenSplits(a: seq<StreamItem>, b: seq<StreamItem>)
    ensures Spoken(a + b) == Spoken(a) + Spoken(b)
  {
    if b == [] {
      assert a + b == a;
    } else {
      var n := |b| - 1;
      SpokenSplits(a, b[..n]);
      var said := if b[n].Delta? then b[n].text else "";
      assert (a + b)[..|a + b| - 1] == a + b[..n] && (a + b)[|a + b| - 1] == b[n];
      assert Spoken(a + b) == Spoken(a + b[..n]) + said && Spoken(b) == Spoken(b[..n]) + said;
      hide Spoken;
      assert (Spoken(a) + Spoken(b[..n])) + said == Spoken(a) + (Spoken(b[..n]) + said);
    }
  }

  lemma {:induction false} SpokenAlone(item: StreamItem)
    ensures Spoken([item]) == if item.Delta? then item.text else ""
  {
    assert [item][..0] == [];
  }

  /** The calls asked for are those of the last item that names any. */
  lemma {:induction false} CallsAskedLast(items: seq<StreamItem>, i: nat)
    requires i <= |items| && forall k | i <= k < |items| :: !items[k].Calls?
    ensures i == 0 ==> CallsAsked(items) == []
    ensures i > 0 && items[i - 1].Calls? ==> CallsAsked(items) == items[i - 1].calls
  {
    if i < |items| { CallsAskedLast(items[..|items| - 1], i); }
  }

  /** Nudge texts are the nudges', one behind the other. */
  lemma {:induction false} NudgeTextsSplit(a: seq<InboxItem>, b: seq<InboxItem>)
    ensures NudgeTexts(a + b) == NudgeTexts(a) + NudgeTexts(b)
    ensures |a| == 1 ==> NudgeTexts(a) == if a[0].NudgeItem? then [a[0].text] else []
    ensures |NudgeTexts(b)| == NudgesIn(b)
  {
    if b == [] {
      assert a + b == a;
    } else {
      var n := |b| - 1;
      NudgeTextsSplit(a, b[..n]);
      assert (a + b)[..|a + b| - 1] == a + b[..n];
      assert (NudgeTexts(a) + NudgeTexts(b[..n])) + (if b[n].NudgeItem? then [b[n].text] else []) == NudgeTexts(a) + NudgeTexts(b);
    }
    if |a| == 1 { assert a[..0] == []; }
  }

  predicate RunsToEnd(items: seq<StreamItem>) { items != [] && items[|items| - 1].Finished? }

  lemma {:induction false} HearNext(items: seq<StreamItem>, i: nat)
    requires i < |items|
    ensures Spoken(items[..i + 1]) == if items[i].Delta? then Spoken(items[..i]) + items[i].text else Spoken(items[..i])
    ensures CallsAsked(items[..i + 1]) == if items[i].Calls? then items[i].calls else CallsAsked(items[..i])
  {
    assert items[..i + 1][..i] == items[..i] && items[..i + 1][i] == items[i];
  }

  lemma {:induction false} NothingHeard()
    ensures Spoken([]) == "" && CallsAsked([]) == [] && !RunsToEnd([])
  {}

  const NOT_RUN: string := "Not run: you stopped this turn."

  /** The results that stand for calls never run. */
  function NotRun(calls: seq<Call>): seq<Message> {
    seq(|calls|, i requires 0 <= i < |calls| => Tool(calls[i].id, NOT_RUN, false))
  }

  /** A call that ended the turn: one that succeeded and hands control back. */
  predicate HandsBack(calls: seq<Call>, oks: seq<bool>, endingTools: set<string>) {
    exists i :: 0 <= i < |oks| && i < |calls| && oks[i] && calls[i].name in endingTools
  }

  lemma {:induction false} HandsBackNext(calls: seq<Call>, oks: seq<bool>, ok: bool, endingTools: set<string>)
    requires |oks| < |calls|
    ensures HandsBack(calls, oks + [ok], endingTools)
       <==> HandsBack(calls, oks, endingTools) || (ok && calls[|oks|].name in endingTools)
  {
    var all := oks + [ok];
    if HandsBack(calls, oks, endingTools) {
      var i :| 0 <= i < |oks| && i < |calls| && oks[i] && calls[i].name in endingTools;
      assert all[i];
    }
    if ok && calls[|oks|].name in endingTools { assert all[|oks|]; }
    if HandsBack(calls, all, endingTools) {
      var i :| 0 <= i < |all| && i < |calls| && all[i] && calls[i].name in endingTools;
      if i < |oks| { assert oks[i]; }
    }
  }

  function UserMessages(texts: seq<string>): seq<Message> {
    seq(|texts|, i requires 0 <= i < |texts| => User(texts[i]))
  }

  function NudgesSeen(trace: seq<Act>): nat {
    if trace == [] then 0
    else NudgesSeen(trace[..|trace| - 1]) + (if trace[|trace| - 1].Polled? then NudgesIn(trace[|trace| - 1].items) else 0)
  }

  function Completions(trace: seq<Act>): nat {
    if trace == [] then 0 else Completions(trace[..|trace| - 1]) + (if trace[|trace| - 1].Opened? then 1 else 0)
  }

  /** How a turn was started: its place in the log, what is hidden, whether others keep
      to bookkeeping and nudges (`calm`), and whether the log's batches were whole. */
  datatype World = World(hidden: Hidden, start: nat, since: nat, calm: bool, whole: bool)

  /** The texts of the nudges a log holds. */
  function NudgesLogged(log: seq<Record>): seq<string> {
    if log == [] then []
    else NudgesLogged(log[..|log| - 1])
         + (if log[|log| - 1].event.Nudge? then [log[|log| - 1].event.text] else [])
  }

  /** No nudge was logged since the turn began, and nobody else logs user text. */
  ghost predicate Undisturbed(w: World, log: seq<Record>) {
    w.calm && w.start <= |log| && NudgesLogged(log[w.start..]) == []
  }

  /** A request is acceptable exactly when its list was sound; undisturbed it is the
      projection of the log as it stood, origins and price included, and sound where
      the log's batches were whole. */
  ghost predicate Fair(a: Act, w: World) {
    a.Opened? ==>
      && (Acceptable(a.request) <==> a.sound)
      && (Undisturbed(w, a.log) ==>
            InSync(a.log, w.hidden, a.request, a.origins, a.price) && (w.whole ==> a.sound))
  }

  ghost predicate RequestsFair(trace: seq<Act>, w: World) {
    forall i | 0 <= i < |trace| :: Fair(trace[i], w)
  }

  lemma {:induction false} RequestsAfter(trace: seq<Act>, a: Act, w: World)
    requires RequestsFair(trace, w) && Fair(a, w)
    ensures RequestsFair(trace + [a], w)
  {
    hide Fair;
    forall i | 0 <= i < |trace + [a]| ensures Fair((trace + [a])[i], w) {
      if i < |trace| { assert (trace + [a])[i] == trace[i]; }
    }
  }

  lemma {:induction false} OtherActsAreFair(a: Act, w: World)
    requires !a.Opened?
    ensures Fair(a, w)
  {}

  lemma {:induction false} TraceAfter(trace: seq<Act>, a: Act)
    ensures SawCancel(trace + [a]) <==> SawCancel(trace) || ReportsCancel(a)
    ensures IdleAfterCancel(trace) && (Costly(a) ==> !SawCancel(trace)) ==> IdleAfterCancel(trace + [a])
    ensures NudgesSeen(trace + [a]) == NudgesSeen(trace) + (if a.Polled? then NudgesIn(a.items) else 0)
    ensures Completions(trace + [a]) == Completions(trace) + (if a.Opened? then 1 else 0)
  {
    var t := trace + [a];
    assert t[..|trace|] == trace && t[|trace|] == a;
    if SawCancel(trace) {
      var i :| 0 <= i < |trace| && ReportsCancel(trace[i]);
      assert ReportsCancel(t[i]);
    }
    if ReportsCancel(a) { assert ReportsCancel(t[|trace|]); }
  }

  lemma {:induction false} NoItems()
    ensures NudgeTexts([]) == [] && NudgesIn([]) == 0
  {}

  lemma {:induction false} NextItem(items: seq<InboxItem>, i: nat)
    requires i < |items|
    ensures NudgeTexts(items[..i + 1]) == if items[i].NudgeItem? then NudgeTexts(items[..i]) + [items[i].text]
                                          else NudgeTexts(items[..i])
    ensures NudgesIn(items[..i + 1]) == NudgesIn(items[..i]) + (if items[i].NudgeItem? then 1 else 0)
    ensures CancelItem in items[..i + 1] <==> CancelItem in items[..i] || items[i].CancelItem?
  {
    assert items[..i + 1] == items[..i] + [items[i]];
    assert items[..i + 1][..i] == items[..i];
  }

  function Shown(shown: seq<(Message, nat)>): seq<Message> {
    seq(|shown|, i requires 0 <= i < |shown| => shown[i].0)
  }

  function From(shown: seq<(Message, nat)>): seq<nat> {
    seq(|shown|, i requires 0 <= i < |shown| => shown[i].1)
  }

  /** Pushing the projection behind the prompt rebuilds the list. */
  lemma {:induction false} RebuiltInSync(log: seq<Record>, hidden: Hidden, prompt: string, shown: seq<(Message, nat)>,
                                         billing: Option<(nat, nat)>, ms: seq<Message>, origins: seq<nat>)
    requires Emits(shown, billing, Items(log, hidden), PlanOf(log, hidden), 1)
    requires ms == [System(prompt)] + Shown(shown) && origins == [0] + From(shown)
    ensures InSync(log, hidden, ms, origins, if billing.Some? then billing.value else (0, 0))
  {
    hide Items, PlanOf, Billing;
    assert ms == ListedMessages(log, hidden, prompt);
    assert origins == ListedOrigins(log, hidden);
  }

  // --- the batch the turn owes --------------------------------------------------------------

  /** Only a turn logs assistant messages and results; everything else passes by. */
  function Settle(owed: Owed, e: Event): Owed {
    if e.AssistantMessage? || e.ToolResult? then BatchRuns.Answer(owed, Render(e, false)) else owed
  }

  function Settled(log: seq<Record>): Owed {
    if log == [] then Some([]) else Settle(Settled(log[..|log| - 1]), log[|log| - 1].event)
  }

  /** Replies that asked for tools. */
  function CallingReplies(log: seq<Record>): nat {
    if log == [] then 0
    else CallingReplies(log[..|log| - 1]) + (if Calling(log[|log| - 1].event) then 1 else 0)
  }

  predicate Calling(e: Event) { e.AssistantMessage? && e.calls != [] }

  predicate Foreign(e: Event) { !e.AssistantMessage? && !e.ToolResult? && !e.ContextCompacted? }

  lemma {:induction false} SettledAfterForeign(log: seq<Record>, start: nat, more: seq<Record>)
    requires start <= |log| && forall i | 0 <= i < |more| :: Foreign(more[i].event)
    ensures Settled((log + more)[start..]) == Settled(log[start..])
    ensures CallingReplies((log + more)[start..]) == CallingReplies(log[start..])
    decreases |more|
  {
    if more == [] {
      assert log + more == log;
    } else {
      var init := more[..|more| - 1];
      SettledAfterForeign(log, start, init);
      assert (log + more)[start..] == (log + init)[start..] + [more[|more| - 1]];
      assert ((log + init)[start..] + [more[|more| - 1]])[..|log + init| - start] == (log + init)[start..];
    }
  }

  lemma {:induction false} SettledAfter(log: seq<Record>, start: nat, r: Record)
    requires start <= |log|
    ensures Settled((log + [r])[start..]) == Settle(Settled(log[start..]), r.event)
    ensures CallingReplies((log + [r])[start..]) == CallingReplies(log[start..]) + (if Calling(r.event) then 1 else 0)
  {
    assert (log + [r])[start..] == log[start..] + [r];
    assert (log[start..] + [r])[..|log| - start] == log[start..];
  }

  lemma {:induction false} Grown(log: seq<Record>, r: Record)
    ensures log <= log + [r]
  {}

  /** What the turn keeps of the log: its own batch owes `owed`, it logged `replies`
      calling replies, and every recorded span lies behind its record. */
  ghost predicate Logged(w: World, log: seq<Record>, owed: seq<string>, replies: nat) {
    && Chronological(log) && SpansBehind(log) && w.start <= |log| && w.since <= LastAt(log)
    && (w.calm ==> NothingHiddenSince(w.hidden, w.since))
    && Settled(log[w.start..]) == Some(owed) && CallingReplies(log[w.start..]) == replies
  }

  lemma {:induction false} LoggedAfterForeign(w: World, log: seq<Record>, owed: seq<string>, replies: nat, more: seq<Record>)
    requires Logged(w, log, owed, replies) && Extends(log, more) && forall i | 0 <= i < |more| :: Foreign(more[i].event)
    ensures Logged(w, log + more, owed, replies)
  {
    ExtendsChronological(log, more);
    SettledAfterForeign(log, w.start, more);
    hide Settled, CallingReplies, Chronological, Extends, SpansBehind, LastAt, NothingHiddenSince;
    BehindAfterForeign(log, more);
  }

  lemma {:induction false} BehindAfterForeign(log: seq<Record>, more: seq<Record>)
    requires SpansBehind(log) && forall i | 0 <= i < |more| :: Foreign(more[i].event)
    ensures SpansBehind(log + more)
  {
    forall r, k | r in log + more && r.event.ContextCompacted? && 0 <= k < |r.event.compaction.spans|
      ensures 0 < r.event.compaction.spans[k].from <= r.event.compaction.spans[k].through < r.at {
      assert r in log;
    }
  }

  lemma {:induction false} LoggedAfter(w: World, log: seq<Record>, owed: seq<string>, replies: nat, r: Record)
    requires Logged(w, log, owed, replies) && r.at > LastAt(log) && Settle(Some(owed), r.event).Some?
    requires r.event.ContextCompacted? ==> forall k | 0 <= k < |r.event.compaction.spans| ::
               0 < r.event.compaction.spans[k].from <= r.event.compaction.spans[k].through < r.at
    ensures Logged(w, log + [r], Settle(Some(owed), r.event).value, replies + (if Calling(r.event) then 1 else 0))
  {
    ChronologicalAppend(log, r);
    SettledAfter(log, w.start, r);
    SpansBehindAfter(log, r);
  }

  lemma {:induction false} NudgesAfter(log: seq<Record>, start: nat, r: Record)
    requires start <= |log|
    ensures NudgesLogged((log + [r])[start..])
         == if r.event.Nudge? then NudgesLogged(log[start..]) + [r.event.text] else NudgesLogged(log[start..])
  {
    assert (log + [r])[start..] == log[start..] + [r];
    assert (log[start..] + [r])[..|log| - start] == log[start..];
  }

  lemma {:induction false} NudgesAfterAll(log: seq<Record>, start: nat, more: seq<Record>)
    requires start <= |log|
    ensures NudgesLogged((log + more)[start..]) == NudgesLogged(log[start..]) + NudgesLogged(more)
  {
    if more == [] {
      assert log + more == log;
    } else {
      var init := more[..|more| - 1];
      NudgesAfterAll(log, start, init);
      assert log + more == (log + init) + [more[|more| - 1]];
      NudgesAfter(log + init, start, more[|more| - 1]);
    }
  }

  lemma {:induction false} NoNudgeAmong(more: seq<Record>)
    requires NudgesLogged(more) == []
    ensures forall i | 0 <= i < |more| :: !more[i].event.Nudge?
  {
    if more != [] { NoNudgeAmong(more[..|more| - 1]); }
  }

  /** Others log no compaction. */
  lemma {:induction false} LastCompactionForeign(log: seq<Record>, more: seq<Record>)
    requires forall i | 0 <= i < |more| :: Foreign(more[i].event)
    ensures LastCompaction(log + more) == LastCompaction(log)
  {
    if more == [] {
      assert log + more == log;
    } else {
      var init := more[..|more| - 1];
      LastCompactionForeign(log, init);
      assert (log + more)[..|log + more| - 1] == log + init;
    }
  }

  lemma {:induction false} LastCompactionSame(log: seq<Record>, r: Record)
    requires !r.event.ContextCompacted?
    ensures LastCompaction(log + [r]) == LastCompaction(log)
  {
    assert (log + [r])[..|log|] == log;
  }

  // --- the list a turn holds ---------------------------------------------------------------------

  /** What a list owes its calls.  A sound list owes exactly `owed`; one that is not can
      never be put right by pushing to it. */
  ghost predicate OwesAs(ms: seq<Message>, owed: seq<string>, sound: bool) {
    if sound then OwedAfter(ms, Some([])) == Some(owed)
    else OwedAfter(ms, Some([])) == None || (owed == [] && OwedAfter(ms, Some([])) != Some([]))
  }

  lemma {:induction false} OwesPush(ms: seq<Message>, owed: seq<string>, sound: bool, m: Message)
    requires OwesAs(ms, owed, sound)
    ensures m.Assistant? && owed == [] ==> OwesAs(ms + [m], Ids(m.calls), sound)
    ensures m.Tool? && owed != [] && owed[0] == m.callId ==> OwesAs(ms + [m], owed[1..], sound)
    ensures m.User? ==> OwesAs(ms + [m], owed, sound && owed == [])
  {
    OwedAfterConcat(ms, [m], Some([]));
    assert OwedAfter([m], OwedAfter(ms, Some([]))) == Answer(OwedAfter(ms, Some([])), m);
  }

  /** Everything the turn keeps of its list. */
  ghost predicate ListKept(w: World, log: seq<Record>, ms: seq<Message>, origins: seq<nat>, price: (nat, nat),
                           owed: seq<string>, sound: bool)
  {
    && Sourced(log, ms, origins) && OwesAs(ms, owed, sound)
    && (Undisturbed(w, log) ==> Synced(log, w.hidden, w.since, ms, origins, price))
    && (Undisturbed(w, log) && w.whole ==> LogStanding(log, w.hidden, w.since, owed))
  }

  /** What others may log: in a calm turn, bookkeeping and nudges only. */
  ghost predicate Arrivals(w: World, more: seq<Record>) {
    && (forall i | 0 <= i < |more| :: Foreign(more[i].event))
    && (w.calm ==> forall i | 0 <= i < |more| :: Quiet(more[i].event) || more[i].event.Nudge?)
  }

  lemma {:induction false} ListAfterOthers(w: World, log: seq<Record>, ms: seq<Message>, origins: seq<nat>, price: (nat, nat),
                                           owed: seq<string>, sound: bool, more: seq<Record>)
    requires ListKept(w, log, ms, origins, price, owed, sound) && w.start <= |log|
    requires Chronological(log) && Extends(log, more) && Arrivals(w, more)
    ensures ListKept(w, log + more, ms, origins, price, owed, sound)
  {
    ExtendsChronological(log, more);
    SourcedGrows(log, more, ms, origins);
    NudgesAfterAll(log, w.start, more);
    hide Synced, LogStanding, Sourced, OwesAs, Extends, Chronological, NudgesLogged;
    if Undisturbed(w, log + more) {
      NoNudgeAmong(more);
      assert AllQuiet(more);
      SyncedAfterOthers(log, w.hidden, w.since, ms, origins, price, more);
      if w.whole { LogStandingAfterOthers(log, w.hidden, w.since, owed, more); }
    }
  }

  /** The turn logs an event and pushes the message it projects to. */
  lemma {:induction false} ListAfterPush(w: World, log: seq<Record>, ms: seq<Message>, origins: seq<nat>, price: (nat, nat),
                                         owed: seq<string>, sound: bool, r: Record)
    requires ListKept(w, log, ms, origins, price, owed, sound) && w.start <= |log| && r.at > LastAt(log)
    requires r.event.SystemNote? || r.event.ToolResult?
    requires if r.event.SystemNote? then owed == [] else owed != [] && owed[0] == r.event.callId
    ensures ListKept(w, log + [r], ms + [Render(r.event, false)], origins + [r.at], price,
                     if r.event.SystemNote? then [] else owed[1..], sound)
  {
    OwesPush(ms, owed, sound, Render(r.event, false));
    SourcedSaid(log, ms, origins, r, Render(r.event, false));
    NudgesAfter(log, w.start, r);
    assert Tick(Some(owed), r.event) == Some(if r.event.SystemNote? then [] else owed[1..]);
    hide Synced, LogStanding, Sourced, OwesAs, NudgesLogged, Tick;
    if Undisturbed(w, log + [r]) {
      SyncedAfter(log, w.hidden, w.since, ms, origins, price, r);
      if w.whole { LogStandingAfter(log, w.hidden, w.since, owed, r); }
    }
  }

  /** A reply, priced as the list went out. */
  lemma {:induction false} ListAfterReply(w: World, log: seq<Record>, ms: seq<Message>, origins: seq<nat>, price: (nat, nat),
                                          sound: bool, r: Record)
    requires ListKept(w, log, ms, origins, price, [], sound) && w.start <= |log| && r.at > LastAt(log)
    requires r.event.AssistantMessage?
    ensures ListKept(w, log + [r], ms + [Assistant(r.event.content, r.event.calls)], origins + [r.at],
                     if r.event.usage.Some? then (r.event.usage.value.promptTokens, |ms|) else price,
                     Ids(r.event.calls), sound)
  {
    OwesPush(ms, [], sound, Render(r.event, false));
    SourcedSaid(log, ms, origins, r, Render(r.event, false));
    NudgesAfter(log, w.start, r);
    assert Tick(Some([]), r.event) == Some(Ids(r.event.calls));
    hide Synced, LogStanding, Sourced, OwesAs, NudgesLogged, Tick, Ids;
    if Undisturbed(w, log + [r]) {
      SyncedAfter(log, w.hidden, w.since, ms, origins, price, r);
      if w.whole { LogStandingAfter(log, w.hidden, w.since, [], r); }
    }
  }

  /** The turn logs bookkeeping of its own. */
  lemma {:induction false} ListAfterQuiet(w: World, log: seq<Record>, ms: seq<Message>, origins: seq<nat>, price: (nat, nat),
                                          owed: seq<string>, sound: bool, r: Record)
    requires ListKept(w, log, ms, origins, price, owed, sound) && w.start <= |log|
    requires Chronological(log) && r.at > LastAt(log) && Quiet(r.event)
    ensures ListKept(w, log + [r], ms, origins, price, owed, sound)
  {
    assert Extends(log, [r]) && Arrivals(w, [r]);
    ListAfterOthers(w, log, ms, origins, price, owed, sound, [r]);
  }

  /** Text without a sequence is pushed; among open calls it spoils the list. */
  lemma {:induction false} ListAfterSaid(w: World, log: seq<Record>, ms: seq<Message>, origins: seq<nat>, price: (nat, nat),
                                         owed: seq<string>, sound: bool, text: string)
    requires ListKept(w, log, ms, origins, price, owed, sound) && !Undisturbed(w, log)
    ensures ListKept(w, log, ms + [User(text)], origins + [0], price, owed, sound && owed == [])
  {
    OwesPush(ms, owed, sound, User(text));
    SourcedUser(log, ms, origins, text, 0);
    hide Synced, LogStanding, Sourced, OwesAs;
  }

  /** A rebuilt list is sound exactly when it is acceptable. */
  lemma {:induction false} ListRebuilt(w: World, log: seq<Record>, ms: seq<Message>, origins: seq<nat>, price: (nat, nat))
    requires InSync(log, w.hidden, ms, origins, price) && Chronological(log) && SpansBehind(log)
    requires w.since <= LastAt(log) && (w.calm ==> NothingHiddenSince(w.hidden, w.since))
    requires Undisturbed(w, log) && w.whole ==> LogStanding(log, w.hidden, w.since, [])
    ensures ListKept(w, log, ms, origins, price, [], Acceptable(ms))
  {
    ListedSourced(log, w.hidden, ms[0].prompt);
    hide LogStanding, Sourced, ListedMessages, ListedOrigins, LogPrice, NothingHiddenSince;
  }

  /** What goes out is judged fairly. */
  lemma {:induction false} OpenedFair(w: World, log: seq<Record>, ms: seq<Message>, origins: seq<nat>, price: (nat, nat), sound: bool,
                                      stream: Option<seq<StreamItem>>)
    requires ListKept(w, log, ms, origins, price, [], sound)
    ensures Fair(Opened(ms, origins, price, log, sound, stream), w)
  {
    hide Sourced, LogStanding, InSync, Undisturbed;
    if Undisturbed(w, log) && w.whole { StandingAcceptable(log, w.hidden, w.since, ms, origins, price); }
  }

  /** Planned jobs lie within what the log held when they were planned. */
  lemma {:induction false} JobsBehind(log: seq<Record>, ms: seq<Message>, origins: seq<nat>, tokens: nat, policy: Policy, hidden: Hidden)
    requires Chronological(log) && Sourced(log, ms, origins) && PlanJobs(ms, origins, tokens, policy, hidden).Some?
    ensures forall x | 0 <= x < |PlanJobs(ms, origins, tokens, policy, hidden).value| ::
              var j := PlanJobs(ms, origins, tokens, policy, hidden).value[x];
              0 < j.first <= j.last <= LastAt(log)
  {
    PickedSpans(ms, origins, tokens, policy, hidden);
    var jobs, picked := PlanJobs(ms, origins, tokens, policy, hidden).value, Picked(ms, origins, tokens, policy, hidden);
    hide PlanJobs, Picked, SpanFor;
    forall x | 0 <= x < |jobs| ensures 0 < jobs[x].first <= jobs[x].last <= LastAt(log) {
      JobKnown(log, ms, origins, hidden, picked[x], jobs[x]);
    }
  }

  function Zeros(n: nat): seq<nat> { seq(n, i requires 0 <= i < n => 0) }

  lemma {:induction false} NothingSaid(ms: seq<Message>, origins: seq<nat>)
    ensures ms + UserMessages([]) == ms && origins + Zeros(0) == origins
  {}

  lemma {:induction false} SaidNext(ms: seq<Message>, origins: seq<nat>, texts: seq<string>, i: nat)
    requires i < |texts|
    ensures ms + UserMessages(texts[..i + 1]) == (ms + UserMessages(texts[..i])) + [User(texts[i])]
    ensures origins + Zeros(i + 1) == (origins + Zeros(i)) + [0]
  {
    assert UserMessages(texts[..i + 1]) == UserMessages(texts[..i]) + [User(texts[i])];
    assert Zeros(i + 1) == Zeros(i) + [0];
  }

  lemma {:induction false} CancelAddsNoText(items: seq<InboxItem>)
    ensures NudgeTexts(items + [CancelItem]) == NudgeTexts(items) && NudgesIn(items + [CancelItem]) == NudgesIn(items)
  {
    assert (items + [CancelItem])[..|items|] == items;
  }

  lemma {:induction false} AllNudges(items: seq<InboxItem>, texts: seq<string>)
    requires |items| == |texts| && forall i | 0 <= i < |items| :: items[i] == NudgeItem(texts[i])
    ensures NudgeTexts(items) == texts
  {
    if items != [] {
      var n := |items| - 1;
      AllNudges(items[..n], texts[..n]);
      assert texts == texts[..n] + [texts[n]];
    }
  }

  // --- nudges and compactions -----------------------------------------------------------------

  /** A nudge logged behind a sequence. */
  ghost predicate NudgeSince(log: seq<Record>, at: nat, q: Record) { q in log && q.event.Nudge? && q.at > at }

  /** A list reads as a user's text at a sequence. */
  ghost predicate Reads(ms: seq<Message>, origins: seq<nat>, at: nat, text: string) {
    |origins| == |ms| && exists k :: 0 <= k < |ms| && origins[k] == at && ms[k] == User(text)
  }

  ghost predicate JobsBelow(jobs: seq<Job>, at: nat) {
    forall x | 0 <= x < |jobs| :: 0 < jobs[x].first <= jobs[x].last <= at
  }

  lemma {:induction false} NoneListedYet(w: World, log: seq<Record>, ms: seq<Message>, origins: seq<nat>, price: (nat, nat), sound: bool)
    requires ListKept(w, log, ms, origins, price, [], sound)
    ensures forall at: nat :: at > LastAt(log) ==> at !in origins
  {
    hide OwesAs, Synced, LogStanding, Undisturbed, LastAt, SaidAt;
  }

  lemma {:induction false} PlanIsBelow(w: World, log: seq<Record>, ms: seq<Message>, origins: seq<nat>, price: (nat, nat), sound: bool,
                                       replies: nat, tokens: nat, policy: Policy)
    requires Logged(w, log, [], replies) && ListKept(w, log, ms, origins, price, [], sound)
    requires PlanJobs(ms, origins, tokens, policy, w.hidden).Some?
    ensures JobsBelow(PlanJobs(ms, origins, tokens, policy, w.hidden).value, LastAt(log))
  {
    hide OwesAs, Synced, LogStanding, Undisturbed, Sourced, PlanJobs, LastAt, Chronological;
    JobsBehind(log, ms, origins, tokens, policy, w.hidden);
  }

  /** Recording a compaction planned on the list keeps what the turn keeps of its log. */
  lemma {:induction false} LoggedAfterCompaction(w: World, log: seq<Record>, ms: seq<Message>, origins: seq<nat>, price: (nat, nat),
      sound: bool, replies: nat, tokens: nat, policy: Policy, kept: seq<nat>, rec: Record)
    requires Logged(w, log, [], replies) && ListKept(w, log, ms, origins, price, [], sound) && rec.at > LastAt(log)
    requires PlanJobs(ms, origins, tokens, policy, w.hidden).Some?
    requires var jobs := PlanJobs(ms, origins, tokens, policy, w.hidden).value;
             && kept != [] && Indices(kept, |jobs|)
             && rec.event.ContextCompacted? && Records(rec.event.compaction.spans, jobs, kept)
    ensures Logged(w, log + [rec], [], replies)
    ensures Undisturbed(w, log + [rec]) && w.whole ==> LogStanding(log + [rec], w.hidden, w.since, [])
  {
    hide Logged, ListKept, LogStanding, PlanJobs, LastAt, Undisturbed, Settled, Indices, Records;
    var jobs := PlanJobs(ms, origins, tokens, policy, w.hidden).value;
    PlanIsBelow(w, log, ms, origins, price, sound, replies, tokens, policy);
    SpansBelow(jobs, LastAt(log), kept, rec.event.compaction.spans);
    CompactionSettles(rec.event);
    LoggedAfter(w, log, [], replies, rec);
    if Undisturbed(w, log + [rec]) && w.whole {
      StandsBefore(w, log, ms, origins, price, sound, replies, rec);
      LogStandingAfterCompaction(log, w.hidden, w.since, ms, origins, price, tokens, policy, kept, rec);
    }
  }

  lemma {:induction false} SpansBelow(jobs: seq<Job>, at: nat, kept: seq<nat>, spans: seq<SeqSpan>)
    requires JobsBelow(jobs, at) && Indices(kept, |jobs|) && Records(spans, jobs, kept)
    ensures forall k | 0 <= k < |spans| :: 0 < spans[k].from <= spans[k].through <= at
  {}

  lemma {:induction false} CompactionSettles(e: Event)
    requires e.ContextCompacted?
    ensures Settle(Some([]), e) == Some([]) && !Calling(e)
  {}

  lemma {:induction false} StandsBefore(w: World, log: seq<Record>, ms: seq<Message>, origins: seq<nat>, price: (nat, nat),
                                        sound: bool, replies: nat, rec: Record)
    requires Logged(w, log, [], replies) && ListKept(w, log, ms, origins, price, [], sound)
    requires !rec.event.Nudge? && Undisturbed(w, log + [rec]) && w.whole
    ensures InSync(log, w.hidden, ms, origins, price) && LogStanding(log, w.hidden, w.since, [])
  {
    hide Settled, CallingReplies, NudgesLogged, Chronological, SpansBehind, InSync, LogStanding, Sourced, OwesAs, NothingHiddenSince;
    NudgesAfter(log, w.start, rec);
  }

  /** A nudge logged since is covered by nothing: neither by what was recorded before
      it nor by a compaction planned before it. */
  lemma {:induction false} NudgeUncovered(was: seq<Record>, mid: seq<Record>, rec: Record, jobs: seq<Job>, kept: seq<nat>, at: nat)
    requires Chronological(was) && Chronological(mid + [rec]) && SpansBehind(mid + [rec])
    requires LastCompaction(mid) == LastCompaction(was) && rec.event.ContextCompacted?
    requires Indices(kept, |jobs|) && Records(rec.event.compaction.spans, jobs, kept) && JobsBelow(jobs, LastAt(was))
    requires at > LastAt(was)
    ensures forall r, k :: r in mid + [rec] && r.event.ContextCompacted? && 0 <= k < |r.event.compaction.spans| ==>
              r.event.compaction.spans[k].from <= r.event.compaction.spans[k].through < at
  {
    LastMarksBounded(was);
    assert Chronological(mid) by { PrefixChronological(mid, rec); }
    LastCompactionIs(mid);
    hide LastCompaction, LastAt, Chronological;
    forall r, k | r in mid + [rec] && r.event.ContextCompacted? && 0 <= k < |r.event.compaction.spans|
      ensures r.event.compaction.spans[k].from <= r.event.compaction.spans[k].through < at {
      if r in mid {
        assert r in mid + [rec] && r.at <= LastCompaction(mid);
      } else {
        assert r == rec;
      }
    }
  }

  lemma {:induction false} PrefixChronological(log: seq<Record>, r: Record)
    requires Chronological(log + [r])
    ensures Chronological(log)
  {
    forall i | 0 <= i < |log| ensures log[i] == (log + [r])[i] {}
  }

  /** Whether the rebuilt list shows a nudge logged since, and nothing else stands at
      its sequence. */
  lemma {:induction false} NudgeListedIff(log: seq<Record>, hidden: Hidden, prompt: string, q: Record)
    requires Chronological(log) && q in log && q.event.Nudge?
    requires forall r, k :: r in log && r.event.ContextCompacted? && 0 <= k < |r.event.compaction.spans| ==>
               r.event.compaction.spans[k].from <= r.event.compaction.spans[k].through < q.at
    ensures q.at in ListedOrigins(log, hidden) <==> q.at > Floor(log) && !hidden.Contains(q.at)
    ensures q.at in ListedOrigins(log, hidden) ==>
              Reads(ListedMessages(log, hidden, prompt), ListedOrigins(log, hidden), q.at, q.event.text)
  {
    assert q.at > 0;
    assert !CoveredBy(log, Floor(log), q.at);
    HasRecord(log, hidden, q);
    hide CoveredBy, Items, Floor, NoteOf;
    var items := Items(log, hidden);
    if q.at in ListedOrigins(log, hidden) {
      var k :| 0 <= k < |items| && items[k].Origin() == q.at;
      ItemIn(items, k);
      match items[k] {
        case FromRecord(x) =>
          HasRecord(log, hidden, x);
          SameAtSameRecord(log, x, q);
        case FromNote(n) =>
          HasNote(log, hidden, n);
          NoteStandsBelow(log, n, q.at);
      }
    }
    if FromRecord(q) in items {
      var k :| 0 <= k < |items| && items[k] == FromRecord(q);
      ListedNudge(log, hidden, prompt, k, q);
    }
  }

  lemma {:induction false} ListedNudge(log: seq<Record>, hidden: Hidden, prompt: string, k: int, q: Record)
    requires 0 <= k < |Items(log, hidden)| && Items(log, hidden)[k] == FromRecord(q) && q.event.Nudge?
    ensures q.at in ListedOrigins(log, hidden)
    ensures Reads(ListedMessages(log, hidden, prompt), ListedOrigins(log, hidden), q.at, q.event.text)
  {
    hide Items, PlanOf;
    NoteReads(log, hidden, k);
    assert ListedOrigins(log, hidden)[k + 1] == q.at;
    assert ListedMessages(log, hidden, prompt)[k + 1] == User(q.event.text);
  }

  lemma {:induction false} NoteStandsBelow(log: seq<Record>, n: Note, at: nat)
    requires NotedBy(log, n)
    requires forall r, k :: r in log && r.event.ContextCompacted? && 0 <= k < |r.event.compaction.spans| ==>
               r.event.compaction.spans[k].from <= r.event.compaction.spans[k].through < at
    ensures n.at < at
  {
    var r :| r in log && Live(r, Floor(log)) && n == NoteOf(r.event.compaction);
    assert r.event.compaction.spans[0].from == n.at;
  }

  lemma {:induction false} NudgesListedIff(w: World, was: seq<Record>, mid: seq<Record>, rec: Record, jobs: seq<Job>, kept: seq<nat>,
                                           ms: seq<Message>, origins: seq<nat>, price: (nat, nat), replies: nat)
    requires Logged(w, was, [], replies) && Logged(w, mid + [rec], [], replies) && LastCompaction(mid) == LastCompaction(was)
    requires rec.event.ContextCompacted? && InSync(mid + [rec], w.hidden, ms, origins, price)
    requires Indices(kept, |jobs|) && Records(rec.event.compaction.spans, jobs, kept) && JobsBelow(jobs, LastAt(was))
    ensures forall q :: NudgeSince(mid + [rec], LastAt(was), q) ==>
              && (q.at in origins <==> q.at > Floor(mid + [rec]) && !w.hidden.Contains(q.at))
              && (q.at in origins ==> Reads(ms, origins, q.at, q.event.text))
  {
    hide Reads, ListedMessages, ListedOrigins, LogPrice, Settled, CallingReplies, Chronological, SpansBehind, LastCompaction, LastAt;
    hide Indices, Records, JobsBelow, Floor, NothingHiddenSince;
    forall q | NudgeSince(mid + [rec], LastAt(was), q)
      ensures q.at in origins <==> q.at > Floor(mid + [rec]) && !w.hidden.Contains(q.at)
      ensures q.at in origins ==> Reads(ms, origins, q.at, q.event.text) {
      NudgeUncovered(was, mid, rec, jobs, kept, q.at);
      NudgeListedIff(mid + [rec], w.hidden, ms[0].prompt, q);
    }
  }

  /** One of the recorded jobs had a sequence between two neighbours of its span. */
  ghost predicate TornBy(picked: seq<Round>, origins: seq<nat>, kept: seq<nat>, at: nat) {
    exists i :: 0 <= i < |kept| && kept[i] < |picked| && Straddles(origins, picked[kept[i]], at)
  }

  /** What a recorded compaction covers of the user's words. */
  lemma {:induction false} RecordedTears(w: World, log: seq<Record>, ms: seq<Message>, origins: seq<nat>, price: (nat, nat),
      sound: bool, replies: nat, tokens: nat, policy: Policy, kept: seq<nat>, c: Compaction)
    requires Logged(w, log, [], replies) && ListKept(w, log, ms, origins, price, [], sound)
    requires PlanJobs(ms, origins, tokens, policy, w.hidden).Some?
    requires var jobs := PlanJobs(ms, origins, tokens, policy, w.hidden).value;
             Indices(kept, |jobs|) && Records(c.spans, jobs, kept)
    ensures |origins| == |ms|
    ensures forall q :: q in log && q.event.UserKind() ==>
              (SomeHas(c.spans, q.at) <==> TornBy(Picked(ms, origins, tokens, policy, w.hidden), origins, kept, q.at))
    ensures NothingMissing(log, w.hidden, ms, origins) ==>
              forall q :: q in log && q.event.UserKind() ==> !SomeHas(c.spans, q.at)
  {
    PickedSpans(ms, origins, tokens, policy, w.hidden);
    var jobs, picked := PlanJobs(ms, origins, tokens, policy, w.hidden).value, Picked(ms, origins, tokens, policy, w.hidden);
    hide PlanJobs, Picked, Sourced, OwesAs, Synced, LogStanding, Undisturbed, SpanFor, Straddles, NothingMissing, Chronological;
    forall q | q in log && q.event.UserKind()
      ensures SomeHas(c.spans, q.at) <==> TornBy(picked, origins, kept, q.at)
      ensures NothingMissing(log, w.hidden, ms, origins) ==> !SomeHas(c.spans, q.at) {
      forall i | 0 <= i < |kept|
        ensures c.spans[i].Has(q.at) <==> Straddles(origins, picked[kept[i]], q.at)
        ensures NothingMissing(log, w.hidden, ms, origins) ==> !c.spans[i].Has(q.at) {
        JobCoversIff(log, ms, origins, w.hidden, picked[kept[i]], jobs[kept[i]], q);
        if NothingMissing(log, w.hidden, ms, origins) {
          NothingMissingSpares(log, ms, origins, w.hidden, picked[kept[i]], jobs[kept[i]]);
        }
      }
    }
  }

  // --- backing off -----------------------------------------------------------------------------

  /** After an attempt that shed too little, the next waits for a tenth more. */
  ghost predicate Spaced(attempts: seq<Attempt>) {
    forall i | 0 <= i < |attempts| - 1 && !attempts[i].shed ::
      attempts[i + 1].size >= SatAdd(attempts[i].size, attempts[i].size / 10)
  }

  ghost predicate BackedOff(attempts: seq<Attempt>, until: nat) {
    attempts != [] && !attempts[|attempts| - 1].shed ==>
      until >= SatAdd(attempts[|attempts| - 1].size, attempts[|attempts| - 1].size / 10)
  }

  /** A run of fruitless attempts doubles the context every twenty steps, so it is
      logarithmic in the largest size reached. */
  lemma {:induction false} FruitlessAttemptsDouble(attempts: seq<Attempt>, i: nat, m: nat)
    requires Spaced(attempts) && i + 20 * m < |attempts|
    requires forall k | i <= k < |attempts| :: !attempts[k].shed && attempts[k].size < U32_MAX
    requires attempts[i].size >= 10
    ensures attempts[i + 20 * m].size >= Pow2(m) * attempts[i].size
    decreases m
  {
    if m > 0 {
      FruitlessAttemptsGrow(attempts, i, 20, attempts[i].size / 10);
      FruitlessAttemptsDouble(attempts, i + 20, m - 1);
      var a, b := attempts[i].size, attempts[i + 20].size;
      assert b >= 2 * a;
      MulLe(Pow2(m - 1), 2 * a, b);
      assert Pow2(m) * a == Pow2(m - 1) * (2 * a);
    }
  }

  lemma {:induction false} MulLe(k: nat, a: nat, b: nat)
    requires a <= b
    ensures k * a <= k * b
  {}

  function Pow2(m: nat): nat { if m == 0 then 1 else 2 * Pow2(m - 1) }

  lemma {:induction false} FruitlessAttemptsGrow(attempts: seq<Attempt>, i: nat, n: nat, tenth: nat)
    requires Spaced(attempts) && i + n < |attempts|
    requires forall k | i <= k < |attempts| :: !attempts[k].shed && attempts[k].size < U32_MAX
    requires tenth <= attempts[i].size / 10
    ensures attempts[i + n].size >= attempts[i].size + n * tenth
    decreases n
  {
    if n > 0 {
      FruitlessAttemptsGrow(attempts, i, n - 1, tenth);
      var a, b := attempts[i].size, attempts[i + n - 1].size;
      assert b >= a by { MulLe(n - 1, 0, tenth); }
      assert (n - 1) * tenth + tenth == n * tenth;
      assert attempts[i + n].size >= SatAdd(attempts[i + n - 1].size, attempts[i + n - 1].size / 10);
    }
  }

  function SummaryBlock(job: Job, text: string): string {
    "### events " + Dec(job.first) + "-" + Dec(job.last) + "\n\n" + text
  }

  ghost predicate Told(jobs: seq<Job>, kept: seq<nat>, texts: seq<string>) {
    |texts| == |kept| && forall i | 0 <= i < |kept| :: kept[i] < |jobs|
  }

  function Blocks(jobs: seq<Job>, kept: seq<nat>, texts: seq<string>): seq<string>
    requires Told(jobs, kept, texts)
  { seq(|kept|, i requires 0 <= i < |kept| => SummaryBlock(jobs[kept[i]], texts[i])) }

  /** The summary of the chosen jobs: a block each, in order, parted by blank lines. */
  ghost predicate Tells(summary: string, jobs: seq<Job>, kept: seq<nat>, texts: seq<string>) {
    Told(jobs, kept, texts) && summary == Text.Join(Blocks(jobs, kept, texts), "\n\n")
  }

  lemma {:induction false} TellsNext(summary: string, jobs: seq<Job>, kept: seq<nat>, texts: seq<string>, i: nat, text: string)
    requires Tells(summary, jobs, kept, texts) && i < |jobs|
    ensures Tells(summary + (if kept == [] then "" else "\n\n") + SummaryBlock(jobs[i], text), jobs, kept + [i], texts + [text])
  {
    hide SummaryBlock, Text.Join;
    var blocks, block := Blocks(jobs, kept, texts), SummaryBlock(jobs[i], text);
    assert Blocks(jobs, kept + [i], texts + [text]) == blocks + [block];
    Text.JoinSnoc(blocks, block, "\n\n");
    if kept == [] { NothingTold(summary, jobs, texts); }
  }

  lemma {:induction false} NothingTold(summary: string, jobs: seq<Job>, texts: seq<string>)
    requires Tells(summary, jobs, [], texts)
    ensures summary == ""
  {}

  /** The jobs `kept` among the first `i`, their spans and their message count. */
  ghost predicate Chosen(jobs: seq<Job>, i: nat, kept: seq<nat>, spans: seq<SeqSpan>, replaced: nat) {
    && i <= |jobs| && Indices(kept, i) && Indices(kept, |jobs|) && Records(spans, jobs, kept)
    && replaced == MessagesOf(jobs, kept) && |spans| == |kept|
  }

  lemma {:induction false} NothingKept(jobs: seq<Job>)
    ensures Chosen(jobs, 0, [], [], 0) && Tells("", jobs, [], [])
  {}

  lemma {:induction false} ChosenNext(jobs: seq<Job>, i: nat, kept: seq<nat>, spans: seq<SeqSpan>, replaced: nat)
    requires i < |jobs| && Chosen(jobs, i, kept, spans, replaced)
    ensures Chosen(jobs, i + 1, kept, spans, replaced)
    ensures Chosen(jobs, i + 1, kept + [i], spans + [SeqSpan(jobs[i].first, jobs[i].last)], replaced + jobs[i].messages)
  {
    assert (kept + [i])[..|kept|] == kept;
  }
}
