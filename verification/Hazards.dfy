/** Where a turn's own rules do not hold by themselves, and exactly when they do. */
module Hazards {
  import opened EventLog
  import opened HiddenRanges
  import opened Projection
  import opened ProjectionLaws
  import opened Compacting
  import opened CompactionRuns
  import opened BatchRuns
  import opened TurnSync
  import Splice
  import opened TurnTrace
  import TurnLoop
  import TurnDeeds

  /** The results answering a batch, in call order. */
  ghost predicate Answering(results: seq<Message>, calls: seq<Call>) {
    && |results| == |calls|
    && forall i | 0 <= i < |calls| :: results[i].Tool? && results[i].callId == calls[i].id
  }

  lemma {:induction false} ResultsSettle(results: seq<Message>, calls: seq<Call>)
    requires Answering(results, calls)
    ensures OwedAfter(results, Some(Ids(calls))) == Some([])
  {
    if calls != [] {
      assert Ids(calls)[1..] == Ids(calls[1..]);
      ResultsSettle(results[1..], calls[1..]);
    }
  }

  lemma {:induction false} UsersPass(texts: seq<string>)
    ensures OwedAfter(UserMessages(texts), Some([])) == Some([])
  {
    if texts != [] {
      UsersPass(texts[1..]);
      assert UserMessages(texts)[1..] == UserMessages(texts[1..]);
    }
  }

  /** The list after a reply, the nudges flushed behind it and the batch's results is
      acceptable exactly when the reply called nothing or nothing was queued: the
      flush itself does not wait for the calls to be answered. */
  lemma {:induction false} FlushBehindCallsIsLegalIff(ms: seq<Message>, text: string, calls: seq<Call>,
                                                      texts: seq<string>, results: seq<Message>)
    requires Acceptable(ms) && Answering(results, calls)
    ensures Acceptable(ms + [Assistant(text, calls)] + UserMessages(texts) + results)
        <==> calls == [] || texts == []
  {
    var reply, users := [Assistant(text, calls)], UserMessages(texts);
    OwedAfterConcat(ms + reply + users, results, Some([]));
    OwedAfterConcat(ms + reply, users, Some([]));
    OwedAfterConcat(ms, reply, Some([]));
    assert OwedAfter(reply, Some([])) == Some(Ids(calls));
    if calls == [] {
      assert Ids(calls) == [] && results == [];
      UsersPass(texts);
    } else if texts == [] {
      assert users == [];
      ResultsSettle(results, calls);
    } else {
      assert Ids(calls) != [];
      NoneStays(users[1..]);
      NoneStays(results);
    }
  }

  // --- batches in the log ------------------------------------------------------------------

  ghost predicate Uncompacted(log: seq<Record>) {
    forall r :: r in log ==> !r.event.ContextCompacted? && !r.event.ConversationStarted?
  }

  lemma {:induction false} PlainMergeOwes(log: seq<Record>, v: View, owed: Owed)
    requires forall r :: r in log ==> !v.Skips(r.at) && !r.event.ConversationStarted?
    ensures AllBearing(Merge(log, [], v))
    ensures ItemsOwed(Merge(log, [], v), owed) == LogOwedFrom(log, owed)
  {
    if log != [] {
      PlainMergeOwes(log[1..], v, Tick(owed, log[0].event));
      if log[0].event.Bearing() {
        ConsOwed(FromRecord(log[0]), Merge(log[1..], [], v), owed);
      } else {
        assert Merge(log, [], v) == Merge(log[1..], [], v);
      }
    }
  }

  lemma {:induction false} NothingLive(log: seq<Record>, floor: nat)
    requires Uncompacted(log)
    ensures LiveSpans(log, floor) == [] && LiveNotes(log, floor) == [] && Floor(log) == 0
  {
    if log != [] {
      assert log[|log| - 1] in log;
      NothingLive(log[..|log| - 1], floor);
    }
  }

  /** With nothing hidden and nothing compacted, the projected request is acceptable
      exactly when no user text was logged between a call and its results. */
  lemma {:induction false} ProjectionAcceptableIff(log: seq<Record>, prompt: string)
    requires Chronological(log) && Uncompacted(log)
    ensures Acceptable(ListedMessages(log, Hidden([]), prompt)) <==> LogOwed(log) == Some([])
  {
    var hidden := Hidden([]);
    ListedOwes(log, hidden, prompt);
    NothingLive(log, 0);
    LastAtBounds(log);
    var v := PlanOf(log, hidden).view;
    assert Items(log, hidden) == Merge(log, [], v);
    forall r | r in log ensures !v.Skips(r.at) {}
    hide Merge, ItemsOwed, View.Skips, ListedMessages;
    PlainMergeOwes(log, v, Some([]));
  }

  /** A note logged while a call is under way, as a spawned sub-agent's is. */
  const SpawnDuringCall: seq<Record> := [
    Record(1, UserMessage("go", None)),
    Record(2, AssistantMessage("", [Call("c1", "spawn", "{}")], None)),
    Record(3, ToolInvocation(Call("c1", "spawn", "{}"))),
    Record(4, SystemNote("subagent:spawned s1 helper")),
    Record(5, ToolResult("c1", true, "started"))]

  lemma {:induction false} SpawnNoteBreaksTheRequest(prompt: string)
    ensures Chronological(SpawnDuringCall)
    ensures !Acceptable(ListedMessages(SpawnDuringCall, Hidden([]), prompt))
  {
    var log := SpawnDuringCall;
    CallLeftOpen(log[0], log[1], log[2]);
    assert log == log[..3] + [log[3]] + log[4..] && log[..3] == [log[0], log[1], log[2]];
    UserTextInsideABatch(log[..3], log[3], log[4..], prompt);
  }

  lemma {:induction false} CallLeftOpen(a: Record, b: Record, c: Record)
    requires a.event.UserMessage? && b.event.AssistantMessage? && b.event.calls != [] && c.event.ToolInvocation?
    ensures LogOwed([a, b, c]).Some? && LogOwed([a, b, c]) != Some([])
  {
    var owed := Some(Ids(b.event.calls));
    assert [a, b, c][1..] == [b, c] && [b, c][1..] == [c] && [c][1..] == [];
    assert Tick(Some([]), a.event) == Some([]) && Tick(Some([]), b.event) == owed && Tick(owed, c.event) == owed;
    hide Tick;
    assert LogOwedFrom([c], owed) == LogOwedFrom([], owed) == owed;
    assert LogOwedFrom([b, c], Some([])) == owed;
  }

  /** A user-kind record between a call and its result spoils every later request
      of an uncompacted log, whatever follows it. */
  lemma {:induction false} UserTextInsideABatch(before: seq<Record>, r: Record, after: seq<Record>, prompt: string)
    requires Chronological(before + [r] + after) && Uncompacted(before + [r] + after)
    requires LogOwed(before).Some? && LogOwed(before) != Some([]) && r.event.UserKind()
    ensures !Acceptable(ListedMessages(before + [r] + after, Hidden([]), prompt))
  {
    hide ListedMessages, Acceptable, Uncompacted, Chronological;
    ProjectionAcceptableIff(before + [r] + after, prompt);
    BatchBroken(before, r, after);
  }

  lemma {:induction false} BatchBroken(before: seq<Record>, r: Record, after: seq<Record>)
    requires LogOwed(before).Some? && LogOwed(before) != Some([]) && r.event.UserKind()
    ensures LogOwed(before + [r] + after) == None
  {
    LogOwedConcat(before + [r], after, Some([]));
    LogOwedConcat(before, [r], Some([]));
    LogNoneStays(after);
  }

  // --- nudges found while compacting ------------------------------------------------------------

  /** The nudge at place `p` of what was logged, behind those waiting before, is among
      the first `count` taken from the queue. */
  ghost predicate Taken(waiting: seq<string>, more: seq<Record>, p: nat, count: nat) {
    p < |more| && more[p].event.Nudge? && |waiting| + |NudgesLogged(more[..p])| < count
  }

  lemma {:induction false} TakenText(waiting: seq<string>, more: seq<Record>, after: seq<Record>, texts: seq<string>,
                                     rest: seq<string>, p: nat)
    requires waiting + NudgesLogged(more + after) == texts + rest && Taken(waiting, more, p, |texts|)
    ensures more[p].event.text in texts
  {
    hide NudgesLogged;
    var k := |waiting| + |NudgesLogged(more[..p])|;
    NudgeAt(more + after, p);
    assert (more + after)[..p] == more[..p] && (more + after)[p] == more[p];
    assert (waiting + NudgesLogged(more + after))[k] == more[p].event.text;
    assert texts[k] == more[p].event.text;
  }

  lemma {:induction false} NudgeAt(log: seq<Record>, p: nat)
    requires p < |log| && log[p].event.Nudge?
    ensures |NudgesLogged(log[..p])| < |NudgesLogged(log)|
    ensures NudgesLogged(log)[|NudgesLogged(log[..p])|] == log[p].event.text
  {
    NudgesAfterAll(log[..p], 0, log[p..]);
    assert log[..p] + log[p..] == log && (log[..p] + log[p..])[0..] == log && log[..p][0..] == log[..p];
    NudgesAfterAll([log[p]], 0, log[p + 1..]);
    assert [log[p]] + log[p + 1..] == log[p..] && ([log[p]] + log[p + 1..])[0..] == log[p..] && [log[p]][0..] == [log[p]];
    OneNudge(log[p]);
    hide NudgesLogged;
  }

  lemma {:induction false} OneNudge(r: Record)
    requires r.event.Nudge?
    ensures NudgesLogged([r]) == [r.event.text]
  {
    assert [r][..0] == [] && NudgesLogged([]) == [] && [] + [r.event.text] == [r.event.text];
  }

  lemma {:induction false} ReadsThere(ms: seq<Message>, origins: seq<nat>, at: nat, text: string)
    requires Reads(ms, origins, at, text)
    ensures at in origins
  {}

  function Said(reply: Reply): Event { AssistantMessage(reply.text, reply.calls, reply.usage) }

  /** A compaction if one is due, and the request behind it. */
  method CompactThenAsk(t: TurnLoop.Turn)
    returns (reply: Option<Reply>, ghost recorded: bool, ghost list: seq<Message>, ghost sources: seq<nat>, ghost asked: seq<Record>)
    requires t.Kept([], t.iterations) && t.Accounted([]) && t.skipped == [] && !t.answering
    modifies t
    ensures t.Kept([], t.iterations) && t.Accounted([]) && t.said == old(t.said) && t.skipped == []
    ensures reply.Some? ==> t.messages == list && old(t.log) <= asked <= t.log && Chronological(asked) && t.answering
    ensures reply.Some? ==> TurnDeeds.HeardFrom(TurnDeeds.LastStream(t.trace), Said(reply.value), SawCancel(t.trace))
    ensures reply.Some? ==> forall q :: NudgeSince(asked, LastAt(old(t.log)), q) ==>
              (Reads(list, sources, q.at, q.event.text) <==>
                 recorded && q.at > Floor(asked) && !t.world.hidden.Contains(q.at))
  {
    hide Reads, Floor, InSync, Acceptable, LastAt, NudgeTexts, Chronological, NudgesLogged;
    hide TurnLoop.Turn.Kept, TurnLoop.Turn.Accounted, TurnLoop.Turn.ContextEstimate, TurnLoop.Turn.Due, PlanJobs, Urgency, NudgesIn;
    hide TurnLoop.Turn.Outcome, TurnLoop.Turn.NextAttempt, TurnLoop.Turn.SizeOf, TurnDeeds.JustLooked, TurnDeeds.Fails, RunsToEnd, Spoken, CallsAsked, TurnDeeds.HeardFrom, TurnDeeds.LastStream, SawCancel;
    recorded, list, sources, asked := false, [], [], [];
    ghost var _, done, _, _ := t.MaybeCompact(t.iterations);
    recorded, list, sources, asked := done, t.messages, t.origins, t.log;
    t.SaidSoFar([], t.iterations);
    forall q | NudgeSince(asked, LastAt(old(t.log)), q)
      ensures Reads(list, sources, q.at, q.event.text) <==>
                recorded && q.at > Floor(asked) && !t.world.hidden.Contains(q.at) {
      if Reads(list, sources, q.at, q.event.text) { ReadsThere(list, sources, q.at, q.event.text); }
    }
    reply := LookThenAsk(t);
  }

  /** A look for a stop, and the request. */
  method LookThenAsk(t: TurnLoop.Turn) returns (reply: Option<Reply>)
    requires t.Kept([], t.iterations) && t.Accounted([]) && t.skipped == [] && !t.answering
    modifies t
    ensures t.Kept([], t.iterations) && t.Accounted([]) && t.said == old(t.said) && t.skipped == []
    ensures reply.Some? ==> t.messages == old(t.messages) && old(t.log) <= t.log && t.answering
    ensures reply.Some? ==> TurnDeeds.HeardFrom(TurnDeeds.LastStream(t.trace), Said(reply.value), SawCancel(t.trace))
  {
    hide NudgeTexts, NudgesIn, Urgency, TurnLoop.Turn.Kept, TurnLoop.Turn.Accounted, TurnDeeds.JustLooked, TurnDeeds.Fails;
    hide RunsToEnd, Spoken, CallsAsked, TurnDeeds.HeardFrom, TurnDeeds.LastStream, SawCancel;
    var interrupt, _ := t.DrainInbox([], t.iterations);
    if interrupt.Cancelled? { return None; }
    ghost var n := t.iterations;
    var streamed, _ := t.StreamCompletion(n);
    t.iterations := t.iterations + 1;
    reply := if streamed.Ok? then Some(streamed.value) else None;
  }

  /** The reply, and the flush behind it. */
  method AnswerThenFlush(t: TurnLoop.Turn, reply: Reply) returns (ghost texts: seq<string>)
    requires t.Kept([], t.iterations) && t.Accounted([]) && t.skipped == [] && t.answering
    requires TurnDeeds.HeardFrom(TurnDeeds.LastStream(t.trace), Said(reply), SawCancel(t.trace))
    modifies t
    ensures t.Kept(reply.calls, t.iterations) && t.Accounted([]) && t.pending == [] && old(t.log) <= t.log
    ensures t.messages == old(t.messages) + [Assistant(reply.text, reply.calls)] + UserMessages(texts)
    ensures t.said == old(t.said) + texts
  {
    hide TurnLoop.Turn.Kept, TurnLoop.Turn.Accounted, UserMessages, NudgeTexts, Urgency, NudgesIn, LastAt;
    t.LogReply(reply);
    ghost var queued := t.pending;
    ghost var _, items := t.FlushPending(reply.calls, t.iterations);
    texts := queued + NudgeTexts(items);
    assert t.said == old(t.said) + texts;
  }

  /** From a compaction to the flush behind the next reply.  A nudge logged meanwhile and
      taken by then is read on the list the request carries, and pushed a second time
      behind the reply, exactly when the compaction was recorded and the nudge stands
      above the floor and is not hidden; otherwise it is pushed once. */
  method CompactThenAnswer(t: TurnLoop.Turn)
    returns (reply: Option<Reply>, ghost recorded: bool, ghost list: seq<Message>, ghost sources: seq<nat>,
             ghost asked: seq<Record>, ghost texts: seq<string>)
    requires t.Kept([], t.iterations) && t.Accounted([]) && t.pending == [] && t.skipped == [] && !t.answering
    modifies t
    ensures reply.Some? ==> old(t.log) <= asked
    ensures reply.Some? ==> t.messages == list + [Assistant(reply.value.text, reply.value.calls)] + UserMessages(texts)
    ensures reply.Some? ==> forall p :: Taken(old(t.inbox), asked[|old(t.log)|..], p, |texts|) ==>
              var q := asked[|old(t.log)| + p];
              && q.event.Nudge? && q.event.text in texts
              && (Reads(list, sources, q.at, q.event.text) <==>
                    recorded && q.at > Floor(asked) && !t.world.hidden.Contains(q.at))
  {
    hide NudgesLogged, Reads, Floor, NudgeSince, LastAt, TurnLoop.Turn.Kept, TurnLoop.Turn.Accounted, UserMessages, Chronological;
    texts := [];
    t.SaidSoFar([], t.iterations);
    reply, recorded, list, sources, asked := CompactThenAsk(t);
    if reply.None? { return; }
    texts := AnswerThenFlush(t, reply.value);
    t.SaidSoFar(reply.value.calls, t.iterations);
    TakenTwice(old(t.log), asked, t.log, t.world.start, old(t.said), old(t.inbox), texts, t.inbox);
    forall p | Taken(old(t.inbox), asked[|old(t.log)|..], p, |texts|)
      ensures var q := asked[|old(t.log)| + p];
              && q.event.Nudge? && q.event.text in texts
              && (Reads(list, sources, q.at, q.event.text) <==>
                    recorded && q.at > Floor(asked) && !t.world.hidden.Contains(q.at)) {
      assert NudgeSince(asked, LastAt(old(t.log)), asked[|old(t.log)| + p]);
    }
  }

  lemma {:induction false} TakenTwice(was: seq<Record>, asked: seq<Record>, now: seq<Record>, start: nat, said: seq<string>,
                                      waiting: seq<string>, texts: seq<string>, rest: seq<string>)
    requires start <= |was| && was <= asked <= now && Chronological(asked)
    requires NudgesLogged(was[start..]) == said + waiting && NudgesLogged(now[start..]) == said + texts + rest
    ensures forall p :: Taken(waiting, asked[|was|..], p, |texts|) ==>
              && asked[|was| + p].event.Nudge? && asked[|was| + p].event.text in texts
              && NudgeSince(asked, LastAt(was), asked[|was| + p])
  {
    hide NudgesLogged;
    var more, after := asked[|was|..], now[|asked|..];
    assert now == was + (more + after) && (was + (more + after))[start..] == now[start..];
    NudgesAfterAll(was, start, more + after);
    assert said + (waiting + NudgesLogged(more + after)) == (said + waiting) + NudgesLogged(more + after);
    assert said + (texts + rest) == (said + texts) + rest;
    Uncons(said, waiting + NudgesLogged(more + after), texts + rest);
    forall p | Taken(waiting, more, p, |texts|)
      ensures asked[|was| + p].event.text in texts && NudgeSince(asked, LastAt(was), asked[|was| + p]) {
      TakenText(waiting, more, after, texts, rest, p);
    }
  }

  lemma {:induction false} Uncons<T>(front: seq<T>, a: seq<T>, b: seq<T>)
    requires front + a == front + b
    ensures a == b
  {
    assert a == (front + a)[|front|..] && b == (front + b)[|front|..];
  }
}
